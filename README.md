# Mesh edge and adjacency extraction

This project models `calculate_edges` of the native shadow-casting core in
Dafny and proves properties of it. `calculate_edges` takes a triangle mesh:
- a vertex buffer;
- a flat buffer of signed 32-bit indices, read three at a time;
- a transform.

It returns one `IndexedLine` per distinct side of the mesh's triangles. Each
record carries the at most two triangle tags that the side's endpoints share.

The code works in three stages. The model follows them one by one:

1. `CollectSides` walks the index buffer chunk by chunk. It adds the directed
   sides `(v0, v1)`, `(v1, v2)` and `(v2, v0)` of each triangle to a set.
2. `CollectTags` walks the index buffer entry by entry. It maps each vertex
   value to the set of tags `i / 3` of the index values `i` that address it.
3. `Annotate` visits the sides in hash-set order. For each side it intersects
   the tag sets of the two endpoints and keeps the first two members that an
   iteration over the intersection yields.

`CalculateEdges` chains the three stages. Its postcondition is
`IsEdgeResult`: every distinct directed side exactly once, in some order, and
each with an owner pair allowed by `OwnersOf`. The properties of results are
proved about `IsEdgeResult`.

Hash-set iteration order is unspecified. `Enumerate` models it: it lists a
set in an arbitrary order without repetition. `OwnerPairReachable` shows that
this is no stronger than the code. Every owner pair that `OwnersOf` admits is
produced by some iteration order.

Conventions of the model:
- `Vec3` is three 32-bit float bit patterns compared structurally. That is
  the view the kernel's `Hash` implementation takes.
- `Line3` compares its endpoints in order.
- `Mat4` is four rows of four entries, carried but never read.
- The three panics of the code are preconditions, collected in `WellFormed`:
  - an index outside the vertex buffer;
  - a short last chunk;
  - a NaN coordinate in an addressed vertex. Float equality makes such a
    vertex unequal to itself. Each of its entries then opens a fresh map key,
    and the lookup `applied[&l.a]` (`edges.rs:51`) finds none.

The code's behaviour differs in four ways from what adjacency information
for shadow volumes is usually expected to be. The model follows the code:

- **Tags come from index values, not from triangle positions.** A corner's
  tag is its index value divided by three (`edges.rs:42`). Tags are triangle
  numbers when every index value lies in the same chunk of three as its
  position, `indices[k] / 3 == k / 3` (`PositionalTagsOwned`). An unindexed
  mesh is one such case, and so is `[2, 1, 0]`. Otherwise they need not be.
  - A side shared by two triangles is expected to get both as owners. That
    happens for a mesh stored without shared entries (`UnindexedSharedSide`).
  - With shared entries, `[0, 1, 2, 1, 2, 3]`, the shared side gets a single
    owner.
  - The side `(r, s)` of the second triangle gets `(None, None)`
    (`IndexedSharedSide`), although every side borders at least one triangle.
- **Owner values need not be triangle numbers.** An owner is expected to be
  an offset into the triangle list. What holds is that three times an owner
  is less than the number of vertices (`OwnerTagsBounded`).
- **Edges are directed.** Adjacency is normally about undirected edges, but
  `Line3` equality is ordered (`math.rs:95-100`). Two triangles that wind
  their common side in opposite directions report it twice, once per
  direction (`OppositeWindingSide`).
- **Vertex equality is float equality.** The code's `PartialEq` compares
  floats, and only `Hash` uses bits. NaN is excluded above. Otherwise the
  two differ only on signed zeros, and the model uses bitwise equality
  throughout.

## Model

| member | source | states |
|---|---|---|
| `Edges.CalculateEdges` | Native/sc_native/src/edges.rs:26-59 | On a well-formed mesh (indices in range, whole triangles), the result lists every distinct directed side exactly once, each with an owner pair admitted by the tags its endpoints share |
| `Edges.CollectSides` | Native/sc_native/src/edges.rs:29-37 | The loop over chunks of three builds exactly the edge set: the union of the three directed sides of every triangle |
| `Edges.CollectTags` | Native/sc_native/src/edges.rs:39-47 | The loop over index entries builds exactly the vertex-to-tags map, where each entry adds `i / 3` to the set for `verts[i]` |
| `Edges.Annotate` | Native/sc_native/src/edges.rs:49-58 | One record per side in iteration order with the side unchanged, and each record's owner pair admitted by the intersection of its endpoints' tag sets |
| `Edges.Enumerate` | Native/sc_native/src/edges.rs:49 | Iterating a hash set yields each member exactly once and nothing else |
| `Edges.EdgeSetMembership` | Native/sc_native/src/edges.rs:31-37 | A line is in the edge set if and only if it is one of the three directed sides of some triangle of the buffer |
| `Edges.ResultLines` | Native/sc_native/src/edges.rs:31-37 | A line appears in the output if and only if it is a directed side of some triangle, so every triangle's sides are all reported and nothing else is |
| `Edges.ResultLength` | Native/sc_native/src/edges.rs:49-58 | The output has exactly as many records as there are distinct directed sides, at most three per triangle |
| `Edges.EdgeCountBound` | Native/sc_native/src/edges.rs:31-37 | Each triangle contributes at most three sides to the edge set |
| `Edges.AppliedKeys` | Native/sc_native/src/edges.rs:39-47 | A vertex value is a key of the map if and only if some index entry addresses it |
| `Edges.AppliedTags` | Native/sc_native/src/edges.rs:39-47 | Tag `t` is recorded for `v` if and only if some index entry addressing `v` has value `i` with `i / 3 == t` |
| `Edges.EndpointsApplied` | Native/sc_native/src/edges.rs:51 | Both map lookups for an edge's endpoints succeed, because each endpoint is addressed by some index entry |
| `Edges.FirstTwoOwners` | Native/sc_native/src/edges.rs:51-55 | The first two items of any iteration over the common tags are `(None, None)` for no tags, `(Some x, None)` for the single tag `x`, and two distinct common tags otherwise |
| `Edges.OwnerPairReachable` | Native/sc_native/src/edges.rs:51-55 | Every owner pair the specification admits is produced by some iteration order, so the specification is no stronger than the code |
| `Edges.CommonTagsShared` | Native/sc_native/src/edges.rs:39-51 | A tag is in the intersection of the endpoints' tag sets if and only if some entry addressing each endpoint reads as that tag |
| `Edges.ResultOwners` | Native/sc_native/src/edges.rs:49-55 | Every reported owner is a tag both endpoints share. The second owner differs from the first and never appears without it. No first owner means no shared tag. A single owner means no other shared tag |
| `Edges.OwnerTagsBounded` | Native/sc_native/src/edges.rs:40-46 | Every reported owner `x` is one third of an index value, so three times it is less than the number of vertices |
| `Edges.PositionalTagsOwned` | Native/sc_native/src/edges.rs:40-55 | When every index value lies in the same chunk of three as its position, every output side has a first owner |
| `Edges.OppositeWindingsStaySeparate` | Native/sc_native/src/edges.rs:34-36 | A side present in both directions, with distinct endpoints, yields two different records |
| `Geometry.LineOrderMatters` | Native/sc_native/src/math.rs:94-100 | Two lines with swapped endpoints are equal only when the endpoints coincide |
| `Edges.TransformIgnored` | Native/sc_native/src/edges.rs:27 | Replacing the transform does not change which results are admissible |
| `Edges.OwnersDetermined` | Native/sc_native/src/edges.rs:51-55 | When at most one tag is shared, the owner pair is fully determined |
| `Edges.SameSides` | Native/sc_native/src/edges.rs:29-58 | Any two results for the same mesh have the same length and report the same sides |
| `Edges.ResultsAgree` | Native/sc_native/src/edges.rs:51-55 | Any two results for the same mesh give the same owners to every side whose endpoints share at most one tag |
| `Edges.SingleTriangle` | Native/sc_native/src/edges.rs:26-59 | One triangle `[0, 1, 2]` with distinct corners yields exactly its three sides, each owned by triangle 0 alone |
| `Edges.UnindexedSharedSide` | Native/sc_native/src/edges.rs:26-59 | Two same-wound triangles stored as `[0, 1, 2, 3, 4, 5]` yield five records. The common side is owned by both triangles, and every other side has exactly one owner |
| `Edges.IndexedSharedSide` | Native/sc_native/src/edges.rs:40-55 | The same triangles stored as `[0, 1, 2, 1, 2, 3]` yield five records. The common side has the single owner 0, and the side `(r, s)` has none |
| `Edges.OppositeWindingSide` | Native/sc_native/src/edges.rs:31-37 | Two triangles winding their common side in opposite directions yield six records, with both directions of that side present |

## Left out

- Arithmetic on vectors and matrices (`dot`, `cross`, `Add`, `Sub`, `Mul`, `Mat4 * Vec3`, `Mat4::identity`): floating-point numerics that edge extraction never uses.
- Signed zeros: `Vec3`'s float `PartialEq` finds 0.0 equal to -0.0, while its `Hash` tells them apart. Rust does not specify how hash collections behave with such keys. The model treats them as different vertices, as `Hash` does.
- Edges.CollectTags: computes the tag as exact integer division `i / 3`, whereas the source goes through `f32` and `floor`. The two agree for index values below 2^24. Above that, the rounding of the `f32` conversion is not modelled.
- Panics are not modelled as outcomes. `WellFormed` excludes every input that panics:
  - an index outside the vertex buffer, a negative `i32` included (its `usize` cast is huge);
  - a short last chunk;
  - a NaN coordinate in an addressed vertex.
- `Caster::new` stores its arguments unchanged. It is the datatype constructor `Caster(verts, indices, transform)`, with nothing to prove.
- The order of the output: it is whatever order iteration over the hash set gives. The model leaves it arbitrary, apart from having no repetitions.
- Triangle–triangle intersection and its `intersect` wrapper in `Native/sc_native/src/lib.rs`. The algorithm's source, the `triangle` module, is not part of this model, and it is floating-point geometry.
- `test_sum`, `vec_sum` and `generate_dynamic_array` in `Native/sc_native/src/lib.rs`: raw-pointer test stubs and an ownership hand-off across the foreign-function boundary.
- `Assets/Logic/Edges.cs` and `Assets/Logic/Intersection.cs`: engine components, interop declarations, marshalling and debug drawing.
- `Native/sc_native/copy_files/src/main.rs`: file copying and code generation, which is pure I/O.
