/**
 * Edge and adjacency extraction for a triangle mesh (`calculate_edges`).
 *
 * The index buffer is read three entries at a time, one triangle per chunk.
 * The extractor collects the directed sides of every triangle into a set,
 * builds a map from each vertex value to the tags of the triangles that use
 * it, and reports for every distinct side the first one or two tags its two
 * endpoints have in common.
 *
 * Two behaviours of the code are kept as they are:
 *  - the tag of a corner is its index VALUE divided by three, not its
 *    position in the index buffer divided by three;
 *  - sides are compared with their endpoints in order, so a side shared by
 *    two triangles that wind it in opposite directions is reported twice.
 *
 * Hash-set iteration order is unspecified; it is modelled by `Enumerate`,
 * which lists a set in an arbitrary order without repetition.
 */
module Edges {
  import opened Options
  import opened Geometry

  /** A signed 32-bit entry of the index buffer. */
  newtype int32 = x: int | -0x8000_0000 <= x < 0x8000_0000

  /**
   * The input mesh bundle. `Caster(verts, indices, transform)` is the
   * constructor `Caster::new`: it stores its three arguments unchanged.
   */
  datatype Caster = Caster(verts: seq<Vec3>, indices: seq<int32>, transform: Mat4)

  /** The first and second common triangle tag found for an edge, if any. */
  type OwnerPair = (Option<nat>, Option<nat>)

  /** One output record: a side of the mesh and the triangles it borders. */
  datatype IndexedLine = IndexedLine(line: Line3, tris: OwnerPair)

  // ---------------------------------------------------------------------
  // Input contract
  // ---------------------------------------------------------------------

  /** Every index addresses a vertex; otherwise the vertex lookup panics. */
  predicate IndicesInRange(verts: seq<Vec3>, indices: seq<int32>)
  {
    forall k :: 0 <= k < |indices| ==> 0 <= indices[k] as int < |verts|
  }

  /**
   * No vertex the buffer addresses has a NaN coordinate. Float equality
   * makes such a vertex unequal to itself, so each of its entries opens a
   * fresh map key and the later lookup of its tags panics.
   */
  predicate AddressedNotNaN(verts: seq<Vec3>, indices: seq<int32>)
    requires IndicesInRange(verts, indices)
  {
    forall k :: 0 <= k < |indices| ==> !HasNaN(verts[indices[k]])
  }

  /**
   * What `calculate_edges` demands of its caller: indices in range, whole
   * triangles only (a short last chunk makes the lookup of its second or
   * third corner panic), and no NaN among the addressed vertices.
   */
  predicate WellFormed(c: Caster)
  {
    && |c.indices| % 3 == 0
    && IndicesInRange(c.verts, c.indices)
    && AddressedNotNaN(c.verts, c.indices)
  }

  // ---------------------------------------------------------------------
  // Specification functions
  // ---------------------------------------------------------------------

  /** The vertex at corner position `k` of the index buffer. */
  function Corner(verts: seq<Vec3>, indices: seq<int32>, k: nat): Vec3
    requires IndicesInRange(verts, indices) && k < |indices|
  {
    verts[indices[k]]
  }

  /** The tag an index value contributes: the value divided by three, rounded down. */
  function Tag(i: int32): nat
    requires 0 <= i
  {
    i as int / 3
  }

  /** The three directed sides of the triangle held in chunk `t`. */
  function Sides(verts: seq<Vec3>, indices: seq<int32>, t: nat): set<Line3>
    requires IndicesInRange(verts, indices) && 3 * t + 2 < |indices|
  {
    var v0 := Corner(verts, indices, 3 * t);
    var v1 := Corner(verts, indices, 3 * t + 1);
    var v2 := Corner(verts, indices, 3 * t + 2);
    {Line3(v0, v1), Line3(v1, v2), Line3(v2, v0)}
  }

  /** The set of directed sides after reading the whole index buffer. */
  function EdgeSet(verts: seq<Vec3>, indices: seq<int32>): set<Line3>
    requires IndicesInRange(verts, indices) && |indices| % 3 == 0
    decreases |indices|
  {
    if |indices| == 0 then {}
    else EdgeSet(verts, indices[..|indices| - 3]) + Sides(verts, indices, |indices| / 3 - 1)
  }

  /** The tags recorded for `v` in `applied`; none when `v` is not a key. */
  function TagsOf(applied: map<Vec3, set<nat>>, v: Vec3): set<nat>
  {
    if v in applied then applied[v] else {}
  }

  /** The map from vertex value to tags after reading the whole index buffer. */
  function Applied(verts: seq<Vec3>, indices: seq<int32>): map<Vec3, set<nat>>
    requires IndicesInRange(verts, indices)
    decreases |indices|
  {
    if |indices| == 0 then map[]
    else
      var applied := Applied(verts, indices[..|indices| - 1]);
      var v := Corner(verts, indices, |indices| - 1);
      applied[v := TagsOf(applied, v) + {Tag(indices[|indices| - 1])}]
  }

  /** The tags both endpoints of `l` carry. */
  function CommonTags(applied: map<Vec3, set<nat>>, l: Line3): set<nat>
  {
    TagsOf(applied, l.a) * TagsOf(applied, l.b)
  }

  /** `xs` lists the members of `s`, each exactly once, in some order. */
  ghost predicate Enumerates<T(!new)>(xs: seq<T>, s: set<T>)
  {
    && (forall p, q :: 0 <= p < q < |xs| ==> xs[p] != xs[q])
    && (forall x :: x in xs <==> x in s)
  }

  /**
   * The owner pairs the extractor may report for an edge whose endpoints
   * share exactly the tags `s`: nothing when `s` is empty, its one member
   * when it has one, and two distinct members otherwise; never a second
   * owner without a first.
   */
  predicate OwnersOf(s: set<nat>, p: OwnerPair)
  {
    match p
    case (None, None) => s == {}
    case (Some(x), None) => s == {x}
    case (Some(x), Some(y)) => x != y && x in s && y in s
    case (None, Some(_)) => false
  }

  /** The first two items an iterator over `xs` yields. */
  function FirstTwo(xs: seq<nat>): OwnerPair
  {
    (if |xs| > 0 then Some(xs[0]) else None, if |xs| > 1 then Some(xs[1]) else None)
  }

  /** The sides of the output records, in output order. */
  function LinesOf(out: seq<IndexedLine>): seq<Line3>
  {
    seq(|out|, k requires 0 <= k < |out| => out[k].line)
  }

  /**
   * What a call of `calculate_edges` on `c` may return: every distinct
   * directed side exactly once, in some order, each with an owner pair
   * drawn from the tags its endpoints share.
   */
  ghost predicate IsEdgeResult(c: Caster, out: seq<IndexedLine>)
    requires WellFormed(c)
  {
    && Enumerates(LinesOf(out), EdgeSet(c.verts, c.indices))
    && forall k :: 0 <= k < |out| ==>
         OwnersOf(CommonTags(Applied(c.verts, c.indices), out[k].line), out[k].tris)
  }

  // ---------------------------------------------------------------------
  // The extractor
  // ---------------------------------------------------------------------

  /** Iteration over a hash set: every member once, in an unspecified order. */
  method Enumerate<T(!new)>(s: set<T>) returns (xs: seq<T>)
    ensures Enumerates(xs, s)
  {
    xs := [];
    var rest := s;
    while rest != {}
      invariant rest <= s
      invariant Enumerates(xs, s - rest)
      decreases |rest|
    {
      var x :| x in rest;
      xs := xs + [x];
      rest := rest - {x};
    }
  }

  /** Lines 29-37 of `calculate_edges`: the sides of every triangle, deduplicated with endpoints in order. */
  method CollectSides(verts: seq<Vec3>, indices: seq<int32>) returns (edges: set<Line3>)
    requires IndicesInRange(verts, indices) && |indices| % 3 == 0
    ensures edges == EdgeSet(verts, indices)
  {
    edges := {};
    var k := 0;
    while k < |indices|
      invariant 0 <= k <= |indices| && k % 3 == 0
      invariant IndicesInRange(verts, indices[..k])
      invariant edges == EdgeSet(verts, indices[..k])
    {
      var v0, v1, v2 := verts[indices[k]], verts[indices[k + 1]], verts[indices[k + 2]];
      edges := edges + {Line3(v0, v1)};
      edges := edges + {Line3(v1, v2)};
      edges := edges + {Line3(v2, v0)};
      assert indices[..k + 3][..k] == indices[..k];
      k := k + 3;
    }
    assert indices[..k] == indices;
  }

  /** Lines 39-47: for every vertex value, the tags of the index values that address it. */
  method CollectTags(verts: seq<Vec3>, indices: seq<int32>) returns (applied: map<Vec3, set<nat>>)
    requires IndicesInRange(verts, indices)
    ensures applied == Applied(verts, indices)
  {
    applied := map[];
    var j := 0;
    while j < |indices|
      invariant 0 <= j <= |indices|
      invariant IndicesInRange(verts, indices[..j])
      invariant applied == Applied(verts, indices[..j])
    {
      var i := indices[j];
      var v := verts[i];
      var t := Tag(i);
      var tags := if v in applied then applied[v] else {};
      applied := applied[v := tags + {t}];
      assert indices[..j + 1][..j] == indices[..j];
      j := j + 1;
    }
    assert indices[..j] == indices;
  }

  /**
   * Lines 49-58: one record per side, in the order `lines` gives, with the
   * first two tags an iteration over the shared tags yields.
   */
  method Annotate(lines: seq<Line3>, applied: map<Vec3, set<nat>>) returns (out: seq<IndexedLine>)
    requires forall l :: l in lines ==> l.a in applied && l.b in applied
    ensures LinesOf(out) == lines
    ensures forall k :: 0 <= k < |out| ==> OwnersOf(CommonTags(applied, out[k].line), out[k].tris)
  {
    out := [];
    var n := 0;
    while n < |lines|
      invariant 0 <= n <= |lines|
      invariant |out| == n
      invariant forall p :: 0 <= p < n ==> out[p].line == lines[p]
      invariant forall p :: 0 <= p < n ==> OwnersOf(CommonTags(applied, out[p].line), out[p].tris)
    {
      var l := lines[n];
      var shared := applied[l.a] * applied[l.b];
      var order := Enumerate(shared);
      FirstTwoOwners(order, shared);
      out := out + [IndexedLine(l, FirstTwo(order))];
      n := n + 1;
    }
  }

  /** `calculate_edges`: the transform is discarded unread. */
  method CalculateEdges(caster: Caster) returns (out: seq<IndexedLine>)
    requires WellFormed(caster)
    ensures IsEdgeResult(caster, out)
  {
    var verts, indices := caster.verts, caster.indices;
    var edges := CollectSides(verts, indices);
    var applied := CollectTags(verts, indices);
    var lines := Enumerate(edges);
    forall l | l in lines
      ensures l.a in applied && l.b in applied
    {
      EndpointsApplied(verts, indices, l);
    }
    out := Annotate(lines, applied);
  }

  // ---------------------------------------------------------------------
  // Properties of the specification
  // ---------------------------------------------------------------------

  lemma CornerOfPrefix(verts: seq<Vec3>, indices: seq<int32>, m: nat, k: nat)
    requires IndicesInRange(verts, indices) && k < m <= |indices|
    ensures IndicesInRange(verts, indices[..m])
    ensures Corner(verts, indices[..m], k) == Corner(verts, indices, k)
  {
  }

  /**
   * A side is in the edge set exactly when it is one of the three directed
   * sides of some triangle of the buffer.
   */
  lemma {:induction false} EdgeSetMembership(verts: seq<Vec3>, indices: seq<int32>, l: Line3)
    requires IndicesInRange(verts, indices) && |indices| % 3 == 0
    ensures l in EdgeSet(verts, indices) <==>
              exists t: nat :: 3 * t + 2 < |indices| && l in Sides(verts, indices, t)
  {
    if |indices| > 0 {
      var m := |indices| - 3;
      var prefix := indices[..m];
      EdgeSetMembership(verts, prefix, l);
      forall t: nat | 3 * t + 2 < m
        ensures Sides(verts, prefix, t) == Sides(verts, indices, t)
      {
        CornerOfPrefix(verts, indices, m, 3 * t);
        CornerOfPrefix(verts, indices, m, 3 * t + 1);
        CornerOfPrefix(verts, indices, m, 3 * t + 2);
      }
      if l in EdgeSet(verts, indices) && l !in Sides(verts, indices, |indices| / 3 - 1) {
        var t: nat :| 3 * t + 2 < m && l in Sides(verts, prefix, t);
        assert l in Sides(verts, indices, t);
      }
    }
  }

  /** Each triangle contributes at most three sides: E <= 3T. */
  lemma {:induction false} EdgeCountBound(verts: seq<Vec3>, indices: seq<int32>)
    requires IndicesInRange(verts, indices) && |indices| % 3 == 0
    ensures |EdgeSet(verts, indices)| <= |indices|
  {
    if |indices| > 0 {
      var prefix := indices[..|indices| - 3];
      EdgeCountBound(verts, prefix);
      var s := Sides(verts, indices, |indices| / 3 - 1);
      var v0 := Corner(verts, indices, |indices| - 3);
      var v1 := Corner(verts, indices, |indices| - 2);
      var v2 := Corner(verts, indices, |indices| - 1);
      assert s == {Line3(v0, v1)} + {Line3(v1, v2)} + {Line3(v2, v0)};
      assert |s| <= 3;
      assert |EdgeSet(verts, prefix) + s| <= |EdgeSet(verts, prefix)| + |s|;
    }
  }

  /** A vertex value is a key of the map exactly when some index addresses it. */
  lemma {:induction false} AppliedKeys(verts: seq<Vec3>, indices: seq<int32>, v: Vec3)
    requires IndicesInRange(verts, indices)
    ensures v in Applied(verts, indices) <==>
              exists k :: 0 <= k < |indices| && Corner(verts, indices, k) == v
  {
    if |indices| > 0 {
      var m := |indices| - 1;
      AppliedKeys(verts, indices[..m], v);
      forall k | 0 <= k < m
        ensures Corner(verts, indices[..m], k) == Corner(verts, indices, k)
      {
        CornerOfPrefix(verts, indices, m, k);
      }
    }
  }

  /**
   * The tags recorded for `v` are exactly `i / 3` for the index values `i`
   * that address `v`.
   */
  lemma {:induction false} AppliedTags(verts: seq<Vec3>, indices: seq<int32>, v: Vec3, t: nat)
    requires IndicesInRange(verts, indices)
    ensures t in TagsOf(Applied(verts, indices), v) <==>
              exists k :: 0 <= k < |indices| && Corner(verts, indices, k) == v && Tag(indices[k]) == t
  {
    if |indices| > 0 {
      var m := |indices| - 1;
      AppliedTags(verts, indices[..m], v, t);
      forall k | 0 <= k < m
        ensures Corner(verts, indices[..m], k) == Corner(verts, indices, k)
        ensures indices[..m][k] == indices[k]
      {
        CornerOfPrefix(verts, indices, m, k);
      }
    }
  }

  /** The endpoints of a side of triangle `t` are corners of that triangle. */
  lemma SideCorners(verts: seq<Vec3>, indices: seq<int32>, t: nat, l: Line3)
    requires IndicesInRange(verts, indices) && 3 * t + 2 < |indices|
    requires l in Sides(verts, indices, t)
    ensures exists ka, kb :: 3 * t <= ka < 3 * t + 3 && 3 * t <= kb < 3 * t + 3 &&
              Corner(verts, indices, ka) == l.a && Corner(verts, indices, kb) == l.b
  {
    var k0, k1, k2 := 3 * t, 3 * t + 1, 3 * t + 2;
    if l == Line3(Corner(verts, indices, k0), Corner(verts, indices, k1)) {
      assert Corner(verts, indices, k0) == l.a && Corner(verts, indices, k1) == l.b;
    } else if l == Line3(Corner(verts, indices, k1), Corner(verts, indices, k2)) {
      assert Corner(verts, indices, k1) == l.a && Corner(verts, indices, k2) == l.b;
    } else {
      assert Corner(verts, indices, k2) == l.a && Corner(verts, indices, k0) == l.b;
    }
  }

  /** Both map lookups for an edge's endpoints succeed. */
  lemma EndpointsApplied(verts: seq<Vec3>, indices: seq<int32>, l: Line3)
    requires IndicesInRange(verts, indices) && |indices| % 3 == 0
    requires l in EdgeSet(verts, indices)
    ensures l.a in Applied(verts, indices) && l.b in Applied(verts, indices)
  {
    EdgeSetMembership(verts, indices, l);
    var t: nat :| 3 * t + 2 < |indices| && l in Sides(verts, indices, t);
    SideCorners(verts, indices, t, l);
    AppliedKeys(verts, indices, l.a);
    AppliedKeys(verts, indices, l.b);
  }

  /** The first two items of any iteration over `s` form an admissible owner pair. */
  lemma FirstTwoOwners(xs: seq<nat>, s: set<nat>)
    requires Enumerates(xs, s)
    ensures OwnersOf(s, FirstTwo(xs))
  {
    if |xs| == 0 {
      assert forall x :: x !in xs;
    } else if |xs| == 1 {
      assert s == {xs[0]} by {
        forall x | x in s ensures x == xs[0] { assert x in xs; }
      }
    } else {
      assert xs[0] in xs && xs[1] in xs;
    }
  }

  /** A listing of a finite set, each member once. */
  ghost function ListOf<T(!new)>(s: set<T>): (xs: seq<T>)
    ensures Enumerates(xs, s)
    decreases |s|
  {
    if s == {} then []
    else
      var x :| x in s;
      [x] + ListOf(s - {x})
  }

  /**
   * Conversely, every admissible owner pair is what some iteration order
   * yields: the model leaves the choice of owners exactly as open as
   * hash-set iteration does.
   */
  lemma OwnerPairReachable(s: set<nat>, p: OwnerPair)
    requires OwnersOf(s, p)
    ensures exists xs :: Enumerates(xs, s) && FirstTwo(xs) == p
  {
    match p
    case (None, None) =>
      assert Enumerates([], s) && FirstTwo([]) == p;
    case (Some(x), None) =>
      assert Enumerates([x], s) && FirstTwo([x]) == p;
    case (Some(x), Some(y)) =>
      var rest := ListOf(s - {x, y});
      var xs := [x, y] + rest;
      assert forall z :: z in xs <==> z == x || z == y || z in rest;
      assert Enumerates(xs, s);
      assert FirstTwo(xs) == p;
  }

  /** A listing without repetition has as many items as its set has members. */
  lemma {:induction false} EnumerationLength<T(!new)>(xs: seq<T>, s: set<T>)
    requires Enumerates(xs, s)
    ensures |xs| == |s|
  {
    if |xs| > 0 {
      var rest := xs[1..];
      assert forall z :: z in rest <==> z in s - {xs[0]} by {
        forall z ensures z in rest <==> z in s - {xs[0]} {
          if z in rest {
            var q :| 0 <= q < |rest| && rest[q] == z;
            assert xs[q + 1] == z;
          }
          if z in s - {xs[0]} {
            assert z in xs;
            var q :| 0 <= q < |xs| && xs[q] == z;
            assert rest[q - 1] == z;
          }
        }
      }
      EnumerationLength(rest, s - {xs[0]});
    }
  }

  // ---------------------------------------------------------------------
  // Properties of every result
  // ---------------------------------------------------------------------

  /** The output has exactly one record per distinct directed side. */
  lemma ResultLength(c: Caster, out: seq<IndexedLine>)
    requires WellFormed(c) && IsEdgeResult(c, out)
    ensures |out| == |EdgeSet(c.verts, c.indices)| <= |c.indices|
  {
    EnumerationLength(LinesOf(out), EdgeSet(c.verts, c.indices));
    EdgeCountBound(c.verts, c.indices);
  }

  /**
   * A side wound both ways round by the buffer yields two records, one per
   * direction, unless its endpoints coincide.
   */
  lemma OppositeWindingsStaySeparate(c: Caster, out: seq<IndexedLine>, a: Vec3, b: Vec3)
    requires WellFormed(c) && IsEdgeResult(c, out)
    requires Line3(a, b) in EdgeSet(c.verts, c.indices) && Line3(b, a) in EdgeSet(c.verts, c.indices)
    requires a != b
    ensures exists p, q :: 0 <= p < |out| && 0 <= q < |out| && p != q &&
              out[p].line == Line3(a, b) && out[q].line == Line3(b, a)
  {
    var lines := LinesOf(out);
    assert Line3(a, b) in lines && Line3(b, a) in lines;
    var p :| 0 <= p < |lines| && lines[p] == Line3(a, b);
    var q :| 0 <= q < |lines| && lines[q] == Line3(b, a);
    assert out[p].line == Line3(a, b) && out[q].line == Line3(b, a);
  }

  /** Every reported owner `x` is one third of some index value, so `3 * x < |verts|`. */
  lemma OwnerTagsBounded(c: Caster, out: seq<IndexedLine>, k: nat)
    requires WellFormed(c) && IsEdgeResult(c, out) && k < |out|
    ensures out[k].tris.0.Some? ==> 3 * out[k].tris.0.value < |c.verts|
    ensures out[k].tris.1.Some? ==> 3 * out[k].tris.1.value < |c.verts|
  {
    var l := out[k].line;
    var s := CommonTags(Applied(c.verts, c.indices), l);
    assert OwnersOf(s, out[k].tris);
    forall x | x in s ensures 3 * x < |c.verts| {
      AppliedTags(c.verts, c.indices, l.a, x);
      var i :| 0 <= i < |c.indices| && Corner(c.verts, c.indices, i) == l.a && Tag(c.indices[i]) == x;
    }
  }

  /**
   * A side is reported exactly when it is one of the three directed sides of
   * some triangle of the buffer.
   */
  lemma ResultLines(c: Caster, out: seq<IndexedLine>, l: Line3)
    requires WellFormed(c) && IsEdgeResult(c, out)
    ensures l in LinesOf(out) <==>
              exists t: nat :: 3 * t + 2 < |c.indices| && l in Sides(c.verts, c.indices, t)
  {
    EdgeSetMembership(c.verts, c.indices, l);
  }

  /**
   * Tag `x` is shared by the endpoints of `l`: some index value addressing
   * `l.a` and some index value addressing `l.b` both read as `x`.
   */
  ghost predicate TagShared(verts: seq<Vec3>, indices: seq<int32>, l: Line3, x: nat)
    requires IndicesInRange(verts, indices)
  {
    exists ka, kb :: 0 <= ka < |indices| && 0 <= kb < |indices| &&
      Corner(verts, indices, ka) == l.a && Corner(verts, indices, kb) == l.b &&
      Tag(indices[ka]) == x && Tag(indices[kb]) == x
  }

  /** The tags the map gives both endpoints are exactly the shared tags. */
  lemma CommonTagsShared(verts: seq<Vec3>, indices: seq<int32>, l: Line3, x: nat)
    requires IndicesInRange(verts, indices)
    ensures x in CommonTags(Applied(verts, indices), l) <==> TagShared(verts, indices, l, x)
  {
    AppliedTags(verts, indices, l.a, x);
    AppliedTags(verts, indices, l.b, x);
    if TagShared(verts, indices, l, x) {
      var ka, kb :| 0 <= ka < |indices| && 0 <= kb < |indices| &&
        Corner(verts, indices, ka) == l.a && Corner(verts, indices, kb) == l.b &&
        Tag(indices[ka]) == x && Tag(indices[kb]) == x;
    }
  }

  /**
   * What the owners of a record mean in terms of the index buffer: every
   * reported owner is a shared tag, the second differs from the first, a
   * record with no first owner has no shared tag at all, and a record with
   * a single owner has no other shared tag.
   */
  lemma ResultOwners(c: Caster, out: seq<IndexedLine>, k: nat, x: nat)
    requires WellFormed(c) && IsEdgeResult(c, out) && k < |out|
    ensures out[k].tris.0 == Some(x) ==> TagShared(c.verts, c.indices, out[k].line, x)
    ensures out[k].tris.1 == Some(x) ==>
              TagShared(c.verts, c.indices, out[k].line, x) && out[k].tris.0.Some? && out[k].tris.0.value != x
    ensures out[k].tris.0.None? ==> !TagShared(c.verts, c.indices, out[k].line, x)
    ensures out[k].tris.1.None? && TagShared(c.verts, c.indices, out[k].line, x) ==> out[k].tris.0 == Some(x)
  {
    CommonTagsShared(c.verts, c.indices, out[k].line, x);
    assert OwnersOf(CommonTags(Applied(c.verts, c.indices), out[k].line), out[k].tris);
  }

  /** The transform does not influence the result. */
  lemma TransformIgnored(c: Caster, m: Mat4, out: seq<IndexedLine>)
    requires WellFormed(c)
    ensures IsEdgeResult(c, out) <==> IsEdgeResult(c.(transform := m), out)
  {
  }

  /** An index value in the same chunk of three as its position `k` in chunk `t` reads as tag `t`. */
  lemma ChunkTag(i: int32, k: nat, t: nat)
    requires 0 <= i && 3 * t <= k < 3 * t + 3 && i as int / 3 == k / 3
    ensures Tag(i) == t
  {
  }

  /**
   * When every index value lies in the same chunk of three as its position
   * (an unindexed mesh, or one that only permutes corners within their
   * triangle), tags are triangle numbers and every side has at least one
   * owner: the triangle it came from.
   */
  lemma PositionalTagsOwned(c: Caster, out: seq<IndexedLine>, k: nat)
    requires WellFormed(c) && IsEdgeResult(c, out) && k < |out|
    requires forall p :: 0 <= p < |c.indices| ==> c.indices[p] as int / 3 == p / 3
    ensures out[k].tris.0.Some?
  {
    var verts, indices := c.verts, c.indices;
    var l := out[k].line;
    assert LinesOf(out)[k] == l;
    EdgeSetMembership(verts, indices, l);
    var t: nat :| 3 * t + 2 < |indices| && l in Sides(verts, indices, t);
    SideCorners(verts, indices, t, l);
    var ka, kb :| 3 * t <= ka < 3 * t + 3 && 3 * t <= kb < 3 * t + 3 &&
                  Corner(verts, indices, ka) == l.a && Corner(verts, indices, kb) == l.b;
    ChunkTag(indices[ka], ka, t);
    ChunkTag(indices[kb], kb, t);
    AppliedTags(verts, indices, l.a, t);
    AppliedTags(verts, indices, l.b, t);
    assert t in CommonTags(Applied(verts, indices), l);
  }

  lemma TwoMembers(s: set<nat>, x: nat, y: nat)
    requires x in s && y in s && x != y
    ensures |s| >= 2
  {
    assert {x, y} <= s;
    assert s == {x, y} + (s - {x, y});
  }

  /** When at most one tag is shared, the owner pair is determined. */
  lemma OwnersDetermined(s: set<nat>, p1: OwnerPair, p2: OwnerPair)
    requires OwnersOf(s, p1) && OwnersOf(s, p2) && |s| <= 1
    ensures p1 == p2
  {
    if p1.1.Some? {
      TwoMembers(s, p1.0.value, p1.1.value);
    } else if p2.1.Some? {
      TwoMembers(s, p2.0.value, p2.1.value);
    }
  }

  /** Two runs on the same mesh report the same sides, only possibly in another order. */
  lemma SameSides(c: Caster, out1: seq<IndexedLine>, out2: seq<IndexedLine>)
    requires WellFormed(c) && IsEdgeResult(c, out1) && IsEdgeResult(c, out2)
    ensures |out1| == |out2|
    ensures forall l :: l in LinesOf(out1) <==> l in LinesOf(out2)
  {
    ResultLength(c, out1);
    ResultLength(c, out2);
  }

  /**
   * Two runs on the same mesh give a side the same owners wherever its
   * endpoints share at most one tag; beyond that the choice is left to the
   * iteration order.
   */
  lemma ResultsAgree(c: Caster, out1: seq<IndexedLine>, out2: seq<IndexedLine>)
    requires WellFormed(c) && IsEdgeResult(c, out1) && IsEdgeResult(c, out2)
    ensures forall p, q ::
              (0 <= p < |out1| && 0 <= q < |out2| && out1[p].line == out2[q].line &&
               |CommonTags(Applied(c.verts, c.indices), out1[p].line)| <= 1)
              ==> out1[p].tris == out2[q].tris
  {
    forall p, q | 0 <= p < |out1| && 0 <= q < |out2| && out1[p].line == out2[q].line &&
                  |CommonTags(Applied(c.verts, c.indices), out1[p].line)| <= 1
      ensures out1[p].tris == out2[q].tris
    {
      OwnersDetermined(CommonTags(Applied(c.verts, c.indices), out1[p].line), out1[p].tris, out2[q].tris);
    }
  }

  // ---------------------------------------------------------------------
  // Small meshes
  // ---------------------------------------------------------------------

  /** Reading triangle `t` adds its three sides to the edge set. */
  lemma SidesStep(verts: seq<Vec3>, indices: seq<int32>, t: nat)
    requires IndicesInRange(verts, indices) && 3 * t + 2 < |indices|
    ensures IndicesInRange(verts, indices[..3 * t]) && IndicesInRange(verts, indices[..3 * t + 3])
    ensures EdgeSet(verts, indices[..3 * t + 3]) == EdgeSet(verts, indices[..3 * t]) + Sides(verts, indices, t)
  {
    assert indices[..3 * t + 3][..3 * t] == indices[..3 * t];
    CornerOfPrefix(verts, indices, 3 * t + 3, 3 * t);
    CornerOfPrefix(verts, indices, 3 * t + 3, 3 * t + 1);
    CornerOfPrefix(verts, indices, 3 * t + 3, 3 * t + 2);
  }

  /** The edge set of a single triangle `[0, 1, 2]`: its three sides. */
  lemma SingleTriangleSides(verts: seq<Vec3>, indices: seq<int32>)
    requires |verts| == 3 && indices == [0, 1, 2]
    requires verts[0] != verts[1] && verts[1] != verts[2] && verts[2] != verts[0]
    ensures IndicesInRange(verts, indices)
    ensures EdgeSet(verts, indices) == {Line3(verts[0], verts[1]), Line3(verts[1], verts[2]), Line3(verts[2], verts[0])}
    ensures |EdgeSet(verts, indices)| == 3
  {
    assert indices[..0] == [];
    SidesStep(verts, indices, 0);
    assert indices[..3] == indices;
  }

  /** The tags of a single triangle `[0, 1, 2]`: 0 for each of its corners. */
  lemma SingleTriangleTags(verts: seq<Vec3>, indices: seq<int32>)
    requires |verts| == 3 && indices == [0, 1, 2]
    ensures IndicesInRange(verts, indices)
    ensures forall v :: TagsOf(Applied(verts, indices), v) ==
              if v == verts[0] || v == verts[1] || v == verts[2] then {0} else {}
  {
    forall v ensures TagsOf(Applied(verts, indices), v) ==
                     if v == verts[0] || v == verts[1] || v == verts[2] then {0} else {}
    {
      var expected := if v == verts[0] || v == verts[1] || v == verts[2] then {0} else {};
      forall t: nat ensures t in TagsOf(Applied(verts, indices), v) <==> t in expected {
        AppliedTags(verts, indices, v, t);
        if t in expected {
          var k := if v == verts[0] then 0 else if v == verts[1] then 1 else 2;
          assert Corner(verts, indices, k) == v && Tag(indices[k]) == t;
        }
      }
    }
  }


  /** Every side of a single triangle is owned by triangle 0 alone. */
  lemma SingleTriangleOwners(verts: seq<Vec3>, applied: map<Vec3, set<nat>>, l: Line3, pair: OwnerPair)
    requires |verts| == 3
    requires forall v :: TagsOf(applied, v) == if v == verts[0] || v == verts[1] || v == verts[2] then {0} else {}
    requires l in {Line3(verts[0], verts[1]), Line3(verts[1], verts[2]), Line3(verts[2], verts[0])}
    requires OwnersOf(CommonTags(applied, l), pair)
    ensures pair == (Some(0), None)
  {
    assert TagsOf(applied, l.a) == {0} && TagsOf(applied, l.b) == {0};
    assert CommonTags(applied, l) == {0};
  }

  /** The same for a side of the edge set of `[0, 1, 2]` and the owners computed for it. */
  lemma SingleTriangleRecord(verts: seq<Vec3>, indices: seq<int32>, l: Line3, pair: OwnerPair)
    requires |verts| == 3 && indices == [0, 1, 2]
    requires verts[0] != verts[1] && verts[1] != verts[2] && verts[2] != verts[0]
    requires IndicesInRange(verts, indices)
    requires l in EdgeSet(verts, indices)
    requires OwnersOf(CommonTags(Applied(verts, indices), l), pair)
    ensures pair == (Some(0), None)
  {
    SingleTriangleSides(verts, indices);
    SingleTriangleTags(verts, indices);
    SingleTriangleOwners(verts, Applied(verts, indices), l, pair);
  }

  /** One triangle: three sides, each owned by triangle 0 alone. */
  lemma SingleTriangle(c: Caster, out: seq<IndexedLine>)
    requires |c.verts| == 3 && c.indices == [0, 1, 2]
    requires c.verts[0] != c.verts[1] && c.verts[1] != c.verts[2] && c.verts[2] != c.verts[0]
    requires WellFormed(c) && IsEdgeResult(c, out)
    ensures |out| == 3
    ensures forall l :: l in LinesOf(out) <==>
              l in {Line3(c.verts[0], c.verts[1]), Line3(c.verts[1], c.verts[2]), Line3(c.verts[2], c.verts[0])}
    ensures forall k :: 0 <= k < |out| ==> out[k].tris == (Some(0), None)
  {
    SingleTriangleSides(c.verts, c.indices);
    ResultLength(c, out);
    forall k | 0 <= k < |out| ensures out[k].tris == (Some(0), None) {
      assert LinesOf(out)[k] == out[k].line && out[k].line in LinesOf(out);
      SingleTriangleRecord(c.verts, c.indices, out[k].line, out[k].tris);
    }
  }

  /** Five pairwise distinct lines make a set of five. */
  lemma FiveLines(l0: Line3, l1: Line3, l2: Line3, l3: Line3, l4: Line3)
    requires l0 != l1 && l0 != l2 && l0 != l3 && l0 != l4
    requires l1 != l2 && l1 != l3 && l1 != l4
    requires l2 != l3 && l2 != l4 && l3 != l4
    ensures |{l0, l1, l2, l3, l4}| == 5
  {
    assert |{l0, l1, l2, l3}| == 4;
  }

  /** The edge set of triangles `(p, q, r)` and `(q, r, s)` stored without shared entries. */
  lemma UnindexedPairSides(verts: seq<Vec3>, indices: seq<int32>)
    requires |verts| == 6 && verts[3] == verts[1] && verts[4] == verts[2]
    requires verts[0] != verts[1] && verts[0] != verts[2] && verts[0] != verts[5]
    requires verts[1] != verts[2] && verts[1] != verts[5] && verts[2] != verts[5]
    requires indices == [0, 1, 2, 3, 4, 5]
    ensures IndicesInRange(verts, indices)
    ensures EdgeSet(verts, indices) ==
              {Line3(verts[0], verts[1]), Line3(verts[1], verts[2]), Line3(verts[2], verts[0]),
               Line3(verts[2], verts[5]), Line3(verts[5], verts[1])}
    ensures |EdgeSet(verts, indices)| == 5
  {
    assert indices[..0] == [];
    SidesStep(verts, indices, 0);
    SidesStep(verts, indices, 1);
    assert indices[..6] == indices;
    assert Sides(verts, indices, 0) == {Line3(verts[0], verts[1]), Line3(verts[1], verts[2]), Line3(verts[2], verts[0])};
    assert Sides(verts, indices, 1) == {Line3(verts[1], verts[2]), Line3(verts[2], verts[5]), Line3(verts[5], verts[1])};
    FiveLines(Line3(verts[0], verts[1]), Line3(verts[1], verts[2]), Line3(verts[2], verts[0]),
              Line3(verts[2], verts[5]), Line3(verts[5], verts[1]));
  }

  /** Their tags: 0 for the corners of the first triangle, 1 for those of the second. */
  lemma UnindexedPairTags(verts: seq<Vec3>, indices: seq<int32>)
    requires |verts| == 6 && verts[3] == verts[1] && verts[4] == verts[2]
    requires indices == [0, 1, 2, 3, 4, 5]
    ensures IndicesInRange(verts, indices)
    ensures forall v :: TagsOf(Applied(verts, indices), v) ==
              (if v == verts[0] || v == verts[1] || v == verts[2] then {0} else {}) +
              (if v == verts[1] || v == verts[2] || v == verts[5] then {1} else {})
  {
    forall v ensures TagsOf(Applied(verts, indices), v) ==
                     (if v == verts[0] || v == verts[1] || v == verts[2] then {0} else {}) +
                     (if v == verts[1] || v == verts[2] || v == verts[5] then {1} else {})
    {
      var expected := (if v == verts[0] || v == verts[1] || v == verts[2] then {0} else {}) +
                      (if v == verts[1] || v == verts[2] || v == verts[5] then {1} else {});
      forall t: nat ensures t in TagsOf(Applied(verts, indices), v) <==> t in expected {
        AppliedTags(verts, indices, v, t);
        if t in expected {
          var k := if t == 0 then (if v == verts[0] then 0 else if v == verts[1] then 1 else 2)
                  else (if v == verts[1] then 3 else if v == verts[2] then 4 else 5);
          assert Corner(verts, indices, k) == v && Tag(indices[k]) == t;
        }
      }
    }
  }


  /** The owners a side of that mesh may be given. */
  lemma UnindexedOwners(verts: seq<Vec3>, applied: map<Vec3, set<nat>>, l: Line3, pair: OwnerPair)
    requires |verts| == 6
    requires verts[0] != verts[1] && verts[0] != verts[2] && verts[0] != verts[5]
    requires verts[1] != verts[2] && verts[1] != verts[5] && verts[2] != verts[5]
    requires forall v :: TagsOf(applied, v) ==
               (if v == verts[0] || v == verts[1] || v == verts[2] then {0} else {}) +
               (if v == verts[1] || v == verts[2] || v == verts[5] then {1} else {})
    requires l in {Line3(verts[0], verts[1]), Line3(verts[1], verts[2]), Line3(verts[2], verts[0]),
                   Line3(verts[2], verts[5]), Line3(verts[5], verts[1])}
    requires OwnersOf(CommonTags(applied, l), pair)
    ensures l == Line3(verts[1], verts[2]) ==> pair == (Some(0), Some(1)) || pair == (Some(1), Some(0))
    ensures l != Line3(verts[1], verts[2]) ==> pair.0.Some? && pair.1.None?
  {
    var common := CommonTags(applied, l);
    if l == Line3(verts[1], verts[2]) {
      assert TagsOf(applied, l.a) == {0, 1} && TagsOf(applied, l.b) == {0, 1};
      assert common == {0, 1};
    } else if l == Line3(verts[0], verts[1]) || l == Line3(verts[2], verts[0]) {
      assert common == {0};
    } else {
      assert common == {1};
    }
  }

  /** The same for a side of the edge set of `[0, 1, 2, 3, 4, 5]` and the owners computed for it. */
  lemma UnindexedRecord(verts: seq<Vec3>, indices: seq<int32>, l: Line3, pair: OwnerPair)
    requires |verts| == 6 && verts[3] == verts[1] && verts[4] == verts[2]
    requires verts[0] != verts[1] && verts[0] != verts[2] && verts[0] != verts[5]
    requires verts[1] != verts[2] && verts[1] != verts[5] && verts[2] != verts[5]
    requires indices == [0, 1, 2, 3, 4, 5]
    requires IndicesInRange(verts, indices)
    requires l in EdgeSet(verts, indices)
    requires OwnersOf(CommonTags(Applied(verts, indices), l), pair)
    ensures l == Line3(verts[1], verts[2]) ==> pair == (Some(0), Some(1)) || pair == (Some(1), Some(0))
    ensures l != Line3(verts[1], verts[2]) ==> pair.0.Some? && pair.1.None?
  {
    UnindexedPairSides(verts, indices);
    UnindexedPairTags(verts, indices);
    UnindexedOwners(verts, Applied(verts, indices), l, pair);
  }

  /**
   * Two triangles stored without shared vertex entries (`indices[k] == k`),
   * wound the same way along their common side `(q, r)`: that side is
   * reported once, owned by both triangles, and every other side has exactly
   * one owner.
   */
  lemma UnindexedSharedSide(c: Caster, out: seq<IndexedLine>)
    requires |c.verts| == 6 && c.indices == [0, 1, 2, 3, 4, 5]
    requires c.verts[3] == c.verts[1] && c.verts[4] == c.verts[2]
    requires c.verts[0] != c.verts[1] && c.verts[0] != c.verts[2] && c.verts[0] != c.verts[5]
    requires c.verts[1] != c.verts[2] && c.verts[1] != c.verts[5] && c.verts[2] != c.verts[5]
    requires WellFormed(c) && IsEdgeResult(c, out)
    ensures |out| == 5
    ensures Line3(c.verts[1], c.verts[2]) in LinesOf(out)
    ensures forall k :: 0 <= k < |out| && out[k].line == Line3(c.verts[1], c.verts[2]) ==>
              out[k].tris == (Some(0), Some(1)) || out[k].tris == (Some(1), Some(0))
    ensures forall k :: 0 <= k < |out| && out[k].line != Line3(c.verts[1], c.verts[2]) ==>
              out[k].tris.0.Some? && out[k].tris.1.None?
  {
    UnindexedPairSides(c.verts, c.indices);
    ResultLength(c, out);
    forall k | 0 <= k < |out|
      ensures out[k].line == Line3(c.verts[1], c.verts[2]) ==>
                out[k].tris == (Some(0), Some(1)) || out[k].tris == (Some(1), Some(0))
      ensures out[k].line != Line3(c.verts[1], c.verts[2]) ==> out[k].tris.0.Some? && out[k].tris.1.None?
    {
      assert LinesOf(out)[k] == out[k].line && out[k].line in LinesOf(out);
      UnindexedRecord(c.verts, c.indices, out[k].line, out[k].tris);
    }
  }

  /** The edge set of triangles `(p, q, r)` and `(q, r, s)` sharing entries through `[0, 1, 2, 1, 2, 3]`. */
  lemma IndexedPairSides(verts: seq<Vec3>, indices: seq<int32>)
    requires |verts| == 4 && indices == [0, 1, 2, 1, 2, 3]
    requires verts[0] != verts[1] && verts[0] != verts[2] && verts[0] != verts[3]
    requires verts[1] != verts[2] && verts[1] != verts[3] && verts[2] != verts[3]
    ensures IndicesInRange(verts, indices)
    ensures EdgeSet(verts, indices) ==
              {Line3(verts[0], verts[1]), Line3(verts[1], verts[2]), Line3(verts[2], verts[0]),
               Line3(verts[2], verts[3]), Line3(verts[3], verts[1])}
    ensures |EdgeSet(verts, indices)| == 5
  {
    assert indices[..0] == [];
    SidesStep(verts, indices, 0);
    SidesStep(verts, indices, 1);
    assert indices[..6] == indices;
    assert Sides(verts, indices, 0) == {Line3(verts[0], verts[1]), Line3(verts[1], verts[2]), Line3(verts[2], verts[0])};
    assert Sides(verts, indices, 1) == {Line3(verts[1], verts[2]), Line3(verts[2], verts[3]), Line3(verts[3], verts[1])};
    FiveLines(Line3(verts[0], verts[1]), Line3(verts[1], verts[2]), Line3(verts[2], verts[0]),
              Line3(verts[2], verts[3]), Line3(verts[3], verts[1]));
  }

  /** Their tags: the index values 0, 1 and 2 all read as triangle 0, and only 3 as triangle 1. */
  lemma IndexedPairTags(verts: seq<Vec3>, indices: seq<int32>, v: Vec3)
    requires |verts| == 4 && indices == [0, 1, 2, 1, 2, 3]
    ensures IndicesInRange(verts, indices)
    ensures TagsOf(Applied(verts, indices), v) ==
              (if v == verts[0] || v == verts[1] || v == verts[2] then {0} else {}) +
              (if v == verts[3] then {1} else {})
  {
    var expected := (if v == verts[0] || v == verts[1] || v == verts[2] then {0} else {}) +
                    (if v == verts[3] then {1} else {});
    forall t: nat ensures t in TagsOf(Applied(verts, indices), v) <==> t in expected {
      AppliedTags(verts, indices, v, t);
      if t in expected {
        var k := if t == 1 then 5 else if v == verts[0] then 0 else if v == verts[1] then 1 else 2;
        assert Corner(verts, indices, k) == v && Tag(indices[k]) == t;
      }
    }
  }

  /** The owners of the shared side and of the side `(r, s)` in that buffer. */
  lemma IndexedOwners(verts: seq<Vec3>, indices: seq<int32>, l: Line3, pair: OwnerPair)
    requires |verts| == 4 && indices == [0, 1, 2, 1, 2, 3]
    requires verts[0] != verts[1] && verts[0] != verts[2] && verts[0] != verts[3]
    requires verts[1] != verts[2] && verts[1] != verts[3] && verts[2] != verts[3]
    requires OwnersOf(CommonTags(Applied(verts, indices), l), pair)
    ensures l == Line3(verts[1], verts[2]) ==> pair == (Some(0), None)
    ensures l == Line3(verts[2], verts[3]) ==> pair == (None, None)
  {
    IndexedPairTags(verts, indices, l.a);
    IndexedPairTags(verts, indices, l.b);
    if l == Line3(verts[1], verts[2]) {
      assert CommonTags(Applied(verts, indices), l) == {0};
    } else if l == Line3(verts[2], verts[3]) {
      assert CommonTags(Applied(verts, indices), l) == {};
    }
  }

  /**
   * The same two triangles stored with shared vertex entries
   * (`[0, 1, 2, 1, 2, 3]`). Tags come from index values, so every index
   * value below 3 reads as triangle 0: the shared side `(q, r)` gets a single
   * owner, and the side `(r, s)` of the second triangle gets none.
   */
  lemma IndexedSharedSide(c: Caster, out: seq<IndexedLine>)
    requires |c.verts| == 4 && c.indices == [0, 1, 2, 1, 2, 3]
    requires c.verts[0] != c.verts[1] && c.verts[0] != c.verts[2] && c.verts[0] != c.verts[3]
    requires c.verts[1] != c.verts[2] && c.verts[1] != c.verts[3] && c.verts[2] != c.verts[3]
    requires WellFormed(c) && IsEdgeResult(c, out)
    ensures |out| == 5
    ensures Line3(c.verts[1], c.verts[2]) in LinesOf(out) && Line3(c.verts[2], c.verts[3]) in LinesOf(out)
    ensures forall k :: 0 <= k < |out| && out[k].line == Line3(c.verts[1], c.verts[2]) ==>
              out[k].tris == (Some(0), None)
    ensures forall k :: 0 <= k < |out| && out[k].line == Line3(c.verts[2], c.verts[3]) ==>
              out[k].tris == (None, None)
  {
    IndexedPairSides(c.verts, c.indices);
    ResultLength(c, out);
    forall k | 0 <= k < |out|
      ensures out[k].line == Line3(c.verts[1], c.verts[2]) ==> out[k].tris == (Some(0), None)
      ensures out[k].line == Line3(c.verts[2], c.verts[3]) ==> out[k].tris == (None, None)
    {
      IndexedOwners(c.verts, c.indices, out[k].line, out[k].tris);
    }
  }

  /** The edge set of triangles `(p, q, r)` and `(r, q, s)`: six directed sides. */
  lemma OppositePairSides(verts: seq<Vec3>, indices: seq<int32>)
    requires |verts| == 4 && indices == [0, 1, 2, 2, 1, 3]
    requires verts[0] != verts[1] && verts[0] != verts[2] && verts[0] != verts[3]
    requires verts[1] != verts[2] && verts[1] != verts[3] && verts[2] != verts[3]
    ensures IndicesInRange(verts, indices)
    ensures EdgeSet(verts, indices) ==
              {Line3(verts[0], verts[1]), Line3(verts[1], verts[2]), Line3(verts[2], verts[0]),
               Line3(verts[2], verts[1]), Line3(verts[1], verts[3]), Line3(verts[3], verts[2])}
    ensures |EdgeSet(verts, indices)| == 6
  {
    assert indices[..0] == [];
    SidesStep(verts, indices, 0);
    SidesStep(verts, indices, 1);
    assert indices[..6] == indices;
    assert Sides(verts, indices, 0) == {Line3(verts[0], verts[1]), Line3(verts[1], verts[2]), Line3(verts[2], verts[0])};
    assert Sides(verts, indices, 1) == {Line3(verts[2], verts[1]), Line3(verts[1], verts[3]), Line3(verts[3], verts[2])};
    FiveLines(Line3(verts[0], verts[1]), Line3(verts[1], verts[2]), Line3(verts[2], verts[0]),
              Line3(verts[2], verts[1]), Line3(verts[1], verts[3]));
    assert Line3(verts[3], verts[2]) !in {Line3(verts[0], verts[1]), Line3(verts[1], verts[2]), Line3(verts[2], verts[0]),
                                          Line3(verts[2], verts[1]), Line3(verts[1], verts[3])};
  }

  /**
   * Two triangles that wind their common side in opposite directions, as a
   * consistently oriented mesh does: the side is reported twice, once per
   * direction, so the output has six records rather than five.
   */
  lemma OppositeWindingSide(c: Caster, out: seq<IndexedLine>)
    requires |c.verts| == 4 && c.indices == [0, 1, 2, 2, 1, 3]
    requires c.verts[0] != c.verts[1] && c.verts[0] != c.verts[2] && c.verts[0] != c.verts[3]
    requires c.verts[1] != c.verts[2] && c.verts[1] != c.verts[3] && c.verts[2] != c.verts[3]
    requires WellFormed(c) && IsEdgeResult(c, out)
    ensures |out| == 6
    ensures Line3(c.verts[1], c.verts[2]) in LinesOf(out) && Line3(c.verts[2], c.verts[1]) in LinesOf(out)
  {
    OppositePairSides(c.verts, c.indices);
    ResultLength(c, out);
  }
}
