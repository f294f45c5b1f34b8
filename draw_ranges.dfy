/**
 * The draw calls the wheel and the car issue on the generated meshes: each
 * `glDrawArrays(mode, first, count)` draws vertices `first` up to
 * `first + count` of the mesh's vertex buffer. The ranges are cut from the
 * counters the generators record (`nIndices`, `sideVerts`, `topVerts`,
 * `bottomVerts`).
 */
module DrawRanges {
  import opened Meshes

  /** The primitive a draw call assembles. */
  datatype Primitive = TriangleStrip | TriangleFan

  /** One `glDrawArrays(mode, first, count)`. */
  datatype DrawCall = DrawCall(mode: Primitive, first: nat, count: nat)

  /** Vertex `k` is drawn by `c`. */
  predicate Covers(c: DrawCall, k: int)
  {
    c.first <= k < c.first + c.count
  }

  /** `c` reads only vertices of a buffer of `nIndices` vertices. */
  predicate InBuffer(c: DrawCall, nIndices: nat)
  {
    c.first + c.count <= nIndices
  }

  /** The vertices `c` draws from a vertex buffer. */
  function Drawn(buffer: seq<Float>, c: DrawCall): (vs: seq<Vertex>)
    requires InBuffer(c, |buffer| / FloatsPerVertex)
    ensures |vs| == c.count
  {
    seq(c.count, q requires 0 <= q < c.count => VertexAt(buffer, c.first + q))
  }

  /** The whole mesh as one strip: the tyre, the wheel rim and the body. It draws every vertex of the buffer and nothing past it. */
  function WholeStrip(nIndices: nat): (c: DrawCall)
    ensures c.mode == TriangleStrip && InBuffer(c, nIndices)
    ensures forall k :: 0 <= k < nIndices <==> Covers(c, k)
  {
    DrawCall(TriangleStrip, 0, nIndices)
  }

  /**
   * The hub and each spoke: the side strip, then the top fan, then the bottom
   * fan, each `side`, `top` and `bottom` vertices long, the first starting at 0,
   * each later one starting where the previous one ends, the last ending at
   * `sideVerts + topVerts + bottomVerts`.
   */
  function SweptCalls(sideVerts: nat, topVerts: nat, bottomVerts: nat): (cs: seq<DrawCall>)
    ensures |cs| == 3
    ensures cs[0].mode == TriangleStrip && cs[1].mode == TriangleFan && cs[2].mode == TriangleFan
    ensures cs[0].count == sideVerts && cs[1].count == topVerts && cs[2].count == bottomVerts
    ensures cs[0].first == 0
    ensures forall i :: 0 < i < 3 ==> cs[i].first == cs[i - 1].first + cs[i - 1].count
    ensures cs[2].first + cs[2].count == sideVerts + topVerts + bottomVerts
  {
    [DrawCall(TriangleStrip, 0, sideVerts),
     DrawCall(TriangleFan, sideVerts, topVerts),
     DrawCall(TriangleFan, sideVerts + topVerts, bottomVerts)]
  }

  /** The front and the rear of the car: a strip over the first half of the side section (rounded down). */
  function HalfSideStrip(sideVerts: nat): (c: DrawCall)
    ensures c.mode == TriangleStrip && c.first == 0
    ensures 2 * c.count <= sideVerts < 2 * c.count + 2
  {
    DrawCall(TriangleStrip, 0, sideVerts / 2)
  }

  /**
   * The sides of the car: each of the three calls of `SweptCalls`, with the same
   * mode and start but half the count (rounded down).
   */
  function HalvedSweptCalls(sideVerts: nat, topVerts: nat, bottomVerts: nat): (cs: seq<DrawCall>)
    ensures |cs| == 3
    ensures forall i :: 0 <= i < 3 ==>
      cs[i].mode == SweptCalls(sideVerts, topVerts, bottomVerts)[i].mode &&
      cs[i].first == SweptCalls(sideVerts, topVerts, bottomVerts)[i].first &&
      2 * cs[i].count <= SweptCalls(sideVerts, topVerts, bottomVerts)[i].count < 2 * cs[i].count + 2
  {
    [DrawCall(TriangleStrip, 0, sideVerts / 2),
     DrawCall(TriangleFan, sideVerts, topVerts / 2),
     DrawCall(TriangleFan, sideVerts + topVerts, bottomVerts / 2)]
  }

  /**
   * The three calls on a swept solid partition its buffer: every vertex of the
   * buffer is drawn by one of them, by no more than one, and none reaches past
   * the buffer.
   */
  lemma SweptCallsPartition(sideVerts: nat, topVerts: nat, bottomVerts: nat, nIndices: nat)
    requires nIndices == sideVerts + topVerts + bottomVerts
    ensures |SweptCalls(sideVerts, topVerts, bottomVerts)| == 3
    ensures forall i :: 0 <= i < 3 ==> InBuffer(SweptCalls(sideVerts, topVerts, bottomVerts)[i], nIndices)
    ensures forall k :: 0 <= k < nIndices ==>
      Covers(SweptCalls(sideVerts, topVerts, bottomVerts)[0], k) ||
      Covers(SweptCalls(sideVerts, topVerts, bottomVerts)[1], k) ||
      Covers(SweptCalls(sideVerts, topVerts, bottomVerts)[2], k)
    ensures forall i, j, k :: 0 <= i < j < 3 && Covers(SweptCalls(sideVerts, topVerts, bottomVerts)[i], k) ==>
      !Covers(SweptCalls(sideVerts, topVerts, bottomVerts)[j], k)
  {
  }

  /** Each halved call of the car's sides lies inside the corresponding call on the whole solid, and so inside the buffer. */
  lemma HalvedCallsWithin(sideVerts: nat, topVerts: nat, bottomVerts: nat, nIndices: nat)
    requires nIndices == sideVerts + topVerts + bottomVerts
    ensures |HalvedSweptCalls(sideVerts, topVerts, bottomVerts)| == 3
    ensures forall i, k :: 0 <= i < 3 && Covers(HalvedSweptCalls(sideVerts, topVerts, bottomVerts)[i], k) ==>
      Covers(SweptCalls(sideVerts, topVerts, bottomVerts)[i], k)
    ensures forall i :: 0 <= i < 3 ==> InBuffer(HalvedSweptCalls(sideVerts, topVerts, bottomVerts)[i], nIndices)
    ensures forall k :: Covers(HalfSideStrip(sideVerts), k) ==> Covers(SweptCalls(sideVerts, topVerts, bottomVerts)[0], k)
  {
  }

  /** The vertices a call draws from a flattened buffer are a slice of the vertex sequence. */
  lemma DrawnSlice(vs: seq<Vertex>, c: DrawCall)
    requires c.first + c.count <= |vs|
    ensures |Flatten(vs)| / FloatsPerVertex == |vs|
    ensures Drawn(Flatten(vs), c) == vs[c.first..c.first + c.count]
  {
    var d := Drawn(Flatten(vs), c);
    forall q | 0 <= q < c.count
      ensures d[q] == vs[c.first + q]
    {
      VertexAtFlatten(vs, c.first + q);
    }
  }

  /** A strip over the whole buffer draws every vertex in order: for the tyre and the rim, the whole torus. */
  lemma WholeStripDrawsAll(vs: seq<Vertex>)
    ensures |Flatten(vs)| / FloatsPerVertex == |vs|
    ensures Drawn(Flatten(vs), WholeStrip(|vs|)) == vs
  {
    DrawnSlice(vs, WholeStrip(|vs|));
  }

  /**
   * On the counters a swept-solid generator records, the strip draws exactly the
   * side section, the first fan exactly the top cap and the second fan exactly
   * the bottom cap.
   */
  lemma SweptCallsDrawSections(n: nat, seam: Level)
    ensures |Flatten(SweptSolid(n, seam))| / FloatsPerVertex == 4 * (n + 1)
    ensures Drawn(Flatten(SweptSolid(n, seam)), SweptCalls(2 * (n + 1), n + 1, n + 1)[0]) == SideSection(n)
    ensures Drawn(Flatten(SweptSolid(n, seam)), SweptCalls(2 * (n + 1), n + 1, n + 1)[1]) == TopSection(n)
    ensures Drawn(Flatten(SweptSolid(n, seam)), SweptCalls(2 * (n + 1), n + 1, n + 1)[2]) == BottomSection(n, seam)
  {
    var calls := SweptCalls(2 * (n + 1), n + 1, n + 1);
    DrawnSlice(SweptSolid(n, seam), calls[0]);
    DrawnSlice(SweptSolid(n, seam), calls[1]);
    DrawnSlice(SweptSolid(n, seam), calls[2]);
  }

  /** The hub is a cylinder as written, so its bottom fan ends on the top plane's seam point. */
  lemma HubBottomFanReachesTop(n: nat)
    ensures |Flatten(SweptSolid(n, Top))| / FloatsPerVertex == 4 * (n + 1)
    ensures InPlane(Drawn(Flatten(SweptSolid(n, Top)), SweptCalls(2 * (n + 1), n + 1, n + 1)[2])[n], Top)
  {
    SweptCallsDrawSections(n, Top);
    CylinderBottomSeamOnTop(n);
  }

  /** A call that starts where `section` starts in the buffer and draws no more than its length draws a prefix of it. */
  lemma DrawnPrefix(vs: seq<Vertex>, c: DrawCall, section: seq<Vertex>)
    requires c.first + |section| <= |vs| && vs[c.first..c.first + |section|] == section && c.count <= |section|
    ensures |Flatten(vs)| / FloatsPerVertex == |vs|
    ensures Drawn(Flatten(vs), c) == section[..c.count]
  {
    DrawnSlice(vs, c);
    assert vs[c.first..c.first + c.count] == vs[c.first..c.first + |section|][..c.count];
  }

  /**
   * The halved calls on the car's sides draw the first half of each section:
   * the first `n + 1` points of the side strip and the first `(n + 1) / 2`
   * points of each cap, so the closing seam point of a cap is not drawn.
   */
  lemma HalvedCallsDraw(n: nat, seam: Level)
    ensures |Flatten(SweptSolid(n, seam))| / FloatsPerVertex == 4 * (n + 1)
    ensures Drawn(Flatten(SweptSolid(n, seam)), HalvedSweptCalls(2 * (n + 1), n + 1, n + 1)[0]) == SideSection(n)[..n + 1]
    ensures Drawn(Flatten(SweptSolid(n, seam)), HalvedSweptCalls(2 * (n + 1), n + 1, n + 1)[1]) == TopSection(n)[..(n + 1) / 2]
    ensures Drawn(Flatten(SweptSolid(n, seam)), HalvedSweptCalls(2 * (n + 1), n + 1, n + 1)[2]) == BottomSection(n, seam)[..(n + 1) / 2]
    ensures (n + 1) / 2 <= n
  {
    var calls := HalvedSweptCalls(2 * (n + 1), n + 1, n + 1);
    var vs := SweptSolid(n, seam);
    assert vs[0..2 * (n + 1)] == SideSection(n);
    DrawnPrefix(vs, calls[0], SideSection(n));
    DrawnPrefix(vs, calls[1], TopSection(n));
    assert vs[3 * (n + 1)..4 * (n + 1)] == BottomSection(n, seam);
    DrawnPrefix(vs, calls[2], BottomSection(n, seam));
  }

  /** The front and the rear draw the first half of the side strip of their cylinders. */
  lemma HalfSideStripDraws(n: nat, seam: Level)
    ensures |Flatten(SweptSolid(n, seam))| / FloatsPerVertex == 4 * (n + 1)
    ensures Drawn(Flatten(SweptSolid(n, seam)), HalfSideStrip(2 * (n + 1))) == SideSection(n)[..n + 1]
  {
    HalvedCallsDraw(n, seam);
  }
}
