/**
 * The procedural mesh generators of the car demo: a torus (tyre and wheel
 * rim) and the swept solids built by the cylinder and rectangle generators
 * (hub, spokes, body, front, rear and sides).
 *
 * Only the integer structure of the generated vertex buffers is modelled.
 * Each vertex is written as eight floats (position, normal, texture
 * coordinate); the values themselves are trigonometry on floats, so a vertex
 * is an opaque value that records only the integer sample it was computed
 * from. The sweeps of the swept solids advance a float angle until it
 * passes a bound; that loop's trip count is the parameter `n`.
 */
module Meshes {

  /** Which of the two planes of a swept solid (z = height or z = 0), or which texture row (v = 1 or v = 0). */
  datatype Level = Top | Bottom

  /**
   * One generated vertex, named by the sample that determines its eight floats.
   * - `TorusPoint`: the ring sample `ring`, the tube sample `tube` and the
   *   numerator `uNum` of the texture coordinate u = uNum / rSeg.
   * - `Rim`: the point at the angle reached after `step` angle steps, in plane
   *   `z`, with texture row `v`.
   * - `Seam`: the closing point at angle zero (x = radius, y = 0) in plane `z`,
   *   whose texture column is the angle reached after `step` steps.
   */
  datatype Vertex =
    | TorusPoint(ring: int, tube: int, uNum: int)
    | Rim(step: nat, z: Level, v: Level)
    | Seam(step: nat, z: Level, v: Level)

  /** The eight floats of a vertex, in buffer order. */
  datatype Attribute = PosX | PosY | PosZ | NormalX | NormalY | NormalZ | TexU | TexV

  /** One float of the vertex buffer: attribute `attr` of vertex `of`. */
  datatype Float = Component(of: Vertex, attr: Attribute)

  /** floatsPerVertex + floatsPerNormal + floatsPerUV. */
  const FloatsPerVertex: nat := 8

  /** The floats pushed for one vertex. */
  function Layout(v: Vertex): (fs: seq<Float>)
    ensures |fs| == FloatsPerVertex
    ensures fs[0].of == v
  {
    [Component(v, PosX), Component(v, PosY), Component(v, PosZ),
     Component(v, NormalX), Component(v, NormalY), Component(v, NormalZ),
     Component(v, TexU), Component(v, TexV)]
  }

  /** The float buffer holding `vs` one after the other. */
  function Flatten(vs: seq<Vertex>): (fs: seq<Float>)
    ensures |fs| == FloatsPerVertex * |vs|
  {
    if |vs| == 0 then [] else Flatten(vs[..|vs| - 1]) + Layout(vs[|vs| - 1])
  }

  /** The vertex whose floats start at float `FloatsPerVertex * k`; all eight of its floats lie in the buffer. */
  function VertexAt(buffer: seq<Float>, k: nat): Vertex
    requires k < |buffer| / FloatsPerVertex
    ensures FloatsPerVertex * k + FloatsPerVertex <= |buffer|
  {
    buffer[FloatsPerVertex * k].of
  }

  /** Appending one vertex appends its eight floats. */
  lemma FlattenPush(vs: seq<Vertex>, v: Vertex)
    ensures Flatten(vs + [v]) == Flatten(vs) + Layout(v)
  {
    assert (vs + [v])[..|vs|] == vs;
  }

  /** Flattening distributes over concatenation. */
  lemma {:induction false} FlattenConcat(a: seq<Vertex>, b: seq<Vertex>)
    ensures Flatten(a + b) == Flatten(a) + Flatten(b)
    decreases |b|
  {
    if |b| == 0 {
      assert a + b == a;
    } else {
      var c := b[..|b| - 1];
      var v := b[|b| - 1];
      assert b == c + [v];
      assert a + b == (a + c) + [v];
      FlattenConcat(a, c);
      FlattenPush(a + c, v);
      FlattenPush(c, v);
    }
  }

  /** Reading a flattened buffer back vertex by vertex gives the vertices: vertex `k` of a draw call is `vs[k]`. */
  lemma {:induction false} VertexAtFlatten(vs: seq<Vertex>, k: nat)
    requires k < |vs|
    ensures |Flatten(vs)| / FloatsPerVertex == |vs|
    ensures VertexAt(Flatten(vs), k) == vs[k]
    decreases |vs|
  {
    var init := vs[..|vs| - 1];
    assert Flatten(vs) == Flatten(init) + Layout(vs[|vs| - 1]);
    if k < |vs| - 1 {
      VertexAtFlatten(init, k);
    }
  }

  // ---------------------------------------------------------------- torus

  /** Tube samples per ring: the number of passes of the loop `j <= cSeg`. */
  function TubeCount(cSeg: int): nat
  {
    if cSeg < 0 then 0 else cSeg + 1
  }

  /**
   * The vertex for ring `i`, tube sample `j` and ring offset `k`. Its ring index
   * `(i + k) % rSeg` is a ring of the torus, its tube index `j % (cSeg + 1)` is
   * `j` itself, and its u numerator `i + k` lies in `[0, rSeg]`.
   */
  function TorusSample(i: nat, j: nat, k: nat, rSeg: int, cSeg: int): (v: Vertex)
    requires 0 < rSeg && 0 <= cSeg
    ensures v.TorusPoint? && 0 <= v.ring < rSeg
    ensures j <= cSeg ==> v.tube == j
    ensures i < rSeg && k <= 1 ==> 0 <= v.uNum <= rSeg
  {
    TorusPoint((i + k) % rSeg, j % (cSeg + 1), i + k)
  }

  /**
   * The two vertices pushed for tube sample `j` of ring `i`: the same tube sample
   * on ring `i` and on the next ring (ring 0 after the last), with u numerators
   * `i` and `i + 1`.
   */
  function TorusPair(i: nat, j: nat, rSeg: int, cSeg: int): (vs: seq<Vertex>)
    requires 0 < rSeg && 0 <= cSeg
    ensures |vs| == 2 && vs[0].TorusPoint? && vs[1].TorusPoint?
    ensures vs[0].tube == vs[1].tube
    ensures vs[0].uNum == i && vs[1].uNum == i + 1
    ensures i < rSeg ==> vs[0].ring == i && vs[1].ring == (if i + 1 < rSeg then i + 1 else 0)
  {
    [TorusSample(i, j, 0, rSeg, cSeg), TorusSample(i, j, 1, rSeg, cSeg)]
  }

  /** The vertices pushed for ring `i` while the tube index runs below `jn`: two per tube sample. */
  function Ring(i: nat, jn: nat, rSeg: int, cSeg: int): (vs: seq<Vertex>)
    requires 0 < rSeg && jn <= TubeCount(cSeg)
    ensures |vs| == 2 * jn
  {
    if jn == 0 then [] else Ring(i, jn - 1, rSeg, cSeg) + TorusPair(i, jn - 1, rSeg, cSeg)
  }

  /** The vertices pushed for the first `i` rings: `i * (cSeg + 1) * 2` of them. */
  function Rings(i: nat, rSeg: int, cSeg: int): (vs: seq<Vertex>)
    requires i == 0 || 0 < rSeg
    ensures |vs| == i * TubeCount(cSeg) * 2
  {
    if i == 0 then []
    else
      assert (i - 1) * TubeCount(cSeg) * 2 + 2 * TubeCount(cSeg) == i * TubeCount(cSeg) * 2;
      Rings(i - 1, rSeg, cSeg) + Ring(i - 1, TubeCount(cSeg), rSeg, cSeg)
  }

  /**
   * The whole torus: `rSeg` rings of `cSeg + 1` tube samples, two vertices each,
   * and no vertex at all when `rSeg` or `cSeg + 1` is not positive.
   */
  function TorusVertices(rSeg: int, cSeg: int): (vs: seq<Vertex>)
    ensures 0 < rSeg && 0 <= cSeg ==> |vs| == rSeg * (cSeg + 1) * 2
    ensures |vs| == 0 <==> !(0 < rSeg && 0 <= cSeg)
  {
    if rSeg <= 0 then []
    else
      assert 0 <= cSeg ==> 0 < rSeg * (cSeg + 1);
      Rings(rSeg, rSeg, cSeg)
  }

  /** The tyre and the wheel rim are both made with 30 rings of 36 tube segments: 2220 vertices. */
  lemma TyreCount()
    ensures |TorusVertices(30, 36)| == 2220
  {
  }

  /** Every vertex of a ring has its indices in range. */
  lemma {:induction false} RingInRange(i: nat, jn: nat, rSeg: int, cSeg: int)
    requires 0 < rSeg && jn <= TubeCount(cSeg) && i < rSeg
    ensures forall v :: v in Ring(i, jn, rSeg, cSeg) ==>
      v.TorusPoint? && 0 <= v.ring < rSeg && 0 <= v.tube <= cSeg && i <= v.uNum <= i + 1
  {
    if jn > 0 {
      RingInRange(i, jn - 1, rSeg, cSeg);
      var pair := TorusPair(i, jn - 1, rSeg, cSeg);
      assert pair[0] == TorusSample(i, jn - 1, 0, rSeg, cSeg);
      assert pair[1] == TorusSample(i, jn - 1, 1, rSeg, cSeg);
    }
  }

  /** Every vertex of the torus has its ring index in `[0, rSeg)`, its tube index in `[0, cSeg]` and its u numerator in `[0, rSeg]`. */
  lemma {:induction false} RingsInRange(i: nat, rSeg: int, cSeg: int)
    requires i <= rSeg && (i == 0 || 0 < rSeg)
    ensures forall v :: v in Rings(i, rSeg, cSeg) ==>
      v.TorusPoint? && 0 <= v.ring < rSeg && 0 <= v.tube <= cSeg && 0 <= v.uNum <= rSeg
  {
    if i > 0 {
      RingsInRange(i - 1, rSeg, cSeg);
      RingInRange(i - 1, TubeCount(cSeg), rSeg, cSeg);
    }
  }

  // --------------------------------------------------------- swept solids

  /** The side wall pushed by the first `m` passes of the tube loop: a top and a bottom rim point per pass. */
  function SideWall(m: nat): (vs: seq<Vertex>)
    ensures |vs| == 2 * m
  {
    if m == 0 then [] else SideWall(m - 1) + [Rim(m - 1, Top, Top), Rim(m - 1, Bottom, Bottom)]
  }

  /** The rim points pushed by the first `m` passes of a cap loop, all in plane `z`, all with texture row 1. */
  function CapRim(m: nat, z: Level): (vs: seq<Vertex>)
    ensures |vs| == m
  {
    if m == 0 then [] else CapRim(m - 1, z) + [Rim(m - 1, z, Top)]
  }

  /** Point `k` of a cap rim is the rim point of pass `k`, in the cap's plane. */
  lemma {:induction false} CapRimPoints(m: nat, z: Level)
    ensures forall k :: 0 <= k < m ==> CapRim(m, z)[k] == Rim(k, z, Top)
  {
    if m > 0 {
      CapRimPoints(m - 1, z);
    }
  }

  /** Vertex `v` is a point of a swept solid lying in plane `z`. */
  predicate InPlane(v: Vertex, z: Level)
  {
    (v.Rim? || v.Seam?) && v.z == z
  }

  /** The wall's points alternate between the top and the bottom plane, at the same angle, as a triangle strip needs. */
  lemma {:induction false} SideWallAlternates(m: nat, q: nat)
    requires q < m
    ensures SideWall(m)[2 * q] == Rim(q, Top, Top)
    ensures SideWall(m)[2 * q + 1] == Rim(q, Bottom, Bottom)
  {
    if q < m - 1 {
      SideWallAlternates(m - 1, q);
    }
  }

  /** Even positions of the wall lie in the top plane and odd ones in the bottom plane. */
  lemma SideWallPlanes(m: nat)
    ensures forall k :: 0 <= k < 2 * m ==> InPlane(SideWall(m)[k], if k % 2 == 0 then Top else Bottom)
  {
    forall k | 0 <= k < 2 * m
      ensures InPlane(SideWall(m)[k], if k % 2 == 0 then Top else Bottom)
    {
      SideWallAlternates(m, k / 2);
    }
  }

  /**
   * The side section: the wall of `n` passes closed by a top and a bottom seam
   * point. It alternates between the top and the bottom plane, closing pair
   * included, as a triangle strip between the two rims needs.
   */
  function SideSection(n: nat): (vs: seq<Vertex>)
    ensures |vs| == 2 * (n + 1)
    ensures forall k :: 0 <= k < |vs| ==> InPlane(vs[k], if k % 2 == 0 then Top else Bottom)
  {
    SideWallPlanes(n);
    SideWall(n) + [Seam(n, Top, Top), Seam(n, Bottom, Bottom)]
  }

  /** The top cap: `n` rim points closed by a seam point, every one of them in the top plane. */
  function TopSection(n: nat): (vs: seq<Vertex>)
    ensures |vs| == n + 1
    ensures forall k :: 0 <= k < |vs| ==> InPlane(vs[k], Top)
  {
    CapRimPoints(n, Top);
    CapRim(n, Top) + [Seam(n, Top, Top)]
  }

  /** The bottom cap: `n` rim points in the bottom plane closed by a seam point in plane `seam`. */
  function BottomSection(n: nat, seam: Level): (vs: seq<Vertex>)
    ensures |vs| == n + 1
    ensures forall k :: 0 <= k < n ==> InPlane(vs[k], Bottom)
    ensures InPlane(vs[n], seam)
  {
    CapRimPoints(n, Bottom);
    CapRim(n, Bottom) + [Seam(n, seam, Top)]
  }

  /**
   * The vertex buffer of a swept solid whose sweeps make `n` passes and whose
   * bottom cap closes in plane `seam`: the side, top and bottom sections, of
   * `2 * (n + 1)`, `n + 1` and `n + 1` vertices, one after another.
   */
  function SweptSolid(n: nat, seam: Level): (vs: seq<Vertex>)
    ensures |vs| == 4 * (n + 1)
    ensures vs[..2 * (n + 1)] == SideSection(n)
    ensures vs[2 * (n + 1)..3 * (n + 1)] == TopSection(n)
    ensures vs[3 * (n + 1)..] == BottomSection(n, seam)
  {
    var vs := SideSection(n) + TopSection(n) + BottomSection(n, seam);
    assert vs[..2 * (n + 1)] == SideSection(n);
    assert vs[2 * (n + 1)..3 * (n + 1)] == TopSection(n);
    assert vs[3 * (n + 1)..] == BottomSection(n, seam);
    vs
  }

  /** With the bottom seam in the bottom plane, every point of the bottom cap lies in the bottom plane. */
  lemma BottomCapFlat(n: nat)
    ensures forall k :: 0 <= k < |BottomSection(n, Bottom)| ==> InPlane(BottomSection(n, Bottom)[k], Bottom)
  {
  }

  /**
   * As written, the cylinder's bottom cap closes on the top seam point: its last
   * vertex is the same as the last vertex of the top cap, so the bottom fan is
   * not flat.
   */
  lemma CylinderBottomSeamOnTop(n: nat)
    ensures |BottomSection(n, Top)| == n + 1
    ensures BottomSection(n, Top)[n] == TopSection(n)[n]
    ensures InPlane(BottomSection(n, Top)[n], Top)
    ensures n > 0 ==> InPlane(BottomSection(n, Top)[0], Bottom)
  {
  }

  /** Appending to a buffer that ends in a partial section extends that section. */
  lemma Extend(done: seq<Vertex>, section: seq<Vertex>, more: seq<Vertex>)
    ensures done + section + more == done + (section + more)
  {
  }

  // ----------------------------------------------------------------- mesh

  /** The counters of one mesh and the vertex data handed to the GPU for it. */
  class Mesh {
    var nIndices: nat
    var sideVerts: nat
    var topVerts: nat
    var bottomVerts: nat
    /** The floats last sent to the vertex buffer object. */
    var buffer: seq<Float>

    /** Meshes are globals, so their counters start at zero. */
    constructor ()
      ensures nIndices == 0 && sideVerts == 0 && topVerts == 0 && bottomVerts == 0
      ensures buffer == []
    {
      nIndices, sideVerts, topVerts, bottomVerts := 0, 0, 0, 0;
      buffer := [];
    }

    /**
     * Builds the torus buffer: for each ring `i < rSeg`, tube sample `j <= cSeg`
     * and offset `k <= 1` one vertex. `nIndices` is set from the float count.
     * With no vertex at all, taking the address of the first float throws, so
     * nothing is uploaded and `thrown` is reported.
     */
    method DrawTorus(rSeg: int, cSeg: int) returns (thrown: bool)
      modifies this
      ensures nIndices == |TorusVertices(rSeg, cSeg)|
      ensures 0 < rSeg && 0 <= cSeg ==> nIndices == rSeg * (cSeg + 1) * 2
      ensures thrown <==> !(0 < rSeg && 0 <= cSeg)
      ensures !thrown ==> buffer == Flatten(TorusVertices(rSeg, cSeg))
      ensures thrown ==> buffer == old(buffer)
      ensures sideVerts == old(sideVerts) && topVerts == old(topVerts) && bottomVerts == old(bottomVerts)
    {
      var vertices: seq<Vertex> := [];
      var i := 0;
      while i < rSeg
        invariant 0 <= i && (i <= rSeg || i == 0)
        invariant unchanged(this)
        invariant vertices == Rings(i, rSeg, cSeg)
      {
        var j := 0;
        assert vertices == Rings(i, rSeg, cSeg) + Ring(i, 0, rSeg, cSeg);
        while j <= cSeg
          invariant 0 <= j && (j <= cSeg + 1 || j == 0)
          invariant unchanged(this)
          invariant vertices == Rings(i, rSeg, cSeg) + Ring(i, j, rSeg, cSeg)
        {
          ghost var done := vertices;
          var k := 0;
          while k <= 1
            invariant 0 <= k <= 2
            invariant unchanged(this)
            invariant vertices == done + TorusPair(i, j, rSeg, cSeg)[..k]
          {
            var v := TorusSample(i, j, k, rSeg, cSeg);
            assert TorusPair(i, j, rSeg, cSeg)[..k + 1] == TorusPair(i, j, rSeg, cSeg)[..k] + [v];
            assert done + TorusPair(i, j, rSeg, cSeg)[..k] + [v] == done + (TorusPair(i, j, rSeg, cSeg)[..k] + [v]);
            vertices := vertices + [v];
            k := k + 1;
          }
          assert TorusPair(i, j, rSeg, cSeg)[..2] == TorusPair(i, j, rSeg, cSeg);
          assert Rings(i, rSeg, cSeg) + Ring(i, j, rSeg, cSeg) + TorusPair(i, j, rSeg, cSeg)
              == Rings(i, rSeg, cSeg) + (Ring(i, j, rSeg, cSeg) + TorusPair(i, j, rSeg, cSeg));
          j := j + 1;
        }
        // the tube loop `j <= cSeg` has made `cSeg + 1` passes, or none for a negative `cSeg`
        assert j == TubeCount(cSeg);
        i := i + 1;
      }
      assert vertices == TorusVertices(rSeg, cSeg);
      var floatCount := FloatsPerVertex * |vertices|;
      nIndices := floatCount / FloatsPerVertex;
      if floatCount == 0 {
        thrown := true;
      } else {
        thrown := false;
        buffer := Flatten(vertices);
      }
    }

    /**
     * The generator shared by the cylinder and the rectangle: a side strip, a top
     * fan and a bottom fan, each sweep making `n` passes before it is closed at
     * the seam; every vertex is counted by exactly one of `sideVerts`,
     * `topVerts` and `bottomVerts`.
     */
    method Sweep(n: nat, seam: Level)
      modifies this
      ensures sideVerts == 2 * (n + 1) && topVerts == n + 1 && bottomVerts == n + 1
      ensures nIndices == sideVerts + topVerts + bottomVerts
      ensures buffer == Flatten(SweptSolid(n, seam))
    {
      var vertices: seq<Vertex> := [];
      sideVerts, topVerts, bottomVerts := 0, 0, 0;

      var step := 0;
      while step < n
        invariant step <= n && sideVerts == 2 * step && topVerts == 0 && bottomVerts == 0
        invariant vertices == SideWall(step)
      {
        vertices := vertices + [Rim(step, Top, Top)];
        vertices := vertices + [Rim(step, Bottom, Bottom)];
        step := step + 1;
        sideVerts := sideVerts + 2;
      }
      vertices := vertices + [Seam(n, Top, Top)];
      vertices := vertices + [Seam(n, Bottom, Bottom)];
      sideVerts := sideVerts + 2;
      assert vertices == SideSection(n);

      step := 0;
      while step < n
        invariant step <= n && sideVerts == 2 * (n + 1) && topVerts == step && bottomVerts == 0
        invariant vertices == SideSection(n) + CapRim(step, Top)
      {
        Extend(SideSection(n), CapRim(step, Top), [Rim(step, Top, Top)]);
        vertices := vertices + [Rim(step, Top, Top)];
        step := step + 1;
        topVerts := topVerts + 1;
      }
      topVerts := topVerts + 1;
      Extend(SideSection(n), CapRim(n, Top), [Seam(n, Top, Top)]);
      vertices := vertices + [Seam(n, Top, Top)];
      assert vertices == SideSection(n) + TopSection(n);

      step := 0;
      while step < n
        invariant step <= n && sideVerts == 2 * (n + 1) && topVerts == n + 1 && bottomVerts == step
        invariant vertices == SideSection(n) + TopSection(n) + CapRim(step, Bottom)
      {
        Extend(SideSection(n) + TopSection(n), CapRim(step, Bottom), [Rim(step, Bottom, Top)]);
        vertices := vertices + [Rim(step, Bottom, Top)];
        step := step + 1;
        bottomVerts := bottomVerts + 1;
      }
      Extend(SideSection(n) + TopSection(n), CapRim(n, Bottom), [Seam(n, seam, Top)]);
      vertices := vertices + [Seam(n, seam, Top)];
      bottomVerts := bottomVerts + 1;
      assert vertices == SweptSolid(n, seam);

      var floatCount := FloatsPerVertex * |vertices|;
      nIndices := floatCount / FloatsPerVertex;
      buffer := Flatten(vertices);
    }

    /**
     * The cylinder generator, whose sweeps step the angle by 0.1 up to 2 pi. As
     * written it closes the bottom fan on a point in the top plane.
     */
    method DrawCylinder(n: nat)
      modifies this
      ensures sideVerts == 2 * (n + 1) && topVerts == n + 1 && bottomVerts == n + 1
      ensures nIndices == sideVerts + topVerts + bottomVerts
      ensures buffer == Flatten(SweptSolid(n, Top))
    {
      Sweep(n, Top);
    }

    /**
     * The rectangle generator: the same sweeps with four slices, the angle stepping
     * by a quarter turn up to 5; the bottom fan closes in the bottom plane.
     */
    method DrawRectangle(n: nat)
      modifies this
      ensures sideVerts == 2 * (n + 1) && topVerts == n + 1 && bottomVerts == n + 1
      ensures nIndices == sideVerts + topVerts + bottomVerts
      ensures buffer == Flatten(SweptSolid(n, Bottom))
    {
      Sweep(n, Bottom);
    }
  }
}
