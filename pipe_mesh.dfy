/**
 * One curved tube segment of the tunnel: its random shape parameters and the
 * vertex and triangle buffers of its mesh (Assets/Scripts/Pipe.cs).
 *
 * The torus surface point is abstract: a pipe carries `pointOnTorus`, where
 * `pointOnTorus(u, v)` is the surface point on ring `u` (ring 0 is the entry
 * ring) at radial step `v` round the tube. Everything proved here is about
 * which grid point lands in which buffer slot, so no trigonometry is needed.
 */
module PipeMesh {

  /** Unity's Vector3, with its float components taken as reals. */
  datatype Vector3 = Vector3(x: real, y: real, z: real)

  type PosReal = r: real | r > 0.0 witness 1.0

  /** Mathf.PI: the single-precision value of pi. */
  const Pi: real := 3.1415927410125732421875

  /** Angle in degrees that a pipe of `curveSegmentCount` rings, `ringDistance`
      apart along a centre line of radius `curveRadius`, turns through. */
  function CurveAngleOf(ringDistance: real, curveRadius: PosReal, curveSegmentCount: nat): (a: real)
    ensures a * (2.0 * Pi * curveRadius) == 360.0 * (ringDistance * curveSegmentCount as real)
  {
    (ringDistance / curveRadius) * (curveSegmentCount as real) * (360.0 / (2.0 * Pi))
  }

  // ---------------------------------------------------------------------------
  // Vertex buffer layout

  /** First slot of ring `r` when every ring holds `P` quads of four vertices. */
  function RingStart(P: nat, r: nat): nat
  {
    if r == 0 then 0 else RingStart(P, r - 1) + 4 * P
  }

  lemma {:induction false} RingStartIsProduct(P: nat, r: nat)
    ensures RingStart(P, r) == r * (4 * P)
  {
    if r > 0 {
      RingStartIsProduct(P, r - 1);
    }
  }

  /** Slot of corner `k` (0 to 3) of quad `j` in a ring starting at `ringStart`. */
  function QuadSlot(ringStart: nat, j: nat, k: nat): nat
  {
    ringStart + 4 * j + k
  }

  /** Slot of corner `k` (0 to 3) of quad `j` in ring `r`. */
  function SlotOf(P: nat, r: nat, j: nat, k: nat): nat
  {
    QuadSlot(RingStart(P, r), j, k)
  }

  /** The grid point at corner `k` of quad `j` of ring `r`: corners 0 and 1
      lie on ring `r`, corners 2 and 3 on ring `r + 1`; corners 1 and 3 are
      one radial step further round than corners 0 and 2. */
  function Corner(pointOnTorus: (nat, nat) -> Vector3, r: nat, j: nat, k: nat): Vector3
  {
    if k == 0 then pointOnTorus(r, j)
    else if k == 1 then pointOnTorus(r, j + 1)
    else if k == 2 then pointOnTorus(r + 1, j)
    else pointOnTorus(r + 1, j + 1)
  }

  /** Quads 0 to n-1 of ring `r` hold their corners. */
  ghost predicate QuadsLaidOut(v: seq<Vector3>, pointOnTorus: (nat, nat) -> Vector3, P: nat, r: nat, n: nat)
  {
    forall j: nat, k: nat :: j < n && k < 4 ==>
      SlotOf(P, r, j, k) < |v| && v[SlotOf(P, r, j, k)] == Corner(pointOnTorus, r, j, k)
  }

  ghost predicate RingLaidOut(v: seq<Vector3>, pointOnTorus: (nat, nat) -> Vector3, P: nat, r: nat)
  {
    QuadsLaidOut(v, pointOnTorus, P, r, P)
  }

  /** Rings 0 to n-1 hold their corners. */
  ghost predicate RingsLaidOut(v: seq<Vector3>, pointOnTorus: (nat, nat) -> Vector3, P: nat, n: nat)
  {
    forall r: nat :: r < n ==> RingLaidOut(v, pointOnTorus, P, r)
  }

  /** The finished vertex buffer of a pipe with `P` radial divisions and `C` rings. */
  ghost predicate MeshLaidOut(v: seq<Vector3>, pointOnTorus: (nat, nat) -> Vector3, P: nat, C: nat)
  {
    |v| == P * C * 4 && RingsLaidOut(v, pointOnTorus, P, C)
  }

  lemma RingStartStep(P: nat, r: nat)
    ensures RingStart(P, r + 1) == RingStart(P, r) + 4 * P
  {
  }

  lemma {:induction false} RingStartMonotone(P: nat, r: nat, s: nat)
    requires r <= s
    ensures RingStart(P, r) <= RingStart(P, s)
    decreases s - r
  {
    if r < s {
      RingStartMonotone(P, r, s - 1);
      RingStartStep(P, s - 1);
    }
  }

  /** Every corner slot of ring `r` lies in [RingStart(r), RingStart(r + 1)). */
  lemma SlotInRing(P: nat, r: nat, j: nat, k: nat)
    requires j < P && k < 4
    ensures RingStart(P, r) <= SlotOf(P, r, j, k) < RingStart(P, r + 1)
  {
    RingStartStep(P, r);
  }

  /** The buffer length is the start of the ring after the last one. */
  lemma BufferEndsAtLastRing(P: nat, C: nat)
    ensures P * C * 4 == RingStart(P, C)
  {
    RingStartIsProduct(P, C);
  }

  /** A corner of a ring below `C` has a slot inside the buffer. */
  lemma SlotInBuffer(P: nat, C: nat, r: nat, j: nat, k: nat)
    requires r < C && j < P && k < 4
    ensures SlotOf(P, r, j, k) < P * C * 4
  {
    SlotInRing(P, r, j, k);
    RingStartMonotone(P, r + 1, C);
    BufferEndsAtLastRing(P, C);
  }

  /** No two corners share a slot: each slot is written at most once. */
  lemma SlotsDistinct(P: nat, r1: nat, j1: nat, k1: nat, r2: nat, j2: nat, k2: nat)
    requires j1 < P && k1 < 4 && j2 < P && k2 < 4
    requires SlotOf(P, r1, j1, k1) == SlotOf(P, r2, j2, k2)
    ensures r1 == r2 && j1 == j2 && k1 == k2
  {
    SlotInRing(P, r1, j1, k1);
    SlotInRing(P, r2, j2, k2);
    if r1 < r2 {
      RingStartMonotone(P, r1 + 1, r2);
    } else if r2 < r1 {
      RingStartMonotone(P, r2 + 1, r1);
    }
  }

  /** Every slot of the buffer is a corner of some quad: each slot is written
      at least once. */
  lemma SlotsCoverBuffer(P: nat, C: nat, s: nat)
    requires s < P * C * 4
    ensures exists r: nat, j: nat, k: nat :: r < C && j < P && k < 4 && SlotOf(P, r, j, k) == s
  {
    BufferEndsAtLastRing(P, C);
    var r, j, k := SlotDecomposition(P, s);
    if r >= C {
      RingStartMonotone(P, C, r);
    }
    assert r < C && j < P && k < 4 && SlotOf(P, r, j, k) == s;
  }

  /** A slot splits into ring, quad and corner. */
  lemma SlotDecomposition(P: nat, s: nat) returns (r: nat, j: nat, k: nat)
    requires P > 0
    ensures j < P && k < 4 && SlotOf(P, r, j, k) == s
  {
    var q := s / 4;
    k := s % 4;
    r, j := q / P, q % P;
    assert q == r * P + j;
    RingStartIsProduct(P, r);
  }

  /** The layout determines the whole buffer: two buffers laid out from the
      same surface points are equal. */
  lemma LayoutDeterminesBuffer(v: seq<Vector3>, w: seq<Vector3>, pointOnTorus: (nat, nat) -> Vector3, P: nat, C: nat)
    requires MeshLaidOut(v, pointOnTorus, P, C) && MeshLaidOut(w, pointOnTorus, P, C)
    ensures v == w
  {
    forall s | 0 <= s < |v|
      ensures v[s] == w[s]
    {
      SlotsCoverBuffer(P, C, s);
      var r: nat, j: nat, k: nat :| r < C && j < P && k < 4 && SlotOf(P, r, j, k) == s;
      assert RingLaidOut(v, pointOnTorus, P, r) && RingLaidOut(w, pointOnTorus, P, r);
    }
  }

  /** Adjacent rings share an edge: slot i of a later ring holds the same point
      as slot i - 4P + 2 of the ring before, and slot i + 1 the same as slot
      i - 4P + 3 (Pipe.cs copies them across). */
  lemma RingsShareEdges(v: seq<Vector3>, pointOnTorus: (nat, nat) -> Vector3, P: nat, C: nat, r: nat, j: nat)
    requires MeshLaidOut(v, pointOnTorus, P, C)
    requires 1 <= r < C && j < P
    ensures 4 * P <= SlotOf(P, r, j, 0) && SlotOf(P, r, j, 1) < |v|
    ensures v[SlotOf(P, r, j, 0)] == v[SlotOf(P, r, j, 0) - 4 * P + 2]
    ensures v[SlotOf(P, r, j, 0) + 1] == v[SlotOf(P, r, j, 0) - 4 * P + 3]
  {
    RingStartStep(P, r - 1);
    RingStartMonotone(P, 1, r);
    assert RingLaidOut(v, pointOnTorus, P, r - 1) && RingLaidOut(v, pointOnTorus, P, r);
    assert SlotOf(P, r, j, 0) - 4 * P + 2 == SlotOf(P, r - 1, j, 2);
    assert SlotOf(P, r, j, 0) - 4 * P + 3 == SlotOf(P, r - 1, j, 3);
  }

  /** Neighbouring quads of a ring share an edge: corners 1 and 3 of quad j
      are corners 0 and 2 of quad j + 1 (the carried vertexA / vertexB). */
  lemma QuadsShareEdges(v: seq<Vector3>, pointOnTorus: (nat, nat) -> Vector3, P: nat, C: nat, r: nat, j: nat)
    requires MeshLaidOut(v, pointOnTorus, P, C)
    requires r < C && j + 1 < P
    ensures SlotOf(P, r, j + 1, 2) < |v|
    ensures v[SlotOf(P, r, j, 1)] == v[SlotOf(P, r, j + 1, 0)]
    ensures v[SlotOf(P, r, j, 3)] == v[SlotOf(P, r, j + 1, 2)]
  {
    assert RingLaidOut(v, pointOnTorus, P, r);
  }

  /** A ring is laid out once every quad slot counted from its start holds its corner. */
  lemma RingFromQuadSlots(v: seq<Vector3>, pointOnTorus: (nat, nat) -> Vector3, P: nat, r: nat, ringStart: nat)
    requires ringStart == RingStart(P, r) && ringStart + 4 * P <= |v|
    requires forall j: nat, k: nat :: j < P && k < 4 ==> v[QuadSlot(ringStart, j, k)] == Corner(pointOnTorus, r, j, k)
    ensures RingLaidOut(v, pointOnTorus, P, r)
  {
  }

  /** The outer corners of a laid-out ring, addressed `4P` slots back from
      the matching slots of the ring after it. */
  lemma OuterCornersOneRingBack(v: seq<Vector3>, pointOnTorus: (nat, nat) -> Vector3, P: nat, r: nat, ringStart: nat)
    requires RingLaidOut(v, pointOnTorus, P, r)
    requires ringStart == RingStart(P, r + 1)
    ensures forall j: nat, k: nat :: j < P && 2 <= k < 4 ==>
      4 * P <= QuadSlot(ringStart, j, k) && QuadSlot(ringStart, j, k) - 4 * P < |v|
      && v[QuadSlot(ringStart, j, k) - 4 * P] == Corner(pointOnTorus, r, j, k)
  {
    forall j: nat, k: nat | j < P && 2 <= k < 4
      ensures 4 * P <= QuadSlot(ringStart, j, k) && QuadSlot(ringStart, j, k) - 4 * P < |v|
      ensures v[QuadSlot(ringStart, j, k) - 4 * P] == Corner(pointOnTorus, r, j, k)
    {
      assert QuadSlot(ringStart, j, k) - 4 * P == SlotOf(P, r, j, k);
    }
  }

  /** Ring `r` stays laid out when the slots below RingStart(r + 1) are kept. */
  lemma RingKept(v: seq<Vector3>, w: seq<Vector3>, pointOnTorus: (nat, nat) -> Vector3, P: nat, r: nat, n: nat)
    requires RingLaidOut(v, pointOnTorus, P, r)
    requires RingStart(P, r + 1) <= n <= |v| && n <= |w|
    requires v[..n] == w[..n]
    ensures RingLaidOut(w, pointOnTorus, P, r)
  {
    forall j: nat, k: nat | j < P && k < 4
      ensures SlotOf(P, r, j, k) < |w| && w[SlotOf(P, r, j, k)] == Corner(pointOnTorus, r, j, k)
    {
      SlotInRing(P, r, j, k);
      assert v[..n][SlotOf(P, r, j, k)] == w[..n][SlotOf(P, r, j, k)];
    }
  }

  /** Rings 0 to n-1 stay laid out when the slots below RingStart(n) are kept. */
  lemma RingsKept(v: seq<Vector3>, w: seq<Vector3>, pointOnTorus: (nat, nat) -> Vector3, P: nat, n: nat)
    requires RingsLaidOut(v, pointOnTorus, P, n)
    requires RingStart(P, n) <= |v| && RingStart(P, n) <= |w|
    requires v[..RingStart(P, n)] == w[..RingStart(P, n)]
    ensures RingsLaidOut(w, pointOnTorus, P, n)
  {
    forall r: nat | r < n
      ensures RingLaidOut(w, pointOnTorus, P, r)
    {
      RingStartMonotone(P, r + 1, n);
      RingKept(v, w, pointOnTorus, P, r, RingStart(P, n));
    }
  }

  // ---------------------------------------------------------------------------
  // Triangle buffer layout

  /** Offsets, within a quad's four vertices, of the six indices of its two
      triangles (i, i+1, i+2) and (i+2, i+1, i+3). */
  const QuadPattern: seq<nat> := [0, 1, 2, 2, 1, 3]

  /** Slot of the m-th index (0 to 5) of quad q's two triangles. */
  function TriangleSlot(q: nat, m: nat): nat
  {
    q * 6 + m
  }

  /** The finished triangle buffer of a mesh of `quads` quads. */
  ghost predicate TrianglesLaidOut(t: seq<int>, quads: nat)
  {
    |t| == quads * 6
    && forall q: nat, m: nat :: q < quads && m < 6 ==> t[TriangleSlot(q, m)] == 4 * q + QuadPattern[m]
  }

  /** Every triangle index names a vertex of the buffer. */
  lemma TriangleIndicesInRange(t: seq<int>, P: nat, C: nat)
    requires TrianglesLaidOut(t, P * C)
    ensures forall s :: 0 <= s < |t| ==> 0 <= t[s] < P * C * 4
  {
    forall s | 0 <= s < |t|
      ensures 0 <= t[s] < P * C * 4
    {
      var q, m := s / 6, s % 6;
      assert TriangleSlot(q, m) == s;
    }
  }

  /** Both triangles of a quad use only that quad's four vertices, and
      together they use each of them. */
  lemma TrianglesCoverTheirQuad(t: seq<int>, quads: nat, q: nat)
    requires TrianglesLaidOut(t, quads) && q < quads
    ensures (set m: nat | m < 6 :: t[TriangleSlot(q, m)]) == {4 * q, 4 * q + 1, 4 * q + 2, 4 * q + 3}
  {
    var used := set m: nat | m < 6 :: t[TriangleSlot(q, m)];
    assert t[TriangleSlot(q, 0)] in used && t[TriangleSlot(q, 1)] in used;
    assert t[TriangleSlot(q, 2)] in used && t[TriangleSlot(q, 5)] in used;
  }

  /** Stores the four corners of one quad in slots `i` to `i + 3`. */
  method SetQuad(vs: array<Vector3>, i: nat, c0: Vector3, c1: Vector3, c2: Vector3, c3: Vector3)
    requires i + 4 <= vs.Length
    modifies vs
    ensures vs[i] == c0 && vs[i + 1] == c1 && vs[i + 2] == c2 && vs[i + 3] == c3
    ensures forall s :: 0 <= s < vs.Length && !(i <= s < i + 4) ==> vs[s] == old(vs[s])
  {
    vs[i] := c0;
    vs[i + 1] := c1;
    vs[i + 2] := c2;
    vs[i + 3] := c3;
  }

  // ---------------------------------------------------------------------------
  // The pipe

  class Pipe {
    const pipeSegmentCount: nat
    const ringDistance: real
    const curveRadius: PosReal
    const curveSegmentCount: nat
    /** GetPointOnTorus sampled on the grid of rings and radial steps. */
    const pointOnTorus: (nat, nat) -> Vector3
    var curveAngle: real
    var vertices: array<Vector3>
    var triangles: array<int>

    /** The curve angle is the one the pipe's arc turns through. */
    ghost predicate AngleMatchesArc()
      reads this
    {
      curveAngle == CurveAngleOf(ringDistance, curveRadius, curveSegmentCount)
    }

    ghost predicate Valid()
      reads this, vertices, triangles
    {
      && AngleMatchesArc()
      && MeshLaidOut(vertices[..], pointOnTorus, pipeSegmentCount, curveSegmentCount)
      && TrianglesLaidOut(triangles[..], pipeSegmentCount * curveSegmentCount)
    }

    /** Awake: `curveRadius` and `curveSegmentCount` are the two random draws. */
    constructor Awake(pipeSegmentCount: nat, ringDistance: real, curveRadius: PosReal,
                      curveSegmentCount: nat, pointOnTorus: (nat, nat) -> Vector3)
      requires pipeSegmentCount == 0 || curveSegmentCount >= 1
      ensures Valid() && fresh(vertices) && fresh(triangles)
      ensures this.pipeSegmentCount == pipeSegmentCount && this.ringDistance == ringDistance
      ensures this.curveRadius == curveRadius && this.curveSegmentCount == curveSegmentCount
      ensures this.pointOnTorus == pointOnTorus
    {
      this.pipeSegmentCount := pipeSegmentCount;
      this.ringDistance := ringDistance;
      this.curveRadius := curveRadius;
      this.curveSegmentCount := curveSegmentCount;
      this.pointOnTorus := pointOnTorus;
      vertices := new Vector3[0];
      triangles := new int[0];
      new;
      SetVertices();
      SetTriangles();
    }

    method SetVertices()
      requires pipeSegmentCount == 0 || curveSegmentCount >= 1
      modifies this`vertices, this`curveAngle
      ensures fresh(vertices)
      ensures curveAngle == CurveAngleOf(ringDistance, curveRadius, curveSegmentCount)
      ensures MeshLaidOut(vertices[..], pointOnTorus, pipeSegmentCount, curveSegmentCount)
    {
      vertices := new Vector3[pipeSegmentCount * curveSegmentCount * 4];
      curveAngle := CurveAngleOf(ringDistance, curveRadius, curveSegmentCount);
      CreateFirstQuadRing();
      var iDelta := pipeSegmentCount * 4;
      var u, i := 2, iDelta;
      while u <= curveSegmentCount
        invariant 2 <= u <= if curveSegmentCount < 2 then 2 else curveSegmentCount + 1
        invariant i == RingStart(pipeSegmentCount, u - 1)
        modifies vertices
        invariant RingsLaidOut(vertices[..], pointOnTorus, pipeSegmentCount, u - 1)
      {
        ghost var before := vertices[..];
        RingStartStep(pipeSegmentCount, u - 1);
        RingStartMonotone(pipeSegmentCount, u, curveSegmentCount);
        BufferEndsAtLastRing(pipeSegmentCount, curveSegmentCount);
        OuterCornersOneRingBack(before, pointOnTorus, pipeSegmentCount, u - 2, i);
        CreateQuadRing(u, i);
        assert before[..i] == vertices[..i];
        RingsKept(before, vertices[..], pointOnTorus, pipeSegmentCount, u - 1);
        RingFromQuadSlots(vertices[..], pointOnTorus, pipeSegmentCount, u - 1, i);
        u, i := u + 1, i + iDelta;
      }
    }

    /** Samples ring 0 and ring 1 directly into the first `4P` slots. */
    method CreateFirstQuadRing()
      requires pipeSegmentCount == 0 || curveSegmentCount >= 1
      requires vertices.Length == pipeSegmentCount * curveSegmentCount * 4
      modifies vertices
      ensures RingsLaidOut(vertices[..], pointOnTorus, pipeSegmentCount, 1)
      ensures forall s :: 4 * pipeSegmentCount <= s < vertices.Length ==> vertices[s] == old(vertices[s])
    {
      var P := pipeSegmentCount;
      if P > 0 {
        RingStartMonotone(P, 1, curveSegmentCount);
      }
      RingStartStep(P, 0);
      BufferEndsAtLastRing(P, curveSegmentCount);
      var vs := vertices;
      var vertexA := pointOnTorus(0, 0);
      var vertexB := pointOnTorus(1, 0);
      var v, i := 1, 0;
      while v <= P
        invariant 1 <= v <= P + 1
        invariant i == 4 * (v - 1)
        invariant vertexA == pointOnTorus(0, v - 1) && vertexB == pointOnTorus(1, v - 1)
        invariant QuadsLaidOut(vs[..], pointOnTorus, P, 0, v - 1)
        invariant forall s :: i <= s < vs.Length ==> vs[s] == old(vs[s])
      {
        var nextA, nextB := pointOnTorus(0, v), pointOnTorus(1, v);
        SetQuad(vs, i, vertexA, nextA, vertexB, nextB);
        vertexA, vertexB := nextA, nextB;
        v, i := v + 1, i + 4;
      }
    }

    /** Fills ring `u - 1`, whose quads start at slot `ringStart`: the inner
        corners of each quad are copied from the outer corners of the same quad
        of the ring before, `4P` slots back, and its outer corners are sampled
        on ring `u`. No slot outside the ring changes. */
    method CreateQuadRing(u: nat, ringStart: nat)
      requires 2 <= u
      requires 4 * pipeSegmentCount <= ringStart
      requires ringStart + 4 * pipeSegmentCount <= vertices.Length
      requires forall j: nat, k: nat :: j < pipeSegmentCount && 2 <= k < 4 ==>
        vertices[QuadSlot(ringStart, j, k) - 4 * pipeSegmentCount] == Corner(pointOnTorus, u - 2, j, k)
      modifies vertices
      ensures forall j: nat, k: nat :: j < pipeSegmentCount && k < 4 ==>
        vertices[QuadSlot(ringStart, j, k)] == Corner(pointOnTorus, u - 1, j, k)
      ensures forall s :: 0 <= s < vertices.Length && !(ringStart <= s < ringStart + 4 * pipeSegmentCount) ==>
        vertices[s] == old(vertices[s])
    {
      var P := pipeSegmentCount;
      var ringOffset := P * 4;
      var vs := vertices;
      var vertex := pointOnTorus(u, 0);
      var v, i := 1, ringStart;
      while v <= P
        invariant 1 <= v <= P + 1
        invariant i == ringStart + 4 * (v - 1)
        invariant vertex == pointOnTorus(u, v - 1)
        invariant forall s :: 0 <= s < vs.Length && !(ringStart <= s < i) ==> vs[s] == old(vs[s])
        invariant forall j: nat, k: nat :: j < v - 1 && k < 4 ==>
          vs[QuadSlot(ringStart, j, k)] == Corner(pointOnTorus, u - 1, j, k)
      {
        assert i - ringOffset + 2 == QuadSlot(ringStart, v - 1, 2) - ringOffset;
        assert i - ringOffset + 3 == QuadSlot(ringStart, v - 1, 3) - ringOffset;
        var next := pointOnTorus(u, v);
        SetQuad(vs, i, vs[i - ringOffset + 2], vs[i - ringOffset + 3], vertex, next);
        vertex := next;
        v, i := v + 1, i + 4;
      }
    }

    method SetTriangles()
      modifies this`triangles
      ensures fresh(triangles)
      ensures TrianglesLaidOut(triangles[..], pipeSegmentCount * curveSegmentCount)
    {
      var quads := pipeSegmentCount * curveSegmentCount;
      triangles := new int[pipeSegmentCount * curveSegmentCount * 6];
      var ts := triangles;
      var t, i := 0, 0;
      ghost var q := 0;
      while t < ts.Length
        invariant triangles == ts && ts.Length == quads * 6
        invariant q <= quads && t == q * 6 && i == 4 * q
        invariant forall q': nat, m: nat :: q' < q && m < 6 ==>
          ts[TriangleSlot(q', m)] == 4 * q' + QuadPattern[m]
      {
        ts[t] := i;
        ts[t + 4] := i + 1;
        ts[t + 1] := i + 1;
        ts[t + 3] := i + 2;
        ts[t + 2] := i + 2;
        ts[t + 5] := i + 3;
        t, i, q := t + 6, i + 4, q + 1;
      }
    }
  }
}
