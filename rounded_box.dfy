/** `RoundedBoxGeometry` (src/components/ThreeCubeDance.tsx): a box whose
    edges and corners are rounded, built from eight 1/8-sphere corner patches.
    Vertex coordinates (cos/sin on floats) are replaced by a symbolic vertex:
    the corner patch it belongs to and its row and column in the patch. The
    combinatorics (vertex counts, pool layout, triangle index list, buffer
    sizes) are exact. */
module RoundedBox {

  // ---------------------------------------------------------------------------
  // Parameter validation

  /** Parameters as the constructor stores them after validation. */
  datatype Params = Params(width: real, height: real, depth: real, radius: real, radiusSegments: nat)

  function Min(a: real, b: real): real { if a <= b then a else b }

  /** At least one radius segment (floored), and a radius no larger than half
      of the smallest dimension. NaN replacement is not modelled. */
  function Validate(width: real, height: real, depth: real, radius: real, radiusSegments: real): (p: Params)
    ensures p.width == width && p.height == height && p.depth == depth
    ensures p.radiusSegments >= 1
    ensures radiusSegments >= 1.0 ==> p.radiusSegments == radiusSegments.Floor
    // below one segment: exactly one (with the bound above)
    ensures radiusSegments < 1.0 ==> p.radiusSegments <= 1
    ensures p.radius <= radius
    ensures p.radius <= width / 2.0 && p.radius <= height / 2.0 && p.radius <= depth / 2.0
    ensures radius <= width / 2.0 && radius <= height / 2.0 && radius <= depth / 2.0 ==> p.radius == radius
    ensures p.radius < radius ==> p.radius == width / 2.0 || p.radius == height / 2.0 || p.radius == depth / 2.0
    // the three edge half-extents are never negative
    ensures width / 2.0 - p.radius >= 0.0 && height / 2.0 - p.radius >= 0.0 && depth / 2.0 - p.radius >= 0.0
  {
    // `Math.max(1, Math.floor(radiusSegments))`, written as one plus the
    // segments beyond the first
    var extra := if radiusSegments.Floor >= 1 then radiusSegments.Floor - 1 else 0;
    var segments := 1 + extra;
    var r := Min(radius, Min(width, Min(height, depth)) / 2.0);
    Params(width, height, depth, r, segments)
  }

  // ---------------------------------------------------------------------------
  // Vertex counts and addressing
  //
  // Products of two variables are written with `Times`, defined by repeated
  // addition, so that unfolding the index functions stays linear; `TimesMul`
  // connects it to `*` where a proof needs it.

  function Times(a: nat, b: nat): nat
  {
    if a == 0 then 0 else b + Times(a - 1, b)
  }

  lemma {:induction false} TimesMul(a: nat, b: nat)
    ensures Times(a, b) == a * b
  {
    if a > 0 {
      TimesMul(a - 1, b);
    }
  }

  /** Vertices in one corner patch, `rs1 * rs + 1`: `rs` rows of `rs + 1`, plus the pole. */
  function CornerVertNumber(rs: nat): nat { Times(rs + 1, rs) + 1 }

  /** Slot of the pole in a corner patch, `rs1 * rs`. */
  function LastVertex(rs: nat): nat { Times(rs + 1, rs) }

  /** `(rs1 * rs + 1) << 3`: eight corner patches. */
  function TotalVertexCount(rs: nat): nat { CornerVertNumber(rs) * 8 }

  /** Slot of the vertex in row `row`, column `col` of a patch (row `rs`,
      column 0 is the pole). */
  function Slot(rs: nat, row: nat, col: nat): nat { Times(row, rs + 1) + col }

  /** Position in the vertex pool of slot `slot` of corner patch `corner`. */
  function V(rs: nat, corner: nat, slot: nat): nat { Times(corner, CornerVertNumber(rs)) + slot }

  lemma TimesComm(a: nat, b: nat)
    ensures Times(a, b) == Times(b, a)
  {
    TimesMul(a, b);
    TimesMul(b, a);
  }

  /** Patch `4 + i` starts four patches after patch `i`. */
  lemma TimesFourMore(i: nat, b: nat)
    ensures Times(4 + i, b) == 4 * b + Times(i, b)
  {
    assert Times(4 + i, b) == b + Times(3 + i, b);
    assert Times(3 + i, b) == b + Times(2 + i, b);
    assert Times(2 + i, b) == b + Times(1 + i, b);
  }

  lemma MulMono(a: nat, b: nat, c: nat)
    requires a <= b
    ensures a * c <= b * c
  {
  }

  lemma MulDistrib(a: nat, b: nat, c: nat)
    ensures (a + b) * c == a * c + b * c
  {
  }

  lemma VInRange(rs: nat, corner: nat, slot: nat)
    requires corner < 8 && slot < CornerVertNumber(rs)
    ensures V(rs, corner, slot) < TotalVertexCount(rs)
  {
    var c := CornerVertNumber(rs);
    TimesMul(corner, c);
    assert corner * c + slot < corner * c + c == (corner + 1) * c;
    MulMono(corner + 1, 8, c);
  }

  /** Every grid position of a patch, the pole included, has a slot inside the patch. */
  lemma SlotInPatch(rs: nat, row: nat, col: nat)
    requires rs >= 1
    requires (row <= rs - 1 && col <= rs) || (row == rs && col == 0)
    ensures Slot(rs, row, col) < CornerVertNumber(rs)
    ensures row == rs ==> Slot(rs, row, col) == LastVertex(rs)
  {
    TimesMul(row, rs + 1);
    TimesMul(rs + 1, rs);
    if row < rs {
      MulMono(row, rs - 1, rs + 1);
      assert (rs - 1) * (rs + 1) + rs == (rs + 1) * rs - 1;
    }
  }

  lemma GridInRange(rs: nat, corner: nat, row: nat, col: nat)
    requires rs >= 1 && corner < 8
    requires (row <= rs - 1 && col <= rs) || (row == rs && col == 0)
    ensures V(rs, corner, Slot(rs, row, col)) < TotalVertexCount(rs)
  {
    SlotInPatch(rs, row, col);
    VInRange(rs, corner, Slot(rs, row, col));
  }

  // ---------------------------------------------------------------------------
  // Triangles

  /** Every entry of `s` is a valid index into a buffer of `n` entries;
      `InRangeAt` and `InRangeAll` give the pointwise reading. */
  predicate InRange(s: seq<int>, n: int)
  {
    |s| == 0 || (0 <= s[0] < n && InRange(s[1..], n))
  }

  lemma {:induction false} InRangeAt(s: seq<int>, n: int, k: int)
    requires InRange(s, n) && 0 <= k < |s|
    ensures 0 <= s[k] < n
  {
    if k > 0 {
      InRangeAt(s[1..], n, k - 1);
    }
  }

  lemma {:induction false} InRangeAll(s: seq<int>, n: int)
    requires forall k :: 0 <= k < |s| ==> 0 <= s[k] < n
    ensures InRange(s, n)
  {
    if |s| > 0 {
      InRangeAll(s[1..], n);
    }
  }

  lemma AppendAssoc<T>(a: seq<T>, b: seq<T>, c: seq<T>)
    ensures a + b + c == a + (b + c)
  {
  }

  lemma AppendEmpty<T>(s: seq<T>)
    ensures [] + s == s
  {
  }

  /** A sequence made of two in-range parts is in range. */
  lemma {:induction false} InRangeWiden(s: seq<int>, n: int, m: int)
    requires InRange(s, n) && n <= m
    ensures InRange(s, m)
  {
    if |s| > 0 {
      InRangeWiden(s[1..], n, m);
    }
  }

  lemma {:induction false} InRangeAppend(a: seq<int>, b: seq<int>, n: int)
    requires InRange(a, n) && InRange(b, n)
    ensures InRange(a + b, n)
  {
    if |a| > 0 {
      InRangeAppend(a[1..], b, n);
      assert (a + b)[1..] == a[1..] + b;
    } else {
      assert a + b == b;
    }
  }

  function Tri(a: int, b: int, c: int, flip: bool): seq<int>
  {
    if !flip then [a, b, c] else [a, c, b]
  }

  /** A quad as two triangles: `(a,b,c,b,d,c)`, or `(a,c,b,b,c,d)` when flipped. */
  function Quad(a: int, b: int, c: int, d: int, flip: bool): seq<int>
  {
    if !flip then [a, b, c, b, d, c] else [a, c, b, b, c, d]
  }

  /** Both windings of a quad cover the same two triangles, `abc` and `bdc`;
      flipping only reverses the winding of each. */
  lemma FlipReversesWinding(a: int, b: int, c: int, d: int, flip: bool)
    ensures Quad(a, b, c, d, flip) == Tri(a, b, c, flip) + Tri(b, d, c, flip)
    ensures Tri(a, b, c, true) == Tri(a, c, b, false)
  {
  }

  lemma QuadInRange(a: int, b: int, c: int, d: int, flip: bool, n: int)
    requires 0 <= a < n && 0 <= b < n && 0 <= c < n && 0 <= d < n
    ensures |Quad(a, b, c, d, flip)| == 6 && InRange(Quad(a, b, c, d, flip), n)
  {
    InRangeAll(Quad(a, b, c, d, flip), n);
  }

  // ---------------------------------------------------------------------------
  // doFaces: the six flat plates, spanned between corner patches

  /** Two triangles sharing corner `a`: `(a,b,c,a,c,d)`, or `(a,c,b,a,d,c)` when flipped. */
  function Fan(a: int, b: int, c: int, d: int, flip: bool): seq<int>
  {
    if !flip then [a, b, c, a, c, d] else [a, c, b, a, d, c]
  }

  /** Both windings of a fan cover the triangles `abc` and `acd`. */
  lemma FanTriangles(a: int, b: int, c: int, d: int, flip: bool)
    ensures Fan(a, b, c, d, flip) == Tri(a, b, c, flip) + Tri(a, c, d, flip)
  {
  }

  lemma FanInRange(a: int, b: int, c: int, d: int, flip: bool, n: int)
    requires 0 <= a < n && 0 <= b < n && 0 <= c < n && 0 <= d < n
    ensures |Fan(a, b, c, d, flip)| == 6 && InRange(Fan(a, b, c, d, flip), n)
  {
    InRangeAll(Fan(a, b, c, d, flip), n);
  }

  /** The six plates: top and bottom join the poles of patches 0-3 and 4-7,
      left and right the first vertex of patches 0, 1, 4, 5 and 2, 3, 6, 7,
      front and back the last vertex of the first row of the patches
      0, 3, 4, 7 and 1, 2, 5, 6. */
  function FaceIndices(rs: nat): seq<int>
  {
    var l := LastVertex(rs);
    Fan(V(rs, 0, l), V(rs, 1, l), V(rs, 2, l), V(rs, 3, l), false) +
    Fan(V(rs, 4, l), V(rs, 5, l), V(rs, 6, l), V(rs, 7, l), true) +
    Quad(V(rs, 0, 0), V(rs, 1, 0), V(rs, 4, 0), V(rs, 5, 0), true) +
    Quad(V(rs, 2, 0), V(rs, 3, 0), V(rs, 6, 0), V(rs, 7, 0), true) +
    Quad(V(rs, 0, rs), V(rs, 3, rs), V(rs, 4, rs), V(rs, 7, rs), false) +
    Quad(V(rs, 1, rs), V(rs, 2, rs), V(rs, 5, rs), V(rs, 6, rs), true)
  }

  lemma FaceIndicesLength(rs: nat)
    ensures |FaceIndices(rs)| == 36
  {
  }

  lemma FaceIndicesInRange(rs: nat)
    requires rs >= 1
    ensures InRange(FaceIndices(rs), TotalVertexCount(rs))
  {
    var l, n := LastVertex(rs), TotalVertexCount(rs);
    forall k: nat | k < 8
      ensures V(rs, k, l) < n && V(rs, k, 0) < n && V(rs, k, rs) < n
    {
      SlotInPatch(rs, rs, 0);
      SlotInPatch(rs, 0, rs);
      TimesMul(0, rs + 1);
      VInRange(rs, k, l);
      VInRange(rs, k, 0);
      VInRange(rs, k, rs);
    }
    var f1, f2 := Fan(V(rs, 0, l), V(rs, 1, l), V(rs, 2, l), V(rs, 3, l), false), Fan(V(rs, 4, l), V(rs, 5, l), V(rs, 6, l), V(rs, 7, l), true);
    var q1, q2 := Quad(V(rs, 0, 0), V(rs, 1, 0), V(rs, 4, 0), V(rs, 5, 0), true), Quad(V(rs, 2, 0), V(rs, 3, 0), V(rs, 6, 0), V(rs, 7, 0), true);
    var q3, q4 := Quad(V(rs, 0, rs), V(rs, 3, rs), V(rs, 4, rs), V(rs, 7, rs), false), Quad(V(rs, 1, rs), V(rs, 2, rs), V(rs, 5, rs), V(rs, 6, rs), true);
    FanInRange(V(rs, 0, l), V(rs, 1, l), V(rs, 2, l), V(rs, 3, l), false, n);
    FanInRange(V(rs, 4, l), V(rs, 5, l), V(rs, 6, l), V(rs, 7, l), true, n);
    QuadInRange(V(rs, 0, 0), V(rs, 1, 0), V(rs, 4, 0), V(rs, 5, 0), true, n);
    QuadInRange(V(rs, 2, 0), V(rs, 3, 0), V(rs, 6, 0), V(rs, 7, 0), true, n);
    QuadInRange(V(rs, 0, rs), V(rs, 3, rs), V(rs, 4, rs), V(rs, 7, rs), false, n);
    QuadInRange(V(rs, 1, rs), V(rs, 2, rs), V(rs, 5, rs), V(rs, 6, rs), true, n);
    InRangeAppend(f1, f2, n);
    InRangeAppend(f1 + f2, q1, n);
    InRangeAppend(f1 + f2 + q1, q2, n);
    InRangeAppend(f1 + f2 + q1 + q2, q3, n);
    InRangeAppend(f1 + f2 + q1 + q2 + q3, q4, n);
  }

  /** Slot `slot` of patch `k` sits `k` whole patches into the pool. */
  lemma PatchOffsets(rs: nat, slot: nat)
    ensures var c := CornerVertNumber(rs);
      V(rs, 0, slot) == slot && V(rs, 1, slot) == slot + c &&
      V(rs, 2, slot) == slot + c * 2 && V(rs, 3, slot) == slot + c * 3 &&
      V(rs, 4, slot) == slot + c * 4 && V(rs, 5, slot) == slot + c * 5 &&
      V(rs, 6, slot) == slot + c * 6 && V(rs, 7, slot) == slot + c * 7
  {
    var c := CornerVertNumber(rs);
    TimesMul(2, c);
    TimesMul(3, c);
    TimesMul(4, c);
    TimesMul(5, c);
    TimesMul(6, c);
    TimesMul(7, c);
  }

  // ---------------------------------------------------------------------------
  // doCorners: each patch, its row quads then the fan to the pole

  const CornerFlips: seq<bool> := [true, false, true, false, false, true, false, true]

  /** The quad between rows `v`, `v + 1` and columns `u`, `u + 1` of patch `i`. */
  function CornerQuad(rs: nat, i: nat, v: nat, u: nat): seq<int>
    requires i < 8
  {
    Quad(V(rs, i, Slot(rs, v, u)), V(rs, i, Slot(rs, v, u + 1)),
         V(rs, i, Slot(rs, v + 1, u)), V(rs, i, Slot(rs, v + 1, u + 1)), CornerFlips[i])
  }

  /** The first `n` quads of row `v` of patch `i`. */
  function CornerRow(rs: nat, i: nat, v: nat, n: nat): seq<int>
    requires i < 8
  {
    if n == 0 then [] else CornerRow(rs, i, v, n - 1) + CornerQuad(rs, i, v, n - 1)
  }

  /** The first `m` full rows of patch `i`. */
  function CornerRows(rs: nat, i: nat, m: nat): seq<int>
    requires i < 8
  {
    if m == 0 then [] else CornerRows(rs, i, m - 1) + CornerRow(rs, i, m - 1, rs)
  }

  /** The triangle joining columns `u`, `u + 1` of the last row to the pole. */
  function PoleTri(rs: nat, i: nat, u: nat): seq<int>
    requires rs >= 1 && i < 8
  {
    Tri(V(rs, i, Slot(rs, rs - 1, u)), V(rs, i, Slot(rs, rs - 1, u + 1)), V(rs, i, Slot(rs, rs, 0)), CornerFlips[i])
  }

  /** The first `n` triangles of the fan closing patch `i` at its pole. */
  function CornerPole(rs: nat, i: nat, n: nat): seq<int>
    requires rs >= 1 && i < 8
  {
    if n == 0 then [] else CornerPole(rs, i, n - 1) + PoleTri(rs, i, n - 1)
  }

  function CornerBlock(rs: nat, i: nat): seq<int>
    requires rs >= 1 && i < 8
  {
    CornerRows(rs, i, rs - 1) + CornerPole(rs, i, rs)
  }

  /** Everything `doCorners` pushes for the first `n` patches. */
  function Corners(rs: nat, n: nat): seq<int>
    requires rs >= 1 && n <= 8
  {
    if n == 0 then [] else Corners(rs, n - 1) + CornerBlock(rs, n - 1)
  }

  lemma {:induction false} CornerRowLength(rs: nat, i: nat, v: nat, n: nat)
    requires i < 8
    ensures |CornerRow(rs, i, v, n)| == 6 * n
  {
    if n > 0 {
      CornerRowLength(rs, i, v, n - 1);
    }
  }

  lemma {:induction false} CornerRowsLength(rs: nat, i: nat, m: nat)
    requires i < 8
    ensures |CornerRows(rs, i, m)| == Times(m, 6 * rs)
  {
    if m > 0 {
      CornerRowsLength(rs, i, m - 1);
      CornerRowLength(rs, i, m - 1, rs);
    }
  }

  lemma {:induction false} CornerPoleLength(rs: nat, i: nat, n: nat)
    requires rs >= 1 && i < 8
    ensures |CornerPole(rs, i, n)| == 3 * n
  {
    if n > 0 {
      CornerPoleLength(rs, i, n - 1);
    }
  }

  /** `doCorners` pushes `6·rs·(rs − 1) + 3·rs` indices per patch. */
  lemma CornerBlockLength(rs: nat, i: nat)
    requires rs >= 1 && i < 8
    ensures |CornerBlock(rs, i)| == Times(rs - 1, 6 * rs) + 3 * rs
  {
    CornerRowsLength(rs, i, rs - 1);
    CornerPoleLength(rs, i, rs);
  }

  lemma {:induction false} CornersLength(rs: nat, n: nat)
    requires rs >= 1 && n <= 8
    ensures |Corners(rs, n)| == Times(n, Times(rs - 1, 6 * rs) + 3 * rs)
  {
    if n > 0 {
      CornersLength(rs, n - 1);
      CornerBlockLength(rs, n - 1);
    }
  }


  lemma {:induction false} CornerRowInRange(rs: nat, i: nat, v: nat, n: nat)
    requires rs >= 1 && i < 8 && v < rs - 1 && n <= rs
    ensures InRange(CornerRow(rs, i, v, n), TotalVertexCount(rs))
  {
    if n > 0 {
      CornerRowInRange(rs, i, v, n - 1);
      CornerQuadInRange(rs, i, v, n - 1);
      InRangeAppend(CornerRow(rs, i, v, n - 1), CornerQuad(rs, i, v, n - 1), TotalVertexCount(rs));
    }
  }

  lemma CornerQuadInRange(rs: nat, i: nat, v: nat, u: nat)
    requires rs >= 1 && i < 8 && v < rs - 1 && u < rs
    ensures InRange(CornerQuad(rs, i, v, u), TotalVertexCount(rs))
  {
    GridInRange(rs, i, v, u);
    GridInRange(rs, i, v, u + 1);
    GridInRange(rs, i, v + 1, u);
    GridInRange(rs, i, v + 1, u + 1);
    QuadInRange(V(rs, i, Slot(rs, v, u)), V(rs, i, Slot(rs, v, u + 1)),
                V(rs, i, Slot(rs, v + 1, u)), V(rs, i, Slot(rs, v + 1, u + 1)), CornerFlips[i], TotalVertexCount(rs));
  }

  lemma {:induction false} CornerRowsInRange(rs: nat, i: nat, m: nat)
    requires rs >= 1 && i < 8 && m <= rs - 1
    ensures InRange(CornerRows(rs, i, m), TotalVertexCount(rs))
  {
    if m > 0 {
      CornerRowsInRange(rs, i, m - 1);
      CornerRowInRange(rs, i, m - 1, rs);
      InRangeAppend(CornerRows(rs, i, m - 1), CornerRow(rs, i, m - 1, rs), TotalVertexCount(rs));
    }
  }

  lemma {:induction false} CornerPoleInRange(rs: nat, i: nat, n: nat)
    requires rs >= 1 && i < 8 && n <= rs
    ensures InRange(CornerPole(rs, i, n), TotalVertexCount(rs))
  {
    if n > 0 {
      CornerPoleInRange(rs, i, n - 1);
      PoleTriInRange(rs, i, n - 1);
      InRangeAppend(CornerPole(rs, i, n - 1), PoleTri(rs, i, n - 1), TotalVertexCount(rs));
    }
  }

  lemma PoleTriInRange(rs: nat, i: nat, u: nat)
    requires rs >= 1 && i < 8 && u < rs
    ensures InRange(PoleTri(rs, i, u), TotalVertexCount(rs))
  {
    GridInRange(rs, i, rs - 1, u);
    GridInRange(rs, i, rs - 1, u + 1);
    GridInRange(rs, i, rs, 0);
    InRangeAll(PoleTri(rs, i, u), TotalVertexCount(rs));
  }

  lemma {:induction false} CornersInRange(rs: nat, n: nat)
    requires rs >= 1 && n <= 8
    ensures InRange(Corners(rs, n), TotalVertexCount(rs))
  {
    if n > 0 {
      CornersInRange(rs, n - 1);
      CornerRowsInRange(rs, n - 1, rs - 1);
      CornerPoleInRange(rs, n - 1, rs);
      InRangeAppend(CornerRows(rs, n - 1, rs - 1), CornerPole(rs, n - 1, rs), TotalVertexCount(rs));
      InRangeAppend(Corners(rs, n - 1), CornerBlock(rs, n - 1), TotalVertexCount(rs));
    }
  }

  // ---------------------------------------------------------------------------
  // doHeightEdges: the first row of top patch i against bottom patch i + 4

  function HeightQuad(rs: nat, i: nat, u: nat): seq<int>
  {
    Quad(V(rs, i, Slot(rs, 0, u)), V(rs, i, Slot(rs, 0, u + 1)),
         V(rs, 4 + i, Slot(rs, 0, u)), V(rs, 4 + i, Slot(rs, 0, u + 1)), i % 2 == 1)
  }

  function HeightRun(rs: nat, i: nat, n: nat): seq<int>
  {
    if n == 0 then [] else HeightRun(rs, i, n - 1) + HeightQuad(rs, i, n - 1)
  }

  function HeightEdges(rs: nat, n: nat): seq<int>
  {
    if n == 0 then [] else HeightEdges(rs, n - 1) + HeightRun(rs, n - 1, rs)
  }

  lemma {:induction false} HeightRunLength(rs: nat, i: nat, n: nat)
    ensures |HeightRun(rs, i, n)| == 6 * n
  {
    if n > 0 {
      HeightRunLength(rs, i, n - 1);
    }
  }

  lemma {:induction false} HeightEdgesLength(rs: nat, n: nat)
    requires n <= 4
    ensures |HeightEdges(rs, n)| == Times(n, 6 * rs)
  {
    if n > 0 {
      HeightEdgesLength(rs, n - 1);
      HeightRunLength(rs, n - 1, rs);
    }
  }

  lemma {:induction false} HeightRunInRange(rs: nat, i: nat, n: nat)
    requires rs >= 1 && i < 4 && n <= rs
    ensures InRange(HeightRun(rs, i, n), TotalVertexCount(rs))
  {
    if n > 0 {
      HeightRunInRange(rs, i, n - 1);
      HeightQuadInRange(rs, i, n - 1);
      InRangeAppend(HeightRun(rs, i, n - 1), HeightQuad(rs, i, n - 1), TotalVertexCount(rs));
    }
  }

  lemma HeightQuadInRange(rs: nat, i: nat, u: nat)
    requires rs >= 1 && i < 4 && u < rs
    ensures InRange(HeightQuad(rs, i, u), TotalVertexCount(rs))
  {
    GridInRange(rs, i, 0, u);
    GridInRange(rs, i, 0, u + 1);
    GridInRange(rs, 4 + i, 0, u);
    GridInRange(rs, 4 + i, 0, u + 1);
    QuadInRange(V(rs, i, Slot(rs, 0, u)), V(rs, i, Slot(rs, 0, u + 1)),
                V(rs, 4 + i, Slot(rs, 0, u)), V(rs, 4 + i, Slot(rs, 0, u + 1)), i % 2 == 1, TotalVertexCount(rs));
  }

  lemma {:induction false} HeightEdgesInRange(rs: nat, n: nat)
    requires rs >= 1 && n <= 4
    ensures InRange(HeightEdges(rs, n), TotalVertexCount(rs))
  {
    if n > 0 {
      HeightEdgesInRange(rs, n - 1);
      HeightRunInRange(rs, n - 1, rs);
      InRangeAppend(HeightEdges(rs, n - 1), HeightRun(rs, n - 1, rs), TotalVertexCount(rs));
    }
  }

  // ---------------------------------------------------------------------------
  // doWidthEdges: the last column of each row, up to the pole, between patch pairs

  const WidthStarts: seq<nat> := [0, 1, 4, 5]
  const WidthEnds: seq<nat> := [3, 2, 7, 6]
  const WidthFlips: seq<bool> := [false, true, true, false]

  /** Grid position following row `u`'s last column: the next row's last
      column, or the pole after the last row. */
  function WidthNext(rs: nat, u: nat): nat
  {
    if u != rs - 1 then Slot(rs, u + 1, rs) else Slot(rs, rs, 0)
  }

  function WidthQuad(rs: nat, i: nat, u: nat): seq<int>
    requires i < 4
  {
    var cStart, cEnd := WidthStarts[i], WidthEnds[i];
    Quad(V(rs, cStart, Slot(rs, u, rs)), V(rs, cStart, WidthNext(rs, u)),
         V(rs, cEnd, Slot(rs, u, rs)), V(rs, cEnd, WidthNext(rs, u)), WidthFlips[i])
  }

  function WidthRun(rs: nat, i: nat, n: nat): seq<int>
    requires i < 4
  {
    if n == 0 then [] else WidthRun(rs, i, n - 1) + WidthQuad(rs, i, n - 1)
  }

  function WidthEdges(rs: nat, n: nat): seq<int>
    requires n <= 4
  {
    if n == 0 then [] else WidthEdges(rs, n - 1) + WidthRun(rs, n - 1, rs)
  }

  lemma {:induction false} WidthRunLength(rs: nat, i: nat, n: nat)
    requires i < 4
    ensures |WidthRun(rs, i, n)| == 6 * n
  {
    if n > 0 {
      WidthRunLength(rs, i, n - 1);
    }
  }

  lemma {:induction false} WidthEdgesLength(rs: nat, n: nat)
    requires n <= 4
    ensures |WidthEdges(rs, n)| == Times(n, 6 * rs)
  {
    if n > 0 {
      WidthEdgesLength(rs, n - 1);
      WidthRunLength(rs, n - 1, rs);
    }
  }

  lemma WidthQuadInRange(rs: nat, i: nat, u: nat)
    requires rs >= 1 && i < 4 && u < rs
    ensures InRange(WidthQuad(rs, i, u), TotalVertexCount(rs))
  {
    var cStart, cEnd := WidthStarts[i], WidthEnds[i];
    GridInRange(rs, cStart, u, rs);
    GridInRange(rs, cEnd, u, rs);
    if u != rs - 1 {
      GridInRange(rs, cStart, u + 1, rs);
      GridInRange(rs, cEnd, u + 1, rs);
    } else {
      GridInRange(rs, cStart, rs, 0);
      GridInRange(rs, cEnd, rs, 0);
    }
    QuadInRange(V(rs, cStart, Slot(rs, u, rs)), V(rs, cStart, WidthNext(rs, u)),
                V(rs, cEnd, Slot(rs, u, rs)), V(rs, cEnd, WidthNext(rs, u)), WidthFlips[i], TotalVertexCount(rs));
  }

  lemma {:induction false} WidthRunInRange(rs: nat, i: nat, n: nat)
    requires rs >= 1 && i < 4 && n <= rs
    ensures InRange(WidthRun(rs, i, n), TotalVertexCount(rs))
  {
    if n > 0 {
      WidthRunInRange(rs, i, n - 1);
      WidthQuadInRange(rs, i, n - 1);
      InRangeAppend(WidthRun(rs, i, n - 1), WidthQuad(rs, i, n - 1), TotalVertexCount(rs));
    }
  }

  lemma {:induction false} WidthEdgesInRange(rs: nat, n: nat)
    requires rs >= 1 && n <= 4
    ensures InRange(WidthEdges(rs, n), TotalVertexCount(rs))
  {
    if n > 0 {
      WidthEdgesInRange(rs, n - 1);
      WidthRunInRange(rs, n - 1, rs);
      InRangeAppend(WidthEdges(rs, n - 1), WidthRun(rs, n - 1, rs), TotalVertexCount(rs));
    }
  }

  // ---------------------------------------------------------------------------
  // doDepthEdges: the first column of each row, up to the pole, between
  // patches (0,1) (2,3) (4,5) (6,7)

  const DepthStarts: seq<nat> := [0, 2, 4, 6]
  const DepthEnds: seq<nat> := [1, 3, 5, 7]

  function DepthQuad(rs: nat, i: nat, u: nat): seq<int>
    requires i < 4
  {
    var cStart, cEnd := DepthStarts[i], DepthEnds[i];
    Quad(V(rs, cStart, Slot(rs, u, 0)), V(rs, cStart, Slot(rs, u + 1, 0)),
         V(rs, cEnd, Slot(rs, u, 0)), V(rs, cEnd, Slot(rs, u + 1, 0)), i <= 1)
  }

  function DepthRun(rs: nat, i: nat, n: nat): seq<int>
    requires i < 4
  {
    if n == 0 then [] else DepthRun(rs, i, n - 1) + DepthQuad(rs, i, n - 1)
  }

  function DepthEdges(rs: nat, n: nat): seq<int>
    requires n <= 4
  {
    if n == 0 then [] else DepthEdges(rs, n - 1) + DepthRun(rs, n - 1, rs)
  }

  lemma {:induction false} DepthRunLength(rs: nat, i: nat, n: nat)
    requires i < 4
    ensures |DepthRun(rs, i, n)| == 6 * n
  {
    if n > 0 {
      DepthRunLength(rs, i, n - 1);
    }
  }

  lemma {:induction false} DepthEdgesLength(rs: nat, n: nat)
    requires n <= 4
    ensures |DepthEdges(rs, n)| == Times(n, 6 * rs)
  {
    if n > 0 {
      DepthEdgesLength(rs, n - 1);
      DepthRunLength(rs, n - 1, rs);
    }
  }

  lemma {:induction false} DepthRunInRange(rs: nat, i: nat, n: nat)
    requires rs >= 1 && i < 4 && n <= rs
    ensures InRange(DepthRun(rs, i, n), TotalVertexCount(rs))
  {
    if n > 0 {
      DepthRunInRange(rs, i, n - 1);
      DepthQuadInRange(rs, i, n - 1);
      InRangeAppend(DepthRun(rs, i, n - 1), DepthQuad(rs, i, n - 1), TotalVertexCount(rs));
    }
  }

  lemma DepthQuadInRange(rs: nat, i: nat, u: nat)
    requires rs >= 1 && i < 4 && u < rs
    ensures InRange(DepthQuad(rs, i, u), TotalVertexCount(rs))
  {
    var cStart, cEnd := DepthStarts[i], DepthEnds[i];
    GridInRange(rs, cStart, u, 0);
    GridInRange(rs, cEnd, u, 0);
    GridInRange(rs, cStart, u + 1, 0);
    GridInRange(rs, cEnd, u + 1, 0);
    QuadInRange(V(rs, cStart, Slot(rs, u, 0)), V(rs, cStart, Slot(rs, u + 1, 0)),
                V(rs, cEnd, Slot(rs, u, 0)), V(rs, cEnd, Slot(rs, u + 1, 0)), i <= 1, TotalVertexCount(rs));
  }

  lemma {:induction false} DepthEdgesInRange(rs: nat, n: nat)
    requires rs >= 1 && n <= 4
    ensures InRange(DepthEdges(rs, n), TotalVertexCount(rs))
  {
    if n > 0 {
      DepthEdgesInRange(rs, n - 1);
      DepthRunInRange(rs, n - 1, rs);
      InRangeAppend(DepthEdges(rs, n - 1), DepthRun(rs, n - 1, rs), TotalVertexCount(rs));
    }
  }

  // ---------------------------------------------------------------------------
  // The weaving's own index arithmetic computes the grid positions above

  lemma CornerQuadAt(rs: nat, i: nat, v: nat, u: nat, a: int, b: int, c: int, d: int)
    requires i < 8
    requires var off, rs1 := Times(i, CornerVertNumber(rs)), rs + 1;
      a == off + Times(v, rs1) + u && b == a + 1 && c == off + Times(v + 1, rs1) + u && d == c + 1
    ensures CornerQuad(rs, i, v, u) == Quad(a, b, c, d, CornerFlips[i])
  {
  }

  lemma PoleTriAt(rs: nat, i: nat, u: nat, a: int, b: int, c: int)
    requires rs >= 1 && i < 8
    requires var off := Times(i, CornerVertNumber(rs));
      a == off + Times(rs - 1, rs + 1) + u && b == a + 1 && c == off + LastVertex(rs)
    ensures PoleTri(rs, i, u) == Tri(a, b, c, CornerFlips[i])
  {
    SlotInPatch(rs, rs, 0);
  }

  lemma HeightQuadAt(rs: nat, i: nat, u: nat, a: int, b: int, c: int, d: int)
    requires var cvn := CornerVertNumber(rs);
      a == Times(i, cvn) + u && b == a + 1 && c == 4 * cvn + Times(i, cvn) + u && d == c + 1
    ensures HeightQuad(rs, i, u) == Quad(a, b, c, d, i % 2 == 1)
  {
    TimesFourMore(i, CornerVertNumber(rs));
  }

  lemma WidthQuadAt(rs: nat, i: nat, u: nat, a: int, b: int, c: int, d: int)
    requires rs >= 1 && i < 4
    requires var cvn, rs1 := CornerVertNumber(rs), rs + 1;
      var next := if u != rs - 1 then rs + Times(u + 1, rs1) else cvn - 1;
      a == Times(WidthStarts[i], cvn) + rs + Times(u, rs1) && b == Times(WidthStarts[i], cvn) + next &&
      c == Times(WidthEnds[i], cvn) + rs + Times(u, rs1) && d == Times(WidthEnds[i], cvn) + next
    ensures WidthQuad(rs, i, u) == Quad(a, b, c, d, WidthFlips[i])
  {
    SlotInPatch(rs, rs, 0);
  }

  lemma DepthQuadAt(rs: nat, i: nat, u: nat, a: int, b: int, c: int, d: int)
    requires i < 4
    requires var cvn, rs1 := CornerVertNumber(rs), rs + 1;
      a == Times(DepthStarts[i], cvn) + Times(u, rs1) && b == Times(DepthStarts[i], cvn) + Times(u + 1, rs1) &&
      c == Times(DepthEnds[i], cvn) + Times(u, rs1) && d == Times(DepthEnds[i], cvn) + Times(u + 1, rs1)
    ensures DepthQuad(rs, i, u) == Quad(a, b, c, d, i <= 1)
  {
  }

  // ---------------------------------------------------------------------------
  // The whole index list, in the order the constructor weaves it

  /** What weaving pass `k` pushes: the faces, the corner patches, then the
      height, width and depth edges. */
  function Pass(rs: nat, k: nat): seq<int>
    requires rs >= 1
  {
    if k == 0 then FaceIndices(rs)
    else if k == 1 then Corners(rs, 8)
    else if k == 2 then HeightEdges(rs, 4)
    else if k == 3 then WidthEdges(rs, 4)
    else DepthEdges(rs, 4)
  }

  /** The index list after the first `k` passes. */
  function Woven(rs: nat, k: nat): seq<int>
    requires rs >= 1
  {
    if k == 0 then [] else Woven(rs, k - 1) + Pass(rs, k - 1)
  }

  /** The index list after all five passes. */
  function IndexList(rs: nat): seq<int>
    requires rs >= 1
  {
    Woven(rs, 5)
  }

  /** The five passes, written out in order. */
  lemma IndexListPasses(rs: nat)
    requires rs >= 1
    ensures IndexList(rs) == FaceIndices(rs) + Corners(rs, 8) + HeightEdges(rs, 4) + WidthEdges(rs, 4) + DepthEdges(rs, 4)
  {
    assert Woven(rs, 1) == FaceIndices(rs) by {
      AppendEmpty(FaceIndices(rs));
    }
    assert Woven(rs, 2) == FaceIndices(rs) + Corners(rs, 8);
    assert Woven(rs, 3) == FaceIndices(rs) + Corners(rs, 8) + HeightEdges(rs, 4);
    assert Woven(rs, 4) == FaceIndices(rs) + Corners(rs, 8) + HeightEdges(rs, 4) + WidthEdges(rs, 4);
  }

  /** The index list has `48·rs² + 48·rs + 36` entries. */
  lemma IndexListLength(rs: nat)
    requires rs >= 1
    ensures |IndexList(rs)| == 48 * (rs * rs) + 48 * rs + 36
  {
    var block := Times(rs - 1, 6 * rs) + 3 * rs;
    assert |IndexList(rs)| == 36 + Times(8, block) + 3 * Times(4, 6 * rs) by {
      IndexListPasses(rs);
      FaceIndicesLength(rs);
      CornersLength(rs, 8);
      HeightEdgesLength(rs, 4);
      WidthEdgesLength(rs, 4);
      DepthEdgesLength(rs, 4);
    }
    TimesMul(8, block);
    TimesMul(4, 6 * rs);
    IndexCountArith(rs);
  }

  lemma IndexCountArith(rs: nat)
    requires rs >= 1
    ensures 36 + 8 * (Times(rs - 1, 6 * rs) + 3 * rs) + 3 * (4 * (6 * rs)) == 48 * (rs * rs) + 48 * rs + 36
  {
    assert Times(rs - 1, 6 * rs) == 6 * (rs * rs) - 6 * rs by {
      TimesMul(rs - 1, 6 * rs);
      MulPred(rs, 6 * rs);
    }
  }

  lemma MulPred(a: int, b: int)
    ensures (a - 1) * b == a * b - b
  {
  }

  /** The index list is a whole number of triangles. */
  lemma IndexListTriangles(rs: nat)
    requires rs >= 1
    ensures |IndexList(rs)| % 3 == 0
  {
    IndexListLength(rs);
    CountOfTriangles(|IndexList(rs)|, rs);
  }

  lemma CountOfTriangles(count: int, rs: int)
    requires count == 48 * (rs * rs) + 48 * rs + 36
    ensures count % 3 == 0
  {
    assert count == 3 * (16 * (rs * rs) + 16 * rs + 12);
  }

  /** Every entry of the index list addresses a vertex of the pool. */
  lemma IndexListInRange(rs: nat)
    requires rs >= 1
    ensures InRange(IndexList(rs), TotalVertexCount(rs))
  {
    var n := TotalVertexCount(rs);
    var f, c, h, w, d := FaceIndices(rs), Corners(rs, 8), HeightEdges(rs, 4), WidthEdges(rs, 4), DepthEdges(rs, 4);
    FaceIndicesInRange(rs);
    CornersInRange(rs, 8);
    HeightEdgesInRange(rs, 4);
    WidthEdgesInRange(rs, 4);
    DepthEdgesInRange(rs, 4);
    InRangeAppend(f, c, n);
    InRangeAppend(f + c, h, n);
    InRangeAppend(f + c + h, w, n);
    InRangeAppend(f + c + h + w, d, n);
    IndexListPasses(rs);
  }

  // ---------------------------------------------------------------------------
  // The 16-bit index buffer

  const Uint16Modulus: nat := 65536

  /** `new Uint16Array(indices)`: each entry is reduced modulo 2^16. */
  function ToUint16(s: seq<int>): (r: seq<int>)
    ensures |r| == |s|
    ensures forall k :: 0 <= k < |s| ==> 0 <= r[k] < Uint16Modulus
  {
    seq(|s|, k requires 0 <= k < |s| => s[k] % Uint16Modulus)
  }

  /** An index list all of whose entries fit in 16 bits survives the conversion. */
  lemma ToUint16Lossless(s: seq<int>)
    requires InRange(s, Uint16Modulus)
    ensures ToUint16(s) == s
  {
    forall k | 0 <= k < |s| ensures ToUint16(s)[k] == s[k] {
      InRangeAt(s, Uint16Modulus, k);
    }
  }

  /** As long as the pool has at most 2^16 vertices, the index buffer holds
      exactly the woven index list. */
  lemma IndexBufferExact(rs: nat)
    requires rs >= 1 && TotalVertexCount(rs) <= Uint16Modulus
    ensures ToUint16(IndexList(rs)) == IndexList(rs)
  {
    IndexListInRange(rs);
    InRangeWiden(IndexList(rs), TotalVertexCount(rs), Uint16Modulus);
    ToUint16Lossless(IndexList(rs));
  }

  /** The cubes of the grid use four radius segments: 168 vertices and 996
      indices, and the 16-bit buffer loses nothing. */
  lemma DefaultGeometryBuffers(rs: nat)
    requires rs == 4
    ensures TotalVertexCount(rs) == 168
    ensures |IndexList(rs)| == 996
    ensures ToUint16(IndexList(rs)) == IndexList(rs)
  {
    assert TotalVertexCount(rs) == 168 by {
      TimesMul(rs + 1, rs);
    }
    assert |IndexList(rs)| == 996 by {
      IndexListLength(rs);
    }
    IndexBufferExact(rs);
  }

  // ---------------------------------------------------------------------------
  // The vertex pool

  /** A pool vertex, named by its corner patch and its grid position in the
      patch (its coordinates are not modelled). */
  datatype PoolVertex = PoolVertex(corner: nat, row: nat, col: nat)

  /** The copy of a corner-0 vertex into patch `corner` (its mirror image). */
  function Mirror(v: PoolVertex, corner: nat): (r: PoolVertex)
    ensures r.corner == corner && r.row == v.row && r.col == v.col
  {
    PoolVertex(corner, v.row, v.col)
  }

  /** The first `n` vertices of row `y` of corner 0, in push order. */
  function RowVerts(y: nat, n: nat): seq<PoolVertex>
  {
    if n == 0 then [] else RowVerts(y, n - 1) + [PoolVertex(0, y, n - 1)]
  }

  /** The first `m` full rows of corner 0. */
  function GridVerts(rs: nat, m: nat): seq<PoolVertex>
  {
    if m == 0 then [] else GridVerts(rs, m - 1) + RowVerts(m - 1, rs + 1)
  }

  /** Corner 0 as `doVertices` builds it: `rs` rows, then the pole. */
  function Corner0(rs: nat): seq<PoolVertex>
  {
    GridVerts(rs, rs) + [PoolVertex(0, rs, 0)]
  }

  /** The mirrors into patch `i` of the first `n` vertices of `cv0`. */
  function MirrorPrefix(cv0: seq<PoolVertex>, i: nat, n: nat): seq<PoolVertex>
    requires n <= |cv0|
  {
    if n == 0 then [] else MirrorPrefix(cv0, i, n - 1) + [Mirror(cv0[n - 1], i)]
  }

  /** The pool after `n` patches: patch `c` is the mirror of `cv0` into `c`. */
  function Pool(cv0: seq<PoolVertex>, n: nat): seq<PoolVertex>
  {
    if n == 0 then [] else Pool(cv0, n - 1) + MirrorPrefix(cv0, n - 1, |cv0|)
  }

  lemma {:induction false} RowVertsAt(y: nat, n: nat)
    ensures |RowVerts(y, n)| == n
    ensures forall x :: 0 <= x < n ==> RowVerts(y, n)[x] == PoolVertex(0, y, x)
  {
    if n > 0 {
      RowVertsAt(y, n - 1);
    }
  }

  lemma {:induction false} GridVertsAt(rs: nat, m: nat)
    ensures |GridVerts(rs, m)| == Times(m, rs + 1)
    ensures forall y, x :: 0 <= y < m && 0 <= x <= rs ==>
      Slot(rs, y, x) < |GridVerts(rs, m)| && GridVerts(rs, m)[Slot(rs, y, x)] == PoolVertex(0, y, x)
  {
    if m > 0 {
      GridVertsAt(rs, m - 1);
      RowVertsAt(m - 1, rs + 1);
      var g, r := GridVerts(rs, m - 1), RowVerts(m - 1, rs + 1);
      assert GridVerts(rs, m) == g + r;
      forall y, x | 0 <= y < m && 0 <= x <= rs
        ensures Slot(rs, y, x) < |g + r| && (g + r)[Slot(rs, y, x)] == PoolVertex(0, y, x)
      {
        if y == m - 1 {
          assert Slot(rs, y, x) == |g| + x;
        }
      }
    }
  }

  /** Every vertex of corner 0 lies in patch 0. */
  lemma {:induction false} GridVertsCorner(rs: nat, m: nat)
    ensures forall s :: 0 <= s < |GridVerts(rs, m)| ==> GridVerts(rs, m)[s].corner == 0
  {
    if m > 0 {
      GridVertsCorner(rs, m - 1);
      RowVertsAt(m - 1, rs + 1);
    }
  }

  /** Corner 0, as built, has the layout the weaving assumes. */
  lemma Corner0HasLayout(rs: nat)
    requires rs >= 1
    ensures Corner0Layout(rs, Corner0(rs))
  {
    GridVertsAt(rs, rs);
    GridVertsCorner(rs, rs);
    TimesComm(rs, rs + 1);
    var g, cv0 := GridVerts(rs, rs), Corner0(rs);
    assert |cv0| == CornerVertNumber(rs);
    forall y, x | 0 <= y < rs && 0 <= x <= rs
      ensures Slot(rs, y, x) < |cv0| && cv0[Slot(rs, y, x)] == PoolVertex(0, y, x)
    {
      assert cv0[Slot(rs, y, x)] == g[Slot(rs, y, x)];
    }
  }

  lemma {:induction false} MirrorPrefixAt(cv0: seq<PoolVertex>, i: nat, n: nat)
    requires n <= |cv0|
    ensures |MirrorPrefix(cv0, i, n)| == n
    ensures forall s :: 0 <= s < n ==> MirrorPrefix(cv0, i, n)[s] == Mirror(cv0[s], i)
  {
    if n > 0 {
      MirrorPrefixAt(cv0, i, n - 1);
    }
  }

  /** Mirroring a patch-0 list into patch 0 changes nothing. */
  lemma MirrorZero(cv0: seq<PoolVertex>)
    requires forall s :: 0 <= s < |cv0| ==> cv0[s].corner == 0
    ensures MirrorPrefix(cv0, 0, |cv0|) == cv0
  {
    MirrorPrefixAt(cv0, 0, |cv0|);
  }

  lemma {:induction false} PoolAt(rs: nat, cv0: seq<PoolVertex>, n: nat)
    requires |cv0| == CornerVertNumber(rs)
    ensures |Pool(cv0, n)| == Times(n, CornerVertNumber(rs))
    ensures forall c, s :: 0 <= c < n && 0 <= s < CornerVertNumber(rs) ==>
      V(rs, c, s) < |Pool(cv0, n)| && Pool(cv0, n)[V(rs, c, s)] == Mirror(cv0[s], c)
  {
    if n > 0 {
      PoolAt(rs, cv0, n - 1);
      MirrorPrefixAt(cv0, n - 1, |cv0|);
      var p, q := Pool(cv0, n - 1), MirrorPrefix(cv0, n - 1, |cv0|);
      assert Pool(cv0, n) == p + q;
      forall c, s | 0 <= c < n && 0 <= s < CornerVertNumber(rs)
        ensures V(rs, c, s) < |p + q| && (p + q)[V(rs, c, s)] == Mirror(cv0[s], c)
      {
        if c == n - 1 {
          assert V(rs, c, s) == |p| + s;
        }
      }
    }
  }

  /** The pool, as built, lists the eight mirrored patches one after the other:
      `8·(rs1·rs + 1)` vertices, exactly the buffer size. */
  lemma PoolHasLayout(rs: nat)
    requires rs >= 1
    ensures PoolLayout(rs, Pool(Corner0(rs), 8), Corner0(rs))
  {
    Corner0HasLayout(rs);
    PoolAt(rs, Corner0(rs), 8);
    TimesMul(8, CornerVertNumber(rs));
  }

  /** Corner 0 holds rows `0..rs-1` of `rs + 1` vertices, row by row, then the pole. */
  ghost predicate Corner0Layout(rs: nat, cv0: seq<PoolVertex>)
  {
    rs >= 1 && |cv0| == CornerVertNumber(rs) &&
    (forall s :: 0 <= s < |cv0| ==> cv0[s].corner == 0) &&
    (forall y, x :: 0 <= y < rs && 0 <= x <= rs ==>
      Slot(rs, y, x) < |cv0| && cv0[Slot(rs, y, x)] == PoolVertex(0, y, x)) &&
    cv0[LastVertex(rs)] == PoolVertex(0, rs, 0)
  }

  /** The pool lists the eight patches one after the other, each a mirror of corner 0. */
  ghost predicate PoolLayout(rs: nat, pool: seq<PoolVertex>, cv0: seq<PoolVertex>)
  {
    |pool| == TotalVertexCount(rs) && |cv0| == CornerVertNumber(rs) &&
    forall c, s :: 0 <= c < 8 && 0 <= s < CornerVertNumber(rs) ==>
      V(rs, c, s) < |pool| && pool[V(rs, c, s)] == Mirror(cv0[s], c)
  }

  /** The index arithmetic of the weaving addresses the intended vertex: pool
      entry `V(c, Slot(row, col))` is the vertex at `(row, col)` of patch `c`. */
  lemma GridVertex(rs: nat, pool: seq<PoolVertex>, cv0: seq<PoolVertex>, c: nat, row: nat, col: nat)
    requires Corner0Layout(rs, cv0) && PoolLayout(rs, pool, cv0)
    requires c < 8
    requires (row <= rs - 1 && col <= rs) || (row == rs && col == 0)
    ensures V(rs, c, Slot(rs, row, col)) < |pool|
    ensures pool[V(rs, c, Slot(rs, row, col))] == PoolVertex(c, row, col)
  {
    SlotInPatch(rs, row, col);
  }

  // ---------------------------------------------------------------------------
  // The constructor's local routines. `cornerVerts`, `vertexPool` and
  // `indices` are locals of the constructor that its inner functions push
  // onto; each routine takes the list it extends and returns the extended one.

  /** Corner 0 gets `rs` rows of `rs + 1` vertices and the pole; the other
      seven patches copy it. */
  method DoVertices(rs: nat) returns (cornerVerts: seq<seq<PoolVertex>>, vertexPool: seq<PoolVertex>)
    ensures |cornerVerts| == 8 && cornerVerts[0] == Corner0(rs)
    ensures forall i :: 1 <= i < 8 ==> cornerVerts[i] == MirrorPrefix(Corner0(rs), i, |Corner0(rs)|)
    ensures vertexPool == Pool(Corner0(rs), 8)
  {
    cornerVerts, vertexPool := [], [];
    for j := 0 to 8
      invariant vertexPool == [] && cornerVerts == seq(j, _ => [])
    {
      cornerVerts := cornerVerts + [[]];
    }
    for y := 0 to rs + 1
      invariant |cornerVerts| == 8 && vertexPool == cornerVerts[0]
      invariant forall k :: 1 <= k < 8 ==> cornerVerts[k] == []
      invariant y <= rs ==> vertexPool == GridVerts(rs, y)
      invariant y == rs + 1 ==> vertexPool == Corner0(rs)
    {
      if y == rs {
        var vert := PoolVertex(0, rs, 0);
        cornerVerts := cornerVerts[0 := cornerVerts[0] + [vert]];
        vertexPool := vertexPool + [vert];
        continue;
      }
      for x := 0 to rs + 1
        invariant |cornerVerts| == 8 && vertexPool == cornerVerts[0]
        invariant forall k :: 1 <= k < 8 ==> cornerVerts[k] == []
        invariant vertexPool == GridVerts(rs, y) + RowVerts(y, x)
      {
        var vert := PoolVertex(0, y, x);
        cornerVerts := cornerVerts[0 := cornerVerts[0] + [vert]];
        vertexPool := vertexPool + [vert];
        AppendAssoc(GridVerts(rs, y), RowVerts(y, x), [vert]);
      }
    }
    GridVertsCorner(rs, rs);
    cornerVerts, vertexPool := DistributeCornerVerts(cornerVerts, vertexPool);
  }

  /** The second half of `doVertices`: patches 1 to 7 receive the mirror
      images of corner 0's vertices, which are also appended to the pool. */
  method DistributeCornerVerts(cornerVerts0: seq<seq<PoolVertex>>, vertexPool0: seq<PoolVertex>)
    returns (cornerVerts: seq<seq<PoolVertex>>, vertexPool: seq<PoolVertex>)
    requires |cornerVerts0| == 8 && vertexPool0 == cornerVerts0[0]
    requires forall k :: 1 <= k < 8 ==> cornerVerts0[k] == []
    requires forall s :: 0 <= s < |vertexPool0| ==> vertexPool0[s].corner == 0
    ensures |cornerVerts| == 8 && cornerVerts[0] == cornerVerts0[0]
    ensures forall k :: 1 <= k < 8 ==> cornerVerts[k] == MirrorPrefix(cornerVerts0[0], k, |cornerVerts0[0]|)
    ensures vertexPool == Pool(cornerVerts0[0], 8)
  {
    cornerVerts, vertexPool := cornerVerts0, vertexPool0;
    ghost var cv0 := cornerVerts[0];
    MirrorZero(cv0);
    assert vertexPool == Pool(cv0, 1);
    for i := 1 to 8
      invariant |cornerVerts| == 8 && cornerVerts[0] == cv0
      invariant forall k :: 1 <= k < i ==> cornerVerts[k] == MirrorPrefix(cv0, k, |cv0|)
      invariant forall k :: i <= k < 8 ==> cornerVerts[k] == []
      invariant vertexPool == Pool(cv0, i)
    {
      cornerVerts, vertexPool := MirrorCorner(i, cornerVerts, vertexPool);
      assert cornerVerts[i] == MirrorPrefix(cv0, i, |cv0|);
    }
  }

  /** One pass of the distribution loop: every vertex of corner 0, mirrored
      into patch `i`, is appended to patch `i` and to the pool. */
  method MirrorCorner(i: nat, cornerVerts0: seq<seq<PoolVertex>>, vertexPool0: seq<PoolVertex>)
    returns (cornerVerts: seq<seq<PoolVertex>>, vertexPool: seq<PoolVertex>)
    requires 1 <= i < |cornerVerts0|
    ensures cornerVerts == cornerVerts0[i := cornerVerts0[i] + MirrorPrefix(cornerVerts0[0], i, |cornerVerts0[0]|)]
    ensures vertexPool == vertexPool0 + MirrorPrefix(cornerVerts0[0], i, |cornerVerts0[0]|)
  {
    cornerVerts, vertexPool := cornerVerts0, vertexPool0;
    ghost var cv0 := cornerVerts0[0];
    assert cornerVerts0[i] + MirrorPrefix(cv0, i, 0) == cornerVerts0[i];
    for j := 0 to |cornerVerts[0]|
      invariant cornerVerts == cornerVerts0[i := cornerVerts0[i] + MirrorPrefix(cv0, i, j)]
      invariant vertexPool == vertexPool0 + MirrorPrefix(cv0, i, j)
    {
      var vert := Mirror(cornerVerts[0][j], i);
      cornerVerts := cornerVerts[i := cornerVerts[i] + [vert]];
      vertexPool := vertexPool + [vert];
      AppendAssoc(cornerVerts0[i], MirrorPrefix(cv0, i, j), [vert]);
      AppendAssoc(vertexPool0, MirrorPrefix(cv0, i, j), [vert]);
    }
  }

  /** `indices.push(a, b, c, b, d, c)`, or `(a, c, b, b, c, d)` when `flip`. */
  method PushQuad(indices: seq<int>, a: int, b: int, c: int, d: int, flip: bool) returns (r: seq<int>)
    ensures r == indices + Quad(a, b, c, d, flip)
  {
    if !flip {
      r := indices + [a, b, c, b, d, c];
    } else {
      r := indices + [a, c, b, b, c, d];
    }
  }

  /** `indices.push(a, b, c)`, or `(a, c, b)` when `flip`. */
  method PushTri(indices: seq<int>, a: int, b: int, c: int, flip: bool) returns (r: seq<int>)
    ensures r == indices + Tri(a, b, c, flip)
  {
    if !flip {
      r := indices + [a, b, c];
    } else {
      r := indices + [a, c, b];
    }
  }

  method DoFaces(rs: nat, indices: seq<int>) returns (r: seq<int>)
    ensures r == indices + FaceIndices(rs)
  {
    var lastVertex, cornerVertNumber := LastVertex(rs), CornerVertNumber(rs);
    PatchOffsets(rs, lastVertex);
    PatchOffsets(rs, 0);
    PatchOffsets(rs, rs);
    // Top
    var a, b, c, d := lastVertex, lastVertex + cornerVertNumber, lastVertex + cornerVertNumber * 2, lastVertex + cornerVertNumber * 3;
    var top := [a, b, c, a, c, d];
    assert top == Fan(V(rs, 0, lastVertex), V(rs, 1, lastVertex), V(rs, 2, lastVertex), V(rs, 3, lastVertex), false);
    // Bottom
    a, b, c, d := lastVertex + cornerVertNumber * 4, lastVertex + cornerVertNumber * 5, lastVertex + cornerVertNumber * 6, lastVertex + cornerVertNumber * 7;
    var bottom := [a, c, b, a, d, c];
    assert bottom == Fan(V(rs, 4, lastVertex), V(rs, 5, lastVertex), V(rs, 6, lastVertex), V(rs, 7, lastVertex), true);
    // Left
    a, b, c, d := 0, cornerVertNumber, cornerVertNumber * 4, cornerVertNumber * 5;
    var left := [a, c, b, b, c, d];
    assert left == Quad(V(rs, 0, 0), V(rs, 1, 0), V(rs, 4, 0), V(rs, 5, 0), true);
    // Right
    a, b, c, d := cornerVertNumber * 2, cornerVertNumber * 3, cornerVertNumber * 6, cornerVertNumber * 7;
    var right := [a, c, b, b, c, d];
    assert right == Quad(V(rs, 2, 0), V(rs, 3, 0), V(rs, 6, 0), V(rs, 7, 0), true);
    // Front
    a, b, c, d := rs, rs + cornerVertNumber * 3, rs + cornerVertNumber * 4, rs + cornerVertNumber * 7;
    var front := [a, b, c, b, d, c];
    assert front == Quad(V(rs, 0, rs), V(rs, 3, rs), V(rs, 4, rs), V(rs, 7, rs), false);
    // Back
    a, b, c, d := rs + cornerVertNumber, rs + cornerVertNumber * 2, rs + cornerVertNumber * 5, rs + cornerVertNumber * 6;
    var back := [a, c, b, b, c, d];
    assert back == Quad(V(rs, 1, rs), V(rs, 2, rs), V(rs, 5, rs), V(rs, 6, rs), true);
    r := indices + (top + bottom + left + right + front + back);
  }

  method DoCorners(rs: nat, indices: seq<int>) returns (r: seq<int>)
    requires rs >= 1
    ensures r == indices + Corners(rs, 8)
  {
    r := indices;
    for i := 0 to 8
      invariant r == indices + Corners(rs, i)
    {
      r := WeaveCorner(rs, i, r);
      assert r == indices + Corners(rs, i + 1) by {
        AppendAssoc(indices, Corners(rs, i), CornerBlock(rs, i));
      }
    }
  }

  /** One pass of the `doCorners` loop: the row quads of patch `i`, then its fan to the pole. */
  method WeaveCorner(rs: nat, i: nat, indices: seq<int>) returns (r: seq<int>)
    requires rs >= 1 && i < 8
    ensures r == indices + CornerBlock(rs, i)
  {
    r := indices;
    var rs1 := rs + 1;
    var lastRowOffset := Times(rs - 1, rs1);
    var cornerOffset := Times(i, CornerVertNumber(rs));
    for v := 0 to rs - 1
      invariant r == indices + CornerRows(rs, i, v)
    {
      var r1, r2 := Times(v, rs1), Times(v + 1, rs1);
      ghost var rowStart := r;
      for u := 0 to rs
        invariant r == rowStart + CornerRow(rs, i, v, u)
      {
        var a, b, c, d := cornerOffset + r1 + u, cornerOffset + r1 + u + 1, cornerOffset + r2 + u, cornerOffset + r2 + u + 1;
        r := PushQuad(r, a, b, c, d, CornerFlips[i]);
        assert r == rowStart + CornerRow(rs, i, v, u + 1) by {
          CornerQuadAt(rs, i, v, u, a, b, c, d);
          AppendAssoc(rowStart, CornerRow(rs, i, v, u), CornerQuad(rs, i, v, u));
        }
      }
      assert r == indices + CornerRows(rs, i, v + 1) by {
        AppendAssoc(indices, CornerRows(rs, i, v), CornerRow(rs, i, v, rs));
      }
    }
    ghost var poleStart := r;
    for u := 0 to rs
      invariant r == poleStart + CornerPole(rs, i, u)
    {
      var a, b, c := cornerOffset + lastRowOffset + u, cornerOffset + lastRowOffset + u + 1, cornerOffset + LastVertex(rs);
      r := PushTri(r, a, b, c, CornerFlips[i]);
      assert r == poleStart + CornerPole(rs, i, u + 1) by {
        PoleTriAt(rs, i, u, a, b, c);
        AppendAssoc(poleStart, CornerPole(rs, i, u), PoleTri(rs, i, u));
      }
    }
    assert r == indices + CornerBlock(rs, i) by {
      AppendAssoc(indices, CornerRows(rs, i, rs - 1), CornerPole(rs, i, rs));
    }
  }

  method DoHeightEdges(rs: nat, indices: seq<int>) returns (r: seq<int>)
    ensures r == indices + HeightEdges(rs, 4)
  {
    r := indices;
    var cornerVertNumber := CornerVertNumber(rs);
    for i := 0 to 4
      invariant r == indices + HeightEdges(rs, i)
    {
      var cOffset := Times(i, cornerVertNumber);
      var cRowOffset := 4 * cornerVertNumber + cOffset;
      var needsFlip := i % 2 == 1;
      ghost var runStart := r;
      for u := 0 to rs
        invariant r == runStart + HeightRun(rs, i, u)
      {
        var a, b, c, d := cOffset + u, cOffset + u + 1, cRowOffset + u, cRowOffset + u + 1;
        r := PushQuad(r, a, b, c, d, needsFlip);
        assert r == runStart + HeightRun(rs, i, u + 1) by {
          HeightQuadAt(rs, i, u, a, b, c, d);
          AppendAssoc(runStart, HeightRun(rs, i, u), HeightQuad(rs, i, u));
        }
      }
      assert r == indices + HeightEdges(rs, i + 1) by {
        AppendAssoc(indices, HeightEdges(rs, i), HeightRun(rs, i, rs));
      }
    }
  }

  method DoWidthEdges(rs: nat, indices: seq<int>) returns (r: seq<int>)
    requires rs >= 1
    ensures r == indices + WidthEdges(rs, 4)
  {
    r := indices;
    for i := 0 to 4
      invariant r == indices + WidthEdges(rs, i)
    {
      r := WeaveWidthEdge(rs, i, r);
      assert r == indices + WidthEdges(rs, i + 1) by {
        AppendAssoc(indices, WidthEdges(rs, i), WidthRun(rs, i, rs));
      }
    }
  }

  /** One pass of the `doWidthEdges` loop: the edge between patches
      `WidthStarts[i]` and `WidthEnds[i]`. */
  method WeaveWidthEdge(rs: nat, i: nat, indices: seq<int>) returns (r: seq<int>)
    requires rs >= 1 && i < 4
    ensures r == indices + WidthRun(rs, i, rs)
  {
    r := indices;
    var rs1, cornerVertNumber := rs + 1, CornerVertNumber(rs);
    var end := rs - 1;
    var cStart, cEnd := Times(WidthStarts[i], cornerVertNumber), Times(WidthEnds[i], cornerVertNumber);
    for u := 0 to end + 1
      invariant r == indices + WidthRun(rs, i, u)
    {
      var a := cStart + rs + Times(u, rs1);
      var b := cStart + (if u != end then rs + Times(u + 1, rs1) else cornerVertNumber - 1);
      var c := cEnd + rs + Times(u, rs1);
      var d := cEnd + (if u != end then rs + Times(u + 1, rs1) else cornerVertNumber - 1);
      r := PushQuad(r, a, b, c, d, WidthFlips[i]);
      assert r == indices + WidthRun(rs, i, u + 1) by {
        WidthQuadAt(rs, i, u, a, b, c, d);
        AppendAssoc(indices, WidthRun(rs, i, u), WidthQuad(rs, i, u));
      }
    }
  }

  method DoDepthEdges(rs: nat, indices: seq<int>) returns (r: seq<int>)
    ensures r == indices + DepthEdges(rs, 4)
  {
    r := indices;
    var rs1, cornerVertNumber := rs + 1, CornerVertNumber(rs);
    for i := 0 to 4
      invariant r == indices + DepthEdges(rs, i)
    {
      var cStart, cEnd := Times(DepthStarts[i], cornerVertNumber), Times(DepthEnds[i], cornerVertNumber);
      var needsFlip := i <= 1;
      ghost var runStart := r;
      for u := 0 to rs
        invariant r == runStart + DepthRun(rs, i, u)
      {
        var a, b, c, d := cStart + Times(u, rs1), cStart + Times(u + 1, rs1), cEnd + Times(u, rs1), cEnd + Times(u + 1, rs1);
        r := PushQuad(r, a, b, c, d, needsFlip);
        assert r == runStart + DepthRun(rs, i, u + 1) by {
          DepthQuadAt(rs, i, u, a, b, c, d);
          AppendAssoc(runStart, DepthRun(rs, i, u), DepthQuad(rs, i, u));
        }
      }
      assert r == indices + DepthEdges(rs, i + 1) by {
        AppendAssoc(indices, DepthEdges(rs, i), DepthRun(rs, i, rs));
      }
    }
  }

  /** The weaving calls of the constructor, in order, and the conversion of
      the woven list to the 16-bit index attribute. */
  method BuildIndexBuffer(rs: nat) returns (index: seq<int>)
    requires rs >= 1
    ensures index == ToUint16(IndexList(rs))
  {
    var indices := DoFaces(rs, []);
    AppendEmpty(FaceIndices(rs));
    indices := DoCorners(rs, indices);
    indices := DoHeightEdges(rs, indices);
    indices := DoWidthEdges(rs, indices);
    indices := DoDepthEdges(rs, indices);
    IndexListPasses(rs);
    index := ToUint16(indices);
  }

  // ---------------------------------------------------------------------------
  // The geometry object

  /** The index attribute the geometry ends up with: the woven list as a
      16-bit buffer. */
  function IndexAttribute(rs: nat): seq<int>
    requires rs >= 1
  {
    ToUint16(IndexList(rs))
  }

  /** The geometry object. Its parameters, its position attribute and its
      index attribute are all settled by the constructor and never replaced
      afterwards, so they are `const`; the contents of the position buffer
      stay mutable, as a typed array's do. */
  class RoundedBoxGeometry {
    /** The validated parameters. */
    const parameters: Params
    /** The position attribute: one entry per vertex (three floats each in the source). */
    const positions: array<PoolVertex>
    /** The index attribute, a 16-bit buffer. */
    const index: seq<int>

    /** The constructor from its validation step on: `p` is what `Validate`
        made of the arguments, so it has at least one radius segment. */
    constructor (p: Params)
      requires p.radiusSegments >= 1
      ensures parameters == p
      ensures fresh(positions) && positions.Length == TotalVertexCount(p.radiusSegments)
      ensures positions[..] == Pool(Corner0(p.radiusSegments), 8)
      ensures index == IndexAttribute(p.radiusSegments)
    {
      var rs := p.radiusSegments;
      var buffer := new PoolVertex[TotalVertexCount(rs)];
      var vertexPool, indexBuffer := BuildAttributes(rs);
      parameters := p;
      positions := buffer;
      index := indexBuffer;
      new;
      FillBuffer(positions, vertexPool);
    }
  }

  /** The constructor's passes after validation: the vertex pass, then the
      weaving passes and the 16-bit conversion. */
  method BuildAttributes(rs: nat) returns (vertexPool: seq<PoolVertex>, index: seq<int>)
    requires rs >= 1
    ensures vertexPool == Pool(Corner0(rs), 8) && |vertexPool| == TotalVertexCount(rs)
    ensures index == IndexAttribute(rs)
  {
    var cornerVerts;
    cornerVerts, vertexPool := DoVertices(rs);
    PoolHasLayout(rs);
    index := BuildIndexBuffer(rs);
  }

  /** Copies the pool into the position buffer; the buffer holds exactly the
      pool's vertex count, so no write falls outside it. */
  method FillBuffer(positions: array<PoolVertex>, vertexPool: seq<PoolVertex>)
    requires |vertexPool| == positions.Length
    modifies positions
    ensures positions[..] == vertexPool
  {
    var index := 0;
    for i := 0 to |vertexPool|
      invariant index == i
      invariant forall k :: 0 <= k < i ==> positions[k] == vertexPool[k]
    {
      positions[index] := vertexPool[i];
      index := index + 1;
    }
  }
}
