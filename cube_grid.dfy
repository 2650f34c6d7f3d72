/** The 20 x 20 grid of dancing cubes (src/components/ThreeCubeDance.tsx):
    the rounded-corner shrink applied to every cube's vertices, the split of
    the grid into the "evens" and "odds" animation groups, and the bounce
    tweens `animateBoxes` schedules for one group. */
module CubeGrid {
  import opened AudioTypes

  // ---------------------------------------------------------------------
  // Rounded-corner shrink
  // ---------------------------------------------------------------------

  /** Corner radius the shrink pulls every coordinate in by. */
  const CornerRadius: real := 0.1

  function Abs(x: real): real { if x < 0.0 then -x else x }

  function Max(a: real, b: real): real { if a < b then b else a }

  /** `Math.sign`: -1, 0 or 1. */
  function Sign(x: real): (r: real)
    ensures r == -1.0 || r == 0.0 || r == 1.0
    ensures r * x == Abs(x)
  {
    if x < 0.0 then -1.0 else if x == 0.0 then 0.0 else 1.0
  }

  /** One coordinate after `Math.sign(x) * Math.max(Math.abs(x) - radius, 0)`. */
  function Shrink(x: real): (r: real)
    ensures r == 0.0 || (r < 0.0 <==> x < 0.0)
    ensures Abs(r) == Max(Abs(x) - CornerRadius, 0.0)
    ensures Abs(r) <= Abs(x)
  {
    Sign(x) * Max(Abs(x) - CornerRadius, 0.0)
  }

  /** The shrink never moves a coordinate past the origin and never moves it
      by more than the radius: it only pulls points inwards. */
  lemma ShrinkPullsInward(x: real)
    ensures 0.0 <= x ==> 0.0 <= Shrink(x) <= x
    ensures x <= 0.0 ==> x <= Shrink(x) <= 0.0
    ensures Abs(x - Shrink(x)) <= CornerRadius
  {
  }

  /** The shrink keeps the order of coordinates along each axis. */
  lemma ShrinkMonotone(x: real, y: real)
    requires x <= y
    ensures Shrink(x) <= Shrink(y)
  {
  }

  /** Coordinates within the radius of the origin collapse to it; any other
      coordinate keeps its distance to it minus the radius. */
  lemma ShrinkCollapse(x: real)
    ensures Abs(x) <= CornerRadius <==> Shrink(x) == 0.0
  {
  }

  datatype Vec3 = Vec3(x: real, y: real, z: real)

  function ShrinkVec(v: Vec3): (r: Vec3)
    ensures Abs(r.x) <= Abs(v.x) && Abs(r.y) <= Abs(v.y) && Abs(r.z) <= Abs(v.z)
  {
    Vec3(Shrink(v.x), Shrink(v.y), Shrink(v.z))
  }

  /** The per-cube loop that rewrites every vertex of the position buffer
      with its shrunk coordinates. */
  method ShrinkPositions(position: array<Vec3>)
    modifies position
    ensures forall k :: 0 <= k < position.Length ==> position[k] == ShrinkVec(old(position[k]))
  {
    var vertexIndex := 0;
    while vertexIndex < position.Length
      invariant 0 <= vertexIndex <= position.Length
      invariant forall k :: 0 <= k < vertexIndex ==> position[k] == ShrinkVec(old(position[k]))
      invariant forall k :: vertexIndex <= k < position.Length ==> position[k] == old(position[k])
    {
      var v := position[vertexIndex];
      position[vertexIndex] := Vec3(Shrink(v.x), Shrink(v.y), Shrink(v.z));
      vertexIndex := vertexIndex + 1;
    }
  }

  // ---------------------------------------------------------------------
  // Grid parity split
  // ---------------------------------------------------------------------

  /** Cubes per side of the grid (`gridSize`). */
  const GridSize: nat := 20

  /** The `userData` each cube carries: grid coordinates, its index and colour. */
  datatype Cube = Cube(i: nat, j: nat, index: int, isRedCube: bool)

  /** `i * n`, the index of the first cube of row `i`, written as a sum so
      that the grid lemmas stay linear. */
  function RowStart(n: nat, i: nat): nat
  {
    if i == 0 then 0 else RowStart(n, i - 1) + n
  }

  lemma {:induction false} RowStartIsProduct(n: nat, i: nat)
    ensures RowStart(n, i) == i * n
  {
    if i > 0 {
      RowStartIsProduct(n, i - 1);
      assert (i - 1) * n + n == i * n;
    }
  }

  /** Cube `(i, j)` of a grid `n` cubes wide, with index `i * n + j`. */
  function Cell(n: nat, i: nat, j: nat): Cube
  {
    Cube(i, j, RowStart(n, i) + j, (i + j) % 2 == 0)
  }

  /** The evens group once the creation loop has made every cube of the
      rows above `i` and the cubes of row `i` left of column `j`. */
  function Evens(n: nat, i: nat, j: nat): seq<Cube>
    decreases i, j
  {
    if j == 0 then (if i == 0 then [] else Evens(n, i - 1, n))
    else if Cell(n, i, j - 1).isRedCube then Evens(n, i, j - 1) + [Cell(n, i, j - 1)]
    else Evens(n, i, j - 1)
  }

  /** The odds group at the same point of the creation loop. */
  function Odds(n: nat, i: nat, j: nat): seq<Cube>
    decreases i, j
  {
    if j == 0 then (if i == 0 then [] else Odds(n, i - 1, n))
    else if !Cell(n, i, j - 1).isRedCube then Odds(n, i, j - 1) + [Cell(n, i, j - 1)]
    else Odds(n, i, j - 1)
  }

  /** The nested creation loop over a `gridSize` x `gridSize` grid: every
      cube goes to the evens group when `(i + j) % 2 == 0` and to the odds
      group otherwise. */
  method BuildGrid(gridSize: nat) returns (evens: seq<Cube>, odds: seq<Cube>)
    ensures evens == Evens(gridSize, gridSize, 0)
    ensures odds == Odds(gridSize, gridSize, 0)
  {
    evens, odds := [], [];
    var i := 0;
    while i < gridSize
      invariant 0 <= i <= gridSize
      invariant evens == Evens(gridSize, i, 0) && odds == Odds(gridSize, i, 0)
    {
      var j := 0;
      while j < gridSize
        invariant 0 <= j <= gridSize
        invariant evens == Evens(gridSize, i, j) && odds == Odds(gridSize, i, j)
      {
        RowStartIsProduct(gridSize, i);
        var box := Cube(i, j, i * gridSize + j, (i + j) % 2 == 0);
        if (i + j) % 2 == 0 {
          evens := evens + [box];
        } else {
          odds := odds + [box];
        }
        j := j + 1;
      }
      i := i + 1;
    }
  }

  /** Strictly increasing indices, hence pairwise distinct ones. */
  predicate Increasing(cs: seq<Cube>)
  {
    forall a, b :: 0 <= a < b < |cs| ==> cs[a].index < cs[b].index
  }

  predicate IndicesBelow(cs: seq<Cube>, bound: int)
  {
    forall k :: 0 <= k < |cs| ==> 0 <= cs[k].index < bound
  }

  /** The colour flag agrees with the parity of the coordinates. */
  predicate Coloured(cs: seq<Cube>)
  {
    forall k :: 0 <= k < |cs| ==> (cs[k].isRedCube <==> (cs[k].i + cs[k].j) % 2 == 0)
  }

  predicate AllColour(cs: seq<Cube>, red: bool)
  {
    forall k :: 0 <= k < |cs| ==> cs[k].isRedCube == red
  }

  /** The evens group lists the cubes it got in creation order: indices
      increase and stay below the number of cubes made so far. */
  lemma {:induction false} EvensInOrder(n: nat, i: nat, j: nat)
    requires j <= n
    ensures Increasing(Evens(n, i, j)) && IndicesBelow(Evens(n, i, j), RowStart(n, i) + j)
    decreases i, j
  {
    if j == 0 {
      if i > 0 {
        EvensInOrder(n, i - 1, n);
      }
    } else {
      EvensInOrder(n, i, j - 1);
    }
  }

  /** The same for the odds group. */
  lemma {:induction false} OddsInOrder(n: nat, i: nat, j: nat)
    requires j <= n
    ensures Increasing(Odds(n, i, j)) && IndicesBelow(Odds(n, i, j), RowStart(n, i) + j)
    decreases i, j
  {
    if j == 0 {
      if i > 0 {
        OddsInOrder(n, i - 1, n);
      }
    } else {
      OddsInOrder(n, i, j - 1);
    }
  }

  /** Only red cubes reach the evens group and only blue ones the odds, and
      red means an even coordinate sum. */
  lemma {:induction false} SplitColours(n: nat, i: nat, j: nat)
    ensures Coloured(Evens(n, i, j)) && AllColour(Evens(n, i, j), true)
    ensures Coloured(Odds(n, i, j)) && AllColour(Odds(n, i, j), false)
    decreases i, j
  {
    if j == 0 {
      if i > 0 {
        SplitColours(n, i - 1, n);
      }
    } else {
      SplitColours(n, i, j - 1);
    }
  }

  /** Every cube made so far is in exactly one of the two groups. */
  lemma {:induction false} SplitLength(n: nat, i: nat, j: nat)
    ensures |Evens(n, i, j)| + |Odds(n, i, j)| == RowStart(n, i) + j
    decreases i, j
  {
    if j == 0 {
      if i > 0 {
        SplitLength(n, i - 1, n);
      }
    } else {
      SplitLength(n, i, j - 1);
    }
  }

  /** Whether cube `(a, b)` is made before the creation loop reaches row `i`,
      column `j`. */
  predicate MadeBefore(n: nat, i: nat, j: nat, a: nat, b: nat)
  {
    (a < i && b < n) || (a == i && b < j)
  }

  /** The groups hold exactly the cubes made so far, each in the group its
      parity picks: cube `(a, b)` is in the evens group iff it was made and
      `a + b` is even, and in the odds group iff it was made and `a + b` is
      odd. Every member is the cube of its own coordinates. */
  lemma {:induction false} GroupMembership(n: nat, i: nat, j: nat, a: nat, b: nat)
    requires j <= n
    ensures Cell(n, a, b) in Evens(n, i, j) <==> MadeBefore(n, i, j, a, b) && (a + b) % 2 == 0
    ensures Cell(n, a, b) in Odds(n, i, j) <==> MadeBefore(n, i, j, a, b) && (a + b) % 2 == 1
    ensures forall c :: c in Evens(n, i, j) ==> c == Cell(n, c.i, c.j) && MadeBefore(n, i, j, c.i, c.j)
    ensures forall c :: c in Odds(n, i, j) ==> c == Cell(n, c.i, c.j) && MadeBefore(n, i, j, c.i, c.j)
    decreases i, j
  {
    if j == 0 {
      if i > 0 {
        GroupMembership(n, i - 1, n, a, b);
      }
    } else {
      GroupMembership(n, i, j - 1, a, b);
    }
  }

  /** Two neighbouring cubes of a row have different colours, so each pair
      of columns adds one cube to each group. */
  lemma {:induction false} RowBalance(n: nat, i: nat, m: nat)
    ensures |Evens(n, i, 2 * m)| == |Evens(n, i, 0)| + m
    ensures |Odds(n, i, 2 * m)| == |Odds(n, i, 0)| + m
  {
    if m > 0 {
      RowBalance(n, i, m - 1);
      assert Cell(n, i, 2 * m - 2).isRedCube != Cell(n, i, 2 * m - 1).isRedCube;
    }
  }

  /** Rows of even length keep the two groups equally large. */
  lemma {:induction false} GridBalance(n: nat, i: nat)
    requires n % 2 == 0
    ensures |Evens(n, i, 0)| == |Odds(n, i, 0)|
  {
    if i > 0 {
      GridBalance(n, i - 1);
      var m := n / 2;
      assert 2 * m == n;
      RowBalance(n, i - 1, m);
    }
  }

  /** The split of a grid of even side `n`: half the cubes, all red, go to
      the evens group, the other half, all blue, to the odds group, and the
      indices `i * n + j` are distinct and lie in [0, n * n). For the 20 x 20
      grid that is 200 cubes per group and indices in [0, 400). */
  lemma GridSplit(n: nat)
    requires n % 2 == 0
    ensures |Evens(n, n, 0)| == |Odds(n, n, 0)|
    ensures 2 * |Evens(n, n, 0)| == n * n
    ensures AllColour(Evens(n, n, 0), true) && Coloured(Evens(n, n, 0))
    ensures AllColour(Odds(n, n, 0), false) && Coloured(Odds(n, n, 0))
    ensures Increasing(Evens(n, n, 0)) && IndicesBelow(Evens(n, n, 0), n * n)
    ensures Increasing(Odds(n, n, 0)) && IndicesBelow(Odds(n, n, 0), n * n)
    ensures forall a: nat, b: nat :: a < n && b < n ==>
      (Cell(n, a, b) in Evens(n, n, 0) <==> (a + b) % 2 == 0) && (Cell(n, a, b) in Odds(n, n, 0) <==> (a + b) % 2 == 1)
    ensures forall a: nat, b: nat :: a < n && b < n ==> Cell(n, a, b).index == a * n + b
  {
    forall a: nat, b: nat | a < n && b < n
      ensures (Cell(n, a, b) in Evens(n, n, 0) <==> (a + b) % 2 == 0) && (Cell(n, a, b) in Odds(n, n, 0) <==> (a + b) % 2 == 1)
      ensures Cell(n, a, b).index == a * n + b
    {
      GroupMembership(n, n, 0, a, b);
      RowStartIsProduct(n, a);
    }
    GridBalance(n, n);
    SplitLength(n, n, 0);
    EvensInOrder(n, n, 0);
    OddsInOrder(n, n, 0);
    SplitColours(n, n, 0);
    RowStartIsProduct(n, n);
  }

  /** The grid the scene builds: 200 cubes in each group. */
  lemma DefaultGridSplit(n: nat)
    requires n == GridSize
    ensures |Evens(n, n, 0)| == 200 && |Odds(n, n, 0)| == 200
  {
    GridSplit(n);
  }

  // ---------------------------------------------------------------------
  // animateBoxes
  // ---------------------------------------------------------------------

  /** What `animateBoxes` hands to the tween library for one cube. */
  datatype Bounce = Bounce(height: real, duration: real, delay: real, rotationSpeed: real)

  /** The `features?.x || 0` reads: no features yet means zero energy,
      zero volume and no beat. */
  function EnergyOf(f: Option<AudioFeatures>): real
  {
    if f.Some? then f.value.energy else 0.0
  }

  function VolumeOf(f: Option<AudioFeatures>): real
  {
    if f.Some? then f.value.rms else 0.0
  }

  function BeatOf(f: Option<AudioFeatures>): bool
  {
    f.Some? && f.value.beat
  }

  /** Base height from energy, two more on a beat, plus volume, at least 2. */
  function BounceHeight(energy: real, volume: real, beat: bool): (r: real)
    ensures r >= 2.0
    ensures 0.0 <= energy && 0.0 <= volume ==> r >= 3.0
  {
    var base := 3.0 + energy * 4.0;
    var withBeat := if beat then base + 2.0 else base;
    Max(withBeat + volume * 3.0, 2.0)
  }

  /** Without the floor clamp kicking in, a beat lifts the bounce by exactly
      2, and louder or more energetic music never lowers it. */
  lemma BounceResponds(energy: real, volume: real, energy': real, volume': real)
    requires 0.0 <= energy <= energy' && 0.0 <= volume <= volume'
    ensures BounceHeight(energy, volume, true) == BounceHeight(energy, volume, false) + 2.0
    ensures BounceHeight(energy, volume, false) <= BounceHeight(energy', volume', false)
    ensures BounceHeight(energy, volume, false) <= BounceHeight(energy, volume, true)
  {
  }

  /** The wave delay of the cube at position `i` of a group of `count`. */
  function Delay(i: nat, count: nat): (r: real)
    requires i < count
    ensures 0.0 <= r < 0.5
  {
    (i as real / count as real) * 0.5
  }

  /** Later cubes in the group start later. */
  lemma DelayIncreasing(i: nat, k: nat, count: nat)
    requires i < k < count
    ensures Delay(i, count) < Delay(k, count)
  {
    var c := count as real;
    assert i as real / c < k as real / c by {
      assert (k as real / c) - (i as real / c) == (k - i) as real / c;
    }
  }

  function BounceAt(f: Option<AudioFeatures>, i: nat, count: nat): (r: Bounce)
    requires i < count
    ensures r.height >= 2.0 && 0.0 <= r.delay < 0.5
    ensures 0.0 <= EnergyOf(f) ==> r.duration >= 1.2 && r.rotationSpeed >= 0.8
  {
    var energy := EnergyOf(f);
    Bounce(BounceHeight(energy, VolumeOf(f), BeatOf(f)), 1.2 + energy * 0.8, Delay(i, count),
      0.8 + energy * 0.4)
  }

  /** The loop over one group: one bounce per cube, in group order. */
  method AnimateBoxes(count: nat, f: Option<AudioFeatures>) returns (tweens: seq<Bounce>)
    ensures |tweens| == count
    ensures forall k :: 0 <= k < count ==> tweens[k] == BounceAt(f, k, count)
  {
    tweens := [];
    var i := 0;
    while i < count
      invariant 0 <= i <= count
      invariant |tweens| == i
      invariant forall k :: 0 <= k < i ==> tweens[k] == BounceAt(f, k, count)
    {
      var energy := EnergyOf(f);
      var bounceHeight := 3.0 + energy * 4.0;
      if BeatOf(f) {
        bounceHeight := bounceHeight + 2.0;
      }
      bounceHeight := bounceHeight + VolumeOf(f) * 3.0;
      bounceHeight := Max(bounceHeight, 2.0);
      var delay := (i as real / count as real) * 0.5;
      tweens := tweens + [Bounce(bounceHeight, 1.2 + energy * 0.8, delay, 0.8 + energy * 0.4)];
      i := i + 1;
    }
  }

  /** Every scheduled bounce of a group rises at least 2 units, starts within
      half a second, and the delays increase along the group. */
  lemma AnimateBoxesSchedule(f: Option<AudioFeatures>, count: nat, tweens: seq<Bounce>)
    requires |tweens| == count
    requires forall k :: 0 <= k < count ==> tweens[k] == BounceAt(f, k, count)
    ensures forall k :: 0 <= k < count ==> tweens[k].height >= 2.0 && 0.0 <= tweens[k].delay < 0.5
    ensures forall a, b :: 0 <= a < b < count ==> tweens[a].delay < tweens[b].delay
  {
    forall a, b | 0 <= a < b < count ensures tweens[a].delay < tweens[b].delay {
      DelayIncreasing(a, b, count);
    }
  }
}
