/** The neighbour search for cortical fibers: points hashed into cells of side 0.060, and the choice of
    a next point among the 27 cells around the current one. */
module SpatialHash {
  import opened Arithmetic
  import opened Prelude
  import opened Seeded

  const CELL_SIZE: real := 0.060

  datatype Point = Point(x: real, y: real, z: real) {
    function Minus(p: Point): Point {
      Point(x - p.x, y - p.y, z - p.z)
    }

    function Dot(p: Point): real {
      x * p.x + y * p.y + z * p.z
    }

    function DividedBy(n: real): Point
      requires n != 0.0
    {
      Point(x / n, y / n, z / n)
    }
  }

  datatype Cell = Cell(x: int, y: int, z: int)

  function CellCoordinate(value: real): int {
    (value / CELL_SIZE).Floor
  }

  function CellOf(p: Point): Cell {
    Cell(CellCoordinate(p.x), CellCoordinate(p.y), CellCoordinate(p.z))
  }

  // ---------- the buckets ----------

  /** The indices below n whose points lie in a cell, in order. */
  function Members(points: seq<Point>, cell: Cell, n: nat): seq<nat>
    requires n <= |points|
  {
    if n == 0 then []
    else Members(points, cell, n - 1) + if CellOf(points[n - 1]) == cell then [n - 1] else []
  }

  function Bucket(buckets: map<Cell, seq<nat>>, cell: Cell): seq<nat> {
    if cell in buckets then buckets[cell] else []
  }

  ghost predicate Hashes(buckets: map<Cell, seq<nat>>, points: seq<Point>, n: nat)
    requires n <= |points|
  {
    forall cell :: Bucket(buckets, cell) == Members(points, cell, n)
  }

  method BuildBuckets(points: seq<Point>) returns (buckets: map<Cell, seq<nat>>)
    ensures Hashes(buckets, points, |points|)
  {
    buckets := map[];
    var index := 0;
    while index < |points|
      invariant index <= |points| && Hashes(buckets, points, index)
    {
      var key := CellOf(points[index]);
      if key in buckets {
        buckets := buckets[key := buckets[key] + [index]];
      } else {
        buckets := buckets[key := [index]];
      }
      index := index + 1;
    }
  }

  /** A cell's members are its points. */
  lemma {:induction false} MembersAre(points: seq<Point>, cell: Cell, n: nat)
    requires n <= |points|
    ensures forall i: nat :: i in Members(points, cell, n) <==> i < n && CellOf(points[i]) == cell
  {
    hide CellOf;
    if n > 0 {
      MembersAre(points, cell, n - 1);
    }
  }

  /** Strictly increasing and below a bound. */
  ghost predicate Ascending(s: seq<nat>, bound: nat) {
    (forall k :: 0 <= k < |s| ==> s[k] < bound) && (forall j, k :: 0 <= j < k < |s| ==> s[j] < s[k])
  }

  lemma AscendingGrows(s: seq<nat>, bound: nat)
    requires Ascending(s, bound)
    ensures Ascending(s, bound + 1) && Ascending(s + [bound], bound + 1)
  {
    var t := s + [bound];
    assert forall k :: 0 <= k < |s| ==> t[k] == s[k];
  }

  lemma {:induction false} MembersAscend(points: seq<Point>, cell: Cell, n: nat)
    requires n <= |points|
    ensures Ascending(Members(points, cell, n), n)
  {
    hide CellOf;
    if n > 0 {
      MembersAscend(points, cell, n - 1);
      AscendingGrows(Members(points, cell, n - 1), n - 1);
      assert Members(points, cell, n - 1) + [] == Members(points, cell, n - 1);
    }
  }

  /** Every point is in exactly one bucket, exactly once. */
  lemma InExactlyOneBucket(buckets: map<Cell, seq<nat>>, points: seq<Point>, i: nat)
    requires Hashes(buckets, points, |points|) && i < |points|
    ensures exists cell, j :: InBucketAt(buckets, cell, j, i)
              && forall cell', j' :: InBucketAt(buckets, cell', j', i) ==> cell' == cell && j' == j
  {
    var cell := CellOf(points[i]);
    MembersAre(points, cell, |points|);
    assert Bucket(buckets, cell) == Members(points, cell, |points|);
    var j :| 0 <= j < |Bucket(buckets, cell)| && Bucket(buckets, cell)[j] == i;
    forall cell', j' | InBucketAt(buckets, cell', j', i)
      ensures cell' == cell && j' == j
    {
      MembersAre(points, cell', |points|);
      MembersAscend(points, cell', |points|);
      assert Bucket(buckets, cell') == Members(points, cell', |points|);
      assert i in Members(points, cell', |points|);
    }
    assert InBucketAt(buckets, cell, j, i);
  }

  predicate InBucketAt(buckets: map<Cell, seq<nat>>, cell: Cell, j: int, i: nat) {
    0 <= j < |Bucket(buckets, cell)| && Bucket(buckets, cell)[j] == i
  }

  // ---------- the cells that are searched ----------

  /** The n-th of the 27 cells, in the order of the three nested loops. */
  function SearchCell(c: Cell, n: nat): Cell {
    Cell(c.x + n / 9 - 1, c.y + (n / 3) % 3 - 1, c.z + n % 3 - 1)
  }

  /** The indices met in the first n searched cells. */
  function Visited(buckets: map<Cell, seq<nat>>, c: Cell, n: nat): seq<nat> {
    if n == 0 then [] else Visited(buckets, c, n - 1) + Bucket(buckets, SearchCell(c, n - 1))
  }

  predicate Adjacent(c: Cell, d: Cell) {
    -1 <= d.x - c.x <= 1 && -1 <= d.y - c.y <= 1 && -1 <= d.z - c.z <= 1
  }

  lemma {:induction false} VisitedHas(buckets: map<Cell, seq<nat>>, c: Cell, n: nat, i: nat)
    ensures i in Visited(buckets, c, n) <==> exists k: nat :: k < n && i in Bucket(buckets, SearchCell(c, k))
  {
    if n > 0 {
      VisitedHas(buckets, c, n - 1, i);
    }
  }

  lemma SearchCellsAreAdjacent(c: Cell, d: Cell)
    ensures Adjacent(c, d) <==> exists k: nat :: k < 27 && SearchCell(c, k) == d
  {
    if Adjacent(c, d) {
      var k: nat := 9 * (d.x - c.x + 1) + 3 * (d.y - c.y + 1) + (d.z - c.z + 1);
      SearchCellAt(c, d.x - c.x, d.y - c.y, d.z - c.z);
      assert SearchCell(c, k) == d;
    }
  }

  /** A point is searched exactly when its cell is the current one or touches it. */
  lemma VisitedIffAdjacent(buckets: map<Cell, seq<nat>>, points: seq<Point>, c: Cell, i: nat)
    requires Hashes(buckets, points, |points|)
    ensures i in Visited(buckets, c, 27) <==> i < |points| && Adjacent(c, CellOf(points[i]))
  {
    VisitedHas(buckets, c, 27, i);
    forall cell ensures i in Bucket(buckets, cell) <==> i < |points| && CellOf(points[i]) == cell {
      MembersAre(points, cell, |points|);
    }
    if i < |points| {
      SearchCellsAreAdjacent(c, CellOf(points[i]));
    }
  }

  // ---------- choosing ----------

  /** Euclidean length as an exact real, on the vector from one point to another. */
  ghost predicate IsLength(points: seq<Point>, length: Point -> real) {
    forall i: nat, j: nat :: i < |points| && j < |points| ==> IsLengthOf(length, points[j].Minus(points[i]))
  }

  ghost predicate IsLengthOf(length: Point -> real, p: Point) {
    length(p) >= 0.0 && length(p) * length(p) == p.Dot(p)
  }

  datatype Cortex = Cortex(points: seq<Point>, colors: seq<Point>, length: Point -> real) {
    ghost predicate Valid() {
      |points| == |colors|
    }

    function Signal(i: nat): real
      requires i < |colors|
    {
      Max(colors[i].x, Max(colors[i].y, colors[i].z))
    }

    function Distance(i: nat, j: nat): real
      requires i < |points| && j < |points|
    {
      length(points[j].Minus(points[i]))
    }

    function Continuity(current: nat, previous: Option<Point>, candidate: nat): real
      requires current < |points| && candidate < |points| && Distance(current, candidate) != 0.0
    {
      if previous.None? then 0.0
      else previous.value.Dot(points[candidate].Minus(points[current]).DividedBy(Distance(current, candidate)))
    }

    /** The limits on a step. */
    predicate Passes(current: nat, previous: Option<Point>, candidate: nat)
      requires current < |points| == |colors| && candidate < |points|
    {
      && candidate != current
      && Signal(candidate) >= 0.28
      && 0.018 <= Distance(current, candidate) <= 0.072
      && (previous.Some? ==> Continuity(current, previous, candidate) >= 0.18)
    }

    function Score(current: nat, previous: Option<Point>, candidate: nat, draw: real): real
      requires current < |points| == |colors| && candidate < |points| && Passes(current, previous, candidate)
    {
      var gap := Distance(current, candidate) - 0.042;
      var ratio := (if gap >= 0.0 then gap else -gap) / 0.042;
      var distanceScore := 1.0 - if ratio <= 1.0 then ratio else 1.0;
      Continuity(current, previous, candidate) * 1.05 + distanceScore * 0.52 + Signal(candidate) * 0.30 + draw * 0.24
    }

    predicate InRange(indices: seq<nat>) {
      forall k :: 0 <= k < |indices| ==> indices[k] < |points|
    }

    /** The indices that pass, in order. */
    function Passing(current: nat, previous: Option<Point>, indices: seq<nat>): (r: seq<nat>)
      requires current < |points| == |colors| && InRange(indices)
      ensures forall k :: 0 <= k < |r| ==> r[k] < |points| && Passes(current, previous, r[k])
    {
      if indices == [] then []
      else
        var last := indices[|indices| - 1];
        Passing(current, previous, indices[..|indices| - 1]) + if Passes(current, previous, last) then [last] else []
    }

    lemma {:induction false} PassingHas(current: nat, previous: Option<Point>, indices: seq<nat>, i: nat)
      requires current < |points| == |colors| && InRange(indices)
      ensures i in Passing(current, previous, indices) <==> i in indices && i < |points| && Passes(current, previous, i)
    {
      if indices != [] {
        var n := |indices| - 1;
        PassingHas(current, previous, indices[..n], i);
        assert indices == indices[..n] + [indices[n]];
      }
    }
  }

  /** The k-th number drawn from a state of the generator. */
  function Draw(x: State, k: nat): real {
    Iterate(x, k + 1) as real / 4294967296.0
  }

  /** `m` is the first of the passing candidates with the highest score; the k-th is scored with the
      k-th number drawn. */
  ghost predicate FirstBest(cortex: Cortex, current: nat, previous: Option<Point>, passing: seq<nat>, x: State, m: nat)
    requires current < |cortex.points| == |cortex.colors| && m < |passing|
    requires forall k :: 0 <= k < |passing| ==> passing[k] < |cortex.points| && cortex.Passes(current, previous, passing[k])
  {
    && (forall k: nat :: k < m ==>
          cortex.Score(current, previous, passing[k], Draw(x, k)) < cortex.Score(current, previous, passing[m], Draw(x, m)))
    && (forall k: nat :: k < |passing| ==>
          cortex.Score(current, previous, passing[k], Draw(x, k)) <= cortex.Score(current, previous, passing[m], Draw(x, m)))
  }

  lemma VisitedInRange(cortex: Cortex, buckets: map<Cell, seq<nat>>, c: Cell)
    requires Hashes(buckets, cortex.points, |cortex.points|)
    ensures cortex.InRange(Visited(buckets, c, 27))
  {
    var visited := Visited(buckets, c, 27);
    forall k | 0 <= k < |visited| ensures visited[k] < |cortex.points| {
      assert visited[k] in visited;
      VisitedIffAdjacent(buckets, cortex.points, c, visited[k]);
    }
  }

  /** The searched candidates that pass, in the order in which they are met. */
  ghost function Candidates(cortex: Cortex, buckets: map<Cell, seq<nat>>, current: nat,
                            previous: Option<Point>): (r: seq<nat>)
    requires cortex.Valid() && current < |cortex.points| && Hashes(buckets, cortex.points, |cortex.points|)
    ensures forall k :: 0 <= k < |r| ==> r[k] < |cortex.points| && cortex.Passes(current, previous, r[k])
  {
    VisitedInRange(cortex, buckets, CellOf(cortex.points[current]));
    cortex.Passing(current, previous, Visited(buckets, CellOf(cortex.points[current]), 27))
  }

  /** Where the search stands after some visited indices. */
  ghost predicate Progress(cortex: Cortex, current: nat, previous: Option<Point>, x: State, visited: seq<nat>,
                           bestIndex: Option<nat>, bestScore: real, value: State)
  {
    && cortex.Valid() && current < |cortex.points| && cortex.InRange(visited)
    && var passing := cortex.Passing(current, previous, visited);
       && value == Iterate(x, |passing|)
       && (bestIndex.None? <==> passing == [])
       && (bestIndex.Some? ==> exists m: nat ::
             && m < |passing| && FirstBest(cortex, current, previous, passing, x, m) && bestIndex.value == passing[m]
             && bestScore == cortex.Score(current, previous, passing[m], Draw(x, m)))
  }

  lemma BetterOrNot(cortex: Cortex, current: nat, previous: Option<Point>, x: State, passing: seq<nat>, next: nat,
                    m: nat)
    requires current < |cortex.points| == |cortex.colors|
    requires forall k :: 0 <= k < |passing| ==> passing[k] < |cortex.points| && cortex.Passes(current, previous, passing[k])
    requires next < |cortex.points| && cortex.Passes(current, previous, next)
    requires m < |passing| && FirstBest(cortex, current, previous, passing, x, m)
    ensures var score := cortex.Score(current, previous, next, Draw(x, |passing|));
            FirstBest(cortex, current, previous, passing + [next], x,
                      if score > cortex.Score(current, previous, passing[m], Draw(x, m)) then |passing| else m)
  {
    hide Cortex.Score, Cortex.Passes, Draw;
  }

  lemma OnlyOne(cortex: Cortex, current: nat, previous: Option<Point>, x: State, next: nat)
    requires current < |cortex.points| == |cortex.colors|
    requires next < |cortex.points| && cortex.Passes(current, previous, next)
    ensures FirstBest(cortex, current, previous, [next], x, 0)
  {
  }

  lemma PassingGrows(cortex: Cortex, current: nat, previous: Option<Point>, visited: seq<nat>, next: nat)
    requires current < |cortex.points| == |cortex.colors| && cortex.InRange(visited) && next < |cortex.points|
    ensures cortex.InRange(visited + [next])
    ensures cortex.Passing(current, previous, visited + [next])
            == if cortex.Passes(current, previous, next) then cortex.Passing(current, previous, visited) + [next]
               else cortex.Passing(current, previous, visited)
  {
    hide Cortex.Passes;
    assert (visited + [next])[..|visited|] == visited;
  }

  lemma ProgressGrows(cortex: Cortex, current: nat, previous: Option<Point>, x: State, visited: seq<nat>,
                      best: Option<nat>, score: real, next: nat, value: State)
    requires Progress(cortex, current, previous, x, visited, best, score, value)
    requires next < |cortex.points| && cortex.Passes(current, previous, next)
    ensures var drawn := |cortex.Passing(current, previous, visited)|;
            var s := cortex.Score(current, previous, next, Draw(x, drawn));
            var better := best.None? || s > score;
            Progress(cortex, current, previous, x, visited + [next], if better then Some(next) else best,
                     if better then s else score, Iterate(x, drawn + 1))
  {
    hide Cortex.Score, Cortex.Passes, Draw, FirstBest, Cortex.Passing, Iterate;
    var passing := cortex.Passing(current, previous, visited);
    PassingGrows(cortex, current, previous, visited, next);
    if best.None? {
      OnlyOne(cortex, current, previous, x, next);
      assert passing + [next] == [next];
    } else {
      var m: nat :| m < |passing| && FirstBest(cortex, current, previous, passing, x, m) && best.value == passing[m]
                    && score == cortex.Score(current, previous, passing[m], Draw(x, m));
      BetterOrNot(cortex, current, previous, x, passing, next, m);
    }
  }

  /** The body of the innermost loop: one candidate is filtered and scored. */
  method Consider(cortex: Cortex, currentIndex: nat, previousDirection: Option<Point>, candidateIndex: nat,
                  best: Option<nat>, score: real, random: Generator, ghost x: State, ghost visited: seq<nat>)
    returns (bestIndex: Option<nat>, bestScore: real)
    requires Progress(cortex, currentIndex, previousDirection, x, visited, best, score, random.value)
    requires candidateIndex < |cortex.points|
    modifies random
    ensures Progress(cortex, currentIndex, previousDirection, x, visited + [candidateIndex], bestIndex, bestScore, random.value)
  {
    hide Cortex.Score, Cortex.Passes, Draw, FirstBest, Cortex.Passing, Iterate, Advance;
    bestIndex, bestScore := best, score;
    PassingGrows(cortex, currentIndex, previousDirection, visited, candidateIndex);
    if !cortex.Passes(currentIndex, previousDirection, candidateIndex) {
      return;
    }
    ghost var drawn := |cortex.Passing(currentIndex, previousDirection, visited)|;
    var draw := random.Next();
    DrawnNumber(x, drawn, draw);
    var candidateScore := cortex.Score(currentIndex, previousDirection, candidateIndex, draw);
    ProgressGrows(cortex, currentIndex, previousDirection, x, visited, best, score, candidateIndex, Iterate(x, drawn));
    if bestIndex.None? || candidateScore > bestScore {
      bestScore := candidateScore;
      bestIndex := Some(candidateIndex);
    }
  }

  lemma DrawnNumber(x: State, k: nat, draw: real)
    requires draw * (MODULUS as real) == Advance(Iterate(x, k)) as real
    ensures draw == Draw(x, k) && Advance(Iterate(x, k)) == Iterate(x, k + 1)
  {
    hide Advance;
  }

  // ---------- what a score prefers ----------

  /** How far a step is from the ideal length. */
  function Off(distance: real): real {
    if distance < 0.042 then 0.042 - distance else distance - 0.042
  }

  /** By how much candidate i is ahead of candidate j before any number is drawn: for keeping the direction, for a step
      near the ideal length, for the signal.  Two draws can make up for less than 5.04. */
  function Lead(cortex: Cortex, current: nat, previous: Option<Point>, i: nat, j: nat): real
    requires current < |cortex.points| == |cortex.colors| && i < |cortex.points| && j < |cortex.points|
    requires cortex.Passes(current, previous, i) && cortex.Passes(current, previous, j)
  {
    22.05 * (cortex.Continuity(current, previous, i) - cortex.Continuity(current, previous, j))
    + 260.0 * (Off(cortex.Distance(current, j)) - Off(cortex.Distance(current, i)))
    + 6.3 * (cortex.Signal(i) - cortex.Signal(j))
  }

  /** The cut-off of the distance score never matters for a step within the limits: the score is linear. */
  lemma ScoreIsLinear(cortex: Cortex, current: nat, previous: Option<Point>, i: nat, j: nat, a: real, b: real)
    requires current < |cortex.points| == |cortex.colors| && i < |cortex.points| && j < |cortex.points|
    requires cortex.Passes(current, previous, i) && cortex.Passes(current, previous, j)
    ensures 21.0 * (cortex.Score(current, previous, i, a) - cortex.Score(current, previous, j, b))
         == Lead(cortex, current, previous, i, j) + 5.04 * (a - b)
  {
    hide Cortex.Distance, Cortex.Continuity, Cortex.Signal;
  }

  lemma DrawInRange(x: State, k: nat)
    ensures 0.0 <= Draw(x, k) < 1.0
  {
    hide Iterate;
  }

  /** No candidate leads the chosen one by what the draws cannot make up for. */
  ghost predicate Unbeaten(cortex: Cortex, current: nat, previous: Option<Point>, candidates: seq<nat>, best: nat)
    requires current < |cortex.points| == |cortex.colors|
    requires forall k :: 0 <= k < |candidates| ==>
               candidates[k] < |cortex.points| && cortex.Passes(current, previous, candidates[k])
  {
    best in candidates && forall i: nat :: i in candidates ==> Lead(cortex, current, previous, i, best) < 5.04
  }

  lemma BestIsUnbeaten(cortex: Cortex, current: nat, previous: Option<Point>, candidates: seq<nat>, x: State, m: nat)
    requires current < |cortex.points| == |cortex.colors| && m < |candidates|
    requires forall k :: 0 <= k < |candidates| ==>
               candidates[k] < |cortex.points| && cortex.Passes(current, previous, candidates[k])
    requires FirstBest(cortex, current, previous, candidates, x, m)
    ensures Unbeaten(cortex, current, previous, candidates, candidates[m])
  {
    hide Cortex.Score, Cortex.Passes, Draw, Lead;
    forall i: nat | i in candidates
      ensures Lead(cortex, current, previous, i, candidates[m]) < 5.04
    {
      var k: nat :| k < |candidates| && candidates[k] == i;
      DrawInRange(x, k);
      DrawInRange(x, m);
      ScoreIsLinear(cortex, current, previous, i, candidates[m], Draw(x, k), Draw(x, m));
    }
  }

  /** Whatever is drawn: a candidate that leads all others by 5.04 is the one chosen, */
  lemma ClearLeaderIsChosen(cortex: Cortex, current: nat, previous: Option<Point>, candidates: seq<nat>, best: nat, i: nat)
    requires current < |cortex.points| == |cortex.colors|
    requires forall k :: 0 <= k < |candidates| ==>
               candidates[k] < |cortex.points| && cortex.Passes(current, previous, candidates[k])
    requires Unbeaten(cortex, current, previous, candidates, best) && i in candidates
    requires forall j: nat :: j in candidates && j != i ==> Lead(cortex, current, previous, i, j) >= 5.04
    ensures best == i
  {
  }

  /** and of two with the same signal, none of which turns away more, the one that is at least 0.0194 nearer to a step
      of 0.042 is never passed over for the other. */
  lemma NearerToIdealIsPreferred(cortex: Cortex, current: nat, previous: Option<Point>, candidates: seq<nat>, best: nat,
                                 i: nat, j: nat)
    requires current < |cortex.points| == |cortex.colors|
    requires forall k :: 0 <= k < |candidates| ==>
               candidates[k] < |cortex.points| && cortex.Passes(current, previous, candidates[k])
    requires Unbeaten(cortex, current, previous, candidates, best) && i in candidates && j in candidates
    requires cortex.Signal(i) == cortex.Signal(j)
    requires cortex.Continuity(current, previous, i) >= cortex.Continuity(current, previous, j)
    requires Off(cortex.Distance(current, i)) + 0.0194 <= Off(cortex.Distance(current, j))
    ensures best != j
  {
    hide Cortex.Signal, Cortex.Continuity, Cortex.Distance, Cortex.Passes;
  }

  // ---------- the limits, on coordinates and colours ----------

  /** Squared distance and direction, on coordinates. */
  function SquaredDistance(p: Point, q: Point): real {
    (q.x - p.x) * (q.x - p.x) + (q.y - p.y) * (q.y - p.y) + (q.z - p.z) * (q.z - p.z)
  }

  function Along(direction: Point, p: Point, q: Point): real {
    direction.x * (q.x - p.x) + direction.y * (q.y - p.y) + direction.z * (q.z - p.z)
  }

  /** Another point with a channel of at least 0.28, between 0.018 and 0.072 away, and no sharp turn. */
  predicate WithinLimits(cortex: Cortex, current: nat, previous: Option<Point>, i: nat)
    requires current < |cortex.points| == |cortex.colors| && i < |cortex.points|
  {
    var p, q, colour := cortex.points[current], cortex.points[i], cortex.colors[i];
    && i != current
    && (colour.x >= 0.28 || colour.y >= 0.28 || colour.z >= 0.28)
    && 0.000324 <= SquaredDistance(p, q) <= 0.005184
    && (previous.Some? ==> Along(previous.value, p, q) >= 0.18 * cortex.Distance(current, i))
  }

  /** With exact lengths a candidate passes exactly then. */
  lemma PassesMeans(cortex: Cortex, current: nat, previous: Option<Point>, i: nat)
    requires cortex.Valid() && IsLength(cortex.points, cortex.length)
    requires current < |cortex.points| && i < |cortex.points|
    ensures cortex.Passes(current, previous, i) <==> WithinLimits(cortex, current, previous, i)
  {
    hide IsLength, Cortex.Distance, Cortex.Continuity, Along, SquaredDistance;
    var distance := cortex.Distance(current, i);
    DistanceMeans(cortex, current, i);
    SquareOrder(0.018, distance);
    SquareOrder(distance, 0.072);
    if distance > 0.0 && previous.Some? {
      ContinuityMeans(cortex, current, previous.value, i);
      ScaledOrder(cortex.Continuity(current, previous, i), 0.18, distance);
    }
  }

  lemma DistanceMeans(cortex: Cortex, i: nat, j: nat)
    requires cortex.Valid() && IsLength(cortex.points, cortex.length) && i < |cortex.points| && j < |cortex.points|
    ensures cortex.Distance(i, j) >= 0.0
    ensures cortex.Distance(i, j) * cortex.Distance(i, j) == SquaredDistance(cortex.points[i], cortex.points[j])
  {
    hide IsLength;
    LengthOf(cortex, i, j);
  }

  lemma SquareOrder(a: real, b: real)
    requires a >= 0.0 && b >= 0.0
    ensures a <= b <==> a * a <= b * b
  {
    LargerSquare(a, b);
    LargerSquare(b, a);
  }

  lemma ScaledOrder(a: real, b: real, scale: real)
    requires scale > 0.0
    ensures a >= b <==> a * scale >= b * scale
  {
    if a < b {
      Positive(b - a, scale);
      assert (b - a) * scale == b * scale - a * scale;
    } else {
      NotNegative(a - b, scale);
      assert (a - b) * scale == a * scale - b * scale;
    }
  }

  lemma NotNegative(a: real, b: real)
    requires a >= 0.0 && b >= 0.0
    ensures a * b >= 0.0
  {
  }

  /** Continuity is how much of the step goes along the previous direction. */
  lemma ContinuityMeans(cortex: Cortex, current: nat, direction: Point, i: nat)
    requires cortex.Valid() && current < |cortex.points| && i < |cortex.points| && cortex.Distance(current, i) != 0.0
    ensures cortex.Continuity(current, Some(direction), i) * cortex.Distance(current, i)
         == Along(direction, cortex.points[current], cortex.points[i])
    ensures cortex.Continuity(current, None, i) == 0.0
  {
    hide Cortex.Distance;
    var d := cortex.points[i].Minus(cortex.points[current]);
    DividedDot(direction, d, cortex.Distance(current, i));
  }

  lemma DividedDot(p: Point, d: Point, n: real)
    requires n != 0.0
    ensures p.Dot(d.DividedBy(n)) * n == p.Dot(d)
  {
    assert p.x * (d.x / n) * n == p.x * d.x;
    assert p.y * (d.y / n) * n == p.y * d.y;
    assert p.z * (d.z / n) * n == p.z * d.z;
  }

  /** A point lies in its cell of side 0.060. */
  lemma LiesInCell(p: Point)
    ensures CellOf(p).x as real * 0.060 <= p.x < (CellOf(p).x + 1) as real * 0.060
    ensures CellOf(p).y as real * 0.060 <= p.y < (CellOf(p).y + 1) as real * 0.060
    ensures CellOf(p).z as real * 0.060 <= p.z < (CellOf(p).z + 1) as real * 0.060
  {
  }

  /** The neighbour search: nothing if no searched candidate passes, and otherwise the first of those
      with the highest score. */
  method ChooseNext(cortex: Cortex, buckets: map<Cell, seq<nat>>, currentIndex: nat, previousDirection: Option<Point>,
                    random: Generator)
    returns (bestIndex: Option<nat>)
    requires cortex.Valid() && currentIndex < |cortex.points| && Hashes(buckets, cortex.points, |cortex.points|)
    modifies random
    ensures var passing := Candidates(cortex, buckets, currentIndex, previousDirection);
            && random.value == Iterate(old(random.value), |passing|)
            && (bestIndex.None? <==> passing == [])
            && (bestIndex.Some? ==> exists m: nat ::
                  m < |passing| && FirstBest(cortex, currentIndex, previousDirection, passing, old(random.value), m)
                      && bestIndex.value == passing[m])
            && (bestIndex.Some? ==> Unbeaten(cortex, currentIndex, previousDirection, passing, bestIndex.value))
  {
    hide Unbeaten, Cortex.Score, Cortex.Passes, Draw, FirstBest, Cortex.Passing, Hashes, Visited, Bucket, CellOf, Progress;
    var c := CellOf(cortex.points[currentIndex]);
    bestIndex := None;
    var bestScore := 0.0;
    ghost var x := random.value;
    ghost var visited: seq<nat> := [];
    StartSearch(cortex, buckets, currentIndex, previousDirection, c, x);
    var dx := -1;
    while dx <= 1
      invariant -1 <= dx <= 2 && visited == Visited(buckets, c, 9 * (dx + 1))
      invariant Progress(cortex, currentIndex, previousDirection, x, visited, bestIndex, bestScore, random.value)
    {
      var dy := -1;
      while dy <= 1
        invariant -1 <= dy <= 2 && visited == Visited(buckets, c, 9 * (dx + 1) + 3 * (dy + 1))
        invariant Progress(cortex, currentIndex, previousDirection, x, visited, bestIndex, bestScore, random.value)
      {
        var dz := -1;
        while dz <= 1
          invariant -1 <= dz <= 2 && visited == Visited(buckets, c, 9 * (dx + 1) + 3 * (dy + 1) + (dz + 1))
          invariant Progress(cortex, currentIndex, previousDirection, x, visited, bestIndex, bestScore, random.value)
        {
          ghost var before := visited;
          var bucket := Bucket(buckets, Cell(c.x + dx, c.y + dy, c.z + dz));
          BucketInRange(cortex, buckets, Cell(c.x + dx, c.y + dy, c.z + dz));
          var k := 0;
          while k < |bucket|
            invariant k <= |bucket| && visited == before + bucket[..k]
            invariant Progress(cortex, currentIndex, previousDirection, x, visited, bestIndex, bestScore, random.value)
          {
            bestIndex, bestScore := Consider(cortex, currentIndex, previousDirection, bucket[k], bestIndex, bestScore,
                random, x, visited);
            visited := visited + [bucket[k]];
            k := k + 1;
          }
          NextCell(buckets, c, dx, dy, dz);
          dz := dz + 1;
        }
        dy := dy + 1;
      }
      dx := dx + 1;
    }
    EndSearch(cortex, buckets, currentIndex, previousDirection, x, bestIndex, bestScore, random.value);
    if bestIndex.Some? {
      ghost var passing := Candidates(cortex, buckets, currentIndex, previousDirection);
      ghost var m: nat :| m < |passing| && FirstBest(cortex, currentIndex, previousDirection, passing, x, m)
                          && bestIndex.value == passing[m];
      BestIsUnbeaten(cortex, currentIndex, previousDirection, passing, x, m);
    }
  }

  lemma StartSearch(cortex: Cortex, buckets: map<Cell, seq<nat>>, current: nat, previous: Option<Point>, c: Cell,
                    x: State)
    requires cortex.Valid() && current < |cortex.points|
    ensures Visited(buckets, c, 0) == [] && Progress(cortex, current, previous, x, [], None, 0.0, x)
  {
    hide Cortex.Passes;
  }

  lemma BucketInRange(cortex: Cortex, buckets: map<Cell, seq<nat>>, cell: Cell)
    requires Hashes(buckets, cortex.points, |cortex.points|)
    ensures cortex.InRange(Bucket(buckets, cell))
  {
    MembersAscend(cortex.points, cell, |cortex.points|);
    assert Bucket(buckets, cell) == Members(cortex.points, cell, |cortex.points|);
  }

  lemma NextCell(buckets: map<Cell, seq<nat>>, c: Cell, dx: int, dy: int, dz: int)
    requires -1 <= dx <= 1 && -1 <= dy <= 1 && -1 <= dz <= 1
    ensures var n := 9 * (dx + 1) + 3 * (dy + 1) + (dz + 1);
            Visited(buckets, c, n + 1) == Visited(buckets, c, n) + Bucket(buckets, Cell(c.x + dx, c.y + dy, c.z + dz))
  {
    hide Bucket, SearchCell;
    SearchCellAt(c, dx, dy, dz);
  }

  lemma SearchCellAt(c: Cell, dx: int, dy: int, dz: int)
    requires -1 <= dx <= 1 && -1 <= dy <= 1 && -1 <= dz <= 1
    ensures SearchCell(c, 9 * (dx + 1) + 3 * (dy + 1) + (dz + 1)) == Cell(c.x + dx, c.y + dy, c.z + dz)
  {
    Divided(9, dx + 1, 3 * (dy + 1) + (dz + 1));
    Divided(3, 3 * (dx + 1) + (dy + 1), dz + 1);
    Divided(3, dx + 1, dy + 1);
  }

  lemma EndSearch(cortex: Cortex, buckets: map<Cell, seq<nat>>, current: nat, previous: Option<Point>, x: State,
                  bestIndex: Option<nat>, bestScore: real, value: State)
    requires cortex.Valid() && current < |cortex.points| && Hashes(buckets, cortex.points, |cortex.points|)
    requires Progress(cortex, current, previous, x, Visited(buckets, CellOf(cortex.points[current]), 27), bestIndex,
            bestScore, value)
    ensures var passing := Candidates(cortex, buckets, current, previous);
            && value == Iterate(x, |passing|)
            && (bestIndex.None? <==> passing == [])
            && (bestIndex.Some? ==> exists m: nat ::
                  m < |passing| && FirstBest(cortex, current, previous, passing, x, m) && bestIndex.value == passing[m])
  {
    hide Cortex.Score, Cortex.Passes, Draw, FirstBest, Cortex.Passing, Hashes, Visited, Bucket, CellOf;
  }

  // ---------- the search against brute force ----------

  /** What is considered: exactly the passing points whose cell is the current one or touches it. */
  lemma CandidatesAre(cortex: Cortex, buckets: map<Cell, seq<nat>>, current: nat, previous: Option<Point>, i: nat)
    requires cortex.Valid() && current < |cortex.points| && Hashes(buckets, cortex.points, |cortex.points|)
    ensures i in Candidates(cortex, buckets, current, previous) <==>
              i < |cortex.points| && cortex.Passes(current, previous, i)
              && Adjacent(CellOf(cortex.points[current]), CellOf(cortex.points[i]))
  {
    hide Cortex.Passes, Cortex.Passing, Hashes, Visited, CellOf, Adjacent;
    var c := CellOf(cortex.points[current]);
    VisitedInRange(cortex, buckets, c);
    VisitedIffAdjacent(buckets, cortex.points, c, i);
    cortex.PassingHas(current, previous, Visited(buckets, c, 27), i);
  }

  lemma SquareBound(a: real, side: real)
    requires side >= 0.0 && a * a <= side * side
    ensures -side <= a <= side
  {
    LargerSquare(a, side);
    LargerSquare(-a, side);
    assert (-a) * (-a) == a * a;
  }

  lemma LargerSquare(a: real, side: real)
    requires side >= 0.0
    ensures a > side ==> a * a > side * side
    ensures 0.0 <= a <= side ==> a * a <= side * side
  {
    assert a * a - side * side == (a - side) * (a + side);
    if a > side {
      Positive(a - side, a + side);
    } else if a >= 0.0 {
      assert (side - a) * (a + side) >= 0.0;
    }
  }

  lemma Positive(a: real, b: real)
    requires a > 0.0 && b > 0.0
    ensures a * b > 0.0
  {
  }

  lemma NeighbouringCoordinates(a: real, b: real)
    requires -CELL_SIZE <= b - a <= CELL_SIZE
    ensures -1 <= CellCoordinate(b) - CellCoordinate(a) <= 1
  {
    assert -1.0 <= b / CELL_SIZE - a / CELL_SIZE <= 1.0;
  }

  lemma SquareIsNonNegative(a: real)
    ensures a * a >= 0.0
  {
  }

  lemma SquaresBound(d: Point, length: real)
    requires 0.0 <= length <= CELL_SIZE && length * length == d.Dot(d)
    ensures -CELL_SIZE <= d.x <= CELL_SIZE && -CELL_SIZE <= d.y <= CELL_SIZE && -CELL_SIZE <= d.z <= CELL_SIZE
  {
    LargerSquare(length, CELL_SIZE);
    SquareIsNonNegative(d.x);
    SquareIsNonNegative(d.y);
    SquareIsNonNegative(d.z);
    SquareBound(d.x, CELL_SIZE);
    SquareBound(d.y, CELL_SIZE);
    SquareBound(d.z, CELL_SIZE);
  }

  /** Whatever lies within one cell side of the current point lies in a searched cell. */
  lemma NearMeansAdjacent(cortex: Cortex, i: nat, j: nat)
    requires cortex.Valid() && IsLength(cortex.points, cortex.length)
    requires i < |cortex.points| && j < |cortex.points| && cortex.Distance(i, j) <= 0.060
    ensures Adjacent(CellOf(cortex.points[i]), CellOf(cortex.points[j]))
  {
    hide CellCoordinate, IsLength;
    var p, q := cortex.points[i], cortex.points[j];
    LengthOf(cortex, i, j);
    SquaresBound(q.Minus(p), cortex.Distance(i, j));
    NeighbouringCoordinates(p.x, q.x);
    NeighbouringCoordinates(p.y, q.y);
    NeighbouringCoordinates(p.z, q.z);
  }

  /** Nothing found fails a limit, and no passing point within one cell side is overlooked. */
  ghost predicate AgreesUpToOneCell(cortex: Cortex, current: nat, previous: Option<Point>, found: seq<nat>)
    requires cortex.Valid() && current < |cortex.points|
  {
    && (forall i: nat :: i in found ==> i < |cortex.points| && cortex.Passes(current, previous, i))
    && (forall i: nat ::
          i < |cortex.points| && cortex.Passes(current, previous, i) && cortex.Distance(current, i) <= 0.060 ==> i in found)
  }

  /** The search agrees with trying every point up to one cell side. */
  lemma AgreesWithBruteForce(cortex: Cortex, buckets: map<Cell, seq<nat>>, current: nat, previous: Option<Point>)
    requires cortex.Valid() && current < |cortex.points| && Hashes(buckets, cortex.points, |cortex.points|)
    requires IsLength(cortex.points, cortex.length)
    ensures AgreesUpToOneCell(cortex, current, previous, Candidates(cortex, buckets, current, previous))
  {
    hide IsLength, Cortex.Passes, Hashes, CellOf, Adjacent, Candidates;
    forall i: nat
      ensures i in Candidates(cortex, buckets, current, previous) ==> i < |cortex.points| && cortex.Passes(current, previous, i)
      ensures i < |cortex.points| && cortex.Passes(current, previous, i) && cortex.Distance(current, i) <= CELL_SIZE ==>
                i in Candidates(cortex, buckets, current, previous)
    {
      CandidatesAre(cortex, buckets, current, previous, i);
      if i < |cortex.points| && cortex.Distance(current, i) <= CELL_SIZE {
        NearMeansAdjacent(cortex, current, i);
      }
    }
  }

  /** Steps up to 0.072 are allowed, but one of 0.061 can be overlooked: with these two points the
      second one passes every limit and is not searched. */
  lemma LongStepOverlooked(cortex: Cortex, buckets: map<Cell, seq<nat>>)
    requires IsLength(cortex.points, cortex.length)
    requires cortex.Valid() && Hashes(buckets, cortex.points, |cortex.points|)
    requires cortex.points == [Point(0.059, 0.0, 0.0), Point(0.120, 0.0, 0.0)]
    requires cortex.colors == [Point(1.0, 1.0, 1.0), Point(1.0, 1.0, 1.0)]
    ensures cortex.Passes(0, None, 1) && Candidates(cortex, buckets, 0, None) == []
  {
    hide *;
    LongStepPasses(cortex);
    CellsApart(cortex.points[0], cortex.points[1]);
    NeverItself(cortex, 0, None);
    var found := Candidates(cortex, buckets, 0, None);
    forall i: nat ensures i !in found {
      CandidatesAre(cortex, buckets, 0, None, i);
    }
    NothingFound(found);
  }

  lemma NothingFound(found: seq<nat>)
    ensures found != [] ==> exists i: nat :: i in found
  {
    if found != [] {
      assert found[0] in found;
    }
  }

  lemma NeverItself(cortex: Cortex, i: nat, previous: Option<Point>)
    requires i < |cortex.points| == |cortex.colors|
    ensures !cortex.Passes(i, previous, i)
  {
  }

  lemma CellsApart(p: Point, q: Point)
    requires p == Point(0.059, 0.0, 0.0) && q == Point(0.120, 0.0, 0.0)
    ensures !Adjacent(CellOf(p), CellOf(q))
  {
    assert CellOf(p).x == 0 && CellOf(q).x == 2;
  }

  lemma LongStepPasses(cortex: Cortex)
    requires IsLength(cortex.points, cortex.length)
    requires cortex.Valid()
    requires cortex.points == [Point(0.059, 0.0, 0.0), Point(0.120, 0.0, 0.0)]
    requires cortex.colors == [Point(1.0, 1.0, 1.0), Point(1.0, 1.0, 1.0)]
    ensures cortex.Passes(0, None, 1)
  {
    hide IsLength, Cortex.Distance;
    LongDistance(cortex);
  }

  lemma LongDistance(cortex: Cortex)
    requires IsLength(cortex.points, cortex.length) && cortex.points == [Point(0.059, 0.0, 0.0), Point(0.120, 0.0, 0.0)]
    ensures cortex.Distance(0, 1) == 0.061
  {
    hide *;
    var d := Point(0.061, 0.0, 0.0);
    LengthOf(cortex, 0, 1);
    DistanceUnfolds(cortex, d);
    DotOf(d);
    ExactRoot(cortex.length(d));
  }

  lemma DistanceUnfolds(cortex: Cortex, d: Point)
    requires cortex.points == [Point(0.059, 0.0, 0.0), Point(0.120, 0.0, 0.0)] && d == Point(0.061, 0.0, 0.0)
    ensures cortex.points[1].Minus(cortex.points[0]) == d
  {
    hide Point.Dot;
    assert cortex.points[1].Minus(cortex.points[0]) == d;
  }

  lemma DotOf(d: Point)
    requires d == Point(0.061, 0.0, 0.0)
    ensures d.Dot(d) == 0.061 * 0.061
  {
  }

  lemma LengthOf(cortex: Cortex, i: nat, j: nat)
    requires IsLength(cortex.points, cortex.length) && i < |cortex.points| && j < |cortex.points|
    ensures var d := cortex.points[j].Minus(cortex.points[i]);
            cortex.Distance(i, j) == cortex.length(d) && cortex.length(d) >= 0.0
                && cortex.length(d) * cortex.length(d) == d.Dot(d)
  {
    hide Point.Dot;
    assert IsLengthOf(cortex.length, cortex.points[j].Minus(cortex.points[i]));
  }

  lemma ExactRoot(l: real)
    requires l >= 0.0 && l * l == 0.061 * 0.061
    ensures l == 0.061
  {
    LargerSquare(l, 0.061);
    LargerSquare(0.061, l);
  }
}
