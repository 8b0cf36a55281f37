/** Closed-tour search over campuses: a random tour that starts and ends at
    the first campus, its length read from a distance matrix, adjacent-swap
    local search, random-swap perturbation, iterated local search, and the
    best-so-far bookkeeping of simulated annealing. Distances are integers
    here (the one matrix the program uses is integral). */
module RouteSearch {
  import opened Draws

  datatype CampusVisit = CampusVisit(campusId: int, campusName: string)

  type Route = seq<CampusVisit>

  /** `distanceMatrix[a][b]`: the distance from campus a to campus b. */
  type Matrix = seq<seq<int>>

  predicate Square(m: Matrix)
  {
    forall i :: 0 <= i < |m| ==> |m[i]| == |m|
  }

  /** Every visit names a row (and so a column) of the matrix. */
  predicate OnMap(m: Matrix, route: Route)
  {
    forall v :: v in route ==> 0 <= v.campusId < |m|
  }

  predicate NonNegative(m: Matrix)
  {
    forall i, j :: 0 <= i < |m| && 0 <= j < |m[i]| ==> m[i][j] >= 0
  }

  /** `distanceMatrix[a.campusId][b.campusId]`. The program only reads the
      matrix inside its bounds (every method here requires that); outside
      them the leg is taken to be 0 so that lengths are defined for every
      route. */
  function Leg(m: Matrix, a: CampusVisit, b: CampusVisit): int
  {
    if 0 <= a.campusId < |m| && 0 <= b.campusId < |m[a.campusId]| then m[a.campusId][b.campusId] else 0
  }

  /** The sum of the legs between consecutive visits. */
  function PathLength(m: Matrix, route: Route): int
  {
    if |route| <= 1 then 0
    else PathLength(m, route[..|route| - 1]) + Leg(m, route[|route| - 2], route[|route| - 1])
  }

  /** Same length, same first and last visit, same visits: what swapping two
      interior positions keeps. */
  predicate SameTour(r: Route, original: Route)
  {
    && |r| == |original|
    && (|r| > 0 ==> r[0] == original[0] && r[|r| - 1] == original[|r| - 1])
    && multiset(r) == multiset(original)
  }

  /** A closed tour of `campuses`: one visit per campus, starting at the first
      campus, followed by a return to it. */
  predicate Tour(r: Route, campuses: Route)
  {
    && |campuses| > 0
    && |r| == |campuses| + 1
    && r[0] == campuses[0]
    && r[|campuses|] == campuses[0]
    && multiset(r[..|campuses|]) == multiset(campuses)
  }

  predicate NonIncreasing(s: seq<int>)
  {
    forall i, j :: 0 <= i < j < |s| ==> s[j] <= s[i]
  }

  /** `swap(route[i], route[j])` on a copy of the route. */
  function Swap(route: Route, i: nat, j: nat): (r: Route)
    requires i < |route| && j < |route|
    ensures |r| == |route| && r[i] == route[j] && r[j] == route[i]
    ensures forall k :: 0 <= k < |route| && k != i && k != j ==> r[k] == route[k]
    ensures multiset(r) == multiset(route)
    ensures forall v :: v in r ==> v in route
  {
    route[i := route[j]][j := route[i]]
  }

  /** A swap of two interior positions keeps the tour. */
  lemma InteriorSwapKeepsTour(route: Route, i: nat, j: nat)
    requires 1 <= i < |route| - 1 && 1 <= j < |route| - 1
    ensures SameTour(Swap(route, i, j), route)
  {
  }

  lemma SameTourTransitive(a: Route, b: Route, c: Route)
    requires SameTour(a, b) && SameTour(b, c)
    ensures SameTour(a, c)
  {
  }

  lemma SameTourOnMap(m: Matrix, r: Route, original: Route)
    requires SameTour(r, original) && OnMap(m, original)
    ensures OnMap(m, r)
  {
    forall v | v in r ensures 0 <= v.campusId < |m| {
      assert v in multiset(original);
    }
  }

  /** A tour stays a tour of the same campuses under SameTour. */
  lemma {:induction false} SameTourKeepsTour(r: Route, original: Route, campuses: Route)
    requires Tour(original, campuses) && SameTour(r, original)
    ensures Tour(r, campuses)
  {
    var n := |campuses|;
    assert r == r[..n] + [r[n]];
    assert original == original[..n] + [original[n]];
    assert multiset(r) == multiset(r[..n]) + multiset{r[n]};
    assert multiset(original) == multiset(original[..n]) + multiset{original[n]};
    assert multiset(r[..n]) == multiset(r) - multiset{r[n]};
    assert multiset(original[..n]) == multiset(original) - multiset{original[n]};
  }

  lemma TourOnMap(m: Matrix, r: Route, campuses: Route)
    requires Tour(r, campuses) && OnMap(m, campuses)
    ensures OnMap(m, r)
  {
    var n := |campuses|;
    forall v | v in r ensures 0 <= v.campusId < |m| {
      assert r == r[..n] + [r[n]];
      assert r[n] == r[0] && r[0] in r[..n];
      assert v in multiset(r[..n]);
      assert v in multiset(campuses);
    }
  }

  /** The smallest matrix entry, or 0 if every entry is positive. */
  function RowMin(row: seq<int>): (r: int)
    ensures r <= 0
    ensures forall j :: 0 <= j < |row| ==> r <= row[j]
  {
    if |row| == 0 then 0
    else
      var rest := RowMin(row[1..]);
      assert forall j :: 1 <= j < |row| ==> row[j] == row[1..][j - 1];
      if row[0] < rest then row[0] else rest
  }

  function MinEntry(m: Matrix): (r: int)
    ensures r <= 0
    ensures forall i, j :: 0 <= i < |m| && 0 <= j < |m[i]| ==> r <= m[i][j]
  {
    if |m| == 0 then 0
    else
      var first, rest := RowMin(m[0]), MinEntry(m[1..]);
      assert forall i :: 1 <= i < |m| ==> m[i] == m[1..][i - 1];
      if first < rest then first else rest
  }

  /** No route over the matrix is shorter than its legs' smallest entry
      times its number of legs; this bounds local search below. */
  lemma {:induction false} PathLengthAtLeast(m: Matrix, route: Route)
    requires |route| >= 1
    ensures PathLength(m, route) >= (|route| - 1) * MinEntry(m)
  {
    if |route| > 1 {
      var p := route[..|route| - 1];
      PathLengthAtLeast(m, p);
      var a, b := route[|route| - 2], route[|route| - 1];
      assert Leg(m, a, b) >= MinEntry(m);
      MultiplyStep(|route| - 1, MinEntry(m));
    }
  }

  lemma MultiplyStep(n: int, b: int)
    ensures n * b == (n - 1) * b + b
  {
  }

  /** With non-negative distances every route has non-negative length. */
  lemma {:induction false} PathLengthNonNegative(m: Matrix, route: Route)
    requires NonNegative(m)
    ensures PathLength(m, route) >= 0
  {
    if |route| > 1 {
      PathLengthNonNegative(m, route[..|route| - 1]);
      var a, b := route[|route| - 2], route[|route| - 1];
      assert Leg(m, a, b) >= 0;
    }
  }

  /** The length of the route after swapping the interior visits i and i + 1. */
  function SwappedLength(m: Matrix, route: Route, i: nat): int
    requires 1 <= i < |route| - 2
  {
    PathLength(m, Swap(route, i, i + 1))
  }

  /** No single adjacent swap of interior visits shortens the route. */
  predicate LocallyOptimal(m: Matrix, route: Route)
  {
    forall i :: 1 <= i < |route| - 2 ==> SwappedLength(m, route, i) >= PathLength(m, route)
  }

  /** `generateRandomRoute`: copies the campuses, shuffles every position but
      the first and the last, and appends the first campus again. The shuffle
      is a Fisher-Yates pass driven by the values `shuffle` draws. */
  method GenerateRandomRoute(campuses: Route, shuffle: Stream) returns (route: Route)
    requires |campuses| >= 2
    ensures Tour(route, campuses)
    ensures route[|campuses| - 1] == campuses[|campuses| - 1]
  {
    var n := |campuses|;
    route := campuses;
    var t := n - 2;
    while t >= 2
      invariant 0 <= t <= n - 2
      invariant |route| == n
      invariant route[0] == campuses[0] && route[n - 1] == campuses[n - 1]
      invariant multiset(route) == multiset(campuses)
    {
      var j := 1 + shuffle(n - 2 - t) % t;
      route := Swap(route, t, j);
      t := t - 1;
    }
    var shuffled := route;
    route := route + [route[0]];
    assert route[..n] == shuffled;
  }

  /** `calculateRouteDistance`. */
  method CalculateRouteDistance(route: Route, m: Matrix) returns (total: int)
    requires |route| >= 1 && Square(m) && OnMap(m, route)
    ensures total == PathLength(m, route)
  {
    total := 0;
    var i := 0;
    while i < |route| - 1
      invariant 0 <= i <= |route| - 1
      invariant total == PathLength(m, route[..i + 1])
    {
      assert route[..i + 2][..i + 1] == route[..i + 1];
      assert route[i] in route && route[i + 1] in route;
      total := total + m[route[i].campusId][route[i + 1].campusId];
      i := i + 1;
    }
    assert route[..i + 1] == route;
  }

  /** `localSearch`: repeated passes over the interior positions, swapping
      neighbours whenever that strictly shortens the route, until a pass
      changes nothing. */
  method LocalSearch(start: Route, m: Matrix) returns (route: Route)
    requires |start| >= 2 && Square(m) && OnMap(m, start)
    ensures SameTour(route, start) && OnMap(m, route)
    ensures PathLength(m, route) <= PathLength(m, start)
    ensures PathLength(m, route) == PathLength(m, start) ==> route == start
    ensures LocallyOptimal(m, route)
  {
    route := start;
    var improvement := true;
    ghost var floor := (|start| - 1) * MinEntry(m);
    PathLengthAtLeast(m, start);
    while improvement
      invariant SameTour(route, start) && OnMap(m, route)
      invariant floor <= PathLength(m, route) <= PathLength(m, start)
      invariant PathLength(m, route) == PathLength(m, start) ==> route == start
      invariant !improvement ==> LocallyOptimal(m, route)
      decreases PathLength(m, route) - floor, if improvement then 1 else 0
    {
      route, improvement := SwapPass(route, m);
      PathLengthAtLeast(m, route);
    }
  }

  /** One pass of the `for` loop inside `localSearch`: for i = 1 .. size-3,
      swap visits i and i + 1 of a copy and keep the copy when it is strictly
      shorter. `improvement` tells whether any swap was kept. */
  method SwapPass(start: Route, m: Matrix) returns (route: Route, improvement: bool)
    requires |start| >= 2 && Square(m) && OnMap(m, start)
    ensures SameTour(route, start) && OnMap(m, route)
    ensures improvement <==> PathLength(m, route) < PathLength(m, start)
    ensures !improvement ==> route == start && LocallyOptimal(m, route)
  {
    route := start;
    improvement := false;
    var i := 1;
    while i < |route| - 2
      invariant 1 <= i <= if |route| >= 3 then |route| - 2 else 1
      invariant SameTour(route, start) && OnMap(m, route)
      invariant improvement ==> PathLength(m, route) < PathLength(m, start)
      invariant !improvement ==> route == start
      invariant !improvement ==>
        forall k :: 1 <= k < i ==> SwappedLength(m, route, k) >= PathLength(m, route)
    {
      var newRoute := Swap(route, i, i + 1);
      InteriorSwapKeepsTour(route, i, i + 1);
      SameTourOnMap(m, newRoute, route);
      var newDistance := CalculateRouteDistance(newRoute, m);
      var oldDistance := CalculateRouteDistance(route, m);
      if newDistance < oldDistance {
        SameTourTransitive(newRoute, route, start);
        route := newRoute;
        improvement := true;
      } else {
        assert SwappedLength(m, route, i) == newDistance;
      }
      i := i + 1;
    }
  }

  /** `perturbation`: swaps two interior positions drawn with `rand()`. */
  method Perturbation(route: Route, rand: Stream, k: nat) returns (r: Route, next: nat)
    requires |route| >= 3
    ensures next == k + 2
    ensures SameTour(r, route)
    ensures r == Swap(route, rand(k) % (|route| - 2) + 1, rand(k + 1) % (|route| - 2) + 1)
  {
    var a := rand(k) % (|route| - 2) + 1;
    var b := rand(k + 1) % (|route| - 2) + 1;
    r := Swap(route, a, b);
    InteriorSwapKeepsTour(route, a, b);
    next := k + 2;
  }

  /** The comparison both searches make after a move: the candidate replaces
      the best route only when it is strictly shorter; also returns the
      length of the route kept. */
  method KeepBest(candidate: Route, best: Route, m: Matrix) returns (kept: Route, length: int)
    requires |candidate| >= 1 && |best| >= 1 && Square(m) && OnMap(m, candidate) && OnMap(m, best)
    ensures kept == if PathLength(m, candidate) < PathLength(m, best) then candidate else best
    ensures length == PathLength(m, kept) && length <= PathLength(m, best)
  {
    var candidateDistance := CalculateRouteDistance(candidate, m);
    var bestDistance := CalculateRouteDistance(best, m);
    kept := best;
    if candidateDistance < bestDistance {
      kept := candidate;
    }
    length := CalculateRouteDistance(kept, m);
  }

  /** Recording a length no greater than the last one keeps the record
      non-increasing. */
  lemma RecordBest(ds: seq<int>, d: int)
    requires NonIncreasing(ds) && (|ds| > 0 ==> d <= ds[|ds| - 1])
    ensures NonIncreasing(ds + [d])
  {
  }

  /** In a non-increasing record, every entry is bounded by the first. */
  lemma BoundedByFirst(ds: seq<int>, bound: int)
    requires NonIncreasing(ds) && (|ds| > 0 ==> ds[0] <= bound)
    ensures forall j :: 0 <= j < |ds| ==> ds[j] <= bound
  {
  }

  /** `iteratedLocalSearch`: local search, keep the best route so far, record
      its length, perturb, `maxIterations` times. */
  method IteratedLocalSearch(start: Route, m: Matrix, maxIterations: int, rand: Stream, k: nat)
    returns (best: Route, bestDistances: seq<int>, next: nat)
    requires Square(m) && OnMap(m, start)
    requires maxIterations > 0 ==> |start| >= 3
    ensures |bestDistances| == if maxIterations > 0 then maxIterations else 0
    ensures SameTour(best, start) && OnMap(m, best)
    ensures PathLength(m, best) <= PathLength(m, start)
    ensures NonIncreasing(bestDistances)
    ensures |bestDistances| > 0 ==> bestDistances[|bestDistances| - 1] == PathLength(m, best)
    ensures forall j :: 0 <= j < |bestDistances| ==> bestDistances[j] <= PathLength(m, start)
    ensures maxIterations > 0 ==> LocallyOptimal(m, best)
  {
    best := start;
    var current := start;
    bestDistances := [];
    next := k;
    var i := 0;
    while i < maxIterations
      invariant 0 <= i <= if maxIterations > 0 then maxIterations else 0
      invariant |bestDistances| == i
      invariant SameTour(current, start) && OnMap(m, current)
      invariant SameTour(best, start) && OnMap(m, best)
      invariant PathLength(m, best) <= PathLength(m, start)
      invariant NonIncreasing(bestDistances)
      invariant i > 0 ==> bestDistances[0] <= PathLength(m, start)
      invariant i > 0 ==> bestDistances[i - 1] == PathLength(m, best)
      invariant i == 0 ==> best == start && current == start
      invariant i > 0 ==> LocallyOptimal(m, best)
    {
      var searched := LocalSearch(current, m);
      SameTourTransitive(searched, current, start);
      current := searched;
      var bestDistance;
      best, bestDistance := KeepBest(current, best, m);
      RecordBest(bestDistances, bestDistance);
      bestDistances := bestDistances + [bestDistance];
      var perturbed;
      perturbed, next := Perturbation(current, rand, next);
      SameTourTransitive(perturbed, current, start);
      SameTourOnMap(m, perturbed, start);
      current := perturbed;
      i := i + 1;
    }
    BoundedByFirst(bestDistances, PathLength(m, start));
  }

  /** One iteration of `simulatedAnnealing`: draw a neighbour, move to it
      when it is strictly shorter or `accept` says so, and keep the best. */
  method AnnealingStep(current: Route, best: Route, m: Matrix, i: nat,
                       accept: (nat, int, nat) -> bool, rand: Stream, k: nat)
    returns (neighbor: Route, moved: Route, kept: Route, length: int, next: nat)
    requires |current| >= 3 && |best| >= 1 && Square(m) && OnMap(m, current) && OnMap(m, best)
    requires PathLength(m, best) <= PathLength(m, current)
    ensures neighbor == Swap(current, rand(k) % (|current| - 2) + 1, rand(k + 1) % (|current| - 2) + 1)
    ensures SameTour(moved, current) && OnMap(m, moved)
    ensures PathLength(m, neighbor) < PathLength(m, current) ==> moved == neighbor && next == k + 2
    ensures PathLength(m, neighbor) >= PathLength(m, current) ==> next == k + 3
    ensures PathLength(m, neighbor) >= PathLength(m, current) ==>
      (moved == if accept(i, PathLength(m, current) - PathLength(m, neighbor), rand(k + 2)) then neighbor else current)
    ensures kept == if PathLength(m, moved) < PathLength(m, best) then moved else best
    ensures length == PathLength(m, kept) && length <= PathLength(m, best)
    ensures length <= PathLength(m, moved)
  {
    neighbor, next := Perturbation(current, rand, k);
    SameTourOnMap(m, neighbor, current);
    var neighborDistance := CalculateRouteDistance(neighbor, m);
    var currentDistance := CalculateRouteDistance(current, m);
    var accepted := neighborDistance < currentDistance;
    if !accepted {
      accepted := accept(i, currentDistance - neighborDistance, rand(next));
      next := next + 1;
    }
    moved := current;
    kept := best;
    length := CalculateRouteDistance(best, m);
    if accepted {
      moved := neighbor;
      kept, length := KeepBest(moved, best, m);
    }
  }

  /** The best-so-far skeleton of `simulatedAnnealing`. The neighbour is drawn
      as `perturbation` draws it. The acceptance test `accept(i, delta, r)`
      stands for the Metropolis comparison of iteration i, where delta is the
      current length minus the neighbour's and r is the value of the extra
      `rand()` call; that call is made only when the neighbour is not
      strictly shorter. Whatever `accept` decides, the best route changes
      only on a strict decrease. */
  method SimulatedAnnealing(campuses: Route, m: Matrix, maxIterations: int, shuffle: Stream,
                            accept: (nat, int, nat) -> bool, rand: Stream, k: nat)
    returns (best: Route, bestDistances: seq<int>, next: nat)
    requires |campuses| >= 2 && Square(m) && OnMap(m, campuses)
    ensures |bestDistances| == if maxIterations > 0 then maxIterations else 0
    ensures Tour(best, campuses) && OnMap(m, best)
    ensures NonIncreasing(bestDistances)
    ensures |bestDistances| > 0 ==> bestDistances[|bestDistances| - 1] == PathLength(m, best)
  {
    var start := GenerateRandomRoute(campuses, shuffle);
    TourOnMap(m, start, campuses);
    var current := start;
    best := start;
    bestDistances := [];
    next := k;
    var i := 0;
    while i < maxIterations
      invariant 0 <= i <= if maxIterations > 0 then maxIterations else 0
      invariant |bestDistances| == i
      invariant SameTour(current, start) && OnMap(m, current)
      invariant SameTour(best, start) && OnMap(m, best)
      invariant NonIncreasing(bestDistances)
      invariant i > 0 ==> bestDistances[i - 1] == PathLength(m, best)
      invariant PathLength(m, best) <= PathLength(m, current)
    {
      var neighbor, moved, kept, bestDistance;
      neighbor, moved, kept, bestDistance, next := AnnealingStep(current, best, m, i, accept, rand, next);
      SameTourTransitive(moved, current, start);
      current, best := moved, kept;
      RecordBest(bestDistances, bestDistance);
      bestDistances := bestDistances + [bestDistance];
      i := i + 1;
    }
    SameTourKeepsTour(best, start, campuses);
  }
}
