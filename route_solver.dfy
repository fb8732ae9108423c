/** The data shaping of the solver script (backend/route_solver.py): the
    distance matrix, the routing data model, and the round-robin routes it
    falls back to when the routing library finds no solution.

    The great-circle distance is the parameter `dist`; what the routing
    library returns is the parameter `solution` (None when it found none). */
module RouteSolver {
  import opened Types
  import opened Arith

  // ---------------------------------------------------------------------
  // computeDistanceMatrix and createDataModel
  // ---------------------------------------------------------------------

  /** Python's int() on a float: truncation toward zero. */
  function Trunc(x: real): (r: int)
    ensures x >= 0.0 ==> r as real <= x < r as real + 1.0
    ensures x < 0.0 ==> r as real - 1.0 < x <= r as real
  {
    if x >= 0.0 then x.Floor else -((-x).Floor)
  }

  /** Row i, column j: the truncated distance from coords[i] to coords[j]. */
  function DistanceMatrix(coords: seq<Coordinate>, dist: (Coordinate, Coordinate) -> real): seq<seq<int>>
  {
    seq(|coords|, i requires 0 <= i < |coords| =>
      seq(|coords|, j requires 0 <= j < |coords| => Trunc(dist(coords[i], coords[j]))))
  }

  /** The two nested loops: one row per from-node, one entry per to-node. */
  method ComputeDistanceMatrix(coords: seq<Coordinate>, dist: (Coordinate, Coordinate) -> real)
    returns (distanceMatrix: seq<seq<int>>)
    ensures |distanceMatrix| == |coords|
    ensures forall i :: 0 <= i < |coords| ==> |distanceMatrix[i]| == |coords|
    ensures forall i, j :: 0 <= i < |coords| && 0 <= j < |coords| ==>
              distanceMatrix[i][j] == Trunc(dist(coords[i], coords[j]))
    ensures distanceMatrix == DistanceMatrix(coords, dist)
  {
    distanceMatrix := [];
    for i := 0 to |coords|
      invariant |distanceMatrix| == i
      invariant forall k :: 0 <= k < i ==> distanceMatrix[k] == DistanceMatrix(coords, dist)[k]
    {
      var fromNode := coords[i];
      var row: seq<int> := [];
      for j := 0 to |coords|
        invariant |row| == j
        invariant forall k :: 0 <= k < j ==> row[k] == Trunc(dist(fromNode, coords[k]))
      {
        var toNode := coords[j];
        var distanceBtwNodes := dist(fromNode, toNode);
        row := row + [Trunc(distanceBtwNodes)];
      }
      distanceMatrix := distanceMatrix + [row];
    }
  }

  /** With a symmetric distance, the matrix is symmetric. */
  lemma DistanceMatrixSymmetric(coords: seq<Coordinate>, dist: (Coordinate, Coordinate) -> real)
    requires forall a, b :: dist(a, b) == dist(b, a)
    ensures forall i, j :: 0 <= i < |coords| && 0 <= j < |coords| ==>
              DistanceMatrix(coords, dist)[i][j] == DistanceMatrix(coords, dist)[j][i]
  {
  }

  /** The dictionary handed to the routing library. */
  datatype RoutingData = RoutingData(distanceMatrix: seq<seq<int>>, numVehicles: int, depot: nat)

  /** The depot is index 0 and the vehicle count is passed through. */
  function CreateDataModel(coords: seq<Coordinate>, numberOfVehicles: int,
                           dist: (Coordinate, Coordinate) -> real): (data: RoutingData)
    ensures data.depot == 0
    ensures data.numVehicles == numberOfVehicles
    ensures |data.distanceMatrix| == |coords|
    ensures data.distanceMatrix == DistanceMatrix(coords, dist)
  {
    RoutingData(DistanceMatrix(coords, dist), numberOfVehicles, 0)
  }

  // ---------------------------------------------------------------------
  // The fallback of solvingVRP: equal distribution
  // ---------------------------------------------------------------------

  /** len(range(1, n)): the number of deliveries among n coordinates. */
  function DeliveryCount(n: nat): nat
  {
    if n == 0 then 0 else n - 1
  }

  /** The deliveries among 1..m, in increasing order, that go to vehicle v:
      delivery d is the (d-1)-th of the enumeration, so it goes to (d-1) % vehicles. */
  function Assigned(m: nat, vehicles: int, v: int): seq<int>
    requires vehicles > 0
  {
    if m == 0 then []
    else Assigned(m - 1, vehicles, v) + (if (m - 1) % vehicles == v then [m] else [])
  }

  /** The fallback route of vehicle v when there are n coordinates. */
  function FallbackRoute(n: nat, vehicles: int, v: int): seq<int>
    requires vehicles > 0
  {
    [0] + Assigned(DeliveryCount(n), vehicles, v) + [0]
  }

  /** list.insert(-1, x) on a non-empty list: x goes just before the last element. */
  function InsertBeforeLast(s: seq<int>, x: int): (r: seq<int>)
    requires |s| >= 1
    ensures |r| == |s| + 1 && r[|s| - 1] == x && r[|s|] == s[|s| - 1] && r[..|s| - 1] == s[..|s| - 1]
  {
    s[..|s| - 1] + [x] + [s[|s| - 1]]
  }

  /** The else branch of solvingVRP: every vehicle starts as [0, 0], then the
      deliveries are dealt out round-robin, each inserted before the closing depot. */
  method FallbackRoutes(coords: seq<Coordinate>, numberOfVehicles: int) returns (routes: seq<seq<int>>)
    requires numberOfVehicles > 0
    ensures |routes| == numberOfVehicles
    ensures forall v :: 0 <= v < numberOfVehicles ==> routes[v] == FallbackRoute(|coords|, numberOfVehicles, v)
  {
    routes := seq(numberOfVehicles, _ => [0, 0]);
    var deliveries := seq(DeliveryCount(|coords|), k => k + 1);
    for i := 0 to |deliveries|
      invariant |routes| == numberOfVehicles
      invariant forall v :: 0 <= v < numberOfVehicles ==> routes[v] == [0] + Assigned(i, numberOfVehicles, v) + [0]
    {
      var delivery := deliveries[i];
      var vehicleId := i % numberOfVehicles;
      if |routes[vehicleId]| == 2 {
        routes := routes[vehicleId := [0, delivery, 0]];
      } else {
        routes := routes[vehicleId := InsertBeforeLast(routes[vehicleId], delivery)];
      }
    }
  }

  /** solvingVRP: the routing library's routes when it found a solution,
      the equal distribution otherwise. */
  method SolvingVRP(coords: seq<Coordinate>, numberOfVehicles: int, solution: Option<seq<seq<int>>>)
    returns (routes: seq<seq<int>>)
    requires numberOfVehicles > 0
    ensures solution.Some? ==> routes == solution.value
    ensures solution.None? ==>
              |routes| == numberOfVehicles &&
              forall v :: 0 <= v < numberOfVehicles ==> routes[v] == FallbackRoute(|coords|, numberOfVehicles, v)
  {
    if solution.Some? {
      routes := solution.value;
    } else {
      routes := FallbackRoutes(coords, numberOfVehicles);
    }
  }

  /** The script's main block: the routes together with the coordinates it read, echoed unchanged. */
  method SolverMain(input: DataModel, solution: Option<seq<seq<int>>>) returns (output: RouteResponse)
    requires input.numberOfVehicles > 0
    ensures output.coordinates == input.coordinates
    ensures solution.Some? ==> output.routes == solution.value
    ensures solution.None? ==>
              |output.routes| == input.numberOfVehicles &&
              forall v :: 0 <= v < input.numberOfVehicles ==>
                output.routes[v] == FallbackRoute(|input.coordinates|, input.numberOfVehicles, v)
  {
    var routes := SolvingVRP(input.coordinates, input.numberOfVehicles, solution);
    output := RouteResponse(routes, input.coordinates);
  }

  // ---------------------------------------------------------------------
  // Properties of the equal distribution
  // ---------------------------------------------------------------------

  predicate StrictlyIncreasing(s: seq<int>)
  {
    forall j, k :: 0 <= j < k < |s| ==> s[j] < s[k]
  }

  /** Vehicle v gets only deliveries in 1..m whose enumeration index is v
      modulo the vehicle count, in strictly increasing order. */
  lemma {:induction false} AssignedElements(m: nat, vehicles: int, v: int)
    requires vehicles > 0
    ensures forall j :: 0 <= j < |Assigned(m, vehicles, v)| ==>
              1 <= Assigned(m, vehicles, v)[j] <= m && (Assigned(m, vehicles, v)[j] - 1) % vehicles == v
    ensures StrictlyIncreasing(Assigned(m, vehicles, v))
  {
    if m > 0 {
      AssignedElements(m - 1, vehicles, v);
    }
  }

  /** Every delivery d in 1..m is among those of vehicle (d-1) % vehicles. */
  lemma {:induction false} AssignedComplete(m: nat, vehicles: int, d: int)
    requires vehicles > 0
    requires 1 <= d <= m
    ensures d in Assigned(m, vehicles, (d - 1) % vehicles)
  {
    if d < m {
      AssignedComplete(m - 1, vehicles, d);
    }
  }

  /** Vehicle v gets m / vehicles deliveries, plus one when v is below the remainder. */
  lemma {:induction false} AssignedCount(m: nat, vehicles: int, v: int)
    requires 0 <= v < vehicles
    ensures |Assigned(m, vehicles, v)| == m / vehicles + (if v < m % vehicles then 1 else 0)
  {
    if m > 0 {
      AssignedCount(m - 1, vehicles, v);
      DivModStep(m - 1, vehicles);
    }
  }

  /** Deliveries handed to vehicles 0..k-1. */
  function AssignedTotal(m: nat, vehicles: int, k: nat): nat
    requires vehicles > 0
  {
    if k == 0 then 0 else AssignedTotal(m, vehicles, k - 1) + |Assigned(m, vehicles, k - 1)|
  }

  lemma {:induction false} AssignedTotalStep(m: nat, vehicles: int, k: nat)
    requires 0 < vehicles
    ensures AssignedTotal(m + 1, vehicles, k) == AssignedTotal(m, vehicles, k) + (if m % vehicles < k then 1 else 0)
  {
    if k > 0 {
      AssignedTotalStep(m, vehicles, k - 1);
    }
  }

  /** All m deliveries are handed out: the counts over all vehicles add up to m. */
  lemma {:induction false} AssignedTotalAll(m: nat, vehicles: int)
    requires vehicles > 0
    ensures AssignedTotal(m, vehicles, vehicles) == m
  {
    if m > 0 {
      AssignedTotalAll(m - 1, vehicles);
      AssignedTotalStep(m - 1, vehicles, vehicles);
    } else {
      AssignedTotalZero(vehicles, vehicles);
    }
  }

  lemma {:induction false} AssignedTotalZero(vehicles: int, k: nat)
    requires vehicles > 0
    ensures AssignedTotal(0, vehicles, k) == 0
  {
    if k > 0 {
      AssignedTotalZero(vehicles, k - 1);
    }
  }

  /** In a strictly increasing sequence nothing occurs twice. */
  lemma {:induction false} IncreasingOccursOnce(s: seq<int>, x: int)
    requires StrictlyIncreasing(s)
    ensures multiset(s)[x] == if x in s then 1 else 0
  {
    if s != [] {
      assert s == [s[0]] + s[1..];
      assert StrictlyIncreasing(s[1..]);
      IncreasingOccursOnce(s[1..], x);
      if x == s[0] {
        assert x !in s[1..];
      }
    }
  }

  /** Every fallback route opens and closes at the depot, visits the depot
      nowhere else, and visits only delivery indices 1..n-1, in increasing order. */
  lemma RouteShape(n: nat, vehicles: int, v: int)
    requires vehicles > 0
    ensures var r := FallbackRoute(n, vehicles, v);
            |r| >= 2 && r[0] == 0 && r[|r| - 1] == 0 &&
            (forall j :: 0 < j < |r| - 1 ==> 1 <= r[j] < n) &&
            (forall j, k :: 0 < j < k < |r| - 1 ==> r[j] < r[k])
  {
    var a := Assigned(DeliveryCount(n), vehicles, v);
    AssignedElements(DeliveryCount(n), vehicles, v);
    var r := FallbackRoute(n, vehicles, v);
    assert forall j :: 0 < j < |r| - 1 ==> r[j] == a[j - 1];
  }

  /** Delivery d rides with vehicle (d-1) % vehicles and with no other. */
  lemma DeliveryVehicle(n: nat, vehicles: int, d: int, v: int)
    requires 0 <= v < vehicles
    requires 1 <= d < n
    ensures d in FallbackRoute(n, vehicles, v) <==> v == (d - 1) % vehicles
  {
    var m := DeliveryCount(n);
    AssignedElements(m, vehicles, v);
    AssignedComplete(m, vehicles, d);
    var a := Assigned(m, vehicles, v);
    assert d in FallbackRoute(n, vehicles, v) <==> d in a;
  }

  /** Across all routes, delivery d is visited exactly once: once in the route
      of vehicle (d-1) % vehicles, zero times in every other. */
  lemma DeliveredExactlyOnce(n: nat, vehicles: int, d: int, v: int)
    requires 0 <= v < vehicles
    requires 1 <= d < n
    ensures multiset(FallbackRoute(n, vehicles, v))[d] == if v == (d - 1) % vehicles then 1 else 0
  {
    var a := Assigned(DeliveryCount(n), vehicles, v);
    AssignedElements(DeliveryCount(n), vehicles, v);
    IncreasingOccursOnce(a, d);
    DeliveryVehicle(n, vehicles, d, v);
    assert multiset(FallbackRoute(n, vehicles, v)) == multiset{0} + multiset(a) + multiset{0};
  }

  /** A route holds the depot twice plus its share of the deliveries, and
      shares differ by at most one, the lower vehicle ids taking the extra ones. */
  lemma RouteLength(n: nat, vehicles: int, v: int)
    requires 0 <= v < vehicles
    ensures |FallbackRoute(n, vehicles, v)| ==
              2 + DeliveryCount(n) / vehicles + (if v < DeliveryCount(n) % vehicles then 1 else 0)
  {
    AssignedCount(DeliveryCount(n), vehicles, v);
  }

  /** Equal distribution: any two routes differ in length by at most one. */
  lemma Balanced(n: nat, vehicles: int, v: int, w: int)
    requires 0 <= v < vehicles && 0 <= w < vehicles
    ensures -1 <= |FallbackRoute(n, vehicles, v)| - |FallbackRoute(n, vehicles, w)| <= 1
    ensures v < w ==> |FallbackRoute(n, vehicles, v)| >= |FallbackRoute(n, vehicles, w)|
  {
    RouteLength(n, vehicles, v);
    RouteLength(n, vehicles, w);
  }

  /** A vehicle whose id is at least the number of deliveries gets none and keeps [0, 0]. */
  lemma IdleVehicle(n: nat, vehicles: int, v: int)
    requires 0 <= v < vehicles
    requires DeliveryCount(n) <= v
    ensures FallbackRoute(n, vehicles, v) == [0, 0]
  {
    var m := DeliveryCount(n);
    AssignedCount(m, vehicles, v);
    DivModUnique(m, vehicles, 0, m);
  }

  /** What the deliveries add to all the routes together is exactly the
      number of deliveries. */
  lemma AllDeliveriesPlaced(n: nat, vehicles: int)
    requires vehicles > 0
    ensures AssignedTotal(DeliveryCount(n), vehicles, vehicles) == DeliveryCount(n)
    ensures forall v :: 0 <= v < vehicles ==>
              |FallbackRoute(n, vehicles, v)| == 2 + |Assigned(DeliveryCount(n), vehicles, v)|
  {
    AssignedTotalAll(DeliveryCount(n), vehicles);
  }
}
