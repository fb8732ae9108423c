/** The request pipeline of the Express server (backend/server.ts):
    the distance budget, the synthetic delivery points, the validation of a
    POST /optimize body, the assembly of the solver input and the mapping of
    the solver process's outcome to one HTTP response.

    What the code takes from its environment is a parameter here:
    `rand(k)` is the value of the k-th call of Math.random(), `cos` and `sin`
    stand for Math.cos and Math.sin, and `exec` maps the document written to
    the solver's standard input to what the finished process reports. */
module Server {
  import opened Types
  import opened Arith

  // ---------------------------------------------------------------------
  // calculateOptimalParameters
  // ---------------------------------------------------------------------

  /** Lower and upper bound of the per-vehicle distance budget, in metres. */
  const MIN_BUDGET: real := 4000.0
  const MAX_BUDGET: real := 15000.0
  /** Metres per degree, the code's flat conversion of `range`. */
  const METRES_PER_DEGREE: real := 111000.0

  /** Math.ceil(count / vehicles) on integers: the least d with
      count <= vehicles * d. */
  function DeliveriesPerVehicle(count: int, vehicles: int): (d: int)
    requires vehicles > 0
    ensures vehicles * (d - 1) < count <= vehicles * d
    ensures count >= 1 ==> d >= 1
  {
    (count + vehicles - 1) / vehicles
  }

  /** The budget before clamping: (areaRadius / vehicles) * deliveriesPerVehicle * 2. */
  function RawBudget(count: int, vehicles: int, range: real): real
    requires vehicles > 0
  {
    (range * METRES_PER_DEGREE / vehicles as real) * DeliveriesPerVehicle(count, vehicles) as real * 2.0
  }

  function Min(a: real, b: real): real { if a <= b then a else b }
  function Max(a: real, b: real): real { if a >= b then a else b }

  /** Math.max(4000, Math.min(15000, raw)): the raw budget clamped into the band. */
  function CalculateOptimalParameters(count: int, vehicles: int, range: real): (p: OptimalParameters)
    requires vehicles > 0
    ensures MIN_BUDGET <= p.maxDistancePerVehicle <= MAX_BUDGET
    ensures MIN_BUDGET <= RawBudget(count, vehicles, range) <= MAX_BUDGET ==>
              p.maxDistancePerVehicle == RawBudget(count, vehicles, range)
    ensures RawBudget(count, vehicles, range) < MIN_BUDGET ==> p.maxDistancePerVehicle == MIN_BUDGET
    ensures RawBudget(count, vehicles, range) > MAX_BUDGET ==> p.maxDistancePerVehicle == MAX_BUDGET
  {
    OptimalParameters(Max(MIN_BUDGET, Min(MAX_BUDGET, RawBudget(count, vehicles, range))))
  }

  /** When there are no more points than vehicles, each vehicle is planned
      for a single delivery. */
  lemma OneDeliveryPerVehicle(count: int, vehicles: int)
    requires 1 <= count <= vehicles
    ensures DeliveriesPerVehicle(count, vehicles) == 1
  {
    DivModUnique(count + vehicles - 1, vehicles, 1, count - 1);
  }

  /** A wider service range never gives a smaller budget. */
  lemma BudgetMonotoneInRange(count: nat, vehicles: int, r1: real, r2: real)
    requires vehicles > 0
    requires r1 <= r2
    ensures CalculateOptimalParameters(count, vehicles, r1).maxDistancePerVehicle
         <= CalculateOptimalParameters(count, vehicles, r2).maxDistancePerVehicle
  {
    var vr := vehicles as real;
    var dpv := DeliveriesPerVehicle(count, vehicles) as real;
    var k := METRES_PER_DEGREE / vr * dpv * 2.0;
    assert k >= 0.0 by {
      assert METRES_PER_DEGREE / vr > 0.0;
      assert dpv >= 0.0;
    }
    assert RawBudget(count, vehicles, r1) == r1 * k by {
      assert r1 * METRES_PER_DEGREE / vr == r1 * (METRES_PER_DEGREE / vr);
    }
    assert RawBudget(count, vehicles, r2) == r2 * k by {
      assert r2 * METRES_PER_DEGREE / vr == r2 * (METRES_PER_DEGREE / vr);
    }
    assert r1 * k <= r2 * k by {
      assert (r2 - r1) * k >= 0.0;
      assert (r2 - r1) * k == r2 * k - r1 * k;
    }
    ClampMonotone(RawBudget(count, vehicles, r1), RawBudget(count, vehicles, r2));
  }

  lemma ClampMonotone(x1: real, x2: real)
    requires x1 <= x2
    ensures Max(MIN_BUDGET, Min(MAX_BUDGET, x1)) <= Max(MIN_BUDGET, Min(MAX_BUDGET, x2))
  {
  }

  // ---------------------------------------------------------------------
  // randomCordinateGenerator
  // ---------------------------------------------------------------------

  /** Math.PI. */
  const PI: real := 3.141592653589793

  /** Angle of the i-th point: the first Math.random() of iteration i, times 2 * PI. */
  function Angle(rand: nat -> real, i: nat): real
  {
    rand(2 * i) * 2.0 * PI
  }

  /** Distance of the i-th point: the second Math.random() of iteration i, times range. */
  function Offset(rand: nat -> real, range: real, i: nat): real
  {
    rand(2 * i + 1) * range
  }

  /** The i-th delivery point: the fixed location moved by Offset along Angle,
      treating degrees as a flat plane. */
  function SampledPoint(fixedLocation: Coordinate, range: real, rand: nat -> real,
                        cos: real -> real, sin: real -> real, i: nat): Coordinate
  {
    var angle := Angle(rand, i);
    var distance := Offset(rand, range, i);
    Coordinate(fixedLocation.lat + distance * cos(angle), fixedLocation.lng + distance * sin(angle))
  }

  /** The list randomCordinateGenerator returns, as a value. */
  function Sample(count: nat, fixedLocation: Coordinate, range: real, rand: nat -> real,
                  cos: real -> real, sin: real -> real): seq<Coordinate>
  {
    [fixedLocation] + seq(count, i requires 0 <= i < count => SampledPoint(fixedLocation, range, rand, cos, sin, i))
  }

  /** Starts from [fixed_location] and pushes one point per iteration. */
  method RandomCordinateGenerator(numberOfCordinates: nat, fixedLocation: Coordinate, range: real,
                                  rand: nat -> real, cos: real -> real, sin: real -> real)
    returns (cords: seq<Coordinate>)
    ensures |cords| == numberOfCordinates + 1
    ensures cords[0] == fixedLocation
    ensures forall i :: 0 <= i < numberOfCordinates ==>
              cords[i + 1] == SampledPoint(fixedLocation, range, rand, cos, sin, i)
    ensures cords == Sample(numberOfCordinates, fixedLocation, range, rand, cos, sin)
  {
    cords := [fixedLocation];
    for i := 0 to numberOfCordinates
      invariant |cords| == i + 1
      invariant cords[0] == fixedLocation
      invariant forall k :: 0 <= k < i ==> cords[k + 1] == SampledPoint(fixedLocation, range, rand, cos, sin, k)
    {
      var angle := rand(2 * i) * 2.0 * PI;
      var distance := rand(2 * i + 1) * range;
      var lat := fixedLocation.lat + distance * cos(angle);
      var lng := fixedLocation.lng + distance * sin(angle);
      cords := cords + [Coordinate(lat, lng)];
    }
  }

  /** With Math.random() in [0, 1) and cos/sin on the unit circle, the i-th
      point lies at planar distance Offset from the fixed location, and
      0 <= Offset < range. */
  lemma SampledPointWithinRange(fixedLocation: Coordinate, range: real, rand: nat -> real,
                                cos: real -> real, sin: real -> real, i: nat)
    requires range > 0.0
    requires 0.0 <= rand(2 * i + 1) < 1.0
    requires cos(Angle(rand, i)) * cos(Angle(rand, i)) + sin(Angle(rand, i)) * sin(Angle(rand, i)) == 1.0
    ensures 0.0 <= Offset(rand, range, i) < range
    ensures var p := SampledPoint(fixedLocation, range, rand, cos, sin, i);
            var dLat, dLng := p.lat - fixedLocation.lat, p.lng - fixedLocation.lng;
            dLat * dLat + dLng * dLng == Offset(rand, range, i) * Offset(rand, range, i) < range * range
  {
    var u := rand(2 * i + 1);
    var d := Offset(rand, range, i);
    var c, s := cos(Angle(rand, i)), sin(Angle(rand, i));
    ScaledBelow(u, range);
    calc {
      (d * c) * (d * c) + (d * s) * (d * s);
      d * d * (c * c + s * s);
      d * d;
    }
    var gap := range - d;
    assert gap > 0.0;
    assert gap * d >= 0.0;
    assert gap * range > 0.0;
    assert range * range - d * d == gap * range + gap * d;
    assert d * d < range * range;
  }

  /** A fraction in [0, 1) of a positive length is in [0, length). */
  lemma ScaledBelow(u: real, length: real)
    requires length > 0.0 && 0.0 <= u < 1.0
    ensures 0.0 <= u * length < length
  {
    assert (1.0 - u) * length > 0.0;
  }

  // ---------------------------------------------------------------------
  // POST /optimize: validation
  // ---------------------------------------------------------------------

  const MISSING_PARAMETERS: string := "missing  req parameters"
  const NOT_POSITIVE: string := "Parameters must be positive numbers"

  /** JavaScript's `!x` on a number field: absent or zero. */
  predicate FalsyCount(x: Option<int>) { x.None? || x.value == 0 }
  predicate FalsyRange(x: Option<real>) { x.None? || x.value == 0.0 }

  datatype Validation =
    | Accepted(numberOfCordinates: nat, numberOfVehicles: nat, range: real)
    | Rejected(message: string)

  /** The two early returns of the handler, in order: a falsy field first,
      then a negative one. */
  function Validate(req: OptimizeRequest): (v: Validation)
    ensures (v.Rejected? && v.message == MISSING_PARAMETERS) <==>
              FalsyCount(req.numberOfCordinates) || FalsyCount(req.numberOfVehicles) || FalsyRange(req.range)
    ensures (v.Rejected? && v.message == NOT_POSITIVE) <==>
              !(FalsyCount(req.numberOfCordinates) || FalsyCount(req.numberOfVehicles) || FalsyRange(req.range)) &&
              req.numberOfCordinates.Some? && req.numberOfVehicles.Some? && req.range.Some? &&
              (req.numberOfCordinates.value < 0 || req.numberOfVehicles.value < 0 || req.range.value < 0.0)
    ensures v.Accepted? <==>
              req.numberOfCordinates.Some? && req.numberOfCordinates.value > 0 &&
              req.numberOfVehicles.Some? && req.numberOfVehicles.value > 0 &&
              req.range.Some? && req.range.value > 0.0
    ensures v.Accepted? ==>
              v.numberOfCordinates == req.numberOfCordinates.value &&
              v.numberOfVehicles == req.numberOfVehicles.value &&
              v.range == req.range.value
  {
    if FalsyCount(req.numberOfCordinates) || FalsyCount(req.numberOfVehicles) || FalsyRange(req.range) then
      Rejected(MISSING_PARAMETERS)
    else if req.numberOfCordinates.value <= 0 || req.numberOfVehicles.value <= 0 || req.range.value <= 0.0 then
      Rejected(NOT_POSITIVE)
    else
      Accepted(req.numberOfCordinates.value, req.numberOfVehicles.value, req.range.value)
  }

  // ---------------------------------------------------------------------
  // POST /optimize: the exec callback
  // ---------------------------------------------------------------------

  const ROUTE_FAILED: string := "Route optimization failed"
  const SCRIPT_ERROR: string := "Python script error"
  const PARSE_FAILED: string := "Failed to parse Python output"

  /** JSON.parse(stdout): a value of some JSON type J, or the message of the
      exception it threw. */
  datatype ParseResult<J> = Parsed(value: J) | ParseError(message: string)

  /** What the exec callback receives: the message of the error object, if
      one was passed, the parse of stdout, and the text of stderr. */
  datatype ExecOutcome<J> = ExecOutcome(error: Option<string>, stdout: ParseResult<J>, stderr: string)

  datatype Body<J> =
    | ErrorBody(error: string)
    | FailureBody(error: string, details: string)
    | JsonBody(json: J)

  datatype Response<J> = Response(status: int, body: Body<J>)

  /** The exec callback: an error wins over stderr, non-empty stderr wins over
      stdout, and only a clean, parseable run answers 200 with the parsed value. */
  function Classify<J>(o: ExecOutcome<J>): (r: Response<J>)
    ensures r.status == 200 <==> o.error.None? && o.stderr == "" && o.stdout.Parsed?
    ensures r.status == 200 ==> r.body == JsonBody(o.stdout.value)
    ensures o.error.Some? ==> r == Response(500, FailureBody(ROUTE_FAILED, o.error.value))
    ensures o.error.None? && o.stderr != "" ==> r == Response(500, FailureBody(SCRIPT_ERROR, o.stderr))
    ensures o.error.None? && o.stderr == "" && o.stdout.ParseError? ==>
              r == Response(500, FailureBody(PARSE_FAILED, o.stdout.message))
  {
    if o.error.Some? then
      Response(500, FailureBody(ROUTE_FAILED, o.error.value))
    else if o.stderr != "" then
      Response(500, FailureBody(SCRIPT_ERROR, o.stderr))
    else
      match o.stdout
      case Parsed(value) => Response(200, JsonBody(value))
      case ParseError(message) => Response(500, FailureBody(PARSE_FAILED, message))
  }

  // ---------------------------------------------------------------------
  // POST /optimize: the whole handler
  // ---------------------------------------------------------------------

  /** The location every request is planned around (the code's fixed Pune depot). */
  const FIXED_LOCATION: Coordinate := Coordinate(18.49476, 73.890154)

  /** The response sent, and the document written to the solver's standard
      input (None when no process was started). */
  datatype Handled<J> = Handled(response: Response<J>, solverInput: Option<DataModel>)

  function HandleOptimize<J>(req: OptimizeRequest, rand: nat -> real, cos: real -> real, sin: real -> real,
                             exec: DataModel -> ExecOutcome<J>): (h: Handled<J>)
    ensures h.solverInput.None? <==> Validate(req).Rejected?
    ensures Validate(req).Rejected? ==> h.response == Response(400, ErrorBody(Validate(req).message))
    ensures h.solverInput.Some? ==> h.response == Classify(exec(h.solverInput.value))
    ensures h.response.status == 200 || h.response.status == 400 || h.response.status == 500
  {
    match Validate(req)
    case Rejected(message) =>
      Handled(Response(400, ErrorBody(message)), None)
    case Accepted(count, vehicles, range) =>
      var params := CalculateOptimalParameters(count, vehicles, range);
      var points := Sample(count, FIXED_LOCATION, range, rand, cos, sin);
      var model := DataModel(points, vehicles, params.maxDistancePerVehicle);
      Handled(Classify(exec(model)), Some(model))
  }

  /** The DataModel written to the solver: the fixed location at index 0
      followed by one sampled point per requested coordinate, the vehicle
      count as given, and the clamped budget. */
  lemma AssembledDataModel<J>(req: OptimizeRequest, rand: nat -> real, cos: real -> real, sin: real -> real,
                              exec: DataModel -> ExecOutcome<J>)
    requires Validate(req).Accepted?
    ensures var h := HandleOptimize(req, rand, cos, sin, exec);
            var count := req.numberOfCordinates.value;
            h.solverInput.Some? &&
            |h.solverInput.value.coordinates| == count + 1 &&
            h.solverInput.value.coordinates[0] == FIXED_LOCATION &&
            (forall i :: 0 <= i < count ==>
               h.solverInput.value.coordinates[i + 1] == SampledPoint(FIXED_LOCATION, req.range.value, rand, cos, sin, i)) &&
            h.solverInput.value.numberOfVehicles == req.numberOfVehicles.value &&
            h.solverInput.value.maxDistancePerVehicle ==
              CalculateOptimalParameters(count, req.numberOfVehicles.value, req.range.value).maxDistancePerVehicle &&
            MIN_BUDGET <= h.solverInput.value.maxDistancePerVehicle <= MAX_BUDGET
  {
  }

  /** The request's depot field has no effect on anything the handler does. */
  lemma DepotIgnored<J>(req: OptimizeRequest, depot: Option<Coordinate>, rand: nat -> real,
                        cos: real -> real, sin: real -> real, exec: DataModel -> ExecOutcome<J>)
    ensures HandleOptimize(req.(depot := depot), rand, cos, sin, exec) == HandleOptimize(req, rand, cos, sin, exec)
  {
  }
}
