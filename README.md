# Multi-vehicle routing backend, modelled in Dafny

This project models the two backend components of a delivery-routing service.

- **The Express server** (`backend/server.ts`). It handles `POST /optimize` with a body `{numberOfCordinates, numberOfVehicles, range}`. It validates the body and derives a per-vehicle distance budget clamped to `[4000, 15000]` metres. It synthesises `numberOfCordinates` delivery points at random around a fixed depot, with the depot at index 0. It writes the resulting `DataModel` to a Python solver process and turns the process's outcome into exactly one HTTP response.
- **The solver script** (`backend/route_solver.py`). It builds the n×n truncated distance matrix and the routing data model, and it asks the OR-Tools library for routes. When the library finds none, it falls back to dealing the deliveries out round-robin. Each vehicle starts from `[0, 0]`, and every delivery is inserted just before the closing depot.

Files:

- `types.dfy` (module `Types`): the shapes of `backend/types.ts`.
- `server.dfy` (module `Server`): `calculateOptimalParameters`, `randomCordinateGenerator`, the validation, the result classification and the whole handler.
- `route_solver.dfy` (module `RouteSolver`): `computeDistanceMatrix`, `createDataModel`, the fallback of `solvingVRP`, the script's main block, and the properties of the fallback distribution.

Modelling choices:

- The outside world enters as parameters.
  - `rand(k)` is the value of the k-th `Math.random()` call. Iteration `i` of the generator uses `rand(2i)` for the angle and `rand(2i+1)` for the distance, in the order the code calls them.
  - `cos` and `sin` stand for `Math.cos` and `Math.sin`.
  - `dist` stands for `haversine`.
  - `exec` maps the `DataModel` written to the solver's stdin to what the exec callback receives. That is the error message (if any), the result of `JSON.parse(stdout)` and the stderr text.
  - `solution` is the route list the routing library produced, or `None` when it found no solution.
- JavaScript numbers: counts are `int`; degrees, ranges and budgets are `real`.
- `Math.ceil(count / vehicles)` is integer ceiling division. It is specified as the least `d` with `count <= vehicles * d`.
- Python's `int()` on a float is truncation toward zero (`Trunc`).
- The handler returns the response together with the document it handed to the solver. That document is `None` exactly when no process was started.

Where the design of the service and the code differ, the model follows the code:

- The optional `depot` field of the request (`backend/types.ts:10-13`) is never read. Every request is planned around the fixed location at `backend/server.ts:79-82`. `DepotIgnored` proves that this field has no effect.
- Any non-empty stderr is fatal, even when stdout parses. `Classify` states this.
- A field equal to zero is falsy. It is therefore reported as `missing  req parameters` (the code's message, two spaces included), not as non-positive. Only negative values reach the `Parameters must be positive numbers` check.
- The code imposes no timeout on the solver process and does not distinguish a non-zero exit from a failure to spawn. Both arrive as the error argument of the exec callback.

## Model

| member | source | states |
|---|---|---|
| `Server.DeliveriesPerVehicle` | backend/server.ts:23 | the ceiling of count/vehicles: `vehicles*(d-1) < count <= vehicles*d`, and at least 1 when there is a point |
| `Server.CalculateOptimalParameters` | backend/server.ts:18-32 | the budget is always within `[4000, 15000]`; it equals `(range*111000/vehicles)*ceil(count/vehicles)*2` when that lies in the band, else the nearer bound |
| `Server.OneDeliveryPerVehicle` | backend/server.ts:23 | with no more points than vehicles, each vehicle is planned one delivery |
| `Server.BudgetMonotoneInRange` | backend/server.ts:22-29 | a larger range never yields a smaller budget |
| `Server.RandomCordinateGenerator` | backend/server.ts:35-52 | returns `count + 1` points; point 0 is the fixed location unchanged; point `i+1` is the fixed location displaced by the `i`-th draw, in loop order, without deduplication |
| `Server.SampledPointWithinRange` | backend/server.ts:44-48 | with draws in `[0,1)` and cos/sin on the unit circle, the offset is in `[0, range)` and the point's planar distance from the depot is exactly that offset |
| `Server.Validate` | backend/server.ts:62-75 | any absent or zero field gives "missing  req parameters"; otherwise any negative field gives "Parameters must be positive numbers"; it accepts exactly when all three are present and positive, with the values unchanged |
| `Server.Classify` | backend/server.ts:98-122 | an exec error gives 500 "Route optimization failed"; otherwise non-empty stderr gives 500 "Python script error" whatever stdout holds; otherwise unparseable stdout gives 500 "Failed to parse Python output"; 200 exactly when none of these apply, with the parsed value as the body, verbatim |
| `Server.HandleOptimize` | backend/server.ts:61-127 | a rejected request answers 400 with the validation message and starts no solver; an accepted one answers with the classification of the solver's outcome on the assembled model; the status is always 200, 400 or 500 |
| `Server.AssembledDataModel` | backend/server.ts:85-94 | the solver input holds `count + 1` coordinates, the fixed location first and then the sampled points; it passes the vehicle count and the clamped budget through unchanged |
| `Server.DepotIgnored` | backend/server.ts:62-82 | changing the request's `depot` field changes neither the response nor the solver input |
| `RouteSolver.Trunc` | backend/route_solver.py:38 | `int()` rounds toward zero: within 1 of its argument, never farther from zero |
| `RouteSolver.ComputeDistanceMatrix` | backend/route_solver.py:27-40 | `len(coords)` rows of `len(coords)` entries each; entry `[i][j]` is the truncated distance from `coords[i]` to `coords[j]` |
| `RouteSolver.DistanceMatrixSymmetric` | backend/route_solver.py:30-40 | a symmetric distance gives a symmetric matrix |
| `RouteSolver.CreateDataModel` | backend/route_solver.py:43-49 | depot 0, the vehicle count unchanged, and the distance matrix of the coordinates |
| `RouteSolver.InsertBeforeLast` | backend/route_solver.py:122 | `insert(-1, x)` puts `x` just before the last element and keeps the rest in place |
| `RouteSolver.FallbackRoutes` | backend/route_solver.py:113-122 | exactly `numberOfVehicles` routes; route `v` is the depot, then the deliveries sent to `v` in increasing order, then the depot |
| `RouteSolver.SolvingVRP` | backend/route_solver.py:101-124 | the library's routes when it found a solution, the equal distribution otherwise |
| `RouteSolver.SolverMain` | backend/route_solver.py:128-148 | the printed document echoes the input coordinates unchanged, beside the routes |
| `RouteSolver.AssignedElements` | backend/route_solver.py:116-122 | a vehicle receives only deliveries in `1..len(coords)-1` whose enumeration index is its id modulo the vehicle count, in strictly increasing order |
| `RouteSolver.AssignedComplete` | backend/route_solver.py:116-118 | every delivery `d` is received by vehicle `(d-1) % numberOfVehicles` |
| `RouteSolver.AssignedCount` | backend/route_solver.py:117-118 | vehicle `v` receives `m / V` deliveries, plus one when `v < m % V` |
| `RouteSolver.AssignedTotalAll` | backend/route_solver.py:116-122 | the deliveries received by all vehicles together number exactly `m` |
| `RouteSolver.RouteShape` | backend/route_solver.py:115-122 | every route starts and ends with depot 0, holds no 0 in between, and visits only indices `1..n-1`, strictly increasing |
| `RouteSolver.DeliveryVehicle` | backend/route_solver.py:117-122 | delivery `d` is in route `v` if and only if `v == (d-1) % numberOfVehicles` |
| `RouteSolver.DeliveredExactlyOnce` | backend/route_solver.py:116-122 | delivery `d` occurs once in the route of vehicle `(d-1) % numberOfVehicles` and zero times in every other |
| `RouteSolver.RouteLength` | backend/route_solver.py:115-122 | a route's length is 2 plus its vehicle's share `m / V` (+1 below the remainder) |
| `RouteSolver.Balanced` | backend/route_solver.py:114-122 | any two routes differ in length by at most one, and lower vehicle ids are never shorter |
| `RouteSolver.IdleVehicle` | backend/route_solver.py:115-120 | a vehicle whose id is at least the number of deliveries keeps `[0, 0]` |
| `RouteSolver.AllDeliveriesPlaced` | backend/route_solver.py:116-122 | the route lengths minus the two depot visits add up to the number of deliveries |

## Left out

- Express setup, `cors`, `app.listen`, and `console.error` logging (`backend/server.ts:1-14`, `99`, `106`, `129-131`). These are framework and I/O plumbing.
- Spawning the solver with `exec` and writing and closing its stdin (`backend/server.ts:97`, `124-125`). Their combined effect is the `exec` parameter, applied to the `DataModel` the handler built.
- `JSON.parse`, `JSON.stringify`, `json.load` and `json.dumps`. These are library calls. Parsing is an input of the outcome: a value of an abstract JSON type, or an error message. No shape check is modelled, because `JSON.parse` does none.
- `Classify`: when the thrown value is not an `Error`, the code uses the message `Unknown error`. This is not modelled, because `JSON.parse` always throws a `SyntaxError`.
- The OR-Tools model, the search and the route extraction (`backend/route_solver.py:59-112`). This includes the vehicle penalty computed from `avgDistance` (`79-81`) and the distance dimension guarded by `maxDistancePerVehicle` (`89-93`). They are a foreign library; its result enters `SolvingVRP` as `solution`.
- `haversine` (`backend/route_solver.py:18-25`), `Math.random`, `Math.cos`, `Math.sin` and `Math.PI` beyond its decimal value. These are floating point and trigonometry, passed in as parameters.
- `dataExtraction` (`backend/route_solver.py:9-15`): reading stdin.
- JavaScript number semantics: rounding, `NaN`, `Infinity`, non-integer counts, and non-numeric JSON values in the request. The arithmetic is exact over `int` and `real`.
- `SampledPointWithinRange`: states the distance bound exactly and assumes `cos² + sin² = 1` at the drawn angle. It does not bound floating-point error.
- `FallbackRoutes` (and `SolvingVRP`, `SolverMain`): requires `numberOfVehicles > 0`. With zero vehicles and some deliveries the script raises `ZeroDivisionError` on `i % 0`. With a negative count it indexes an empty list. The server only sends positive counts, so neither case is modelled.
- `FallbackRoutes`: the routes are a sequence of values. The in-place `insert` on a route is a replacement of that element. This loses nothing, because the comprehension creates a distinct list per vehicle and nothing else refers to them.
- The browser UI and the forwarding proxy under `frontend/`. These are rendering and network I/O.
