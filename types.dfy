/** Shapes shared by the HTTP server and the solver script (backend/types.ts).
    JavaScript numbers become `int` where the code uses them as counts or
    indices and `real` where they are geographic degrees or metres. */
module Types {

  datatype Option<+T> = None | Some(value: T)

  /** A point in geographic degrees; no range check is ever made on it. */
  datatype Coordinate = Coordinate(lat: real, lng: real)

  /** The body of a POST /optimize request. Every field may be absent in the
      JSON the client sends, so each is optional here. */
  datatype OptimizeRequest = OptimizeRequest(
    numberOfCordinates: Option<int>,
    numberOfVehicles: Option<int>,
    range: Option<real>,
    depot: Option<Coordinate>)

  datatype OptimalParameters = OptimalParameters(maxDistancePerVehicle: real)

  /** The document written to the solver's standard input. */
  datatype DataModel = DataModel(
    coordinates: seq<Coordinate>,
    numberOfVehicles: int,
    maxDistancePerVehicle: real)

  /** The document the solver prints on standard output. */
  datatype RouteResponse = RouteResponse(
    routes: seq<seq<int>>,
    coordinates: seq<Coordinate>)
}
