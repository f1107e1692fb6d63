/** How each operation's outcome becomes an HTTP status code. */
module Http {
  import opened PlanetStore

  datatype Operation = ListPlanets | GetPlanet | CreatePlanet | UpdatePlanet | DeletePlanet

  /** 201 for a created planet, 200 for any other success, 400 for a body
      the schema refused, 404 for an unknown id. */
  function StatusCode<T>(op: Operation, o: Outcome<T>): (code: int)
    ensures code in {200, 201, 400, 404}
    ensures code < 400 <==> o.Success?
    ensures code == 201 <==> o.Success? && op == CreatePlanet
    ensures code == 400 <==> o.ValidationError?
    ensures code == 404 <==> o.NotFound?
  {
    match o
    case Success(_) => if op == CreatePlanet then 201 else 200
    case ValidationError(_) => 400
    case NotFound => 404
  }
}
