/**
 * The protected endpoints: each runs the API-key gate first and only then
 * touches the database. Routing, JSON rendering and CORS are not modelled;
 * a `Response` stands for the status code and the body the handler returns.
 */
module Api {
  import opened Wrappers
  import opened JsonValues
  import opened Auth
  import opened Reports
  import opened GeoJson
  import opened Store

  datatype Response =
    | Unauthorized(denied: AuthError)                 // 401
    | DamageTypes(damageTypes: seq<DamageType>)       // 200, GET /api/v1/damage/types; key damage_types
    | Created(receipt: Receipt)                       // 201, POST /api/v1/damage/submit
    | Refused(failure: SubmitError)                    // 400 or 500, POST /api/v1/damage/submit
    | Details(report: Report)                         // 200, GET /api/v1/damage/<id>
    | NotFound                                        // 404, GET /api/v1/damage/<id>
    | Listing(damages: seq<Report>, total: nat)       // 200, GET /api/v1/damage/list; keys damages, total
    | Map(collection: FeatureCollection)              // 200, GET /api/v1/damage/map-data
  {
    function Status(): nat {
      match this
      case Unauthorized(_) => 401
      case Created(_) => 201
      case Refused(e) => e.Status()
      case NotFound => 404
      case _ => 200
    }

    /** The `error` field of an error response. */
    function Error(): string
      requires Unauthorized? || Refused? || NotFound?
    {
      match this
      case Unauthorized(e) => e.Title()
      case Refused(e) => e.Title()
      case NotFound => "Schadensmeldung nicht gefunden"
    }
  }

  /** GET /api/v1/damage/types: the whole catalog, to an authenticated caller. */
  method GetDamageTypes(db: Database, apiKey: Option<string>) returns (resp: Response)
    ensures resp.Status() == 401 <==> Authenticate(db.apiKeys, apiKey).Err?
    ensures Authenticate(db.apiKeys, apiKey).Err? ==> resp == Unauthorized(Authenticate(db.apiKeys, apiKey).error)
    ensures Authenticate(db.apiKeys, apiKey).Ok? ==> resp == DamageTypes(db.damageTypes)
  {
    var caller := Authenticate(db.apiKeys, apiKey);
    if caller.Err? {
      return Unauthorized(caller.error);
    }
    resp := DamageTypes(db.damageTypes);
  }

  /**
   * POST /api/v1/damage/submit. A rejected key answers 401 before the
   * database is touched; otherwise the submission is made on behalf of the
   * key's account: 201 with the new id, or 400/500 with the database unchanged.
   */
  method SubmitDamage(db: Database, apiKey: Option<string>, body: Body, toFloat: Json -> Option<real>, now: string)
    returns (resp: Response)
    requires db.Valid()
    modifies db
    ensures db.Valid()
    ensures Authenticate(db.apiKeys, apiKey).Err? ==>
      resp == Unauthorized(Authenticate(db.apiKeys, apiKey).error) &&
      db.reports == old(db.reports) && db.nextId == old(db.nextId)
    ensures Authenticate(db.apiKeys, apiKey).Ok? ==>
      (resp.Created? <==> ParseSubmission(body, toFloat).Ok?)
    ensures Authenticate(db.apiKeys, apiKey).Ok? && resp.Created? ==>
      var caller := Authenticate(db.apiKeys, apiKey).value;
      var d := ParseSubmission(body, toFloat).value;
      && resp == Created(Receipt(old(db.nextId), now))
      && db.nextId == old(db.nextId) + 1
      && db.reports == old(db.reports) + [Report(old(db.nextId), d.damageType, d.description,
                                                 d.latitude, d.longitude, PhotoPlaceholder,
                                                 caller.userId, caller.organisation,
                                                 NewStatus, now, d.extra)]
      && db.Find(old(db.nextId)) == Some(db.reports[|db.reports| - 1])
    ensures Authenticate(db.apiKeys, apiKey).Ok? && !resp.Created? ==>
      && resp == Refused(ParseSubmission(body, toFloat).error)
      && db.reports == old(db.reports) && db.nextId == old(db.nextId)
    ensures resp.Status() == 201 <==> resp.Created?
  {
    var caller := Authenticate(db.apiKeys, apiKey);
    if caller.Err? {
      return Unauthorized(caller.error);
    }
    var outcome := db.Submit(caller.value, body, toFloat, now);
    match outcome
    case Ok(receipt) =>
      resp := Created(receipt);
    case Err(e) =>
      resp := Refused(e);
      assert e.Status() == 400 || e.Status() == 500;
  }

  /** GET /api/v1/damage/<id>: the report issued that id, or 404. */
  method GetDamageDetails(db: Database, apiKey: Option<string>, id: nat) returns (resp: Response)
    requires db.Valid()
    ensures Authenticate(db.apiKeys, apiKey).Err? ==> resp == Unauthorized(Authenticate(db.apiKeys, apiKey).error)
    ensures Authenticate(db.apiKeys, apiKey).Ok? ==>
      if 1 <= id < db.nextId then resp == Details(db.reports[id - 1]) && resp.report.id == id
      else resp == NotFound && resp.Status() == 404
  {
    var caller := Authenticate(db.apiKeys, apiKey);
    if caller.Err? {
      return Unauthorized(caller.error);
    }
    var found := db.Find(id);
    match found
    case Some(report) => resp := Details(report);
    case None => resp := NotFound;
  }

  /** GET /api/v1/damage/list: every report in submission order, and how many there are. */
  method ListDamages(db: Database, apiKey: Option<string>) returns (resp: Response)
    requires db.Valid()
    ensures Authenticate(db.apiKeys, apiKey).Err? ==> resp == Unauthorized(Authenticate(db.apiKeys, apiKey).error)
    ensures Authenticate(db.apiKeys, apiKey).Ok? ==>
      resp == Listing(db.reports, |db.reports|) && resp.total == db.nextId - 1
  {
    var caller := Authenticate(db.apiKeys, apiKey);
    if caller.Err? {
      return Unauthorized(caller.error);
    }
    var damages, total := db.List();
    resp := Listing(damages, total);
  }

  /** GET /api/v1/damage/map-data: the FeatureCollection of all reports. */
  method GetMapData(db: Database, apiKey: Option<string>) returns (resp: Response)
    ensures Authenticate(db.apiKeys, apiKey).Err? ==> resp == Unauthorized(Authenticate(db.apiKeys, apiKey).error)
    ensures Authenticate(db.apiKeys, apiKey).Ok? ==>
      resp.Map? && |resp.collection.features| == |db.reports| &&
      forall i :: 0 <= i < |db.reports| ==> resp.collection.features[i] == ToFeature(db.reports[i])
  {
    var caller := Authenticate(db.apiKeys, apiKey);
    if caller.Err? {
      return Unauthorized(caller.error);
    }
    var fc := db.MapData();
    resp := Map(fc);
  }

  /** An example payload: a pothole in Zurich. */
  const PotholeBody := Object(map[
    "damage_type" := JString("Schlagloch"), "description" := JString("test"),
    "latitude" := JNumber(47.37), "longitude" := JNumber(8.54)])

  /** The pothole payload passes validation whenever numbers convert to themselves. */
  lemma PotholeAccepted(toFloat: Json -> Option<real>)
    requires forall x :: toFloat(JNumber(x)) == Some(x)
    ensures ParseSubmission(PotholeBody, toFloat)
         == Ok(Draft(JString("Schlagloch"), JString("test"), 47.37, 8.54, EmptyObject))
  {
    var m := PotholeBody.members;
    assert Complete(m);
    assert toFloat(m["latitude"]) == Some(47.37) && toFloat(m["longitude"]) == Some(8.54);
  }

  /**
   * A fresh database and the seeded key: the first submission gets id 1 and
   * a fetch returns it with status "neu", the second gets id 2, and the map
   * shows the first report at [8.54, 47.37].
   */
  method FirstSubmissions(toFloat: Json -> Option<real>, now: string)
    requires forall x :: toFloat(JNumber(x)) == Some(x)
  {
    var db := new Database();
    PotholeAccepted(toFloat);
    SeedCredentials("");

    var first := SubmitDamage(db, Some(SeedKey), PotholeBody, toFloat, now);
    assert first == Created(Receipt(1, now));
    var fetched := GetDamageDetails(db, Some(SeedKey), 1);
    assert fetched.Details? && fetched.report.status == "neu";
    assert fetched.report.damageType == JString("Schlagloch");

    var second := SubmitDamage(db, Some(SeedKey), PotholeBody, toFloat, now);
    assert second == Created(Receipt(2, now));

    var shown := GetMapData(db, Some(SeedKey));
    assert shown.collection.features[0].geometry.coordinates == [8.54, 47.37];
  }

  /** Without a key, with a wrong key, or with a latitude of 44.9, nothing is stored. */
  method RefusedSubmissions(toFloat: Json -> Option<real>, now: string)
    requires forall x :: toFloat(JNumber(x)) == Some(x)
  {
    var db := new Database();
    SeedCredentials("wrong");

    var denied := SubmitDamage(db, None, PotholeBody, toFloat, now);
    assert denied == Unauthorized(MissingKey) && db.reports == [];
    assert denied.Error() == "API-Key fehlt" && denied.denied.Message() == "Bitte X-API-Key im Header mitschicken";
    denied := SubmitDamage(db, Some("wrong"), PotholeBody, toFloat, now);
    assert denied == Unauthorized(InvalidKey) && db.reports == [];
    assert denied.Error() == "Ungültiger API-Key" && denied.denied.Message() == "API-Key nicht gefunden";

    var outside := Object(PotholeBody.members["latitude" := JNumber(44.9)]);
    assert Complete(outside.members) && toFloat(outside.members["latitude"]) == Some(44.9);
    var refused := SubmitDamage(db, Some(SeedKey), outside, toFloat, now);
    assert refused == Refused(InvalidCoordinates("Latitude außerhalb Schweiz")) && refused.Status() == 400;
    assert refused.Error() == "Ungültige Koordinaten";
    assert db.reports == [] && db.nextId == 1;
  }
}
