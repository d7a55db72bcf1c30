/**
 * Damage reports, the damage-type catalog, the submission payload and the
 * pure parts of the submission pipeline and of the lookup by id.
 */
module Reports {
  import opened Wrappers
  import opened JsonValues
  import opened Auth
  import opened Coordinates

  /** Every report points at the same stub photo; uploads are not processed. */
  const PhotoPlaceholder := "/static/uploads/mock_photo.jpg"
  /** The status every report is created with. */
  const NewStatus := "neu"

  /** One stored damage report; the comments give the JSON key it is served under. */
  datatype Report = Report(
    id: nat,              // id
    damageType: Json,     // schadentyp: the submitted damage_type, free text, not checked against the catalog
    description: Json,    // beschreibung
    latitude: real,       // latitude
    longitude: real,      // longitude
    photoPath: string,    // foto_pfad
    userId: int,          // user_id of the caller
    organisation: string, // organisation of the caller
    status: string,       // status
    createdAt: string,    // erstellt: server time in ISO-8601, supplied from outside
    extra: Json)          // zusatzdaten: the submitted additional_data

  /** One entry of the fixed damage-type catalog. */
  datatype DamageType = DamageType(
    typeId: nat,          // typ_id
    name: string,         // bezeichnung
    description: string,  // beschreibung
    iconName: string,     // icon_name
    priority: nat,        // prioritaet
    sortOrder: nat)       // sortierung

  const Catalog: seq<DamageType> := [
    DamageType(1, "Schlagloch", "Schlaglöcher und Fahrbahnschäden", "pothole", 1, 10),
    DamageType(2, "Beschädigtes Schild", "Verkehrsschilder beschädigt", "sign", 2, 20),
    DamageType(3, "Defekte Beleuchtung", "Straßenbeleuchtung defekt", "light", 2, 30),
    DamageType(4, "Kanalisationsschaden", "Schäden an Kanalisation", "drain", 1, 40),
    DamageType(5, "Vegetationsproblem", "Bäume/Sträucher behindern Verkehr", "tree", 3, 50)
  ]

  /** The catalog holds five types with distinct ids, listed in ascending display order. */
  lemma CatalogInDisplayOrder()
    ensures |Catalog| == 5
    ensures forall i, j :: 0 <= i < j < |Catalog| ==>
      Catalog[i].typeId != Catalog[j].typeId && Catalog[i].sortOrder < Catalog[j].sortOrder
  {
  }

  // ---------------------------------------------------------------------
  // The submission payload

  /**
   * The decoded request body: a JSON object, or anything else (no body,
   * `null`, an array, a scalar). The model answers every non-object body
   * with a server error; in the code an array or string body that lacks a
   * required name as element or substring answers 400 with the missing list.
   */
  datatype Body = Object(members: map<string, Json>) | NotAnObject

  /** Why a submission is refused. */
  datatype SubmitError =
    | IncompleteData(missing: seq<string>)  // 400, lists the absent required fields under missing_fields
    | InvalidCoordinates(message: string)   // 400, says which bound failed under message
    | ServerError                           // 500, the catch-all around the handler
  {
    function Status(): nat {
      if ServerError? then 500 else 400
    }

    /** The `error` field of the response. */
    function Title(): string {
      match this
      case IncompleteData(_) => "Unvollständige Daten"
      case InvalidCoordinates(_) => "Ungültige Koordinaten"
      case ServerError => "Server-Fehler"
    }
  }

  /** What a valid payload contributes to a new report. */
  datatype Draft = Draft(damageType: Json, description: Json, latitude: real, longitude: real, extra: Json)

  /** The fields a submission must carry, in the order they are reported missing. */
  const RequiredFields: seq<string> := ["damage_type", "description", "latitude", "longitude"]

  predicate Complete(members: map<string, Json>) {
    "damage_type" in members && "description" in members &&
    "latitude" in members && "longitude" in members
  }

  /** `a` is `b` with some elements left out, the rest kept in order. */
  predicate Subsequence<T(==)>(a: seq<T>, b: seq<T>)
    decreases |b|
  {
    if a == [] then true
    else if b == [] then false
    else (a[0] == b[0] && Subsequence(a[1..], b[1..])) || Subsequence(a, b[1..])
  }

  /** The names in `names` that are not keys of `members`, in the order of `names`. */
  function Absent(names: seq<string>, members: map<string, Json>): (r: seq<string>)
    ensures forall f :: f in r <==> f in names && f !in members
    ensures forall f :: multiset(r)[f] == if f in members then 0 else multiset(names)[f]
    ensures Subsequence(r, names)
  {
    assert names != [] ==> names == [names[0]] + names[1..];
    if names == [] then []
    else if names[0] in members then Absent(names[1..], members)
    else [names[0]] + Absent(names[1..], members)
  }

  /**
   * The required fields absent from the payload, in the order of
   * `RequiredFields`; empty exactly when the payload is complete.
   */
  function MissingFields(members: map<string, Json>): (r: seq<string>)
    ensures forall f :: f in r <==> f in RequiredFields && f !in members
    ensures Subsequence(r, RequiredFields)
    ensures r == [] <==> Complete(members)
  {
    var r := Absent(RequiredFields, members);
    assert !Complete(members) ==> exists f :: f in RequiredFields && f !in members;
    r
  }

  /** `additional_data` when the payload has it (whatever its value), `{}` otherwise. */
  function ExtraData(members: map<string, Json>): Json {
    if "additional_data" in members then members["additional_data"] else EmptyObject
  }

  /**
   * The validation steps of a submission, which stop at the first failure:
   * the body must be an object, the required fields present, both
   * coordinates convertible by `toFloat` (a failure there is a server
   * error, not a 400) and inside the bounding box.
   */
  function ParseSubmission(body: Body, toFloat: Json -> Option<real>): (r: Result<Draft, SubmitError>)
    ensures body.NotAnObject? ==> r == Err(ServerError)
    ensures body.Object? && !Complete(body.members) ==>
      r == Err(IncompleteData(MissingFields(body.members)))
    ensures body.Object? && Complete(body.members) ==>
      var lat := toFloat(body.members["latitude"]);
      var lon := toFloat(body.members["longitude"]);
      && (lat.None? || lon.None? ==> r == Err(ServerError))
      && (lat.Some? && lon.Some? ==>
            && (r.Ok? <==> InSwitzerland(lat.value, lon.value))
            && (r.Err? ==> r == Err(InvalidCoordinates(ValidateCoordinates(lat.value, lon.value).1))))
    ensures r.Ok? ==>
      && body.Object? && Complete(body.members)
      && toFloat(body.members["latitude"]) == Some(r.value.latitude)
      && toFloat(body.members["longitude"]) == Some(r.value.longitude)
      && InSwitzerland(r.value.latitude, r.value.longitude)
      && r.value.damageType == body.members["damage_type"]
      && r.value.description == body.members["description"]
      && r.value.extra == ExtraData(body.members)
  {
    match body
    case NotAnObject => Err(ServerError)
    case Object(members) =>
      var missing := MissingFields(members);
      if missing != [] then Err(IncompleteData(missing))
      else
        var lat := toFloat(members["latitude"]);
        var lon := toFloat(members["longitude"]);
        if lat.None? || lon.None? then Err(ServerError)
        else
          var (valid, message) := ValidateCoordinates(lat.value, lon.value);
          if !valid then Err(InvalidCoordinates(message))
          else Ok(Draft(members["damage_type"], members["description"], lat.value, lon.value, ExtraData(members)))
  }

  // ---------------------------------------------------------------------
  // Lookup by id

  /** Index `i` holds the first report with id `id`. */
  predicate IsFirstWithId(reports: seq<Report>, id: nat, i: int) {
    0 <= i < |reports| && reports[i].id == id &&
    forall j :: 0 <= j < i ==> reports[j].id != id
  }

  /** The first report with id `id` at index `k` or later. */
  function FindFrom(reports: seq<Report>, id: nat, k: nat): (r: Option<Report>)
    requires k <= |reports|
    ensures r.Some? <==> exists i :: k <= i < |reports| && reports[i].id == id
    ensures r.Some? ==> exists i :: k <= i < |reports| && reports[i] == r.value && reports[i].id == id &&
                                    forall j :: k <= j < i ==> reports[j].id != id
    decreases |reports| - k
  {
    if k == |reports| then None
    else if reports[k].id == id then Some(reports[k])
    else FindFrom(reports, id, k + 1)
  }

  /** The first report in list order whose id is `id`, if there is one. */
  function FindReport(reports: seq<Report>, id: nat): (r: Option<Report>)
    ensures r.Some? <==> exists i :: 0 <= i < |reports| && reports[i].id == id
    ensures r.Some? ==> exists i :: IsFirstWithId(reports, id, i) && reports[i] == r.value
  {
    FindFrom(reports, id, 0)
  }

  // ---------------------------------------------------------------------
  // The store invariant

  /** What holds of every report from its creation on: it was never changed. */
  predicate AsCreated(r: Report) {
    InSwitzerland(r.latitude, r.longitude) && r.status == NewStatus && r.photoPath == PhotoPlaceholder
  }

  /**
   * The reports of a store that has only ever been submitted to: the i-th
   * report has id i + 1, the counter is one past the last id, and every
   * report is as it was created.
   */
  predicate Consistent(reports: seq<Report>, nextId: nat) {
    && nextId == |reports| + 1
    && (forall i :: 0 <= i < |reports| ==> reports[i].id == i + 1)
    && (forall i :: 0 <= i < |reports| ==> AsCreated(reports[i]))
  }

  /** Ids are strictly increasing in list order, at least 1, and all below the counter. */
  lemma IdsIncreasing(reports: seq<Report>, nextId: nat)
    requires Consistent(reports, nextId)
    ensures forall i, j :: 0 <= i < j < |reports| ==> reports[i].id < reports[j].id
    ensures forall i :: 0 <= i < |reports| ==> 1 <= reports[i].id < nextId
  {
  }

  /** A lookup finds the unique report of an issued id and nothing for an id never issued. */
  lemma FindIssued(reports: seq<Report>, nextId: nat, id: nat)
    requires Consistent(reports, nextId)
    ensures FindReport(reports, id) == if 1 <= id < nextId then Some(reports[id - 1]) else None
  {
  }

  /**
   * Appending a report that carries the counter's id and was created in
   * the box with the initial status keeps the store consistent with the
   * counter one higher; earlier lookups still return what they did, and
   * the new id finds the new report.
   */
  lemma AppendKeepsConsistent(reports: seq<Report>, nextId: nat, rec: Report)
    requires Consistent(reports, nextId)
    requires rec.id == nextId && AsCreated(rec)
    ensures Consistent(reports + [rec], nextId + 1)
    ensures FindReport(reports + [rec], nextId) == Some(rec)
    ensures forall id :: id != nextId ==> FindReport(reports + [rec], id) == FindReport(reports, id)
  {
    var after := reports + [rec];
    assert Consistent(after, nextId + 1);
    FindIssued(after, nextId + 1, nextId);
    forall id | id != nextId
      ensures FindReport(after, id) == FindReport(reports, id)
    {
      FindIssued(after, nextId + 1, id);
      FindIssued(reports, nextId, id);
    }
  }
}
