/** The in-memory database: credentials, the damage-type catalog, the reports and the id counter. */
module Store {
  import opened Wrappers
  import opened JsonValues
  import opened Auth
  import opened Coordinates
  import opened Reports
  import opened GeoJson

  /** What a successful submission answers: the new id and its creation time. */
  datatype Receipt = Receipt(
    damageId: nat,        // damage_id
    createdAt: string)    // created_at

  class Database {
    /** `api_keys`: fixed at start-up. */
    const apiKeys: map<string, Account>
    /** `schadenstypen`: fixed at start-up. */
    const damageTypes: seq<DamageType>
    /** `schadensmeldungen`: the reports in submission order. */
    var reports: seq<Report>
    /** `next_id`: the id the next report gets. */
    var nextId: nat

    ghost predicate Valid()
      reads this
    {
      Consistent(reports, nextId)
    }

    /** A fresh database: the seeded key and catalog, no reports, ids starting at 1. */
    constructor ()
      ensures Valid()
      ensures apiKeys == SeedKeys && damageTypes == Catalog
      ensures reports == [] && nextId == 1
    {
      apiKeys := SeedKeys;
      damageTypes := Catalog;
      reports := [];
      nextId := 1;
    }

    /**
     * Validates a payload on behalf of `caller`; on success assigns the
     * counter's id, advances the counter by one and appends one report.
     * A refused payload leaves the reports and the counter as they were.
     */
    method Submit(caller: Account, body: Body, toFloat: Json -> Option<real>, now: string)
      returns (r: Result<Receipt, SubmitError>)
      requires Valid()
      modifies this
      ensures Valid()
      ensures ParseSubmission(body, toFloat).Err? ==>
        && r == Err(ParseSubmission(body, toFloat).error)
        && reports == old(reports) && nextId == old(nextId)
      ensures ParseSubmission(body, toFloat).Ok? ==>
        var d := ParseSubmission(body, toFloat).value;
        && r == Ok(Receipt(old(nextId), now))
        && nextId == old(nextId) + 1
        && reports == old(reports) + [Report(old(nextId), d.damageType, d.description, d.latitude, d.longitude,
                                             PhotoPlaceholder, caller.userId, caller.organisation,
                                             NewStatus, now, d.extra)]
    {
      var parsed := ParseSubmission(body, toFloat);
      if parsed.Err? {
        return Err(parsed.error);
      }
      var d := parsed.value;
      var id := nextId;
      nextId := nextId + 1;
      var record := Report(id, d.damageType, d.description, d.latitude, d.longitude,
                           PhotoPlaceholder, caller.userId, caller.organisation, NewStatus, now, d.extra);
      AppendKeepsConsistent(reports, id, record);
      reports := reports + [record];
      r := Ok(Receipt(id, now));
    }

    /** The report with id `id`: the one the id was issued to, or none for an id never issued. */
    function Find(id: nat): (r: Option<Report>)
      reads this
      requires Valid()
      ensures r == if 1 <= id < nextId then Some(reports[id - 1]) else None
      ensures r.Some? ==> r.value.id == id && r.value in reports
    {
      FindIssued(reports, nextId, id);
      FindReport(reports, id)
    }

    /** All reports in submission order, with their number. */
    method List() returns (damages: seq<Report>, total: nat)
      requires Valid()
      ensures damages == reports && total == |reports|
      ensures total == nextId - 1
    {
      damages := reports;
      total := |reports|;
    }

    /**
     * The map view: one Feature per report, in the same order, each the
     * projection of its report. The reports are only read.
     */
    method MapData() returns (fc: FeatureCollection)
      ensures |fc.features| == |reports|
      ensures forall i :: 0 <= i < |reports| ==> fc.features[i] == ToFeature(reports[i])
      ensures Valid() ==> forall f :: f in fc.features ==>
        |f.geometry.coordinates| == 2 &&
        InSwitzerland(Latitude(f.geometry), Longitude(f.geometry))
    {
      var features: seq<Feature> := [];
      for i := 0 to |reports|
        invariant |features| == i
        invariant forall k :: 0 <= k < i ==> features[k] == ToFeature(reports[k])
      {
        features := features + [ToFeature(reports[i])];
      }
      fc := FeatureCollection(features);
      forall f | f in fc.features
        ensures |f.geometry.coordinates| == 2
        ensures Valid() ==> InSwitzerland(Latitude(f.geometry), Longitude(f.geometry))
      {
        var i :| 0 <= i < |features| && features[i] == f;
      }
    }
  }
}
