/**
 * The map view of the reports: a GeoJSON FeatureCollection with one Point
 * Feature per report (RFC 7946, sections 3.1.2, 3.2 and 3.3). The `type`
 * members of the three objects are given by the constructors.
 */
module GeoJson {
  import opened JsonValues
  import opened Reports

  /** A Point geometry; its position lists longitude before latitude (RFC 7946, section 3.1.1). */
  datatype Geometry = Point(coordinates: seq<real>)

  /** The report fields the map shows. */
  datatype Properties = Properties(
    id: nat,
    damageType: Json,     // schadentyp
    description: Json,    // beschreibung
    status: string,
    organisation: string,
    createdAt: string)    // erstellt

  datatype Feature = Feature(geometry: Geometry, properties: Properties)

  datatype FeatureCollection = FeatureCollection(features: seq<Feature>)

  /** Reads a position in RFC 7946 order: the first number is the longitude. */
  function Longitude(g: Geometry): real
    requires |g.coordinates| == 2
  {
    g.coordinates[0]
  }

  /** Reads a position in RFC 7946 order: the second number is the latitude. */
  function Latitude(g: Geometry): real
    requires |g.coordinates| == 2
  {
    g.coordinates[1]
  }

  /**
   * The Feature of one report. Read back in RFC 7946 order, its position is
   * the report's; its properties are the report's fields, unchanged.
   */
  function ToFeature(r: Report): (f: Feature)
    ensures |f.geometry.coordinates| == 2
    ensures Latitude(f.geometry) == r.latitude && Longitude(f.geometry) == r.longitude
    ensures f.properties.id == r.id && f.properties.status == r.status
    ensures f.properties.damageType == r.damageType && f.properties.description == r.description
    ensures f.properties.organisation == r.organisation && f.properties.createdAt == r.createdAt
  {
    Feature(Point([r.longitude, r.latitude]),
            Properties(r.id, r.damageType, r.description, r.status, r.organisation, r.createdAt))
  }

  /** A report inside the box gives a Feature whose first coordinate is within 5..11 and second within 45..48. */
  lemma FeatureInBox(r: Report)
    requires AsCreated(r)
    ensures var c := ToFeature(r).geometry.coordinates;
      |c| == 2 && 5.0 <= c[0] <= 11.0 && 45.0 <= c[1] <= 48.0
  {
  }
}
