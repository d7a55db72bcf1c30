# Damage-report service: a Dafny model

This project models the core of a small HTTP service where municipalities report infrastructure
damage: potholes, damaged signs, broken lighting, drainage and vegetation problems. The service
keeps everything in memory in one `MockDatabase`. That database holds a fixed map of API keys,
a fixed catalog of five damage types, the list of reports (`schadensmeldungen`) and the counter
`next_id`. Every endpoint except the index page, `/health` and the debug dump first runs the
API-key gate.

The model is split into modules, one per concern of `app.py`:

- `Auth`: the `X-API-Key` gate (`require_api_key`). It is a pure lookup in the key map.
- `Coordinates`: the bounding-box check (`validate_coordinates`). Latitude and longitude are `real`s.
- `Reports`: the report record, the damage-type catalog, and the request body as a JSON object or
  something else. It also holds the pure parts of `submit_damage`: the missing-fields list and the
  validation steps in their short-circuit order. Beside them are the first-match lookup of
  `get_damage_details` and the store invariant `Consistent`.
- `GeoJson`: the Point Feature of one report and the FeatureCollection, as RFC 7946 (sections
  3.1.1, 3.1.2, 3.2 and 3.3) defines them. Positions are written longitude first.
- `Store`: `class Database`, the in-memory database. Its `reports` and `nextId` fields are
  updated in place by `Submit`. `Valid()` is the invariant: the i-th report has id i + 1, the
  counter is one past the last id, and every report is inside the box with status `neu` and the
  stub photo path. `Find`, `List` and `MapData` read the database without changing it.
- `Api`: one method per protected endpoint. Each calls the gate and then the database. A
  `Response` stands for the status code and the body.

`float()` on a payload value is a parameter `toFloat: Json -> Option<real>`. `None` means
Python raised. The server clock (`datetime.now().isoformat()`) is a parameter `now: string`.

Behaviour of the code that the model keeps:

- A coordinate that `float()` cannot convert raises inside the handler, and its catch-all answers 500 `Server-Fehler`.
- An empty `X-API-Key` header counts as missing, because the code tests `not api_key`.
- Reports are created with status `neu`.
- The JSON key each field is served under is noted beside it: the `Report` and GeoJSON `Properties` fields (`schadentyp`, `erstellt`, ...), `Receipt` (`damage_id`, `created_at`), the `DamageTypes` and `Listing` responses (`damage_types`, `damages`, `total`) and `IncompleteData` (`missing_fields`).
- Error responses carry the code's `error` strings (`Response.Error`); `AuthError.Message` gives the `message` field of the 401 body.

## Model

| member | source | states |
|---|---|---|
| `Auth.Authenticate` | app.py:41-58 | An absent or empty key is `MissingKey`, and a non-empty key outside the map is `InvalidKey`. Only a key in the map passes, and then the caller is exactly that key's account. All three cases are stated as if-and-only-if. |
| `Auth.SeedCredentials` | app.py:20-25 | With the seeded map, `test_key_12345` resolves to user 1 of "Stadt Zürich - Test". Every other non-empty key is invalid. |
| `Coordinates.ValidateCoordinates` | app.py:61-67 | Accepts exactly when 45.0 ≤ lat ≤ 48.0 and 5.0 ≤ lon ≤ 11.0, both inclusive, and then says "OK". A latitude outside the range gives the latitude message even when the longitude is also outside. An in-range latitude with an out-of-range longitude gives the longitude message. |
| `Coordinates.BoundaryCases` | app.py:63-66 | Latitudes 45.0 and 48.0 are accepted, and 44.9 is refused with the latitude message. When both coordinates are outside, the latitude is reported. |
| `Reports.CatalogInDisplayOrder` | app.py:26-32 | The catalog has five types with distinct ids, in ascending display order. |
| `Reports.Absent` | app.py:105 | The comprehension keeps exactly the names that are not keys of the payload, each as often as it occurs, in their original order. |
| `Reports.MissingFields` | app.py:104-106 | The list holds exactly the required fields absent from the payload, as a subsequence of damage_type, description, latitude, longitude. It is empty exactly when all four are present. |
| `Reports.ParseSubmission` | app.py:101-120 | A body that is not an object gives a server error. An incomplete payload gives the missing list, before any conversion. A coordinate `float()` cannot convert gives a server error. A position outside the box gives the validator's message. Success happens exactly when the position converts and lies in the box. Then the draft carries the submitted type, description, converted position and `additional_data`, or `{}` when it is absent. |
| `Reports.FindFrom` | app.py:163 | The scan from index k finds a report exactly when some report at k or later has the id. The one it finds is the first such report. |
| `Reports.FindReport` | app.py:163-168 | A lookup finds a report exactly when one has the id. It returns the first match in list order, and `None` becomes the 404. |
| `Reports.IdsIncreasing` | app.py:123-124 | In a consistent store, ids strictly increase in list order and all lie between 1 and `next_id - 1`. |
| `Reports.FindIssued` | app.py:163-168 | In a consistent store, looking up an issued id returns the one report it was issued to. Any id that was never issued, including 0 and every id ≥ `next_id`, finds nothing. |
| `Reports.AppendKeepsConsistent` | app.py:123-140 | Appending a report that carries the counter's id keeps the store consistent, with the counter one higher. The new id then finds the new report, and every other id finds what it found before. |
| `GeoJson.ToFeature` | app.py:203-217 | A report's Feature has a two-number position. Read back in RFC 7946 order (longitude first), it gives the report's latitude and longitude. Its properties are the report's id, type, description, status, organisation and creation time, unchanged. |
| `GeoJson.FeatureInBox` | app.py:207 | The Feature of an accepted report has its first coordinate in 5..11 (longitude) and its second in 45..48 (latitude). |
| `Store.Database.constructor` | app.py:19-34 | A fresh database has the seeded key map and catalog, no reports, and `next_id` 1. |
| `Store.Database.Submit` | app.py:103-144 | A refused payload returns the validation error and changes neither the reports nor the counter. An accepted one returns the old counter as `damage_id`, advances the counter by exactly one, and appends exactly one report at the end, leaving earlier reports unchanged. The new report carries the submitted fields, the caller's user and organisation, status `neu`, the stub photo and the given time. The store invariant is kept. |
| `Store.Database.Find` | app.py:162-168 | Returns the report an id was issued to, or nothing for an id never issued. |
| `Store.Database.List` | app.py:174-178 | Returns the reports in submission order, with `total` equal to their number, which is `next_id - 1`. |
| `Store.Database.MapData` | app.py:198-225 | Returns one Feature per report, in the same order, each the projection of its report, and the store is only read. In a valid store every Feature's position, read longitude first, lies in the box. |
| `Api.GetDamageTypes` | app.py:90-95 | The response is 401 exactly when the gate refuses, and then carries the gate's reason. Otherwise it is the full catalog. |
| `Api.SubmitDamage` | app.py:97-158 | A refused key answers 401 and leaves the database unchanged. Otherwise the answer is 201 exactly when validation succeeds, with the old counter as id and the new report appended and findable. Any other answer is the validation error (400 or 500), and the database is unchanged. |
| `Api.GetDamageDetails` | app.py:160-170 | After the gate, an issued id answers the report it was issued to, and any other id answers 404. |
| `Api.ListDamages` | app.py:172-178 | After the gate, the answer is the reports in order with `total` equal to their number. |
| `Api.GetMapData` | app.py:196-225 | After the gate, the answer is a FeatureCollection with one projected Feature per report, in order. |
| `Api.PotholeAccepted` | app.py:104-120 | An example payload, a pothole in Zurich (Schlagloch, 47.37, 8.54), passes validation when numbers convert to themselves. The draft has `{}` as additional data. |

## Left out

- HTTP routing, `jsonify`, CORS, `send_from_directory`, the index page and `/health` (app.py:1-16, 70-88). These are framework plumbing. A `Response` value stands for the status and body.
- The debug endpoint `/api/debug/data` (app.py:180-188). It is an unauthenticated raw dump of the state and has no behaviour beyond what it returns.
- Console logging and the start-up block (app.py:149, 154, 235-257). The model treats the success log line at app.py:149 as unable to fail. In the code, an exception there would answer 500 after the report was already stored.
- The server clock is a parameter `now`. `float()` is the parameter `toFloat`, and its exception text, which the 500 body echoes, is not modelled.
- Non-finite floats are not modelled, because coordinates are `real`. In the code, `float('nan')` and `float('inf')` fail the bounds check, since every comparison with NaN is false and infinities lie outside the box.
- Bodies that are not a JSON object form one case that answers 500. In the code, an array or string body that lacks a required name as element or substring answers 400 with the missing list. A missing body, malformed JSON, a non-JSON content type, `null`, number and boolean bodies, and arrays or strings containing all four names answer 500 there.
- The `damage_id` path parameter is a `nat`, because Flask's `int` converter does not route negative numbers.
- The 201 body's constant `success: true` and `message` fields are not modelled, and neither are the `type` strings of the GeoJSON objects. The latter are given by the constructors `Point`, `Feature` and `FeatureCollection`.
- Concurrency is not modelled. The unguarded read and increment of `next_id` (app.py:123-124) can race under a threaded server, and the model covers sequential calls only.
