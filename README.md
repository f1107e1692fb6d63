# Planet store

A model of the in-memory planet API of `server.ts`. It keeps an ordered
collection of planets (`{id, name}`). A fresh process starts with Earth (1)
and Mars (2). Five operations act on the collection:

- **list** returns the whole collection.
- **get** returns the first planet with the requested id.
- **create** validates `{id: integer, name: string}`, then appends the planet.
  It does not check whether the id already exists.
- **update** validates `{name: string}` before looking up the id. It then
  renames the first planet with that id.
- **delete** removes every planet with the id. It succeeds only if the
  collection got shorter.

Modules:

- `Planets` (`planets.dfy`): the record, the seed, and what a stored record
  satisfies (`WellFormed`).
- `Validation` (`validation.dfy`): the two request-body schemas. Each returns
  the first fault as a field and a reason. Fields are checked in declared
  order: `id` before `name`.
- `PlanetStore` (`store.dfy`): `FindIndex` (first match) and `Without` (remove
  by id), a `Store` class whose `planets: seq<Planet>` field is the
  module-level collection, and four client methods. Each starts from a fresh
  store: one gets ids 1 and 99, one creates Jupiter and then a body without an
  id, one renames Mars, then an unknown id, then with an empty body, and one deletes
  Earth twice.
- `Http` (`http.dfy`): how each outcome becomes a status code.

A path id is `Option<int>`. `None` stands for a path segment that is not a
number. It matches no record, as `NaN` matches nothing in the source.

## Model

| member | source | states |
|---|---|---|
| `PlanetStore.Store.constructor` | server.ts:19-22 | a new store holds exactly Earth (1) then Mars (2), and every record is well formed |
| `PlanetStore.Store.List` | server.ts:24-26 | list returns the current collection exactly, in order; it is a function of the state, so it changes nothing and two calls with no mutation between them agree |
| `PlanetStore.FindIndex` | server.ts:30 | the search yields an index holding a record with the id, no earlier index holds one, and it yields nothing exactly when no record has the id |
| `PlanetStore.Store.Get` | server.ts:28-35 | get succeeds exactly when some stored record has the id; it then returns the first such record; otherwise it is NotFound, never a validation error |
| `Validation.CheckInteger` | server.ts:39 | the id rule accepts exactly a present number within ±(2^53-1) with no fractional part, and returns its integer value; absent gives Required, a non-number gives NotANumber, a number outside the safe range gives Unsafe (the range is checked before the integer rule), and an in-range number with a fractional part gives NotAnInteger |
| `Validation.CheckString` | server.ts:40 | the name rule accepts exactly a present non-empty string and returns it unchanged; absent gives Required, a non-string gives NotAString, the empty string gives Empty |
| `Validation.ValidatePlanet` | server.ts:38-41 | the create schema passes exactly when both fields are acceptable, yielding a well-formed planet with those values; a fault names `id` exactly when `id` is unacceptable, so `id` wins over `name`, and carries the reason that field's rule gives |
| `Validation.ValidateBody` | server.ts:38-41 | the body a client sends for a planet passes the create schema unchanged exactly when the planet is well formed (validation round trip) |
| `PlanetStore.FindAppend` | server.ts:49 | after an append, an earlier match is still the first; the appended record is found only when nothing before it has its id |
| `PlanetStore.Store.Create` | server.ts:43-55 | a refused body leaves the collection unchanged and reports the schema's first fault; an accepted one appends the validated planet at the end, even over a duplicate id; the new record can be looked up, and it is the one returned when its id was new |
| `Validation.ValidateRename` | server.ts:59-61 | the update schema passes exactly when the name is a non-empty string, and any fault is about `name` with the reason the name rule gives |
| `PlanetStore.FindSameIds` | server.ts:67-69 | two collections with the same ids at every position have the same first match, so a rename never moves a match |
| `PlanetStore.Store.Update` | server.ts:57-74 | the name is validated first, so a bad body is a validation error even for an unknown id, with nothing changed; an unknown id is NotFound with nothing changed; otherwise only the name of the first matching record changes, and ids, positions and length stay the same; get then returns the renamed record |
| `PlanetStore.Without` | server.ts:79 | removal never lengthens the collection, and no record left has the id |
| `PlanetStore.WithoutMembers` | server.ts:79-81 | removal keeps exactly the records whose id differs, and shortens the collection exactly when some record has the id (the success test of delete) |
| `PlanetStore.WithoutNoMatch` | server.ts:79-84 | when no record has the id, removal returns the collection unchanged, so a failed delete changes nothing |
| `PlanetStore.WithoutCounts` | server.ts:79 | removal drops every copy of a record with the id and keeps every copy of any other record |
| `PlanetStore.WithoutAppend` | server.ts:79 | removal distributes over concatenation, so the kept records stay in their original order |
| `PlanetStore.WithoutIdempotent` | server.ts:79-85 | after removal no record has the id, and a second removal changes nothing |
| `PlanetStore.Store.Delete` | server.ts:76-86 | the new collection is the old one without the id's records; the result is success exactly when some record had the id, and otherwise NotFound with nothing changed; get then finds nothing |
| `Http.StatusCode` | server.ts:24-86 | status is 201 exactly for a successful create, 200 for any other success, 400 exactly for a validation error and 404 exactly for an unknown id |

## Left out

- The Express app, its logging middleware, JSON body parsing and `app.listen` on port 3000 (server.ts:1-10, 88-90) are transport and I/O.
- Response bodies are not modelled: the fixed `msg` texts, the JSON encoding and the library's validation message text. A validation error carries the failing field and the reason instead of the message.
- The conversion of the path segment by `Number(...)` (NaN, `""` giving 0, hexadecimal, surrounding spaces) is not modelled. The store receives an `Option<int>`.
- The schema library's type conversion is not modelled: a numeric string sent as `id` is accepted there. Here a candidate value stands for what the schema sees after conversion.
- The schema library's rejection of undeclared keys is not modelled. This includes an `id` key in an update body.
- A request body that is not a JSON object is not modelled.
- Numbers are exact reals, not IEEE doubles. The safe-integer bound is the only floating-point behaviour kept.
- Update renames the record at an index of the sequence. Aliasing is not modelled: the source mutates a shared object that earlier responses may still reference.
- Provenance is not tracked: the model does not record that every listed planet was created earlier and not yet deleted. `Store.Valid` keeps the part that matters to the operations, that every stored record is well formed.
- Concurrency is not modelled. Each request runs to completion before the next one.
