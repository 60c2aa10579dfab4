# Validated item writes over a document store

A model of the HTTP service in `server/server.js`. It stores flight-instrument
readings (`altitude`, `HIS`, `ADI`) in a MongoDB collection through mongoose and
exposes two routes:

- `GET /load-items` (`loadItems`) answers with every stored document (status 200),
  or 500 `{message: "Failed to load items", error}` when the query throws.
- `POST /add-item` runs the `validateItemInput` middleware and then `addItem`. The
  middleware checks `altitude` ∈ [0, 3000], then `HIS` ∈ [0, 360], then `ADI` ∈
  [-100, 100]. Each must be a JSON number. The first failing field gives 400
  `{message: "Invalid <field> value"}`. `addItem` builds the document, saves it and
  answers 201 with the saved document, or 500 `{message: "Failed to add item", error}`.

Files:

- `json_value.dfy`: `JsonValue`, the untyped parsed body (`map<string, Value>`, where a
  missing key reads as `Missing`).
- `item_schema.dfy`: `ItemSchema`, the `itemSchema` paths with their `min`/`max`, the
  stored `Item`, and the path validation mongoose runs on `save()`.
- `validator.dfy`: `Validator`, the middleware as a pure function `Validate` with
  lemmas. They cover ordering, inclusive bounds, rejection of non-numbers, messages,
  and agreement with the schema.
- `handlers.dfy`: `Handlers`. `Load`, `Add` and `Create` are the handlers as state
  transitions over `StoreState`. The `Store` class holds the collection as fields
  `items` and `nextId`. Its methods `LoadItems`, `AddItem` and `PostAddItem` are
  proved equal to those transitions, and they keep the collection invariant `Inv`.
- `trace.dfy`: `Trace`, the route table over a sequence of requests. Its inductive
  lemmas show that the invariant holds and that the collection is append-only. They
  also show that the number of 201 answers equals the number of new documents, and
  that a created document is listed by later reads.

The database is external. The model keeps only two parts of it: the collection's
contents, in the order `find()` returns them, and a counter for the identifier the
next `new Item(...)` receives. Whether a database call throws is a parameter
(`StoreCall = Completes | Throws(error)`). `new Item(req.body)` assigns the identifier
before `save()` runs, so the counter advances each time `addItem` runs, even when
the save then fails. A request the validator rejects does not advance it.

The 400 messages are built from the body keys: "Invalid altitude value",
"Invalid HIS value" and "Invalid ADI value".

## Model

| member | source | states |
|---|---|---|
| Validator.Validate | server/server.js:72-86 | The verdict is Pass exactly when all three fields pass their checks. A rejection names a field that fails, and every field checked before it passes. |
| Validator.Message | server/server.js:75-83 | The 400 message for a field is "Invalid " + its body key + " value". |
| Validator.MessageNamesField | server/server.js:75-83 | Two fields have equal messages only if they are the same field, so the message names exactly the failing field. |
| Validator.InBoundsPasses | server/server.js:72-86 | Any body whose three fields are numbers within the bounds passes and reaches `next()`. |
| Validator.BoundsInclusive | server/server.js:75-83 | Both ends of each range are accepted. A number is accepted exactly when lower <= x <= upper. |
| Validator.ExtremesPass | server/server.js:75-85 | {0, 0, -100} and {3000, 360, 100} both pass. |
| Validator.NonNumberRejected | server/server.js:75-83 | A field that is not a number (missing, null, boolean, string, array, object) is never coerced. The body is rejected, at that field or at an earlier one. |
| Validator.NonNumberAltitudeReported | server/server.js:75-76 | A missing, null or string altitude is reported as the altitude, whatever the other fields hold. |
| Validator.VerdictIsEarliestFailure | server/server.js:75-85 | The reported field is the failing field that is checked earliest. |
| Validator.BoundsMatchSchema | server/server.js:49-83 | The middleware's comparison bounds equal the schema's `min` and `max` for each path. |
| Validator.ValidatorAgreesWithSchema | server/server.js:49-86 | The middleware passes exactly the bodies that have no schema violation. On a rejection, the field it names is the first path in the model's violation list, which is in declaration order. |
| ItemSchema.Violations | server/server.js:49-68 | A path is listed exactly when its value is not a number within [min, max], counting a missing value. No path is listed twice. |
| ItemSchema.ToItem | server/server.js:99 | A document built from a body with no violation keeps each submitted value unchanged, gets the given identifier, and conforms to the schema. |
| Handlers.InvIdsUnique | server/server.js:99-100 | In a collection that satisfies the invariant, no two documents share an identifier. |
| Handlers.Load | server/server.js:88-95 | The answer is 200 with the whole collection exactly when the query completes. Otherwise it is 500 with "Failed to load items" and the driver's error. |
| Handlers.Add | server/server.js:97-105 | The identifier counter advances. The answer is 201 exactly when the schema passes and the save completes; the collection then gains exactly one document, with the next identifier and the submitted values. Otherwise the answer is 500 "Failed to add item" with the schema or driver error, and nothing is written. |
| Handlers.FirstFailureWins | server/server.js:75-83 | On the POST route, {altitude: 5000, HIS: 999, ADI: 0} is answered 400 with "Invalid altitude value", not the HIS message, and the store is unchanged. |
| Handlers.Create | server/server.js:72-108 | The answer is 400 exactly when the validator rejects, with that field's message and the store untouched. It is 201 exactly when the validator passes and the save completes, appending one document with the submitted values. Within the model (the three schema keys only), a 500 on this route comes from the driver. |
| Handlers.Store.constructor | server/server.js:70 | A new store is empty and satisfies the invariant. |
| Handlers.Store.LoadItems | server/server.js:88-95 | Answers 200 with the current `items`, or 500 with the load failure. Changes nothing. Equals `Load` on the current state. |
| Handlers.Store.AddItem | server/server.js:97-105 | Keeps `Valid()` and advances `nextId`. It appends exactly the answered document on 201 and leaves `items` unchanged otherwise. The new state and answer equal `Add` on the old state. |
| Handlers.Store.PostAddItem | server/server.js:107-108 | Keeps `Valid()`. On a rejection it answers 400 and leaves both fields unchanged. The new state and answer equal `Create` on the old state. |
| Trace.Run | server/server.js:107-108 | Requests are served in sequence, each against the state the previous one left; there is exactly one answer per request. |
| Trace.Serve | server/server.js:107-108 | A GET leaves the collection unchanged. A 201 answer arises exactly from a POST whose body passes the validator and whose save completes. |
| Trace.ServeKeepsInv | server/server.js:49-108 | One served request preserves the collection invariant. |
| Trace.RunKeepsInv | server/server.js:49-108 | After any sequence of requests, every stored document conforms to the schema. Identifiers are still strictly increasing and below the counter. |
| Trace.RunAppendOnly | server/server.js:88-108 | Over any sequence of requests, documents are never altered or removed. The old collection is a prefix of the new one, and the counter never goes back. |
| Trace.RunCountsCreated | server/server.js:97-108 | The collection grows by exactly the number of 201 answers. |
| Trace.RejectedRunChangesNothing | server/server.js:72-108 | A sequence of reads and validator-rejected posts leaves the store, including the counter, exactly as it was. |
| Trace.CreatedStaysStored | server/server.js:97-108 | A document answered with 201 is in the collection at the end of any run. |
| Trace.PostThenGet | server/server.js:88-108 | A valid POST that completes answers 201 with the submitted values. A following GET that completes answers 200 and lists that document. |
| Trace.EmptyLoad | server/server.js:88-91 | Reading an empty collection answers 200 with an empty list, not an error. |

## Left out

- The middleware stack (`helmet`, `cors`, the JSON and urlencoded body parsers, `morgan`, static files, the rate limiter at server/server.js:19-33). These are library configuration with no logic of this program's own. The body is taken as already parsed.
- `connectDB`, `startServer` and the SIGTERM handler (server/server.js:35-47, 114-131). They are process lifecycle, network I/O and `process.exit`.
- The `*` fallback route that sends `static/index.html` (server/server.js:110-112). It is file I/O.
- MongoDB and mongoose internals. ObjectId generation is replaced by a natural-number counter. The order `find()` returns is taken to be insertion order. The JSON serialisation of answers is not modelled, so the `error` member is kept as a structured value. In the real service the Error object that `loadItems` passes serialises without its message. The wording of mongoose's validation-error message is reduced to the list of failing paths.
- ItemSchema.Violations: mongoose's casting for `type: Number` is not modelled. A numeric string or a boolean counts as a violation here, where mongoose would cast it. This matters only when `addItem` runs without the validator. On the only route that reaches it, the validator has already refused every non-number in the three declared keys (for `_id` and `__v`, see below).
- Strict-mode stripping of body properties outside the schema is modelled only in that `ToItem` reads the three declared keys (apart from `_id` and `__v`, above).
- Numbers are `real`. JSON bodies cannot carry NaN, so NaN is not modelled. `JSON.parse` does turn a literal such as `1e400` into `Infinity`, whose `typeof` is `'number'`. The middleware's comparisons reject it exactly as they reject any out-of-range real, so the verdict is the same as for a large finite number.
- ItemSchema.ToItem, Handlers.Add, Handlers.Create: the model ignores a body-supplied `_id` or `__v`. In the source, `new Item(req.body)` passes the whole body, and these are implicit schema paths the middleware never checks. A castable `_id` replaces the counter's identifier, so the 201 document's identifier and the increasing identifiers of `Inv` hold only of the counter abstraction. An uncastable `_id` or `__v` fails `save()` with a schema error and a 500 "Failed to add item" on the route. The model reaches that answer only as `call = Throws`.
- Handlers.Add, Handlers.Create, Trace.RunCountsCreated: a save that throws is taken to have written nothing, because the model treats the insert as atomic with its answer. A driver timeout, a lost acknowledgement or a write-concern error can reject `save()` after the insert was applied, and the route still answers 500. The model cannot represent that case, so the "one new document per 201" count holds only of the model's store.
- The collection is assumed to be empty at start (`Handlers.Store.constructor`) and to be written only through this route. `mongoose.model` binds to an existing collection, which may already hold documents that do not conform. `Inv` and what `Trace.RunKeepsInv` preserves are therefore properties of the model's store, not of whatever the database holds.
- Concurrency between requests is not modelled. Requests are served one after another (`Trace.Run`). The real server interleaves them at each `await`, and the store's own driver makes its operations atomic.
