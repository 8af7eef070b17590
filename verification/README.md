# Bear API mock store, modelled in Dafny

This project models the in-memory mock database of a small Express service. It also models the routes under `/api` that drive it. The service keeps a list of bear records, each with an `_id` and a `name`. Ids come from a counter that starts at 1.

- `bear_model.dfy` (module `BearModel`) defines the data. `Bear` is the record; its name is an `Option` because the request body may lack one. `Store` holds the list and the `nextId` counter. `Valid` describes every reachable store. Each stored id is below the counter, and records that share an id are equal.
- `mock_store.dfy` (module `MockStore`) models the `MockBear` class. It covers the constructor (`Construct`), `save`, `find`, `findById` and `remove`, each as a pure function. The callbacks of the source never receive an error here, so each operation returns its result directly.
- `routes.dfy` (module `Routes`) models each route handler as a function from a store and a request to the next store and a response (status and body). `Handle` dispatches a request to its handler. `Run` handles a sequence of requests in order.
- `properties.dfy` (module `Properties`) proves lemmas over single requests and whole runs.

Three behaviours of the code are easy to misread. The model follows the code and proves each one:

- An update answers with the renamed bear (server.js:109-112). Its `save` call is the same `save` a create uses, which always pushes onto the list (server.js:55-58). The list therefore holds the record twice after an update. Both entries are one JavaScript object, so both carry the new name (`PutDuplicates`).
- Reading or updating a missing id answers 404 "Bear not found" (server.js:100, server.js:107). A delete has no such check: it filters the list and always answers 200 "Bear deleted!" (server.js:117-119), even for an id that was never stored (`DeleteAbsent`).
- Because an update pushes a record without creating one, the length of the list is not the number of creates minus the number of deletes (`LengthIsNotCreatesMinusDeletes`).

## Model

| member | source | states |
|---|---|---|
| MockStore.Construct | server.js:41-44 | the new bear is exactly the current counter as id with the given name, and the counter advances by exactly one with the list untouched; when every stored id is below the counter, the new id is not yet stored and that bound still holds afterwards |
| MockStore.Save | server.js:55-58 | save appends exactly the given record at the end, keeps every earlier record in place, and adds one to the number of records with its id, even if the record is already there |
| MockStore.FindById | server.js:50-53 | the result is nothing exactly when no record has the id; otherwise it is a record with that id, and no earlier record has that id |
| MockStore.Remove | server.js:60-63 | remove keeps no record with the id, keeps every record with another id, adds nothing new, and drops exactly as many records as had the id |
| MockStore.RemoveAppend | server.js:60-63 | remove distributes over concatenation, so the records that remain keep their relative order |
| MockStore.RemoveOne | server.js:60-63 | on a single record, remove drops it exactly when its id matches |
| MockStore.RemoveAbsent | server.js:60-63 | removing an id that is not stored leaves the list unchanged |
| MockStore.RemoveIdempotent | server.js:60-63 | removing the same id twice gives the same list as removing it once |
| Routes.Root | server.js:76-78 | `GET /api` always answers 200 with the message "API is working! Try /api/bears", and changes nothing |
| Routes.Post | server.js:82-88 | a create always answers 200 "Bear created!" with the new bear, whose id is the counter and whose name is the given one (possibly absent); exactly that bear is appended, all earlier records stay in place, and the counter advances by one; when every stored id is below the counter, the new id was not stored before |
| Routes.List | server.js:89-94 | listing always answers 200 with the whole list in insertion order, and leaves the store unchanged |
| Routes.Get | server.js:97-103 | reading an id answers 404 "Bear not found" exactly when no record has it; otherwise it answers 200 with the first record that has it; the store is unchanged either way |
| Routes.Put | server.js:104-115 | an update of a missing id answers 404 and leaves the store unchanged; on a present id it answers 200 "Bear updated!" with the id and the new name, renames every record with that id, leaves all other records alone, and appends the record once more |
| Routes.RenameKeepsCount | server.js:109 | assigning the new name leaves the number of records with the id unchanged |
| Routes.Delete | server.js:116-121 | a delete always answers 200 "Bear deleted!" and leaves the counter alone; the remaining list is exactly `Remove` of the old one: no record with the id, every record with another id kept (in order, by `RemoveAppend`), and the length down by the number of records that had the id |
| Routes.Handle | server.js:81-121 | only a create moves the counter, by exactly one; no other request touches it |
| Properties.PostPreservesValid | server.js:82-88 | a create keeps stored ids below the counter and keeps records with one id equal |
| Properties.PutPreservesValid | server.js:104-115 | an update keeps the store well formed, because every copy of the record is renamed together |
| Properties.RenameAppendKeepsAliased | server.js:109-110 | renaming every record with an id and pushing that record once more keeps records that share an id equal |
| Properties.DeletePreservesValid | server.js:116-121 | a delete keeps the store well formed |
| Properties.HandlePreservesValid | server.js:81-121 | every request keeps the store well formed |
| Properties.RunPreservesValid | server.js:81-121 | every sequence of requests keeps the store well formed |
| Properties.Reachable | server.js:36-37 | every store reachable from the empty start-up state (no bears, counter at 1) is well formed |
| Properties.RunAdvancesCounter | server.js:42 | after any sequence of requests, the counter has grown by exactly the number of creates; nothing decrements or resets it |
| Properties.NoIdReuse | server.js:42 | an id below the counter, deleted or not, is never handed to a later bear, whatever requests come in between |
| Properties.CreateAppends | server.js:82-88 | a single create request appends one bear carrying the counter, and the counter advances |
| Properties.SuccessiveIds | server.js:41-44 | successive creates append bears whose ids count up from the counter, in request order, with the given names |
| Properties.IdsFromOne | server.js:37-44 | from start-up, the i-th created bear (counting from 0) gets id i + 1 |
| Properties.StaysAbsent | server.js:81-121 | an id below the counter that is not stored stays absent through any later requests |
| Properties.NoResurrection | server.js:116-121 | after a bear is deleted, reading its id answers 404 after any later requests |
| Properties.GetAfterPost | server.js:82-103 | a created bear reads back by its id with the name it was given |
| Properties.GetAfterPut | server.js:97-115 | after an update, reading the id gives the same id with the new name |
| Properties.PutDuplicates | server.js:104-115 | an update grows the listed bears by one and leaves at least two records with the id, all carrying the new name |
| Properties.DeleteIdempotent | server.js:116-121 | deleting an id twice gives the same store and the same response as deleting it once |
| Properties.DeleteAbsent | server.js:116-121 | deleting an id that is not stored changes nothing and still answers 200 "Bear deleted!" |
| Properties.DeleteAfterPut | server.js:104-121 | a delete after an update removes both the original and the pushed copy, so a read answers 404 |
| Properties.LengthIsNotCreatesMinusDeletes | server.js:104-115 | one create followed by one update of that bear lists two bears |
| Properties.SessionCreates | server.js:81-94 | from start-up, creating "Yogi" and "Boo-Boo" yields ids 1 and 2, and listing shows them in creation order |
| Properties.SessionUpdate | server.js:104-115 | renaming bear 1 to "Yogi Bear" answers with bear 1 renamed and lists it twice |
| Properties.SessionRunCreates | server.js:81-88 | the session's run, after its two creates, continues from the store holding "Yogi" with id 1 and "Boo-Boo" with id 2 |
| Properties.SessionRunUpdate | server.js:89-115 | the session's list request leaves the store alone, and its update leaves bear 1 renamed and stored twice |
| Properties.SessionRunDelete | server.js:116-121 | the session's delete of bear 2 leaves only the two copies of bear 1 |
| Properties.Session | server.js:81-121 | the whole session as one run from start-up ends with two copies of bear 1 renamed "Yogi Bear", and reading bear 2 then answers 404 |
| Properties.SessionDelete | server.js:116-121 | deleting bear 2 answers success and leaves only the two copies of bear 1; reading bear 2 then answers 404 |

`MockStore.Find` is the identity on the list. `Routes.Rename` is the in-place name assignment. Both appear in the table through the members that use them, `Routes.List` and `Routes.Put`.

## Left out

- Express, body-parser, morgan, dotenv, `app.listen` and the uncaught-exception hook (server.js:1-12, 123-141): framework wiring and I/O. A request enters the model already routed, with its body parsed.
- The MongoDB branch (server.js:20-32): a foreign library, and its model file `app/models/bear` is not part of this model.
- The 500 responses: the mock never passes an error to a callback, so those paths cannot be reached.
- JSON serialisation of bodies: bodies stay Dafny values. The model does not say that an absent name is left out of the JSON.
- JavaScript loose equality between the string route parameter and numeric ids (server.js:51, 61): the `:bear_id` parameter is a `nat` here. A parameter that is not a number matches no record in the source, and that case is not modelled.
- Object identity: the store holds values, not references. Records that share an id are one object in the source. The model therefore renames every record with that id on an update, and `Valid` states that such records are equal. Any reachable store then looks the same through `find`, `findById` and `remove` as the source's.
- Concurrency: the source runs one handler at a time on one thread, and `Run` handles requests in sequence.
- Ids are unbounded naturals here. In the source `nextId` is a JavaScript number (server.js:37, server.js:42), so after 2^53 creates `nextId++` stops advancing and two objects share an id. The model does not cover that double-precision limit. `NoIdReuse`, `IdsIssued` and `Aliased` hold only below it.
- Names are a string or nothing here. In the source a name is whatever body-parser produces for `req.body.name` (server.js:11-12, server.js:83, server.js:109), which may also be a number, `null`, an array or an object. The store only copies the name and never inspects it, so no property here depends on its type.
