# FurryCare backend: the pet and reminder CRUD rules

FurryCare is a pet-care tracker whose backend is an Express API over two
MongoDB collections, `pets` and `reminders`. This project models the request
handlers of that API and the two Mongoose schemas behind them:

- the document store is a class `Store.Db` with two fields, a map from stored
  id to `Pet` and a map from stored id to `Reminder`, which the handlers
  update in place; its invariant `Valid()` says every stored document
  satisfies its schema and sits under its own id;
- each handler of `pets.controller.js` and `reminders.controller.js` is a
  module-level method that takes the store `db: Db` and updates its fields
  (the ones that write), or a function over one table (the read-only `list`
  and `get` queries). `listPets` has no failure path, so `ListPets` returns
  the sorted pets themselves; every other handler returns an `Outcome`: `Ok` (200),
  `Created` (201), `BadRequest` (400, with the source's message),
  `NotFound` (404, with the source's message) or `ServerError` (500, the
  schema refused the write);
- the whitelist loops of `updatePet` and `updateReminder` are methods with a
  loop over the body's keys, proved equal to a whitelist function about
  which the "unknown keys are dropped" and "an unparseable date is skipped on
  its own" lemmas are stated;
- the schemas are datatypes (`Pet`, `Reminder`, the `Frequency` enum) with
  validity predicates, plus the casts the schema applies on create and on
  update (String paths cast and trimmed, `required` failing on empty text,
  the `frequency` enum, the Boolean cast of `completed`, the defaults
  `once` and `false`, and the timestamps).

Foreign calls are parameters or fixed definitions:

- `mongoose.Types.ObjectId.isValid(s)` is `ObjectIds.ValidId`: exactly 24
  hexadecimal digits. A valid id names the record stored under its lower-case
  form (`ObjectIds.Canon`), since an ObjectId cast from hex ignores letter case.
- `new Date(x)` followed by the `isNaN(d.getTime())` test is the parameter
  `parseDate: Value -> Option<Date>`: every result holds for any parser.
- The id a `create` generates and the clock that stamps `createdAt` and
  `updatedAt` are the parameters `newId` (fresh: not in the table) and `now`.

Where the code behaves otherwise than its comments or a reader would expect,
the model follows the code:

- A `name`, `type` or `title` made only of white space passes the handler's
  truthiness test, which a reader would take for the 400 "required" check.
  The schema's `trim` then empties it and `required` refuses it, so the reply
  is a 500 through the error middleware, not a 400.
- The doc comments of `updatePet` (pets.controller.js:79, "400: invalid id /
  bad date") and `updateReminder` (reminders.controller.js:106, "400: invalid
  id / invalid date") promise a 400 for a bad date. The code skips an
  unparseable date silently and applies the rest of the body, and the model
  does the same.
- `findByIdAndUpdate` with `runValidators` validates the update before it runs
  the query. So an update the schema refuses is a 500 even when no record has
  the id. A 404 comes only for an update the schema accepts.

## Model

| member | source | states |
|---|---|---|
| `JsValues.Trim` | backend/src/models/pet.model.js:8 | the result has no white space at either end; it is empty exactly when the input is all white space; a trimmed string is left as it is |
| `JsValues.TrimRemovesOnlyEnds` | backend/src/models/pet.model.js:14 | trimming only removes white space at the two ends: the result is a contiguous piece of the input with only white space before and after it |
| `JsValues.DecimalRoundTrip` | backend/src/models/pet.model.js:8 | the digits `String` writes for a non-negative integer (no leading zero) read back as that integer |
| `JsValues.NumberTextRoundTrip` | backend/src/models/pet.model.js:8 | the String form a number is cast to in a String path reads back as the number: a minus sign exactly when it is negative, then the digits of its magnitude |
| `JsValues.CastRequiredText` | backend/src/models/pet.model.js:8-11 | a required trimmed String path holds trimmed, non-empty text; it refuses null and text that is all white space; the stored text is the value's String form with only white space cut from its two ends, and a string that is already trimmed and non-empty is kept as it is |
| `JsValues.CastOptionalText` | backend/src/models/pet.model.js:14 | the optional `breed` path: null leaves it unset; any other value is stored as its String form with only white space cut from its two ends, and a trimmed string as it is |
| `JsValues.CastBoolean` | backend/src/models/reminder.model.js:21 | the `completed` path keeps a boolean as it is and refuses null |
| `ObjectIds.CanonIsCanonical` | backend/src/controllers/pets.controller.js:30-35 | a well-formed id casts to a stored-form id (24 lower-case hex digits), and casting that again gives the same id back |
| `Listing.SortedValues` | backend/src/controllers/reminders.controller.js:31 | a sorted find returns every value of the collection and nothing else, one entry per document, in ascending key order; when no two documents are equal, each appears exactly once |
| `Listing.Insert` | backend/src/controllers/pets.controller.js:15 | placing a document into a sorted result keeps it sorted and adds exactly that document |
| `PetModel.NewPet` | backend/src/models/pet.model.js:6-21 | `Pet.create` succeeds exactly when `name` and `type` cast to non-empty trimmed text; the record satisfies the schema, carries the given id and birthDate, stores name, type and breed as their casts (a string trimmed), sets breed only when one was given, and has both timestamps set to now |
| `PetModel.ApplyPetUpdates` | backend/src/controllers/pets.controller.js:106-111 | an accepted update keeps the pet schema-valid, keeps id and createdAt, sets updatedAt to now, changes only the fields named in the update, and stores each named field as its cast: name and type as required text, breed as the trimmed String form or unset for null, birthDate as parsed |
| `ReminderModel.ParseFrequency` | backend/src/models/reminder.model.js:18 | only the four enum spellings are accepted, and each accepted string is the stored name of the frequency it gives |
| `ReminderModel.FrequencyRoundTrip` | backend/src/models/reminder.model.js:18 | each frequency's stored name parses back to that frequency |
| `ReminderModel.CastFrequency` | backend/src/models/reminder.model.js:18 | a `frequency` value is accepted only when its string form is one of the enum names |
| `ReminderModel.NewReminder` | backend/src/models/reminder.model.js:5-26 | `Reminder.create` succeeds exactly when the title casts to non-empty trimmed text and the frequency is in the enum; the record is schema-valid, keeps the given pet id and due date, stores the title's cast and the frequency the enum cast gives, is not completed, and has both timestamps set to now |
| `ReminderModel.ApplyReminderUpdates` | backend/src/controllers/reminders.controller.js:134-137 | an accepted update keeps the reminder schema-valid, never changes id, petId or createdAt, sets updatedAt to now, changes only the fields named in the update, and stores each named field as its cast: the title trimmed, the parsed dueAt, the enum value the frequency names, and the Boolean cast of completed |
| `Store.PetTableStore` | backend/src/models/pet.model.js:5-25 | storing a schema-valid pet under its own stored-form id keeps every pet in the table valid |
| `Store.ReminderTableStore` | backend/src/models/reminder.model.js:5-32 | storing a schema-valid reminder under its own stored-form id keeps every reminder in the table valid |
| `PetsController.ListPets` | backend/src/controllers/pets.controller.js:13-17 | every stored pet is returned exactly once and nothing else is, newest `createdAt` first |
| `PetsController.GetPet` | backend/src/controllers/pets.controller.js:26-39 | a malformed id gives 400 "Invalid petId"; a well-formed id with no pet gives 404 "Pet not found"; otherwise 200 with the stored pet of that id |
| `PetsController.CreatePet` | backend/src/controllers/pets.controller.js:48-72 | a missing or falsy name or type gives 400 before anything else; then a non-null unparseable birthDate gives 400; then a schema refusal (a name or type that trims to nothing) gives 500, and exactly then; every failure stores nothing; a success stores exactly one new pet under the fresh id, holding only name, type, breed (when not null) and the parsed birthDate; reminders are untouched |
| `PetsController.CollectPetUpdates` | backend/src/controllers/pets.controller.js:89-104 | the loop over the body's keys collects exactly the whitelist: name, type and breed copied when present, birthDate only when it parses, every other key dropped |
| `PetsController.UnknownPetKeyIgnored` | backend/src/controllers/pets.controller.js:93-94 | adding or changing a key outside {name, type, breed, birthDate} leaves the collected updates the same |
| `PetsController.UnparseableBirthDateSkipped` | backend/src/controllers/pets.controller.js:96-100 | an unparseable birthDate is skipped on its own: the updates equal those of the body without it, so the other allowed fields still apply |
| `PetsController.UpdatePet` | backend/src/controllers/pets.controller.js:82-116 | a malformed id gives 400 and changes nothing; otherwise a refused update gives 500, a missing pet gives 404, and a success replaces exactly that pet by the old pet with the whitelisted updates applied; every other pet and every reminder is unchanged |
| `PetsController.DeletePet` | backend/src/controllers/pets.controller.js:125-136 | a malformed id gives 400 and a missing pet 404, both changing nothing; otherwise exactly that pet is removed and `{ok: true, deleted: id}` is returned; reminders are untouched (no cascade) |
| `RemindersController.RequestedPetId` | backend/src/controllers/reminders.controller.js:19 | the pet id is the route parameter when it is non-empty, else the query string's |
| `RemindersController.RemindersOf` | backend/src/controllers/reminders.controller.js:27 | the `{petId}` filter keeps exactly the reminders with that petId |
| `RemindersController.ByDueDate` | backend/src/controllers/reminders.controller.js:31 | the reminders are returned in ascending `dueAt` order, all of them and nothing else, each once when the table is valid |
| `RemindersController.ListReminders` | backend/src/controllers/reminders.controller.js:17-33 | a truthy, malformed pet id gives 400 "Invalid petId"; a well-formed one gives exactly that pet's reminders; no pet id gives every reminder; the result is always sorted by dueAt ascending, each reminder at most once |
| `RemindersController.GetReminder` | backend/src/controllers/reminders.controller.js:43-55 | a malformed id gives 400 "Invalid reminderId"; a well-formed id with no reminder gives 404 "Reminder not found"; otherwise 200 with the stored reminder |
| `RemindersController.FrequencyOrDefault` | backend/src/controllers/reminders.controller.js:94 | an absent or falsy frequency becomes "once"; a truthy one is passed on unchanged |
| `RemindersController.CreateReminder` | backend/src/controllers/reminders.controller.js:66-98 | the checks run in order, each failure a 400 that stores nothing: petId, title and dueAt present; petId well-formed; a pet with that id stored; dueAt parses; then a title or frequency the schema refuses gives 500 and nothing else, and every 400 carries one of the four messages; a success stores one new reminder whose petId names a stored pet, with the parsed dueAt, the frequency defaulting to once, and completed false; pets are untouched |
| `RemindersController.CollectReminderUpdates` | backend/src/controllers/reminders.controller.js:117-131 | the loop over the body's keys collects exactly the whitelist: title, frequency and completed copied when present, dueAt only when it parses, every other key (petId among them) dropped |
| `RemindersController.UnknownReminderKeyIgnored` | backend/src/controllers/reminders.controller.js:121-122 | adding or changing a key outside {title, dueAt, frequency, completed}, petId included, leaves the collected updates the same |
| `RemindersController.UnparseableDueAtSkipped` | backend/src/controllers/reminders.controller.js:124-128 | an unparseable dueAt is skipped on its own: the updates equal those of the body without it, so a title in the same body still applies |
| `RemindersController.UpdateReminder` | backend/src/controllers/reminders.controller.js:109-142 | a malformed id gives 400 and changes nothing; otherwise a refused update gives 500, a missing reminder 404, and a success replaces exactly that reminder by its updated form with the same petId; pets are unchanged |
| `RemindersController.DeleteReminder` | backend/src/controllers/reminders.controller.js:152-164 | a malformed id gives 400 and a missing reminder 404, both changing nothing; otherwise exactly that reminder is removed and `{ok: true, deleted: id}` is returned; pets are untouched |
| `Scenarios.ReminderOutlivesItsPet` | backend/src/controllers/pets.controller.js:132-135 | create pet Fido, create reminder "Vet" for it, delete Fido: the delete answers 200 with Fido's id and leaves no pet, yet the reminder can still be fetched with 200, frequency once and not completed |
| `Scenarios.ReminderForDeletedPetRefused` | backend/src/controllers/reminders.controller.js:80-81 | after Fido is deleted, a reminder naming Fido is refused with 400 "Invalid petId (pet does not exist)" and nothing is stored, for any date parser |

## Left out

- HTTP plumbing is not modelled: routing, CORS, JSON parsing, the async wrapper and the error middleware. A status code is a variant of `Outcome`. A 500 carries no message, because Mongoose's error text is not modelled.
- `mongoose.Types.ObjectId.isValid` is taken as "24 hex digits". Mongoose also accepts any 12-character string and numbers. The model treats such ids, and any non-string `petId` in a create body, as malformed.
- Numbers in a body are unbounded integers (`Num(int)`). JSON numbers are doubles in JavaScript: integers beyond 2^53 lose precision, and `String(n)` switches to exponent notation ("1e+21") from 10^21 upward. The model writes every integer in plain decimal digits, so these cases are not modelled.
- JavaScript date parsing is the parameter `parseDate`. Id generation (`ObjectId`) and the clock are the parameters `newId` and `now`.
- Request bodies hold JSON scalars only: null, booleans, integers and strings. Arrays, nested objects and fractional numbers are not modelled, so neither are Mongoose's cast errors on them.
- In an update, null for `title`, `frequency` or `completed` is treated as a schema refusal (500). Mongoose's enum and Boolean paths may store null instead. Null for `name` or `type` fails `required`, as in the source. Null for `breed` is modelled as unsetting it: the source sends `breed: null` in its `$set`, so the stored document holds an explicit null, which the model cannot tell apart from an absent breed.
- Every accepted update refreshes `updatedAt`, the empty update included. Whether Mongoose touches the document for an empty update is internal to Mongoose.
- `.lean()` response shapes, the `__v` version key and the indexes on `petId` and `dueAt` are not modelled. Indexes do not change results.
- When two documents have the same sort key, the list queries return them in any order. MongoDB promises no order among ties either.
- The race between `Pet.exists` and `Reminder.create` in createReminder is not modelled. The two steps are one sequential step, so concurrency is out of scope.
- `backend/src/utils/id.js` is unused by the core and is not part of this model. The React client and its fetch wrappers are view state and network I/O, and are also left out.
- PetsController.ListPets: the contract says each stored pet appears exactly once, via multiplicities. It does not name the order among pets with the same `createdAt`.
- RemindersController.ListReminders: each reminder is stated to appear at most once. Together with the membership clause, this means exactly once.
