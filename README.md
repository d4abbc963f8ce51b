# English for Kids API: a Dafny model of its content core

The service is a small FastAPI backend for a children's English course. It
keeps three MongoDB collections:

- `lesson`: titled lesson units;
- `word`: vocabulary items, each tagged with the id of its lesson;
- `progress`: one record per quiz submission.

It serves them over HTTP:

- `GET /api/lessons` lists every lesson.
- `GET /api/lessons/{lesson_id}/words` lists the words of one lesson.
- `POST /api/progress` stores a new progress record and returns its id.
- `GET /api/progress/{user_id}/{lesson_id}` returns the first stored record
  for that pair, or `{"status": "none"}`.
- `POST /api/seed` is meant to write three demo lessons and twelve demo
  words when no lesson exists yet. As written, its guard raises whenever a
  database is connected, so it never seeds (see "## Findings").

Stored documents are sent back through `serialize_doc`: the lessons and
words that the two list routes return, and the record that the progress
lookup finds. That function drops the store's internal `_id` and adds a
string `id`. The other answers are built directly: the id returned for a
new progress record, the "none" marker, and the seeder's status answers.

The model has these files:

- `wrappers.dfy`: `Option` and `Result`.
- `documents.dfy`: documents as maps from keys to values, and Python's
  `str()` on those values. Object ids print as hex, integers as decimal.
- `serialization.dfy`: `serialize_doc` and `serialize_list`.
- `store.dfy`: the store adapter. It is a `class` whose collections are a map
  of sequences in insertion order. Object ids come from a counter. An
  `available` flag says whether the process holds a database handle; without
  one, every store call fails.
- `schemas.dfy`: the `Lesson`, `Word` and `Progress` record shapes. Each
  comes with a validator that returns `None` where the shape would reject a
  document.
- `routes.dfy`: the four content and progress routes, as module-level
  methods that take a `Store`.
- `seeder.dfy`: the seeding route. The source has four insertion loops (one
  over the lessons and one per word list). They are modelled as two loop
  methods with invariants: `InsertLessons`, and `InsertWords`, which
  `InsertWordLists` calls once per list. The route is modelled twice: as
  evidently intended (`SeedContent`) and as written (`SeedContentAsWritten`).

A store error stands for the exception that each route turns into an
HTTP 500 response.

## Model

| member | source | states |
|---|---|---|
| Documents.IdToStringInjective | main.py:26 | two object ids have the same `str()` form exactly when they are the same id |
| Documents.IdToString | main.py:26 | `str()` of an object id is non-empty, every character of it is a hex digit (0-9, a-f, so no sign), it has no leading zero, and those digits read in base 16 give back the id |
| Documents.NatToString | main.py:26 | the positional rendering of a number is non-empty, every character of it is a digit of the base (so it has no sign), it has no leading zero, it has one digit exactly when the number is below the base, and its digits denote the number |
| Documents.IntToString | main.py:26 | `str()` of an integer is non-empty and starts with '-' exactly when the integer is negative; every character after that sign (every character, for a non-negative integer) is a decimal digit, with no leading zero, and those digits denote its magnitude |
| Documents.IntToStringInjective | main.py:26 | two integers have the same `str()` form exactly when they are equal |
| Documents.ToStr | main.py:26 | `str()` returns a string value unchanged, gives "None" for null, the hex form for an object id and the decimal form for an integer |
| Documents.ToStrObjIdInjective | main.py:26 | the `str()` forms of two object-id values are equal exactly when the values are equal |
| Serialization.SerializeDoc | main.py:21-27 | an empty document and one without `_id` come back unchanged; otherwise the result has no `_id`, holds `id` = `str()` of the removed value, keeps every other key with its value, and has exactly the keys of the input minus `_id` plus `id` |
| Serialization.SerializeDocIdempotent | main.py:21-27 | serialising an already serialised document changes nothing |
| Serialization.SerializeDocInjective | main.py:21-27 | two stored documents with object ids and no `id` key of their own that serialise alike are equal, so no information is lost |
| Serialization.SerializeList | main.py:30-31 | the result has the input's length, and element i is the serialisation of input element i |
| Serialization.SerializeListAppend | main.py:30-31 | serialising a concatenation is the concatenation of the serialised parts, so order is kept |
| Serialization.SerializedListHasIds | main.py:30-31 | every payload built from stored documents has a non-empty string `id` and no `_id` |
| DocumentStore.MatchesIsSubmap | main.py:104 | a document matches the exact-match filter passed at main.py:104 and 125 exactly when the filter is a sub-map of it |
| DocumentStore.Select | main.py:104 | a filtered read returns no more documents than are stored |
| DocumentStore.SelectMembers | main.py:104 | a document is returned by a filtered read exactly when it is stored and matches every filter entry |
| DocumentStore.SelectEmptyIff | main.py:125-126 | a filtered read is empty exactly when no stored document matches |
| DocumentStore.SelectAppend | main.py:104 | a filtered read over a concatenation reads each part in turn, so stored order is kept |
| DocumentStore.SelectAll | main.py:95 | the empty filter returns every stored document in order |
| DocumentStore.Limit | main.py:125 | `limit=1` returns a prefix of the matches, of length min(limit, matches); no limit returns them all |
| DocumentStore.Stamp | main.py:116 | the inserted document is the data plus a fresh `_id`, with every other key kept |
| DocumentStore.Inserted | main.py:116 | an insertion appends to the named collection and leaves every other collection unchanged |
| DocumentStore.InsertKeepsIds | main.py:116 | inserting with the next counter value keeps every stored id below the counter and all ids distinct, across collections |
| DocumentStore.FreshIdIsNew | main.py:116-117 | the id string returned for a new document differs from the `str()` of every stored document's id |
| DocumentStore.SelectStopped | main.py:125 | a scan that stops at the end of the collection, or once it holds `limit` matches, holds exactly the capped selection |
| DocumentStore.Store.CreateDocument | main.py:116 | without a handle: an error and no change; with one: the new id's string is returned, the document is appended to its collection only, the counter advances, and the id invariants hold |
| DocumentStore.Store.GetDocuments | main.py:125 | without a handle: an error; with one: the matching documents in stored order, cut to the limit when one is given (a loop that stops at the limit, proved against Select and Limit) |
| DocumentStore.Store.CountDocuments | main.py:137 | the count is the number of documents in the collection |
| Schemas.ParseLesson | schemas.py:10-19 | a lesson needs a string `title`; a missing `level` becomes "beginner", a missing `cover_emoji` becomes "📘", and missing optional fields become null |
| Schemas.LessonRoundTrip | schemas.py:10-19 | validating the document form of any lesson gives that lesson back |
| Schemas.LessonDefaults | schemas.py:15-19 | a title alone validates to a lesson with the declared defaults |
| Schemas.ParseWord | schemas.py:21-30 | a word needs `lesson_id`, `english` and `hebrew`, whose values it carries; missing `image_url` and `example` become null |
| Schemas.WordRoundTrip | schemas.py:21-30 | validating the document form of any word gives that word back |
| Schemas.WordDefaults | schemas.py:26-30 | the three required fields alone validate to a word with null optional fields |
| Schemas.ParseProgress | schemas.py:32-41 | every accepted record has both counters ≥ 0; a negative counter is rejected; a missing counter becomes 0 and a missing score null |
| Schemas.ProgressRoundTrip | schemas.py:32-41 | a record's document validates exactly when both counters are non-negative, and then gives the record back |
| Schemas.ProgressDefaults | schemas.py:37-41 | the two ids alone validate to a record with zero counters and no score, which is valid |
| Routes.ParseProgressIn | main.py:82-87 | the request body needs `user_id` and `lesson_id`; missing counters default to 0; given counters are carried as sent, with no bound; a missing or null `last_score` becomes no score, and a given one is carried as sent |
| Routes.Dump | main.py:115 | `payload.model_dump()` has exactly the five declared fields, each with the payload's value, and a missing score as null |
| Routes.ProgressInRoundTrip | main.py:82-87 | the dumped body validates back to the same body |
| Routes.StoredProgressValidIff | main.py:115-116 | the stored progress record is a valid `Progress` exactly when both submitted counters are non-negative, and then it carries the submitted values |
| Routes.NegativeCountsAccepted | main.py:82-87 | a body with `correct = -1` passes request validation, yet its stored form is not a valid `Progress` |
| Routes.ListLessons | main.py:92-98 | without a handle: an error; with one: every lesson, serialised, in stored order |
| Routes.MatchesWordFilter | main.py:104 | the word filter accepts a document exactly when its `lesson_id` equals the requested id |
| Routes.SelectedWordsTagged | main.py:104-105 | every serialised word selected for a lesson carries that lesson's `lesson_id` |
| Routes.ListWordsForLesson | main.py:101-107 | without a handle: an error; with one: the serialised words tagged with the lesson, in stored order, every one carrying that `lesson_id`; an unknown lesson gives an empty list |
| Routes.SubmitProgress | main.py:110-119 | without a handle: an error and no change; with one: exactly one new progress record (the dumped body with a fresh `_id`) is appended, the id counter advances by one, and `{"id": <its id>, "status": "ok"}` is returned |
| Routes.ResubmitKeepsBoth | main.py:114-116 | submitting the same body twice appends two records after the old ones, and their ids print differently (no upsert) |
| Routes.ProgressLookup | main.py:126 | the answer never carries `_id`; unless it is the "none" marker, it carries the requested `user_id` and `lesson_id` |
| Routes.LookupNoneIff | main.py:125-126 | the lookup answers `{"status": "none"}` exactly when no stored record matches the user and lesson |
| Routes.LookupAfterFirstSubmit | main.py:122-128 | after the first submission for a pair, the lookup returns that record, serialised |
| Routes.SubmittedPayload | main.py:115-117 | the serialised form of a stored submission carries the id string returned to the client and the submitted counters |
| Routes.LookupKeepsEarliest | main.py:125-126 | once a pair has a record, later insertions do not change the lookup: it keeps returning the earliest record |
| Routes.GetProgress | main.py:122-128 | without a handle: an error; with one: the serialised first matching record, or the "none" marker |
| Seeder.DemoContent | main.py:142-171 | the demo data: three lessons, each a valid `Lesson` at level "beginner" with the English titles Colors, Animals and Food, and three word lists of four words each |
| Seeder.StoredWordValid | main.py:174 | a demo word written as `{**w, "lesson_id": …}` and stored validates as a `Word` of that lesson, spelled as in the list |
| Seeder.StampedLessons | main.py:142-151 | the seeder stores three lesson documents |
| Seeder.SeededWords | main.py:153-181 | the seeder stores twelve word documents |
| Seeder.LessonIdsDistinct | main.py:147-150 | the three collected lesson ids are pairwise different |
| Seeder.LessonIdIsStoredId | main.py:148-150 | the id string collected for lesson m, which tags word list m, is `str()` of the `_id` that the m-th stored demo lesson carries |
| Seeder.TaggedWordValid | main.py:173-181 | word i of list m, stored among three lists tagged with any three ids, validates as a `Word` of the m-th id, spelled as in the list |
| Seeder.SeededWordAt | main.py:173-181 | word i of list m is seeded word 4m+i; it is tagged with lesson m's id and gets an id after the three lessons' ids |
| Seeder.SeededLessonsValid | main.py:142-146 | every seeded lesson document is a valid `Lesson` with its demo title, both optional texts and level "beginner" |
| Seeder.SeededWordValid | main.py:154-181 | every seeded word document is a valid `Word` of lesson m, spelled as in list m |
| Seeder.SelectTagged | main.py:173-181 | a tagged word list is selected whole by its own lesson id and not at all by any other |
| Seeder.SelectOneOfThree | main.py:173-181 | after three lists with distinct lesson ids, filtering by the k-th id yields exactly list k, provided no older word has that id |
| Seeder.WordsOfSeededLesson | main.py:101-107 | after seeding, listing the words of the k-th new lesson yields exactly its four words, in insertion order |
| Seeder.InsertLessons | main.py:147-151 | with a handle: the lessons are appended in order with consecutive ids, and their id strings are returned in order; without one: an error and nothing written |
| Seeder.InsertWords | main.py:173-175 | the words of one list are appended in order, each tagged with the lesson id; the count equals the list length; other collections are unchanged |
| Seeder.InsertWordLists | main.py:173-181 | the three lists are appended one after another, list m tagged with `ids[m]`; twelve words are created |
| Seeder.WriteDemoContent | main.py:140-181 | without a handle: an error and nothing written; with one: three lessons and twelve tagged words are appended after the old documents, nothing else changes, and `Created(3, 12)` is returned |
| Seeder.SeedContent | main.py:133-187 | without a handle: an error and no change; lessons already present: "Lessons already seeded" and no change; otherwise three lessons and twelve tagged words are appended after the old documents, nothing else changes, and `Created(3, 12)` is returned |
| Seeder.SeedContentAsWritten | main.py:133-187 | the route as written: with a handle it fails at the guard and writes nothing; without one the first insertion fails and nothing is written; it never seeds |
| Seeder.AsWrittenNeverSeeds | main.py:137 | on a fresh, connected, empty store the route as written fails and writes nothing, while the corrected SeedContent answers `Created(3, 12)` and writes 15 documents |

## Left out

- HTTP itself is not modelled: FastAPI routing, CORS, the status codes, and the text of exception details. An error result stands for the HTTP 500 a route answers.
- The root, `/api/hello` and `/test` routes are not modelled, and neither is the uvicorn entry point. They only report status text.
- database.py is not part of this model. The store class assumes what main.py relies on: append-only inserts, exact-match filters, stored order, an optional limit, and ids as strings.
- The store may record creation and update timestamps. These are not modelled.
- A store can fail only as a whole, through `available`. Network or write failures partway through a route (for example, after some seed lessons were written) are not modelled.
- Concurrency is not modelled. Two simultaneous seed requests can both see an empty lesson collection; the model runs one route at a time.
- Object ids are modelled as numbers from a counter and printed as unpadded lowercase hex. MongoDB's 24-character ObjectId strings are not modelled; all that is used is that distinct ids print differently.
- Documents.NatToString renders only bases 10 and 16, the two that `str()` uses here.
- Key order in documents and payloads is not modelled. Documents are maps.
- Pydantic's lax coercions are not modelled, for example a numeric string accepted as an integer. The validators accept exactly the declared types.
- `CreateDocument` overwrites an `_id` already present in the data. None of the routes passes one.
- Serialization.SerializeDoc: the Python function returns the same object for an empty document, and a copy otherwise. Dafny values have no identity, so that aliasing is not captured. For the same reason, the model cannot express that the argument is left unmodified.
- The model store returns documents in insertion order. A MongoDB `find` without a sort does not guarantee any order, and main.py:125 takes whichever record comes first. Routes.LookupKeepsEarliest and the "in stored order" parts of Routes.ListLessons, Routes.ListWordsForLesson and Seeder.WordsOfSeededLesson are properties of the model store, not promises of the service.
- Documents.ToStr: integer `_id` values never occur in this service. Only the sign and magnitude of an integer's `str()` form are stated, through Documents.IntToString and Documents.IntToStringInjective.
- DocumentStore.Limit: a limit of 0 returns no documents here. Only `limit=1` is used.
- The `SeedData` shape (schemas.py:44-46) is not used by any route and is not modelled.
- Routes.SubmitProgress: the model accepts and stores counters and scores of any size. MongoDB stores integers as signed 64-bit values, so the service refuses a value outside that range. Either request validation rejects it (422) or the driver's encoder raises (500). In both cases main.py:117 never answers "ok" for such a value, while the model does.
- Routes.ParseProgressIn: the request body declares no lower bound on `correct` or `incorrect`, unlike the `Progress` shape's `ge=0`. The model follows the code, so negative counters reach the store (Routes.NegativeCountsAccepted).

## Findings

| source | as written | input that shows it | evidently intended | confidence | as-written member | corrected member |
|---|---|---|---|---|---|---|
| main.py:137 | `lessons_count = db["lesson"].count_documents({}) if db else 0` truth-tests the PyMongo `Database` handle, which raises instead of returning a boolean | any `POST /api/seed` while a database is connected, even with an empty `lesson` collection: the route answers 500 and never seeds | count the lessons whenever a handle exists (`if db is not None`) | medium, not executed (the handle's type comes from database.py, which is not part of this model) | Seeder.SeedContentAsWritten | Seeder.SeedContent |
