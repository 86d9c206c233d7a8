# Per-device notes API: the Lambda handler, modelled in Dafny

The backend is a single AWS Lambda handler, `backend/lambda.py`, serving a
small notes API. A client is identified only by a bearer device id, which it
sends in the `x-device-id` header or as `device_id` in a JSON body. It can
create, list, read, update and delete its own notes. The notes sit in one
DynamoDB table keyed by `note_id`, with an index on `device_id`.

This project models the handler's decision logic and its effect on the
table, and proves what it promises:

- `Text` (text.dfy): Python's `str.strip()`, using the full `str.isspace`
  set, and `str.split(sep)`, each with its own lemmas. `Strip` returns the
  piece of its input that has only whitespace around it and none at its own
  ends. It is idempotent and yields `""` exactly on all-whitespace strings.
  `Split` and `Join` are inverses, and `Split` yields one piece more than
  there are separators.
- `Notes` (notes.dfy): the rows, the event the handler reads, the parsed
  body, the exceptions it raises or meets, and the response envelope.
  This module also holds `cors_headers()` and the mapping from exception
  to status.
- `NoteStore` (store.dfy): the table as a class holding a `map` from note
  id to row. Its methods are `put_item`, `get_item`, `update_item`,
  `delete_item` and the owner query. The query is a loop that visits the
  keys in an unspecified order and is proved to return exactly the
  caller's rows, each once.
- `Identity` (identity.dfy): `get_device_id`. It is a specification
  function `DeviceIdOf`, plus the method `GetDeviceId`, which reassigns the
  local value step by step as the source does and is proved equal to it.
- `Router` (router.dfy): `lambda_handler`. The pure decision `Plan` says
  what the handler does with a request. `Effect` says how the table
  changes, and `Answers` says what the response is. The imperative
  `LambdaHandler` method runs against a `NoteTable` and is proved to follow
  all three.
- `Properties` (properties.dfy): the handler's guarantees, stated over
  `Plan`, `Effect` and `Answers`. The table invariant (rows keyed by id,
  with stripped, non-empty texts) is proved to hold after every request.
- `Scenario` (scenario.dfy): one device creates a note and a second device
  tries to read and delete it. Then the owner reads it and deletes it. The
  exact status sequence is proved.

Behaviour worth noting:

- **DELETE is ownership-checked.** On `/notes/...`, the lookup and the
  owner comparison (`backend/lambda.py:108-112`) run before the method is
  examined. A device that does not own a note therefore cannot delete it
  (`Properties.DeleteOfForeignNoteRefused`).
- **A missing or foreign note is answered 400, not 404.** These cases, and
  a missing id parameter, raise `ValueError`. 404 is only the fall-through
  when no branch matches (`Properties.NotFoundExactly`).
- **A malformed POST or PUT body gets 400.** `json.JSONDecodeError` is a
  `ValueError`. The body of that response is the decoder's message, shown
  here as `DecodeError`.
- **A device id of whitespace only is accepted and becomes `""`.** The
  emptiness test comes before `strip()`
  (`Properties.BlankIdBecomesEmpty`).

The nondeterministic inputs are parameters. `uuid.uuid4()` is `freshId`,
required to be an id no row has yet. `datetime.utcnow().isoformat()` is
`now`, an opaque string. The JSON body arrives already parsed:
`Absent | Null | Malformed | NonObject | Object(fields)`. A field is either
a string or a non-string value with a known truthiness. Python type errors
are folded into the single outcome `Unexpected`, which yields 500: a
`None` body, a body that is not an object, or a field that is not a
string.

## Model

| member | source | states |
|---|---|---|
| Notes.CorsHeaders | backend/lambda.py:14-19 | exactly the three CORS header names, with any origin allowed |
| Notes.CorsAdvertises | backend/lambda.py:17-18 | the allowed-methods value lists exactly GET, POST, PUT, DELETE, OPTIONS; the allowed-headers value lists exactly Content-Type and x-device-id |
| Notes.MethodList | backend/lambda.py:17 | the comma-separated method list splits into the five methods, in order |
| Notes.HeaderList | backend/lambda.py:18 | the comma-separated header list splits into its two names |
| Notes.ErrorText | backend/lambda.py:161-166 | every `ValueError` the handler raises carries a non-empty message; only the decoder's error is left to the JSON library's text |
| Notes.FailureResponse | backend/lambda.py:161-174 | each exception response carries the CORS headers; it is 500 exactly for an unexpected error and 400 exactly for a `ValueError`; its body is the decoder's message exactly for a JSON error, and otherwise the error object carrying that failure's non-empty text |
| Text.LeadEnd | backend/lambda.py:37 | the left cut of `strip()`: everything before it is whitespace, and the character at it is not |
| Text.TrailStart | backend/lambda.py:37 | the right cut of `strip()`: everything from it on is whitespace, and the character before it is not |
| Text.Strip | backend/lambda.py:37 | the result is a contiguous piece of the input with only whitespace before and after it, and it has no whitespace at either of its own ends |
| Text.StrippedIsFixed | backend/lambda.py:37 | a string without whitespace at its ends is returned unchanged |
| Text.StripEmptyIff | backend/lambda.py:65-68 | `strip()` yields `""` exactly when the input is empty or all whitespace, so `not title` after strip rejects whitespace-only text |
| Text.StripIdempotent | backend/lambda.py:37 | stripping a stripped string changes nothing, so stripping twice equals stripping once |
| Text.Split | backend/lambda.py:43 | `split(' ')` always yields at least one piece |
| Text.JoinSplit | backend/lambda.py:43 | joining the pieces of a split with the separator gives back the original string |
| Text.SplitFree | backend/lambda.py:43 | no piece of a split contains the separator |
| Text.SplitCount | backend/lambda.py:43-44 | a split has one piece more than there are separators, so two pieces means exactly one space |
| Text.SplitJoin | backend/lambda.py:43 | splitting a join of separator-free pieces gives those pieces back |
| Identity.BodyDeviceId | backend/lambda.py:26-35 | a non-empty string `device_id` in an object body yields its strip; the error is unexpected exactly for a non-object body or a truthy non-string `device_id`; every other body (absent, `None`, undecodable, no or falsy `device_id`) yields no identity |
| Identity.DeviceIdOf | backend/lambda.py:21-37 | a non-empty lower-case header wins, then a non-empty mixed-case header; when neither gives a value the outcome is the body's; the result is stripped; the only errors are no identity or an unexpected error |
| Identity.GetDeviceId | backend/lambda.py:21-37 | the step-by-step reassignment of the local device id computes exactly `DeviceIdOf` |
| Router.DecodeRoute | backend/lambda.py:42-48 | the method and path of a request; what it computes is stated by `DecodeRouteCuts` |
| Router.DecodeRouteCuts | backend/lambda.py:42-48 | a route key with exactly one space is cut there into a method and a path, neither containing a space; any other route key falls back to the request-context method and `rawPath` |
| Router.FieldsOf | backend/lambda.py:65-69 | title and content are accepted exactly when both are strings that are not all whitespace; the accepted values are their strips and are non-empty; a non-string field is an unexpected error, otherwise the error is missing fields |
| Router.NoteFields | backend/lambda.py:64-69 | an absent body reads as `{}` and lacks both fields; undecodable text is exactly the JSON error; a `None` or non-object body is an unexpected error; an object body gets exactly `FieldsOf`'s outcome; an error is unexpected exactly when a Python type error arises |
| Router.Plan | backend/lambda.py:53-159 | the handler's decision for a request; what it decides is stated by `PlanGuards`, `PlanOnNotes`, `PlanUnderNotes` and the `Properties` lemmas |
| Router.PlanNote | backend/lambda.py:103-153 | a read, update or delete under `/notes/` is planned only on the row the id parameter names and only when the caller owns it; an update carries the validated fields |
| Router.PlanNotePut | backend/lambda.py:121-127 | a PUT on an owned note is an update with the decoded fields, or the refusal the decoding gives |
| Router.PlanUnderNotes | backend/lambda.py:103-112 | once a device id is known, every method on a path under `/notes/` is decided by the id and ownership check, then by the method |
| Router.PlanOnNotes | backend/lambda.py:63-100 | once a device id is known, `/notes` is a create for POST (or its validation error), a list for GET, and not found for any other method |
| Router.PlanGuards | backend/lambda.py:53-112 | only OPTIONS is a preflight; reads, updates and deletes touch only the caller's own row named by the id parameter; create and list act for the caller on `/notes`; create and update carry the validated fields |
| Router.Effect | backend/lambda.py:74-148 | only a create, an update or a delete changes the table; no key but the fresh id is ever added; a row is changed only by an update of that row or a create under its id |
| Router.Answers | backend/lambda.py:54-159 | the response for each decision: 200 preflight, the exception response, 201 with the new id, 200 with the caller's rows, 200 with the row, 200 "Updated", 204, or 404 "Not found", always with the CORS headers; it is the response half of `LambdaHandler`'s contract |
| Router.LambdaHandler | backend/lambda.py:39-174 | the handler keeps the table keyed by id, changes it exactly as the planned action does, and returns the response that action calls for |
| Router.HandleNote | backend/lambda.py:103-159 | the `/notes/` branch changes the table and answers exactly as `PlanNote` decides |
| NoteStore.NoteTable.PutItem | backend/lambda.py:74-81 | the row is written under its id, replacing any row there, and nothing else changes |
| NoteStore.NoteTable.GetItem | backend/lambda.py:108-109 | a row is returned exactly when the key is stored, and it is the row stored under that key |
| NoteStore.NoteTable.UpdateItem | backend/lambda.py:131-139 | only the title, content and update time of the keyed row are overwritten |
| NoteStore.NoteTable.DeleteItem | backend/lambda.py:148 | exactly the keyed row is removed |
| NoteStore.NoteTable.QueryByOwner | backend/lambda.py:91-94 | the result holds exactly the rows whose device id is the owner's, each once |
| Properties.OptionsShortCircuits | backend/lambda.py:53-58 | OPTIONS on any path, with any headers and body, is answered 200 with an empty body and the CORS headers, and leaves the table alone |
| Properties.HeaderWins | backend/lambda.py:22-25 | when either header has a non-empty value the body does not affect the device id |
| Properties.MalformedBodyIsAbsent | backend/lambda.py:26-32 | an undecodable or `None` body gives the same device-id outcome as no body |
| Properties.DeviceIdIsTrimmedRaw | backend/lambda.py:21-37 | a resolved device id is the strip of a non-empty raw string taken from one of the two headers or from the body's `device_id` |
| Properties.BlankIdBecomesEmpty | backend/lambda.py:23-37 | a whitespace-only value in whichever of the lower-case header, the mixed-case header or the body's `device_id` is consulted passes the emptiness test, and the device id becomes `""` |
| Properties.BodyIdStandsIn | backend/lambda.py:25-30 | when neither header gives a value, a non-empty string `device_id` in the body is used, exactly as if the header had carried it |
| Properties.NoIdentityRefused | backend/lambda.py:34-35 | a non-OPTIONS request with no header value and no usable body `device_id` is refused with 400 "Device ID is required", or 500 "Server error" exactly when the body is of the wrong JSON type, and the table is unchanged |
| Properties.CreateInsertsOneRow | backend/lambda.py:63-87 | a valid POST `/notes` adds exactly one row under the fresh id, owned by the caller, with stripped texts and equal creation and update times; every other row is unchanged and the answer is 201 with the new id |
| Properties.CreateOutcome | backend/lambda.py:71-87 | a create under a fresh id adds exactly that row and answers 201 with the id |
| Properties.CreateRejectsUnusable | backend/lambda.py:64-69 | a POST `/notes` whose title or content is missing, empty or only whitespace is refused with 400 "Title and content are required" (400 with the decoder's message for undecodable text) and adds no row; 500 exactly when the body is `None`, not an object, or has a non-string title or content |
| Properties.ListReturnsOwnRows | backend/lambda.py:90-100 | GET `/notes` answers 200 with exactly the caller's rows, each once, and changes nothing |
| Properties.CreatedNoteListedForOwnerOnly | backend/lambda.py:74-94 | a created note is listed for its device and for no other |
| Properties.SingleNoteGuard | backend/lambda.py:103-112 | under `/notes/`, with any method, a missing id, an absent row or a foreign row is refused with 400 and no row is touched; a missing or empty id gets the body "Missing note ID" |
| Properties.MissingAndForeignLookAlike | backend/lambda.py:108-112 | an absent row and a foreign row get the identical response |
| Properties.UpdateTouchesOnlyText | backend/lambda.py:121-145 | a valid PUT on an owned note changes only that row's title, content and update time; id, owner, creation time and all other rows stay; the answer is 200 "Updated" |
| Properties.ReviseOutcome | backend/lambda.py:131-145 | revising a present row rewrites its texts and update time only, and answers 200 "Updated" |
| Properties.UpdatePlanned | backend/lambda.py:121-127 | a valid PUT on an owned note is planned as an update of that row with the stripped texts |
| Properties.UpdateRejectsUnusable | backend/lambda.py:122-127 | a PUT on an owned note with a missing, empty or whitespace-only title or content is refused with 400 "Title and content are required" (400 with the decoder's message for undecodable text) and changes nothing; 500 exactly for a Python type error in the body |
| Properties.ReadReturnsOwnedRow | backend/lambda.py:114-119 | a GET on an owned note answers 200 with that row as stored and changes nothing |
| Properties.DeleteRemovesOneRow | backend/lambda.py:147-153 | a DELETE on an owned note removes exactly that row, keeps every other row, and answers 204 with an empty body |
| Properties.RemoveOutcome | backend/lambda.py:147-153 | removing a present row drops it alone and answers 204 |
| Properties.DeleteOfForeignNoteRefused | backend/lambda.py:108-148 | a DELETE of another device's note is refused with 400 and removes nothing |
| Properties.NotFoundExactly | backend/lambda.py:155-159 | with a device id, the answer is 404 exactly when the path is neither `/notes` nor under `/notes/`, or the method on `/notes` is not GET or POST, or the method on an owned note is not GET, PUT or DELETE |
| Properties.EnvelopeAndStatus | backend/lambda.py:52-174 | every response carries the three CORS headers; its status is one of 200, 201, 204, 400, 404, 500; it is 400 exactly for a `ValueError` and 404 exactly for an unmatched route |
| Properties.EffectKeepsInvariant | backend/lambda.py:63-153 | every table change with validated texts keeps rows keyed by id with stripped, non-empty texts, and keeps the id, owner and creation time of surviving rows |
| Properties.HandlerKeepsInvariant | backend/lambda.py:39-174 | every request keeps that table invariant and never changes the id, owner or creation time of a surviving row |
| Scenario.Request | backend/lambda.py:46-48 | a request without a route key is routed by its request-context method and raw path, and a stripped, non-empty header is its device id |
| Scenario.NotePath | backend/lambda.py:103 | `/notes/n1` is matched by the single-note branch |
| Scenario.StrangerRefused | backend/lambda.py:108-112 | a device that does not own `n1` is refused whatever the method |
| Scenario.OwnerReads | backend/lambda.py:114-119 | the owner's GET of `n1` reads the stored row |
| Scenario.OwnerDeletes | backend/lambda.py:147-153 | the owner's DELETE of `n1` removes it |
| Scenario.OwnerPosts | backend/lambda.py:63-81 | the owner's POST with usable texts is a create with the stripped texts |
| Scenario.OwnerPublishes | backend/lambda.py:63-87 | on an empty table the POST stores exactly one row, `n1`, and answers 201 |
| Scenario.StrangerTries | backend/lambda.py:103-112 | a stranger's GET and DELETE of `n1` both get 400 and leave the table unchanged |
| Scenario.OwnerUses | backend/lambda.py:103-153 | the owner's GET returns the stored row with 200, and the DELETE removes it with 204 |
| Scenario.TwoDevices | backend/lambda.py:39-174 | the full exchange answers 201, 400, 400, 200, 204, and the owner reads back the stripped texts |

## Left out

- The boto3 client, the table construction and the `DYNAMODB_TABLE` environment lookup (`backend/lambda.py:1-12`) belong to the AWS SDK. The table is an in-memory map instead.
- `uuid.uuid4()` and `datetime.utcnow().isoformat()` are nondeterministic. They are the parameters `freshId` (required to be unused) and `now` (an opaque string). ISO-8601 formatting is not modelled.
- Properties.HandlerKeepsInvariant: does not state `updated_at >= created_at`, because that depends on the clock, which is a parameter here.
- JSON encoding and decoding are library behaviour. Bodies arrive parsed, and responses carry abstract payloads. The text of a `JSONDecodeError` message is not modelled (`DecodeError`).
- The `print` logging of the incoming event and of unhandled errors is not modelled (`backend/lambda.py:40, 169`).
- Python's dynamic typing in the body is folded into one outcome, `Unexpected` (500). This covers a `None` body, a non-object JSON document, and a non-string field. Which Python exception arises is not modelled.
- Header values, `rawPath` and the `id` path parameter are strings in the model, so a non-string value cannot be represented (API Gateway does not send one). In the source, a truthy non-string header fails at `strip()` and gets 500, a falsy one is treated as absent, a `rawPath` of `None` fails at `startswith` and gets 500, and a truthy non-string `id` parameter reaches `get_item`, whose failure also gets 500 (`backend/lambda.py:23-37, 48, 103-108`).
- Store failures are not modelled: a throttled or unavailable table, which the handler turns into 500.
- DynamoDB refuses an empty string as the value of a key attribute of a table or index. A device id that strips to `""` is stored and queried here, whereas the deployed `put_item` and the `device_id` index query would fail, and the handler would answer 500 (`backend/lambda.py:168-174`). The model's table accepts any string as an owner.
- NoteStore.NoteTable.UpdateItem: requires the row to exist. DynamoDB's `update_item` would create a row for an absent key, but the handler calls it only after `get_item` has found the row.
- NoteStore.NoteTable.QueryByOwner: returns every matching row. The source reads only the first page of the index query and ignores `LastEvaluatedKey`, so a device with more than one page of notes sees only the first. The model does not capture that truncation. The index's eventual consistency is not modelled either.
- A `routeKey` of `None` or of another non-string type is not modelled. It makes `split` fail before the `try` block, so it is not answered by the handler at all. The model takes the route key as a string, with `""` for a missing key.
- `requestContext` being present but not a dictionary is not modelled. The method from the request context is either given or absent.
- Concurrent requests are not modelled. Each request runs against the table alone, which matches the source's last-writer-wins behaviour for a single request.
