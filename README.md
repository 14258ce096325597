# Job application tracker: a Dafny model

The tracker is a single-page React front end (`front-end/src/App.jsx`) over a
Flask backend (`backend/app.py`) that keeps job applications in one table. An
application has a company, a position, a status and a progress percentage.
The status is one of seven stages, from `applied` to `rejected`.

This project models both halves and the contract between them:

- `Json.dfy`: decoded JSON values and the request bodies made of them.
- `Text.dfy`: the case mapping both sides apply to statuses, and Python's
  `int()` on a decimal string with its printing counterpart `str()`.
- `Validation.dfy`: the backend's `validate_application_data`. Its checks run
  in a fixed order: required fields, then status type and membership, then
  progress conversion and range. Each failed check has its own message.
- `Store.dfy`: the backend's handlers as methods of a class
  `ApplicationStore` that holds a map from id to record. The handlers are
  create, read, replace (PUT), status patch (PATCH), delete, and the
  statistics endpoint. Every handler either commits its change or answers
  with an error and leaves the table as it was.
- `Tracker.dfy`: the front end's `STATUS_PROGRESS` table, the form and its
  handlers, the request bodies it builds, the labels it shows, and the
  component's three state slots as a class `Tracker`. The outcome of each
  HTTP request is a parameter of the handler. This file also holds the
  cross-file lemmas: the backend accepts every payload the form builds from a
  listed status, and PATCH accepts every status the row dropdown offers.

The model follows the code, including its less obvious behaviour:

- The front end derives an application's progress from its status through
  `STATUS_PROGRESS`; the backend does not enforce this. PATCH stores any progress it is
  sent, with no range check, and PUT and create store the progress they are
  sent rather than the integer validation computed from it (the model keeps
  the value as sent; SQLite's own conversion of it is listed under
  "Left out"). The only bound left is the database's: an integer outside SQLite's signed 64-bit
  INTEGER cannot be bound, Python's sqlite3 raises `OverflowError`, and the
  handler rolls back and answers 500 (`ServerError(IntTooWide)`). The same
  holds for an over-wide integer sent as company or position.
- Create keeps the status in the case it was sent in; only PUT and PATCH
  lower it.
- An id that is not in the table does not produce a 404. The `NotFound` raised
  by `get_or_404` is caught by the handler's `except Exception`, which rolls
  back and answers 500. The model's reply for this is `ServerError(NoSuchId)`.
- Validation checks only that company and position are present. A `null`
  company or position therefore passes validation, and a `null` progress
  passes PATCH (validation rejects it, since `int(None)` raises). Either then
  fails on the NOT NULL columns at commit time, giving a 500. The model's reply
  for this is `ServerError(NullColumn)`.
- The front end looks statuses up in a plain object. `STATUS_PROGRESS["__proto__"]`
  is `Object.prototype`, which `JSON.stringify` sends as `{}`, so a form whose
  lowered status is `__proto__` posts a progress and gets the status message,
  not "Missing required fields".
- PATCH calls `.lower()` on the status before checking its type. A status that
  is not a string therefore gives a 500, not a 400. The model's reply for this
  is `ServerError(StatusNotText)`.

## Model

| member | source | states |
|---|---|---|
| `Text.Lower` | backend/app.py:55 | the lowered string has the input's length, with each character mapped by ASCII lower-casing |
| `Text.LowerIsLowerCase` | backend/app.py:161 | lowering gives a lower-case string; a string equals its lowered form iff it is lower case; lowering is idempotent, so a status PUT or PATCH stored lowered is still accepted |
| `Text.DigitsValueOfShowNat` | backend/app.py:59 | the digits printed for a natural number evaluate back to that number |
| `Text.ParseInt` | backend/app.py:59 | `int(s)` succeeds exactly when, once the ASCII white space `int()` strips (space, `\t \n \v \f \r`) is removed, an optional sign and one to 4300 decimal digits remain; a `-` gives a value at most 0, otherwise at least 0 |
| `Text.ParseShowInt` | backend/app.py:59 | `int(str(n)) == n` for every integer `n` whose decimal text has at most 4300 digits, and `int(str(n))` raises for every longer one: parsing round-trips with printing |
| `Text.ParseIntSignAndZeros` | backend/app.py:59-61 | for a run of digits, a `+` sign and a leading zero leave `int()`'s value unchanged, and `-` (with or without leading zeros) negates it, so `"+50"`, `"050"` and `"50"` reach the range check as 50 |
| `Text.ParseIntIgnoresPadding` | backend/app.py:59 | white space added before or after the text never changes what `int()` makes of it |
| `Validation.ToInt` | backend/app.py:58-63 | `int(v)` is the integer itself for integers and the parsed value for strings; any other value raises |
| `Validation.Validate` | backend/app.py:45-65 | a missing required field gives "Missing required fields" whatever else holds; then a non-string or unlisted status gives the status message; then an unconvertible progress and an out-of-range progress each give their own message; the result is accepted iff all fields are present, the lowered status is listed and progress converts to a value in 0..100 |
| `Validation.MessagesDistinct` | backend/app.py:48-63 | the four rejection messages are pairwise different |
| `Validation.StatusesAreLowerCase` | backend/app.py:50 | every listed status is its own lower-case form |
| `Validation.ValidateIgnoresStatusCase` | backend/app.py:55 | replacing the status by its lower-case form never changes the verdict, so the status check is case-insensitive |
| `Validation.ValidateReadsRequiredFieldsOnly` | backend/app.py:46-63 | two bodies that agree on the four required fields get the same verdict |
| `Store.CommitFailure` | backend/app.py:96-103 | the commit of a record fails exactly when a value does not bind as a 64-bit integer or a NOT NULL column holds null, and the binding failure is the one reported when both apply |
| `Store.Breakdown` | backend/app.py:179-185 | the breakdown has one key per status that is stored, and each count is the positive number of records with exactly that status |
| `Store.SumOfBreakdown` | backend/app.py:179-185 | summed over any set of stored statuses, the counts equal the number of records whose status is in that set |
| `Store.BreakdownSumsToTotal` | backend/app.py:178-185 | the per-status counts of `status_breakdown` sum to `total_applications` |
| `Store.ApplicationStore.Create` | backend/app.py:79-103 | an invalid body gives 400 with the validator's message and leaves the table unchanged; a valid body adds exactly one record under an id not in the table, holding company, position, status (case kept) and progress as sent; an integer outside SQLite's 64-bit range or a null column gives 500 and no change; the table invariant is kept |
| `Store.ApplicationStore.Get` | backend/app.py:120-124 | returns the stored record for a present id, otherwise the 500 of the caught lookup failure |
| `Store.ApplicationStore.Put` | backend/app.py:120-139 | an unknown id gives 500, a body that fails validation gives 400, and both leave the table unchanged; a valid body replaces that one record with company, position, the lowered status and progress, and returns no response, unless the commit fails on an over-wide integer or a null (500, no change) |
| `Store.ApplicationStore.Delete` | backend/app.py:142-146 | removes exactly the record with that id and keeps every other one; an unknown id gives the 500 at lines 168-170 with the table unchanged |
| `Store.ApplicationStore.Patch` | backend/app.py:150-166 | the logic shared by both PATCH handlers (also lines 194-214): a missing status or an unlisted lowered status gives 400 under the route's error key, and a non-string status gives 500, all with the table unchanged; otherwise only that record changes, its status becomes the lowered value, its progress is replaced only when sent and with no range check, and its company and position stay; a progress outside SQLite's 64-bit range or null fails the commit with 500 and no change |
| `Store.ApplicationStore.Statistics` | backend/app.py:175-189 | `total_applications` is the table size, each breakdown count is the number of records with that status, the counts sum to the total, and `latest_application` is absent iff the table is empty (otherwise it is a stored record) |
| `Tracker.ProgressOf` | front-end/src/App.jsx:29-37 | the lookup is defined exactly for the seven keys of `STATUS_PROGRESS`, and every value lies in 0..100 |
| `Tracker.StatusTablesAgree` | front-end/src/App.jsx:29-37 | `STATUS_PROGRESS` has exactly the backend's seven statuses (backend/app.py:50), in the same order, and every percentage lies in 0..100 |
| `Tracker.InitialFormIsEmptyApplied` | front-end/src/App.jsx:41-46 | the initial form is empty company and position, status `applied` and progress 10; its progress matches its status |
| `Tracker.WithInput` | front-end/src/App.jsx:71-73 | only the field named by the input takes the typed value; the other field, the status and the progress stay; status-progress consistency is kept |
| `Tracker.WithStatus` | front-end/src/App.jsx:75-81 | the status becomes the chosen value and progress its table value; company and position stay |
| `Tracker.ProgressField` | front-end/src/App.jsx:95 | the `progress` member `JSON.stringify` writes for `STATUS_PROGRESS[status]`: the table's number for a key, `{}` for `__proto__`, and nothing for every other name |
| `Tracker.Payload` | front-end/src/App.jsx:151-156 | the body carries company and position as typed and the lowered status; progress is present iff the lowered status is a table key or `__proto__`, and is then the table value or `{}` |
| `Tracker.StatusUpdateBody` | front-end/src/App.jsx:95 | the body carries the new status, and its progress is `STATUS_PROGRESS[newStatus]`, present iff the status is a table key (then its percentage) or `__proto__` (then `{}`) |
| `Tracker.PayloadAccepted` | front-end/src/App.jsx:151-156 | when the lowered form status is a key of `STATUS_PROGRESS`, `validate_application_data` (backend/app.py:45-65) accepts the payload, and the record create would store from it satisfies the store's invariant (non-null columns, listed status) |
| `Tracker.PayloadRejected` | front-end/src/App.jsx:151-156 | for any other status the backend rejects the payload: `__proto__` sends `{}` as progress and gets the status message (backend/app.py:52-56); every other status leaves progress `undefined`, which is dropped from the JSON, so the answer is "Missing required fields" (backend/app.py:46-48) |
| `Tracker.StatusUpdateBodyAccepted` | front-end/src/App.jsx:95 | for a status from the table, the PATCH body passes the backend's status check (backend/app.py:153-158) with that very status, and sends the table's percentage as progress |
| `Tracker.DropdownItems` | front-end/src/App.jsx:124-130 | the row dropdown lists the table's keys, in the table's order |
| `Tracker.DropdownMatchesTable` | front-end/src/App.jsx:124-130 | the dropdown offers exactly the keys of `STATUS_PROGRESS`, each labelled with its own percentage |
| `Tracker.FormOptionsMatchTable` | front-end/src/App.jsx:241-247 | the form's select lists the table's statuses in order, and the percentage written in each label equals the table's value |
| `Tracker.FailureMessage` | front-end/src/App.jsx:104 | a thrown error keeps its own message; a refused response shows its body's `error` when that is a non-empty string, and the handler's fixed message when it is absent or empty |
| `Tracker.Tracker.constructor` | front-end/src/App.jsx:39-46 | the list starts empty, the error empty, the form at its initial state |
| `Tracker.Tracker.FetchApplications` | front-end/src/App.jsx:52-70 | a loaded list replaces the applications wholesale and keeps the error; a response that is not ok sets "Failed to fetch applications", and an exception sets its message, both keeping the list |
| `Tracker.Tracker.HandleInputChange` | front-end/src/App.jsx:71-73 | the form becomes `WithInput` of the old form; the list and the error stay |
| `Tracker.Tracker.HandleStatusChange` | front-end/src/App.jsx:75-81 | the form becomes `WithStatus` of the old form; the list and the error stay |
| `Tracker.Tracker.HandleSubmit` | front-end/src/App.jsx:146-189 | posts `Payload` of the form; on success the form is reset to the initial state and the list refetched, a failed refetch setting its own error as `fetchApplications` does; on failure the form and list stay and the error holds the failure message |
| `Tracker.Tracker.HandleStatusUpdate` | front-end/src/App.jsx:86-114 | patches the row with `StatusUpdateBody`; on success the list is refetched, a failed refetch setting its own error; on failure the list stays and the error holds the failure message; the form is untouched |
| `Tracker.Tracker.HandleDelete` | front-end/src/App.jsx:190-212 | deletes by id; on success the list is refetched, a failed refetch setting its own error; a response that is not ok sets "Failed to delete application" whatever its body, and an exception sets its message |

## Left out

- HTTP transport, JSON encoding, Flask routing, CORS (backend/app.py:10-22)
  and the GET-all branch (backend/app.py:105-111). Each front-end handler
  returns the request it would send, and takes the outcome as a parameter.
- Which of the two PATCH handlers Flask dispatches to. `Store.ApplicationStore.Patch`
  takes the route as a parameter; the route picks the key of the 400 body
  (`"error: "` or `"error"`). It also picks the key of the 500 body
  (backend/app.py:170 against backend/app.py:218), but `ServerError` models no
  body key.
- SQLAlchemy sessions, commit and rollback: a failed handler leaves the map
  unchanged. Ids come from a counter, so every new id is above all earlier ones.
  SQLite's reuse of the largest id after a delete is not modelled.
- Store.ApplicationStore.Create, Store.ApplicationStore.Put,
  Store.ApplicationStore.Patch: the stored and returned record keeps each value
  as sent. SQLite's column affinity converts some values at commit: text that
  reads as an integer in the INTEGER column `progress` is stored as that
  integer (`"50"` becomes 50, which the reply then shows, since `to_dict()`
  re-reads the row), and a number in the VARCHAR columns company and position
  is stored as text (`5` becomes `"5"`). A lone surrogate in a JSON string
  (`"\ud800"`) passes validation but cannot be encoded by sqlite3, so the
  source answers 500; Dafny's `char` cannot hold a surrogate, so the model has
  no such string.
- What the database driver does with a non-scalar value (a JSON array or
  object) in a text or integer column. The model stores every non-null value
  that binds (integers within 64 bits, and every other kind) as sent.
- The timestamps `created_at` and `updated_at`, and with them how
  `latest_application` picks the newest record. Note that `created_at`'s
  default is `datetime.now()`, which Python evaluates once, when the class is
  defined.
- Store.ApplicationStore.Statistics: promises only that `latest_application`
  is a stored record, not which one, because the ordering timestamps are not
  modelled.
- The response after a successful PUT. The view returns nothing, and Flask
  turns that into its own error. The model returns `NoReturn` and keeps the
  committed change.
- Text.ParseInt: accepts an optional sign and ASCII digits inside ASCII white
  space only. Python's `int()` also accepts underscores between digits,
  non-ASCII digits and Unicode white space, and converts floats and booleans.
  The model treats any such value as unconvertible. The 4300-digit limit is
  the default of the CPython releases that have one (3.11 and later, and the
  3.7.14, 3.8.14, 3.9.14 and 3.10.7 updates); older releases convert any
  length. The same limit makes the JSON decoder refuse a longer integer
  literal, which falls under the body that is not a JSON object below.
- Text.Lower: maps ASCII letters only. Python's `str.lower` and
  JavaScript's `toLowerCase` also map non-ASCII letters.
- A request body that is not a JSON object.
- Tracker.ProgressOf: treats every name that is not one of the seven keys as
  `undefined`. In JavaScript, the names inherited from `Object.prototype`
  other than `__proto__` (such as `toString`) look up a function, which
  `JSON.stringify` drops just as it drops `undefined`. `__proto__` looks up
  `Object.prototype` itself; the request bodies send it as `{}`
  (`Tracker.ProgressField`).
- Tracker.WithStatus: for the status `__proto__` the form's progress slot
  holds `None` where JavaScript holds `Object.prototype`. That slot is never
  sent: the payload looks the percentage up again.
- Tracker.Tracker.HandleSubmit, Tracker.Tracker.HandleStatusUpdate,
  Tracker.Tracker.HandleDelete and Tracker.Tracker.FetchApplications: each
  runs as one step, request, answer and refetch together, whereas the source's
  handlers are `async` and interleave. Not captured: text typed while a POST
  is in flight (the source posted the form as it was at the click, and the
  reset after success wipes the newer text); two list responses that resolve
  out of order, which leave the older list in place; and one handler's
  `setError` overwriting another's.
- React rendering, component props and console logging. The browser's
  `required` check on the two inputs is not modelled either; the cross-file
  lemmas hold for empty company and position too.
- `backend/settings.py` holds configuration constants only and is not part of
  this model.
