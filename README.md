# PyTrack backend core in Dafny

A model of the decision logic of the PyTrack backend. PyTrack is a FastAPI service that
passes user, task and screenshot operations on to a hosted backend-as-a-service: an
identity provider, a table store and object storage. The hosted platform is replaced by
an in-memory `Platform.Backend` object. It holds the `users` and `tasks` tables as maps,
the `screenshots` table as a sequence, the storage bucket as a map from path to bytes,
and a log of every write a handler issues. Every answer the platform, the clock or the
random generator would give is an input: a reply datatype, an `Instant` or a hex string.

Modules:

- `Env` models `require` (`app/core/env.py`). It lists the keys that are unset or empty,
  in input order, and fails exactly when that list is non-empty.
- `Auth` models `app/utils/auth.py`: the unverified claim reader and the provider-verified
  current user. It also models registration, with a best-effort write of the profile row,
  plus the superuser shortcut, login and user listing.
- `Task` models `app/routes/task.py`: the declared body constraints, `assign_task`,
  `get_my_tasks` and `update_task_status`.
- `Screenshot` models `app/routes/screenshot.py`: `_ensure_image`, the public-or-signed URL
  choice, the upload flow with its compensating removal, and `record_screenshot`.
  `StoragePaths` holds the storage key format and a reader that proves it can be read back.
- `Platform`, `UtcTime`, `Ascii`, `Http` and `Wrappers` are support modules. They cover the
  external state and the writes issued to it, datetime rendering (`%Y/%m/%d`,
  `isoformat()`), ASCII case mapping, HTTP errors, and `Option`/`Result`.

Each state-changing route is a method over `Platform.Backend`. It modifies only the fields it
writes, and its `ensures` equate its answer, the new table state and the writes it appended
with a pure effect function: `AssignSpec`, `UpdateSpec`, `UploadFlow`, `RecordSpec`,
`MetadataEffect` or `RegisterOutcome`. For the upload the method's `ensures` name
`UploadFlow` without cleanup on raise, which is the body of `UploadSpec`, and the upload's
properties are stated on `UploadSpec`. The properties the source promises are proved about
those functions.

Points where the code behaves in ways a reader may not expect; the model follows the code:

- Bodies that fail the declared field constraints get FastAPI's 422, not 400.
- `update_task_status` never reads the current status. The selected `status` column is
  unused, so any owner can move a task between `in_progress` and `completed` in either
  direction (`Task.NoTransitionOrder`).
- `register_superuser` in `app/utils/auth.py` has no role gate. It is `register_user` with
  the role `superuser`.
- `get_current_user` catches its own "no user" 401 in `except Exception` and raises a new
  401. The detail is then "Token verification failed: 401: Invalid or expired token."
- `login_user` also reads `response.user.email`. A session without a user therefore raises
  `AttributeError`, which becomes an error dict.
- `create_user_metadata` splits the email. An email of None therefore raises before the
  insert, and that exception is swallowed too.

## Model

| member | source | states |
|---|---|---|
| `Env.Missing` | app/core/env.py:8 | a key is in the list exactly when it is one of the keys and is unset or empty; no longer than the keys |
| `Env.MissingConcat` | app/core/env.py:8 | the list keeps input order: keys of a concatenation give the concatenation of the lists |
| `Env.MissingDependsOnlyOnSetness` | app/core/env.py:8 | environments agreeing on which keys are set give the same list, whatever the values |
| `Env.Require` | app/core/env.py:7-10 | raises exactly when some key is unset or empty; the message is "Missing environment variables: " then the missing keys joined by ", " |
| `Env.RequireDependsOnlyOnSetness` | app/core/env.py:8-10 | only whether each key is set decides the outcome and the message; set values never matter |
| `Auth.VerifySupabaseToken` | app/utils/auth.py:29-49 | every failure is 401; it succeeds exactly when the claims decode and `sub` is present; then `user_id` is `sub` and `email` is the email claim (possibly absent); a missing `sub` gives "Invalid Supabase token." |
| `Auth.GetCurrentUser` | app/utils/auth.py:54-73 | succeeds exactly when the provider returned a user, with that user's id and email; every other path, including an exception, is 401 |
| `Auth.LocalPart` | app/utils/auth.py:97 | the text before the first "@" (all of it if none): a prefix with no "@", followed by "@" when shorter |
| `Auth.FullNameShape` | app/utils/auth.py:97 | `full_name` has the local part's length and each character follows the title-case rule |
| `Ascii.TitleIsPointwise` | app/utils/auth.py:97 | `title()` for ASCII: a letter is upper-cased at the start or after a non-letter, lower-cased after a letter, other characters kept |
| `Ascii.TitleIdempotent` | app/utils/auth.py:97 | title-casing a title-cased name changes nothing |
| `Ascii.Upper` | app/routes/screenshot.py:24 | `upper()` keeps the length and upper-cases each character |
| `Auth.MetadataEffect` | app/utils/auth.py:92-103 | the users table changes only when an email exists and the insert is written; then the row has id, title-cased local part, role and email; other rows are kept and no row under another key is added |
| `Auth.CreateUserMetadata` | app/utils/auth.py:92-103 | applies `MetadataEffect` and logs one insert when an email exists; failures are swallowed, nothing is returned |
| `Auth.RegisterOutcome` | app/utils/auth.py:78-90 | success exactly when the provider returned a user, carrying its email and the given role; a raising provider gives an error dict with the exception text, and a reply without a user gives one with the reply's text |
| `Auth.RegisterUser` | app/utils/auth.py:78-90 | answers `RegisterOutcome` whatever the metadata insert did; writes metadata only for a signed-up user |
| `Auth.RegisterEmployee` | app/utils/auth.py:78-90 | `register_user` without a role: answer, table state and writes use the role "employee" |
| `Auth.RegisterSuperuser` | app/utils/auth.py:105-107 | answer, table state and writes are those of `register_user` with role "superuser" |
| `Auth.RegisteredUserHasProfile` | app/utils/auth.py:84-100 | a signed-up user with an email whose metadata insert is written has a profile row with that role and full name |
| `Auth.LoginUser` | app/utils/auth.py:109-126 | success exactly when a session and a user came back, carrying the session's access and refresh tokens and the user's email; a missing session gives the fixed message, a session without a user the `AttributeError` text, and a raising sign-in the exception text |
| `Auth.ListUsers` | app/utils/auth.py:128-134 | the provider's list, or empty when the call raises |
| `Platform.ApplyStatus` | app/routes/task.py:100-108 | an update writes `status` and, when present in the payload, `completed_at`; every other column is kept |
| `Task.AssignSpec` | app/routes/task.py:13-55 | invalid body: 422, no access; not superuser: 403 and nothing written; success exactly for a valid body, a superuser and a written insert; then one task with `assigned_by` = caller and the body's fields is added and the count grows by one; once both checks pass exactly one insert of that payload is issued; empty insert result: 400 "Task creation failed."; a raising insert: 500 |
| `Task.AssignTask` | app/routes/task.py:20-55 | answer, tasks table and appended writes are those of `AssignSpec` |
| `Task.GetMyTasks` | app/routes/task.py:58-70 | exactly the tasks whose `assigned_to` is the caller, unchanged, and `count` is how many |
| `Task.AssignGrowsOnlyAssigneeList` | app/routes/task.py:38-70 | a successful assignment adds one task to the assignee's list and changes nobody else's count |
| `Task.UpdateSpec` | app/routes/task.py:73-112 | invalid status: 422; missing task: 404; not the owner: 403; in all three nothing is written; a write happens only after both checks pass; once both checks pass exactly one update with the new status (and `completed_at` when completing) is issued; on success only the target changes, its status becomes the new one, `completed_at` is set to now for "completed" and kept otherwise; no rows back: 400 "Task update failed."; a raising update: 500 |
| `Task.UpdateTaskStatus` | app/routes/task.py:78-112 | answer, tasks table and appended writes are those of `UpdateSpec` |
| `Task.UpdateKeepsEveryList` | app/routes/task.py:100-112 | a status update never moves a task between users' lists |
| `Task.NoTransitionOrder` | app/routes/task.py:88-102 | the owner of a completed task can set it back to in_progress; `completed_at` is kept |
| `UtcTime.DigitsRoundTrip` | app/routes/screenshot.py:77 | zero-padded fields have their fixed width, are digits, and read back as the number |
| `UtcTime.IsoFormatLayout` | app/routes/screenshot.py:98 | `isoformat()` of a UTC time is 25 characters, or 32 with microseconds, with "-", "T" and ":" in their places and "+00:00" at the end |
| `UtcTime.IsoFormatReadsBack` | app/routes/screenshot.py:98 | each field of the `isoformat()` text reads back as the year, month, day, hour, minute, second and microsecond |
| `UtcTime.DatePath` | app/routes/screenshot.py:77 | `%Y/%m/%d` is ten characters with "/" at positions 4 and 7 |
| `StoragePaths.StoragePathRoundTrip` | app/routes/screenshot.py:76-77 | a storage key reads back as its user id, capture year, month, day, hex suffix and extension |
| `StoragePaths.StoragePathInjective` | app/routes/screenshot.py:76-77 | equal keys mean the same user, date, suffix and extension, so distinct suffixes never collide |
| `Screenshot.EnsureImage` | app/routes/screenshot.py:21-31 | "png" exactly for PNG, "jpg" exactly for JPEG; an unrecognised file or any other format is 415 with the source's detail; any other exception comes back unchanged as that exception |
| `Screenshot.SignedOrPath` | app/routes/screenshot.py:44-48 | a non-empty signed URL from a dict is used; a non-dict answer, or a dict with no or an empty signed URL, gives the path; a raising request passes its exception on unchanged |
| `Screenshot.PublicFlag` | app/routes/screenshot.py:19 | the flag is the variable's value, or "1" when it is unset, which counts as a public bucket |
| `Screenshot.PublicOrSignedUrl` | app/routes/screenshot.py:35-48 | public URL when the flag is non-empty and not "0"/"false"/"False"; otherwise the answer to a signed-URL request for the path with lifetime 3600 |
| `Screenshot.PrivateUrlUsesOnlyOneSignRequest` | app/routes/screenshot.py:44 | for a private bucket the URL depends on nothing but the answer to the `(path, 3600)` request |
| `Screenshot.Escalate` | app/routes/screenshot.py:115-118 | a raised HTTP error passes unchanged; any other exception becomes 500 with its text |
| `Platform.Backend.UploadObject` | app/routes/screenshot.py:79-89 | upload without upsert: an occupied path is refused and its object kept; otherwise the reply decides; the attempt is logged |
| `Platform.Backend.RemoveObjects` | app/routes/screenshot.py:104 | removes the listed paths when storage completes the call; logged either way |
| `Screenshot.UploadSpec` | app/routes/screenshot.py:58-118 | a 415 passes unchanged with no write; the storage write is always first; a refused upload is 500 with no insert, with detail "Storage upload failed: " and the error entry, or the exception's text; an insert only follows accepted storage; existing objects are never overwritten or removed; an insert error attempts removal of the path, swallows its failure, answers "DB insert failed", and restores the bucket when removal completes; when storage took the object and the signed-URL request raises, the answer is 500 with the exception's text, no insert and no removal, and the object stays; success exactly when upload, URL and insert succeed, with the object stored, one row appended whose URL is the returned one, that URL the one `_public_or_signed_url` resolved for the key, the insert the row built from it, and `record` the row or the insert data |
| `Screenshot.UploadScreenshot` | app/routes/screenshot.py:58-118 | answer, bucket, table and writes are those of `UploadSpec` (`UploadFlow` without cleanup on raise) |
| `Screenshot.RaisingInsertLeavesObject` | app/routes/screenshot.py:100-118 | when the insert raises instead of reporting an error, the answer is 500 with the exception text, no removal is issued, and the bucket is the old one plus the uploaded object, which has no row |
| `Screenshot.UploadSpecWithCleanup` | app/routes/screenshot.py:100-107 | with the removal also after a raising insert, every failed insert is followed by removal of the path, and an orphaned object remains only when the signed-URL request raises or the removal fails |
| `Screenshot.RecordSpec` | app/routes/screenshot.py:121-148 | exactly one insert per call with the caller, the URL and the capture time (now when absent); success appends exactly one row; an error response is 400 with its text; the id is returned when the row came back |
| `Screenshot.RecordScreenshot` | app/routes/screenshot.py:121-148 | answer, table and writes are those of `RecordSpec` |
| `Screenshot.RecordTwiceAddsTwoRows` | app/routes/screenshot.py:130-148 | two identical successful calls add two rows differing only in their ids: no deduplication |

## Findings

| source | as written | input that shows it | evidently intended | confidence | as-written member | corrected member |
|---|---|---|---|---|---|---|
| app/routes/screenshot.py:100-107 | the uploaded object is removed only when the insert response carries an `error` attribute; an insert that raises reaches the generic handler at lines 117-118 without removal | a `screenshots` insert whose client call raises (the table client raises its API error on a rejected insert) after the upload was accepted | remove the uploaded object after any failed insert | medium; not executed | `Screenshot.RaisingInsertLeavesObject` | `Screenshot.UploadSpecWithCleanup` |

## Left out

- The platform SDK (sign-up, sign-in, `get_user`, `admin.list_users`, table queries and writes, storage calls) is not modelled as a client. Each call is an injected reply datatype, or a function parameter (`publicUrlOf`, `signer`), applied to in-memory state.
- Failures of read queries (the role lookup, the ownership lookup, the my-tasks select) are not modelled. Reads see the in-memory tables.
- Task ids, screenshot ids, the task `created_at` default and the bucket name are the platform's business. The id of a new task is an input that must not already be in the table. A new task gets status "pending", taken as the table's column default.
- JWT claim decoding and PIL image decoding are inputs (`Decoded`, `Sniffed`). `datetime.now`, `uuid4().hex` and `astimezone(timezone.utc)` are inputs too: the capture time is supplied already in UTC.
- `Ascii.TitleIsPointwise`: only ASCII letters count as cased. Non-ASCII characters are kept as they are, whereas Python applies Unicode case rules to them.
- `Screenshot.EnsureImage`: `upper()` of the format name is ASCII-only. The format names the image library reports are ASCII.
- `UtcTime.DatePath`: the year is always four zero-padded digits. Some C libraries print years below 1000 without padding.
- `create_user_metadata`'s own default role is not modelled: inside this core it is only called with the role passed to `register_user`.
- `record_screenshot` stores `captured_at.isoformat()` of the supplied datetime without converting it to UTC. The model takes the time as an `Instant` in UTC, so offsets other than UTC are not represented.
- URL validation and normalisation by `AnyHttpUrl` are not modelled: `image_url` is taken as already validated.
- The 422 detail list that FastAPI builds for a rejected body is a constant.
- FastAPI routing and dependency injection are not modelled. Routes take the already resolved `Auth.User`; `Task.AssignTask` and the others do not model a 401 from the dependency.
- `Task.GetMyTasks` returns the tasks keyed by id. The order the table returns them in is not modelled.
- `Platform.Backend.InsertUser` writes the row under its id. A primary-key conflict is reported by the injected reply, not detected.
- The content type sent with the upload is recorded in the write log, but storage does not keep it.
- `app/main.py`, `app/routes/user.py` and `app/supabase_client.py` are not part of this model. They hold app wiring, a length and map over the listing, and client construction.
- `.env` loading, logging with `print`, and concurrency are left out. Simultaneous requests are resolved by the external store.
