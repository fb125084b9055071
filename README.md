# Resumable video upload with retry and backoff — a Dafny model

This project models the core of `upload_vid.py`, a script that uploads the
videos of a folder tree to YouTube. For every video file that has a sidecar
text file beside it, the script reads a title and keywords from the sidecar
and uploads the video with them. The upload is driven by `resumable_upload`, a
`while response is None` loop. The loop does four things:

- it calls `next_chunk()` until a final response arrives;
- it absorbs transient failures (HTTP 500, 502, 503 and 504, and transport
  faults) and backs off exponentially after each;
- it re-raises every other HTTP error;
- it gives up once `retry` exceeds `MAX_RETRIES`.

On a final response that carries an id, it adds the video to a playlist.

Modules, one per concern of the script:

- `Wrappers`: `Option`.
- `Text`: the `str` operations the script relies on: `strip()`, `find`,
  `split(sep)`, `sep.join`, `lower()` and `endswith`. `IsSpace` is the exact set
  of characters `str.isspace()` accepts.
- `Metadata`: the extension filter, the sidecar file name
  (`os.path.splitext(name)[0] + ".txt"`), the `#` parse of the sidecar text and
  the `,` split of the keywords into tags.
- `UploadLoop`: `resumable_upload`.
  - The API is given as oracles: `chunks` lists what successive `next_chunk()`
    calls produce, and `ins` says what the playlist insert produces.
  - What the loop does is recorded as a log of events: chunk calls, playlist
    inserts with their arguments, and sleeps with their bound `2**retry`.
  - The loop is specified by the functions `Drive`/`Turn` (one turn per
    `next_chunk()` call).
  - It is implemented step by step by the methods `ResumableUpload`,
    `LoopTurn`, `TryBlock` and `Backoff`, each proved against that specification.
- `Batch`: `find_and_upload_videos`, with its two nested loops over the walk,
  and the per-file `except HttpError` of `edit_and_upload_video`.
  - The file system is given as values: the folders of the walk in order, and a
    map from each existing sidecar path to its text.
  - The upload oracles are given per video path.
  - The report lists the videos uploaded and how each upload ended.

The outcome of one call is `Returned`, `Exited(reason)` (the two `exit(...)`
calls), `Raised(status)` (a re-raised HttpError) or `OutOfInput`. `OutOfInput`
means the oracle ran out while the loop was still waiting for a response. The
script itself would keep calling `next_chunk()`.

Three behaviours of the script are easy to misread; the model keeps each as the code has it:

- `error` is set by the except clauses and never cleared. After the first
  retriable failure, every later turn counts a retry and sleeps, including the
  turn that gets the final response. Two HTTP 503 errors and then success
  therefore sleep three times, with bounds 2, 4 and 8, not twice
  (`UploadLoop.TwoErrorsThenSuccess`). A finished upload can still end in the
  retries-exhausted exit (see Findings).
- A re-raised HttpError does not end the batch. `edit_and_upload_video`
  catches it and the batch goes on with the next file (`Batch.RaisedIsCaught`).
  Only `exit(...)` (a `SystemExit`, which `except HttpError` does not catch)
  ends the batch.
- The playlist insert sits inside the `try`. Its failures go through the same
  except clauses. A retriable one sets `error` but is not retried, because
  `response` is already set (`UploadLoop.InsertFailureNotRetried`).

## Model

| member | source | states |
|---|---|---|
| Text.TrimStart | upload_vid.py:177 | the result is a suffix of the input, everything cut off before it is whitespace, and it does not start with whitespace |
| Text.TrimEnd | upload_vid.py:177 | the result is a prefix of the input, everything cut off after it is whitespace, and it does not end with whitespace |
| Text.Strip | upload_vid.py:177 | `strip()` leaves no whitespace at either end, is no longer than its input and keeps only characters of the input |
| Text.StripPadded | upload_vid.py:177-181 | `strip()` recovers any stripped text from whitespace padding on both sides |
| Text.StripIdempotent | upload_vid.py:177-181 | stripping an already stripped text changes nothing |
| Text.FirstIndex | upload_vid.py:178-179 | `find(c)` is absent exactly when `c` is not in the text; otherwise `c` is at that position and not before it |
| Text.Split | upload_vid.py:81 | `split(sep)` gives at least one piece and no piece holds the separator |
| Text.JoinSplit | upload_vid.py:81 | joining the pieces of `split(sep)` with `sep` gives back the text |
| Text.SplitJoin | upload_vid.py:81 | splitting the join of separator-free pieces gives back the pieces |
| Text.Lower | upload_vid.py:170 | `lower()` keeps the length, leaves no capital letter, moves each capital down by 32 and keeps every other character |
| Text.EndsWith | upload_vid.py:170 | definition; specified by Metadata.VideoNameSuffix |
| Text.IsSpace | upload_vid.py:177 | definition (the characters of `str.isspace()`); specified by Text.Strip and Text.StripPadded |
| Text.Join | upload_vid.py:81 | definition; specified by Text.JoinSplit and Text.SplitJoin |
| Text.LastIndex | upload_vid.py:172 | `rfind(c)` is -1 or a position holding `c`, with no `c` after it |
| Metadata.ParseSidecar | upload_vid.py:177-184 | the title holds no `#`, title and keywords are both stripped, and text without `#` is all title with empty keywords |
| Metadata.ParseAtHash | upload_vid.py:178-181 | when the stripped text is `a + "#" + b` with no `#` in `a`, the title is `strip(a)` and the keywords `strip(b)` |
| Metadata.ParseComposed | upload_vid.py:177-181 | a sidecar written as title, `#`, keywords, with any whitespace around the parts, parses back to that title and those keywords |
| Metadata.ParseTitleOnly | upload_vid.py:182-184 | a sidecar without `#` parses to its stripped text as title and empty keywords |
| Metadata.Tags | upload_vid.py:79-81 | tags are absent exactly when the keywords are empty; otherwise they join back with `,` to the keywords and no tag holds `,` |
| Metadata.TagsOfJoined | upload_vid.py:79-81 | a tag list with no `,` in any tag survives being joined into keywords and split again |
| Metadata.IsVideoName | upload_vid.py:170 | definition; specified by Metadata.VideoNameSuffix |
| Metadata.VideoNameSuffix | upload_vid.py:170 | a name passes the filter exactly when its last four characters, lower-cased, are `.mp4`, `.avi` or `.mov` |
| Metadata.SplitExtRoot | upload_vid.py:172 | definition (`os.path.splitext(name)[0]`); specified by Metadata.VideoSidecarName |
| Metadata.SidecarName | upload_vid.py:172 | definition; specified by Metadata.VideoSidecarName |
| Metadata.VideoSidecarName | upload_vid.py:172 | for a video file name, the sidecar is the name without its four-character extension plus `.txt`, unless only dots precede the extension |
| UploadLoop.IsRetriable | upload_vid.py:129-135 | definition; specified by UploadLoop.Classification |
| UploadLoop.Pow2 | upload_vid.py:143 | definition of `2**n`; specified by UploadLoop.Pow2Monotone and UploadLoop.BackoffBounds |
| UploadLoop.Catch | upload_vid.py:129-135 | definition; specified by UploadLoop.Classification |
| UploadLoop.TryChunk | upload_vid.py:108-135 | definition; specified by UploadLoop.AttemptEvents and UploadLoop.Classification |
| UploadLoop.Iterate | upload_vid.py:137-146 | definition; specified by UploadLoop.IterateShape |
| UploadLoop.Drive | upload_vid.py:107-146 | definition; specified by UploadLoop.RunShape, UploadLoop.SleepSchedule and UploadLoop.StickyError |
| UploadLoop.Turn | upload_vid.py:108-146 | definition; specified by UploadLoop.RunShape, UploadLoop.SleepSchedule and UploadLoop.StickyError |
| UploadLoop.Upload | upload_vid.py:103-146 | definition; specified by UploadLoop.BackoffBounds and the lemmas on `Drive` |
| UploadLoop.Classification | upload_vid.py:129-135 | a failure is absorbed, setting `error` after one call with no response, exactly when it is a transport fault or HTTP 500/502/503/504 (all 5xx); any other status is re-raised |
| UploadLoop.FatalStopsAtOnce | upload_vid.py:129-133 | a non-retriable HttpError from `next_chunk()` ends the call with that status after that one call, with no sleep |
| UploadLoop.ProgressBeforeErrorIsFree | upload_vid.py:104-111 | before any error, an in-progress chunk costs one call and leaves `retry` unchanged, with no sleep |
| UploadLoop.InsertFailureNotRetried | upload_vid.py:111-146 | a retriable playlist-insert failure is slept on (or exits when retries are gone) but the insert is not tried again and the loop ends |
| UploadLoop.AttemptEvents | upload_vid.py:108-128 | one `try` block makes exactly one chunk call and no sleep, inserts into the playlist only on a final response with an id (with that id), and ends the call only by a re-raise or the unexpected-response exit |
| UploadLoop.IterateShape | upload_vid.py:137-146 | the backoff adds at most one sleep, with bound `2**(retry + 1)`, only when `error` is set and retries remain; `retry` grows by one exactly then |
| UploadLoop.TryBlock | upload_vid.py:108-135 | the `try` block and its except clauses produce the response, the error flag, the halt and the events of one turn of the specification |
| UploadLoop.Backoff | upload_vid.py:137-146 | without `error` nothing changes; with it `retry` grows by one, and the call gives up when `retry` exceeds 10, otherwise it sleeps with bound `2**retry` |
| UploadLoop.LoopTurn | upload_vid.py:107-146 | one iteration either ends the call as the specification does or leaves it at the loop test of the next chunk with the specified `error`, `retry` and log |
| UploadLoop.ResumableUpload | upload_vid.py:103-146 | the loop, run step by step from `response = None`, `error = None`, `retry = 0`, ends exactly as the specification `Upload` does, with the same log |
| UploadLoop.SleepSchedule | upload_vid.py:137-146 | from any state with `retry <= 10`, the sleeps that follow have bounds `2**(retry+1)`, `2**(retry+2)`, ..., number at most `10 - retry`, and number exactly that when the call gives up |
| UploadLoop.BackoffBounds | upload_vid.py:139-146 | one call sleeps at most 10 times; the k-th sleep has bound `2**k`, between 2 and 1024, and each bound doubles the one before |
| UploadLoop.RunShape | upload_vid.py:107-128 | a call reads chunks in order, and every chunk but the last lets the loop go on. The last chunk decides the outcome: a return or the retries-exhausted exit, only after a final response with an id or a retriable failure; the unexpected-response exit only after a final response without an id; a re-raise only after a fatal failure. It also decides the playlist insert: exactly one, with the response's id, for a final response with an id, and none otherwise |
| UploadLoop.StickyError | upload_vid.py:105-146 | once `error` is set, every later turn sleeps except one that exits or raises, so calls equal sleeps, plus one when the call stops that way |
| UploadLoop.NoFailureNoSleep | upload_vid.py:104-128 | when no chunk fails and the insert succeeds the call never sleeps and ends by returning, the unexpected-response exit or running out of input |
| UploadLoop.TransientRun | upload_vid.py:129-146 | `n` retriable failures in a row, with retries to spare, cost `n` calls and `n` sleeps with bounds `2**(retry+1)`, ..., and leave `error` set and `retry` raised by `n` |
| UploadLoop.SuccessWithErrorSet | upload_vid.py:111-146 | a final response with an id while `error` is set still runs the backoff: one more sleep and a return, or the retries-exhausted exit after the insert when no retry is left |
| UploadLoop.FailureWithNoRetryLeft | upload_vid.py:139-141 | a retriable failure with `retry` at 10 ends the call with the retries-exhausted exit and no sleep |
| UploadLoop.TwoErrorsThenSuccess | upload_vid.py:103-146 | two retriable failures and then a final response with an id: call, sleep 2, call, sleep 4, call, insert, sleep 8, and the call returns |
| UploadLoop.AlwaysFailing | upload_vid.py:103-146 | eleven retriable failures in a row: ten call-and-sleep turns with bounds 2 to 1024, then one more call and the retries-exhausted exit |
| UploadLoop.StickyErrorExitsAfterAttach | upload_vid.py:105-146 | ten retriable failures and then a final response with an id: the video is uploaded and inserted into the playlist, and the call still exits with retries exhausted |
| UploadLoop.DriveFixed | upload_vid.py:105-146 | definition of the corrected loop; specified by UploadLoop.FixedSuccessReturns and UploadLoop.FixedTransientRun |
| UploadLoop.TurnFixed | upload_vid.py:108-146 | definition of one corrected turn; specified by UploadLoop.FixedSuccessReturns and UploadLoop.FixedTransientRun |
| UploadLoop.FixedSuccessReturns | upload_vid.py:137-146 | with `error` cleared in each iteration, a final response with an id and a good insert always returns, without a sleep |
| UploadLoop.FixedTransientRun | upload_vid.py:129-146 | the corrected loop goes through a run of retriable failures exactly as the source does |
| UploadLoop.FixedRecoversAfterTransients | upload_vid.py:105-146 | on the input of the finding, the corrected loop uploads, inserts and returns normally |
| Batch.PathJoin | upload_vid.py:171 | `os.path.join` returns an absolute second part unchanged |
| Batch.PathJoinPrefix | upload_vid.py:171-172 | a relative name is appended to the same folder prefix, whatever the name |
| Batch.SidecarBesideVideo | upload_vid.py:171-172 | the video file and its sidecar text file are looked up in the same folder |
| Batch.VisitItem | upload_vid.py:170-187 | a file is uploaded exactly when it passes the extension filter and its sidecar exists, and then from that file's path, with the parsed title (no `#`) and keywords, and tags that join back to the keywords |
| Batch.Halts | upload_vid.py:162-165 | definition; specified by Batch.ExitEndsBatch and Batch.RaisedIsCaught |
| Batch.Visit | upload_vid.py:170-187 | definition; specified by Batch.VisitItem |
| Batch.Next | upload_vid.py:162-165 | definition; specified by Batch.RaisedIsCaught, Batch.ExitEndsBatch and Batch.PassedOverChangesNothing |
| Batch.Fold | upload_vid.py:167-187 | the report lists the uploaded files in the order of the walk: all of them when no upload ended the batch, and otherwise a leading part of them whose last upload, and only that one, ended the batch |
| Batch.HaltedStays | upload_vid.py:167-169 | once an upload has ended the batch, no later file changes the report |
| Batch.RaisedIsCaught | upload_vid.py:162-165 | an upload that re-raised an HttpError is reported and the batch goes on |
| Batch.ExitEndsBatch | upload_vid.py:162-165 | an upload that exited (or never returned) is reported and ends the batch |
| Batch.PassedOverChangesNothing | upload_vid.py:169-175 | a file that is not uploaded leaves the report as it was |
| Batch.EntriesOf | upload_vid.py:168-169 | definition; specified by Batch.EntriesAt |
| Batch.Entries | upload_vid.py:168-169 | definition; specified by Batch.EntriesAt |
| Batch.EntriesAt | upload_vid.py:168-169 | the `j`-th file of the `f`-th folder comes right after all files of the folders before it, in the order `os.walk` lists them |
| Batch.UploadAll | upload_vid.py:167-187 | definition; specified by Batch.BatchItems, Batch.BatchComplete and Batch.Fold |
| Batch.BatchItems | upload_vid.py:167-187 | every video in the report is a file of the walk that passes the filter, was uploaded as its sidecar prescribes, and has a title without `#` |
| Batch.ResultOfEntry | upload_vid.py:170-187 | a result of the inner loop body comes from a file that passes the filter, with the item it was uploaded as |
| Batch.BatchComplete | upload_vid.py:167-187 | conversely, when no upload ended the batch, every file of the walk that passes the filter and has a sidecar is in the report |
| Batch.ProcessFile | upload_vid.py:170-187 | the per-file body, step by step, produces exactly the specified result for the file |
| Batch.UploadFolder | upload_vid.py:169-187 | the inner loop over one folder leaves the batch exactly as taking in all of the folder's files in order would; it stops early only when an upload has ended the batch |
| Batch.FindAndUploadVideos | upload_vid.py:167-187 | the nested loops, run step by step, produce exactly the specified batch over all files of the walk |

## Left out

- `get_authenticated_service` (upload_vid.py:46-57): OAuth flow and credential storage. This is foreign library code.
- `create_or_get_playlist` (upload_vid.py:59-76): an API call. The playlist id is an input.
- The request built by `initialize_upload` (upload_vid.py:83-99) and `MediaFileUpload`: only the tags it computes are modelled. The request is represented by the chunk oracle.
- The description, category and privacy constants of `edit_and_upload_video` (upload_vid.py:153-160): they are constants that do not influence any behaviour modelled here.
- `os.walk`, `os.path.exists` and reading the sidecar: they are given as inputs. The walk is a sequence of folders with their file names, and the sidecars a map from existing paths to their text, already decoded. The `subfolders` part of the walk plays no role.
- Errors while reading a sidecar: not modelled.
- `random.random()` and `time.sleep` (upload_vid.py:144-146): only the integer bound `2**retry` of each sleep is recorded.
- The `print` output and the texts of the messages (upload_vid.py:131, 135, 138, 145, 165, 186): not modelled. `error` is a flag, and each `exit(...)` is a terminal outcome that names its reason.
- `httplib2.RETRIES` (upload_vid.py:18): a library setting.
- The thumbnail path (upload_vid.py:173): computed but never used.
- Individual exception classes: those in `RETRIABLE_EXCEPTIONS` are one `TransportError`. Exceptions outside `HttpError` and that tuple are not modelled.
- A loop that gets in-progress chunks forever: it does not terminate. The finite oracle ends it as `OutOfInput`, which also ends the batch.
- Text.Lower: maps only the ASCII letters. Python's `lower()` maps every Unicode letter, which only matters for names that lower into the ASCII extensions from outside ASCII.
- Batch.PathJoin: models POSIX `os.path.join` with two arguments. The other platforms' path rules are not modelled.

## Findings

| source | as written | input that shows it | evidently intended | confidence | as-written member | corrected member |
|---|---|---|---|---|---|---|
| upload_vid.py:105-146 | `error` is assigned by the except clauses but never cleared, so after the first retriable failure every later iteration counts a retry and sleeps, including the one that receives the final response | ten HTTP 503 errors from `next_chunk()`, then a final response with an id, and a playlist insert that succeeds: the video is uploaded and attached, then the script exits with "No longer attempting to retry." | `error` describes the current iteration only (cleared before each `try`), so the call returns normally after the attach | not executed | UploadLoop.StickyErrorExitsAfterAttach | UploadLoop.FixedRecoversAfterTransients |

`UploadLoop.DriveFixed` is the corrected loop. `UploadLoop.FixedSuccessReturns`
proves its intended property: a successful response always returns. The
driver methods and the batch keep the behaviour of the code as written, so that
they model the script as it runs.
