# PaperOffice API wrapper: the file processor

This project models the processing core of `API_file_processor` in `src/main.py`. That class sends every file of every configured folder through the PaperOffice job API:
- `job/add` opens a job;
- `job/upload` sends the file;
- `job/status` polls until the job completes;
- the result is then downloaded into the output folder, and the original is moved, with a timestamped name, into the folder's `api_processed_files` subfolder.

The model also covers the two start-up checks that feed the processor: the key check of the folder settings (`validate_json_keys`) and the defaulting rules of `load_env_file`.

The modules, one concern each:
- **`Wrappers`, `Text`, `Json`** (`json.dfy`). An option type, decimal digits, and Python's substring test. Also a parsed JSON value with Python's truthiness, subscript (`None` where Python raises) and `in`.
- **`Responses`** (`responses.dfy`). An HTTP reply, and the four classifiers as total functions.
  - `sys_exit()` is the verdict `Fatal`.
  - A `KeyError` that escapes to the top-level handler (which also exits) is `Fatal` too.
  - A key missing inside a `try` is `Reject`, meaning skip the file.
- **`Builders`** (`builders.dfy`). These are the pure builders:
  - the `job/add` form data and the configuration payload afterwards;
  - the bearer header;
  - the upload and status URLs;
  - the `%Y%m%d-%H%M%S%f`[:-3] timestamp and the stamped file name;
  - the first-match, greedy `filename="(.+)"` extraction, with the Latin-1 re-encoding.
- **`Config`** (`config.dfy`). `validate_json_keys`, as a loop over the folders that is proved equal to a predicate. `load_env_file`, as a method rewriting the `env_config` entries.
- **`Processor`** (`processor.dfy`).
  - The world is given as data: path states, the listing, and the reply to every request in order. The clock readings and the outcome of each file operation are inputs too.
  - Specification functions give the effect of one file (`RunPhase`), of a folder's file loop (`FilesUpTo` / `RunFiles`), of one folder (`RunFolder`) and of all folders (`RunFolders` / `RunAll`).
  - The class `FileProcessor` has the fields `folders`, `totalFolders` and `totalFiles`, plus a ghost `trace` of requests, saved files and moves. Its methods follow the source's methods and loops, and each is proved equal to its specification function.
- **`Properties`** (`properties.dfy`). What the loops promise: the 31-request poll bound, the time-out, where a download link comes from, when a file counts, how one file's outcome decides the rest of the folder, and where originals are moved.

## Model

| member | source | states |
|---|---|---|
| Responses.CheckResponseStatusCode | src/main.py:301-313 | A missing or zero code and 429 are rejected, 401 is fatal, and every other code (5xx included) is accepted; each case is an if-and-only-if. |
| Responses.ErrorCodeVerdict | src/main.py:327-340 | An error body never passes; it is fatal exactly when `code` is 401 or 421, and skips the file otherwise, including a missing `code`. |
| Responses.BodyStatusVerdict | src/main.py:323-343 | The shared body check: accepted exactly on the one expected status; fatal exactly when `status` is missing, or is `error` with code 401/421. |
| Responses.CheckJobAddResponseStatusKey | src/main.py:317-348 | job/add accepts only `waiting4files`; it is fatal exactly on a missing status or an error with code 401/421. |
| Responses.CheckJobUploadResponseStatusKey | src/main.py:390-421 | job/upload accepts only `queued`; it has the same fatal cases as job/add. |
| Responses.CheckJobStatusResponseStatusKey | src/main.py:456-496 | Each of the four statuses is returned exactly on its own string. `processing` also covers an error body whose message contains `RATE_LIMIT_EXCEEDED`. It is fatal exactly on a missing status, or on an error with code 401/421 whose `message` is present, searchable and lacks `RATE_LIMIT_EXCEEDED`; an error with a missing or unsearchable `message` raises inside the `try` and skips the file. |
| Responses.StatusReply | src/main.py:500-518 | send_request_job_status returns a reply only when its body has `status`; otherwise the subscript on line 505 makes it a failed request. |
| Responses.StatusBodyNeverLacksStatus | src/main.py:500-518 | On a reply that passed send_request_job_status, the status check can exit only through error code 401 or 421, never through a missing `status`. |
| Responses.RateLimitBeatsErrorCode | src/main.py:472-476 | An error body whose message contains the rate-limit marker is `processing`, whatever its `code` (401 included). |
| Responses.RateLimited | src/main.py:473 | Defines the rate-limit test: no `message` raises (None); otherwise Python's `in` of the marker on the message's value, None where that value supports no `in`. |
| Text.IsSubstringIff | src/main.py:473 | The scan behind Python's `in` on strings holds exactly when the text occurs at some index. |
| Text.DigitsRoundTrip | src/main.py:539 | A zero-padded decimal field reads back as the number it was made from. |
| Text.MillisPrefix | src/main.py:539 | Cutting the last three digits off the six-digit `%f` field gives the milliseconds. |
| Json.Truthy | src/main.py:592 | Defines `not x` on a JSON value: None, False, 0, and the empty string, list or dict are falsy. |
| Json.Get | src/main.py:604 | Defines the subscript `x[key]`: the value on a dict that holds the key, None where Python raises. |
| Json.Contains | src/main.py:473 | Defines Python's `in`: substring on a string, element on a list, key on a dict, None where it raises. |
| Json.Display | src/main.py:606 | Defines the f-string text of a value: `None`, `True`/`False`, decimal digits, the string itself; a list or dict gets a placeholder. |
| Builders.JobAddPayload | src/main.py:356-362 | The sent dict always holds the device-origin marker; every other key comes from the configured payload, and all of that payload's keys are sent. The configuration keeps the marked dict when its payload was a non-empty dict, and is unchanged otherwise. |
| Builders.JobAddPayloadIdempotent | src/main.py:356-362 | A second job/add with the persisted payload sends the same dict and persists the same value. |
| Builders.AuthHeaders | src/main.py:366-369 | The header map holds only `Authorization`, exactly when an API key is set, and its value is `Bearer ` followed by the key. |
| Builders.UploadUrl | src/main.py:606 | Defines the job/upload URL `https://host/V5/job/upload/id`. |
| Builders.StatusUrl | src/main.py:627 | Defines the job/status URL `https://host/V5/job/status/id`. |
| Builders.JobUrlsRecoverHostAndId | src/main.py:606 | When neither the host nor the job id contains a `/`, the upload and status URLs give back the assigned host and the job id, and the upload URL differs from every status URL of the same host. |
| Builders.JobUrlParts | src/main.py:627 | An `https://host/…/id` URL, with a path that starts and ends with `/` and neither the host nor the id containing a `/`, gives back its host and last segment. |
| Builders.Timestamp | src/main.py:539 | The timestamp is 18 characters long with a dash at index 8. |
| Builders.TimestampParts | src/main.py:539 | The timestamp is the year, month, day, a dash, the hour, minute, second and milliseconds, each zero-padded. |
| Builders.TimestampFields | src/main.py:562 | Each field of the timestamp reads back as the clock value it came from. |
| Builders.TimestampInjective | src/main.py:562 | Two timestamps are equal exactly when the clock readings agree to the millisecond. |
| Builders.StampedName | src/main.py:540 | Defines `f"{timestamp}_{name}"`, used for the saved result (540) and the moved original (565). |
| Builders.StampedNameSplit | src/main.py:565 | A stamped name is the 18-character timestamp, `_`, then the name. |
| Builders.StampedNameInjective | src/main.py:540 | Stamped names are equal exactly when the timestamps and the names are. |
| Builders.MatchFrom | src/main.py:531 | Gives the leftmost match at or after a position, with the longest capture on that line; no match means there is none. |
| Builders.FirstFilename | src/main.py:531-533 | `re.findall(...)[0]` exists exactly when some `filename="…"` match exists. |
| Builders.Latin1Encode | src/main.py:533 | Encoding succeeds exactly when every character is below 256, and keeps the length. |
| Builders.Latin1RoundTrip | src/main.py:533 | Latin-1 decoding undoes the encoding. |
| Builders.DownloadFileName | src/main.py:529-537 | A missing header, or one without a match, gives the original name. Otherwise the first capture is re-encoded and re-decoded, and a failed step is a failed download. |
| Config.ValidConfig | src/main.py:155-184 | Defines the configurations that pass the key check: `folders` at the top of a dict, and each folder a dict with the three folder keys and an `endpoint` dict with `url` and `payload`. |
| Config.ValidateJsonKeys | src/main.py:155-184 | It returns exactly when the top level is a dict holding `folders`, and every folder is a dict with `folder_path`, `output_folder` and an `endpoint` dict holding `url` and `payload`. An empty dict or string for `folders` also passes. |
| Config.AsciiUpper | src/main.py:114 | `upper()` keeps the length and maps each letter to its capital. |
| Config.LoadEnvFile | src/main.py:112-146 | The API key is read, defaulting to empty. An upper-cased valid level is kept, and anything else becomes INFO. Each size is kept when it is set, parses and is positive, and becomes 10 or 5 otherwise. Every entry ends valid. |
| Processor.JoinPath | src/main.py:541 | Defines `Path(dir) / name` as `dir` + `/` + `name`, used for the saved result (541), the moved original (568) and the processed folder (722). |
| Processor.FolderPathExists | src/main.py:237-245 | Defines check_folder_path_exists: the path exists and is a directory. |
| Processor.EnsureFolder | src/main.py:249-285 | Defines both check-and-create checks: a directory, or a missing path that can be created; an existing non-directory fails. |
| Processor.MarkEndpoint | src/main.py:362 | Defines the endpoint after job/add: its payload replaced by the persisted one. |
| Processor.ReplyGate | src/main.py:586-594 | No status code, or a falsy body under an accepted code, skips the file; 429 ends the folder; 401 ends the run; otherwise processing goes on with a truthy body. |
| Processor.AddStage | src/main.py:584-605 | Defines the job/add phase: the gate, the status check (exit, skip or go on), then the host and job id read outside any try, a missing one ending the run. |
| Processor.UploadStage | src/main.py:609-622 | Defines the job/upload phase: the gate, then the `queued` check, whose failure skips the file. |
| Processor.CanWait | src/main.py:675-678 | Defines when `range(next_call_in_seconds, -1, -1)` can run: the key is present and holds an int or a bool; otherwise the error reaches the top-level handler. |
| Processor.PollStepAt | src/main.py:635-676 | Defines one pass of the poll loop: no code skips the file, a rejected code ends the folder, a fatal one the run; then the status: `failed` and unknown skip, `completed` stops with the link (a missing link exits), and queued or processing skips at pass 30, waits when it can, and exits otherwise. |
| Processor.PollFrom | src/main.py:633-682 | Defines the poll loop from pass i: how it ends and how many status requests it sends; the 100 passes of `range(100)` bound the recursion. |
| Processor.SavedPath | src/main.py:522-555 | A file is saved only on a 200 whose write succeeded, and then exactly when the name derivation succeeds. It is saved under the stamped derived name: the stamped original name without a header, and the stamped first capture when Content-Disposition gives one. |
| Processor.RunPhase | src/main.py:580-704 | Defines the body of the file loop from each phase on: its exit (next file, end of folder, end of run), the requests, saves and moves in order, and whether `total_files` rises. |
| Processor.RunFile | src/main.py:580-704 | Defines one pass of the file loop from job/add on, with the endpoint as the previous file left it; every per-file lemma is stated over it. |
| Processor.FilesUpTo | src/main.py:576-706 | Defines the file loop after n files, or up to the file that left the folder; each file sees the endpoint the previous job/add left. |
| Processor.RunFiles | src/main.py:576-706 | Defines process_files on the whole listing. |
| Processor.RunFolder | src/main.py:710-736 | Defines process_folder: the three folder checks, then the file loop with the processed folder inside the input folder, and the endpoint written back. |
| Processor.LeftFolderIsFinal | src/main.py:684-687 | After a file leaves the folder (break or exit), the later files are not touched. |
| Processor.RunFolders | src/main.py:226-235 | The configuration list keeps its length, and the folders not yet reached are unchanged. |
| Processor.RunAll | src/main.py:226-235 | Defines process_all_folders over every configured folder. |
| Processor.FatalIsFinal | src/main.py:32-38 | After a fatal exit no further folder is processed. |
| Processor.FileProcessor.constructor | src/main.py:218-223 | It starts with no folders or files counted and nothing done. |
| Processor.FileProcessor.SendRequestJobAdd | src/main.py:352-386 | It posts the marked payload with the auth header, and the configuration's payload is left as JobAddPayload says. |
| Processor.FileProcessor.SendRequestJobUpload | src/main.py:425-452 | An unreadable file fails in `open`, before any request; otherwise one upload post is made with the auth header. |
| Processor.FileProcessor.SendRequestJobStatus | src/main.py:500-518 | One status GET is made, without an auth header, and a body without `status` reads as a failed request. |
| Processor.FileProcessor.PollJobStatus | src/main.py:629-682 | The loop's flags and download link are the ones the poll specification gives, after exactly its number of requests. |
| Processor.FileProcessor.DownloadProcessedJobFiles | src/main.py:522-555 | It makes one GET of the link and returns true exactly when it saved the file under SavedPath's name. |
| Processor.FileProcessor.MoveFileWithTimestamp | src/main.py:559-572 | It moves the original to the stamped name in the processed folder, or raises. |
| Processor.FileProcessor.ProcessFile | src/main.py:580-605 | One pass of the file loop equals the file specification. It also leaves the endpoint with the persisted payload. |
| Processor.FileProcessor.UploadJob | src/main.py:603-622 | The upload phase equals the specification from job/upload on. |
| Processor.FileProcessor.PollJob | src/main.py:624-690 | The poll phase and its flag tests equal the specification from job/status on. |
| Processor.FileProcessor.FetchResult | src/main.py:689-704 | The download, the move (only after a successful download) and the `total_files` increment equal the specification. |
| Processor.FileProcessor.ProcessFiles | src/main.py:576-706 | The file loop equals the folder specification: its exit, every request and move, the files counted, and the endpoint afterwards. |
| Processor.FileProcessor.ProcessFolder | src/main.py:710-736 | `total_folders` rises exactly when the input folder exists and both the processed and output folders exist or can be created. The files go to `api_processed_files`, and the folder's endpoint is written back. |
| Processor.FileProcessor.ProcessAllFolders | src/main.py:226-235 | The folders are processed in order, up to a fatal exit; the totals, the effects and the configurations equal the specification. |
| Properties.PollKeepsIff | src/main.py:633-682 | The loop asks again exactly on a still-running reply (queued or processing, with a usable wait) before pass 30. |
| Properties.PollRequestsBound | src/main.py:633-672 | At least one and at most 31 - i status requests are made from pass i, so at most 31 per file. |
| Properties.PollStopsAt | src/main.py:633-676 | After still-running replies, the loop ends at the first pass whose reply stops it, with that reply's outcome and one request per pass. |
| Properties.PollTimesOut | src/main.py:669-672 | A job still running before pass 30 and queued or processing at pass 30 makes the file be skipped after exactly 31 requests, whether or not that last reply has a usable wait. |
| Properties.PollDoneOnCompleted | src/main.py:656-663 | A download link comes only from the last reply asked for, which is accepted and `completed`, and every earlier reply kept the job running. |
| Properties.CompletedGivesLink | src/main.py:659-663 | An accepted `completed` reply with a download link at pass k, after still-running replies, ends the loop with that link after exactly k - i + 1 requests. |
| Properties.PollFailureOutcomes | src/main.py:635-649 | At job/status, a failed request or code 0 skips the file, and so does a body without `status` whatever its code; a 429 ends the folder and a 401 ends the run. Each comes after exactly the requests made so far, without counting. |
| Properties.CountRuleFile | src/main.py:689-704 | A file is counted exactly when it reached the download and did not end the run, even if the download failed. A counted file was moved exactly when its result was saved, and every move goes into the processed folder. |
| Properties.CountRuleUploading | src/main.py:607-704 | The same counting rule from job/upload on. |
| Properties.CountRulePolling | src/main.py:624-704 | The same counting rule from job/status on. |
| Properties.CountRuleDownloading | src/main.py:689-704 | The same counting rule for the download and move. |
| Properties.AddFailureOutcomes | src/main.py:584-590 | A job/add without a status code skips the file, a 429 ends the folder and a 401 ends the run, each after one request and without counting. |
| Properties.AddFailureInFolder | src/main.py:586-590 | In a folder loop, such a transport failure skips only that file, and the rest run as usual; a 429 leaves the rest untouched. |
| Properties.UploadFailureOutcomes | src/main.py:607-613 | After an accepted job/add, an unreadable file ends the run before the upload; a job/upload without a status code skips the file, a 429 ends the folder and a 401 ends the run, after the two requests and without counting. |
| Properties.FirstFileContinues | src/main.py:579-704 | The loop over a file and the rest, when the file lets it go on, is that file followed by the loop over the rest. |
| Properties.FirstFileLeaves | src/main.py:684-687 | When the first file ends the folder or the run, no other file is touched. |
| Properties.CountAtMostFiles | src/main.py:704 | `total_files` rises by at most one per file. |
| Properties.MarkEndpointIdempotent | src/main.py:356-362 | Persisting the marker twice is persisting it once, and the sent dict does not change. |
| Properties.EndpointAfterFiles | src/main.py:356-362 | After any file of a folder, the folder's endpoint is the one the first job/add left. |
| Properties.FilesMoveInto | src/main.py:701 | Every move of the file loop goes into the processed-files folder. |
| Properties.FolderMovesInto | src/main.py:722 | process_folder moves originals only into `api_processed_files` inside the folder they came from. |
| Properties.FoldersAtMostConfigs | src/main.py:732 | `total_folders` rises by at most one per configured folder. |

## Left out

- The network (`requests.post`/`get`), the file system (`os.path`, `os.makedirs`, `os.listdir`, `open`, writing, `shutil.move`) and the clock (`datetime.now()`) are not modelled. Their answers are inputs: a `Reply` per request, a `PathState` per folder, the listing, readability, the write and move outcomes, and a `DateTime` per reading.
- `json.load`, `load_dotenv`, `os.getenv` and `clear_env_variables` are not modelled. The configuration is a parsed `Json` value, and the environment is a map of strings.
- Sleeps, countdown prints, `sys.stdout.flush`, logging and `setup_logging` are left out: they have no effect on the outcome.
- The timing summary at the end of the run is left out (floating point and output only).
- `sys_exit()` and the top-level handler end the whole run. The model stops processing with `Fatal`/`Terminate`; it does not model the process exit itself.
- The UTF-8 decode of the captured name is an uninterpreted partial function (`utf8`), and `int()` on a string is `parseInt`.
- `Config.AsciiUpper`: `str.upper()` is modelled on ASCII letters only; other characters are left unchanged.
- `Builders.Timestamp`: years are limited to 1000..9999, where `%Y` gives four digits.
- `Json.Display`: the f-string text of a list or dict value is a fixed placeholder, not Python's `repr`. Floats are not part of the JSON model, so a float status code or `next_call_in_seconds` is not represented.
- `JoinPath` joins with a plain `/`, without `pathlib` normalisation. Configured paths and the endpoint `url` are taken as strings. The key check does not check the type of `url`; a non-string value makes `requests.post` raise inside its `try`, which reads as a failed request (`NoReply`).
- The in-place update of the configuration's payload dict is modelled by value: the folder's endpoint is threaded through the file loop and written back to `folders`.

## Notes on the code

- send_request_job_add writes the device-origin marker into a non-empty configured payload (src/main.py:356-362), so the marker persists in the configuration.
- The `job/status` GET is sent without headers, so it carries no `Authorization` (src/main.py:504).
- process_files handles its files one after another in a plain `for` loop and sends each request once, with no retry; the only pause before the poll loop is `time.sleep(3)` (src/main.py:579, 632).
- The poll loop is `range(100)`, but the test at pass 30 stops it, so a file gets at most 31 status requests (src/main.py:633, 669-672).
