# tubedlapi job pipeline, in Dafny

A Dafny model of the core of tubedlapi, a small HTTP service that uses
youtube-dl to download media and copies each download to storage
destinations. The model covers:

- **The job pipeline** (`exec/stage.py`, `exec/youtubedl.py`,
  `exec/uploader.py`, `model/job.py`). A job is fetched: the engine's
  progress events drive the job status, and a post-processor normalises the
  engine's info dict into meta `info`. The fetch future's completion
  callback stores the result under meta `result`. If the job's meta has a
  `destinations` key, the callback starts the upload stage. That stage
  fans out one copy task per destination name, folds the finished futures
  into a map keyed by name, and marks the job `completed`.
- **The blob encryption layer** (`util/crypto.py`). A key is derived from
  a secret and a 16-byte salt. A message has the form
  `nonce$salt$ciphertext`. Base64 decoding is modelled at the level of
  CPython 3.6's `binascii.a2b_base64`, so the model can state which
  messages decode.
- **Settings** read from the environment (`components/settings.py`).
- **The in-process HTTP client's URL rule** (`components/client.py`).
- **A destination's password-masked URL** (`model/destination.py`).
- **The module-level session binding** (`model/__init__.py`).

Threads, the database, the file systems, the engine and the cryptographic
primitives are outside the model. Each enters as a parameter:

- how a future finished: `Futures.Outcome`;
- what the engine reported: `FetchAdapter.EngineScript`;
- which destination names are registered and how each copy ended:
  `StageController.UploadWorld`;
- the cipher and the key derivation: `Crypto.Primitives`;
- what `os.urandom` returned: a byte-sequence argument.

Side effects on a job are recorded, in order, as `Save` and `Submit`
effects (`JobModel.Effect`).

Modules:

- `Py`: exceptions, `Option` and `Result`.
- `Text`: string helpers such as `split`, `replace`, `int()` and case mapping.
- `Values`: decoded JSON and Python truthiness.
- `Futures`: completed `concurrent.futures` futures.
- `JobModel`: the job record.
- `FetchAdapter`: `exec/youtubedl.py`, the progress hook, the post-processor and `fetch_url`.
- `Uploader`: `exec/uploader.py`, `upload_file` and `upload_to_destination`.
- `StageController`: `exec/stage.py`, the stage callbacks, and the whole pipeline built from them.
- `Base64`: the base64 codec.
- `Crypto`: the blob encryption layer.
- `AppSettings`: settings.
- `Client`: the HTTP client's URL rule.
- `DestinationModel`: the destination record.
- `SessionBinding`: the session binding.

Notes on the code as written:

- A job without `destinations` whose download reached the post-processor
  ends with status `finished`, which the post-processor set. It never
  reaches `completed`.
- youtube-dl can return its code without ever calling the post-processor:
  a simulated or skipped download, a filtered entry, an empty playlist, or
  an error it was told to ignore. Meta then has no `info`, and the status
  is whatever the progress hooks left. With destinations, the upload stage
  still begins; `upload_file` finds no filename and raises TypeError, and
  the job is left `uploading`.
- A `destinations` key holding an empty list still runs the upload stage.
  When the fetch left a truthy filepath, the job ends `completed` with an
  empty `result`; without one, `upload_file` raises TypeError and the job
  is left `uploading`.
- No code sets the status `fetching`.
- One unregistered destination makes the whole upload stage raise. No
  per-destination `error` entry is ever recorded, because a record is only
  built for a successful future. The job is left `uploading`.

## Model

| member | source | states |
|---|---|---|
| JobModel.MetaUpdate | src/tubedlapi/model/job.py:35-39 | the update is a shallow merge: each given key gets exactly its new value, every other key keeps its value, and id, created_at and status are unchanged |
| JobModel.MetaUpdateIdempotent | src/tubedlapi/model/job.py:35-39 | applying the same update twice gives the same job as applying it once |
| JobModel.MetaUpdateSequential | src/tubedlapi/model/job.py:35-39 | two updates in a row equal one combined update in which the later values win |
| JobModel.MetaUpdateSingle | src/tubedlapi/model/job.py:35-39 | an update of one key stores that key's new value and keeps every other entry |
| JobModel.ToDict | src/tubedlapi/model/job.py:41-48 | the dict has exactly the keys id, created_at, status and meta, and meta is the decoded dict |
| JobModel.ToDictAfterMetaUpdate | src/tubedlapi/model/job.py:35-48 | a meta update changes the serialised job only under meta |
| FetchAdapter.HookStatus | src/tubedlapi/exec/youtubedl.py:123-128 | the engine's "finished" becomes "processing", so "finished" never becomes the job status; every other status passes through unchanged |
| FetchAdapter.ProgressHook | src/tubedlapi/exec/youtubedl.py:113-131 | a missing status raises KeyError; an unchanged status does nothing; a new status is set, the event is stored under meta extractor, no other meta key changes, and the job is saved exactly once |
| FetchAdapter.RunHooks | src/tubedlapi/exec/youtubedl.py:113-131 | running the hooks over string-status events never raises; hooks only save, and touch no meta key but extractor |
| FetchAdapter.HooksNeverSurfaceFinished | src/tubedlapi/exec/youtubedl.py:123-128 | starting from any status other than "finished", no saved snapshot and not the final job shows "finished" |
| FetchAdapter.DownloadThenFinishObserved | src/tubedlapi/exec/youtubedl.py:113-131 | from a queued job, the events downloading, downloading, finished are saved as the statuses downloading, processing |
| FetchAdapter.RepeatedFinishedRefires | src/tubedlapi/exec/youtubedl.py:115-130 | a second "finished" event on a processing job updates and saves it again |
| FetchAdapter.ThumbnailUrls | src/tubedlapi/exec/youtubedl.py:60 | succeeds exactly when every thumbnail is a dict, and then lists each thumbnail's url in order |
| FetchAdapter.Thumbnails | src/tubedlapi/exec/youtubedl.py:60 | an absent thumbnails key, an empty string and an empty dict give the empty list; a list is mapped; a non-empty string or dict and any other value raise |
| FetchAdapter.FilterInfo | src/tubedlapi/exec/youtubedl.py:44-67 | the normalised document always has the four fixed groups and their fields, and it raises exactly when the thumbnails raise |
| FetchAdapter.FilterInfoFields | src/tubedlapi/exec/youtubedl.py:44-67 | every copied field is the engine's value under its source key, or None when the key is absent |
| FetchAdapter.FilterOfEmpty | src/tubedlapi/exec/youtubedl.py:44-67 | an info dict without any engine key normalises to the all-None document |
| FetchAdapter.FilterIgnoresOtherKeys | src/tubedlapi/exec/youtubedl.py:44-67 | two info dicts that agree on every key the filter reads normalise to the same document, so other keys make no difference |
| FetchAdapter.FilterOfFilteredIsEmpty | src/tubedlapi/exec/youtubedl.py:80-86 | normalising an already normalised document loses every field |
| FetchAdapter.PostProcessorRun | src/tubedlapi/exec/youtubedl.py:69-86 | the post-processor sets status "finished", stores the normalised document under meta info and saves once; it hands back no files and the all-None document |
| FetchAdapter.FetchOptions | src/tubedlapi/exec/youtubedl.py:89-98 | the profile options must be a dict; outtmpl, logger and progress_hooks are overridden for the job, and every other option is kept |
| FetchAdapter.EmptyProfileOptions | src/tubedlapi/exec/youtubedl.py:91-98 | a profile whose stored options are `{}` hands the engine exactly the three options fetch_url sets |
| FetchAdapter.EngineEnds | src/tubedlapi/exec/youtubedl.py:105-110 | an engine that raises fails the future; one that returns without the post-processor completes it with its code and leaves the job alone; a download completes it exactly when the post-processor succeeds, with status "finished" and meta info set to the normalised document |
| FetchAdapter.FetchUrl | src/tubedlapi/exec/youtubedl.py:89-102 | the engine is called with meta url and the merged options; a missing url raises KeyError |
| FetchAdapter.FetchTask | src/tubedlapi/exec/youtubedl.py:89-110 | a successful fetch returns the engine's return code and never cancels; when the engine handed over its info dict the job is "finished" with the normalised info, and when it returned without one the job is exactly as the progress hooks left it; every other meta key is kept; well-formed input always succeeds |
| Uploader.LocalFilename | src/tubedlapi/exec/uploader.py:33-39 | the filename is meta info.downloaded.filename; it must be truthy or TypeError is raised, and a non-dict level raises AttributeError |
| Uploader.DestinationNames | src/tubedlapi/exec/uploader.py:46-56 | an absent key means no destinations; a list of names is taken in order |
| Uploader.Record | src/tubedlapi/exec/uploader.py:60-73 | a record exists only for a successful future and is exactly {'result': value}; a failed future re-raises and a cancelled one raises CancelledError |
| Uploader.Aggregate | src/tubedlapi/exec/uploader.py:60-79 | the fold succeeds exactly when every future succeeded; the keys are the names; a repeated name keeps its last record; otherwise the first failure in list order is raised |
| Uploader.UploadFile | src/tubedlapi/exec/uploader.py:26-79 | the filename is checked before anything is submitted; then one task is submitted per destination name, in order, with no deduplication |
| Uploader.UploadFileResult | src/tubedlapi/exec/uploader.py:46-79 | upload_file returns exactly when every destination task succeeded, keyed by destination name; otherwise it raises the first failure |
| Uploader.UniformSuccess | src/tubedlapi/exec/uploader.py:60-79 | when every task returns the same value, every name maps to {'result': value} and nothing else is in the map |
| Uploader.UploadToDestinationTask | src/tubedlapi/exec/uploader.py:82-103 | an unknown destination name raises Destination.DoesNotExist; on a registered destination a failed copy raises that copy's own error, and a completed copy returns {'success': True} |
| StageController.JobBeginFetch | src/tubedlapi/exec/stage.py:20-42 | the fetch task is submitted with a callback for the fetching stage, and the job is untouched |
| StageController.JobBeginUpload | src/tubedlapi/exec/stage.py:45-68 | the job is marked "uploading" and saved before the upload task is submitted |
| StageController.JobStageCallback | src/tubedlapi/exec/stage.py:71-102 | a failed or cancelled future raises before anything changes; otherwise the result is stored and saved, and then the fetching stage with destinations begins the upload, the fetching stage without them stops, and the uploading stage marks the job "completed" |
| StageController.UploadStageDelivers | src/tubedlapi/exec/stage.py:45-102 | for a job with a truthy local filename and a list of destination names, with every destination registered and every copy succeeding, the job ends "completed" and its result maps exactly the destination names to {'result': {'success': True}} |
| StageController.FetchStageHandsOn | src/tubedlapi/exec/stage.py:85-97 | a successful fetch with destinations begins the upload, and the job handed on carries the engine's filepath as its local filename |
| StageController.FilenameFromInfo | src/tubedlapi/exec/uploader.py:33 | the upload stage reads back, as the local filename, the filepath the post-processor stored |
| StageController.PipelineDeliversEverywhere | src/tubedlapi/exec/stage.py:20-102 | end to end, for dict profile options, meta url present, string event statuses, a download that reaches the post-processor with a truthy filepath, a list of destination names, every destination registered and every copy succeeding, nothing escapes and the job ends "completed" with one success record per destination name |
| StageController.PipelineWithoutDestinations | src/tubedlapi/exec/stage.py:90-97 | without destinations, after a fetch whose download reached the post-processor, the run stops after the fetch callback: no upload is submitted, the status stays "finished", and result holds the engine's return code |
| StageController.ReturnedFetch | src/tubedlapi/exec/youtubedl.py:89-110 | when the engine returns without calling the post-processor, the fetch completes with the return code, the job is as the progress hooks left it, and no info is stored |
| StageController.ReturnedFetchStrandsUpload | src/tubedlapi/exec/stage.py:85-97 | with destinations, such a fetch still begins the upload; upload_file raises its missing-filename TypeError, which escapes, and the job stays "uploading" with the return code as result |
| StageController.ReturnedFetchWithoutDestinations | src/tubedlapi/exec/stage.py:85-97 | without destinations, such a fetch ends the run with nothing escaping, no info, the status the hooks left (the job's own status with no events) and the return code as result |
| StageController.FailedFetchEscapes | src/tubedlapi/exec/stage.py:81-83 | a fetch that raised makes the callback re-raise, and nothing is uploaded |
| StageController.UnregisteredDestinationEscapes | src/tubedlapi/exec/stage.py:81-83 | one unregistered destination makes the upload callback raise, and the job stays "uploading" with the fetch result |
| Base64.DecodeEncode | src/tubedlapi/util/crypto.py:120-123 | decoding the base64 encoding of any bytes gives those bytes back |
| Base64.QuotedUnpaddedRejected | src/tubedlapi/util/crypto.py:97-101 | the b'...' rendering of an unpadded encoding fails to decode with "Incorrect padding" |
| Crypto.MakeKdf | src/tubedlapi/util/crypto.py:53-74 | an empty salt is "not set" and any salt length other than 16 is refused; otherwise the KDF is SHA512 with length 32 over the salt |
| Crypto.NewProvider | src/tubedlapi/util/crypto.py:34-51 | a missing or empty salt is replaced by 16 random bytes, and any other length than 16 is refused; the key is derived from the secret over the chosen salt |
| Crypto.KeyCheck | src/tubedlapi/util/crypto.py:86-90 | only a 32-byte key passes; an empty key is "not set" |
| Crypto.Unpack3 | src/tubedlapi/util/crypto.py:120 | unpacking succeeds exactly for three fields, and raises ValueError for fewer or more |
| Crypto.EncryptBlob | src/tubedlapi/util/crypto.py:76-101 | succeeds exactly for a 32-byte key, and the message then splits on `$` into exactly the written nonce, the written salt and the written sealed blob |
| Crypto.ExtractSalt | src/tubedlapi/util/crypto.py:25-32 | succeeds exactly when the message has two separators, and then returns the middle field, still encoded |
| Crypto.ExtractSaltOfWritten | src/tubedlapi/util/crypto.py:25-32 | on an encrypted message the salt field returned is the b'...' rendering, not the salt |
| Crypto.DecryptBlob | src/tubedlapi/util/crypto.py:127-143 | the provider's salt must be set and equal the message's salt before the cipher opens the blob |
| Crypto.DecryptMessage | src/tubedlapi/util/crypto.py:103-125 | the key is checked, then three fields are required; if the nonce, salt or blob field fails to decode, binascii.Error "Incorrect padding" is raised; when all three decode, the result is what decrypt_blob returns |
| Crypto.EncryptedMessagesNeverDecrypt | src/tubedlapi/util/crypto.py:97-123 | no message that encrypt_blob writes can be decrypted by any provider with a usable key |
| Crypto.EncryptBlobFixed | src/tubedlapi/util/crypto.py:76-101 | with plain base64 fields, the message splits back into the nonce, salt and ciphertext fields |
| Crypto.FixedRoundTrip | src/tubedlapi/util/crypto.py:76-143 | with plain base64 fields, decrypt_message undoes encrypt_blob for the provider that encrypted |
| Crypto.FixedForeignSaltRefused | src/tubedlapi/util/crypto.py:136-140 | a provider holding another salt refuses the message before opening it |
| Crypto.ProviderRoundTrip | src/tubedlapi/util/crypto.py:34-143 | a freshly built provider round-trips any blob through the fixed format |
| AppSettings.FlagOf | src/tubedlapi/components/settings.py:36 | a flag is true exactly when its value reads "true" in any letter case; an unset flag takes its default |
| AppSettings.LevelFor | src/tubedlapi/components/settings.py:38-41 | a level name is looked up after upper-casing its ASCII letters, and an unknown name falls back |
| AppSettings.IntOf | src/tubedlapi/components/settings.py:42 | an unset key takes the default; a set value must be an optional sign followed by ASCII digits, or ValueError is raised |
| AppSettings.Init | src/tubedlapi/components/settings.py:29-70 | initialisation fails exactly when PORT is not an optional sign followed by ASCII digits or CRYPTO_SECRET is missing or empty, and the PORT error comes first; every field is the environment's value or its default, and a bad iteration count falls back to 10000 |
| AppSettings.Environment | src/tubedlapi/components/settings.py:72-80 | the environment is "develop" exactly in debug mode and "production" otherwise |
| AppSettings.CryptoBytes | src/tubedlapi/components/settings.py:82-100 | a value that decodes as base64 gives its decoded bytes, another ASCII value gives its own bytes, None raises TypeError, and non-ASCII raises ValueError |
| AppSettings.CryptoBytesOfEncoding | src/tubedlapi/components/settings.py:92-100 | a secret given as the base64 text of some bytes yields those bytes |
| AppSettings.EnvironmentFromEnv | src/tubedlapi/components/settings.py:36 | the environment is "develop" exactly when DEBUG reads "true" in any letter case |
| AppSettings.LevelIgnoresCase | src/tubedlapi/components/settings.py:38-41 | a level name and its lower-case form select the same level, or both fall back |
| Client.Absolute | src/tubedlapi/components/client.py:39-44 | a relative URL becomes scheme://host: followed by the port's decimal digits and then the URL itself |
| Client.Resolve | src/tubedlapi/components/client.py:30-46 | absolute http/https URLs pass unchanged, URLs starting with / are made absolute, and anything else raises ValueError |
| Client.ResolveIdempotent | src/tubedlapi/components/client.py:32-44 | for an http or https client, resolving twice is resolving once |
| Client.ResolveOtherScheme | src/tubedlapi/components/client.py:32-44 | for a client whose scheme starts with neither h nor /, a relative URL is made absolute and the result is refused on a second pass |
| DestinationModel.SanitizedUrl | src/tubedlapi/model/destination.py:19-30 | a URL without a password is shown as stored; otherwise every occurrence of the password is masked |
| DestinationModel.MaskRemovesPassword | src/tubedlapi/model/destination.py:29 | a password without "*" no longer occurs once masked |
| DestinationModel.SanitizedHidesPassword | src/tubedlapi/model/destination.py:19-30 | a sanitized URL never shows a non-empty password without "*", and a URL not containing the password is unchanged |
| DestinationModel.ToDict | src/tubedlapi/model/destination.py:32-40 | the dict has exactly id, name and the sanitized url |
| DestinationModel.ToDictHidesPassword | src/tubedlapi/model/destination.py:32-40 | a destination's dict never shows a non-empty password without "*" |
| SessionBinding.Get | src/tubedlapi/model/__init__.py:34-44 | with nothing bound, get_session raises RuntimeError; otherwise it returns the bound session |
| SessionBinding.Exec | src/tubedlapi/model/__init__.py:17-31 | a binding that exits normally leaves nothing bound |
| SessionBinding.FlatSeesBound | src/tubedlapi/model/__init__.py:17-44 | inside a binding, every get_session returns the bound session, and the slot is left alone |
| SessionBinding.InsideBindingSeesSession | src/tubedlapi/model/__init__.py:17-44 | inside binding(s), get_session returns s, and a normal exit leaves nothing bound, whatever was bound before |
| SessionBinding.UnboundRaises | src/tubedlapi/model/__init__.py:41-42 | get_session with nothing bound raises RuntimeError |
| SessionBinding.NestedBindingUnbindsOuter | src/tubedlapi/model/__init__.py:26-31 | leaving an inner binding clears the slot instead of restoring the outer session, so the outer block's next get_session raises |
| SessionBinding.RaisingBodyStaysBound | src/tubedlapi/model/__init__.py:26-31 | a body that raises skips the clearing, so the session stays bound |

## Left out

- Threads and the executor are not modelled. Futures are given by how they finished, since callbacks and `wait` only ever see finished futures. Callbacks run in sequence, one after the other.
- Logging calls are left out. They have no effect on the modelled state.
- The database is left out. `save()` is recorded as a `Save` effect holding the job's snapshot, and persistence itself is not modelled. As written, `Job` (`model/job.py`) declares peewee fields and relies on peewee's `save()` while subclassing the SQLAlchemy declarative base (`model/__init__.py`), so every `Save` effect assumes a persistence layer that works as the job code expects.
- Decoding the profile's stored options (`json.loads(profile.options)`) is not modelled: the model starts from the decoded value, so options text that is not JSON, which raises there, is not represented. A non-dict value that decodes is modelled and raises at `update`.
- The meta blob's JSON encoding is not modelled. Meta is kept as the decoded dict, because decoding an encoded dict gives it back. Floating-point JSON values are not represented.
- `created_at` is kept as text, since the pipeline only copies it.
- youtube-dl itself is foreign code. A run of it is given as its progress events and its end: an info dict handed to the post-processor with a return code, a return code alone, or an exception.
- A playlist run, in which youtube-dl calls the progress hooks and the post-processor once per entry, is modelled as a single entry.
- The `FetchLogger` logger is not modelled. It discards every message.
- `Destination.get`, the destination file systems and reading the local file are foreign. They enter as the set of registered names and a per-task copy outcome. As written, `model/destination.py` defines no `as_fs`, which `upload_to_destination` uses (`exec/uploader.py:97`), and `Destination` declares peewee fields on the SQLAlchemy declarative base, so `Destination.get` and its `DoesNotExist` are assumptions about that layer; in the code as it stands a copy cannot succeed. Uploader.UploadToDestinationTask, StageController.UploadStageDelivers and StageController.PipelineDeliversEverywhere are stated for a destination layer that works as the upload code expects.
- `parse_uri` is foreign. It enters as the password it found.
- ChaCha20-Poly1305, PBKDF2-HMAC and `bytes_eq` are foreign, and `os.urandom` is nondeterministic. They enter as the functions of `Crypto.Primitives` and as byte-sequence arguments.
- Message bytes are modelled as strings of ASCII characters.
- `make_new_session` and `binding_new_session` are not modelled. They need the application object and a database backend.
- `AppClient.__init__`, `__repr__` and the request headers are not modelled. `__init__` updates `self.headers` before the base session sets it up, and the `__repr__` format string has an unmatched `}`. Neither affects the URL rule.
- FetchAdapter.ProgressHook refuses an event whose status is not a string, with TypeError. The engine always reports strings; Python would compare and store any value.
- Uploader.DestinationNames refuses a dict under `destinations`, which Python would iterate by key. It also refuses a list holding a non-string, before anything is submitted. Python would submit that item and fail later.
- Text.ParseInt accepts an optional sign followed by ASCII decimal digits. Python's `int()` also accepts surrounding whitespace, underscores between digits and non-ASCII digits.
- AppSettings.IntOf raises the message "invalid literal for int() with base 10", without the value that Python appends. It also refuses values Python's `int()` accepts: `PORT=" 8000"` or `"8_000"` gives 8000 in Python and ValueError here.
- AppSettings.Init fails on `PORT=" 8000"` or `PORT="8_000"`, which Python's `int()` reads as 8000 (see Text.ParseInt).
- AppSettings.LevelFor upper-cases only ASCII letters: `LOG_LEVEL="crıtıcal"` (dotless ı, which Python's `str.upper()` maps to `I`) selects CRITICAL in Python and falls back here.
- Uploader.Aggregate returns a map, which has no order. The Python dict keeps names in first-insertion order, and the job's JSON `result` shows that order.
- `Text.Lower` and `Text.Upper` map only ASCII letters.
- Base64.BytesStr renders only base64 output, which never needs escaping, and not arbitrary `bytes` values.

## Findings

| source | as written | input that shows it | evidently intended | confidence | as-written member | corrected member |
|---|---|---|---|---|---|---|
| src/tubedlapi/util/crypto.py:97-101 | `encrypt_blob` formats the `bytes` that `b64encode` returns into a `str`, so each field is written as `b'...'`. `decrypt_message` then decodes `b'` + the base64 text + `'`. For the 12-byte nonce, that is 16 alphabet characters plus the `b`, so the decoder ends in the middle of a quad and raises `binascii.Error` "Incorrect padding". | any blob with any 32-byte key: the nonce is always 12 bytes | fields written as plain base64 text (`b64encode(x).decode()`), so that `decrypt_message` undoes `encrypt_blob` | not executed | Crypto.EncryptedMessagesNeverDecrypt (on Crypto.EncryptBlob) | Crypto.FixedRoundTrip (on Crypto.EncryptBlobFixed) |
