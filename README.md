# Fish Audio text-to-speech tool server, modelled in Dafny

The server exposes four tools. `text_to_speech` and `advanced_text_to_speech` validate
their parameters, resolve an output path, open that file for binary writing, send a
synthesis request to the Fish Audio service and write the returned audio chunks to the
file in arrival order, then report a result string. `get_model_info` returns the
configured model id and a masked API key. `get_available_models` returns a fixed
catalogue of three models.

Layout (one module per file):

- `common.dfy` (`Common`): `Option`, `byte`, and Python's truth test on an optional string.
- `request.dfy` (`Request`): the format, bitrate and latency enumerations, the request
  descriptor, the two fixed rejection messages and the validation of both tools.
- `paths.dfy` (`Paths`): `str.endswith`, the advanced tool's extension rule, Python's
  `str(int)` for the hash, `posixpath.join` and `posixpath.dirname`, and the default
  temporary destination.
- `storage.dfy` (`Storage`): a `FileSystem` class (files with their bytes, plus the
  existing directories) with `makedirs`, `open(…, "wb")` and `write`. Also `Concat`, the
  in-order concatenation of chunks.
- `remote.dfy` (`Remote`): the service's answer (chunks, then a normal end or an error)
  and a `Session` class that logs every request it sends.
- `writer.dfy` (`Writer`): the shared tail of both tools. `Drain` is the
  `for chunk …: f.write(chunk)` loop. `Synthesize` is the imperative pipeline. `Synthesis`
  is its specification on a snapshot value `World`, and the lemmas about it sit here.
- `tools.dfy` (`Tools`): the two synthesis tools (methods, plus specification functions
  `BasicTool` and `AdvancedTool`), `get_model_info` and `get_available_models`.

Environment inputs are parameters:

- The configuration (`Config`: API key and model id, each possibly unset).
- The platform (`Platform`: the temporary directory and the string hash, an arbitrary
  function).
- The service (`Session.respond`, a function from request to response).
- The local failures (`Faults`): whether `os.makedirs`, `open` or the k-th `write` raises,
  and with which message.

The methods are proved to produce exactly the state and outcome their specification
function gives. The lemmas then prove the promised properties about those functions.

Behaviour of the code that may surprise a caller, kept as written:

- The basic tool's request carries only the reference id and the text. The format,
  bitrate and chunking defaults are the service's, not set by the tool.
- The extension rule appends and never replaces, so "a.wav" asked for as mp3 becomes
  "a.wav.mp3".
- An API key of at most eight characters is shown in full, followed by "..."; see
  `MaskedKeyDisclosure`.
- A failing `os.makedirs` is not turned into a result string. It sits outside the `try`,
  so it escapes as an exception (`Outcome.Raised`).

## Model

| member | source | states |
|---|---|---|
| `Common.Present` | app.py:42 | Python's truth test on an optional string (`not output_path`, and `if API_KEY` at app.py:133): false for `None` and for `""`. |
| `Request.DefaultSettings` | app.py:68-72 | The advanced tool's defaults: mp3, 128 kbit/s, chunk length 200, normalisation on, normal latency. |
| `Request.CheckBasic` | app.py:38-39 | The basic tool rejects exactly the empty text, with the fixed message "文本不能为空". |
| `Request.CheckAdvanced` | app.py:89-94 | The empty text gets the empty-text message first. A non-empty text with chunk length outside the closed range [100, 300] gets the range message. Everything else passes. All three cases are stated as if-and-only-if. |
| `Request.DefaultSettingsAccepted` | app.py:68-72 | With the default chunk length 200, the advanced check rejects exactly what the basic check rejects: the empty text. |
| `Request.ChunkLengthBounds` | app.py:93-94 | 100 and 300 are accepted; 99 and 301 are rejected with the range message. |
| `Request.AdvancedRefinesBasic` | app.py:89-90 | Both tools reject the same texts as empty. A call the advanced check accepts is also accepted by the basic check. |
| `Paths.EndsWith` | app.py:102 | `str.endswith`: the string's last characters are the suffix. |
| `Paths.WithExtension` | app.py:100-103 | The result ends with "." + format. The caller's path is kept as a prefix. The result equals the path exactly when the path already ends with the suffix; otherwise it is the path with the suffix appended. |
| `Paths.WithExtensionIdempotent` | app.py:102-103 | Applying the extension rule twice gives the same result as applying it once. |
| `Paths.WithExtensionExamples` | app.py:102-103 | "a.wav" as mp3 becomes "a.wav.mp3" (an existing other extension is kept). "audio" as wav becomes "audio.wav". "out.pcm" as pcm is unchanged. |
| `Paths.IntToDecimal` | app.py:44 | The hash as the f-string renders it: non-empty and never containing a '/'. The first character is '-' exactly for a negative value and a digit otherwise; every later character is a digit. |
| `Paths.IntToDecimalCanonical` | app.py:44 | `str(n)` has no leading zero: none in a multi-digit non-negative number, none right after the '-'. |
| `Paths.NatToDecimalValue` | app.py:44 | The digits `NatToDecimal` produces denote the number they came from. |
| `Paths.IntToDecimalValue` | app.py:44 | `str(n)` denotes `n`: after an optional leading '-' (present exactly for negative n), the digits give the absolute value. |
| `Paths.Join` | app.py:44 | `os.path.join(a, b)` (POSIX): an absolute `b` replaces `a`; otherwise the result is `a + b` or `a + "/" + b`. |
| `Paths.Dirname` | app.py:47 | `os.path.dirname(p)` (POSIX) is a prefix of `p`. It is empty when `p` has no '/'. |
| `Paths.JoinEndsWithName` | app.py:44 | `os.path.join(dir, name)` ends with `name`. |
| `Paths.SlashEnd` | app.py:47 | The position after the last '/' (rfind + 1): a '/' precedes it and none follows it. |
| `Paths.StripTrailingSlashes` | app.py:47 | `rstrip('/')` gives a prefix of its argument that does not end with '/'; only slashes were removed. |
| `Paths.DirnameOfJoin` | app.py:43-47 | The parent of `join(dir, name)`, for a plain file name, is `dir` itself up to trailing slashes. |
| `Paths.DefaultName` | app.py:44 | "tts_output_" + str(hash) + "." + format is a single path component ending with the format suffix. |
| `Paths.DefaultPath` | app.py:98-99 | The default destination ends with "." + format, and its parent directory is the temporary directory. |
| `Storage.Concat` | app.py:53-58 | The bytes of the chunks written one after another, in arrival order. |
| `Storage.ConcatSnoc` | app.py:53-58 | Writing one more chunk extends the written bytes by exactly that chunk. |
| `Storage.ConcatPrefix` | app.py:111-122 | The bytes of the first n chunks are a prefix of the bytes of the whole stream. |
| `Storage.ConcatLength` | app.py:58 | No chunk is truncated: the file length is the sum of the chunk lengths. |
| `Storage.FileSystem.Exists` | app.py:48 | `os.path.exists`: true for an existing file or directory. |
| `Storage.FileSystem.MakeDirs` | app.py:48-49 | On success the directory exists and no file changes. On failure nothing changes and the error is returned. |
| `Storage.FileSystem.OpenForWrite` | app.py:53 | Opening with "wb" empties the file, discarding any previous contents. On failure nothing changes. |
| `Storage.FileSystem.Write` | app.py:58 | A write appends the chunk to the end of the file. On failure nothing changes. |
| `Remote.Session.Tts` | app.py:54-57 | The request is appended to the session's log. The answer is the service's response to that request. |
| `Writer.Drain` | app.py:54-58 | The loop writes the delivered chunks: the file grows by their in-order concatenation. It stops at the first failing write, or reports the stream's own error after the last chunk. Directories are untouched. |
| `Writer.NeedsDir` | app.py:48 | `output_dir and not os.path.exists(output_dir)`: the parent directory is non-empty and exists neither as a file nor as a directory. |
| `Writer.Synthesis` | app.py:46-62 | The specification of the shared tail of both tools. A missing parent directory is created, and a failing creation escapes as `Raised`. A failing open returns the failure string. Otherwise the request is sent and the delivered chunks are written. The result is the success string, or the failure string with the stream's or the write's error. |
| `Writer.Synthesize` | app.py:46-62 | The state and outcome after creating the directory, opening, requesting and draining are exactly those of `Synthesis`. |
| `Writer.PrefixesDiffer` | app.py:60-62 | A success string can never equal a failure string. |
| `Writer.SuccessIffStreamCompletes` | app.py:52-62 | The call reports "成功生成语音文件：" + path exactly when no makedirs, open, write or remote failure happened. In that case the file holds the concatenation of all chunks and exactly one request was sent. |
| `Writer.FailureReported` | app.py:125-126 | A failing `makedirs` (app.py:106-108) escapes with nothing changed. A failing open leaves the files and the request log unchanged and returns "生成语音失败：" + its message. A failing stream or write returns "生成语音失败：" + its message. |
| `Writer.SynthesisFrame` | app.py:53-58 | Only the destination file can change, and the only directory that can appear is its parent. |
| `Writer.PartialFileIsPrefix` | app.py:111-126 | Once the file is open, a failure part-way leaves on disk a prefix of the complete stream. |
| `Writer.RequestSentIffOpened` | app.py:52-57 | The request is sent exactly when the directory step and the open succeeded; otherwise no request is sent. |
| `Writer.RepeatOverwrites` | app.py:53-58 | After a first fault-free call, a second fault-free call to the same destination replaces the file by exactly the second answer's chunks, even if the service answers differently. Directories stay as they were, and the result is the success string. |
| `Writer.ThreeChunkExample` | app.py:53-58 | Chunks "AAA", "BBB", "CCC" produce the file "AAABBBCCC" and the success string. |
| `Tools.BasicPath` | app.py:41-44 | A given non-empty path is used as it is. Otherwise the destination is the default mp3 file, which ends with ".mp3" and lies directly in the temporary directory. |
| `Tools.AdvancedPath` | app.py:96-103 | The destination always ends with "." + format. Without a given path it lies directly in the temporary directory. |
| `Tools.BasicTool` | app.py:27-62 | The specification of `text_to_speech`: an empty text returns the fixed message and changes nothing. Otherwise `Synthesis` runs into `BasicPath` with the request (model id, text). |
| `Tools.AdvancedTool` | app.py:65-126 | The specification of `advanced_text_to_speech`: a rejection from `CheckAdvanced` returns its message and changes nothing. Otherwise `Synthesis` runs into `AdvancedPath` with the request (model id, text, settings). |
| `Tools.TextToSpeech` | app.py:27-62 | The new state and the outcome are exactly those of `BasicTool` (validation, then `Synthesis` into `BasicPath`). |
| `Tools.AdvancedTextToSpeech` | app.py:65-126 | The new state and the outcome are exactly those of `AdvancedTool` (validation, then `Synthesis` into `AdvancedPath` with the caller's settings). |
| `Tools.EmptyTextRejectedFirst` | app.py:89-90 | In both tools (the basic tool at app.py:38-39) the empty text returns the fixed message and changes no file, directory or request log, whatever the other arguments. |
| `Tools.ChunkLengthGate` | app.py:93-94 | For a non-empty text, an out-of-range chunk length returns the range message with nothing else done. An in-range one proceeds to synthesis. |
| `Tools.AdvancedPathShape` | app.py:97-103 | Every advanced destination ends with "." + format. A given path is its prefix. Resolving an already resolved path changes nothing. |
| `Tools.DefaultDestination` | app.py:96-99 | With None or "" as the path, the destination is the temporary directory joined with the default name, which depends only on the hash of the text and the format. Its parent is the temporary directory. The basic tool's default is the mp3 one. |
| `Tools.BasicExplicitPathUnchanged` | app.py:42-44 | The basic tool uses a given non-empty path unchanged, with no suffix added. |
| `Tools.BasicSuccess` | app.py:52-60 | A basic call with a non-empty text that meets no local failure, and whose answer ends normally, sends exactly the request (model id, text). It writes all chunks to `BasicPath` and returns the success string with that path. |
| `Tools.AdvancedSuccess` | app.py:111-124 | A valid, fault-free advanced call sends exactly the request built from the model id, the text and the settings. It writes all chunks to the resolved path and returns the success string with that path. |
| `Tools.RepeatedAdvancedCall` | app.py:97-122 | Repeating a valid advanced call with the same arguments resolves the same destination. If neither call meets a local failure and the second answer ends normally, the second call replaces the file by the second answer's chunks, even when they differ from the first answer's, and reports that path. |
| `Tools.MaskKey` | app.py:133 | The masked key is the first min(8, length) characters of the key followed by "...". |
| `Tools.GetModelInfo` | app.py:129-134 | The model id is returned unchanged. The key prefix is absent exactly when the key is unset or empty; otherwise it is the masked key. |
| `Tools.MaskedKeyDisclosure` | app.py:133 | At most eight characters are shown, and they are the key's first ones. A longer key is never shown in full. A key of at most eight characters is shown in full, followed by "...". |
| `Tools.MaskKeyExample` | app.py:133 | The key "sk-1234567890" is shown as "sk-12345...". |
| `Tools.AvailableModels` | app.py:137-144 | Exactly three entries, in order "speech-1.5", "speech-1.6", "agent-x0", with their names and distinct ids. |

## Left out

- `client_example.py` and `example.py`: demo clients that start the server, wait and print. They contain no logic of the server.
- Start-up: loading `.env` and reading the environment, building the SDK session, registering the tools with the protocol framework and running it. The configuration is a `Config` value passed in.
- The Fish Audio SDK: the service is the function `Session.respond` from request to response. Its answer is a fixed function of the request. Timing, retries inside the SDK, and any dependence on earlier calls are not modelled.
- Python's `hash`: an arbitrary function `Platform.hash`. No value, no collision freedom and no stability across processes is assumed.
- `tempfile.gettempdir`: a parameter. `os.path.join` and `os.path.dirname` are modelled as Python's POSIX versions; Windows path rules are not.
- `Storage.FileSystem.MakeDirs`: records only the requested directory, not the intermediate directories `os.makedirs` also creates. The race between the existence check and the creation is not modelled.
- `Storage.FileSystem.OpenForWrite` and `Storage.FileSystem.Write`: whether they fail is an oracle (`Faults`), not derived from permissions or a missing parent. A failing write is taken to write nothing of its chunk. Buffering, and a failure while flushing or closing the file, are not modelled.
- Exceptions other than the modelled ones, such as a failure while rendering an exception message, are not modelled.
- Paths are plain strings. A file or directory is identified by string equality in `World.files`, `FileSystem.Exists` and `Writer.NeedsDir`. So "a//b.mp3" and "a/b.mp3", paths through "." or "..", and symbolic links name different things in the model, though they may be one file on disk. Nothing ties a file to its parent directory: a state may hold "/t/a/x.mp3" without "/t/a" among the directories. In that state the model calls `makedirs` where the real program would find the directory and skip the call. `Writer.SynthesisFrame` ("only the destination file can change") therefore holds over path strings only.
- Concurrency: the model is single-threaded, as the tools are one call at a time.
