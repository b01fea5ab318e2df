# The upload path of tdl, modelled in Dafny

tdl's `upload` command sends local files to a Telegram chat. This project models
the core of that path and proves properties of the model:

- **The upload iterator** (`app/up/iter.go`). This is a pull iterator over the
  source files. It has a cursor `cur`, a stored error `err` and the last unit
  `value`. Each call of `Next` does these steps in order:
  1. checks the context;
  2. checks `HasNext`;
  3. moves the cursor;
  4. opens the file;
  5. resolves the destination: the static chat and topic, or the routing
     expression's result (a string, a `Peer`/`Thread` map, anything else an error);
  6. builds the caption (a string, or an array of strings and style maps);
  7. checks the optional thumbnail;
  8. stats the file;
  9. hands out one transfer unit.

  The first preparation error is stored and ends the iteration.
  - `Up.Iter` is a class with those fields. `Up.Iter.Next` is proved against the
    pure specification `Up.Step`. `Up.Step` settles the state on `Up.Prepare`,
    the preparation of the file under the cursor.
  - The lemmas about `Step`, `Prepare` and `Drive` (a sequence of `Next` calls,
    each with its own context and collaborators) state the iterator's promises.
  - `Up.Pull` is the loop of the uploader's `Upload` that pulls units from the
    iterator until `Next` returns false.
  - The caption loop is the method `Up.BuildCaption`, proved equal to
    `Up.ArrayCaption`.
  - `exprEnv`, `resolvePeer`, `HasNext`, `Value` and `Err` are functions.
    `HasNext` is `IterState.HasNext`: no stored error and files left.
- **The worker's media rule and the task's error filter**
  (`pkg/uploader/uploader.go`).
  - `Uploader.UploadUnit` is the worker's `upload` for one unit: the cancellation pre-check, then the upload
    stages and the choice of representation. The choices are document, photo,
    video document or audio document (`Uploader.Represent`).
  - `Uploader.Task` is the task closure of `Upload`: `OnAdd`, the upload, then
    `OnDone` with the task's result. Only an error matching `context.Canceled`
    escapes (`Uploader.TaskError`).
- **The flag checks of the command** (`cmd/up.go`): `Cmd.CheckFlags`.

Supporting modules:
- `Errs` models Go error values, `errors.Is` and contexts.
- `Paths` models `filepath.Ext`, `filepath.Base` and `strings.TrimSuffix` with `/`
  as the separator.
- `Wrappers` defines `Option` and `Result`.

Collaborators are inputs to the model:
- A `World` holds file open and stat, mime sniffing, the `MediaKinds`, the
  lenient map decoder, the styled-text parser and the peer directory (self and
  lookup).
- The two expression programs are the iterator's `route` and `caption`. Each is a
  function from an environment to a result.
- A `Transfer` holds the outcomes of the worker's library and network calls.
- `MediaKinds` holds the media-kind predicates of `utils.Media`. The iterator's
  `World` and the worker each take one as an input; the model does not tie the two
  values together.

## Model

| member | source | states |
|---|---|---|
| Up.ExprEnv | app/up/iter.go:32-51 | No file gives the zero environment. For a file, the environment carries the file's path and thumbnail |
| Up.EnvOfFile | app/up/iter.go:32-51 | No file gives the zero environment. Otherwise the path and thumbnail are copied, the extension is `filepath.Ext` of the path, the filename plus the extension is the base name, and a failed mime detection leaves the mime empty instead of failing |
| Up.ResolvePeer | app/up/iter.go:224-230 | The empty peer name resolves to the user's own chat. Any other name goes through the peer lookup |
| Up.Step | app/up/iter.go:99-112 | One call of `Next` moves the cursor by zero or one. A true answer needs an active context and a next file, moves the cursor by exactly one and leaves a unit as the value. With an error stored the answer is false, the cursor and the value stay, and an error stays stored |
| Up.Iter.HasNext | app/up/iter.go:95-97 | `HasNext` holds exactly when no error is stored and files remain |
| Up.Iter.Value | app/up/iter.go:232-234 | `Value` is the last unit handed out |
| Up.Iter.Err | app/up/iter.go:236-238 | `Err` is the stored error |
| Up.CancelledStep | app/up/iter.go:100-105 | A done context makes `Next` return false and store the context's error. The cursor and the last unit stay, and `HasNext` is false afterwards |
| Up.BlockedStep | app/up/iter.go:107-109 | With an active context and without a next file (an error stored, or the files used up), `Next` returns false and changes nothing |
| Up.AdvancingStep | app/up/iter.go:107-112 | Past the guard, the cursor moves by exactly one whether or not the file fails. `Next` returns true exactly when the file was prepared, and then its unit is the value. Otherwise the preparation's error is stored and the value stays |
| Up.StepKeepsCursor | app/up/iter.go:111-112 | `Next` never moves the cursor back, moves it at most one, and never past the number of files |
| Up.DriveBounded | app/up/iter.go:95-112 | Over any sequence of `Next` calls, each with its own context and collaborators, the cursor stays within the files and the number of units handed out is at most the number of files the cursor passed |
| Up.StoredErrorIsFinal | app/up/iter.go:95-109 | Once an error is stored, no later `Next` hands out a unit, moves the cursor or changes the value, and an error stays stored |
| Up.NilErrorOnlyFromThumbnail | app/up/iter.go:190-195 | A preparation fails with a nil error only for a thumbnail that sniffs as a non-image, when wrapping the nil error gives nil |
| Up.NilErrorKeepsIterating | app/up/iter.go:190-195 | For such a file `Next` returns false with no error stored, and `HasNext` stays true when files remain |
| Up.Pull | pkg/uploader/uploader.go:42-44 | The uploader's loop gets at most one unit per file the cursor passed, and the cursor stays within the files |
| Up.CancelledPull | pkg/uploader/uploader.go:42-70 | A done context ends the loop before any unit, with the context's error stored for `Upload` to report |
| Up.NilErrorEndsUpload | pkg/uploader/uploader.go:42-70 | A file rejected with a nil error ends the loop with no unit from it and no error stored, so the iterator reports no error and the files after it are never prepared |
| Up.Destination | app/up/iter.go:124-158 | With a non-empty chat the destination resolves exactly when the chat's lookup succeeds, and then it has a peer and the topic as its thread. With an empty chat it is the routing of the expression's result for the file |
| Up.DynamicRouteReachesUnit | app/up/iter.go:130-157 | Without a static chat, a prepared unit's peer and thread come from the routing expression: a string names the peer with thread 0, a decoded map gives its peer and thread |
| Up.Routed | app/up/iter.go:130-157 | A routed destination comes only from a string or a map result, and a string gives thread 0. A failed expression is the message-routing error |
| Up.StaticChatDestination | app/up/iter.go:124-129 | With a non-empty chat the routing expression plays no part. The peer is the chat's lookup, the thread is the topic, and a failed lookup is the error, unwrapped |
| Up.RoutedFailures | app/up/iter.go:130-157 | Dynamic routing fails exactly when the expression fails (wrapped as message routing), a map does not decode (wrapped as decode dest), or the result is neither a string nor a map (the type-name error). A failed peer lookup never fails it |
| Up.RoutedDestinations | app/up/iter.go:138-153 | A string routes to that peer with thread 0. A decoded map routes to its peer and thread. The peer is absent exactly when its lookup failed, and the empty peer is the user's own chat |
| Up.ArrayCaption | app/up/iter.go:169-182 | An array caption has at most one segment per element. Its only failure is a styled-text parse error |
| Up.ArrayCaptionSegments | app/up/iter.go:169-182 | A built array caption has one segment per string or map element, in order: a string as plain text, a map as parsed |
| Up.ArrayCaptionMeaning | app/up/iter.go:169-182 | An array caption fails exactly when some map element fails to parse, and then with the first such element's error. Otherwise it has one segment per string or map element, in order: a string as plain text, a map as parsed. Other elements are skipped |
| Up.BuildCaption | app/up/iter.go:169-182 | The append loop over the array computes exactly the array caption |
| Up.Caption | app/up/iter.go:160-186 | A caption is built only from a string or an array result. An array result's caption is the array caption of its elements, with at most one segment per element |
| Up.CaptionReachesUnit | app/up/iter.go:160-186 | A prepared unit's caption is one plain segment for a string result, and the array caption of the elements for an array result |
| Up.CaptionFailures | app/up/iter.go:160-186 | The caption fails exactly when the expression fails (wrapped as caption parse), the result is neither a string nor an array (the type-name error), or an array's map element does not parse. A string result is exactly one plain segment |
| Up.CheckThumb | app/up/iter.go:188-203 | A passed check carries a thumbnail exactly when a path was given. A rejection needs a path whose sniff failed, did not give an image, or whose open failed |
| Up.ThumbnailOutcome | app/up/iter.go:188-203 | A thumbnail passes exactly when there is none, or it sniffs as an image and opens. A passed one is a zero-size file. A failed sniff is reported with the path, and a failed open as such |
| Up.Prepare | app/up/iter.go:114-221 | A prepared unit carries the file's own path and the photo and removal settings, and needs the file to open and stat. A failure with a nil error needs a thumbnail path and a nil wrap of a nil error |
| Up.PreparedUnit | app/up/iter.go:114-221 | A file is prepared exactly when it opens, its destination resolves, its caption builds, its thumbnail passes and it stats. The unit holds the stat size, the thumbnail, the resolved peer and thread, the caption, and the photo and removal settings |
| Up.FirstFailureDecides | app/up/iter.go:114-209 | The checks run in order and the first failure decides the error: open file, then destination, then caption, then thumbnail (whose error, possibly nil, is stored as it is), then stat file |
| Up.Iter.constructor | app/up/iter.go:78-93 | `newIter` keeps the configuration and starts with the cursor at 0, no error and no unit |
| Up.Iter.Next | app/up/iter.go:99-222 | One call of `Next` leaves exactly the state and answer of `Step` on the old state, and keeps the cursor within the files |
| Up.Iter.PrepareFile | app/up/iter.go:114-221 | The step-by-step body of `Next` after the cursor moved gives exactly the preparation `Prepare` of that file |
| Up.Iter.BuildFileCaption | app/up/iter.go:160-186 | The caption switch, with the append loop for arrays, gives exactly the file's caption |
| Uploader.Represent | pkg/uploader/uploader.go:114-138 | The choice fails only for a video (not requested as a photo) whose second rewind failed. A photo needs the photo setting and a mime other than `image/webp`, and keeps the caption. Every other representation carries the default document |
| Uploader.DefaultDocument | pkg/uploader/uploader.go:103-112 | The document holds the uploaded file, the caption, the mime and the file's name. It has a thumbnail exactly when the unit has one and its upload succeeded |
| Uploader.UploadUnit | pkg/uploader/uploader.go:75-150 | A done context gives the context's error. A success needs an active context and successful upload, rewind, detection and send |
| Uploader.UploadStages | pkg/uploader/uploader.go:90-146 | Under an active context the first failing call decides the error, wrapped with its stage: upload file, seek file, detect mime, the representation's own error, then send message. When every call succeeds the chosen media is the result |
| Uploader.CancelledTransferEscapes | pkg/uploader/uploader.go:49-53 | A cancellation reported by the chunked upload or the send escapes the task, wrapped with "upload" over the stage's wrap |
| Uploader.Task | pkg/uploader/uploader.go:45-65 | A task makes exactly two unit-level notifications, `OnAdd` then `OnDone` with its result. A returned error matches `context.Canceled` and comes from a failed upload |
| Uploader.UploadChecksContextFirst | pkg/uploader/uploader.go:76-80 | With a done context, `upload` returns the context's error whatever the transfers would have done |
| Uploader.PhotoExactlyWhenRequested | pkg/uploader/uploader.go:116-123 | A unit is sent as a photo exactly when its mime is an image, the photo setting is on and the mime is not `image/webp`. The photo carries the uploaded file and the caption |
| Uploader.WebpStaysDocument | pkg/uploader/uploader.go:117-121 | `image/webp` requested as a photo stays the document |
| Uploader.VideoRepresentation | pkg/uploader/uploader.go:124-135 | For a video, a failed rewind is a seek error. A successful probe gives a streamable video document with the probed duration (seconds) and resolution. A failed probe falls back to the document |
| Uploader.AudioTitledByName | pkg/uploader/uploader.go:136-137 | Audio becomes an audio document whose title, followed by the extension, is the base name of the file |
| Uploader.DocumentOtherwise | pkg/uploader/uploader.go:114-138 | Every other case, including an image without the photo setting, is the document |
| Uploader.UploadedDocumentContents | pkg/uploader/uploader.go:90-112 | A successful upload passed the context check and every stage. The document carries the uploaded file, the caption, the detected mime and the file's name, and a thumbnail exactly when the unit has one and its upload succeeded |
| Uploader.TaskError | pkg/uploader/uploader.go:49-56 | A task returns an error exactly when the upload failed with an error matching `context.Canceled`, and then that error wrapped with "upload" |
| Uploader.TaskFiltersErrors | pkg/uploader/uploader.go:45-64 | `OnAdd` precedes `OnDone`, and `OnDone` receives the task's own result. Only a cancellation escapes, wrapped |
| Uploader.TransferFailureIsSwallowed | pkg/uploader/uploader.go:49-64 | Any other upload failure ends the task with nil, and `OnDone` receives nil |
| Uploader.TaskUnderDoneContext | pkg/uploader/uploader.go:49-56 | Under a cancelled context every task returns the wrapped cancellation. A passed deadline is swallowed |
| Errs.Is | pkg/uploader/uploader.go:51 | An error that is not a wrap matches only itself |
| Errs.IsThroughWrap | pkg/uploader/uploader.go:51 | `errors.Is` sees through a wrap: a wrapped error matches exactly what its cause matches, apart from the wrap itself |
| Cmd.CheckFlags | cmd/up.go:24-29 | The flags pass exactly when a topic comes with a chat and a chat comes without `--to`. A topic without a chat gets the "--chat should be set" error, and a chat with `--to` gets the conflict error |
| Cmd.RejectionsExclusive | cmd/up.go:24-29 | The two rejections never both apply |
| Cmd.AcceptedCombinations | cmd/up.go:24-30 | Chat with a topic and no `--to` is accepted. So are `--to` alone and no flags at all (Saved Messages) |
| Paths.Ext | app/up/iter.go:37 | The extension is no longer than the path. A non-empty one starts with '.', and the path then does not end in a separator |
| Paths.Base | app/up/iter.go:38 | The base name is never empty |
| Paths.TrimSuffix | app/up/iter.go:38 | The result is no longer than the string. It is the string itself, or it completes to the string with the suffix |
| Paths.ExtIsDotSuffix | app/up/iter.go:37 | The extension ends the path. It is empty, or it starts with its only '.' and holds no separator |
| Paths.ExtEmptyWithoutDot | app/up/iter.go:37 | The extension is empty exactly when the final element of the path has no '.' |
| Paths.LastElementIsFinal | app/up/iter.go:38 | The final element ends the path and holds no separator. It is empty exactly when the path is empty or ends in a separator |
| Paths.TrimmedPrefix | app/up/iter.go:38 | Dropping trailing separators keeps a prefix that does not end in one, and only separators are dropped |
| Paths.BaseIsElement | app/up/iter.go:38 | The base name is never empty and holds no separator, unless it is the root "/" |
| Paths.BaseOfUnterminated | app/up/iter.go:38 | For a path not ending in a separator, the base name is the final element |
| Paths.ExtEndsLastElement | app/up/iter.go:37-38 | The extension is a suffix of the final element |
| Paths.ExtEndsBase | app/up/iter.go:37-38 | The extension is a suffix of the base name |
| Paths.TrimmedSuffixCompletes | app/up/iter.go:38 | When a string ends with a suffix, the trimmed string followed by the suffix is the string |
| Paths.NameAndExtMakeBase | app/up/iter.go:37-38 | The name without extension followed by the extension is the base name |

## Left out

- The concurrency of `Upload` is not modelled: the errgroup scheduling, `SetLimit` and `wg.Wait` (pkg/uploader/uploader.go:38-73). A single task is modelled as `Uploader.Task`, and the loop pulling units from the iterator as `Up.Pull`, one call of `Next` after the other.
- The delay between tasks, which calls `HasNext` from goroutines, is not modelled. Neither are logging and colour output.
- The chunked upload, the thumbnail upload, the message send and the two rewinds are network or file I/O. `Transfer` gives their outcomes as inputs.
- The uploader's progress wrapper and part-size and thread settings are not modelled. The part-level progress calls that the chunked upload makes through that wrapper are not among a task's events.
- Library internals are abstract inputs:
  - `mimetype` detection;
  - `utils.Media.IsImage`, `IsVideo` and `IsAudio`;
  - `GetMP4Info`;
  - `mapstructure.WeakDecode`;
  - `tstyle.ParseToStyledText`;
  - `texpr.Run` (each expression is a function from environment to result);
  - the peer manager's `Self` and `utils.Telegram.GetInputPeer`.
- utils.FS.GetNameWithoutExt is not part of this model. The audio title is taken to be the base name with its `filepath.Ext` cut off, as `exprEnv` computes the filename.
- File handles are not modelled. An opened file is its path and size, and a thumbnail is a zero-size file. Files left unclosed on the error paths are not modelled.
- Error messages are not modelled as text:
  - Wrapped errors record a `Stage` that stands for the message text.
  - The decode-dest message's `%v` rendering of the routing result is not modelled.
  - The `%T` type names appear as strings.
- Up.NilErrorOnlyFromThumbnail: what `errors.Wrapf` makes of a nil error is not visible. It is the input `wrapOfNil`, and the model does not decide whether that error is nil.
- Up.NilErrorEndsUpload: for the same reason this states what happens when that error is nil, as it is for the usual `Wrapf` that returns nil for a nil error; it does not claim that it is.
- Uploaded files and peers are opaque identifiers.
- Uploader.VideoRepresentation: the duration is in seconds, as the probe reports it. The conversion to `time.Duration` is not modelled.
- `Upload` calls `Next` with the errgroup's derived context. The model takes each call's context as a given `Context` value.
- Only Go's `/` separator is modelled in `Paths`. Windows volume names and `\` separators are not.
- The body of `Next` after the cursor moves is split into the methods `PrepareFile` and `BuildFileCaption` to keep each proof small. The destination is computed by the function `Destination`, because that step has no loop and only switches on values.
