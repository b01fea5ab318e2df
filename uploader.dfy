/**
 * pkg/uploader: the unit handed from the iterator to a worker (Elem), the media
 * representation a worker sends for it, the worker's `upload` with its cancellation
 * pre-check, and the error filter of the task that `Upload` runs per unit.
 *
 * The chunked upload, the thumbnail upload, the two rewinds of the file, the mime
 * sniffing of the uploaded stream, the MP4 probe and the message send are calls into
 * libraries and the network; their outcomes are inputs (`Transfer`).
 */
module Uploader {
  import opened Wrappers
  import opened Errs
  import Paths

  /** A caption segment: plain text, or a run of text with a rendering style. */
  datatype Segment = Plain(text: string) | Styled(style: string, text: string)

  /** An opaque peer handle, as the peer directory returns it. */
  datatype Peer = Peer(id: nat)

  /** An opened local file: its name (the path it was opened with) and its size. */
  datatype File = File(name: string, size: int)

  /**
   * One transfer unit. `to` is None when the destination lookup failed and the
   * iterator carried on with a nil peer.
   */
  datatype Elem = Elem(
    file: File,
    thumb: Option<File>,
    to: Option<Peer>,
    caption: seq<Segment>,
    thread: int,
    asPhoto: bool,
    remove: bool)

  /** utils.Media: which mime strings count as image, video and audio. */
  datatype MediaKinds = MediaKinds(
    isImage: string -> bool,
    isVideo: string -> bool,
    isAudio: string -> bool)

  /** A file already uploaded to the remote service. */
  datatype RemoteFile = RemoteFile(id: nat)

  /** What utils.Media.GetMP4Info reports: duration in seconds, width and height. */
  datatype Mp4Info = Mp4Info(duration: int, width: int, height: int)

  /** The generic document representation. */
  datatype Document = Document(
    file: RemoteFile,
    caption: seq<Segment>,
    mime: string,
    filename: string,
    thumb: Option<RemoteFile>)

  /** The four representations a unit can be sent as. */
  datatype Media =
    | AsDocument(doc: Document)
    | AsPhoto(file: RemoteFile, caption: seq<Segment>)
    | AsVideo(doc: Document, durationSeconds: int, width: int, height: int, supportsStreaming: bool)
    | AsAudio(doc: Document, title: string)

  /** The outcomes of the library and network calls `upload` makes, in call order. */
  datatype Transfer = Transfer(
    upload: Result<RemoteFile, Error>,       // chunked upload of the file
    rewind: Result<(), Error>,               // Seek(0) before sniffing
    detect: Result<string, Error>,           // mimetype.DetectReader
    thumbUpload: Result<RemoteFile, Error>,  // simple upload of the thumbnail, if there is one
    rewindAgain: Result<(), Error>,          // Seek(0) before probing a video
    probe: Result<Mp4Info, Error>,           // utils.Media.GetMP4Info
    send: Result<(), Error>)                 // the message send

  const WebpMime: string := "image/webp"

  /**
   * The representation chosen for a file with the detected `mime`, given the default
   * document `doc`: a photo for an image requested as photo (except webp), a video
   * document when a video probes, an audio document titled from the file name, and
   * the document otherwise. Only the second rewind of a video can fail.
   */
  function Represent(doc: Document, mime: string, asPhoto: bool, kinds: MediaKinds,
                     rewindAgain: Result<(), Error>, probe: Result<Mp4Info, Error>): (r: Result<Media, Error>)
    ensures r.Failure? ==> !(kinds.isImage(mime) && asPhoto) && kinds.isVideo(mime) && rewindAgain.Failure?
    ensures r.Success? && r.value.AsPhoto? ==> asPhoto && mime != WebpMime && r.value.caption == doc.caption
    ensures r.Success? && !r.value.AsPhoto? ==> r.value.doc == doc
  {
    if kinds.isImage(mime) && asPhoto then
      if mime == WebpMime then Success(AsDocument(doc))
      else Success(AsPhoto(doc.file, doc.caption))
    else if kinds.isVideo(mime) then
      match rewindAgain
      case Failure(e) => Failure(Wrap(SeekFile, e))
      case Success(_) =>
        match probe
        case Success(info) => Success(AsVideo(doc, info.duration, info.width, info.height, true))
        case Failure(_) => Success(AsDocument(doc))
    else if kinds.isAudio(mime) then Success(AsAudio(doc, Paths.NameWithoutExt(doc.filename)))
    else Success(AsDocument(doc))
  }

  /** The document built before the representation is chosen; a failed thumbnail upload just leaves the thumbnail out. */
  function DefaultDocument(elem: Elem, file: RemoteFile, mime: string, thumbUpload: Result<RemoteFile, Error>): (d: Document)
    ensures d.file == file && d.caption == elem.caption && d.mime == mime && d.filename == elem.file.name
    ensures d.thumb.Some? <==> elem.thumb.Some? && thumbUpload.Success?
  {
    Document(file, elem.caption, mime, elem.file.name,
             if elem.thumb.Some? then thumbUpload.ToOption() else None)
  }

  /**
   * The worker's `upload`: the context pre-check, then upload, rewind, sniff, choose
   * the representation and send. Success carries the media that was sent.
   */
  function UploadUnit(ctx: Context, elem: Elem, t: Transfer, kinds: MediaKinds): (r: Result<Media, Error>)
    ensures ctx.Done? ==> r == Failure(ctx.cause)
    ensures r.Success? ==> && ctx.Active? && t.upload.Success? && t.rewind.Success? && t.detect.Success?
                           && t.send.Success?
  {
    if ctx.Done? then Failure(ctx.cause)
    else match t.upload
    case Failure(e) => Failure(Wrap(UploadFile, e))
    case Success(f) =>
      match t.rewind
      case Failure(e) => Failure(Wrap(SeekFile, e))
      case Success(_) =>
        match t.detect
        case Failure(e) => Failure(Wrap(DetectMime, e))
        case Success(mime) =>
          var doc := DefaultDocument(elem, f, mime, t.thumbUpload);
          match Represent(doc, mime, elem.asPhoto, kinds, t.rewindAgain, t.probe)
          case Failure(e) => Failure(e)
          case Success(media) =>
            match t.send
            case Failure(e) => Failure(Wrap(SendMessage, e))
            case Success(_) => Success(media)
  }

  /** Progress notifications a task makes. */
  datatype Event = OnAdd(elem: Elem) | OnDone(elem: Elem, err: Option<Error>)

  /** A task's notifications in order and the error it returns to the group. */
  datatype TaskRun = TaskRun(events: seq<Event>, result: Option<Error>)

  /**
   * The error filter of the task: only an error matching context.Canceled escapes,
   * wrapped with "upload"; any other failure is dropped.
   */
  function TaskError(r: Result<Media, Error>): (err: Option<Error>)
    ensures err.Some? <==> r.Failure? && Is(r.error, Canceled)
    ensures err.Some? ==> err.value == Wrap(UploadTask, r.error) && Is(err.value, Canceled)
  {
    if r.Failure? && Is(r.error, Canceled) then Some(Wrap(UploadTask, r.error)) else None
  }

  /**
   * One task of `Upload`: OnAdd, the upload, OnDone with the task's own return value
   * (the deferred call sees the named result, which is nil when the failure was
   * dropped).
   */
  function Task(ctx: Context, elem: Elem, t: Transfer, kinds: MediaKinds): (run: TaskRun)
    ensures |run.events| == 2 && run.events[0] == OnAdd(elem) && run.events[1] == OnDone(elem, run.result)
    ensures run.result.Some? ==> Is(run.result.value, Canceled) && UploadUnit(ctx, elem, t, kinds).Failure?
  {
    var err := TaskError(UploadUnit(ctx, elem, t, kinds));
    TaskRun([OnAdd(elem), OnDone(elem, err)], err)
  }

  /** A done context stops `upload` before any transfer: the result is the context's error whatever the calls would have done. */
  lemma UploadChecksContextFirst(ctx: Context, elem: Elem, t: Transfer, t': Transfer, kinds: MediaKinds)
    requires ctx.Done?
    ensures UploadUnit(ctx, elem, t, kinds) == Failure(ctx.cause)
    ensures UploadUnit(ctx, elem, t, kinds) == UploadUnit(ctx, elem, t', kinds)
  {
  }

  /**
   * With an active context the stages run in order and the first failing call
   * decides the error, wrapped with its stage; when every call succeeds, the media
   * that was chosen is the result.
   */
  lemma UploadStages(ctx: Context, elem: Elem, t: Transfer, kinds: MediaKinds)
    requires ctx.Active?
    ensures t.upload.Failure? ==> UploadUnit(ctx, elem, t, kinds) == Failure(Wrap(UploadFile, t.upload.error))
    ensures t.upload.Success? && t.rewind.Failure? ==>
      UploadUnit(ctx, elem, t, kinds) == Failure(Wrap(SeekFile, t.rewind.error))
    ensures t.upload.Success? && t.rewind.Success? && t.detect.Failure? ==>
      UploadUnit(ctx, elem, t, kinds) == Failure(Wrap(DetectMime, t.detect.error))
    ensures t.upload.Success? && t.rewind.Success? && t.detect.Success? ==>
      var doc := DefaultDocument(elem, t.upload.value, t.detect.value, t.thumbUpload);
      var rep := Represent(doc, t.detect.value, elem.asPhoto, kinds, t.rewindAgain, t.probe);
      && (rep.Failure? ==> UploadUnit(ctx, elem, t, kinds) == Failure(rep.error))
      && (rep.Success? && t.send.Failure? ==> UploadUnit(ctx, elem, t, kinds) == Failure(Wrap(SendMessage, t.send.error)))
      && (rep.Success? && t.send.Success? ==> UploadUnit(ctx, elem, t, kinds) == Success(rep.value))
  {
  }

  /**
   * A cancellation that a transfer call reports in the middle of a unit still escapes
   * the task: the stage's wrap keeps it visible to errors.Is.
   */
  lemma CancelledTransferEscapes(ctx: Context, elem: Elem, t: Transfer, kinds: MediaKinds)
    requires ctx.Active?
    ensures t.upload.Failure? && Is(t.upload.error, Canceled) ==>
      Task(ctx, elem, t, kinds).result == Some(Wrap(UploadTask, Wrap(UploadFile, t.upload.error)))
    ensures && t.upload.Success? && t.rewind.Success? && t.detect.Success?
            && Represent(DefaultDocument(elem, t.upload.value, t.detect.value, t.thumbUpload), t.detect.value,
                         elem.asPhoto, kinds, t.rewindAgain, t.probe).Success?
            && t.send.Failure? && Is(t.send.error, Canceled) ==>
      Task(ctx, elem, t, kinds).result == Some(Wrap(UploadTask, Wrap(SendMessage, t.send.error)))
  {
    UploadStages(ctx, elem, t, kinds);
  }

  /** A unit is sent as a photo exactly when it is an image requested as photo and is not webp. */
  lemma PhotoExactlyWhenRequested(doc: Document, mime: string, asPhoto: bool, kinds: MediaKinds,
                                  rewindAgain: Result<(), Error>, probe: Result<Mp4Info, Error>)
    ensures var r := Represent(doc, mime, asPhoto, kinds, rewindAgain, probe);
      (r.Success? && r.value.AsPhoto?) <==> (kinds.isImage(mime) && asPhoto && mime != WebpMime)
    ensures var r := Represent(doc, mime, asPhoto, kinds, rewindAgain, probe);
      r.Success? && r.value.AsPhoto? ==> r.value == AsPhoto(doc.file, doc.caption)
  {
  }

  /** webp content requested as photo stays a document. */
  lemma WebpStaysDocument(doc: Document, kinds: MediaKinds, rewindAgain: Result<(), Error>, probe: Result<Mp4Info, Error>)
    requires kinds.isImage(WebpMime)
    ensures Represent(doc, WebpMime, true, kinds, rewindAgain, probe) == Success(AsDocument(doc))
  {
  }

  /**
   * A video (not taken as photo): a failed rewind is an error; a successful probe
   * gives a streamable video document with the probed duration and resolution; a
   * failed probe falls back to the plain document.
   */
  lemma VideoRepresentation(doc: Document, mime: string, asPhoto: bool, kinds: MediaKinds,
                            rewindAgain: Result<(), Error>, probe: Result<Mp4Info, Error>)
    requires !(kinds.isImage(mime) && asPhoto) && kinds.isVideo(mime)
    ensures var r := Represent(doc, mime, asPhoto, kinds, rewindAgain, probe);
      && (rewindAgain.Failure? ==> r == Failure(Wrap(SeekFile, rewindAgain.error)))
      && (rewindAgain.Success? && probe.Success? ==>
            r == Success(AsVideo(doc, probe.value.duration, probe.value.width, probe.value.height, true)))
      && (rewindAgain.Success? && probe.Failure? ==> r == Success(AsDocument(doc)))
  {
  }

  /** An audio file (neither photo nor video) is an audio document titled with its base name minus the extension. */
  lemma AudioTitledByName(doc: Document, mime: string, asPhoto: bool, kinds: MediaKinds,
                          rewindAgain: Result<(), Error>, probe: Result<Mp4Info, Error>)
    requires !(kinds.isImage(mime) && asPhoto) && !kinds.isVideo(mime) && kinds.isAudio(mime)
    ensures var r := Represent(doc, mime, asPhoto, kinds, rewindAgain, probe);
      r.Success? && r.value.AsAudio? && r.value.doc == doc &&
      r.value.title + Paths.Ext(doc.filename) == Paths.Base(doc.filename)
  {
    Paths.NameAndExtMakeBase(doc.filename);
  }

  /** Every other case, including an image not requested as photo and not a video or audio, is the plain document. */
  lemma DocumentOtherwise(doc: Document, mime: string, asPhoto: bool, kinds: MediaKinds,
                          rewindAgain: Result<(), Error>, probe: Result<Mp4Info, Error>)
    requires !(kinds.isImage(mime) && asPhoto) && !kinds.isVideo(mime) && !kinds.isAudio(mime)
    ensures Represent(doc, mime, asPhoto, kinds, rewindAgain, probe) == Success(AsDocument(doc))
  {
  }

  /**
   * What a sent message carries: the uploaded file, the unit's caption, the detected
   * mime and the file's name, and the thumbnail exactly when the unit has one and its
   * upload succeeded.
   */
  lemma UploadedDocumentContents(ctx: Context, elem: Elem, t: Transfer, kinds: MediaKinds)
    requires UploadUnit(ctx, elem, t, kinds).Success?
    ensures ctx.Active? && t.upload.Success? && t.rewind.Success? && t.detect.Success? && t.send.Success?
    ensures var m := UploadUnit(ctx, elem, t, kinds).value;
      !m.AsPhoto? ==>
        && m.doc.file == t.upload.value
        && m.doc.caption == elem.caption
        && m.doc.mime == t.detect.value
        && m.doc.filename == elem.file.name
        && (m.doc.thumb.Some? <==> elem.thumb.Some? && t.thumbUpload.Success?)
    ensures var m := UploadUnit(ctx, elem, t, kinds).value;
      m.AsPhoto? ==> m == AsPhoto(t.upload.value, elem.caption)
  {
  }

  /**
   * A task notifies OnAdd before OnDone, hands OnDone its own result, and returns an
   * error only for a cancellation, wrapped with "upload"; every other failure of the
   * upload ends the task with nil.
   */
  lemma TaskFiltersErrors(ctx: Context, elem: Elem, t: Transfer, kinds: MediaKinds)
    ensures var run := Task(ctx, elem, t, kinds);
      && run.events == [OnAdd(elem), OnDone(elem, run.result)]
      && (run.result.Some? <==> UploadUnit(ctx, elem, t, kinds).Failure? && Is(UploadUnit(ctx, elem, t, kinds).error, Canceled))
      && (run.result.Some? ==> run.result.value == Wrap(UploadTask, UploadUnit(ctx, elem, t, kinds).error))
  {
  }

  /** A unit whose upload fails for a reason other than cancellation is reported done with nil. */
  lemma TransferFailureIsSwallowed(ctx: Context, elem: Elem, t: Transfer, kinds: MediaKinds)
    requires UploadUnit(ctx, elem, t, kinds).Failure? && !Is(UploadUnit(ctx, elem, t, kinds).error, Canceled)
    ensures Task(ctx, elem, t, kinds).result == None
    ensures Task(ctx, elem, t, kinds).events[1] == OnDone(elem, None)
  {
  }

  /** A cancelled context makes every task return the wrapped cancellation; a passed deadline is swallowed like a transfer failure. */
  lemma TaskUnderDoneContext(elem: Elem, t: Transfer, kinds: MediaKinds)
    ensures Task(Done(Canceled), elem, t, kinds).result == Some(Wrap(UploadTask, Canceled))
    ensures Task(Done(DeadlineExceeded), elem, t, kinds).result == None
  {
  }
}
