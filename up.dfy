/**
 * app/up: the upload iterator. For each source file it resolves the destination
 * (a static chat, or the routing expression's result), builds the caption from the
 * caption expression's result, checks the optional thumbnail, stats the file and
 * hands out one transfer unit; the first preparation error stops it.
 *
 * Collaborators are inputs: the expression programs are the iterator's `route` and
 * `caption` (a program is the function texpr.Run computes with it), and file I/O,
 * mime sniffing, the lenient map decoder, the styled-text parser and the peer
 * directory are the fields of a `World`.
 */
module Up {
  import opened Wrappers
  import opened Errs
  import Paths
  import opened Uploader

  /** A file to upload and its optional thumbnail path ("" for none). */
  datatype SourceFile = SourceFile(file: string, thumb: string)

  /** The environment the expressions see. */
  datatype Env = Env(file: string, thumb: string, filename: string, extension: string, mime: string)

  const ZeroEnv: Env := Env("", "", "", "", "")

  /** A dynamically typed expression result, by the shapes the iterator tells apart. */
  datatype ExprValue =
    | Str(s: string)
    | Map(fields: map<string, ExprValue>)
    | Arr(elems: seq<ExprValue>)
    | Other(typeName: string)

  /** The Go type name of a result (the %T verb). */
  function TypeName(v: ExprValue): string
  {
    match v
    case Str(_) => "string"
    case Map(_) => "map[string]interface {}"
    case Arr(_) => "[]interface {}"
    case Other(t) => t
  }

  /** A compiled expression, as the function running it on an environment computes. */
  type Program = Env -> Result<ExprValue, Error>

  /** The record a routing map is decoded into. */
  datatype Dest = Dest(peer: string, thread: int)

  /** The collaborators one call of Next consults. */
  datatype World = World(
    open: string -> Result<(), Error>,                              // os.Open
    stat: string -> Result<int, Error>,                             // Stat of the opened file: its size
    detect: string -> Result<string, Error>,                        // mimetype.DetectFile
    kinds: MediaKinds,                                              // utils.Media
    decode: map<string, ExprValue> -> Result<Dest, Error>,          // mapstructure.WeakDecode
    parseStyled: map<string, ExprValue> -> Result<Segment, Error>,  // tstyle.ParseToStyledText
    self: Result<Peer, Error>,                                      // the peer manager's Self
    lookup: string -> Result<Peer, Error>,                          // utils.Telegram.GetInputPeer
    wrapOfNil: Option<Error>)                                       // what errors.Wrapf makes of a nil error

  /**
   * exprEnv: the environment of a file: its path and thumbnail, its name and
   * extension, and its detected mime type ("" when detection fails). No file gives
   * the zero environment.
   */
  function ExprEnv(file: Option<SourceFile>, detect: string -> Result<string, Error>): (env: Env)
    ensures file.None? ==> env == ZeroEnv
    ensures file.Some? ==> env.file == file.value.file && env.thumb == file.value.thumb
  {
    match file
    case None => ZeroEnv
    case Some(f) =>
      var extension := Paths.Ext(f.file);
      var filename := Paths.TrimSuffix(Paths.Base(f.file), extension);
      var mime := match detect(f.file) case Success(m) => m case Failure(_) => "";
      Env(f.file, f.thumb, filename, extension, mime)
  }

  /**
   * The extension is filepath.Ext of the path, the filename is the base name with
   * that extension cut off its end, and a failed mime detection leaves the mime
   * empty; no file gives the zero environment.
   */
  lemma EnvOfFile(file: Option<SourceFile>, detect: string -> Result<string, Error>)
    ensures file.None? ==> ExprEnv(file, detect) == ZeroEnv
    ensures file.Some? ==>
      var env := ExprEnv(file, detect);
      && env.file == file.value.file
      && env.thumb == file.value.thumb
      && env.extension == Paths.Ext(file.value.file)
      && env.filename + env.extension == Paths.Base(file.value.file)
      && env.mime == (if detect(file.value.file).Success? then detect(file.value.file).value else "")
  {
    if file.Some? {
      Paths.NameAndExtMakeBase(file.value.file);
    }
  }

  /** resolvePeer: the empty reference is the user's own chat, anything else is looked up. */
  function ResolvePeer(w: World, peer: string): (r: Result<Peer, Error>)
    ensures peer == "" ==> r == w.self
    ensures peer != "" ==> r == w.lookup(peer)
  {
    if peer == "" then w.self else w.lookup(peer)
  }

  /** A resolved destination: the peer (None when a dynamic lookup failed) and the thread. */
  datatype Route = Route(to: Option<Peer>, thread: int)

  /**
   * The destination given by a routing expression's result: a string is a peer with
   * no thread, a map is decoded into peer and thread, anything else is an error. The
   * outcome of the peer lookup is never checked: a failed one leaves no peer.
   */
  function Routed(result: Result<ExprValue, Error>, w: World): (r: Result<Route, Error>)
    ensures r.Success? ==> result.Success? && (result.value.Str? || result.value.Map?)
    ensures r.Success? && result.value.Str? ==> r.value.thread == 0
    ensures result.Failure? ==> r == Failure(Wrap(MessageRouting, result.error))
  {
    match result
    case Failure(e) => Failure(Wrap(MessageRouting, e))
    case Success(Str(r)) => Success(Route(ResolvePeer(w, r).ToOption(), 0))
    case Success(Map(m)) =>
      (match w.decode(m)
       case Failure(e) => Failure(Wrap(DecodeDest, e))
       case Success(d) => Success(Route(ResolvePeer(w, d.peer).ToOption(), d.thread)))
    case Success(v) => Failure(RouterShape(TypeName(v)))
  }

  /**
   * The destination of a file: a static chat is resolved directly with the configured
   * topic, and its lookup error is the error; otherwise the routing expression decides.
   */
  function Destination(chat: string, topic: int, route: Program, f: SourceFile, w: World): (r: Result<Route, Error>)
    ensures chat != "" ==> (r.Success? <==> w.lookup(chat).Success?)
    ensures chat != "" && r.Success? ==> r.value.to.Some? && r.value.thread == topic
    ensures chat == "" ==> r == Routed(route(ExprEnv(Some(f), w.detect)), w)
  {
    if chat != "" then
      match ResolvePeer(w, chat)
      case Success(p) => Success(Route(Some(p), topic))
      case Failure(e) => Failure(e)
    else Routed(route(ExprEnv(Some(f), w.detect)), w)
  }

  /** `pre` followed by the segments of `r`, or the error of `r`. */
  function Concat(pre: seq<Segment>, r: Result<seq<Segment>, Error>): Result<seq<Segment>, Error>
  {
    match r
    case Success(t) => Success(pre + t)
    case Failure(e) => Failure(e)
  }

  lemma ConcatNothing(r: Result<seq<Segment>, Error>)
    ensures Concat([], r) == r
  {
    if r.Success? {
      assert [] + r.value == r.value;
    }
  }

  lemma ConcatOneMore(pre: seq<Segment>, seg: Segment, r: Result<seq<Segment>, Error>)
    ensures Concat(pre, Concat([seg], r)) == Concat(pre + [seg], r)
  {
    if r.Success? {
      assert pre + ([seg] + r.value) == (pre + [seg]) + r.value;
    }
  }

  /**
   * The caption of an array result, element by element: a string is a plain segment,
   * a map is parsed into a styled segment (its parse error stops the caption), and
   * any other element is skipped.
   */
  function ArrayCaption(vs: seq<ExprValue>, parse: map<string, ExprValue> -> Result<Segment, Error>): (r: Result<seq<Segment>, Error>)
    ensures r.Success? ==> |r.value| <= |vs|
    ensures r.Failure? ==> r.error.Wrap? && r.error.context == ParseStyledText
  {
    if vs == [] then Success([])
    else
      match vs[0]
      case Str(s) => Concat([Plain(s)], ArrayCaption(vs[1..], parse))
      case Map(m) =>
        (match parse(m)
         case Failure(e) => Failure(Wrap(ParseStyledText, e))
         case Success(seg) => Concat([seg], ArrayCaption(vs[1..], parse)))
      case _ => ArrayCaption(vs[1..], parse)
  }

  /** The elements of an array result that become caption segments: its strings and maps, in order. */
  function Kept(vs: seq<ExprValue>): (k: seq<ExprValue>)
    ensures |k| <= |vs|
    ensures forall j :: 0 <= j < |k| ==> k[j].Str? || k[j].Map?
  {
    if vs == [] then []
    else if vs[0].Str? || vs[0].Map? then [vs[0]] + Kept(vs[1..])
    else Kept(vs[1..])
  }

  /** Some map element of `vs` does not parse. */
  predicate SomeStyleFails(vs: seq<ExprValue>, parse: map<string, ExprValue> -> Result<Segment, Error>)
  {
    exists k :: 0 <= k < |vs| && vs[k].Map? && parse(vs[k].fields).Failure?
  }

  /**
   * A caption built from an array result has one segment per string or map element,
   * in order: the string as plain text, the map as parsed.
   */
  lemma {:induction false} ArrayCaptionSegments(vs: seq<ExprValue>, parse: map<string, ExprValue> -> Result<Segment, Error>)
    ensures ArrayCaption(vs, parse).Success? ==>
      var segs := ArrayCaption(vs, parse).value;
      && |segs| == |Kept(vs)|
      && (forall j :: 0 <= j < |segs| && Kept(vs)[j].Str? ==> segs[j] == Plain(Kept(vs)[j].s))
      && (forall j :: 0 <= j < |segs| && Kept(vs)[j].Map? ==> parse(Kept(vs)[j].fields) == Success(segs[j]))
  {
    if vs != [] && ArrayCaption(vs, parse).Success? {
      var rest := vs[1..];
      ArrayCaptionSegments(rest, parse);
      var segs := ArrayCaption(vs, parse).value;
      var tail := ArrayCaption(rest, parse).value;
      if vs[0].Str? || vs[0].Map? {
        assert Kept(vs) == [vs[0]] + Kept(rest);
        assert segs[1..] == tail;
        forall j | 1 <= j < |segs|
          ensures segs[j] == tail[j - 1] && Kept(vs)[j] == Kept(rest)[j - 1]
        {
        }
      } else {
        assert Kept(vs) == Kept(rest) && segs == tail;
      }
    }
  }

  /**
   * The caption of an array result fails exactly when some map element fails to
   * parse, and then with the first such element's error; otherwise it has one
   * segment per string or map element, in order: the string as plain text, the map
   * as parsed.
   */
  lemma {:induction false} ArrayCaptionMeaning(vs: seq<ExprValue>, parse: map<string, ExprValue> -> Result<Segment, Error>)
    ensures ArrayCaption(vs, parse).Failure? <==> SomeStyleFails(vs, parse)
    ensures ArrayCaption(vs, parse).Failure? ==>
      exists k :: && 0 <= k < |vs| && vs[k].Map? && parse(vs[k].fields).Failure?
                  && (forall j :: 0 <= j < k && vs[j].Map? ==> parse(vs[j].fields).Success?)
                  && ArrayCaption(vs, parse).error == Wrap(ParseStyledText, parse(vs[k].fields).error)
    ensures ArrayCaption(vs, parse).Success? ==>
      var segs := ArrayCaption(vs, parse).value;
      && |segs| == |Kept(vs)|
      && (forall j :: 0 <= j < |segs| && Kept(vs)[j].Str? ==> segs[j] == Plain(Kept(vs)[j].s))
      && (forall j :: 0 <= j < |segs| && Kept(vs)[j].Map? ==> parse(Kept(vs)[j].fields) == Success(segs[j]))
  {
    ArrayCaptionSegments(vs, parse);
    if vs == [] {
    } else {
      var rest := vs[1..];
      ArrayCaptionMeaning(rest, parse);
      if vs[0].Map? && parse(vs[0].fields).Failure? {
        assert SomeStyleFails(vs, parse);
      } else {
        assert SomeStyleFails(vs, parse) <==> SomeStyleFails(rest, parse) by {
          if SomeStyleFails(vs, parse) {
            var k :| 0 <= k < |vs| && vs[k].Map? && parse(vs[k].fields).Failure?;
            assert k != 0;
            assert rest[k - 1] == vs[k];
          }
          if SomeStyleFails(rest, parse) {
            var k :| 0 <= k < |rest| && rest[k].Map? && parse(rest[k].fields).Failure?;
            assert vs[k + 1] == rest[k];
          }
        }
        if ArrayCaption(vs, parse).Failure? {
          var k :| && 0 <= k < |rest| && rest[k].Map? && parse(rest[k].fields).Failure?
                   && (forall j :: 0 <= j < k && rest[j].Map? ==> parse(rest[j].fields).Success?)
                   && ArrayCaption(rest, parse).error == Wrap(ParseStyledText, parse(rest[k].fields).error);
          assert vs[k + 1] == rest[k];
          assert forall j :: 0 <= j < k + 1 && vs[j].Map? ==> parse(vs[j].fields).Success? by {
            forall j | 0 <= j < k + 1 && vs[j].Map? ensures parse(vs[j].fields).Success? {
              if j > 0 { assert vs[j] == rest[j - 1]; }
            }
          }
        }
      }
    }
  }

  /** The caption loop: append a segment per string or map element, skip the others, stop at the first parse error. */
  method BuildCaption(vs: seq<ExprValue>, parse: map<string, ExprValue> -> Result<Segment, Error>) returns (r: Result<seq<Segment>, Error>)
    ensures r == ArrayCaption(vs, parse)
  {
    var caption: seq<Segment> := [];
    var i := 0;
    assert vs[i..] == vs;
    ConcatNothing(ArrayCaption(vs, parse));
    while i < |vs|
      invariant 0 <= i <= |vs|
      invariant Concat(caption, ArrayCaption(vs[i..], parse)) == ArrayCaption(vs, parse)
    {
      assert vs[i..][1..] == vs[i + 1..];
      match vs[i] {
        case Str(s) =>
          ConcatOneMore(caption, Plain(s), ArrayCaption(vs[i + 1..], parse));
          caption := caption + [Plain(s)];
        case Map(m) =>
          var styled := parse(m);
          if styled.Failure? {
            return Failure(Wrap(ParseStyledText, styled.error));
          }
          ConcatOneMore(caption, styled.value, ArrayCaption(vs[i + 1..], parse));
          caption := caption + [styled.value];
        case _ =>
      }
      i := i + 1;
    }
    assert vs[i..] == [];
    assert caption + [] == caption;
    r := Success(caption);
  }

  /**
   * The caption of a file: a string result is one plain segment, an array result is
   * built element by element, and an evaluation error or any other shape is an error.
   */
  function Caption(caption: Program, f: SourceFile, w: World): (r: Result<seq<Segment>, Error>)
    ensures var v := caption(ExprEnv(Some(f), w.detect));
      r.Success? ==> v.Success? && (v.value.Str? || v.value.Arr?)
    ensures var v := caption(ExprEnv(Some(f), w.detect));
      r.Success? && v.value.Arr? ==> |r.value| <= |v.value.elems|
    ensures var v := caption(ExprEnv(Some(f), w.detect));
      v.Success? && v.value.Arr? ==> r == ArrayCaption(v.value.elems, w.parseStyled)
  {
    match caption(ExprEnv(Some(f), w.detect))
    case Failure(e) => Failure(Wrap(CaptionParse, e))
    case Success(Str(s)) => Success([Plain(s)])
    case Success(Arr(vs)) => ArrayCaption(vs, w.parseStyled)
    case Success(v) => Failure(CaptionShape(TypeName(v)))
  }

  /** The thumbnail check: accepted (absent, or opened as a zero-size file) or rejected with the error stored. */
  datatype ThumbCheck = Accepted(thumb: Option<File>) | Rejected(err: Option<Error>)

  /**
   * A thumbnail path must sniff as an image and open. A detection failure is wrapped;
   * a detected non-image wraps a nil error, whose outcome `wrapOfNil` stands for.
   */
  function CheckThumb(path: string, w: World): (c: ThumbCheck)
    ensures c.Accepted? ==> (c.thumb.Some? <==> path != "")
    ensures c.Rejected? ==> path != "" && (w.detect(path).Success? ==> !w.kinds.isImage(w.detect(path).value) || w.open(path).Failure?)
  {
    if path == "" then Accepted(None)
    else
      match w.detect(path)
      case Failure(e) => Rejected(Some(Wrap(InvalidThumbnail(path), e)))
      case Success(m) =>
        if !w.kinds.isImage(m) then Rejected(w.wrapOfNil)
        else
          match w.open(path)
          case Failure(e) => Rejected(Some(Wrap(OpenThumbnail, e)))
          case Success(_) => Accepted(Some(File(path, 0)))
  }

  /** The configuration newIter receives (the peer manager is part of the `World`). */
  datatype Config = Config(
    files: seq<SourceFile>,
    route: Program,
    caption: Program,
    chat: string,
    topic: int,
    photo: bool,
    remove: bool)

  /** The outcome of preparing one file: its unit, or the error to store (possibly nil). */
  datatype Prepared = Built(elem: Elem) | Failed(err: Option<Error>)

  /** Preparing one file, in Next's order: open, destination, caption, thumbnail, stat. */
  function Prepare(cfg: Config, f: SourceFile, w: World): (p: Prepared)
    ensures p.Built? ==> && p.elem.file.name == f.file && p.elem.asPhoto == cfg.photo && p.elem.remove == cfg.remove
                         && w.open(f.file).Success? && w.stat(f.file).Success?
    ensures p == Failed(None) ==> f.thumb != "" && w.wrapOfNil == None
  {
    match w.open(f.file)
    case Failure(e) => Failed(Some(Wrap(OpenFile, e)))
    case Success(_) =>
      match Destination(cfg.chat, cfg.topic, cfg.route, f, w)
      case Failure(e) => Failed(Some(e))
      case Success(route) =>
        match Caption(cfg.caption, f, w)
        case Failure(e) => Failed(Some(e))
        case Success(caption) =>
          match CheckThumb(f.thumb, w)
          case Rejected(e) => Failed(e)
          case Accepted(thumb) =>
            match w.stat(f.file)
            case Failure(e) => Failed(Some(Wrap(StatFile, e)))
            case Success(size) =>
              Built(Elem(File(f.file, size), thumb, route.to, caption, route.thread, cfg.photo, cfg.remove))
  }

  /** The iterator's mutable state: the cursor, the stored error and the last unit. */
  datatype IterState = IterState(cur: nat, err: Option<Error>, value: Option<Elem>) {
    /** HasNext: no error is stored and files remain. */
    predicate HasNext(n: nat) {
      err.None? && cur < n
    }
  }

  /**
   * The state after the file under the cursor was prepared: the cursor has moved past
   * it, and its unit became the value or its error the stored error.
   */
  function Settle(s: IterState, p: Prepared): (IterState, bool)
  {
    var next := s.(cur := s.cur + 1);
    match p
    case Built(e) => (next.(value := Some(e)), true)
    case Failed(e) => (next.(err := e), false)
  }

  /**
   * One call of Next: a done context stores its error; otherwise, when there is a
   * next file, it is prepared and the state settled.
   */
  function Step(cfg: Config, s: IterState, ctx: Context, w: World): (r: (IterState, bool))
    ensures s.cur <= r.0.cur <= s.cur + 1
    ensures r.1 ==> ctx.Active? && s.HasNext(|cfg.files|) && r.0.cur == s.cur + 1 && r.0.value.Some?
    ensures s.err.Some? ==> !r.1 && r.0.err.Some? && r.0.cur == s.cur && r.0.value == s.value
  {
    if ctx.Done? then (s.(err := Some(ctx.cause)), false)
    else if !s.HasNext(|cfg.files|) then (s, false)
    else Settle(s, Prepare(cfg, cfg.files[s.cur], w))
  }

  /** The iterator of app/up/iter.go. */
  class Iter {
    const files: seq<SourceFile>
    const route: Program
    const caption: Program
    const chat: string
    const topic: int
    const photo: bool
    const remove: bool

    var cur: nat
    var err: Option<Error>
    var value: Option<Elem>

    function Settings(): Config
    {
      Config(files, route, caption, chat, topic, photo, remove)
    }

    function State(): IterState
      reads this
    {
      IterState(cur, err, value)
    }

    ghost predicate Valid()
      reads this
    {
      cur <= |files|
    }

    /** newIter: the cursor at the first file, no error, no unit yet. */
    constructor (files: seq<SourceFile>, route: Program, caption: Program, chat: string, topic: int, photo: bool, remove: bool)
      ensures Valid()
      ensures this.files == files && this.route == route && this.caption == caption
      ensures this.chat == chat && this.topic == topic && this.photo == photo && this.remove == remove
      ensures State() == IterState(0, None, None)
    {
      this.files := files;
      this.route := route;
      this.caption := caption;
      this.chat := chat;
      this.topic := topic;
      this.photo := photo;
      this.remove := remove;
      cur := 0;
      err := None;
      value := None;
    }

    predicate HasNext()
      reads this
      ensures HasNext() <==> err.None? && cur < |files|
    {
      State().HasNext(|files|)
    }

    /** Advance to the next unit; false when cancelled, exhausted, stopped, or this file failed. */
    method Next(ctx: Context, w: World) returns (ok: bool)
      requires Valid()
      modifies this
      ensures Valid()
      ensures (State(), ok) == Step(Settings(), old(State()), ctx, w)
    {
      if ctx.Done? {
        err := Some(ctx.cause);
        return false;
      }
      if !HasNext() {
        return false;
      }

      var f := files[cur];
      cur := cur + 1;
      var prepared := PrepareFile(f, w);
      match prepared {
        case Failed(e) =>
          err := e;
          return false;
        case Built(elem) =>
          value := Some(elem);
          return true;
      }
    }

    /**
     * The body of Next after the cursor moved: open, resolve the destination, build
     * the caption, check the thumbnail, stat, and assemble the unit; the first failure
     * gives the error to store.
     */
    method PrepareFile(f: SourceFile, w: World) returns (r: Prepared)
      ensures r == Prepare(Settings(), f, w)
    {
      var opening := w.open(f.file);
      if opening.Failure? {
        return Failed(Some(Wrap(OpenFile, opening.error)));
      }

      var dest := Destination(chat, topic, route, f, w);
      if dest.Failure? {
        return Failed(Some(dest.error));
      }

      var segments := BuildFileCaption(f, w);
      if segments.Failure? {
        return Failed(Some(segments.error));
      }

      var thumb: Option<File> := None;
      if f.thumb != "" {
        var tMime := w.detect(f.thumb);
        if tMime.Failure? {
          return Failed(Some(Wrap(InvalidThumbnail(f.thumb), tMime.error)));
        }
        if !w.kinds.isImage(tMime.value) {
          return Failed(w.wrapOfNil);
        }
        var thumbOpening := w.open(f.thumb);
        if thumbOpening.Failure? {
          return Failed(Some(Wrap(OpenThumbnail, thumbOpening.error)));
        }
        thumb := Some(File(f.thumb, 0));
      }

      var stat := w.stat(f.file);
      if stat.Failure? {
        return Failed(Some(Wrap(StatFile, stat.error)));
      }
      r := Built(Elem(File(f.file, stat.value), thumb, dest.value.to, segments.value, dest.value.thread, photo, remove));
    }

    /** Next's caption step: a switch on the caption expression's result, with the append loop for arrays. */
    method BuildFileCaption(f: SourceFile, w: World) returns (r: Result<seq<Segment>, Error>)
      ensures r == Caption(caption, f, w)
    {
      var result := caption(ExprEnv(Some(f), w.detect));
      if result.Failure? {
        return Failure(Wrap(CaptionParse, result.error));
      }
      match result.value {
        case Str(s) =>
          r := Success([Plain(s)]);
        case Arr(vs) =>
          r := BuildCaption(vs, w.parseStyled);
        case _ =>
          r := Failure(CaptionShape(TypeName(result.value)));
      }
    }

    /** The unit of the last successful Next. */
    function Value(): (v: Option<Elem>)
      reads this
      ensures v == State().value
    {
      value
    }

    /** The stored error. */
    function Err(): (e: Option<Error>)
      reads this
      ensures e == State().err
    {
      err
    }
  }

  // ---------------------------------------------------------------------------
  // Properties of one call of Next
  // ---------------------------------------------------------------------------

  /** A done context stores its error and yields nothing; the cursor and the last unit stay. */
  lemma CancelledStep(cfg: Config, s: IterState, ctx: Context, w: World)
    requires ctx.Done?
    ensures var (t, ok) := Step(cfg, s, ctx, w);
      !ok && t.err == Some(ctx.cause) && t.cur == s.cur && t.value == s.value && !t.HasNext(|cfg.files|)
  {
  }

  /** Without a next file (an error stored, or the files exhausted) Next changes nothing. */
  lemma BlockedStep(cfg: Config, s: IterState, w: World)
    requires !s.HasNext(|cfg.files|)
    ensures Step(cfg, s, Active, w) == (s, false)
  {
  }

  /**
   * With a next file, Next moves the cursor past exactly that file, succeeds exactly
   * when it was prepared, and then hands out its unit; otherwise it stores its error.
   */
  lemma AdvancingStep(cfg: Config, s: IterState, w: World)
    requires s.HasNext(|cfg.files|)
    ensures var (t, ok) := Step(cfg, s, Active, w);
      var p := Prepare(cfg, cfg.files[s.cur], w);
      && t.cur == s.cur + 1
      && (ok <==> p.Built?)
      && (ok ==> t.value == Some(p.elem) && t.err == None)
      && (!ok ==> t.err == p.err && t.value == s.value)
  {
  }

  /** Next never moves the cursor beyond the last file, and moves it at most by one. */
  lemma StepKeepsCursor(cfg: Config, s: IterState, ctx: Context, w: World)
    requires s.cur <= |cfg.files|
    ensures s.cur <= Step(cfg, s, ctx, w).0.cur <= |cfg.files|
    ensures Step(cfg, s, ctx, w).0.cur <= s.cur + 1
  {
  }

  /**
   * A failed preparation stores a nil error only for a thumbnail that sniffs as a
   * non-image, when wrapping the nil error gives nil.
   */
  lemma NilErrorOnlyFromThumbnail(cfg: Config, f: SourceFile, w: World)
    requires Prepare(cfg, f, w) == Failed(None)
    ensures f.thumb != "" && w.detect(f.thumb).Success? && !w.kinds.isImage(w.detect(f.thumb).value)
    ensures w.wrapOfNil == None
  {
  }

  /**
   * So a file rejected that way makes Next return false with no error stored, while
   * the state would still let a further Next go on with the following file. The
   * uploader's loop does not call it again: see NilErrorEndsUpload.
   */
  lemma NilErrorKeepsIterating(cfg: Config, s: IterState, w: World)
    requires s.HasNext(|cfg.files|) && s.cur + 1 < |cfg.files|
    requires Prepare(cfg, cfg.files[s.cur], w) == Failed(None)
    ensures var (t, ok) := Step(cfg, s, Active, w);
      !ok && t.HasNext(|cfg.files|) && t.cur == s.cur + 1
  {
  }

  // ---------------------------------------------------------------------------
  // Destination and caption
  // ---------------------------------------------------------------------------

  /**
   * With a static chat the routing expression plays no part: the peer is the chat's,
   * the thread is the topic, and a lookup error is the error, unwrapped.
   */
  lemma StaticChatDestination(chat: string, topic: int, route: Program, route': Program, f: SourceFile, w: World)
    requires chat != ""
    ensures Destination(chat, topic, route, f, w) == Destination(chat, topic, route', f, w)
    ensures var d := Destination(chat, topic, route, f, w);
      && (d.Success? <==> w.lookup(chat).Success?)
      && (d.Success? ==> d.value == Route(Some(w.lookup(chat).value), topic))
      && (d.Failure? ==> d.error == w.lookup(chat).error)
  {
  }

  /**
   * A routing result fails exactly when the expression failed, a map does not decode,
   * or the result is neither a string nor a map; a failed peer lookup never fails it.
   */
  lemma RoutedFailures(result: Result<ExprValue, Error>, w: World)
    ensures Routed(result, w).Failure? <==>
      || result.Failure?
      || (result.value.Map? && w.decode(result.value.fields).Failure?)
      || !(result.value.Str? || result.value.Map?)
    ensures result.Failure? ==> Routed(result, w) == Failure(Wrap(MessageRouting, result.error))
    ensures result.Success? && result.value.Map? && w.decode(result.value.fields).Failure? ==>
      Routed(result, w) == Failure(Wrap(DecodeDest, w.decode(result.value.fields).error))
    ensures result.Success? && !(result.value.Str? || result.value.Map?) ==>
      Routed(result, w) == Failure(RouterShape(TypeName(result.value)))
  {
  }

  /**
   * A string routes to that peer ("" for the user's own chat) with no thread; a
   * decoded map routes to its peer and thread. The peer is absent exactly when its
   * lookup failed.
   */
  lemma RoutedDestinations(result: Result<ExprValue, Error>, w: World)
    requires result.Success? && (result.value.Str? || (result.value.Map? && w.decode(result.value.fields).Success?))
    ensures var r := Routed(result, w);
      var peer := if result.value.Str? then result.value.s else w.decode(result.value.fields).value.peer;
      && r.Success?
      && r.value.thread == (if result.value.Str? then 0 else w.decode(result.value.fields).value.thread)
      && (r.value.to.Some? <==> ResolvePeer(w, peer).Success?)
      && (r.value.to.Some? ==> r.value.to.value == ResolvePeer(w, peer).value)
      && (peer == "" ==> r.value.to == w.self.ToOption())
  {
  }

  /**
   * The caption of a file fails exactly when the expression failed, its result is
   * neither a string nor an array, or a map element of the array does not parse.
   */
  lemma CaptionFailures(caption: Program, f: SourceFile, w: World)
    ensures var v := caption(ExprEnv(Some(f), w.detect));
      && (Caption(caption, f, w).Failure? <==>
            || v.Failure?
            || !(v.value.Str? || v.value.Arr?)
            || (v.value.Arr? && SomeStyleFails(v.value.elems, w.parseStyled)))
      && (v.Failure? ==> Caption(caption, f, w) == Failure(Wrap(CaptionParse, v.error)))
      && (v.Success? && !(v.value.Str? || v.value.Arr?) ==>
            Caption(caption, f, w) == Failure(CaptionShape(TypeName(v.value))))
      && (v.Success? && v.value.Str? ==> Caption(caption, f, w) == Success([Plain(v.value.s)]))
  {
    var v := caption(ExprEnv(Some(f), w.detect));
    if v.Success? && v.value.Arr? {
      ArrayCaptionMeaning(v.value.elems, w.parseStyled);
    }
  }

  // ---------------------------------------------------------------------------
  // Preparing one file
  // ---------------------------------------------------------------------------

  /**
   * A thumbnail passes exactly when there is none, or it sniffs as an image and
   * opens; a passed one is a zero-size file. A failed sniff is reported with the
   * thumbnail's path, a failed open as such.
   */
  lemma ThumbnailOutcome(path: string, w: World)
    ensures CheckThumb(path, w).Accepted? <==>
      path == "" || (w.detect(path).Success? && w.kinds.isImage(w.detect(path).value) && w.open(path).Success?)
    ensures CheckThumb(path, w).Accepted? ==>
      CheckThumb(path, w).thumb == (if path == "" then None else Some(File(path, 0)))
    ensures path != "" && w.detect(path).Failure? ==>
      CheckThumb(path, w) == Rejected(Some(Wrap(InvalidThumbnail(path), w.detect(path).error)))
    ensures path != "" && w.detect(path).Success? && w.kinds.isImage(w.detect(path).value) && w.open(path).Failure? ==>
      CheckThumb(path, w) == Rejected(Some(Wrap(OpenThumbnail, w.open(path).error)))
  {
  }

  /**
   * A file is prepared exactly when it opens, its destination resolves, its caption
   * builds, its thumbnail passes and it stats; the unit carries the file with its
   * size, the thumbnail as a zero-size file, the destination, the caption and the
   * photo and removal settings.
   */
  lemma PreparedUnit(cfg: Config, f: SourceFile, w: World)
    ensures Prepare(cfg, f, w).Built? <==>
      && w.open(f.file).Success?
      && Destination(cfg.chat, cfg.topic, cfg.route, f, w).Success?
      && Caption(cfg.caption, f, w).Success?
      && CheckThumb(f.thumb, w).Accepted?
      && w.stat(f.file).Success?
    ensures Prepare(cfg, f, w).Built? ==>
      var e := Prepare(cfg, f, w).elem;
      && e.file == File(f.file, w.stat(f.file).value)
      && e.thumb == (if f.thumb == "" then None else Some(File(f.thumb, 0)))
      && Success(Route(e.to, e.thread)) == Destination(cfg.chat, cfg.topic, cfg.route, f, w)
      && Success(e.caption) == Caption(cfg.caption, f, w)
      && e.asPhoto == cfg.photo && e.remove == cfg.remove
  {
  }

  /**
   * Without a static chat a prepared unit goes where the routing expression says: a
   * string names the peer with no thread, a decoded map gives the peer and thread.
   */
  lemma DynamicRouteReachesUnit(cfg: Config, f: SourceFile, w: World)
    requires cfg.chat == "" && Prepare(cfg, f, w).Built?
    ensures var v := cfg.route(ExprEnv(Some(f), w.detect));
      var e := Prepare(cfg, f, w).elem;
      && v.Success? && (v.value.Str? || (v.value.Map? && w.decode(v.value.fields).Success?))
      && (v.value.Str? ==> e.to == ResolvePeer(w, v.value.s).ToOption() && e.thread == 0)
      && (v.value.Map? ==>
            var d := w.decode(v.value.fields).value;
            e.to == ResolvePeer(w, d.peer).ToOption() && e.thread == d.thread)
  {
  }

  /**
   * A prepared unit's caption is what the caption expression gives: one plain
   * segment for a string, the array caption of an array's elements.
   */
  lemma CaptionReachesUnit(cfg: Config, f: SourceFile, w: World)
    requires Prepare(cfg, f, w).Built?
    ensures var v := cfg.caption(ExprEnv(Some(f), w.detect));
      var e := Prepare(cfg, f, w).elem;
      && v.Success? && (v.value.Str? || v.value.Arr?)
      && (v.value.Str? ==> e.caption == [Plain(v.value.s)])
      && (v.value.Arr? ==> Success(e.caption) == ArrayCaption(v.value.elems, w.parseStyled))
  {
  }

  /**
   * The checks run in order and the first failing one decides the error: an
   * unopenable file is reported as such whatever else is wrong with it, and a
   * destination error comes before any caption or thumbnail error.
   */
  lemma FirstFailureDecides(cfg: Config, f: SourceFile, w: World)
    ensures w.open(f.file).Failure? ==> Prepare(cfg, f, w) == Failed(Some(Wrap(OpenFile, w.open(f.file).error)))
    ensures w.open(f.file).Success? && Destination(cfg.chat, cfg.topic, cfg.route, f, w).Failure? ==>
      Prepare(cfg, f, w) == Failed(Some(Destination(cfg.chat, cfg.topic, cfg.route, f, w).error))
    ensures && w.open(f.file).Success? && Destination(cfg.chat, cfg.topic, cfg.route, f, w).Success?
            && Caption(cfg.caption, f, w).Failure? ==>
      Prepare(cfg, f, w) == Failed(Some(Caption(cfg.caption, f, w).error))
    ensures && w.open(f.file).Success? && Destination(cfg.chat, cfg.topic, cfg.route, f, w).Success?
            && Caption(cfg.caption, f, w).Success? && CheckThumb(f.thumb, w).Accepted?
            && w.stat(f.file).Failure? ==>
      Prepare(cfg, f, w) == Failed(Some(Wrap(StatFile, w.stat(f.file).error)))
    ensures && w.open(f.file).Success? && Destination(cfg.chat, cfg.topic, cfg.route, f, w).Success?
            && Caption(cfg.caption, f, w).Success? && CheckThumb(f.thumb, w).Rejected? ==>
      Prepare(cfg, f, w) == Failed(CheckThumb(f.thumb, w).err)
  {
  }

  // ---------------------------------------------------------------------------
  // A whole run: Next called again and again
  // ---------------------------------------------------------------------------

  /** One call of Next: the context it is given and the collaborators it consults then. */
  datatype Call = Call(ctx: Context, w: World)

  /** The state after one call of Next per element of `calls`, and how many returned true. */
  function Drive(cfg: Config, s: IterState, calls: seq<Call>): (IterState, nat)
    decreases |calls|
  {
    if calls == [] then (s, 0)
    else
      var (t, ok) := Step(cfg, s, calls[0].ctx, calls[0].w);
      var (u, n) := Drive(cfg, t, calls[1..]);
      (u, if ok then n + 1 else n)
  }

  /**
   * However many times Next is called, it hands out at most one unit per remaining
   * file, and the cursor stays within the files.
   */
  lemma {:induction false} DriveBounded(cfg: Config, s: IterState, calls: seq<Call>)
    requires s.cur <= |cfg.files|
    ensures var (u, n) := Drive(cfg, s, calls);
      s.cur <= u.cur <= |cfg.files| && n <= u.cur - s.cur
    decreases |calls|
  {
    if calls != [] {
      var (t, ok) := Step(cfg, s, calls[0].ctx, calls[0].w);
      StepKeepsCursor(cfg, s, calls[0].ctx, calls[0].w);
      DriveBounded(cfg, t, calls[1..]);
    }
  }

  /**
   * Once an error is stored, no further call of Next hands out a unit or moves the
   * cursor; an error stays stored and the last unit stays.
   */
  lemma {:induction false} StoredErrorIsFinal(cfg: Config, s: IterState, calls: seq<Call>)
    requires s.err.Some?
    ensures var (u, n) := Drive(cfg, s, calls);
      n == 0 && u.cur == s.cur && u.value == s.value && u.err.Some?
    decreases |calls|
  {
    if calls != [] {
      var (t, ok) := Step(cfg, s, calls[0].ctx, calls[0].w);
      StoredErrorIsFinal(cfg, t, calls[1..]);
    }
  }

  /** What the uploader's loop got from the iterator: the units, in order, and the final state. */
  datatype Pulled = Pulled(units: seq<Elem>, last: IterState)

  /**
   * The uploader's pulling loop: Next is called, the k-th time with `call(k)`, until
   * it returns false, and each true hands Value on to a task. The uploader then
   * reports the final state's Err.
   */
  function Pull(cfg: Config, s: IterState, call: nat -> Call, k: nat): (p: Pulled)
    requires s.cur <= |cfg.files|
    ensures s.cur + |p.units| <= p.last.cur <= |cfg.files|
    decreases |cfg.files| - s.cur
  {
    var (t, ok) := Step(cfg, s, call(k).ctx, call(k).w);
    if !ok then Pulled([], t)
    else
      var rest := Pull(cfg, t, call, k + 1);
      Pulled([t.value.value] + rest.units, rest.last)
  }

  /** A done context ends the loop at once, with its error stored for the uploader to report. */
  lemma CancelledPull(cfg: Config, s: IterState, call: nat -> Call, k: nat)
    requires s.cur <= |cfg.files| && call(k).ctx.Done?
    ensures Pull(cfg, s, call, k) == Pulled([], s.(err := Some(call(k).ctx.cause)))
  {
    CancelledStep(cfg, s, call(k).ctx, call(k).w);
  }

  /**
   * A file rejected with a nil error ends the loop at once, with no error to report:
   * the upload returns as if every file had been handed on, and the files after it
   * are never prepared.
   */
  lemma NilErrorEndsUpload(cfg: Config, s: IterState, call: nat -> Call, k: nat)
    requires s.HasNext(|cfg.files|) && call(k).ctx.Active?
    requires Prepare(cfg, cfg.files[s.cur], call(k).w) == Failed(None)
    ensures Pull(cfg, s, call, k) == Pulled([], s.(cur := s.cur + 1))
    ensures Pull(cfg, s, call, k).last.err == None
  {
    AdvancingStep(cfg, s, call(k).w);
  }
}
