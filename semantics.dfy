/**
 * What handling one inbound message does, as a function of the two state
 * slots of the worker: the loaded document (`djvuDocument`) and the writer
 * session (`iwiw`). Each handler yields its new slots, the messages it posted
 * and the failure it threw, if any; the dispatcher turns a thrown failure into
 * one Error message.
 */
module Semantics {
  import opened Wrappers
  import opened Protocol

  /** The worker's module-level state. */
  datatype Slots = Slots(doc: Option<Document>, writer: Option<Writer>)

  /** What a handler did before it returned or threw. */
  datatype Outcome = Outcome(after: Slots, posted: seq<Msg>, thrown: Option<Failure>)

  /** What handling a message did, as seen from outside: new slots and posted messages. */
  datatype Effect = Effect(after: Slots, posted: seq<Msg>)

  function Returned(s: Slots, posted: seq<Msg>): Outcome
  {
    Outcome(s, posted, None)
  }

  function Threw(s: Slots, posted: seq<Msg>, f: Failure): Outcome
  {
    Outcome(s, posted, Some(f))
  }

  /** `djvuDocument.getPage(n).getText()`. */
  function PageTextOf(codec: Codec, doc: Option<Document>, n: int): Result<string, Failure>
  {
    if doc.None? then Failure(ReadOfUndefined("getPage"))
    else
      var page :- codec.getPage(doc.value, n);
      codec.getText(page)
  }

  /** `djvuDocument.getPage(n)`, then the page's image data and its dpi, in that order. */
  function PageImageOf(codec: Codec, doc: Option<Document>, n: int, onlyFirstBgChunk: bool): Result<(ImageData, int), Failure>
  {
    if doc.None? then Failure(ReadOfUndefined("getPage"))
    else
      var page :- codec.getPage(doc.value, n);
      var image :- codec.getImageData(page, onlyFirstBgChunk);
      var dpi :- codec.getDpi(page);
      Success((image, dpi))
  }

  /** The work runs inside a Promise executor: a failure rejects a promise nobody observes. */
  function RunGetPageText(codec: Codec, s: Slots, c: Command): Outcome
    requires c.GetPageText?
  {
    match PageTextOf(codec, s.doc, c.pagenumber)
    case Success(text) => Returned(s, [PageText(c.id, text)])
    case Failure(_) => Returned(s, [])
  }

  function RunGetPageImageDataWithDpi(codec: Codec, s: Slots, c: Command): Outcome
    requires c.GetPageImageDataWithDpi?
  {
    match PageImageOf(codec, s.doc, c.pagenumber, c.onlyFirstBgChunk)
    case Success((image, dpi)) =>
      Returned(s, [PageImageDataWithDpi(c.id, image.data, image.width, image.height, dpi)])
    case Failure(f) => Threw(s, [], f)
  }

  function RunGetPageCount(codec: Codec, s: Slots, c: Command): Outcome
    requires c.GetPageCount?
  {
    if s.doc.None? then Threw(s, [], ReadOfUndefined("pages"))
    else Returned(s, [PageCount(c.id, s.doc.value.pageCount)])
  }

  function RunGetDocumentMetaData(codec: Codec, s: Slots, c: Command): Outcome
    requires c.GetDocumentMetaData?
  {
    if s.doc.None? then Threw(s, [], ReadOfUndefined("toString"))
    else
      match codec.describe(s.doc.value, c.html)
      case Success(str) => Returned(s, [DocumentMetaData(c.id, str)])
      case Failure(f) => Threw(s, [], f)
  }

  /** The new writer is stored in `iwiw` before its start method runs. */
  function RunStartMultiPageDocument(codec: Codec, s: Slots, c: Command): Outcome
    requires c.StartMultiPageDocument?
  {
    match codec.newWriter(c.settings)
    case Failure(f) => Threw(s, [], f)
    case Success(w) =>
      var step := codec.start(w);
      var s' := s.(writer := Some(step.writer));
      if step.result.Failure? then Threw(s', [], step.result.error)
      else Returned(s', [MultiPageDocumentStarted(c.id)])
  }

  function RunAddPageToDocument(codec: Codec, s: Slots, c: Command): Outcome
    requires c.AddPageToDocument?
  {
    var image := ImageOf(c.simpleImage);
    if s.writer.None? then Threw(s, [], ReadOfUndefined("addPageToDocument"))
    else
      var step := codec.addPage(s.writer.value, image);
      var s' := s.(writer := Some(step.writer));
      if step.result.Failure? then Threw(s', [], step.result.error)
      else Returned(s', [PageAdded(c.id)])
  }

  /** Finishing leaves the finished writer in `iwiw`. */
  function RunEndMultiPageDocument(codec: Codec, s: Slots, c: Command): Outcome
    requires c.EndMultiPageDocument?
  {
    if s.writer.None? then Threw(s, [], ReadOfUndefined("endMultiPageDocument"))
    else
      var step := codec.finish(s.writer.value);
      var s' := s.(writer := Some(step.writer));
      match step.result
      case Failure(f) => Threw(s', [], f)
      case Success(buffer) => Returned(s', [MultiPageDocumentEnded(c.id, buffer)])
  }

  /** The images of `createDocumentFromPictures`, in the order the host sent them. */
  function ImagesOf(images: seq<SimpleImage>): seq<ImageData>
  {
    seq(|images|, i requires 0 <= i < |images| => ImageOf(images[i]))
  }

  /** One `{command: 'Process', percent}` message per progress report. */
  function ProgressMessages(percents: seq<int>): seq<Msg>
  {
    seq(|percents|, i requires 0 <= i < |percents| => Process(percents[i]))
  }

  /** A fresh local writer does the work; the slots are neither read nor written. */
  function RunCreateDocumentFromPictures(codec: Codec, s: Slots, c: Command): Outcome
    requires c.CreateDocumentFromPictures?
  {
    match codec.newWriter(c.settings)
    case Failure(f) => Threw(s, [], f)
    case Success(w) =>
      var build := codec.buildAll(w, ImagesOf(c.images));
      var progress := ProgressMessages(build.percents);
      match build.result
      case Failure(f) => Threw(s, progress, f)
      case Success(buffer) => Returned(s, progress + [DocumentFromPictures(c.id, buffer)])
  }

  function RunSlice(codec: Codec, s: Slots, c: Command): Outcome
    requires c.Slice?
  {
    if s.doc.None? then Threw(s, [], ReadOfUndefined("slice"))
    else
      match codec.slice(s.doc.value, c.from, c.to)
      case Failure(f) => Threw(s, [], f)
      case Success(buffer) => Returned(s, [Sliced(c.id, buffer)])
  }

  /** The document slot is assigned only once the new document is built. */
  function RunCreateDocument(codec: Codec, s: Slots, c: Command): Outcome
    requires c.CreateDocument?
  {
    match codec.load(c.buffer)
    case Failure(f) => Threw(s, [], f)
    case Success(d) => Returned(s.(doc := Some(d)), [DocumentCreated(c.id, d.pageCount)])
  }

  /** Rebuilds the document from its own buffer and posts nothing. */
  function RunReloadDocument(codec: Codec, s: Slots, c: Command): Outcome
    requires c.ReloadDocument?
  {
    if s.doc.None? then Threw(s, [], ReadOfUndefined("buffer"))
    else
      match codec.load(s.doc.value.buffer)
      case Failure(f) => Threw(s, [], f)
      case Success(d) => Returned(s.(doc := Some(d)), [])
  }

  /** `handlers[obj.command](obj)`. */
  function Run(codec: Codec, s: Slots, c: Inbound): Outcome
  {
    match c
    case GetPageText(_, _) => RunGetPageText(codec, s, c)
    case GetPageImageDataWithDpi(_, _, _) => RunGetPageImageDataWithDpi(codec, s, c)
    case GetPageCount(_) => RunGetPageCount(codec, s, c)
    case GetDocumentMetaData(_, _) => RunGetDocumentMetaData(codec, s, c)
    case StartMultiPageDocument(_, _) => RunStartMultiPageDocument(codec, s, c)
    case AddPageToDocument(_, _) => RunAddPageToDocument(codec, s, c)
    case EndMultiPageDocument(_) => RunEndMultiPageDocument(codec, s, c)
    case CreateDocumentFromPictures(_, _, _) => RunCreateDocumentFromPictures(codec, s, c)
    case Slice(_, _, _) => RunSlice(codec, s, c)
    case CreateDocument(_, _) => RunCreateDocument(codec, s, c)
    case ReloadDocument(_) => RunReloadDocument(codec, s, c)
    case Unknown(_, name) =>
      if name in InheritedQuiet then Returned(s, []) else Threw(s, [], NotAHandler(name))
  }

  /** The catch block's error object: a `DjVuError` as it is, anything else reduced to code, name and message. */
  function Marshal(f: Failure, c: Command): ErrorRecord
  {
    match f
    case DjVuError(code, name, message) => ErrorRecord(code, name, message, c)
    case OtherError(name, message) => ErrorRecord(UNEXPECTED_ERROR, name, message, c)
  }

  /** `onmessage`: run the handler and post one Error message if it threw. */
  function Handle(codec: Codec, s: Slots, c: Inbound): Effect
  {
    var o := Run(codec, s, c);
    match o.thrown
    case None => Effect(o.after, o.posted)
    case Some(f) => Effect(o.after, o.posted + [Error(c.id, Marshal(f, c))])
  }

  /** Messages handled one after the other, in arrival order. */
  function Trace(codec: Codec, s: Slots, cs: seq<Inbound>): Effect
    decreases |cs|
  {
    if cs == [] then Effect(s, [])
    else
      var first := Handle(codec, s, cs[0]);
      var rest := Trace(codec, first.after, cs[1..]);
      Effect(rest.after, first.posted + rest.posted)
  }
}
