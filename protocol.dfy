/**
 * The vocabulary of the worker's message protocol: inbound command messages,
 * outbound messages, the serialisable error record, and the interface of the
 * external codec (the document decoder and the IW44 image writer), which the
 * worker only calls and which is modelled as a table of opaque, possibly
 * throwing functions.
 */
module Protocol {
  import opened Wrappers

  type Bytes = seq<bv8>

  /** The caller's correlation id, echoed in every reply to its command. */
  type Id = int

  /** `DjVuErrorCodes.UNEXPECTED_ERROR`, the code given to every failure that is not a `DjVuError`. */
  const UNEXPECTED_ERROR: string := "UNEXPECTED_ERROR"

  /** A thrown value: a `DjVuError` of the library, or any other error (a `TypeError`, say). */
  datatype Failure =
    | DjVuError(code: string, name: string, message: string)
    | OtherError(name: string, message: string)

  /** The `TypeError` a JavaScript engine throws when a property of `undefined` is read. */
  function ReadOfUndefined(property: string): Failure
  {
    OtherError("TypeError", "Cannot read properties of undefined (reading '" + property + "')")
  }

  /** `{buffer, width, height}` as the host sends a raw picture. */
  datatype SimpleImage = SimpleImage(buffer: Bytes, width: int, height: int)

  /** A browser `ImageData`: pixel bytes and the declared dimensions. */
  datatype ImageData = ImageData(data: Bytes, width: int, height: int)

  /** `new ImageData(new Uint8ClampedArray(image.buffer), image.width, image.height)`. */
  function ImageOf(image: SimpleImage): ImageData
  {
    ImageData(image.buffer, image.width, image.height)
  }

  /** The three constructor arguments of an `IWImageWriter`. */
  datatype WriterSettings = WriterSettings(slicenumber: int, delayInit: bool, grayscale: bool)

  /** A loaded `DjVuDocument`: the worker reads its `buffer` and `pages.length` directly. */
  datatype Document = Document(buffer: Bytes, pageCount: nat)

  /** A page object handed out by the document; its content is the codec's business. */
  datatype Page = Page(handle: nat)

  /** The internal state of one `IWImageWriter` instance, opaque to the worker. */
  datatype Writer = Writer(handle: nat)

  /**
   * A call on a writer: writers are mutable objects, so a call that throws
   * may still have changed the writer it was made on.
   */
  datatype WriterStep<+T> = WriterStep(writer: Writer, result: Result<T, Failure>)

  /**
   * A one-shot build: the percentages reported through `onprocess`, in order,
   * and then the resulting document buffer or the failure that ended the build.
   */
  datatype Build = Build(percents: seq<int>, result: Result<Bytes, Failure>)

  /** The external collaborators, one total function per call the worker makes. */
  datatype Codec = Codec(
    load: Bytes -> Result<Document, Failure>,                  // new DjVuDocument(buffer)
    getPage: (Document, int) -> Result<Page, Failure>,         // document.getPage(n)
    getText: Page -> Result<string, Failure>,                  // page.getText()
    getImageData: (Page, bool) -> Result<ImageData, Failure>,  // page.getImageData(onlyFirstBgChunk)
    getDpi: Page -> Result<int, Failure>,                      // page.getDpi()
    describe: (Document, bool) -> Result<string, Failure>,     // document.toString(html)
    slice: (Document, int, int) -> Result<Bytes, Failure>,     // document.slice(from, to).buffer
    newWriter: WriterSettings -> Result<Writer, Failure>,      // new IWImageWriter(...)
    start: Writer -> WriterStep<()>,                           // writer.startMultiPageDocument()
    addPage: (Writer, ImageData) -> WriterStep<()>,            // writer.addPageToDocument(image)
    finish: Writer -> WriterStep<Bytes>,                       // writer.endMultiPageDocument()
    buildAll: (Writer, seq<ImageData>) -> Build                // writer.createMultyPageDocument(images)
  )

  /** An inbound command message `{command, id, ...fields}`. */
  datatype Command =
    | GetPageText(id: Id, pagenumber: int)
    | GetPageImageDataWithDpi(id: Id, pagenumber: int, onlyFirstBgChunk: bool)
    | GetPageCount(id: Id)
    | GetDocumentMetaData(id: Id, html: bool)
    | StartMultiPageDocument(id: Id, settings: WriterSettings)
    | AddPageToDocument(id: Id, simpleImage: SimpleImage)
    | EndMultiPageDocument(id: Id)
    | CreateDocumentFromPictures(id: Id, images: seq<SimpleImage>, settings: WriterSettings)
    | Slice(id: Id, from: int, to: int)
    | CreateDocument(id: Id, buffer: Bytes)
    | ReloadDocument(id: Id)
    | Unknown(id: Id, command: string)
  {
    /** The message's `command` property. */
    function Name(): string
    {
      match this
      case GetPageText(_, _) => "getPageText"
      case GetPageImageDataWithDpi(_, _, _) => "getPageImageDataWithDpi"
      case GetPageCount(_) => "getPageCount"
      case GetDocumentMetaData(_, _) => "getDocumentMetaData"
      case StartMultiPageDocument(_, _) => "startMultiPageDocument"
      case AddPageToDocument(_, _) => "addPageToDocument"
      case EndMultiPageDocument(_) => "endMultiPageDocument"
      case CreateDocumentFromPictures(_, _, _) => "createDocumentFromPictures"
      case Slice(_, _, _) => "slice"
      case CreateDocument(_, _) => "createDocument"
      case ReloadDocument(_) => "reloadDocument"
      case Unknown(_, name) => name
    }
  }

  /** The own properties of the `handlers` object. */
  const HandlerNames: set<string> := {
    "getPageText", "getPageImageDataWithDpi", "getPageCount", "getDocumentMetaData",
    "startMultiPageDocument", "addPageToDocument", "endMultiPageDocument",
    "createDocumentFromPictures", "slice", "createDocument", "reloadDocument"
  }

  /** A message as the dispatcher receives it: one naming a handler is that handler's variant. */
  type Inbound = c: Command | !c.Unknown? || c.command !in HandlerNames
    witness GetPageCount(0)

  /**
   * A message's name is one of the handler table's own properties exactly
   * when it is a handler variant, so `Name()` and `HandlerNames` agree.
   */
  lemma HandlerNamesAgree(c: Inbound)
    ensures c.Name() in HandlerNames <==> !c.Unknown?
  {
  }

  /**
   * Methods every plain object inherits from `Object.prototype` that return
   * normally when called with one object argument. `handlers[name](obj)`
   * finds them although they are not handlers.
   */
  const InheritedQuiet: set<string> := {
    "constructor", "hasOwnProperty", "isPrototypeOf", "propertyIsEnumerable",
    "toString", "toLocaleString", "valueOf", "__lookupGetter__", "__lookupSetter__"
  }

  /** What calling `handlers[name](obj)` throws when `name` is neither a handler nor in `InheritedQuiet`. */
  function NotAHandler(name: string): Failure
  {
    if name == "__defineGetter__" || name == "__defineSetter__" then
      OtherError("TypeError", "Object.prototype." + name + ": Expecting function")
    else
      OtherError("TypeError", "handlers[obj.command] is not a function")
  }

  /** The serialisable error object posted in place of a thrown error. */
  datatype ErrorRecord = ErrorRecord(code: string, name: string, message: string, lastCommandObject: Command)

  /** An outbound message `{command, id, ...}` passed to `postMessage`. */
  datatype Msg =
    | PageText(id: Id, text: string)
    | PageImageDataWithDpi(id: Id, buffer: Bytes, width: int, height: int, dpi: int)
    | PageCount(id: Id, pageNumber: nat)
    | DocumentMetaData(id: Id, str: string)
    | MultiPageDocumentStarted(id: Id)
    | PageAdded(id: Id)
    | MultiPageDocumentEnded(id: Id, buffer: Bytes)
    | DocumentFromPictures(id: Id, buffer: Bytes)
    | Sliced(id: Id, buffer: Bytes)
    | DocumentCreated(id: Id, pagenumber: nat)
    | Process(percent: int)
    | Error(id: Id, error: ErrorRecord)
  {
    /** The message's `command` property. */
    function Name(): string
    {
      match this
      case PageText(_, _) => "getPageText"
      case PageImageDataWithDpi(_, _, _, _, _) => "getPageImageDataWithDpi"
      case PageCount(_, _) => "getPageCount"
      case DocumentMetaData(_, _) => "getDocumentMetaData"
      case MultiPageDocumentStarted(_) => "startMultiPageDocument"
      case PageAdded(_) => "addPageToDocument"
      case MultiPageDocumentEnded(_, _) => "endMultiPageDocument"
      case DocumentFromPictures(_, _) => "createDocumentFromPictures"
      case Sliced(_, _) => "slice"
      case DocumentCreated(_, _) => "createDocument"
      case Process(_) => "Process"
      case Error(_, _) => "Error"
    }
  }
}
