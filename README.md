# DjVu worker command dispatcher

A model of the background-thread script of the djvu.js library
(`library/src/DjVuWorkerScript.js`). The worker keeps two pieces of state
between messages, the loaded document (`djvuDocument`) and the writer of the
current multi-page session (`iwiw`), and answers each inbound command message
`{command, id, ...}` by looking the command name up in its `handlers` table,
running the handler, and posting replies through `postMessage`. A single
`try`/`catch` around the handler turns any thrown error into one serialisable
`{command: 'Error', id, error}` message.

The document decoder (`DjVuDocument`) and the IW44 encoder (`IWImageWriter`)
are outside the model. They appear as a `Codec` value: a table of total
functions, one per call the worker makes. Each function returns a value or a
failure, and a failure is either a `DjVuError` or any other error. A call on a
writer also returns the writer's new state, because writers are mutable and a
call that throws may still have changed them.

Files:
- `wrappers.dfy`: `Option` and `Result`.
- `protocol.dfy`: commands, outbound messages, error records, the codec interface, and the `TypeError`s the engine raises.
- `semantics.dfy`: one function per handler (`RunGetPageText`, ...), `Marshal` (the catch block's error object), the dispatcher `Handle`, and `Trace` for a run of messages.
- `worker.dfy`: class `DjVuWorker` with fields `doc`, `writer` and `outbox`, `Post` (an append to `outbox`, standing for `postMessage`), one method per handler, and `OnMessage`. Each method is proved against its function in `semantics.dfy`.
- `properties.dfy`: lemmas about `Handle` and `Trace`.

Where the code departs from the protocol it appears to intend, the model
follows the code:
- `getPageText` does its work inside a `Promise` executor. A failure there rejects a promise nobody observes, so no reply and no Error is posted.
- `startMultiPageDocument` stores the new writer in `iwiw` before starting it. A failed start therefore leaves the new writer installed.
- `endMultiPageDocument` never clears `iwiw`. A later `addPageToDocument` goes to the finished writer rather than failing with a `TypeError`.
- The lookup `handlers[obj.command]` also finds the methods every object inherits from `Object.prototype`. Names such as `toString`, `valueOf` or `hasOwnProperty` run without throwing and post nothing. Every other unknown name throws a `TypeError`, which is reported with code `UNEXPECTED_ERROR`.

## Model

| member | source | states |
|---|---|---|
| Worker.DjVuWorker.constructor | library/src/DjVuWorkerScript.js:10-13 | a fresh worker has no document, no writer session and has posted nothing |
| Worker.DjVuWorker.OnMessage | library/src/DjVuWorkerScript.js:16-34 | the new slots and the posted messages are exactly those of `Handle`: the handler's effect, followed by one Error message when the handler threw, built by `Semantics.Marshal` and appended by `Post` (`postMessage`) |
| Protocol.HandlerNamesAgree | library/src/DjVuWorkerScript.js:37-124 | a message's name is one of the handler table's own properties exactly when it is a handler variant |
| Worker.DjVuWorker.Invoke | library/src/DjVuWorkerScript.js:19 | calling the handler named by the message changes the slots and the outbox as `Run` says and returns what it threw |
| Worker.DjVuWorker.HandleGetPageText | library/src/DjVuWorkerScript.js:39-49 | never throws; posts the page text only when the whole lookup succeeds, and nothing otherwise |
| Worker.DjVuWorker.HandleGetPageImageDataWithDpi | library/src/DjVuWorkerScript.js:51-64 | posts buffer, width, height and dpi of the page, or throws the first failure among the page, its image and its dpi |
| Worker.DjVuWorker.HandleGetPageCount | library/src/DjVuWorkerScript.js:66-72 | posts the document's page count, or throws a `TypeError` when there is no document |
| Worker.DjVuWorker.HandleGetDocumentMetaData | library/src/DjVuWorkerScript.js:74-77 | posts the document's description, or throws |
| Worker.DjVuWorker.HandleStartMultiPageDocument | library/src/DjVuWorkerScript.js:79-83 | the writer slot ends up holding the new writer whenever it was constructed, even if its start throws |
| Worker.DjVuWorker.HandleAddPageToDocument | library/src/DjVuWorkerScript.js:85-89 | hands the page to the current writer and acknowledges, or throws |
| Worker.DjVuWorker.HandleEndMultiPageDocument | library/src/DjVuWorkerScript.js:91-94 | posts the finished buffer and keeps the writer in its slot |
| Worker.DjVuWorker.HandleCreateDocumentFromPictures | library/src/DjVuWorkerScript.js:96-109 | posts the progress reports and then the built document, using a local writer |
| Worker.DjVuWorker.HandleSlice | library/src/DjVuWorkerScript.js:111-114 | posts the sliced document's buffer, or throws |
| Worker.DjVuWorker.HandleCreateDocument | library/src/DjVuWorkerScript.js:116-119 | replaces the document only when construction succeeds and reports its page count |
| Worker.DjVuWorker.HandleReloadDocument | library/src/DjVuWorkerScript.js:121-123 | rebuilds the document from its own buffer and posts nothing |
| Worker.ImageArray | library/src/DjVuWorkerScript.js:97-102 | builds exactly one `ImageData` per host picture, image i from picture i |
| Properties.HandlersPostNoError | library/src/DjVuWorkerScript.js:37-124 | handlers post no Error messages; every message they post is a progress report or carries the command's own name; only `createDocumentFromPictures` posts progress reports |
| Properties.RepliesEchoId | library/src/DjVuWorkerScript.js:16-118 | every posted message except a `Process` report carries the command's id; success replies carry the command's name |
| Properties.OneTerminalReply | library/src/DjVuWorkerScript.js:16-123 | a command gets exactly one reply unless it is silent (failed `getPageText`, successful `reloadDocument`, an inherited name), and then it posts nothing; progress reports come before the reply |
| Properties.ErrorReplyShape | library/src/DjVuWorkerScript.js:20-33 | the record built by `Semantics.Marshal` (the catch block's error object): an Error is posted if and only if the handler threw; it is the last message, echoes the id, has the inbound message as `lastCommandObject`, keeps a `DjVuError`'s code and gives other failures `UNEXPECTED_ERROR` with their name and message |
| Properties.UnknownCommand | library/src/DjVuWorkerScript.js:19-33 | an unknown name leaves both slots unchanged and posts exactly one `UNEXPECTED_ERROR` `TypeError`, unless it names an inherited method that returns normally, which posts nothing |
| Properties.SlotFrame | library/src/DjVuWorkerScript.js:37-124 | only `createDocument` and `reloadDocument` change the document slot; only the three writer handlers change the writer slot |
| Properties.CreateDocumentEffect | library/src/DjVuWorkerScript.js:116-119 | success replaces the document and reports its page count; a throwing constructor keeps the old document and posts one Error |
| Properties.ReloadDocumentEffect | library/src/DjVuWorkerScript.js:121-123 | with no document, a `TypeError`; otherwise the document is rebuilt from its own buffer with no reply, or kept when rebuilding throws |
| Properties.StartInstallsWriterFirst | library/src/DjVuWorkerScript.js:79-83 | a throwing constructor keeps the old writer; otherwise the new writer is installed and the reply is the acknowledgement or, if the start threw, an Error |
| Properties.NoWriterSession | library/src/DjVuWorkerScript.js:85-94 | adding a page or ending with no writer posts one `UNEXPECTED_ERROR` `TypeError` and changes nothing |
| Properties.EndKeepsWriter | library/src/DjVuWorkerScript.js:91-94 | ending a session leaves the finished writer in the slot, whether or not finishing throws |
| Properties.AddAfterEndReachesWriter | library/src/DjVuWorkerScript.js:85-94 | a page added after the end of a session is passed to the finished writer; whether it fails is the writer's decision |
| Properties.PageTextGap | library/src/DjVuWorkerScript.js:39-64 | with no document, `getPageText` posts nothing and `getPageImageDataWithDpi` posts one `UNEXPECTED_ERROR` Error; neither changes state |
| Properties.PageFailures | library/src/DjVuWorkerScript.js:39-64 | `getPageText` posts nothing exactly when the text lookup fails; a failing image lookup is reported as one Error; neither handler changes state |
| Properties.PicturesIgnoreSlots | library/src/DjVuWorkerScript.js:96-109 | `createDocumentFromPictures` changes no slot, and what it posts does not depend on the slots |
| Properties.PicturesBuild | library/src/DjVuWorkerScript.js:96-109 | the build gets one image per picture, in order; the progress reports come first, then the document or one Error |
| Properties.TraceRepliesInOrder | library/src/DjVuWorkerScript.js:16-34 | over a run of messages, the reply ids form a subsequence of the message ids, and there are no more replies than messages |
| Properties.TraceAnswersEachOnce | library/src/DjVuWorkerScript.js:16-123 | over a run of messages, the reply ids are exactly the ids of the non-silent messages, in arrival order and once each, even when ids repeat |
| Properties.ReplyIdsOfOne | library/src/DjVuWorkerScript.js:16-123 | one message yields no reply id if it is silent and exactly its own id otherwise |
| Properties.CreateThenCount | library/src/DjVuWorkerScript.js:66-72 | `createDocument` followed by `getPageCount` reports the decoder's page count in both replies |

## Left out

- The internals of `DjVuDocument` and `IWImageWriter`: parsing, text extraction, slicing, metadata formatting, and IW44 compression with its progress percentages. `DjVuDocument.js`, `IWImageWriter.js` and `DjVuErrors.js` are not part of this model. Their operations are opaque, possibly failing functions. The model makes no claim about the page count of a slice, and none about whether the incremental and one-shot writers produce the same bytes.
- Document and page calls are modelled as pure functions of the document. Any lazy decoding or caching inside `DjVuDocument` is not modelled.
- Whether a second `endMultiPageDocument` fails depends on `IWImageWriter` and is left to the codec.
- The string value of `DjVuErrorCodes.UNEXPECTED_ERROR` is taken to be `"UNEXPECTED_ERROR"`. A `DjVuError` is forwarded with its code, name and message only; any other properties it carries are not modelled.
- The messages of engine-raised `TypeError`s use V8's wording. Other engines word them differently; their name, `TypeError`, is the same everywhere.
- Thrown values that are not error objects (a thrown string, `null`) and an inbound message that is not an object are not modelled. Neither is an `Object.prototype` extended by other scripts.
- Malformed messages are not modelled: a message that names a handler but lacks that handler's fields, or whose fields have the wrong type. Each handler's fields are typed, and an unknown-name message never carries a handler's name.
- Every numeric message and codec field is an unbounded integer: id, page number, from and to, width, height, dpi, slice number and progress percentage. JavaScript numbers are floating point, and `+obj.pagenumber` coerces strings; neither is modelled. The worker only forwards these values to the codec.
- `new ImageData(...)` is a total wrapper of buffer, width and height. The browser's check that the buffer length equals `4 * width * height` is not modelled.
- `postMessage` transport: structured cloning, the transfer lists that move buffer ownership, and cloning failures. A post is an append to `outbox`.
- Promise scheduling: the only modelled effect of the `getPageText` executor is that its failure is not reported. The unhandled-rejection event is not modelled.
- `viewer/src/components/Toolbar/CursorModeButtonGroup.jsx` is presentation code with no logic of its own and is not part of this model.
