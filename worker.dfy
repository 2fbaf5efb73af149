/**
 * The worker script as an object: the two module-level variables it keeps
 * between messages, the stream of messages it has posted, one method per
 * entry of the `handlers` table, and `OnMessage`, the single error boundary.
 * Each method is proved against the handler's function in `Semantics`.
 */
module Worker {
  import opened Wrappers
  import opened Protocol
  import Semantics

  /** Builds the `ImageData` array of `createDocumentFromPictures`, one slot at a time. */
  method ImageArray(sims: seq<SimpleImage>) returns (images: seq<ImageData>)
    ensures |images| == |sims|
    ensures forall i :: 0 <= i < |sims| ==> images[i] == ImageOf(sims[i])
  {
    var imageArray := new ImageData[|sims|];
    for i := 0 to |sims|
      invariant forall k :: 0 <= k < i ==> imageArray[k] == ImageOf(sims[k])
    {
      imageArray[i] := ImageOf(sims[i]);
    }
    images := imageArray[..];
  }

  class DjVuWorker {
    /** The document decoder and image writer the handlers call into. */
    const codec: Codec
    /** `djvuDocument`: the loaded document, if any. */
    var doc: Option<Document>
    /** `iwiw`: the writer of the current multi-page session, if any. */
    var writer: Option<Writer>
    /** Every message passed to `postMessage`, oldest first. */
    var outbox: seq<Msg>

    function State(): Semantics.Slots
      reads this
    {
      Semantics.Slots(doc, writer)
    }

    constructor (codec: Codec)
      ensures this.codec == codec
      ensures doc == None && writer == None && outbox == []
    {
      this.codec := codec;
      doc, writer, outbox := None, None, [];
    }

    method Post(m: Msg)
      modifies this`outbox
      ensures outbox == old(outbox) + [m]
    {
      outbox := outbox + [m];
    }

    /** `onmessage`: the one place where a thrown failure becomes an Error message. */
    method OnMessage(c: Inbound)
      modifies this
      ensures State() == Semantics.Handle(codec, old(State()), c).after
      ensures outbox == old(outbox) + Semantics.Handle(codec, old(State()), c).posted
    {
      var thrown := Invoke(c);
      if thrown.Some? {
        var errorObj := Semantics.Marshal(thrown.value, c);
        Post(Error(c.id, errorObj));
      }
    }

    /** `handlers[obj.command](obj)`: returns what the handler threw, if anything. */
    method Invoke(c: Inbound) returns (thrown: Option<Failure>)
      modifies this
      ensures State() == Semantics.Run(codec, old(State()), c).after
      ensures outbox == old(outbox) + Semantics.Run(codec, old(State()), c).posted
      ensures thrown == Semantics.Run(codec, old(State()), c).thrown
    {
      match c
      case GetPageText(_, _) => thrown := HandleGetPageText(c);
      case GetPageImageDataWithDpi(_, _, _) => thrown := HandleGetPageImageDataWithDpi(c);
      case GetPageCount(_) => thrown := HandleGetPageCount(c);
      case GetDocumentMetaData(_, _) => thrown := HandleGetDocumentMetaData(c);
      case StartMultiPageDocument(_, _) => thrown := HandleStartMultiPageDocument(c);
      case AddPageToDocument(_, _) => thrown := HandleAddPageToDocument(c);
      case EndMultiPageDocument(_) => thrown := HandleEndMultiPageDocument(c);
      case CreateDocumentFromPictures(_, _, _) => thrown := HandleCreateDocumentFromPictures(c);
      case Slice(_, _, _) => thrown := HandleSlice(c);
      case CreateDocument(_, _) => thrown := HandleCreateDocument(c);
      case ReloadDocument(_) => thrown := HandleReloadDocument(c);
      case Unknown(_, name) =>
        thrown := if name in InheritedQuiet then None else Some(NotAHandler(name));
    }

    method HandleGetPageText(c: Command) returns (thrown: Option<Failure>)
      requires c.GetPageText?
      modifies this`outbox
      ensures outbox == old(outbox) + Semantics.RunGetPageText(codec, old(State()), c).posted
      ensures thrown == None
    {
      // The executor of a Promise: its failure rejects the promise and is not rethrown.
      thrown := None;
      if doc.None? {
        return;
      }
      var page := codec.getPage(doc.value, c.pagenumber);
      if page.Failure? {
        return;
      }
      var text := codec.getText(page.value);
      if text.Success? {
        Post(PageText(c.id, text.value));
      }
    }

    method HandleGetPageImageDataWithDpi(c: Command) returns (thrown: Option<Failure>)
      requires c.GetPageImageDataWithDpi?
      modifies this`outbox
      ensures outbox == old(outbox) + Semantics.RunGetPageImageDataWithDpi(codec, old(State()), c).posted
      ensures thrown == Semantics.RunGetPageImageDataWithDpi(codec, old(State()), c).thrown
    {
      if doc.None? {
        return Some(ReadOfUndefined("getPage"));
      }
      var page := codec.getPage(doc.value, c.pagenumber);
      if page.Failure? {
        return Some(page.error);
      }
      var imageData := codec.getImageData(page.value, c.onlyFirstBgChunk);
      if imageData.Failure? {
        return Some(imageData.error);
      }
      var dpi := codec.getDpi(page.value);
      if dpi.Failure? {
        return Some(dpi.error);
      }
      var image := imageData.value;
      Post(PageImageDataWithDpi(c.id, image.data, image.width, image.height, dpi.value));
      thrown := None;
    }

    method HandleGetPageCount(c: Command) returns (thrown: Option<Failure>)
      requires c.GetPageCount?
      modifies this`outbox
      ensures outbox == old(outbox) + Semantics.RunGetPageCount(codec, old(State()), c).posted
      ensures thrown == Semantics.RunGetPageCount(codec, old(State()), c).thrown
    {
      if doc.None? {
        return Some(ReadOfUndefined("pages"));
      }
      Post(PageCount(c.id, doc.value.pageCount));
      thrown := None;
    }

    method HandleGetDocumentMetaData(c: Command) returns (thrown: Option<Failure>)
      requires c.GetDocumentMetaData?
      modifies this`outbox
      ensures outbox == old(outbox) + Semantics.RunGetDocumentMetaData(codec, old(State()), c).posted
      ensures thrown == Semantics.RunGetDocumentMetaData(codec, old(State()), c).thrown
    {
      if doc.None? {
        return Some(ReadOfUndefined("toString"));
      }
      var str := codec.describe(doc.value, c.html);
      if str.Failure? {
        return Some(str.error);
      }
      Post(DocumentMetaData(c.id, str.value));
      thrown := None;
    }

    method HandleStartMultiPageDocument(c: Command) returns (thrown: Option<Failure>)
      requires c.StartMultiPageDocument?
      modifies this`writer, this`outbox
      ensures writer == Semantics.RunStartMultiPageDocument(codec, old(State()), c).after.writer
      ensures outbox == old(outbox) + Semantics.RunStartMultiPageDocument(codec, old(State()), c).posted
      ensures thrown == Semantics.RunStartMultiPageDocument(codec, old(State()), c).thrown
    {
      var created := codec.newWriter(c.settings);
      if created.Failure? {
        return Some(created.error);
      }
      writer := Some(created.value);
      var step := codec.start(writer.value);
      writer := Some(step.writer);
      if step.result.Failure? {
        return Some(step.result.error);
      }
      Post(MultiPageDocumentStarted(c.id));
      thrown := None;
    }

    method HandleAddPageToDocument(c: Command) returns (thrown: Option<Failure>)
      requires c.AddPageToDocument?
      modifies this`writer, this`outbox
      ensures writer == Semantics.RunAddPageToDocument(codec, old(State()), c).after.writer
      ensures outbox == old(outbox) + Semantics.RunAddPageToDocument(codec, old(State()), c).posted
      ensures thrown == Semantics.RunAddPageToDocument(codec, old(State()), c).thrown
    {
      var imageData := ImageOf(c.simpleImage);
      if writer.None? {
        return Some(ReadOfUndefined("addPageToDocument"));
      }
      var step := codec.addPage(writer.value, imageData);
      writer := Some(step.writer);
      if step.result.Failure? {
        return Some(step.result.error);
      }
      Post(PageAdded(c.id));
      thrown := None;
    }

    method HandleEndMultiPageDocument(c: Command) returns (thrown: Option<Failure>)
      requires c.EndMultiPageDocument?
      modifies this`writer, this`outbox
      ensures writer == Semantics.RunEndMultiPageDocument(codec, old(State()), c).after.writer
      ensures outbox == old(outbox) + Semantics.RunEndMultiPageDocument(codec, old(State()), c).posted
      ensures thrown == Semantics.RunEndMultiPageDocument(codec, old(State()), c).thrown
    {
      if writer.None? {
        return Some(ReadOfUndefined("endMultiPageDocument"));
      }
      var step := codec.finish(writer.value);
      writer := Some(step.writer);
      if step.result.Failure? {
        return Some(step.result.error);
      }
      Post(MultiPageDocumentEnded(c.id, step.result.value));
      thrown := None;
    }

    method HandleCreateDocumentFromPictures(c: Command) returns (thrown: Option<Failure>)
      requires c.CreateDocumentFromPictures?
      modifies this`outbox
      ensures outbox == old(outbox) + Semantics.RunCreateDocumentFromPictures(codec, old(State()), c).posted
      ensures thrown == Semantics.RunCreateDocumentFromPictures(codec, old(State()), c).thrown
    {
      var imageArray := ImageArray(c.images);
      assert imageArray == Semantics.ImagesOf(c.images);
      var iw := codec.newWriter(c.settings);
      if iw.Failure? {
        return Some(iw.error);
      }
      // The `onprocess` callback posts each progress report while the build runs.
      var build := codec.buildAll(iw.value, imageArray);
      outbox := outbox + Semantics.ProgressMessages(build.percents);
      if build.result.Failure? {
        return Some(build.result.error);
      }
      Post(DocumentFromPictures(c.id, build.result.value));
      thrown := None;
    }

    method HandleSlice(c: Command) returns (thrown: Option<Failure>)
      requires c.Slice?
      modifies this`outbox
      ensures outbox == old(outbox) + Semantics.RunSlice(codec, old(State()), c).posted
      ensures thrown == Semantics.RunSlice(codec, old(State()), c).thrown
    {
      if doc.None? {
        return Some(ReadOfUndefined("slice"));
      }
      var ndoc := codec.slice(doc.value, c.from, c.to);
      if ndoc.Failure? {
        return Some(ndoc.error);
      }
      Post(Sliced(c.id, ndoc.value));
      thrown := None;
    }

    method HandleCreateDocument(c: Command) returns (thrown: Option<Failure>)
      requires c.CreateDocument?
      modifies this`doc, this`outbox
      ensures doc == Semantics.RunCreateDocument(codec, old(State()), c).after.doc
      ensures outbox == old(outbox) + Semantics.RunCreateDocument(codec, old(State()), c).posted
      ensures thrown == Semantics.RunCreateDocument(codec, old(State()), c).thrown
    {
      var loaded := codec.load(c.buffer);
      if loaded.Failure? {
        return Some(loaded.error);
      }
      doc := Some(loaded.value);
      Post(DocumentCreated(c.id, doc.value.pageCount));
      thrown := None;
    }

    method HandleReloadDocument(c: Command) returns (thrown: Option<Failure>)
      requires c.ReloadDocument?
      modifies this`doc
      ensures doc == Semantics.RunReloadDocument(codec, old(State()), c).after.doc
      ensures outbox == old(outbox) + Semantics.RunReloadDocument(codec, old(State()), c).posted
      ensures thrown == Semantics.RunReloadDocument(codec, old(State()), c).thrown
    {
      if doc.None? {
        return Some(ReadOfUndefined("buffer"));
      }
      var loaded := codec.load(doc.value.buffer);
      if loaded.Failure? {
        return Some(loaded.error);
      }
      doc := Some(loaded.value);
      thrown := None;
    }
  }
}
