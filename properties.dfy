/**
 * What the dispatcher and the handler table promise, stated over the
 * semantics of one message (`Handle`) and of a run of messages (`Trace`).
 */
module Properties {
  import opened Wrappers
  import opened Protocol
  import opened Semantics

  /** The messages tied to a command: everything except progress reports. */
  function Replies(ms: seq<Msg>): seq<Msg>
  {
    if ms == [] then []
    else (if ms[0].Process? then [] else [ms[0]]) + Replies(ms[1..])
  }

  /** The correlation ids carried by a stream of messages, in order. */
  function ReplyIds(ms: seq<Msg>): seq<Id>
  {
    if ms == [] then []
    else (if ms[0].Process? then [] else [ms[0].id]) + ReplyIds(ms[1..])
  }

  function Ids(cs: seq<Inbound>): seq<Id>
  {
    if cs == [] then [] else [cs[0].id] + Ids(cs[1..])
  }

  /** `a` can be obtained from `b` by deleting elements. */
  predicate IsSubsequence<T(==)>(a: seq<T>, b: seq<T>)
    decreases |b|
  {
    if a == [] then true
    else if b == [] then false
    else (a[0] == b[0] && IsSubsequence(a[1..], b[1..])) || IsSubsequence(a, b[1..])
  }

  /**
   * The commands that end without any reply: `getPageText` whose work failed
   * inside its Promise, `reloadDocument` that succeeded, and an inherited
   * `Object.prototype` method called as a handler.
   */
  predicate Silent(codec: Codec, s: Slots, c: Inbound)
  {
    match c
    case GetPageText(_, n) => PageTextOf(codec, s.doc, n).Failure?
    case ReloadDocument(_) => s.doc.Some? && codec.load(s.doc.value.buffer).Success?
    case Unknown(_, name) => name in InheritedQuiet
    case _ => false
  }

  lemma {:induction false} RepliesAppend(a: seq<Msg>, b: seq<Msg>)
    ensures Replies(a + b) == Replies(a) + Replies(b)
    ensures ReplyIds(a + b) == ReplyIds(a) + ReplyIds(b)
  {
    if a != [] {
      RepliesAppend(a[1..], b);
      assert (a + b)[0] == a[0];
      assert (a + b)[1..] == a[1..] + b;
    } else {
      assert a + b == b;
    }
  }

  lemma {:induction false} ProgressHasNoReplies(percents: seq<int>)
    ensures Replies(ProgressMessages(percents)) == []
    ensures ReplyIds(ProgressMessages(percents)) == []
  {
    if percents != [] {
      ProgressHasNoReplies(percents[1..]);
      assert ProgressMessages(percents)[1..] == ProgressMessages(percents[1..]);
    }
  }

  /** A handler posts only its own replies and progress reports: Error messages come from the dispatcher. */
  lemma HandlersPostNoError(codec: Codec, s: Slots, c: Inbound)
    ensures forall m :: m in Run(codec, s, c).posted ==> !m.Error?
    ensures forall m :: m in Run(codec, s, c).posted ==> m.Process? || m.Name() == c.Name()
    ensures forall m :: m in Run(codec, s, c).posted && m.Process? ==> c.CreateDocumentFromPictures?
  {
  }

  /**
   * Every message posted for a command other than a progress report carries
   * the command's id, and a success reply carries the command's name.
   */
  lemma RepliesEchoId(codec: Codec, s: Slots, c: Inbound)
    ensures var posted := Handle(codec, s, c).posted;
      && (forall m :: m in posted && !m.Process? ==> m.id == c.id)
      && (forall m :: m in posted && !m.Process? && !m.Error? ==> m.Name() == c.Name())
      && (forall m :: m in posted && m.Process? ==> c.CreateDocumentFromPictures?)
  {
    HandlersPostNoError(codec, s, c);
  }

  /**
   * A command gets exactly one reply unless it is silent, in which case it
   * posts nothing at all; any progress reports come before the reply.
   */
  lemma OneTerminalReply(codec: Codec, s: Slots, c: Inbound)
    ensures var posted := Handle(codec, s, c).posted;
      && |Replies(posted)| == (if Silent(codec, s, c) then 0 else 1)
      && (Silent(codec, s, c) ==> posted == [])
      && (forall i :: 0 <= i < |posted| - 1 ==> posted[i].Process?)
  {
    var posted := Handle(codec, s, c).posted;
    if c.CreateDocumentFromPictures? && codec.newWriter(c.settings).Success? {
      var build := codec.buildAll(codec.newWriter(c.settings).value, ImagesOf(c.images));
      var progress := ProgressMessages(build.percents);
      ProgressHasNoReplies(build.percents);
      assert posted == progress + [posted[|posted| - 1]];
      RepliesAppend(progress, [posted[|posted| - 1]]);
    }
  }

  /**
   * An Error message is posted exactly when the handler threw; it is the
   * last message, echoes the id, holds the inbound message as
   * `lastCommandObject`, forwards a `DjVuError`'s own code, name and message,
   * and gives any other failure the code `UNEXPECTED_ERROR`.
   */
  lemma ErrorReplyShape(codec: Codec, s: Slots, c: Inbound)
    ensures var posted := Handle(codec, s, c).posted;
      Run(codec, s, c).thrown.Some? <==> (exists m :: m in posted && m.Error?)
    ensures var posted := Handle(codec, s, c).posted;
      forall i :: 0 <= i < |posted| && posted[i].Error? ==>
        var f := Run(codec, s, c).thrown.value;
        && i == |posted| - 1
        && posted[i].id == c.id
        && posted[i].error.lastCommandObject == c
        && posted[i].error.name == f.name
        && posted[i].error.message == f.message
        && posted[i].error.code == (if f.DjVuError? then f.code else UNEXPECTED_ERROR)
  {
    HandlersPostNoError(codec, s, c);
    var o := Run(codec, s, c);
    var posted := Handle(codec, s, c).posted;
    if o.thrown.Some? {
      assert posted[|posted| - 1] in posted;
    } else {
      assert posted == o.posted;
    }
  }

  /**
   * A command name that is not a handler throws a `TypeError` at the lookup:
   * one Error message with code `UNEXPECTED_ERROR`, and neither slot changes.
   * A name inherited from `Object.prototype` returns normally and posts nothing.
   */
  lemma UnknownCommand(codec: Codec, s: Slots, c: Inbound)
    requires c.Unknown?
    ensures var e := Handle(codec, s, c);
      && e.after == s
      && e.posted ==
         if c.command in InheritedQuiet then []
         else [Error(c.id, ErrorRecord(UNEXPECTED_ERROR, "TypeError", NotAHandler(c.command).message, c))]
  {
  }

  /** Only `createDocument` and `reloadDocument` replace the document; only the writer handlers touch `iwiw`. */
  lemma SlotFrame(codec: Codec, s: Slots, c: Inbound)
    ensures var after := Handle(codec, s, c).after;
      && (after.doc != s.doc ==> c.CreateDocument? || c.ReloadDocument?)
      && (after.writer != s.writer ==>
            c.StartMultiPageDocument? || c.AddPageToDocument? || c.EndMultiPageDocument?)
  {
  }

  /**
   * `createDocument` replaces the document and reports its page count, or,
   * when the constructor throws, keeps the old document.
   */
  lemma CreateDocumentEffect(codec: Codec, s: Slots, c: Inbound)
    requires c.CreateDocument?
    ensures codec.load(c.buffer).Success? ==>
      var d := codec.load(c.buffer).value;
      Handle(codec, s, c) == Effect(s.(doc := Some(d)), [DocumentCreated(c.id, d.pageCount)])
    ensures codec.load(c.buffer).Failure? ==>
      Handle(codec, s, c) == Effect(s, [Error(c.id, Marshal(codec.load(c.buffer).error, c))])
  {
  }

  /** `reloadDocument` rebuilds from the current document's buffer and posts nothing when that works. */
  lemma ReloadDocumentEffect(codec: Codec, s: Slots, c: Inbound)
    requires c.ReloadDocument?
    ensures s.doc.None? ==>
      Handle(codec, s, c) == Effect(s, [Error(c.id, ErrorRecord(UNEXPECTED_ERROR, "TypeError", ReadOfUndefined("buffer").message, c))])
    ensures s.doc.Some? && codec.load(s.doc.value.buffer).Success? ==>
      Handle(codec, s, c) == Effect(s.(doc := Some(codec.load(s.doc.value.buffer).value)), [])
    ensures s.doc.Some? && codec.load(s.doc.value.buffer).Failure? ==>
      Handle(codec, s, c) == Effect(s, [Error(c.id, Marshal(codec.load(s.doc.value.buffer).error, c))])
  {
  }

  /**
   * `startMultiPageDocument` stores the new writer before starting it: when
   * construction throws the old writer stays, and when the start throws the
   * new writer is installed all the same and an Error replaces the acknowledgement.
   */
  lemma StartInstallsWriterFirst(codec: Codec, s: Slots, c: Inbound)
    requires c.StartMultiPageDocument?
    ensures codec.newWriter(c.settings).Failure? ==>
      Handle(codec, s, c) == Effect(s, [Error(c.id, Marshal(codec.newWriter(c.settings).error, c))])
    ensures codec.newWriter(c.settings).Success? ==>
      var step := codec.start(codec.newWriter(c.settings).value);
      var e := Handle(codec, s, c);
      && e.after == s.(writer := Some(step.writer))
      && e.posted ==
         if step.result.Success? then [MultiPageDocumentStarted(c.id)]
         else [Error(c.id, Marshal(step.result.error, c))]
  {
  }

  /** Adding a page or ending the document with no writer dereferences `undefined`. */
  lemma NoWriterSession(codec: Codec, s: Slots, c: Inbound)
    requires c.AddPageToDocument? || c.EndMultiPageDocument?
    requires s.writer.None?
    ensures var e := Handle(codec, s, c);
      && e.after == s
      && |e.posted| == 1
      && e.posted[0].Error?
      && e.posted[0].error.code == UNEXPECTED_ERROR
      && e.posted[0].error.name == "TypeError"
  {
  }

  /** `endMultiPageDocument` never empties the writer slot, whether it succeeds or throws. */
  lemma EndKeepsWriter(codec: Codec, s: Slots, c: Inbound)
    requires c.EndMultiPageDocument?
    requires s.writer.Some?
    ensures var after := Handle(codec, s, c).after;
      && after == s.(writer := Some(codec.finish(s.writer.value).writer))
      && after.writer.Some?
  {
  }

  /**
   * So a page added after the end of a session goes to the finished writer,
   * not to a `TypeError`: whether it fails is up to the writer.
   */
  lemma {:induction false} AddAfterEndReachesWriter(codec: Codec, w: Writer, doc: Option<Document>, end: Id, add: Id, image: SimpleImage)
    ensures
      var s := Slots(doc, Some(w));
      var finished := codec.finish(w).writer;
      var step := codec.addPage(finished, ImageOf(image));
      && Trace(codec, s, [EndMultiPageDocument(end), AddPageToDocument(add, image)]).after == Slots(doc, Some(step.writer))
      && Trace(codec, s, [EndMultiPageDocument(end), AddPageToDocument(add, image)]).posted ==
         Handle(codec, s, EndMultiPageDocument(end)).posted +
         (if step.result.Success? then [PageAdded(add)]
          else [Error(add, Marshal(step.result.error, AddPageToDocument(add, image)))])
  {
    var s := Slots(doc, Some(w));
    var cs: seq<Inbound> := [EndMultiPageDocument(end), AddPageToDocument(add, image)];
    var first := Handle(codec, s, cs[0]);
    assert first.after == Slots(doc, Some(codec.finish(w).writer));
    var second := Handle(codec, first.after, cs[1]);
    assert cs[1..] == [AddPageToDocument(add, image)];
    assert Trace(codec, second.after, cs[1..][1..]) == Effect(second.after, []);
  }

  /**
   * With no document, `getPageText` fails inside its Promise and posts
   * nothing, while `getPageImageDataWithDpi` fails at the error boundary
   * and posts one Error; neither changes any state.
   */
  lemma PageTextGap(codec: Codec, s: Slots, id: Id, n: int, onlyFirstBgChunk: bool)
    requires s.doc.None?
    ensures Handle(codec, s, GetPageText(id, n)) == Effect(s, [])
    ensures Handle(codec, s, GetPageImageDataWithDpi(id, n, onlyFirstBgChunk)) ==
      Effect(s, [Error(id, ErrorRecord(UNEXPECTED_ERROR, "TypeError", ReadOfUndefined("getPage").message,
                                       GetPageImageDataWithDpi(id, n, onlyFirstBgChunk)))])
  {
  }

  /**
   * The same holds for any failure on the way to the page: a text request
   * is dropped, an image request is answered with the failure.
   */
  lemma PageFailures(codec: Codec, s: Slots, id: Id, n: int, onlyFirstBgChunk: bool)
    ensures PageTextOf(codec, s.doc, n).Failure? <==> Handle(codec, s, GetPageText(id, n)).posted == []
    ensures PageImageOf(codec, s.doc, n, onlyFirstBgChunk).Failure? ==>
      var c := GetPageImageDataWithDpi(id, n, onlyFirstBgChunk);
      Handle(codec, s, c).posted == [Error(id, Marshal(PageImageOf(codec, s.doc, n, onlyFirstBgChunk).error, c))]
    ensures Handle(codec, s, GetPageText(id, n)).after == s
    ensures Handle(codec, s, GetPageImageDataWithDpi(id, n, onlyFirstBgChunk)).after == s
  {
  }

  /**
   * `createDocumentFromPictures` neither reads nor writes the slots: what it
   * posts is the same whatever document or writer session exists.
   */
  lemma PicturesIgnoreSlots(codec: Codec, s: Slots, t: Slots, c: Inbound)
    requires c.CreateDocumentFromPictures?
    ensures Handle(codec, s, c).after == s
    ensures Handle(codec, s, c).posted == Handle(codec, t, c).posted
  {
  }

  /** The build sees the host's pictures one for one, and its progress reports precede the reply. */
  lemma PicturesBuild(codec: Codec, s: Slots, c: Inbound, w: Writer)
    requires c.CreateDocumentFromPictures?
    requires codec.newWriter(c.settings) == Success(w)
    ensures var images := ImagesOf(c.images);
      && |images| == |c.images|
      && (forall i :: 0 <= i < |images| ==> images[i] == ImageOf(c.images[i]))
    ensures var build := codec.buildAll(w, ImagesOf(c.images));
      Handle(codec, s, c).posted ==
        ProgressMessages(build.percents) +
        [if build.result.Success? then DocumentFromPictures(c.id, build.result.value)
         else Error(c.id, Marshal(build.result.error, c))]
  {
  }

  lemma {:induction false} SubsequenceExtend<T>(a: seq<T>, b: seq<T>, x: T)
    requires IsSubsequence(a, b)
    ensures IsSubsequence(a, [x] + b)
    ensures IsSubsequence([x] + a, [x] + b)
  {
    assert ([x] + b)[1..] == b;
    assert ([x] + a)[1..] == a;
  }

  /**
   * Messages are answered in arrival order: the ids of all replies posted
   * over a run of messages form a subsequence of the messages' ids, and
   * there are no more replies than messages.
   */
  lemma {:induction false} TraceRepliesInOrder(codec: Codec, s: Slots, cs: seq<Inbound>)
    ensures IsSubsequence(ReplyIds(Trace(codec, s, cs).posted), Ids(cs))
    ensures |ReplyIds(Trace(codec, s, cs).posted)| <= |cs|
    decreases |cs|
  {
    if cs != [] {
      var first := Handle(codec, s, cs[0]);
      var rest := Trace(codec, first.after, cs[1..]);
      TraceRepliesInOrder(codec, first.after, cs[1..]);
      RepliesAppend(first.posted, rest.posted);
      ReplyIdsOfOne(codec, s, cs[0]);
      SubsequenceExtend(ReplyIds(rest.posted), Ids(cs[1..]), cs[0].id);
      assert Ids(cs) == [cs[0].id] + Ids(cs[1..]);
      if Silent(codec, s, cs[0]) {
        assert ReplyIds(Trace(codec, s, cs).posted) == ReplyIds(rest.posted);
      } else {
        assert ReplyIds(Trace(codec, s, cs).posted) == [cs[0].id] + ReplyIds(rest.posted);
      }
    }
  }

  /** One message yields either no reply id or exactly its own. */
  lemma ReplyIdsOfOne(codec: Codec, s: Slots, c: Inbound)
    ensures ReplyIds(Handle(codec, s, c).posted) == if Silent(codec, s, c) then [] else [c.id]
  {
    var posted := Handle(codec, s, c).posted;
    OneTerminalReply(codec, s, c);
    RepliesEchoId(codec, s, c);
    RepliesAreIds(posted);
    if !Silent(codec, s, c) {
      assert Replies(posted)[0] in Replies(posted);
      ReplyInPosted(posted, Replies(posted)[0]);
    }
  }

  /**
   * The ids answered over a run of messages: each message in turn
   * contributes its own id unless it is silent in the state it meets.
   */
  function AnsweredIds(codec: Codec, s: Slots, cs: seq<Inbound>): seq<Id>
    decreases |cs|
  {
    if cs == [] then []
    else
      (if Silent(codec, s, cs[0]) then [] else [cs[0].id]) +
      AnsweredIds(codec, Handle(codec, s, cs[0]).after, cs[1..])
  }

  /**
   * The replies posted over a run of messages are, in order, one per
   * non-silent message and none for a silent one; so no message gets two
   * replies, whatever ids the messages carry.
   */
  lemma {:induction false} TraceAnswersEachOnce(codec: Codec, s: Slots, cs: seq<Inbound>)
    ensures ReplyIds(Trace(codec, s, cs).posted) == AnsweredIds(codec, s, cs)
    decreases |cs|
  {
    if cs != [] {
      var first := Handle(codec, s, cs[0]);
      var rest := Trace(codec, first.after, cs[1..]);
      TraceAnswersEachOnce(codec, first.after, cs[1..]);
      RepliesAppend(first.posted, rest.posted);
      ReplyIdsOfOne(codec, s, cs[0]);
    }
  }

  lemma {:induction false} RepliesAreIds(ms: seq<Msg>)
    ensures |ReplyIds(ms)| == |Replies(ms)|
    ensures forall m :: m in Replies(ms) ==> !m.Process?
    ensures forall i :: 0 <= i < |Replies(ms)| ==> !Replies(ms)[i].Process? && ReplyIds(ms)[i] == Replies(ms)[i].id
  {
    if ms != [] {
      RepliesAreIds(ms[1..]);
    }
  }

  lemma {:induction false} ReplyInPosted(ms: seq<Msg>, m: Msg)
    requires m in Replies(ms)
    ensures m in ms
  {
    if ms[0] != m {
      ReplyInPosted(ms[1..], m);
    }
  }

  /** `createDocument` followed by `getPageCount` reports the decoder's page count twice. */
  lemma {:induction false} CreateThenCount(codec: Codec, s: Slots, create: Id, count: Id, buffer: Bytes)
    requires codec.load(buffer).Success?
    ensures var n := codec.load(buffer).value.pageCount;
      Trace(codec, s, [CreateDocument(create, buffer), GetPageCount(count)]).posted ==
        [DocumentCreated(create, n), PageCount(count, n)]
  {
    var cs: seq<Inbound> := [CreateDocument(create, buffer), GetPageCount(count)];
    var first := Handle(codec, s, cs[0]);
    var second := Handle(codec, first.after, cs[1]);
    assert cs[1..] == [GetPageCount(count)];
    assert Trace(codec, second.after, cs[1..][1..]) == Effect(second.after, []);
  }
}
