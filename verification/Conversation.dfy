// How the parts fit: one upstream stream, answered as a stream or as one message, and
// fed back with the tool results as the next request's history.
module Conversation {
  import opened Wrappers
  import opened Json
  import opened Accumulator
  import opened AccumulatorProofs
  import EventStream
  import StreamProofs
  import opened Emitters
  import opened ChatWire
  import StreamSink
  import opened ToolHistory

  // The message of the answer that is not streamed.
  function Plain(a: Acc, calls: seq<ToolCall>): Reply {
    Reply(a.content, a.reasoning, calls)
  }

  lemma {:induction false} StartIsSilent(ds: seq<Delta>, model: string)
    ensures Rebuild([Start(model)] + ds) == Rebuild(ds)
  {
    var all := [Start(model)] + ds;
    if ds == [] {
      assert all[..0] == [];
    } else {
      assert all[..|all| - 1] == [Start(model)] + ds[..|ds| - 1];
      StartIsSilent(ds[..|ds| - 1], model);
    }
  }

  lemma DraftIsMessage(x: Session, lines: seq<string>, broken: bool, model: string)
    requires x.rt.Sound() && EventStream.Read(x, lines, broken).Ended?
    ensures var r := EventStream.Read(x, lines, broken);
            var h := Rebuild([Start(model)] + r.acc.emitted);
            Reply(h.text, h.reasoning, InOrder(h.calls)) == Plain(r.acc, r.calls)
  {
    var r := EventStream.Read(x, lines, broken);
    StreamProofs.ReadCompletes(x, lines, broken);
    StartIsSilent(r.acc.emitted, model);
    InOrderEnumerated(Enumerated(r.calls), r.calls);
  }

  // Streaming equals not streaming: for every upstream stream that succeeds, the client
  // that reads the written chunks, with keepalives anywhere, gets exactly the content,
  // the reasoning and the ordered calls of the message that is read without streaming.
  lemma {:induction false} StreamingEqualsPlain(x: Session, lines: seq<string>, broken: bool, model: string,
                                                codec: Codec, items: seq<WireItem>, usage: bool)
    requires x.rt.Sound() && codec.Sound()
    requires EventStream.Read(x, lines, broken).Ended?
    requires var r := EventStream.Read(x, lines, broken);
             WithoutKeepalives(items) == Transcript([Start(model)] + r.acc.emitted, r.acc.finish, usage)
    ensures var r := EventStream.Read(Silent(x), lines, broken);
            r.Ended? && ReadStream(codec, AllLines(codec, items)) == Some(Plain(r.acc, r.calls))
  {
    var r := EventStream.Read(x, lines, broken);
    EmittersDoNotMatter(x, lines, broken);
    StreamProofs.ReadCompletes(x, lines, broken);
    DraftIsMessage(x, lines, broken, model);
    TranscriptRead(codec, items, [Start(model)] + r.acc.emitted, r.acc.finish, usage);
  }

  // The stream drives the handler: its deltas come in order behind the start, all of
  // them unless one is refused, with heartbeats anywhere; then comes the end of the run,
  // which reports no success if the stream failed.
  ghost predicate Drives(x: Session, lines: seq<string>, broken: bool, model: string, drive: seq<StreamSink.Move>,
                         rest: seq<StreamSink.Move>)
  {
    var r := EventStream.Read(Silent(x), lines, broken);
    var all := [Start(model)] + r.acc.emitted;
    && (forall i | 0 <= i < |drive| :: StreamSink.Driving(drive[i]))
    && StreamSink.DeltasOf(drive) <= all
    && (StreamSink.Run(drive).phase.Executing? ==> StreamSink.DeltasOf(drive) == all)
    && (forall i | 0 <= i < |rest| :: !rest[i].Emit?)
    && (r.Broken? ==> forall i | 0 <= i < |rest| :: !rest[i].Succeed?)
  }

  lemma DrivenEnds(x: Session, lines: seq<string>, broken: bool, model: string, drive: seq<StreamSink.Move>,
                   rest: seq<StreamSink.Move>)
    requires Drives(x, lines, broken, model, drive, rest)
    ensures var r := EventStream.Read(Silent(x), lines, broken);
            var h := StreamSink.Run(drive + rest);
            h.phase.Returned? && h.phase.outcome.Success? ==> r.Ended? && h.deltas == [Start(model)] + r.acc.emitted
  {
    StreamSink.DrivenDeltas(drive);
    StreamSink.RunOnRun(drive, rest);
    StreamSink.RestKeeps(StreamSink.Run(drive), rest);
  }

  // The same through the handler, whatever is interleaved, refused or fails to be written:
  // the client gets the very message of the answer that is not streamed if the run
  // succeeds and no write fails, and nothing if not.
  lemma {:induction false} HandlerEqualsPlain(x: Session, lines: seq<string>, broken: bool, model: string,
                                              codec: Codec, drive: seq<StreamSink.Move>, rest: seq<StreamSink.Move>)
    requires x.rt.Sound() && codec.Sound() && Drives(x, lines, broken, model, drive, rest)
    ensures var r := EventStream.Read(Silent(x), lines, broken);
            var h := StreamSink.Run(drive + rest);
            var reply := ReadStream(codec, AllLines(codec, StreamSink.Delivered(h.sink.wire)));
            if h.phase.Returned? && h.phase.outcome.Success? && !h.sink.failed then
              r.Ended? && reply == Some(Plain(r.acc, r.calls))
            else reply == None
  {
    DrivenEnds(x, lines, broken, model, drive, rest);
    StreamSink.AcceptedExactly(codec, drive + rest);
    if EventStream.Read(Silent(x), lines, broken).Ended? { DraftIsMessage(Silent(x), lines, broken, model); }
  }

  // An emitter that takes k of these deltas, the start among them, fails the reading s of
  // the whole stream at the next one: t is what is read then.
  ghost predicate FailsAt(all: seq<Delta>, k: nat, model: string, t: Ending) {
    k < |all| && t.Broken? && t.why == EmitFailed && [Start(model)] + t.acc.emitted == all[..k + 1]
  }

  lemma CutFailsAt(s: Ending, t: Ending, model: string, k: nat)
    requires k > 0 && CutEnding(k - 1, [], s, t) && k <= |s.acc.emitted|
    ensures FailsAt([Start(model)] + s.acc.emitted, k, model, t)
  {
    assert ([Start(model)] + s.acc.emitted)[..k + 1] == [Start(model)] + s.acc.emitted[..k];
  }

  // When the handler refuses a delta, the run is lost, and unless that was the start the
  // reading of the stream stops at that very delta and fails for the emitter's sake.
  lemma {:induction false} RefusedDeltaStopsStream(x: Session, lines: seq<string>, broken: bool, model: string,
                                                   drive: seq<StreamSink.Move>, rest: seq<StreamSink.Move>)
    requires Drives(x, lines, broken, model, drive, rest) && StreamSink.Run(drive).phase.Denied?
    ensures StreamSink.Lost(StreamSink.Run(drive + rest))
    ensures var all := [Start(model)] + EventStream.Read(Silent(x), lines, broken).acc.emitted;
            var accepted := StreamSink.Run(drive).deltas;
            && |accepted| < |all| && accepted == all[..|accepted|]
            && (accepted != [] ==>
                  FailsAt(all, |accepted|, model, EventStream.Read(Refusing(x, |accepted| - 1), lines, broken)))
  {
    var s := EventStream.Read(Silent(x), lines, broken);
    var accepted := StreamSink.Run(drive).deltas;
    StreamSink.DrivenDeltas(drive);
    AcceptedPrefix(accepted, StreamSink.DeltasOf(drive), [Start(model)] + s.acc.emitted);
    StreamSink.RunOnRun(drive, rest);
    StreamSink.RestKeeps(StreamSink.Run(drive), rest);
    if accepted != [] {
      RefusalsExactly(x, |accepted| - 1, lines, broken);
      CutFailsAt(s, EventStream.Read(Refusing(x, |accepted| - 1), lines, broken), model, |accepted|);
    }
  }

  lemma AcceptedPrefix(accepted: seq<Delta>, sent: seq<Delta>, all: seq<Delta>)
    requires accepted <= sent <= all && |accepted| < |sent|
    ensures |accepted| < |all| && accepted == all[..|accepted|]
  {}

  // ---------- The next request ----------

  function Assistant(a: Acc, calls: seq<ToolCall>): Message {
    Message("assistant", a.content, calls, "", "")
  }

  ghost predicate AnswersTo(answers: seq<Message>, calls: seq<ToolCall>) {
    && (forall i | 0 <= i < |answers| :: answers[i].role == "tool" && answers[i].toolCalls == [])
    && multiset(AnswerIDs(answers)) == multiset(CallIDs(calls))
  }

  lemma {:induction false} FlattenAppend(a: seq<Block>, b: Block)
    ensures Flatten(a + [b]) == Flatten(a) + [b.head] + b.answers
    ensures AllIDs(a + [b]) == AllIDs(a) + CallIDs(b.head.toolCalls)
  {
    if a == [] {
      assert a + [b] == [b];
      assert Flatten([b][1..]) == [] && AllIDs([b][1..]) == [];
    } else {
      assert (a + [b])[1..] == a[1..] + [b];
      FlattenAppend(a[1..], b);
    }
  }

  lemma HistoryGrows(history: seq<Message>, m: Message, answers: seq<Message>)
    requires Validate(history).Accepted? && PlainAnswers(history)
    requires !m.Answers() && Distinct(CallIDs(m.toolCalls)) && Block(m, answers).Proper()
    requires Elements(CallIDs(m.toolCalls)) !! Elements(CallIDs(CallsOf(history)))
    ensures Validate(history + [m] + answers).Accepted?
  {
    var blocks := AcceptedGrammar(history, {});
    var b := Block(m, answers);
    BlocksCalls(blocks);
    FlattenAppend(blocks, b);
    DistinctParts(AllIDs(blocks), CallIDs(m.toolCalls));
    forall i | 0 <= i < |blocks + [b]| ensures (blocks + [b])[i].Proper() {
      if i < |blocks| { assert blocks[i].Proper(); }
    }
    assert Parses(history + [m] + answers, blocks + [b]);
    AcceptanceIsGrammar(history + [m] + answers);
  }

  // Closing the loop: an accepted history, followed by the message of a successful
  // stream whose call IDs are new and by one answer per call in any order, is accepted
  // again, and every message passes the checks per message.
  lemma ClosingTheLoop(x: Session, lines: seq<string>, broken: bool, history: seq<Message>, answers: seq<Message>)
    requires x.rt.Sound() && EventStream.Read(x, lines, broken).Ended?
    requires Validate(history).Accepted? && forall i | 0 <= i < |history| :: MessageOk(x.rt, history[i])
    requires AnswersTo(answers, EventStream.Read(x, lines, broken).calls)
    requires Elements(CallIDs(EventStream.Read(x, lines, broken).calls)) !! Elements(CallIDs(CallsOf(history)))
    ensures var r := EventStream.Read(x, lines, broken);
            var next := history + [Assistant(r.acc, r.calls)] + answers;
            Validate(next).Accepted? && forall i | 0 <= i < |next| :: MessageOk(x.rt, next[i])
  {
    var r := EventStream.Read(x, lines, broken);
    var m := Assistant(r.acc, r.calls);
    StreamProofs.ReadCompletes(x, lines, broken);
    MessagesArePlain(x.rt, history);
    assert Distinct(CallIDs(r.calls)) by {
      forall i, j | 0 <= i < j < |r.calls| ensures CallIDs(r.calls)[i] != CallIDs(r.calls)[j] {
        assert r.calls[i].id != r.calls[j].id;
      }
    }
    HistoryGrows(history, m, answers);
    assert MessageOk(x.rt, m) by {
      forall i | 0 <= i < |m.toolCalls| ensures CallOk(x.rt, m, m.toolCalls[i]) {
        assert CompleteCall(x, r.calls[i]);
      }
    }
    forall i | 0 <= i < |answers| ensures MessageOk(x.rt, answers[i]) {
      AnswerOk(x, r.calls, answers, i);
    }
  }

  lemma AnswerOk(x: Session, calls: seq<ToolCall>, answers: seq<Message>, i: nat)
    requires AnswersTo(answers, calls) && i < |answers|
    requires forall k | 0 <= k < |calls| :: CompleteCall(x, calls[k])
    ensures MessageOk(x.rt, answers[i])
  {
    var id := AnswerIDs(answers)[i];
    assert id in multiset(AnswerIDs(answers));
    assert id in CallIDs(calls);
    var k :| 0 <= k < |calls| && CallIDs(calls)[k] == id;
    assert CompleteCall(x, calls[k]);
  }
}
