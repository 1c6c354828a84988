// Streamed and plain answers read the same upstream stream: one hands its deltas to an
// emitter that may refuse them, the other to nobody (upstream.go, http.go).
module Emitters {
  import opened Wrappers
  import opened Text
  import opened Json
  import opened Accumulator
  import opened EventStream

  // The session of the answer that is not streamed.
  function Silent(x: Session): Session { x.(patience := None) }

  // The session of an emitter that accepts n deltas and refuses the next one.
  function Refusing(x: Session, n: nat): Session { x.(patience := Some(n)) }

  // ---------- What a refusal does to one step ----------

  // From a state with deltas e: s is the step without an emitter, t the same step with
  // one that accepts n deltas. They are the same if the step emits no more than that;
  // else t stops at the delta that is one too many.
  ghost predicate Cut(n: nat, e: seq<Delta>, s: Step, t: Step) {
    && e <= s.acc.emitted
    && (if |s.acc.emitted| <= n then t == s
        else t.Stop? && t.why == EmitFailed && t.acc.emitted == s.acc.emitted[..n + 1])
  }

  // One step after another.
  lemma CutThen(n: nat, e: seq<Delta>, s: Step, t: Step, s2: Step, t2: Step)
    requires Cut(n, e, s, t)
    requires if s.Go? then s.acc.emitted <= s2.acc.emitted else s2 == s
    requires if t.Go? then Cut(n, t.acc.emitted, s2, t2) else t2 == t
    ensures Cut(n, e, s2, t2)
  {
    if |s.acc.emitted| > n {
      assert s2.acc.emitted[..n + 1] == s.acc.emitted[..n + 1];
    }
  }

  lemma SendCut(x: Session, n: nat, a: Acc, d: Delta)
    requires |a.emitted| <= n
    ensures Cut(n, a.emitted, Send(Silent(x), a, d), Send(Refusing(x, n), a, d))
  {
    assert (a.emitted + [d])[..|a.emitted| + 1] == a.emitted + [d];
  }

  lemma SendIfCut(x: Session, n: nat, a: Acc, d: Delta, some: bool)
    requires |a.emitted| <= n
    ensures Cut(n, a.emitted, SendIf(Silent(x), a, d, some), SendIf(Refusing(x, n), a, d, some))
  {
    if some { SendCut(x, n, a, d); }
  }

  lemma AbsorbCut(x: Session, n: nat, a: Acc, w: Words)
    requires |a.emitted| <= n
    ensures Cut(n, a.emitted, Absorb(Silent(x), a, w), Absorb(Refusing(x, n), a, w))
  {
    var (content, news) := MergeSnapshot(a.content, w.text);
    var a1 := a.(content := content);
    SendIfCut(x, n, a1, TextDelta(news), news != "");
    var s := SendIf(Silent(x), a1, TextDelta(news), news != "");
    var t := SendIf(Refusing(x, n), a1, TextDelta(news), news != "");
    var (reasoning, more) := MergeSnapshot(a1.reasoning, w.reason);
    var a2 := s.acc.(reasoning := reasoning);
    if t.Go? { SendIfCut(x, n, a2, ReasoningDelta(more), more != ""); }
    CutThen(n, a.emitted, s, t, Absorb(Silent(x), a, w), Absorb(Refusing(x, n), a, w));
  }

  lemma ReportCut(x: Session, n: nat, a: Acc)
    requires 0 < a.book.lastCall <= |a.book.calls| && |a.emitted| <= n
    ensures Cut(n, a.emitted, Report(Silent(x), a), Report(Refusing(x, n), a))
  {
    var s := Current(a.book);
    if s.sentArgs <= s.call.args { SendCut(x, n, a, News(s, a.book.lastCall - 1)); }
  }

  lemma AddCallCut(x: Session, n: nat, a: Acc, m: Fields, fallback: int)
    requires a.book.Indexed() && |a.emitted| <= n
    ensures Cut(n, a.emitted, AddCall(Silent(x), a, m, fallback), AddCall(Refusing(x, n), a, m, fallback))
  {
    assert ReadRecord(Silent(x), m, fallback) == ReadRecord(Refusing(x, n), m, fallback);
    match ReadRecord(Silent(x), m, fallback)
    case Record(native, name, index, id, value) =>
      var r := Arrange(x.rt, a.book, native, name, index, id, value);
      if r.Moved? { ReportCut(x, n, a.(book := r.book)); }
    case _ =>
  }

  // A whole sequence of records.
  lemma {:induction false} AddAllCut(x: Session, n: nat, a: Acc, items: seq<Item>)
    requires a.book.Indexed() && |a.emitted| <= n
    ensures Cut(n, a.emitted, AddAll(Silent(x), a, items), AddAll(Refusing(x, n), a, items))
  {
    if items != [] {
      var before := items[..|items| - 1];
      AddAllCut(x, n, a, before);
      var s, t := AddAll(Silent(x), a, before), AddAll(Refusing(x, n), a, before);
      if s.Go? { ItemGrows(Silent(x), s.acc, items[|items| - 1]); }
      if t.Go? { ItemCut(x, n, t.acc, items[|items| - 1]); }
      CutThen(n, a.emitted, s, t, AddAll(Silent(x), a, items), AddAll(Refusing(x, n), a, items));
    }
  }

  function AddItem(x: Session, a: Acc, item: Item): Step
    requires a.book.Indexed()
  {
    match item
    case BadItem => Stop(a, BadToolEvent)
    case Item(m, fallback) => AddCall(x, a, m, fallback)
  }

  lemma ItemCut(x: Session, n: nat, a: Acc, item: Item)
    requires a.book.Indexed() && |a.emitted| <= n
    ensures Cut(n, a.emitted, AddItem(Silent(x), a, item), AddItem(Refusing(x, n), a, item))
  {
    if item.Item? { AddCallCut(x, n, a, item.m, item.fallback); }
  }

  // Without an emitter, too, deltas are only ever added.
  lemma ItemGrows(x: Session, a: Acc, item: Item)
    requires a.book.Indexed() && x.patience == None
    ensures a.emitted <= AddItem(x, a, item).acc.emitted
  {
    ItemCut(x, |a.emitted|, a, item);
  }

  lemma ExtractCut(x: Session, n: nat, a: Acc, obj: Fields)
    requires a.book.Indexed() && |a.emitted| <= n
    ensures Cut(n, a.emitted, ExtractCalls(Silent(x), a, obj), ExtractCalls(Refusing(x, n), a, obj))
  {
    AddAllCut(x, n, a, ItemsOf(x.rt, obj, CALL_KEYS));
  }

  // The nested message, if there is one.
  function Nested(x: Session, a: Acc, obj: Fields): Step
    requires a.book.Indexed()
  {
    match ObjectValue(x.rt, Get(obj, "message"))
    case None => Go(a)
    case Some(m) => ExtractCalls(x, a, m)
  }

  lemma NestedCut(x: Session, n: nat, a: Acc, obj: Fields)
    requires a.book.Indexed() && |a.emitted| <= n
    ensures Cut(n, a.emitted, Nested(Silent(x), a, obj), Nested(Refusing(x, n), a, obj))
  {
    match ObjectValue(x.rt, Get(obj, "message"))
    case None =>
    case Some(m) => ExtractCut(x, n, a, m);
  }

  function Calls(x: Session, a: Acc, obj: Fields): Step
    requires a.book.Indexed()
  {
    var c :- ExtractCalls(x, a, obj);
    Nested(x, c, obj)
  }

  lemma CallsCut(x: Session, n: nat, a: Acc, obj: Fields)
    requires a.book.Indexed() && |a.emitted| <= n
    ensures Cut(n, a.emitted, Calls(Silent(x), a, obj), Calls(Refusing(x, n), a, obj))
  {
    ExtractCut(x, n, a, obj);
    var s, t := ExtractCalls(Silent(x), a, obj), ExtractCalls(Refusing(x, n), a, obj);
    if s.Go? { NestedCut(x, |s.acc.emitted|, s.acc, obj); }
    if t.Go? { NestedCut(x, n, t.acc, obj); }
    CutThen(n, a.emitted, s, t, Calls(Silent(x), a, obj), Calls(Refusing(x, n), a, obj));
  }

  lemma ContentCut(x: Session, n: nat, a: Acc, done: bool, obj: Fields)
    requires a.book.Indexed() && |a.emitted| <= n
    ensures Cut(n, a.emitted, Content(Silent(x), a, done, obj), Content(Refusing(x, n), a, done, obj))
  {
    var w := SplitThinking(ReadWords(x.rt, obj));
    AbsorbCut(x, n, a, w);
    var s, t := Absorb(Silent(x), a, w), Absorb(Refusing(x, n), a, w);
    if s.Go? { CallsCut(x, |s.acc.emitted|, s.acc, obj); }
    if t.Go? { CallsCut(x, n, t.acc, obj); }
    var s2 := if s.Go? then Calls(Silent(x), s.acc, obj) else s;
    var t2 := if t.Go? then Calls(Refusing(x, n), t.acc, obj) else t;
    CutThen(n, a.emitted, s, t, s2, t2);
    ContentIsCalls(Silent(x), a, done, obj);
    ContentIsCalls(Refusing(x, n), a, done, obj);
  }

  function Terminated(r: Step, done: bool): Step {
    if r.Go? && done then Go(r.acc.(terminal := true)) else r
  }

  lemma ContentIsCalls(x: Session, a: Acc, done: bool, obj: Fields)
    requires a.book.Indexed()
    ensures var s := Absorb(x, a, SplitThinking(ReadWords(x.rt, obj)));
            Content(x, a, done, obj) == Terminated(if s.Go? then Calls(x, s.acc, obj) else s, done)
  {}

  lemma FrameCut(x: Session, n: nat, a: Acc, event: string, raw: string)
    requires a.book.Indexed() && |a.emitted| <= n
    ensures Cut(n, a.emitted, Frame(Silent(x), a, event, raw), Frame(Refusing(x, n), a, event, raw))
  {
    if raw != "[DONE]" && x.rt.decode(raw).Some? {
      var obj := x.rt.decode(raw).value;
      match KindOf(x.rt, event, obj)
      case Heartbeat => SendCut(x, n, a, Beat);
      case Output(done) => ContentCut(x, n, Note(x.rt, a, obj), done, obj);
      case _ =>
    }
  }

  // ---------- And to the reading of a stream ----------

  ghost predicate CutReading(n: nat, e: seq<Delta>, s: Progress, t: Progress) {
    var all := Held(s).emitted;
    && e <= all
    && (if |all| <= n then t == s
        else t.Dead? && t.why == EmitFailed && t.acc.emitted == all[..n + 1])
  }

  function Held(r: Progress): Acc { if r.Dead? then r.acc else r.scan.acc }

  lemma FlushCut(x: Session, n: nat, s: Scan)
    requires s.acc.book.Indexed() && |s.acc.emitted| <= n
    ensures Cut(n, s.acc.emitted, Flush(Silent(x), s), Flush(Refusing(x, n), s))
  {
    if s.data != [] { FrameCut(x, n, s.acc, s.event, Join(s.data, "\n")); }
  }

  lemma LineCut(x: Session, n: nat, s: Scan, line: string)
    requires s.acc.book.Indexed() && |s.acc.emitted| <= n
    ensures CutReading(n, s.acc.emitted, Line(Silent(x), s, line), Line(Refusing(x, n), s, line))
  {
    FlushCut(x, n, s);
    SendCut(x, n, s.acc, Beat);
  }

  lemma {:induction false} ReadingCut(x: Session, n: nat, s: Scan, lines: seq<string>)
    requires s.acc.book.Indexed() && |s.acc.emitted| <= n
    ensures CutReading(n, s.acc.emitted, Lines(Silent(x), s, lines), Lines(Refusing(x, n), s, lines))
  {
    if lines != [] {
      var before, line := lines[..|lines| - 1], lines[|lines| - 1];
      ReadingCut(x, n, s, before);
      var r, q := Lines(Silent(x), s, before), Lines(Refusing(x, n), s, before);
      if r.More? { LineCut(x, |r.scan.acc.emitted|, r.scan, line); }
      if q.More? { LineCut(x, n, q.scan, line); }
      if |Held(r).emitted| > n {
        var all := Held(Lines(Silent(x), s, lines)).emitted;
        assert all[..n + 1] == Held(r).emitted[..n + 1];
      }
    }
  }

  ghost predicate CutEnding(n: nat, e: seq<Delta>, s: Ending, t: Ending) {
    && e <= s.acc.emitted
    && (if |s.acc.emitted| <= n then t == s
        else t.Broken? && t.why == EmitFailed && t.acc.emitted == s.acc.emitted[..n + 1])
  }

  lemma {:induction false} CloseCut(x: Session, n: nat, a: Acc, answered: seq<ToolCall>)
    requires |answered| <= |a.book.calls| && |a.emitted| <= n
    ensures CutEnding(n, a.emitted, CloseCalls(Silent(x), a, answered), CloseCalls(Refusing(x, n), a, answered))
    decreases |a.book.calls| - |answered|
  {
    if |answered| < |a.book.calls| && a.book.calls[|answered|].sent {
      var s := a.book.calls[|answered|];
      var d, some := CallDelta(|answered|, "", "", "{}"), s.call.args == "";
      SendIfCut(x, n, a, d, some);
      var b := SendIf(Silent(x), a, d, some).acc;
      if x.rt.valid(Answer(s).args) {
        CloseCut(x, |b.emitted|, b, answered + [Answer(s)]);
        if |b.emitted| <= n { CloseCut(x, n, b, answered + [Answer(s)]); }
        var all := CloseCalls(Silent(x), a, answered).acc.emitted;
        if |b.emitted| > n { assert all[..n + 1] == b.emitted[..n + 1]; }
      }
    }
  }

  lemma ConcludeCut(x: Session, n: nat, a: Acc)
    requires |a.emitted| <= n
    ensures CutEnding(n, a.emitted, Conclude(Silent(x), a), Conclude(Refusing(x, n), a))
  {
    CloseCut(x, n, a, []);
  }

  lemma FinishCut(x: Session, n: nat, s: Scan)
    requires s.acc.book.Indexed() && |s.acc.emitted| <= n
    ensures CutEnding(n, s.acc.emitted, Finish(Silent(x), s), Finish(Refusing(x, n), s))
  {
    if s.acc.terminal {
      ConcludeCut(x, n, s.acc);
    } else {
      FlushCut(x, n, s);
      var r := Flush(Silent(x), s);
      if r.Go? && r.acc.terminal {
        ConcludeCut(x, |r.acc.emitted|, r.acc);
        if |r.acc.emitted| <= n { ConcludeCut(x, n, r.acc); }
        var all := Finish(Silent(x), s).acc.emitted;
        if |r.acc.emitted| > n { assert all[..n + 1] == r.acc.emitted[..n + 1]; }
      }
    }
  }

  // What an emitter makes of any stream: if it accepts all that is emitted, nothing; else
  // the reading fails for the emitter's sake, at the very delta it refused.
  lemma {:induction false} RefusalsExactly(x: Session, n: nat, lines: seq<string>, broken: bool)
    ensures CutEnding(n, [], Read(Silent(x), lines, broken), Read(Refusing(x, n), lines, broken))
  {
    ReadingCut(x, n, IDLE, lines);
    var r := Lines(Silent(x), IDLE, lines);
    if !r.Dead? {
      FinishCut(x, |r.scan.acc.emitted|, r.scan);
      if |r.scan.acc.emitted| <= n { FinishCut(x, n, r.scan); }
      var all := Read(Silent(x), lines, broken).acc.emitted;
      if |r.scan.acc.emitted| > n { assert all[..n + 1] == r.scan.acc.emitted[..n + 1]; }
    }
  }

  // If the stream succeeds for an emitter, it succeeds without one, and comes to the same.
  lemma {:induction false} EmittersDoNotMatter(x: Session, lines: seq<string>, broken: bool)
    requires Read(x, lines, broken).Ended?
    ensures Read(Silent(x), lines, broken) == Read(x, lines, broken)
  {
    match x.patience
    case None => assert Silent(x) == x;
    case Some(n) =>
      assert Refusing(x, n) == x;
      RefusalsExactly(x, n, lines, broken);
  }
}
