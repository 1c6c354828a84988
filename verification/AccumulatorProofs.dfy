// What every frame keeps: the identity maps, the published deltas, the tool policy.
module AccumulatorProofs {
  import opened Wrappers
  import opened Text
  import opened Json
  import opened Accumulator

  // Nothing that was known or published is ever taken back or remapped.
  ghost predicate Grows(a: Acc, b: Acc) {
    && BookGrows(a.book, b.book)
    && a.emitted <= b.emitted
    && a.content <= b.content
    && a.reasoning <= b.reasoning
  }

  ghost predicate BookGrows(a: Book, b: Book) {
    && |a.calls| <= |b.calls|
    && (forall i {:trigger KeepsSlot(a.calls[i], b.calls[i])} | 0 <= i < |a.calls| :: KeepsSlot(a.calls[i], b.calls[i]))
    && (forall k | k in a.byIndex :: k in b.byIndex && b.byIndex[k] == a.byIndex[k])
    && (forall id | id in a.byID :: id in b.byID && b.byID[id] == a.byID[id])
  }

  ghost predicate KeepsSlot(s: Slot, t: Slot) {
    && t.call.id == s.call.id
    && (s.call.name != "" ==> t.call.name == s.call.name)
    && (s.sent ==> t.sent && s.sentArgs <= t.sentArgs)
  }

  lemma BookGrowsTransitive(a: Book, b: Book, c: Book)
    requires BookGrows(a, b) && BookGrows(b, c)
    ensures BookGrows(a, c)
  {
    forall i | 0 <= i < |a.calls| ensures KeepsSlot(a.calls[i], c.calls[i]) {
      assert KeepsSlot(a.calls[i], b.calls[i]) && KeepsSlot(b.calls[i], c.calls[i]);
    }
  }

  lemma GrowsTransitive(a: Acc, b: Acc, c: Acc)
    requires Grows(a, b) && Grows(b, c)
    ensures Grows(a, c)
  {
    BookGrowsTransitive(a.book, b.book, c.book);
  }

  // ---------- Changes of the book ----------

  lemma UpdateIdentified(a: Book, t: Slot)
    requires 0 < a.lastCall && a.Indexed() && a.Identified()
    requires t.call.id == Current(a).call.id && t.call.kind == "function"
    ensures SetCurrent(a, t).Indexed() && SetCurrent(a, t).Identified()
  {
    var b := SetCurrent(a, t);
    forall i | 0 <= i < |b.calls| ensures b.Registered(i) { assert a.Registered(i); }
    forall id | id in b.byID ensures b.Backed(id) { assert a.Backed(id); }
  }

  lemma UpdateBooks(p: Policy, a: Book, t: Slot)
    requires 0 < a.lastCall <= |a.calls|
    requires a.Obeys(p) && a.SettledBut(a.lastCall - 1) && t.Permitted(p, a.lastCall - 1)
    ensures SetCurrent(a, t).Obeys(p) && SetCurrent(a, t).SettledBut(a.lastCall - 1)
    ensures t.Settled() ==> SetCurrent(a, t).SettledBut(-1)
  {
    var b := SetCurrent(a, t);
    forall i | 0 <= i < |b.calls| && i != a.lastCall - 1
      ensures b.calls[i].Permitted(p, i) && b.calls[i].Settled()
    {
      assert a.calls[i].Permitted(p, i) && a.calls[i].Settled();
    }
  }

  lemma UpdateGrows(a: Book, t: Slot)
    requires 0 < a.lastCall <= |a.calls| && KeepsSlot(Current(a), t)
    ensures BookGrows(a, SetCurrent(a, t))
  {}

  lemma UpdatePublished(a: Book, t: Slot)
    requires 0 < a.lastCall <= |a.calls|
    requires Current(a).sent ==> t.sent
    ensures SetCurrent(a, t).Published() ==
            if t.sent then a.Published()[a.lastCall - 1 := t.PublishedCall()] else a.Published()
  {}

  // A change of name or arguments publishes nothing.
  lemma UpdateQuietly(p: Policy, a: Book, t: Slot)
    requires a.Open(p)
    requires var s := Current(a);
             && t.call.id == s.call.id && t.call.kind == s.call.kind && t.sent == s.sent && t.sentArgs == s.sentArgs
             && (s.call.name != "" ==> t.call.name == s.call.name)
    ensures var b := SetCurrent(a, t); b.Open(p) && BookGrows(a, b) && b.Published() == a.Published()
  {
    var k := a.lastCall - 1;
    assert a.calls[k].Permitted(p, k);
    assert a.Registered(k);
    UpdateIdentified(a, t);
    UpdateBooks(p, a, t);
    UpdateGrows(a, t);
    UpdatePublished(a, t);
    if t.sent {
      assert k in a.Published() && a.Published()[k] == Current(a).PublishedCall();
    }
  }

  lemma PointKeeps(p: Policy, a: Book, index: int, slot: nat)
    requires a.Inv(p) && slot < |a.calls| && (index in a.byIndex ==> a.byIndex[index] == slot)
    ensures var b := Point(a, index, slot); b.Inv(p) && BookGrows(a, b) && b.Published() == a.Published()
  {
    var b := Point(a, index, slot);
    forall i | 0 <= i < |b.calls| ensures b.Registered(i) { assert a.Registered(i); }
    forall id | id in b.byID ensures b.Backed(id) { assert a.Backed(id); }
    assert b.Obeys(p) && b.SettledBut(-1);
  }

  lemma OpenKeeps(p: Policy, a: Book, id: string)
    requires a.Inv(p) && |a.calls| < MAX_CALLS && id != "" && id !in a.byID
    ensures var b := Open(a, id); b.Inv(p) && BookGrows(a, b) && b.Published() == a.Published()
  {
    var b := Open(a, id);
    forall i | 0 <= i < |b.calls| ensures b.Registered(i) && b.calls[i].Permitted(p, i) && b.calls[i].Settled() {
      if i < |a.calls| { assert a.Registered(i) && a.calls[i].Permitted(p, i) && a.calls[i].Settled(); }
    }
    forall i | i in b.byID ensures b.Backed(i) {
      if i in a.byID { assert a.Backed(i); }
    }
    assert b.Published() == a.Published();
  }

  lemma SeatKeeps(rt: Runtime, p: Policy, a: Book, index: int, id: string)
    requires rt.Sound() && a.Inv(p)
    requires Seat(rt, a, index, id).Moved?
    ensures var b := Seat(rt, a, index, id).book;
            b.Inv(p) && b.lastCall > 0 && BookGrows(a, b) && b.Published() == a.Published()
  {
    match Locate(a, index, id)
    case At(slot) => PointKeeps(p, a, index, slot);
    case NewSlot =>
      var b := Open(a, if id == "" then rt.newID(a.byID.Keys) else id);
      OpenKeeps(p, a, if id == "" then rt.newID(a.byID.Keys) else id);
      PointKeeps(p, b, index, |a.calls|);
      BookGrowsTransitive(a, b, Point(b, index, |a.calls|));
    case Clash(_) =>
  }

  lemma NameKeeps(p: Policy, a: Book, name: string)
    requires a.Open(p)
    ensures var b := NameCall(a, name).book; b.Open(p) && BookGrows(a, b) && b.Published() == a.Published()
  {
    var s := Current(a);
    if name != "" && (s.call.name == "" || s.call.name == name) {
      UpdateQuietly(p, a, s.(call := s.call.(name := name)));
    }
  }

  lemma FillKeeps(rt: Runtime, p: Policy, a: Book, native: bool, value: Option<Json>)
    requires a.Open(p)
    ensures var b := FillArguments(rt, a, native, value).book;
            b.Open(p) && BookGrows(a, b) && b.Published() == a.Published()
  {
    var s := Current(a);
    UpdateQuietly(p, a, s.(call := s.call.(args := Arguments(rt, s.call.args, native, value))));
  }

  lemma ArrangeKeeps(rt: Runtime, p: Policy, a: Book, native: bool, name: string, index: int, id: string,
                     value: Option<Json>)
    requires rt.Sound() && a.Inv(p)
    requires Arrange(rt, a, native, name, index, id, value).Moved?
    ensures var b := Arrange(rt, a, native, name, index, id, value).book;
            b.Open(p) && BookGrows(a, b) && b.Published() == a.Published()
  {
    var b := Seat(rt, a, index, id).book;
    SeatKeeps(rt, p, a, index, id);
    var c := NameCall(b, name).book;
    NameKeeps(p, b, name);
    FillKeeps(rt, p, c, native, value);
    BookGrowsTransitive(a, b, c);
    BookGrowsTransitive(a, c, FillArguments(rt, c, native, value).book);
  }

  // A known index that arrives with an ID nobody has used is always refused.
  lemma KnownIndexUnseenID(rt: Runtime, p: Policy, a: Book, index: int, id: string)
    requires a.Inv(p)
    requires index in a.byIndex && id != "" && id !in a.byID
    ensures Seat(rt, a, index, id) == Refused(a, ChangedIdentity)
  {
    assert a.Registered(a.byIndex[index]);
  }

  // ---------- Publishing ----------

  lemma NewsAmounts(a: Book, h: Draft)
    requires 0 < a.lastCall <= |a.calls| && h.calls == a.Published()
    requires var s := Current(a);
             s.sentArgs <= s.call.args && (!s.sent ==> s.sentArgs == "") && s.call.kind == "function"
    ensures var s := Current(a);
            Apply(h, News(s, a.lastCall - 1)) == h.(calls := a.Published()[a.lastCall - 1 := s.call])
  {
    var s := Current(a);
    var news := s.call.args[|s.sentArgs|..];
    assert s.sentArgs + news == s.call.args;
    if s.sent {
      assert a.Published()[a.lastCall - 1] == s.PublishedCall();
      assert s.call.id + "" == s.call.id && s.call.name + "" == s.call.name;
    } else {
      assert a.lastCall - 1 !in a.Published();
      assert "" + s.call.id == s.call.id && "" + s.call.name == s.call.name && "" + news == news;
    }
  }

  lemma PublishKeeps(p: Policy, a: Book)
    requires a.Open(p)
    requires var s := Current(a);
             && s.call.name != "" && p.Allows(s.call.name) && (p.OneAtATime() ==> |a.calls| <= 1)
                && s.sentArgs <= s.call.args
    ensures var b := Publish(a);
            b.Inv(p) && BookGrows(a, b) && b.Published() == a.Published()[a.lastCall - 1 := Current(a).call]
  {
    var t := Current(a).(sent := true, sentArgs := Current(a).call.args);
    assert a.Registered(a.lastCall - 1);
    UpdateIdentified(a, t);
    UpdateBooks(p, a, t);
    UpdateGrows(a, t);
    UpdatePublished(a, t);
    assert t.PublishedCall() == Current(a).call;
  }

  lemma ReportEmits(x: Session, a: Acc)
    requires 0 < a.book.lastCall <= |a.book.calls| && Report(x, a).Go?
    requires var s := Current(a.book); s.call.name != "" && !(s.sent && s.sentArgs == s.call.args)
    ensures var s := Current(a.book);
            && x.policy.Allows(s.call.name) && (x.policy.OneAtATime() ==> |a.book.calls| <= 1)
               && s.sentArgs <= s.call.args
            && Report(x, a).acc == a.(book := Publish(a.book), emitted := a.emitted + [News(s, a.book.lastCall - 1)])
  {}

  lemma ReportKeeps(x: Session, a: Acc)
    requires a.book.Open(x.policy) && a.Accounted() && a.finish != ""
    requires Report(x, a).Go?
    ensures var b := Report(x, a).acc; b.Inv(x.policy) && Grows(a, b)
  {
    var k := a.book.lastCall - 1;
    var s := Current(a.book);
    assert s.Permitted(x.policy, k) && a.book.Registered(k);
    if s.call.name == "" || (s.sent && s.sentArgs == s.call.args) {
      assert a.book.SettledBut(-1) by {
        forall i | 0 <= i < |a.book.calls| ensures a.book.calls[i].Settled() {}
      }
    } else {
      ReportEmits(x, a);
      PublishKeeps(x.policy, a.book);
      NewsAmounts(a.book, Rebuild(a.emitted));
      RebuildAppend(a.emitted, News(s, k));
      var h := Draft(a.content, a.reasoning, a.book.Published()[k := s.call]);
      assert Rebuild(a.emitted + [News(s, k)]) == h;
    }
  }

  lemma {:induction false} AddCallKeeps(x: Session, a: Acc, m: Fields, fallback: int)
    requires x.rt.Sound() && a.Inv(x.policy)
    requires AddCall(x, a, m, fallback).Go?
    ensures var b := AddCall(x, a, m, fallback).acc; b.Inv(x.policy) && Grows(a, b)
  {
    match ReadRecord(x, m, fallback)
    case Skipped =>
    case BadRecord =>
    case Record(native, name, index, id, value) =>
      ArrangeKeeps(x.rt, x.policy, a.book, native, name, index, id, value);
      var c := a.(book := Arrange(x.rt, a.book, native, name, index, id, value).book);
      ReportKeeps(x, c);
      GrowsTransitive(a, c, Report(x, c).acc);
  }

  lemma {:induction false} AddAllKeeps(x: Session, a: Acc, items: seq<Item>)
    requires x.rt.Sound() && a.Inv(x.policy)
    requires AddAll(x, a, items).Go?
    ensures var b := AddAll(x, a, items).acc; b.Inv(x.policy) && Grows(a, b)
  {
    if items != [] {
      AddAllKeeps(x, a, items[..|items| - 1]);
      var b := AddAll(x, a, items[..|items| - 1]).acc;
      var item := items[|items| - 1];
      AddCallKeeps(x, b, item.m, item.fallback);
      GrowsTransitive(a, b, AddAll(x, a, items).acc);
    }
  }

  // ---------- One frame ----------

  lemma TextKeeps(p: Policy, a: Acc, next: string)
    requires a.Inv(p)
    ensures var (content, news) := MergeSnapshot(a.content, next);
            var b := a.(content := content, emitted := if news != "" then a.emitted + [TextDelta(news)] else a.emitted);
            b.Inv(p) && Grows(a, b)
  {
    RebuildAppend(a.emitted, TextDelta(MergeSnapshot(a.content, next).1));
  }

  lemma ReasonKeeps(p: Policy, a: Acc, next: string)
    requires a.Inv(p)
    ensures var (reasoning, news) := MergeSnapshot(a.reasoning, next);
            var emitted := if news != "" then a.emitted + [ReasoningDelta(news)] else a.emitted;
            var b := a.(reasoning := reasoning, emitted := emitted);
            b.Inv(p) && Grows(a, b)
  {
    RebuildAppend(a.emitted, ReasoningDelta(MergeSnapshot(a.reasoning, next).1));
  }

  lemma BeatKeeps(p: Policy, a: Acc)
    requires a.Inv(p)
    ensures var b := a.(emitted := a.emitted + [Beat]); b.Inv(p) && Grows(a, b)
  {
    RebuildAppend(a.emitted, Beat);
  }

  lemma AbsorbKeeps(x: Session, a: Acc, w: Words)
    requires a.Inv(x.policy) && Absorb(x, a, w).Go?
    ensures var b := Absorb(x, a, w).acc; b.Inv(x.policy) && Grows(a, b)
  {
    var (content, news) := MergeSnapshot(a.content, w.text);
    var b := a.(content := content, emitted := if news != "" then a.emitted + [TextDelta(news)] else a.emitted);
    TextKeeps(x.policy, a, w.text);
    ReasonKeeps(x.policy, b, w.reason);
    GrowsTransitive(a, b, Absorb(x, a, w).acc);
  }

  lemma NoteKeeps(rt: Runtime, p: Policy, a: Acc, obj: Fields)
    requires a.Inv(p)
    ensures Note(rt, a, obj).Inv(p) && Grows(a, Note(rt, a, obj))
  {}

  lemma ContentKeeps(x: Session, a: Acc, done: bool, obj: Fields)
    requires x.rt.Sound() && a.Inv(x.policy)
    requires Content(x, a, done, obj).Go?
    ensures var b := Content(x, a, done, obj).acc; b.Inv(x.policy) && Grows(a, b)
  {
    var w := SplitThinking(ReadWords(x.rt, obj));
    var b := Absorb(x, a, w).acc;
    AbsorbKeeps(x, a, w);
    var c := ExtractCalls(x, b, obj).acc;
    AddAllKeeps(x, b, ItemsOf(x.rt, obj, CALL_KEYS));
    GrowsTransitive(a, b, c);
    var d := c;
    match ObjectValue(x.rt, Get(obj, "message")) {
      case None =>
      case Some(m) =>
        d := ExtractCalls(x, c, m).acc;
        AddAllKeeps(x, c, ItemsOf(x.rt, m, CALL_KEYS));
        GrowsTransitive(a, c, d);
    }
  }

  // The frame invariant: identities, conservation of deltas, tool policy, monotone growth.
  lemma {:induction false} FrameKeeps(x: Session, a: Acc, event: string, raw: string)
    requires x.rt.Sound() && a.Inv(x.policy)
    ensures var r := Frame(x, a, event, raw); r.Go? ==> r.acc.Inv(x.policy) && Grows(a, r.acc)
  {
    if raw != "[DONE]" && Frame(x, a, event, raw).Go? {
      var obj := x.rt.decode(raw).value;
      FrameObjectKeeps(x, a, KindOf(x.rt, event, obj), obj);
    }
  }

  lemma FrameObjectKeeps(x: Session, a: Acc, kind: Kind, obj: Fields)
    requires x.rt.Sound() && a.Inv(x.policy)
    requires FrameObject(x, a, kind, obj).Go?
    ensures var b := FrameObject(x, a, kind, obj).acc; b.Inv(x.policy) && Grows(a, b)
  {
    match kind
    case Refusal(_) =>
    case Heartbeat => BeatKeeps(x.policy, a);
    case TokenUsage =>
    case Output(done) =>
      var b := Note(x.rt, a, obj);
      NoteKeeps(x.rt, x.policy, a, obj);
      ContentKeeps(x, b, done, obj);
      GrowsTransitive(a, b, Content(x, b, done, obj).acc);
  }

  // Spelled out for readers: after any frame the deltas amount to the message so far,
  // and each published call's deltas at its index carry its ID and name exactly once.
  lemma DeltaConservation(x: Session, a: Acc, event: string, raw: string)
    requires x.rt.Sound() && a.Inv(x.policy)
    ensures Frame(x, a, event, raw).Go? ==> Conserved(Frame(x, a, event, raw).acc)
  {
    FrameKeeps(x, a, event, raw);
    if Frame(x, a, event, raw).Go? { ConservedHolds(x.policy, Frame(x, a, event, raw).acc); }
  }

  // What the deltas amount to.
  ghost predicate Conserved(b: Acc) {
    && Rebuild(b.emitted).text == b.content
    && Rebuild(b.emitted).reasoning == b.reasoning
    && (forall i | 0 <= i < |b.book.calls| :: b.book.calls[i].call.name != "" ==>
          i in Rebuild(b.emitted).calls && Rebuild(b.emitted).calls[i] == b.book.calls[i].call)
    && (forall i | i in Rebuild(b.emitted).calls :: 0 <= i < |b.book.calls| && b.book.calls[i].call.name != "")
  }

  lemma ConservedHolds(p: Policy, b: Acc)
    requires b.Inv(p)
    ensures Conserved(b)
  {
    forall i | 0 <= i < |b.book.calls|
      ensures b.book.calls[i].sent <==> b.book.calls[i].call.name != ""
      ensures b.book.calls[i].sent ==> b.book.calls[i].PublishedCall() == b.book.calls[i].call
    {
      assert b.book.calls[i].Settled();
    }
  }

  lemma InitialInv(p: Policy)
    ensures INITIAL.Inv(p)
  {}

  // ---------- The end of the stream ----------

  // While the calls are being answered: the first slots are answered, with "{}" for
  // empty arguments, and what was published about them is now exactly the answer.
  ghost predicate Closing(x: Session, a: Acc, answered: seq<ToolCall>) {
    && |answered| <= |a.book.calls|
    && a.book.Inv(x.policy)
    && Rebuild(a.emitted) == Draft(a.content, a.reasoning, Closed(a.book.calls, answered))
    && (forall i {:trigger Answers(x.rt, a.book.calls[i], answered[i])} | 0 <= i < |answered| ::
       Answers(x.rt, a.book.calls[i], answered[i]))
  }

  ghost predicate Answers(rt: Runtime, s: Slot, c: ToolCall) {
    s.sent && c == Answer(s) && rt.valid(c.args)
  }

  function Closed(calls: seq<Slot>, answered: seq<ToolCall>): map<int, ToolCall> {
    map i | 0 <= i < |calls| && calls[i].sent :: if i < |answered| then answered[i] else calls[i].call
  }

  lemma FillInAmounts(calls: seq<Slot>, answered: seq<ToolCall>, h: Draft)
    requires |answered| < |calls| && h.calls == Closed(calls, answered)
    requires var s := calls[|answered|]; s.sent && s.call.args == "" && s.call.kind == "function"
    ensures Apply(h, CallDelta(|answered|, "", "", "{}")) ==
            h.(calls := Closed(calls, answered + [Answer(calls[|answered|])]))
  {
    var k := |answered|;
    var c := calls[k].call;
    assert h.calls[k] == c;
    assert c.id + "" == c.id && c.name + "" == c.name && "" + "{}" == "{}";
  }

  lemma {:induction false} CloseCallsKeeps(x: Session, a: Acc, answered: seq<ToolCall>)
    requires Closing(x, a, answered) && CloseCalls(x, a, answered).Ended?
    ensures var r := CloseCalls(x, a, answered); Closing(x, r.acc, r.calls) && a.emitted <= r.acc.emitted
    decreases |a.book.calls| - |answered|
  {
    if |answered| < |a.book.calls| {
      var k := |answered|;
      var s := a.book.calls[k];
      var b := SendIf(x, a, CallDelta(k, "", "", "{}"), s.call.args == "").acc;
      assert a.book.Registered(k);
      if s.call.args == "" {
        FillInAmounts(a.book.calls, answered, Rebuild(a.emitted));
        RebuildAppend(a.emitted, CallDelta(k, "", "", "{}"));
      } else {
        assert Closed(a.book.calls, answered + [Answer(s)]) == Closed(a.book.calls, answered);
      }
      CloseCallsKeeps(x, b, answered + [Answer(s)]);
    }
  }

  // What a successful stream promises about its message.
  ghost predicate Complete(x: Session, a: Acc, calls: seq<ToolCall>) {
    && Rebuild(a.emitted) == Draft(a.content, a.reasoning, Enumerated(calls))
    && DistinctCalls(calls)
    && |calls| <= MAX_CALLS
    && (forall i | 0 <= i < |calls| :: CompleteCall(x, calls[i]))
    && (x.policy.choice == "none" ==> calls == [])
    && (x.policy.choice !in ["auto", "none"] ==> calls != [])
    && (x.policy.OneAtATime() ==> |calls| <= 1)
    && (a.content != "" || a.reasoning != "" || calls != [])
    && a.finish != "" && (calls != [] ==> a.finish == "tool_calls")
    && a.terminal
  }

  function Enumerated(cs: seq<ToolCall>): map<int, ToolCall> {
    map i | 0 <= i < |cs| :: cs[i]
  }

  ghost predicate DistinctCalls(cs: seq<ToolCall>) {
    forall i, j | 0 <= i < j < |cs| :: cs[i].id != cs[j].id
  }

  // A declared tool that the choice permits, with valid arguments and an identity.
  ghost predicate CompleteCall(x: Session, c: ToolCall) {
    && c.id != "" && c.kind == "function" && c.name != ""
    && x.policy.Allows(c.name)
    && (x.policy.choice !in ["auto", "none", "required"] ==> c.name == x.policy.choice)
    && x.rt.valid(c.args)
  }

  lemma ConcludeCompletes(x: Session, a: Acc)
    requires a.Inv(x.policy) && a.terminal
    requires Conclude(x, a).Ended?
    ensures var r := Conclude(x, a); Complete(x, r.acc, r.calls)
    ensures var r := Conclude(x, a);
            r.acc.content == a.content && r.acc.reasoning == a.reasoning && a.emitted <= r.acc.emitted
  {
    ClosingStarts(x, a);
    CloseCallsKeeps(x, a, []);
    var r := CloseCalls(x, a, []);
    ClosedCompletes(x, r.acc, r.calls);
    if r.calls != [] {
      assert CompleteCall(x, r.calls[0]);
    }
  }

  lemma ClosingStarts(x: Session, a: Acc)
    requires a.Inv(x.policy)
    ensures Closing(x, a, [])
  {
    forall i | 0 <= i < |a.book.calls| && a.book.calls[i].sent
      ensures a.book.calls[i].PublishedCall() == a.book.calls[i].call
    {
      assert a.book.calls[i].Settled();
    }
    assert Closed(a.book.calls, []) == a.book.Published();
  }

  lemma ClosedCompletes(x: Session, a: Acc, calls: seq<ToolCall>)
    requires Closing(x, a, calls) && |calls| == |a.book.calls|
    ensures Rebuild(a.emitted) == Draft(a.content, a.reasoning, Enumerated(calls))
    ensures DistinctCalls(calls) && |calls| <= MAX_CALLS
    ensures forall i | 0 <= i < |calls| :: CompleteCall(x, calls[i])
    ensures x.policy.OneAtATime() ==> |calls| <= 1
  {
    forall i | 0 <= i < |calls|
      ensures CompleteCall(x, calls[i])
      ensures a.book.calls[i].sent && (x.policy.OneAtATime() ==> i == 0)
      ensures calls[i].id in a.book.byID && a.book.byID[calls[i].id] == i
    {
      assert Answers(x.rt, a.book.calls[i], calls[i]);
      assert a.book.calls[i].Permitted(x.policy, i) && a.book.Registered(i);
    }
    assert Closed(a.book.calls, calls) == Enumerated(calls);
    if |calls| > 1 {
      var second := calls[1];
      assert second.id in a.book.byID;
    }
  }
}
