// The accumulator as the program runs it: fields updated in place by its methods,
// each proved to do exactly what the specification functions say (upstream.go).
module IdeAccumulator {
  import opened Wrappers
  import opened Text
  import opened Json
  import Accumulator
  import EventStream
  import opened Types = Accumulator

  class IdeAccumulator {
    const x: Session
    var content: string
    var reasoning: string
    var finish: string
    var usage: Option<Fields>
    var calls: seq<Slot>
    var byID: map<string, nat>
    var byIndex: map<int, nat>
    var terminal: bool
    var lastCall: nat
    var emitted: seq<Delta>

    function View(): Acc
      reads this
    {
      Acc(content, reasoning, finish, usage, Book(calls, byID, byIndex, lastCall), terminal, emitted)
    }

    ghost predicate Valid()
      reads this
    {
      View().book.Indexed()
    }

    // The step that ended in this state with this error.
    function Outcome(e: Option<Failure>): Step
      reads this
    {
      match e
      case None => Go(View())
      case Some(why) => Stop(View(), why)
    }

    constructor (x: Session)
      ensures this.x == x && View() == INITIAL && Valid()
    {
      this.x := x;
      content, reasoning, finish, usage := "", "", "stop", None;
      calls, byID, byIndex, lastCall := [], map[], map[], 0;
      terminal, emitted := false, [];
    }

    method Send(d: Delta) returns (e: Option<Failure>)
      modifies this`emitted
      ensures Outcome(e) == Accumulator.Send(x, old(View()), d)
    {
      emitted := emitted + [d];
      e := if x.patience.Some? && |emitted| > x.patience.value then Some(EmitFailed) else None;
    }

    // The book moved from the given state as the specification says.
    predicate Booked(e: Option<Failure>, before: Acc, r: Move)
      reads this
    {
      View() == before.(book := r.book) && e == if r.Moved? then None else Some(r.why)
    }

    method AddCall(m: Fields, fallback: int) returns (e: Option<Failure>)
      requires Valid()
      modifies this
      ensures Outcome(e) == Accumulator.AddCall(x, old(View()), m, fallback)
      ensures e.None? ==> Valid()
    {
      var rec := ReadRecord(x, m, fallback);
      if rec.Skipped? { return None; }
      if rec.BadRecord? { return Some(BadIndex); }
      e := Address(rec.index, rec.id);
      if e.Some? { return; }
      e := Describe(rec.native, rec.name, rec.value);
      if e.Some? { return; }
      e := Tell();
    }

    // Find or open the addressed slot.
    method Address(index: int, id: string) returns (e: Option<Failure>)
      requires Valid()
      modifies this`calls, this`byID, this`byIndex, this`lastCall
      ensures Booked(e, old(View()), Seat(x.rt, old(View().book), index, id))
    {
      var known := id in byID;
      var slot := if known then byID[id] else 0;
      if index >= 0 && index in byIndex {
        var indexed := byIndex[index];
        if known && indexed != slot { return Some(ConflictingIndex); }
        if !known {
          slot, known := indexed, true;
          if id != "" && calls[slot].call.id != id { return Some(ChangedIdentity); }
        }
      }
      if !known && id == "" && index < 0 && lastCall > 0 {
        slot, known := lastCall - 1, true;
      }
      if !known {
        slot := |calls|;
        if slot >= MAX_CALLS { return Some(TooManyCalls); }
        var minted := if id == "" then x.rt.newID(byID.Keys) else id;
        calls := calls + [Slot(ToolCall(minted, "function", "", ""), false, "")];
        byID := byID[minted := slot];
      }
      if index >= 0 { byIndex := byIndex[index := slot]; }
      lastCall := slot + 1;
      return None;
    }

    // Name the current call and take in its arguments.
    method Describe(native: bool, name: string, value: Option<Json>) returns (e: Option<Failure>)
      requires Valid() && lastCall > 0
      modifies this`calls
      ensures Valid() && lastCall > 0
      ensures var named := NameCall(old(View().book), name);
              Booked(e, old(View()), if named.Refused? then named else FillArguments(x.rt, named.book, native, value))
    {
      e := TakeName(name);
      if e.Some? { return; }
      e := TakeArguments(native, value);
    }

    method TakeName(name: string) returns (e: Option<Failure>)
      requires Valid() && lastCall > 0
      modifies this`calls
      ensures Valid() && lastCall > 0 && Booked(e, old(View()), NameCall(old(View().book), name))
    {
      var slot := lastCall - 1;
      if name != "" {
        var was := calls[slot].call.name;
        if was != "" && was != name { return Some(ChangedName); }
        calls := calls[slot := calls[slot].(call := calls[slot].call.(name := name))];
      }
      return None;
    }

    method TakeArguments(native: bool, value: Option<Json>) returns (e: Option<Failure>)
      requires Valid() && lastCall > 0
      modifies this`calls
      ensures Valid() && lastCall > 0 && Booked(e, old(View()), FillArguments(x.rt, old(View().book), native, value))
    {
      var slot := lastCall - 1;
      var args := Arguments(x.rt, calls[slot].call.args, native, value);
      calls := calls[slot := calls[slot].(call := calls[slot].call.(args := args))];
      return if ByteLen(args) > MAX_ARGUMENTS then Some(ArgumentsTooLarge) else None;
    }

    // Check the current call and publish what is new about it.
    method Tell() returns (e: Option<Failure>)
      requires Valid() && lastCall > 0
      modifies this`calls, this`emitted
      ensures Outcome(e) == Report(x, old(View()))
      ensures Valid()
    {
      var s := calls[lastCall - 1];
      if s.call.name == "" { return None; }
      if !x.policy.Allows(s.call.name) { return Some(UnavailableTool); }
      if x.policy.OneAtATime() && |calls| > 1 { return Some(ParallelDisabled); }
      if !(s.sentArgs <= s.call.args) { return Some(RewroteArguments); }
      if !s.sent || s.sentArgs != s.call.args {
        e := Send(News(s, lastCall - 1));
        if e.Some? { return; }
        calls := calls[lastCall - 1 := s.(sent := true, sentArgs := s.call.args)];
      }
      return None;
    }

    method ExtractCalls(obj: Fields) returns (e: Option<Failure>)
      requires Valid()
      modifies this
      ensures Outcome(e) == Accumulator.ExtractCalls(x, old(View()), obj)
      ensures e.None? ==> Valid()
    {
      ghost var start := View();
      var keys := CALL_KEYS;
      var k := 0;
      while k < |keys|
        invariant 0 <= k <= |keys| && Valid() && AddAll(x, start, ItemsOf(x.rt, obj, keys[..k])) == Go(View())
      {
        KeyAdds(x, start, View(), obj, keys, k);
        if keys[k] in obj {
          e := ExtractRecords(obj, keys[k]);
          if e.Some? {
            StopsHere(x, start, obj, keys, k + 1);
            return;
          }
        }
        k := k + 1;
      }
      assert keys[..k] == CALL_KEYS;
      return None;
    }

    method ExtractRecords(obj: Fields, key: string) returns (e: Option<Failure>)
      requires Valid() && key in obj
      modifies this
      ensures Outcome(e) == AddAll(x, old(View()), ItemsAt(x.rt, obj, key))
      ensures e.None? ==> Valid()
    {
      ghost var start := View();
      var records := Records(obj[key]);
      ghost var items := ItemsAt(x.rt, obj, key);
      var i := 0;
      while i < |records|
        invariant 0 <= i <= |records| == |items| && Valid() && AddAll(x, start, items[..i]) == Go(View())
      {
        var item := ItemOf(x.rt, key, records[i], if |records| > 1 then i else -1);
        assert items[..i + 1][..i] == items[..i] && items[i] == item;
        i := i + 1;
        if item.BadItem? {
          e := Some(BadToolEvent);
        } else {
          e := AddCall(item.m, item.fallback);
        }
        if e.Some? {
          AddAllStops(x, start, items[..i], items[i..]);
          assert items[..i] + items[i..] == items;
          return;
        }
      }
      assert items[..i] == items;
      return None;
    }

    method Frame(event: string, raw: string) returns (e: Option<Failure>)
      requires Valid()
      modifies this
      ensures Outcome(e) == Accumulator.Frame(x, old(View()), event, raw)
      ensures e.None? ==> Valid()
    {
      if raw == "[DONE]" {
        terminal := true;
        return None;
      }
      var decoded := x.rt.decode(raw);
      if decoded.None? { return Some(BadJson); }
      var obj := decoded.value;
      match KindOf(x.rt, event, obj)
      case Refusal(why) => return Some(why);
      case Heartbeat => e := Send(Beat);
      case TokenUsage =>
        var v := ObjectValue(x.rt, Get(obj, "usage"));
        usage := if v.Some? then v else Some(obj);
        return None;
      case Output(done) =>
        var noted := Note(x.rt, View(), obj);
        usage, finish := noted.usage, noted.finish;
        assert View() == noted;
        e := Output(done, obj);
    }

    method Output(done: bool, obj: Fields) returns (e: Option<Failure>)
      requires Valid()
      modifies this
      ensures Outcome(e) == Content(x, old(View()), done, obj)
      ensures e.None? ==> Valid()
    {
      var words := SplitThinking(ReadWords(x.rt, obj));
      e := Absorb(words);
      if e.Some? { return; }
      e := ExtractCalls(obj);
      if e.Some? { return; }
      var m := ObjectValue(x.rt, Get(obj, "message"));
      if m.Some? {
        e := ExtractCalls(m.value);
        if e.Some? { return; }
      }
      if done { terminal := true; }
      return None;
    }

    method Absorb(words: Words) returns (e: Option<Failure>)
      modifies this`content, this`reasoning, this`emitted
      ensures Outcome(e) == Accumulator.Absorb(x, old(View()), words)
    {
      var (text, newText) := MergeSnapshot(content, words.text);
      content := text;
      if newText != "" {
        e := Send(TextDelta(newText));
        if e.Some? { return; }
      }
      var (reason, newReason) := MergeSnapshot(reasoning, words.reason);
      reasoning := reason;
      if newReason != "" {
        e := Send(ReasoningDelta(newReason));
        if e.Some? { return; }
      }
      return if ByteLen(content) + ByteLen(reasoning) > MAX_TEXT then Some(TooLarge) else None;
    }

    // The end of the stream: turn the slots into the calls of the message.
    method Conclude() returns (e: Option<Failure>, answered: seq<ToolCall>)
      modifies this`emitted, this`finish
      ensures Accumulator.Conclude(x, old(View())) == Result(e, answered)
    {
      answered := [];
      ghost var start := View();
      while |answered| < |calls|
        invariant |answered| <= |calls| && calls == start.book.calls
        invariant CloseCalls(x, start, []) == CloseCalls(x, View(), answered)
      {
        var s := calls[|answered|];
        if !s.sent { return Some(UnnamedTool), []; }
        if s.call.args == "" {
          e := Send(CallDelta(|answered|, "", "", "{}"));
          if e.Some? { return e, []; }
        }
        var c := Answer(s);
        if !x.rt.valid(c.args) { return Some(InvalidArguments), []; }
        answered := answered + [c];
      }
      if |answered| == 0 && x.policy.choice != "auto" && x.policy.choice != "none" { return Some(MissingCall), []; }
      if content == "" && reasoning == "" && |answered| == 0 { return Some(EmptyResponse), []; }
      if |answered| > 0 { finish := "tool_calls"; }
      return None, answered;
    }

    function Result(e: Option<Failure>, answered: seq<ToolCall>): Ending
      reads this
    {
      match e
      case None => Ended(View(), answered)
      case Some(why) => Broken(View(), why)
    }
  }

  // ---------- The loops and their specification ----------

  lemma {:induction false} AddAllAppend(x: Session, a: Acc, items: seq<Item>, more: seq<Item>)
    requires a.book.Indexed()
    ensures AddAll(x, a, items + more) ==
            match AddAll(x, a, items) case Stop(b, why) => Stop(b, why) case Go(b) => AddAll(x, b, more)
  {
    if more == [] {
      assert items + more == items;
    } else {
      var n := |more| - 1;
      AddAllAppend(x, a, items, more[..n]);
      assert (items + more)[..|items + more| - 1] == items + more[..n];
    }
  }

  // One more key adds its items.
  lemma KeyAdds(x: Session, a: Acc, b: Acc, obj: Fields, keys: seq<string>, k: nat)
    requires a.book.Indexed() && k < |keys| && AddAll(x, a, ItemsOf(x.rt, obj, keys[..k])) == Go(b)
    ensures AddAll(x, a, ItemsOf(x.rt, obj, keys[..k + 1])) == AddAll(x, b, ItemsAt(x.rt, obj, keys[k]))
    ensures keys[k] !in obj ==> ItemsOf(x.rt, obj, keys[..k + 1]) == ItemsOf(x.rt, obj, keys[..k])
  {
    assert keys[..k + 1][..k] == keys[..k];
    AddAllAppend(x, a, ItemsOf(x.rt, obj, keys[..k]), ItemsAt(x.rt, obj, keys[k]));
  }

  lemma AddAllStops(x: Session, a: Acc, items: seq<Item>, more: seq<Item>)
    requires a.book.Indexed() && AddAll(x, a, items).Stop?
    ensures AddAll(x, a, items + more) == AddAll(x, a, items)
  {
    AddAllAppend(x, a, items, more);
  }

  lemma {:induction false} ItemsOfPrefix(rt: Runtime, obj: Fields, keys: seq<string>, k: nat)
    requires k <= |keys|
    ensures ItemsOf(rt, obj, keys[..k]) <= ItemsOf(rt, obj, keys)
  {
    if k == |keys| {
      assert keys[..k] == keys;
    } else {
      ItemsOfPrefix(rt, obj, keys[..|keys| - 1], k);
      assert keys[..|keys| - 1][..k] == keys[..k];
    }
  }

  // A refusal within the first keys is the refusal of the whole event.
  lemma StopsHere(x: Session, a: Acc, obj: Fields, keys: seq<string>, k: nat)
    requires a.book.Indexed() && k <= |keys| && AddAll(x, a, ItemsOf(x.rt, obj, keys[..k])).Stop?
    ensures AddAll(x, a, ItemsOf(x.rt, obj, keys)) == AddAll(x, a, ItemsOf(x.rt, obj, keys[..k]))
  {
    ItemsOfPrefix(x.rt, obj, keys, k);
    var done := ItemsOf(x.rt, obj, keys[..k]);
    var all := ItemsOf(x.rt, obj, keys);
    assert all == done + all[|done|..];
    AddAllStops(x, a, done, all[|done|..]);
  }

  // readIDEStream: the scanning loop with its pending event and data lines.
  method ReadIDEStream(x: Session, lines: seq<string>, broken: bool) returns (r: Ending)
    ensures r == EventStream.Read(x, lines, broken)
  {
    var a := new IdeAccumulator(x);
    var event, data := "", [];
    var i := 0;
    var halted := false;
    assert lines[..0] == [];
    while i < |lines| && !halted
      invariant 0 <= i <= |lines| && a.x == x && a.Valid() && fresh(a)
      invariant EventStream.Lines(x, EventStream.IDLE, lines[..i]) ==
                if halted then EventStream.Halt(EventStream.Scan(a.View(), event, data))
                else EventStream.More(EventStream.Scan(a.View(), event, data))
      invariant halted ==> a.terminal
    {
      var line := lines[i];
      i := i + 1;
      ghost var before := EventStream.Scan(a.View(), event, data);
      assert lines[..i][..i - 1] == lines[..i - 1];
      LinesCut(x, lines, i);
      var e: Option<Failure> := None;
      if Trim(line) == "" {
        e := FlushPending(a, event, data);
        event, data := "", [];
        halted := e.None? && a.terminal;
      } else if "event:" <= line {
        if data != [] {
          e := FlushPending(a, event, data);
          data := [];
        }
        event := Trim(line[6..]);
      } else if "data:" <= line {
        data := data + [Trim(line[5..])];
      } else if ":" <= line {
        e := a.Send(Beat);
      }
      if e.Some? {
        return Broken(a.View(), e.value);
      }
    }
    LinesCut(x, lines, i);
    assert !halted ==> lines[..i] == lines;
    if !halted && broken {
      return Broken(a.View(), ReadFailed);
    }
    if !a.terminal {
      var e := FlushPending(a, event, data);
      if e.Some? { return Broken(a.View(), e.value); }
    }
    if !a.terminal {
      return Broken(a.View(), Unterminated);
    }
    var e, answered := a.Conclude();
    return a.Result(e, answered);
  }

  method FlushPending(a: IdeAccumulator, event: string, data: seq<string>) returns (e: Option<Failure>)
    requires a.Valid()
    modifies a
    ensures a.Outcome(e) == EventStream.Flush(a.x, EventStream.Scan(old(a.View()), event, data))
    ensures e.None? ==> a.Valid()
  {
    if data == [] {
      if NormalizeEvent(event) == "done" { a.terminal := true; }
      return None;
    }
    e := a.Frame(event, Join(data, "\n"));
  }

  lemma LinesCut(x: Session, lines: seq<string>, i: nat)
    requires i <= |lines|
    ensures !EventStream.Lines(x, EventStream.IDLE, lines[..i]).More? ==>
            EventStream.Lines(x, EventStream.IDLE, lines) == EventStream.Lines(x, EventStream.IDLE, lines[..i])
  {
    assert lines == lines[..i] + lines[i..];
    EventStream.LinesAppend(x, EventStream.IDLE, lines[..i], lines[i..]);
  }
}
