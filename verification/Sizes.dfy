// The limits on what an upstream stream may make the gateway hold (upstream.go).
module Sizes {
  import opened Wrappers
  import opened Text
  import opened Json
  import opened Accumulator
  import opened EventStream

  ghost predicate SmallBook(b: Book) {
    |b.calls| <= MAX_CALLS && forall i | 0 <= i < |b.calls| :: ByteLen(b.calls[i].call.args) <= MAX_ARGUMENTS
  }

  ghost predicate Small(a: Acc) {
    ByteLen(a.content) + ByteLen(a.reasoning) <= MAX_TEXT && SmallBook(a.book)
  }

  lemma SeatSmall(rt: Runtime, a: Book, index: int, id: string)
    requires a.Indexed() && SmallBook(a) && Seat(rt, a, index, id).Moved?
    ensures SmallBook(Seat(rt, a, index, id).book)
  {}

  lemma NameSmall(a: Book, name: string)
    requires 0 < a.lastCall <= |a.calls| && SmallBook(a)
    ensures SmallBook(NameCall(a, name).book)
  {}

  lemma FillSmall(rt: Runtime, a: Book, native: bool, value: Option<Json>)
    requires 0 < a.lastCall <= |a.calls| && SmallBook(a) && FillArguments(rt, a, native, value).Moved?
    ensures SmallBook(FillArguments(rt, a, native, value).book)
  {}

  lemma ReportSmall(x: Session, a: Acc)
    requires 0 < a.book.lastCall <= |a.book.calls| && Small(a) && Report(x, a).Go?
    ensures Small(Report(x, a).acc)
  {}

  lemma AddCallSmall(x: Session, a: Acc, m: Fields, fallback: int)
    requires a.book.Indexed() && Small(a) && AddCall(x, a, m, fallback).Go?
    ensures Small(AddCall(x, a, m, fallback).acc)
  {
    match ReadRecord(x, m, fallback)
    case Record(native, name, index, id, value) =>
      SeatSmall(x.rt, a.book, index, id);
      var b := Seat(x.rt, a.book, index, id).book;
      NameSmall(b, name);
      FillSmall(x.rt, NameCall(b, name).book, native, value);
      ReportSmall(x, a.(book := Arrange(x.rt, a.book, native, name, index, id, value).book));
    case _ =>
  }

  lemma {:induction false} AddAllSmall(x: Session, a: Acc, items: seq<Item>)
    requires a.book.Indexed() && Small(a) && AddAll(x, a, items).Go?
    ensures Small(AddAll(x, a, items).acc)
  {
    if items != [] {
      AddAllSmall(x, a, items[..|items| - 1]);
      match items[|items| - 1]
      case Item(m, fallback) => AddCallSmall(x, AddAll(x, a, items[..|items| - 1]).acc, m, fallback);
    }
  }

  lemma ContentSmall(x: Session, a: Acc, done: bool, obj: Fields)
    requires a.book.Indexed() && SmallBook(a.book) && Content(x, a, done, obj).Go?
    ensures Small(Content(x, a, done, obj).acc)
  {
    var b := Absorb(x, a, SplitThinking(ReadWords(x.rt, obj))).acc;
    AddAllSmall(x, b, ItemsOf(x.rt, obj, CALL_KEYS));
    var c := ExtractCalls(x, b, obj).acc;
    match ObjectValue(x.rt, Get(obj, "message"))
    case None =>
    case Some(m) => AddAllSmall(x, c, ItemsOf(x.rt, m, CALL_KEYS));
  }

  lemma FrameSmall(x: Session, a: Acc, event: string, raw: string)
    requires a.book.Indexed() && Small(a) && Frame(x, a, event, raw).Go?
    ensures Small(Frame(x, a, event, raw).acc)
  {
    if raw != "[DONE]" {
      var obj := x.rt.decode(raw).value;
      match KindOf(x.rt, event, obj)
      case Output(done) => ContentSmall(x, Note(x.rt, a, obj), done, obj);
      case _ =>
    }
  }

  lemma FlushSmall(x: Session, s: Scan)
    requires s.acc.book.Indexed() && Small(s.acc) && Flush(x, s).Go?
    ensures Small(Flush(x, s).acc)
  {
    if s.data != [] { FrameSmall(x, s.acc, s.event, Join(s.data, "\n")); }
  }

  lemma LineSmall(x: Session, s: Scan, line: string)
    requires s.acc.book.Indexed() && Small(s.acc) && !Line(x, s, line).Dead?
    ensures Small(Line(x, s, line).scan.acc)
  {
    if Trim(line) == "" || ("event:" <= line && s.data != []) { FlushSmall(x, s); }
  }

  // At every point of every stream that has not failed, the text held is at most 16 MiB,
  // the calls are at most 128 and the arguments of each at most 4 MiB.
  lemma {:induction false} StaysSmall(x: Session, lines: seq<string>)
    requires !Lines(x, IDLE, lines).Dead?
    ensures Small(Lines(x, IDLE, lines).scan.acc)
  {
    if lines != [] {
      StaysSmall(x, lines[..|lines| - 1]);
      if Lines(x, IDLE, lines[..|lines| - 1]).More? {
        LineSmall(x, Lines(x, IDLE, lines[..|lines| - 1]).scan, lines[|lines| - 1]);
      }
    }
  }

  lemma {:induction false} CloseSmall(x: Session, a: Acc, answered: seq<ToolCall>)
    requires |answered| <= |a.book.calls| && SmallBook(a.book) && CloseCalls(x, a, answered).Ended?
    requires forall i | 0 <= i < |answered| :: ByteLen(answered[i].args) <= MAX_ARGUMENTS
    ensures forall i | 0 <= i < |CloseCalls(x, a, answered).calls| ::
              ByteLen(CloseCalls(x, a, answered).calls[i].args) <= MAX_ARGUMENTS
    decreases |a.book.calls| - |answered|
  {
    if |answered| < |a.book.calls| {
      var s := a.book.calls[|answered|];
      var b := SendIf(x, a, CallDelta(|answered|, "", "", "{}"), s.call.args == "").acc;
      assert "{}"[..1] == "{";
      assert ByteLen("{") <= 4 && ByteLen("{}") <= 8;
      CloseSmall(x, b, answered + [Answer(s)]);
    }
  }

  // So is every message that a successful stream amounts to.
  lemma {:induction false} MessagesAreSmall(x: Session, lines: seq<string>, broken: bool)
    requires Read(x, lines, broken).Ended?
    ensures var r := Read(x, lines, broken);
            && ByteLen(r.acc.content) + ByteLen(r.acc.reasoning) <= MAX_TEXT
            && |r.calls| <= MAX_CALLS
            && forall i | 0 <= i < |r.calls| :: ByteLen(r.calls[i].args) <= MAX_ARGUMENTS
  {
    StaysSmall(x, lines);
    var s := Lines(x, IDLE, lines).scan;
    if !s.acc.terminal { FlushSmall(x, s); }
    var a := if s.acc.terminal then s.acc else Flush(x, s).acc;
    CloseSmall(x, a, []);
  }
}
