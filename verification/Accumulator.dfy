// The accumulator that folds upstream frames into one completion (upstream.go).
// Every function returns the state it leaves behind, also when it rejects: the
// deltas already handed to the emitter stay emitted.
module Accumulator {
  import opened Wrappers
  import opened Text
  import opened Json

  const MAX_CALLS := 128
  const MAX_ARGUMENTS := 4 * 1024 * 1024
  const MAX_TEXT := 16 * 1024 * 1024
  const CALL_KEYS := ["tool_calls", "tool_call", "function_call", "tool_call_info", "toolCallInfo"]
  const ARGUMENT_KEYS := ["arguments", "args", "input", "params", "parameters"]

  datatype ToolCall = ToolCall(id: string, kind: string, name: string, args: string)

  // One tool call under construction; sentArgs is the part already emitted.
  datatype Slot = Slot(call: ToolCall, sent: bool, sentArgs: string) {
    // Published exactly when named, and up to date.
    predicate Settled() {
      && (sent <==> call.name != "")
      && (sent ==> sentArgs == call.args)
    }

    // Published only if permitted, and only as the first call when calls are not parallel.
    predicate Permitted(p: Policy, i: int) {
      && (!sent ==> sentArgs == "")
      && (sent ==> p.Allows(call.name) && call.name != "")
      && (sent && p.OneAtATime() ==> i == 0)
    }

    function PublishedCall(): ToolCall {
      call.(args := sentArgs)
    }
  }

  datatype Delta =
    | Start(model: string)
    | TextDelta(text: string)
    | ReasoningDelta(reasoning: string)
    | CallDelta(index: int, id: string, name: string, args: string)
    | Beat

  datatype Policy = Policy(tools: seq<string>, choice: string, parallel: Option<bool>) {
    // A call of this name may be made at all.
    predicate Allows(name: string) {
      && name in tools
      && choice != "none"
      && (choice == "auto" || choice == "required" || choice == name)
    }

    predicate OneAtATime() {
      parallel == Some(false)
    }
  }

  // A stream stops at the first delta its emitter refuses, so an emitter is given by
  // how many deltas it accepts before that; None never refuses.
  datatype Session = Session(rt: Runtime, policy: Policy, patience: Option<nat>)

  datatype Failure =
    | EmitFailed | BadJson | CredentialRejected | BusinessError | ErrorEvent | TooLarge
    | BadToolEvent | BadIndex | ConflictingIndex | ChangedIdentity | TooManyCalls | ChangedName
    | ArgumentsTooLarge | UnavailableTool | ParallelDisabled | RewroteArguments
    | ReadFailed | Unterminated | UnnamedTool | InvalidArguments | MissingCall | EmptyResponse

  // What a reader of the deltas holds: text, reasoning, and a call per index.
  datatype Draft = Draft(text: string, reasoning: string, calls: map<int, ToolCall>)

  // The calls and the maps that address them.
  datatype Book = Book(
    calls: seq<Slot>,
    byID: map<string, nat>,
    byIndex: map<int, nat>,
    lastCall: nat)              // one-based, the most recently addressed call
  {
    // Every stored position exists.
    ghost predicate Indexed() {
      && lastCall <= |calls|
      && (forall k | k in byIndex :: 0 <= k && byIndex[k] < |calls|)
      && (forall id | id in byID :: byID[id] < |calls|)
    }

    // byID is exactly the inverse of the slots' IDs, which are therefore distinct.
    ghost predicate Identified() {
      && |calls| <= MAX_CALLS
      && (forall i {:trigger Registered(i)} | 0 <= i < |calls| :: Registered(i))
      && (forall id {:trigger Backed(id)} | id in byID :: Backed(id))
    }

    ghost predicate Registered(i: int)
      requires 0 <= i < |calls|
    {
      var c := calls[i].call;
      c.id != "" && c.kind == "function" && c.id in byID && byID[c.id] == i
    }

    ghost predicate Backed(id: string)
      requires id in byID
    {
      byID[id] < |calls| && calls[byID[id]].call.id == id
    }

    // What has been published about the calls.
    function Published(): map<int, ToolCall> {
      map i | 0 <= i < |calls| && calls[i].sent :: calls[i].PublishedCall()
    }

    ghost predicate Obeys(p: Policy) {
      forall i {:trigger calls[i].Permitted(p, i)} | 0 <= i < |calls| :: calls[i].Permitted(p, i)
    }

    // Every slot but k is settled.
    ghost predicate SettledBut(k: int) {
      forall i {:trigger calls[i].Settled()} | 0 <= i < |calls| && i != k :: calls[i].Settled()
    }

    // Holds while the current call is being changed.
    ghost predicate Open(p: Policy) {
      Indexed() && Identified() && Obeys(p) && lastCall > 0 && SettledBut(lastCall - 1)
    }

    // Holds between records.
    ghost predicate Inv(p: Policy) {
      Indexed() && Identified() && Obeys(p) && SettledBut(-1)
    }
  }

  datatype Acc = Acc(
    content: string,
    reasoning: string,
    finish: string,
    usage: Option<Fields>,
    book: Book,
    terminal: bool,
    emitted: seq<Delta>)
  {
    // The deltas amount to exactly the accumulated text and the published calls.
    ghost predicate Accounted() {
      Rebuild(emitted) == Draft(content, reasoning, book.Published())
    }

    // Holds between records and between frames.
    ghost predicate Inv(p: Policy) {
      book.Inv(p) && Accounted() && finish != ""
    }
  }

  const NO_CALLS := Book([], map[], map[], 0)
  const INITIAL := Acc("", "", "stop", None, NO_CALLS, false, [])

  datatype Step = Go(acc: Acc) | Stop(acc: Acc, why: Failure) {
    predicate IsFailure() { Stop? }
    function PropagateFailure(): Step requires Stop? { this }
    function Extract(): Acc requires Go? { acc }
  }

  // A step on the book alone.
  datatype Move = Moved(book: Book) | Refused(book: Book, why: Failure) {
    predicate IsFailure() { Refused? }
    function PropagateFailure(): Move requires Refused? { this }
    function Extract(): Book requires Moved? { book }
  }

  // ---------- Deltas and what they amount to ----------

  function Rebuild(ds: seq<Delta>): Draft {
    if ds == [] then Draft("", "", map[]) else Apply(Rebuild(ds[..|ds| - 1]), ds[|ds| - 1])
  }

  function Apply(h: Draft, d: Delta): Draft {
    match d
    case TextDelta(t) => h.(text := h.text + t)
    case ReasoningDelta(t) => h.(reasoning := h.reasoning + t)
    case CallDelta(i, id, name, args) =>
      var was := if i in h.calls then h.calls[i] else ToolCall("", "function", "", "");
      h.(calls := h.calls[i := ToolCall(was.id + id, "function", was.name + name, was.args + args)])
    case _ => h
  }

  lemma RebuildAppend(ds: seq<Delta>, d: Delta)
    ensures Rebuild(ds + [d]) == Apply(Rebuild(ds), d)
  {
    assert (ds + [d])[..|ds|] == ds;
  }

  function Send(x: Session, a: Acc, d: Delta): (r: Step)
    ensures r.acc == a.(emitted := a.emitted + [d])
  {
    var b := a.(emitted := a.emitted + [d]);
    if x.patience.Some? && |a.emitted| >= x.patience.value then Stop(b, EmitFailed) else Go(b)
  }

  // ---------- One tool-call record ----------

  datatype Record =
    | Skipped
    | BadRecord
    | Record(native: bool, name: string, index: int, id: string, value: Option<Json>)

  // The object that holds name and arguments, and whether it is the native form.
  function FunctionPart(rt: Runtime, m: Fields): (bool, Fields) {
    match ObjectValue(rt, Get(m, "function_call"))
    case Some(fn) => (true, fn)
    case None =>
      match ObjectValue(rt, Get(m, "functionCall"))
      case Some(fn) => (true, fn)
      case None =>
        match ObjectValue(rt, Get(m, "function"))
        case Some(fn) => (false, fn)
        case None => (false, m)
  }

  function FirstPresent(m: Fields, keys: seq<string>): Option<Json> {
    if keys == [] then None
    else if keys[0] in m then Some(m[keys[0]])
    else FirstPresent(m, keys[1..])
  }

  function ReadRecord(x: Session, m: Fields, fallback: int): Record {
    var (native, fn) := FunctionPart(x.rt, m);
    var own := FirstString(x.rt, fn, ["name"]);
    var name := if own == "" then FirstString(x.rt, m, ["name", "tool_name"]) else own;
    if name in ["finish", "done", "final"] && name !in x.policy.tools then Skipped else
    var given := Get(m, "index");
    if given.Some? && given.value.Num? && (given.value.number < 0.0 || given.value.number > 10000.0) then BadRecord else
    var index := if given.Some? && given.value.Num? then given.value.number.Floor else fallback;
    var outer := FirstString(x.rt, m, ["id", "tool_call_id", "toolCallId"]);
    var id := if outer == "" then FirstString(x.rt, fn, ["id", "toolCallId"]) else outer;
    Record(native, name, index, id, FirstPresent(fn, ARGUMENT_KEYS))
  }

  datatype Place = At(slot: nat) | NewSlot | Clash(why: Failure)

  // Which slot a record addresses: by ID, by index, or the last call.
  function Locate(a: Book, index: int, id: string): (p: Place)
    requires a.Indexed()
    ensures p.At? ==> p.slot < |a.calls|
  {
    if index >= 0 && index in a.byIndex then
      var slot := a.byIndex[index];
      if id in a.byID then
        if slot != a.byID[id] then Clash(ConflictingIndex) else At(slot)
      else if id != "" && a.calls[slot].call.id != id then Clash(ChangedIdentity)
      else At(slot)
    else if id in a.byID then At(a.byID[id])
    else if id == "" && index < 0 && a.lastCall > 0 then At(a.lastCall - 1)
    else NewSlot
  }

  // Find or open the slot, and remember the index and the last call.
  function Seat(rt: Runtime, a: Book, index: int, id: string): (r: Move)
    requires a.Indexed()
    ensures r.Moved? ==> r.book.Indexed() && r.book.lastCall > 0
  {
    match Locate(a, index, id)
    case Clash(why) => Refused(a, why)
    case At(slot) => Moved(Point(a, index, slot))
    case NewSlot =>
      if |a.calls| >= MAX_CALLS then Refused(a, TooManyCalls) else
      Moved(Point(Open(a, if id == "" then rt.newID(a.byID.Keys) else id), index, |a.calls|))
  }

  function Open(a: Book, id: string): Book {
    a.(calls := a.calls + [Slot(ToolCall(id, "function", "", ""), false, "")], byID := a.byID[id := |a.calls|])
  }

  function Point(a: Book, index: int, slot: nat): Book {
    a.(byIndex := if index >= 0 then a.byIndex[index := slot] else a.byIndex, lastCall := slot + 1)
  }

  function Current(a: Book): Slot
    requires 0 < a.lastCall <= |a.calls|
  {
    a.calls[a.lastCall - 1]
  }

  function SetCurrent(a: Book, s: Slot): Book
    requires 0 < a.lastCall <= |a.calls|
  {
    a.(calls := a.calls[a.lastCall - 1 := s])
  }

  function NameCall(a: Book, name: string): (r: Move)
    requires 0 < a.lastCall <= |a.calls|
    ensures |r.book.calls| == |a.calls| && r.book.lastCall == a.lastCall
  {
    var s := Current(a);
    if name == "" then Moved(a)
    else if s.call.name != "" && s.call.name != name then Refused(a, ChangedName)
    else Moved(SetCurrent(a, s.(call := s.call.(name := name))))
  }

  // Native strings are deltas; native objects replace; other arguments are snapshots.
  function Arguments(rt: Runtime, was: string, native: bool, value: Option<Json>): string {
    match value
    case None => was
    case Some(Str(t)) => if native then was + t else MergeSnapshot(was, t).0
    case Some(v) => if native then rt.jsonText(v) else MergeSnapshot(was, rt.jsonText(v)).0
  }

  function FillArguments(rt: Runtime, a: Book, native: bool, value: Option<Json>): (r: Move)
    requires 0 < a.lastCall <= |a.calls|
    ensures |r.book.calls| == |a.calls| && r.book.lastCall == a.lastCall
  {
    var s := Current(a);
    var args := Arguments(rt, s.call.args, native, value);
    var b := SetCurrent(a, s.(call := s.call.(args := args)));
    if ByteLen(args) > MAX_ARGUMENTS then Refused(b, ArgumentsTooLarge) else Moved(b)
  }

  // Everything a record does to the book.
  function Arrange(rt: Runtime, a: Book, native: bool, name: string, index: int, id: string,
                   value: Option<Json>): (r: Move)
    requires a.Indexed()
    ensures r.Moved? ==> r.book.Indexed() && r.book.lastCall > 0
  {
    var b :- Seat(rt, a, index, id);
    var c :- NameCall(b, name);
    FillArguments(rt, c, native, value)
  }

  // Check the named call against the request and emit what is new about it.
  function Report(x: Session, a: Acc): (r: Step)
    requires 0 < a.book.lastCall <= |a.book.calls|
    ensures a.book.Indexed() ==> r.acc.book.Indexed()
  {
    var s := Current(a.book);
    if s.call.name == "" then Go(a)
    else if !x.policy.Allows(s.call.name) then Stop(a, UnavailableTool)
    else if x.policy.OneAtATime() && |a.book.calls| > 1 then Stop(a, ParallelDisabled)
    else if !(s.sentArgs <= s.call.args) then Stop(a, RewroteArguments)
    else if s.sent && s.sentArgs == s.call.args then Go(a)
    else
      var b :- Send(x, a, News(s, a.book.lastCall - 1));
      Go(b.(book := Publish(a.book)))
  }

  // Mark the current call as published in full.
  function Publish(a: Book): Book
    requires 0 < a.lastCall <= |a.calls|
  {
    SetCurrent(a, Current(a).(sent := true, sentArgs := Current(a).call.args))
  }

  // The delta that brings readers of this slot up to date.
  function News(s: Slot, index: int): Delta
    requires s.sentArgs <= s.call.args
  {
    var news := s.call.args[|s.sentArgs|..];
    if s.sent then CallDelta(index, "", "", news) else CallDelta(index, s.call.id, s.call.name, news)
  }

  function AddCall(x: Session, a: Acc, m: Fields, fallback: int): (r: Step)
    requires a.book.Indexed()
    ensures r.Go? ==> r.acc.book.Indexed()
  {
    match ReadRecord(x, m, fallback)
    case Skipped => Go(a)
    case BadRecord => Stop(a, BadIndex)
    case Record(native, name, index, id, value) =>
      match Arrange(x.rt, a.book, native, name, index, id, value)
      case Refused(b, why) => Stop(a.(book := b), why)
      case Moved(b) => Report(x, a.(book := b))
  }

  // ---------- All records of an event ----------

  datatype Item = BadItem | Item(m: Fields, fallback: int)

  function ItemOf(rt: Runtime, key: string, raw: Json, fallback: int): Item {
    match ObjectValue(rt, Some(raw))
    case None => BadItem
    case Some(m) =>
      if key == "function_call" && !Present(m, "function_call") then Item(map["function_call" := Obj(m)], fallback)
      else Item(m, fallback)
  }

  function Records(v: Json): seq<Json> {
    if v.Arr? then v.items else [v]
  }

  function ItemsAt(rt: Runtime, obj: Fields, key: string): seq<Item> {
    if key !in obj then [] else
      var rs := Records(obj[key]);
      seq(|rs|, i requires 0 <= i < |rs| => ItemOf(rt, key, rs[i], if |rs| > 1 then i else -1))
  }

  function ItemsOf(rt: Runtime, obj: Fields, keys: seq<string>): seq<Item> {
    if keys == [] then [] else ItemsOf(rt, obj, keys[..|keys| - 1]) + ItemsAt(rt, obj, keys[|keys| - 1])
  }

  function AddAll(x: Session, a: Acc, items: seq<Item>): (r: Step)
    requires a.book.Indexed()
    ensures r.Go? ==> r.acc.book.Indexed()
  {
    if items == [] then Go(a) else
      var b :- AddAll(x, a, items[..|items| - 1]);
      match items[|items| - 1]
      case BadItem => Stop(b, BadToolEvent)
      case Item(m, fallback) => AddCall(x, b, m, fallback)
  }

  function ExtractCalls(x: Session, a: Acc, obj: Fields): (r: Step)
    requires a.book.Indexed()
    ensures r.Go? ==> r.acc.book.Indexed()
  {
    AddAll(x, a, ItemsOf(x.rt, obj, CALL_KEYS))
  }

  // ---------- One frame ----------

  datatype Words = Words(text: string, reason: string)

  function ReadWords(rt: Runtime, obj: Fields): Words {
    var text := FirstString(rt, obj, ["response", "text", "content"]);
    var reason := FirstString(rt, obj, ["reasoning_content", "reasoningContent", "thought", "thinking"]);
    match ObjectValue(rt, Get(obj, "message"))
    case None => Words(text, reason)
    case Some(m) =>
      Words(if text == "" then FirstString(rt, m, ["content", "text"]) else text,
            if reason == "" then FirstString(rt, m, ["reasoning_content", "reasoningContent", "thought", "thinking"])
              else reason)
  }

  // The closing tag cannot overlap the opening one.
  lemma ClosingAfterOpening(text: string, at: nat)
    requires "<think>" <= text && OccursAt(text, "</think>", at)
    ensures at >= 7
  {
    assert text[at] == text[at..at + 8][0] == '<';
    assert text[at + 1] == text[at..at + 8][1] == '/';
  }

  // Thinking embedded at the head of the text is moved to the reasoning.
  function SplitThinking(w: Words): Words {
    if "<think>" <= w.text then
      match IndexOf(w.text, "</think>")
      case Some(at) =>
        ClosingAfterOpening(w.text, at);
        Words(w.text[at + 8..], w.text[7..at])
      case None => Words("", w.text[7..])
    else w
  }

  function SendIf(x: Session, a: Acc, d: Delta, some: bool): (r: Step)
    ensures r.acc.(emitted := a.emitted) == a
  {
    if some then Send(x, a, d) else Go(a)
  }

  function Absorb(x: Session, a: Acc, w: Words): (r: Step)
    ensures r.Go? ==> r.acc.content == MergeSnapshot(a.content, w.text).0
                      && r.acc.reasoning == MergeSnapshot(a.reasoning, w.reason).0
                      && ByteLen(r.acc.content) + ByteLen(r.acc.reasoning) <= MAX_TEXT
    ensures r.acc.book == a.book
  {
    var (content, freshText) := MergeSnapshot(a.content, w.text);
    var b :- SendIf(x, a.(content := content), TextDelta(freshText), freshText != "");
    var (reasoning, freshReason) := MergeSnapshot(b.reasoning, w.reason);
    var c :- SendIf(x, b.(reasoning := reasoning), ReasoningDelta(freshReason), freshReason != "");
    if ByteLen(content) + ByteLen(reasoning) > MAX_TEXT then Stop(c, TooLarge) else Go(c)
  }

  // Usage and finish reason found in any event; a later value replaces an earlier one.
  function Note(rt: Runtime, a: Acc, obj: Fields): (r: Acc)
    ensures r.(finish := a.finish, usage := a.usage) == a
  {
    var usage := ObjectValue(rt, Get(obj, "usage"));
    var reason := FirstString(rt, obj, ["finish_reason", "finishReason", "stop_reason", "stopReason"]);
    a.(usage := if usage.Some? then usage else a.usage,
       finish := if reason == "length" || reason == "max_tokens" then "length"
                 else if reason == "content_filter" then "content_filter"
                 else a.finish)
  }

  datatype Kind = Refusal(why: Failure) | Heartbeat | TokenUsage | Output(done: bool)

  // What an event asks for: its explicit or embedded type, its code, its error.
  function KindOf(rt: Runtime, event: string, obj: Fields): Kind {
    var named := FirstString(rt, obj, ["event", "event_type", "eventType", "type"]);
    var kind := NormalizeEvent(if event == "" then named else event);
    var code := FirstString(rt, obj, ["code"]);
    if code != "" && code != "0" then
      Refusal(if code in ["401", "403", "1001"] then CredentialRejected else BusinessError)
    else EventKind(kind, Present(obj, "error"))
  }

  function EventKind(kind: string, failed: bool): Kind {
    if kind == "error" || failed then Refusal(ErrorEvent)
    else if kind in ["heartbeat", "keepalive", "ping"] then Heartbeat
    else if kind == "tokenusage" then TokenUsage
    else Output(kind == "done")
  }

  function Frame(x: Session, a: Acc, event: string, raw: string): (r: Step)
    requires a.book.Indexed()
    ensures r.Go? ==> r.acc.book.Indexed()
  {
    if raw == "[DONE]" then Go(a.(terminal := true)) else
    match x.rt.decode(raw)
    case None => Stop(a, BadJson)
    case Some(obj) => FrameObject(x, a, KindOf(x.rt, event, obj), obj)
  }

  function FrameObject(x: Session, a: Acc, kind: Kind, obj: Fields): (r: Step)
    requires a.book.Indexed()
    ensures r.Go? ==> r.acc.book.Indexed()
  {
    match kind
    case Refusal(why) => Stop(a, why)
    case Heartbeat => Send(x, a, Beat)
    case TokenUsage =>
      var usage := ObjectValue(x.rt, Get(obj, "usage"));
      Go(a.(usage := if usage.Some? then usage else Some(obj)))
    case Output(done) => Content(x, Note(x.rt, a, obj), done, obj)
  }

  function Content(x: Session, a: Acc, done: bool, obj: Fields): (r: Step)
    requires a.book.Indexed()
    ensures r.Go? ==> r.acc.book.Indexed()
  {
    var b :- Absorb(x, a, SplitThinking(ReadWords(x.rt, obj)));
    var c :- ExtractCalls(x, b, obj);
    var d :- match ObjectValue(x.rt, Get(obj, "message"))
             case None => Go(c)
             case Some(m) => ExtractCalls(x, c, m);
    Go(if done then d.(terminal := true) else d)
  }

  // ---------- The end of the stream ----------

  datatype Ending = Ended(acc: Acc, calls: seq<ToolCall>) | Broken(acc: Acc, why: Failure)

  // The calls of the message, from the next unanswered one on.
  function CloseCalls(x: Session, a: Acc, answered: seq<ToolCall>): (r: Ending)
    requires |answered| <= |a.book.calls|
    ensures r.Ended? ==> |r.calls| == |a.book.calls| && r.acc.(emitted := a.emitted) == a
    decreases |a.book.calls| - |answered|
  {
    if |answered| == |a.book.calls| then Ended(a, answered) else
    var s := a.book.calls[|answered|];
    if !s.sent then Broken(a, UnnamedTool) else
    match SendIf(x, a, CallDelta(|answered|, "", "", "{}"), s.call.args == "")
    case Stop(b, why) => Broken(b, why)
    case Go(b) =>
      var c := Answer(s);
      if !x.rt.valid(c.args) then Broken(b, InvalidArguments) else CloseCalls(x, b, answered + [c])
  }

  // A call as it appears in the message: empty arguments become an empty object.
  function Answer(s: Slot): ToolCall {
    if s.call.args == "" then s.call.(args := "{}") else s.call
  }

  function Conclude(x: Session, a: Acc): Ending {
    match CloseCalls(x, a, [])
    case Broken(b, why) => Broken(b, why)
    case Ended(b, calls) =>
      if |calls| == 0 && x.policy.choice != "auto" && x.policy.choice != "none" then Broken(b, MissingCall)
      else if b.content == "" && b.reasoning == "" && |calls| == 0 then Broken(b, EmptyResponse)
      else Ended(if |calls| > 0 then b.(finish := "tool_calls") else b, calls)
  }
}
