// The chat stream on the wire: what the handler writes for each delta (http.go), and
// how the example client puts the message together again (examples/chat_client.py).
module ChatWire {
  import opened Wrappers
  import opened Text
  import opened Accumulator

  datatype ChunkCall = ChunkCall(index: int, id: string, name: string, args: string)

  // The JSON bodies that are sent as data.
  datatype Packet =
    | Chunk(content: string, reasoning: string, calls: seq<ChunkCall>, finish: string)
    | Usage
    | Fault(kind: string)

  // One write to the response.
  datatype WireItem = Data(packet: Packet) | Keepalive | DoneMark

  function ChunkOf(d: Delta): Packet
    requires !d.Beat?
  {
    match d
    case Start(_) => Chunk("", "", [], "")
    case TextDelta(t) => Chunk(t, "", [], "")
    case ReasoningDelta(t) => Chunk("", t, [], "")
    case CallDelta(i, id, name, args) => Chunk("", "", [ChunkCall(i, id, name, args)], "")
  }

  // JSON encoding as the server writes it and as the client reads it.
  datatype Codec = Codec(encode: Packet -> string, decode: string -> Option<Packet>) {
    // Bodies read back, stay on their line, and are JSON objects.
    ghost predicate Sound() {
      forall p: Packet :: decode(encode(p)) == Some(p) && Object(encode(p))
    }
  }

  predicate Object(s: string) {
    |s| >= 2 && s[0] == '{' && s[|s| - 1] == '}'
  }

  function LinesOf(c: Codec, item: WireItem): seq<string> {
    match item
    case Data(p) => ["data: " + c.encode(p), ""]
    case Keepalive => [": keepalive", ""]
    case DoneMark => ["data: [DONE]", ""]
  }

  function AllLines(c: Codec, items: seq<WireItem>): seq<string> {
    if items == [] then [] else AllLines(c, items[..|items| - 1]) + LinesOf(c, items[|items| - 1])
  }

  // ---------- The client ----------

  // str.strip
  predicate Blank(c: char) {
    IsSpace(c) || 0x1C <= c as int <= 0x1F
  }

  function StripLeft(s: string): string {
    if s != [] && Blank(s[0]) then StripLeft(s[1..]) else s
  }

  function Strip(s: string): string
  {
    StripRight(StripLeft(s))
  }

  function StripRight(s: string): string {
    if s != [] && Blank(s[|s| - 1]) then StripRight(s[..|s| - 1]) else s
  }

  datatype Client = Client(draft: Draft, finished: bool, done: bool)

  datatype Reading = Reading(client: Client) | Raised

  const FRESH := Client(Draft("", "", map[]), false, false)

  function AddCalls(calls: map<int, ToolCall>, news: seq<ChunkCall>): map<int, ToolCall> {
    if news == [] then calls else
      var before := AddCalls(calls, news[..|news| - 1]);
      var n := news[|news| - 1];
      var was := if n.index in before then before[n.index] else ToolCall("", "function", "", "");
      before[n.index := ToolCall(was.id + n.id, "function", was.name + n.name, was.args + n.args)]
  }

  function ReadPacket(c: Client, p: Packet): Reading {
    match p
    case Fault(_) => Raised
    case Usage => Reading(c)
    case Chunk(content, reasoning, calls, finish) =>
      Reading(Client(Draft(c.draft.text + content, c.draft.reasoning + reasoning, AddCalls(c.draft.calls, calls)),
                     c.finished || finish != "", c.done))
  }

  function ReadLine(codec: Codec, c: Client, raw: string): Reading {
    var line := Strip(raw);
    if line == "data: [DONE]" then Reading(c.(done := true))
    else if !("data: " <= line) then Reading(c)
    else match codec.decode(line[6..])
      case None => Raised
      case Some(p) => ReadPacket(c, p)
  }

  // Lines are read until the end mark.
  function ReadLines(codec: Codec, lines: seq<string>): Reading {
    if lines == [] then Reading(FRESH) else
      match ReadLines(codec, lines[..|lines| - 1])
      case Raised => Raised
      case Reading(c) => if c.done then Reading(c) else ReadLine(codec, c, lines[|lines| - 1])
  }

  datatype Reply = Reply(content: string, reasoning: string, calls: seq<ToolCall>)

  function Assemble(r: Reading): Option<Reply> {
    match r
    case Raised => None
    case Reading(c) =>
      if c.done && c.finished then Some(Reply(c.draft.text, c.draft.reasoning, InOrder(c.draft.calls))) else None
  }

  // _read_stream; None is a raised error.
  function ReadStream(codec: Codec, lines: seq<string>): Option<Reply> {
    Assemble(ReadLines(codec, lines))
  }

  // ---------- sorted(calls) ----------

  lemma Inhabited(keys: set<int>)
    requires keys != {}
    ensures exists k :: k in keys
  {
    if forall k :: k !in keys {
      assert false;
    }
  }

  lemma {:induction false} GreatestExists(keys: set<int>)
    requires keys != {}
    ensures exists m :: m in keys && forall k | k in keys :: k <= m
  {
    Inhabited(keys);
    var x :| x in keys;
    if keys - {x} == {} {
      assert forall k | k in keys :: k == x || k in keys - {x};
    } else {
      GreatestExists(keys - {x});
      var m :| m in keys - {x} && forall k | k in keys - {x} :: k <= m;
      var g := if x > m then x else m;
      assert forall k | k in keys :: k <= g by {
        assert forall k | k in keys :: k == x || k in keys - {x};
      }
    }
  }

  function Ascending(keys: set<int>): (ks: seq<int>)
    ensures forall i | 0 <= i < |ks| :: ks[i] in keys
    ensures forall k | k in keys :: k in ks
    ensures forall i, j | 0 <= i < j < |ks| :: ks[i] < ks[j]
  {
    if keys == {} then [] else
      GreatestExists(keys);
      var m :| m in keys && forall k | k in keys :: k <= m;
      Ascending(keys - {m}) + [m]
  }

  function InOrder(calls: map<int, ToolCall>): seq<ToolCall> {
    var ks := Ascending(calls.Keys);
    seq(|ks|, i requires 0 <= i < |ks| => calls[ks[i]])
  }

  // Calls numbered without gaps come out in their order.
  lemma InOrderEnumerated(calls: map<int, ToolCall>, cs: seq<ToolCall>)
    requires calls == map i | 0 <= i < |cs| :: cs[i]
    ensures InOrder(calls) == cs
  {
    AscendingRange(calls.Keys, |cs|);
  }

  lemma {:induction false} AscendingRange(keys: set<int>, n: nat)
    requires forall k :: k in keys <==> 0 <= k < n
    ensures |Ascending(keys)| == n && forall i | 0 <= i < n :: Ascending(keys)[i] == i
  {
    if n == 0 {
      if keys != {} { Inhabited(keys); }
    } else {
      assert n - 1 in keys;
      AscendingRange(keys - {n - 1}, n - 1);
      assert Ascending(keys) == Ascending(keys - {n - 1}) + [n - 1];
    }
  }

  // The loop of the client.
  method ReadStreamLoop(codec: Codec, lines: seq<string>) returns (r: Option<Reply>)
    ensures r == ReadStream(codec, lines)
  {
    var text, reasoning := "", "";
    var calls: map<int, ToolCall> := map[];
    var finished, done := false, false;
    var i := 0;
    assert lines[..0] == [];
    while i < |lines| && !done
      invariant 0 <= i <= |lines|
      invariant ReadLines(codec, lines[..i]) == Reading(Client(Draft(text, reasoning, calls), finished, done))
    {
      var line := Strip(lines[i]);
      i := i + 1;
      assert lines[..i][..i - 1] == lines[..i - 1];
      EndsHere(codec, lines, i);
      if line == "data: [DONE]" {
        done := true;
        break;
      }
      if !("data: " <= line) { continue; }
      var packet := codec.decode(line[6..]);
      if packet.None? || packet.value.Fault? { return None; }
      if packet.value.Chunk? {
        var chunk := packet.value;
        text, reasoning := text + chunk.content, reasoning + chunk.reasoning;
        var k := 0;
        ghost var before := calls;
        while k < |chunk.calls|
          invariant 0 <= k <= |chunk.calls| && calls == AddCalls(before, chunk.calls[..k])
        {
          var call := chunk.calls[k];
          var value := if call.index in calls then calls[call.index] else ToolCall("", "function", "", "");
          calls := calls[call.index := ToolCall(value.id + call.id, "function", value.name + call.name,
                                               value.args + call.args)];
          k := k + 1;
          assert chunk.calls[..k][..k - 1] == chunk.calls[..k - 1];
        }
        assert chunk.calls[..k] == chunk.calls;
        if chunk.finish != "" { finished := true; }
      }
    }
    EndsHere(codec, lines, i);
    assert !done ==> lines[..i] == lines;
    if !done || !finished { return None; }
    return Some(Reply(text, reasoning, InOrder(calls)));
  }

  lemma {:induction false} EndsHere(codec: Codec, lines: seq<string>, i: nat)
    requires i <= |lines|
    ensures var r := ReadLines(codec, lines[..i]);
            r.Raised? || r.client.done ==> ReadLines(codec, lines) == r
    decreases |lines|
  {
    if i == |lines| {
      assert lines[..i] == lines;
    } else {
      EndsHere(codec, lines[..|lines| - 1], i);
      assert lines[..|lines| - 1][..i] == lines[..i];
    }
  }

  // ---------- Reading what the handler wrote ----------

  function ReadItem(c: Client, item: WireItem): Reading {
    match item
    case Data(p) => ReadPacket(c, p)
    case Keepalive => Reading(c)
    case DoneMark => Reading(c.(done := true))
  }

  function ReadItems(items: seq<WireItem>): Reading {
    if items == [] then Reading(FRESH) else
      match ReadItems(items[..|items| - 1])
      case Raised => Raised
      case Reading(c) => if c.done then Reading(c) else ReadItem(c, items[|items| - 1])
  }

  lemma StripSolid(s: string)
    requires s != [] && !Blank(s[0]) && !Blank(s[|s| - 1])
    ensures Strip(s) == s
  {}

  lemma DataRead(codec: Codec, c: Client, p: Packet)
    requires codec.Sound()
    ensures ReadLine(codec, c, "data: " + codec.encode(p)) == ReadPacket(c, p)
  {
    var body := codec.encode(p);
    var line := "data: " + body;
    assert Object(body) && codec.decode(body) == Some(p);
    assert line[|line| - 1] == '}';
    StripSolid(line);
    assert line[6..] == body && line[6] == '{';
    assert line != "data: [DONE]";
  }

  lemma MarksRead(codec: Codec, c: Client)
    ensures ReadLine(codec, c, ": keepalive") == Reading(c)
    ensures ReadLine(codec, c, "data: [DONE]") == Reading(c.(done := true))
    ensures ReadLine(codec, c, "") == Reading(c)
  {
    StripSolid(": keepalive");
    StripSolid("data: [DONE]");
    assert Strip("") == "";
  }

  lemma LinesNext(codec: Codec, lines: seq<string>, line: string)
    ensures ReadLines(codec, lines + [line]) ==
            match ReadLines(codec, lines)
            case Raised => Raised
            case Reading(c) => if c.done then Reading(c) else ReadLine(codec, c, line)
  {
    assert (lines + [line])[..|lines|] == lines;
  }

  lemma ItemLines(codec: Codec, c: Client, lines: seq<string>, item: WireItem)
    requires codec.Sound() && ReadLines(codec, lines) == Reading(c) && !c.done
    ensures ReadLines(codec, lines + LinesOf(codec, item)) == ReadItem(c, item)
  {
    var two := LinesOf(codec, item);
    assert lines + two == lines + [two[0]] + [two[1]];
    LinesNext(codec, lines, two[0]);
    LinesNext(codec, lines + [two[0]], two[1]);
    MarksRead(codec, c);
    if item.Data? { DataRead(codec, c, item.packet); }
    if ReadItem(c, item).Reading? { MarksRead(codec, ReadItem(c, item).client); }
  }

  lemma {:induction false} LinesRead(codec: Codec, items: seq<WireItem>)
    requires codec.Sound()
    ensures ReadLines(codec, AllLines(codec, items)) == ReadItems(items)
  {
    if items != [] {
      var n := |items| - 1;
      LinesRead(codec, items[..n]);
      var before := AllLines(codec, items[..n]);
      var all := before + LinesOf(codec, items[n]);
      var r := ReadItems(items[..n]);
      if r.Reading? && !r.client.done {
        ItemLines(codec, r.client, before, items[n]);
      } else {
        assert all[..|before|] == before;
        EndsHere(codec, all, |before|);
      }
    }
  }

  // Without an end mark nothing is accepted, whatever else was read.
  lemma {:induction false} NoDoneNoReply(codec: Codec, lines: seq<string>)
    requires forall i | 0 <= i < |lines| :: Strip(lines[i]) != "data: [DONE]"
    ensures ReadLines(codec, lines).Reading? ==> !ReadLines(codec, lines).client.done
    ensures ReadStream(codec, lines) == None
  {
    if lines != [] {
      NoDoneNoReply(codec, lines[..|lines| - 1]);
    }
  }

  function WithoutKeepalives(items: seq<WireItem>): seq<WireItem> {
    if items == [] then [] else
      var last := items[|items| - 1];
      WithoutKeepalives(items[..|items| - 1]) + (if last.Keepalive? then [] else [last])
  }

  lemma {:induction false} KeepalivesIgnored(items: seq<WireItem>)
    ensures ReadItems(WithoutKeepalives(items)) == ReadItems(items)
  {
    if items != [] {
      var before := WithoutKeepalives(items[..|items| - 1]);
      KeepalivesIgnored(items[..|items| - 1]);
      var last := items[|items| - 1];
      if last.Keepalive? {
        assert before + [] == before;
      } else {
        assert (before + [last])[..|before|] == before;
      }
    }
  }

  // What the handler's emitter writes for the deltas, heartbeats aside.
  function Chunks(ds: seq<Delta>): seq<WireItem> {
    if ds == [] then [] else
      var last := ds[|ds| - 1];
      Chunks(ds[..|ds| - 1]) + (if last.Beat? then [] else [Data(ChunkOf(last))])
  }

  lemma ReadNext(items: seq<WireItem>, item: WireItem)
    ensures ReadItems(items + [item]) ==
            match ReadItems(items)
            case Raised => Raised
            case Reading(c) => if c.done then Reading(c) else ReadItem(c, item)
  {
    assert (items + [item])[..|items|] == items;
  }

  // The client holds exactly what the deltas amount to.
  lemma {:induction false} ChunksRead(ds: seq<Delta>)
    ensures ReadItems(Chunks(ds)) == Reading(Client(Rebuild(ds), false, false))
  {
    if ds != [] {
      var before := ds[..|ds| - 1];
      var last := ds[|ds| - 1];
      ChunksRead(before);
      if last.Beat? {
        assert Chunks(before) + [] == Chunks(before);
      } else {
        ReadNext(Chunks(before), Data(ChunkOf(last)));
        ChunkRead(Rebuild(before), last);
      }
    }
  }

  lemma ChunkRead(h: Draft, d: Delta)
    requires !d.Beat?
    ensures ReadPacket(Client(h, false, false), ChunkOf(d)) == Reading(Client(Apply(h, d), false, false))
  {
    assert h.text + "" == h.text && h.reasoning + "" == h.reasoning;
    if d.CallDelta? {
      var news := ChunkOf(d).calls;
      assert news[..0] == [];
      assert AddCalls(h.calls, []) == h.calls;
    }
  }

  // The writes of a successful run: the deltas, the finish reason, perhaps the usage,
  // and the end mark.
  function Transcript(ds: seq<Delta>, finish: string, usage: bool): seq<WireItem> {
    Chunks(ds) + [Data(Chunk("", "", [], finish))] + (if usage then [Data(Usage)] else []) + [DoneMark]
  }

  // Keepalives anywhere, the reply is what the deltas amount to.
  lemma TranscriptRead(codec: Codec, items: seq<WireItem>, ds: seq<Delta>, finish: string, usage: bool)
    requires codec.Sound() && finish != ""
    requires WithoutKeepalives(items) == Transcript(ds, finish, usage)
    ensures var h := Rebuild(ds);
            ReadStream(codec, AllLines(codec, items)) == Some(Reply(h.text, h.reasoning, InOrder(h.calls)))
  {
    LinesRead(codec, items);
    KeepalivesIgnored(items);
    ChunksRead(ds);
    var last := Data(Chunk("", "", [], finish));
    var h := Rebuild(ds);
    assert h.text + "" == h.text && h.reasoning + "" == h.reasoning;
    ReadNext(Chunks(ds), last);
    var body := Chunks(ds) + [last];
    var full := if usage then body + [Data(Usage)] else body;
    ReadNext(body, Data(Usage));
    ReadNext(full, DoneMark);
    assert Transcript(ds, finish, usage) == full + [DoneMark];
  }
}
