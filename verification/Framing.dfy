// Printed events and the reader (upstream.go, readIDEStream): what is delivered of them,
// and where the reading ends.
module Framing {
  import opened Wrappers
  import opened Text
  import opened Json
  import opened Accumulator
  import opened EventStream

  // ---------- Framing ----------

  // One printed item: an event with its data, ended by a blank line or left for the
  // next item to end, or a comment.
  datatype Printed = Event(name: string, data: seq<string>, blank: bool) | Comment(text: string) {
    ghost predicate Printable() {
      Event? ==> Trimmed(name) && data != [] && forall i | 0 <= i < |data| :: Trimmed(data[i])
    }
  }

  function Print(items: seq<Printed>): seq<string> {
    if items == [] then [] else Print(items[..|items| - 1]) + PrintItem(items[|items| - 1])
  }

  function PrintItem(item: Printed): seq<string> {
    match item
    case Event(name, data, blank) => ["event: " + name] + PrintData(data) + (if blank then [""] else [])
    case Comment(text) => [":" + text]
  }

  function PrintData(data: seq<string>): seq<string> {
    if data == [] then [] else PrintData(data[..|data| - 1]) + ["data: " + data[|data| - 1]]
  }

  // The same items handed over directly: every event delivers exactly its name and
  // its joined data, at its blank line or at the next event.
  function Deliver(x: Session, s: Scan, items: seq<Printed>): (r: Progress)
    requires s.acc.book.Indexed()
    ensures !r.Dead? ==> r.scan.acc.book.Indexed()
  {
    if items == [] then More(s) else
      match Deliver(x, s, items[..|items| - 1])
      case More(t) => DeliverItem(x, t, items[|items| - 1])
      case other => other
  }

  function DeliverItem(x: Session, s: Scan, item: Printed): (r: Progress)
    requires s.acc.book.Indexed()
    ensures !r.Dead? ==> r.scan.acc.book.Indexed()
  {
    match item
    case Comment(_) => Pulse(x, s)
    case Event(name, data, blank) =>
      match StartEvent(x, s, name)
      case More(t) =>
        if blank then Settle(Frame(x, t.acc, name, Join(data, "\n"))) else More(t.(data := data))
      case other => other
  }

  lemma OneLine(x: Session, s: Scan, line: string)
    requires s.acc.book.Indexed()
    ensures Lines(x, s, [line]) == Line(x, s, line)
  {
    assert [line][..0] == [];
    assert Lines(x, s, []) == More(s);
  }

  lemma VisibleLine(line: string, k: nat)
    requires k < |line| && !IsSpace(line[k])
    ensures Trim(line) != ""
  {
    LeftKeeps(line, k);
    var rest := TrimLeft(line);
    RightKeeps(rest, |rest| - (|line| - k));
  }

  lemma {:induction false} LeftKeeps(s: string, k: nat)
    requires k < |s| && !IsSpace(s[k])
    ensures |TrimLeft(s)| >= |s| - k && TrimLeft(s)[|TrimLeft(s)| - (|s| - k)] == s[k]
  {
    if IsSpace(s[0]) { LeftKeeps(s[1..], k - 1); }
  }

  lemma {:induction false} RightKeeps(s: string, k: nat)
    requires k < |s| && !IsSpace(s[k])
    ensures |TrimRight(s)| > k
  {
    if IsSpace(s[|s| - 1]) { RightKeeps(s[..|s| - 1], k); }
  }

  lemma EventLine(x: Session, s: Scan, name: string)
    requires s.acc.book.Indexed() && Trimmed(name)
    ensures Line(x, s, "event: " + name) == StartEvent(x, s, name)
  {
    var line := "event: " + name;
    VisibleLine(line, 0);
    assert line[6..] == " " + name;
    TrimSpaced(name);
  }

  lemma DataLine(x: Session, s: Scan, text: string)
    requires s.acc.book.Indexed() && Trimmed(text)
    ensures Line(x, s, "data: " + text) == More(s.(data := s.data + [text]))
  {
    var line := "data: " + text;
    VisibleLine(line, 0);
    assert line[5..] == " " + text;
    TrimSpaced(text);
  }

  lemma Regroup(before: seq<string>, data: seq<string>)
    requires data != []
    ensures before + data[..|data| - 1] + [data[|data| - 1]] == before + data
  {}

  lemma {:induction false} DataLines(x: Session, s: Scan, data: seq<string>)
    requires s.acc.book.Indexed() && forall i | 0 <= i < |data| :: Trimmed(data[i])
    ensures Lines(x, s, PrintData(data)) == More(s.(data := s.data + data))
  {
    if data == [] {
      assert s.data + data == s.data;
    } else {
      var n := |data| - 1;
      DataLines(x, s, data[..n]);
      LinesAppend(x, s, PrintData(data[..n]), ["data: " + data[n]]);
      var t := s.(data := s.data + data[..n]);
      OneLine(x, t, "data: " + data[n]);
      DataLine(x, t, data[n]);
      Regroup(s.data, data);
    }
  }

  lemma CommentRoundTrip(x: Session, s: Scan, text: string)
    requires s.acc.book.Indexed()
    ensures Lines(x, s, [":" + text]) == Pulse(x, s)
  {
    OneLine(x, s, ":" + text);
    VisibleLine(":" + text, 0);
  }

  function WithData(r: Progress, data: seq<string>): Progress {
    if r.More? then More(Scan(r.scan.acc, r.scan.event, data)) else r
  }

  lemma EventLines(x: Session, s: Scan, name: string, data: seq<string>)
    requires s.acc.book.Indexed() && Event(name, data, true).Printable()
    ensures Lines(x, s, ["event: " + name] + PrintData(data)) ==
            WithData(StartEvent(x, s, name), data)
  {
    LinesAppend(x, s, ["event: " + name], PrintData(data));
    OneLine(x, s, "event: " + name);
    EventLine(x, s, name);
    if StartEvent(x, s, name).More? {
      DataLines(x, StartEvent(x, s, name).scan, data);
      assert [] + data == data;
    }
  }

  lemma BlankLine(x: Session, s: Scan)
    requires s.acc.book.Indexed() && s.data != []
    ensures Lines(x, s, [""]) == Settle(Frame(x, s.acc, s.event, Join(s.data, "\n")))
  {
    OneLine(x, s, "");
  }

  lemma ItemRoundTrip(x: Session, s: Scan, item: Printed)
    requires s.acc.book.Indexed() && item.Printable()
    ensures Lines(x, s, PrintItem(item)) == DeliverItem(x, s, item)
  {
    match item
    case Comment(text) => CommentRoundTrip(x, s, text);
    case Event(name, data, blank) =>
      EventLines(x, s, name, data);
      LinesAppend(x, s, ["event: " + name] + PrintData(data), if blank then [""] else []);
      if StartEvent(x, s, name).More? { BlankLine(x, StartEvent(x, s, name).scan.(data := data)); }
  }

  // Printing and reading back delivers the same events, whichever way they are
  // separated; once a blank line has delivered a terminal frame nothing follows.
  lemma {:induction false} FramingRoundTrip(x: Session, s: Scan, items: seq<Printed>)
    requires s.acc.book.Indexed() && forall i | 0 <= i < |items| :: items[i].Printable()
    ensures Lines(x, s, Print(items)) == Deliver(x, s, items)
  {
    if items != [] {
      var n := |items| - 1;
      FramingRoundTrip(x, s, items[..n]);
      LinesAppend(x, s, Print(items[..n]), PrintItem(items[n]));
      if Deliver(x, s, items[..n]).More? {
        ItemRoundTrip(x, Deliver(x, s, items[..n]).scan, items[n]);
      }
    }
  }

  // ---------- Where reading ends ----------

  // What reaches the accumulator: a frame, or a sign of life.
  datatype Effect = Fed(name: string, data: string) | Pulsed

  // What printed items have delivered, and the event that still waits for its end: it is
  // delivered by the next event, or at the end of the stream.
  function Effects(items: seq<Printed>): seq<Effect> {
    if items == [] then [] else
      var before, last := items[..|items| - 1], items[|items| - 1];
      match last
      case Comment(_) => Effects(before) + [Pulsed]
      case Event(name, data, blank) =>
        Effects(before) + Waiting(before) + (if blank then [Fed(name, Join(data, "\n"))] else [])
  }

  function Waiting(items: seq<Printed>): seq<Effect> {
    if items == [] then [] else
      match items[|items| - 1]
      case Comment(_) => Waiting(items[..|items| - 1])
      case Event(name, data, blank) => if blank then [] else [Fed(name, Join(data, "\n"))]
  }

  // All effects in order, up to the first that is refused.
  function Feed(x: Session, a: Acc, effects: seq<Effect>): (r: Step)
    requires a.book.Indexed()
    ensures r.Go? ==> r.acc.book.Indexed()
  {
    if effects == [] then Go(a) else
      var b :- Feed(x, a, effects[..|effects| - 1]);
      Deal(x, b, effects[|effects| - 1])
  }

  function Deal(x: Session, a: Acc, e: Effect): (r: Step)
    requires a.book.Indexed()
    ensures r.Go? ==> r.acc.book.Indexed()
  {
    match e
    case Fed(name, data) => Frame(x, a, name, data)
    case Pulsed => Send(x, a, Beat)
  }

  lemma FeedNext(x: Session, a: Acc, effects: seq<Effect>, e: Effect)
    requires a.book.Indexed()
    ensures Feed(x, a, effects + [e]) == (var r := Feed(x, a, effects); if r.Go? then Deal(x, r.acc, e) else r)
  {
    assert (effects + [e])[..|effects|] == effects;
  }

  lemma {:induction false} FeedAppend(x: Session, a: Acc, first: seq<Effect>, second: seq<Effect>)
    requires a.book.Indexed()
    ensures Feed(x, a, first + second) ==
            (var r := Feed(x, a, first); if r.Go? then Feed(x, r.acc, second) else r)
  {
    if second == [] {
      assert first + second == first;
    } else {
      var init, e := second[..|second| - 1], second[|second| - 1];
      Split(first, second);
      FeedAppend(x, a, first, init);
      FeedNext(x, a, first + init, e);
      if Feed(x, a, first).Go? { FeedNext(x, Feed(x, a, first).acc, init, e); }
    }
  }

  lemma Split(first: seq<Effect>, second: seq<Effect>)
    requires second != []
    ensures second == second[..|second| - 1] + [second[|second| - 1]]
    ensures first + second == first + second[..|second| - 1] + [second[|second| - 1]]
  {}

  // A blank line follows the item, and a terminal event has been delivered by then.
  ghost predicate EndsAt(x: Session, a: Acc, items: seq<Printed>, j: nat)
    requires a.book.Indexed()
  {
    && j < |items| && items[j].Event? && items[j].blank
    && Feed(x, a, Effects(items[..j + 1])).Go? && Feed(x, a, Effects(items[..j + 1])).acc.terminal
  }

  // Reading has not been ended by any item.
  ghost predicate Unended(x: Session, a: Acc, items: seq<Printed>)
    requires a.book.Indexed()
  {
    forall j: nat {:trigger EndsAt(x, a, items, j)} :: !EndsAt(x, a, items, j)
  }

  // The first such item.
  ghost predicate EndsFirstAt(x: Session, a: Acc, items: seq<Printed>, j: nat)
    requires a.book.Indexed()
  {
    EndsAt(x, a, items, j) && Unended(x, a, items[..j])
  }

  ghost predicate HaltedAt(x: Session, a: Acc, items: seq<Printed>, j: nat, s: Scan)
    requires a.book.Indexed()
  {
    EndsFirstAt(x, a, items, j) && s == Scan(Feed(x, a, Effects(items[..j + 1])).acc, "", [])
  }

  // The scan holds exactly what waits.
  ghost predicate Holds(s: Scan, waiting: seq<Effect>) {
    if waiting == [] then s.event == "" && s.data == []
    else waiting == [Fed(s.event, Join(s.data, "\n"))] && s.data != []
  }

  // What the reading of these items is, told without reading: it stands where the
  // effects lead, or it was ended by the first blank line after a terminal event and
  // nothing behind that line counts, or an effect before any such line was refused.
  ghost predicate ReadsAs(x: Session, a: Acc, items: seq<Printed>, r: Progress)
    requires a.book.Indexed()
  {
    match r
    case More(s) => Unended(x, a, items) && Feed(x, a, Effects(items)) == Go(s.acc) && Holds(s, Waiting(items))
    case Halt(s) => exists j: nat :: HaltedAt(x, a, items, j, s)
    case Dead(b, why) => Unended(x, a, items) && Feed(x, a, Effects(items)) == Stop(b, why)
  }

  lemma EndsAtPrefix(x: Session, a: Acc, items: seq<Printed>, k: nat, j: nat)
    requires a.book.Indexed() && k <= |items| && j < k
    ensures EndsAt(x, a, items[..k], j) <==> EndsAt(x, a, items, j)
  {
    assert items[..k][..j + 1] == items[..j + 1];
  }

  lemma UnendedNext(x: Session, a: Acc, items: seq<Printed>)
    requires a.book.Indexed() && items != []
    ensures Unended(x, a, items) <==> Unended(x, a, items[..|items| - 1]) && !EndsAt(x, a, items, |items| - 1)
  {
    var n := |items| - 1;
    forall j: nat ensures EndsAt(x, a, items, j) <==>
      (j < n && EndsAt(x, a, items[..n], j)) || (j == n && EndsAt(x, a, items, n)) {
      if j < n { EndsAtPrefix(x, a, items, n, j); }
    }
    if Unended(x, a, items[..n]) && !EndsAt(x, a, items, n) {
      forall j: nat ensures !EndsAt(x, a, items, j) {}
    }
    if Unended(x, a, items) {
      forall j: nat ensures !EndsAt(x, a, items[..n], j) {
        if j < n { EndsAtPrefix(x, a, items, n, j); }
      }
    }
  }

  lemma HaltedPrefix(x: Session, a: Acc, items: seq<Printed>, k: nat, j: nat, s: Scan)
    requires a.book.Indexed() && k <= |items| && j < k && HaltedAt(x, a, items[..k], j, s)
    ensures HaltedAt(x, a, items, j, s)
  {
    EndsAtPrefix(x, a, items, k, j);
    assert items[..k][..j] == items[..j];
    assert items[..k][..j + 1] == items[..j + 1];
  }

  lemma AfterHalt(x: Session, a: Acc, items: seq<Printed>, s: Scan)
    requires a.book.Indexed() && items != [] && ReadsAs(x, a, items[..|items| - 1], Halt(s))
    ensures ReadsAs(x, a, items, Halt(s))
  {
    var j: nat :| HaltedAt(x, a, items[..|items| - 1], j, s);
    HaltedPrefix(x, a, items, |items| - 1, j, s);
  }

  // What one more item adds to the effects.
  function Added(items: seq<Printed>): seq<Effect>
    requires items != []
  {
    match items[|items| - 1]
    case Comment(_) => [Pulsed]
    case Event(name, data, blank) =>
      Waiting(items[..|items| - 1]) + (if blank then [Fed(name, Join(data, "\n"))] else [])
  }

  lemma EffectsNext(x: Session, a: Acc, items: seq<Printed>)
    requires a.book.Indexed() && items != []
    ensures Effects(items) == Effects(items[..|items| - 1]) + Added(items)
    ensures Feed(x, a, Effects(items)) ==
            (var r := Feed(x, a, Effects(items[..|items| - 1])); if r.Go? then Feed(x, r.acc, Added(items)) else r)
  {
    FeedAppend(x, a, Effects(items[..|items| - 1]), Added(items));
  }

  lemma AfterDeath(x: Session, a: Acc, items: seq<Printed>, r: Progress)
    requires a.book.Indexed() && items != [] && r.Dead? && ReadsAs(x, a, items[..|items| - 1], r)
    ensures ReadsAs(x, a, items, r)
  {
    EffectsNext(x, a, items);
    UnendedNext(x, a, items);
    assert items[..|items|] == items;
  }

  lemma FeedOne(x: Session, a: Acc, e: Effect)
    requires a.book.Indexed()
    ensures Feed(x, a, [e]) == Deal(x, a, e)
  {
    assert [e][..0] == [];
    assert Feed(x, a, []) == Go(a);
  }

  // What waits is what the next event delivers.
  lemma StartFeeds(x: Session, s: Scan, waiting: seq<Effect>, name: string)
    requires s.acc.book.Indexed() && Holds(s, waiting)
    ensures StartEvent(x, s, name) ==
            (var r := Feed(x, s.acc, waiting); if r.Go? then More(Scan(r.acc, name, [])) else Dead(r.acc, r.why))
  {
    if waiting != [] { FeedOne(x, s.acc, waiting[0]); }
  }

  predicate Blanked(item: Printed) { item.Event? && item.blank }

  // One item read from a scan that holds what waits.
  ghost predicate ReadsOne(x: Session, s: Scan, items: seq<Printed>, r: Progress)
    requires items != [] && s.acc.book.Indexed()
  {
    var step := Feed(x, s.acc, Added(items));
    match r
    case Dead(b, why) => step == Stop(b, why)
    case Halt(t) => step == Go(t.acc) && t.acc.terminal && t == Scan(t.acc, "", []) && Blanked(items[|items| - 1])
    case More(t) => step == Go(t.acc) && Holds(t, Waiting(items)) && !(Blanked(items[|items| - 1]) && t.acc.terminal)
  }

  lemma CommentReads(x: Session, s: Scan, items: seq<Printed>)
    requires items != [] && s.acc.book.Indexed() && Holds(s, Waiting(items[..|items| - 1]))
             && items[|items| - 1].Comment?
    ensures ReadsOne(x, s, items, Pulse(x, s))
  {
    FeedOne(x, s.acc, Pulsed);
  }

  lemma OpenReads(x: Session, s: Scan, items: seq<Printed>)
    requires items != [] && s.acc.book.Indexed() && Holds(s, Waiting(items[..|items| - 1]))
    requires items[|items| - 1].Event? && items[|items| - 1].Printable() && !items[|items| - 1].blank
    ensures ReadsOne(x, s, items, DeliverItem(x, s, items[|items| - 1]))
  {
    var waiting := Waiting(items[..|items| - 1]);
    StartFeeds(x, s, waiting, items[|items| - 1].name);
    assert Added(items) == waiting;
  }

  lemma ClosedReads(x: Session, s: Scan, items: seq<Printed>)
    requires items != [] && s.acc.book.Indexed() && Holds(s, Waiting(items[..|items| - 1]))
    requires items[|items| - 1].Event? && items[|items| - 1].Printable() && items[|items| - 1].blank
    ensures ReadsOne(x, s, items, DeliverItem(x, s, items[|items| - 1]))
  {
    var item, waiting := items[|items| - 1], Waiting(items[..|items| - 1]);
    StartFeeds(x, s, waiting, item.name);
    FeedNext(x, s.acc, waiting, Fed(item.name, Join(item.data, "\n")));
  }

  lemma AfterMore(x: Session, a: Acc, items: seq<Printed>, s: Scan)
    requires a.book.Indexed() && items != [] && s.acc.book.Indexed() && items[|items| - 1].Printable()
    requires ReadsAs(x, a, items[..|items| - 1], More(s))
    ensures ReadsAs(x, a, items, DeliverItem(x, s, items[|items| - 1]))
  {
    EffectsNext(x, a, items);
    UnendedNext(x, a, items);
    match items[|items| - 1] {
      case Comment(_) => CommentReads(x, s, items);
      case Event(_, _, blank) => if blank { ClosedReads(x, s, items); } else { OpenReads(x, s, items); }
    }
    assert items[..|items|] == items;
    var r := DeliverItem(x, s, items[|items| - 1]);
    if r.Halt? { assert HaltedAt(x, a, items, |items| - 1, r.scan); }
  }

  // The reading of any printed items from any state: exactly the effects that count.
  lemma {:induction false} DeliveredExactly(x: Session, a: Acc, items: seq<Printed>)
    requires a.book.Indexed() && forall i | 0 <= i < |items| :: items[i].Printable()
    ensures ReadsAs(x, a, items, Deliver(x, Scan(a, "", []), items))
  {
    if items != [] {
      var before := items[..|items| - 1];
      DeliveredExactly(x, a, before);
      var r := Deliver(x, Scan(a, "", []), before);
      match r {
        case More(s) => AfterMore(x, a, items, s);
        case Halt(s) => AfterHalt(x, a, items, s);
        case Dead(_, _) => AfterDeath(x, a, items, r);
      }
    }
  }

  // A terminal event ends the reading if and only if a blank line comes behind it before
  // anything is refused: until then every later frame is still processed.
  lemma {:induction false} EndsExactly(x: Session, a: Acc, items: seq<Printed>)
    requires a.book.Indexed() && forall i | 0 <= i < |items| :: items[i].Printable()
    ensures Deliver(x, Scan(a, "", []), items).Halt? <==> !Unended(x, a, items)
  {
    DeliveredExactly(x, a, items);
  }

  // What a whole stream comes to, its end included: what still waits when the stream
  // ends is dropped if a terminal event was delivered before it, and delivered if not.
  ghost predicate StreamReads(x: Session, items: seq<Printed>, r: Ending) {
    if Unended(x, INITIAL, items) then
      match Feed(x, INITIAL, Effects(items))
      case Stop(b, why) => r == Broken(b, why)
      case Go(b) =>
        if b.terminal then r == Conclude(x, b)
        else
          match Feed(x, b, Waiting(items))
          case Stop(c, why) => r == Broken(c, why)
          case Go(c) => r == if c.terminal then Conclude(x, c) else Broken(c, Unterminated)
    else exists j: nat ::
      EndsFirstAt(x, INITIAL, items, j) && r == Conclude(x, Feed(x, INITIAL, Effects(items[..j + 1])).acc)
  }

  lemma {:induction false} StreamReadsExactly(x: Session, items: seq<Printed>)
    requires forall i | 0 <= i < |items| :: items[i].Printable()
    ensures StreamReads(x, items, Read(x, Print(items), false))
  {
    FramingRoundTrip(x, IDLE, items);
    DeliveredExactly(x, INITIAL, items);
    match Deliver(x, IDLE, items)
    case More(s) => if Waiting(items) != [] { FeedOne(x, s.acc, Waiting(items)[0]); }
    case _ =>
  }
}
