// Reading the upstream's server-sent events (upstream.go, readIDEStream). The
// reader follows the source where it departs from the WHATWG event-stream rules:
// fields are trimmed, an "event:" line delivers a pending event, and so does the
// end of the stream.
module EventStream {
  import opened Wrappers
  import opened Text
  import opened Json
  import opened Accumulator

  // The accumulator with the pending event name and data lines.
  datatype Scan = Scan(acc: Acc, event: string, data: seq<string>)

  // Reading goes on, was ended by a terminal event, or was refused.
  datatype Progress = More(scan: Scan) | Halt(scan: Scan) | Dead(acc: Acc, why: Failure)

  // Deliver what is pending.
  function Flush(x: Session, s: Scan): (r: Step)
    requires s.acc.book.Indexed()
    ensures r.Go? ==> r.acc.book.Indexed()
  {
    if s.data == [] then Go(if NormalizeEvent(s.event) == "done" then s.acc.(terminal := true) else s.acc)
    else Frame(x, s.acc, s.event, Join(s.data, "\n"))
  }

  // Go on with nothing pending, unless a terminal event was seen.
  function Settle(r: Step): Progress {
    match r
    case Go(b) => if b.terminal then Halt(Scan(b, "", [])) else More(Scan(b, "", []))
    case Stop(b, why) => Dead(b, why)
  }

  // What an "event:" line does.
  function StartEvent(x: Session, s: Scan, name: string): (r: Progress)
    requires s.acc.book.Indexed()
    ensures !r.Dead? ==> r.scan.acc.book.Indexed()
  {
    if s.data == [] then More(s.(event := name)) else
    match Flush(x, s)
    case Go(b) => More(Scan(b, name, []))
    case Stop(b, why) => Dead(b, why)
  }

  // A comment is a sign of life.
  function Pulse(x: Session, s: Scan): (r: Progress)
    requires s.acc.book.Indexed()
    ensures !r.Dead? ==> r.scan.acc.book.Indexed()
  {
    match Send(x, s.acc, Beat)
    case Go(b) => More(s.(acc := b))
    case Stop(b, why) => Dead(b, why)
  }

  function Line(x: Session, s: Scan, line: string): (r: Progress)
    requires s.acc.book.Indexed()
    ensures !r.Dead? ==> r.scan.acc.book.Indexed()
  {
    if Trim(line) == "" then Settle(Flush(x, s))
    else if "event:" <= line then StartEvent(x, s, Trim(line[6..]))
    else if "data:" <= line then More(s.(data := s.data + [Trim(line[5..])]))
    else if ":" <= line then Pulse(x, s)
    else More(s)
  }

  function Lines(x: Session, s: Scan, lines: seq<string>): (r: Progress)
    requires s.acc.book.Indexed()
    ensures !r.Dead? ==> r.scan.acc.book.Indexed()
  {
    if lines == [] then More(s) else
      match Lines(x, s, lines[..|lines| - 1])
      case More(t) => Line(x, t, lines[|lines| - 1])
      case other => other
  }

  const IDLE := Scan(INITIAL, "", [])

  // What follows the last line.
  function Finish(x: Session, s: Scan): Ending
    requires s.acc.book.Indexed()
  {
    if s.acc.terminal then Conclude(x, s.acc) else
    match Flush(x, s)
    case Stop(b, why) => Broken(b, why)
    case Go(b) => if b.terminal then Conclude(x, b) else Broken(b, Unterminated)
  }

  // The whole stream; broken says that reading failed after these lines.
  function Read(x: Session, lines: seq<string>, broken: bool): Ending {
    match Lines(x, IDLE, lines)
    case Dead(b, why) => Broken(b, why)
    case Halt(s) => Finish(x, s)
    case More(s) => if broken then Broken(s.acc, ReadFailed) else Finish(x, s)
  }

  lemma {:induction false} LinesAppend(x: Session, s: Scan, first: seq<string>, second: seq<string>)
    requires s.acc.book.Indexed()
    ensures Lines(x, s, first + second) ==
            match Lines(x, s, first) case More(t) => Lines(x, t, second) case other => other
  {
    var all := first + second;
    if second == [] {
      assert all == first;
    } else {
      assert all[..|all| - 1] == first + second[..|second| - 1];
      LinesAppend(x, s, first, second[..|second| - 1]);
    }
  }
}
