// The streaming side of the chat handler (http.go): a sink shared by the handler
// and a timed heartbeat, each operation under one lock. Runs interleave heartbeats
// with the handler's steps in every possible way.
module StreamSink {
  import opened Wrappers
  import opened Accumulator
  import opened ChatWire

  // One attempted write and whether it succeeded.
  datatype Write = Write(item: WireItem, ok: bool)

  // What an operation meets: a cancelled request, a response that cannot flush, a
  // body that cannot be encoded, a write that succeeds or not.
  datatype Env = Env(cancelled: bool, flusher: bool, encodes: bool, ok: bool)

  // A sink after an operation, and whether the operation reported an error.
  datatype Op = Op(sink: Sink, error: bool)

  datatype Sink = Sink(started: bool, finished: bool, failed: bool, wire: seq<Write>) {
    function Attempt(item: WireItem, ok: bool): Op {
      Op(this.(wire := wire + [Write(item, ok)], failed := !ok), !ok)
    }

    function Send(p: Packet, env: Env): Op {
      if failed || finished || env.cancelled || !env.flusher || !env.encodes then Op(this, true)
      else this.(started := true).Attempt(Data(p), env.ok)
    }

    function Heartbeat(ok: bool): Op {
      if !started || finished || failed then Op(this, failed) else Attempt(Keepalive, ok)
    }

    // The end mark does not look at the request: it is attempted after a cancellation.
    function Done(ok: bool): Op {
      if failed then Op(this, true) else this.(finished := true).Attempt(DoneMark, ok)
    }
  }

  // The sink as the program runs it.
  class StreamSink {
    var started: bool
    var finished: bool
    var failed: bool
    var wire: seq<Write>

    function View(): Sink
      reads this
    {
      Sink(started, finished, failed, wire)
    }

    constructor ()
      ensures View() == Sink(false, false, false, [])
    {
      started, finished, failed, wire := false, false, false, [];
    }

    method Put(item: WireItem, ok: bool)
      modifies this`wire, this`failed
      ensures View() == old(View()).Attempt(item, ok).sink
    {
      wire := wire + [Write(item, ok)];
      failed := !ok;
    }

    method Send(p: Packet, env: Env) returns (error: bool)
      modifies this
      ensures Op(View(), error) == old(View()).Send(p, env)
    {
      if failed { return true; }
      if finished { return true; }
      if env.cancelled { return true; }
      if !env.flusher { return true; }
      if !env.encodes { return true; }
      if !started { started := true; }
      Put(Data(p), env.ok);
      return failed;
    }

    method Heartbeat(ok: bool) returns (error: bool)
      modifies this
      ensures Op(View(), error) == old(View()).Heartbeat(ok)
    {
      if !started || finished || failed { return failed; }
      Put(Keepalive, ok);
      return failed;
    }

    method Done(ok: bool) returns (error: bool)
      modifies this
      ensures Op(View(), error) == old(View()).Done(ok)
    {
      if failed { return true; }
      finished := true;
      Put(DoneMark, ok);
      return failed;
    }
  }

  // ---------- The handler ----------

  datatype Outcome = Success(finish: string, usage: bool) | Failed

  datatype Phase =
    | Executing                              // the request runs and emits deltas
    | Denied                                // a delta was refused; the run must fail
    | AwaitUsage(finish: string)             // the finish reason was sent
    | AwaitDone(outcome: Outcome)            // the end mark comes next
    | AwaitFinish                            // an authentication error was sent
    | Returned(outcome: Outcome)

  // body: a JSON error response was written instead of a stream.
  datatype Handler = Handler(phase: Phase, sink: Sink, body: bool, deltas: seq<Delta>)

  const START := Handler(Executing, Sink(false, false, false, []), false, [])

  datatype Move =
    | Tick(ok: bool)                                        // the timed heartbeat
    | Emit(delta: Delta, env: Env)
    | Succeed(finish: string, usage: bool, env: Env)        // the finish chunk
    | SendUsage(env: Env)
    | SendDone(ok: bool)
    | Fail(auth: bool, env: Env)                            // writeExecutionError
    | FinishSilently

  const AUTH := "authentication_error"
  const SERVER := "server_error"

  function FaultOf(auth: bool): Packet {
    Fault(if auth then AUTH else SERVER)
  }

  function FinishChunk(finish: string): Packet {
    Chunk("", "", [], finish)
  }

  // A move that is not possible in a state changes nothing.
  function Next(h: Handler, m: Move): Handler {
    match m
    case Tick(ok) => if h.phase.Returned? then h else h.(sink := h.sink.Heartbeat(ok).sink)
    case Emit(d, env) =>
      if !h.phase.Executing? then h else
      var op := if d.Beat? then h.sink.Heartbeat(env.ok) else h.sink.Send(ChunkOf(d), env);
      if op.error then h.(sink := op.sink, phase := Denied)
      else h.(sink := op.sink, deltas := h.deltas + [d])
    case Succeed(finish, usage, env) =>
      if !h.phase.Executing? || finish == "" then h else
      var op := h.sink.Send(FinishChunk(finish), env);
      h.(sink := op.sink,
         phase := if op.error then Returned(Failed) else if usage then AwaitUsage(finish)
           else AwaitDone(Success(finish, false)))
    case SendUsage(env) =>
      if !h.phase.AwaitUsage? then h else
      var op := h.sink.Send(Usage, env);
      h.(sink := op.sink, phase := if op.error then Returned(Failed) else AwaitDone(Success(h.phase.finish, true)))
    case SendDone(ok) =>
      if !h.phase.AwaitDone? then h else
      h.(sink := h.sink.Done(ok).sink, phase := Returned(h.phase.outcome))
    case Fail(auth, env) =>
      if !h.phase.Executing? && !h.phase.Denied? then h
      else if !h.sink.started then h.(body := true, phase := Returned(Failed))
      else h.(sink := h.sink.Send(FaultOf(auth), env).sink, phase := if auth then AwaitFinish else AwaitDone(Failed))
    case FinishSilently =>
      if !h.phase.AwaitFinish? then h
      else h.(sink := h.sink.(finished := true), phase := Returned(Failed))
  }

  function Run(moves: seq<Move>): Handler {
    if moves == [] then START else Next(Run(moves[..|moves| - 1]), moves[|moves| - 1])
  }

  // ---------- The language of the wire ----------

  ghost predicate WellWritten(s: Sink) {
    && (s.started <==> s.wire != [])
    && (s.wire != [] ==> s.wire[0].item.Data?)
    && (forall i {:trigger s.wire[i].ok} | 0 <= i < |s.wire| - 1 :: s.wire[i].ok)
    && (s.wire != [] ==> (s.failed <==> !s.wire[|s.wire| - 1].ok))
    && (s.failed ==> s.wire != [])
    && (forall i {:trigger s.wire[i].item} | 0 <= i < |s.wire| ::
          s.wire[i].item.DoneMark? ==> i == |s.wire| - 1 && s.finished)
  }

  ghost predicate SentAuthError(s: Sink) {
    exists i :: 0 <= i < |s.wire| && s.wire[i].item == Data(Fault(AUTH))
  }

  ghost predicate SentDone(s: Sink) {
    exists i :: 0 <= i < |s.wire| && s.wire[i].item.DoneMark?
  }

  // An authentication error is only ever the handler's last word.
  ghost predicate Silent(h: Handler) {
    && (SentAuthError(h.sink) ==> !SentDone(h.sink) && (h.phase.AwaitFinish? || h.phase.Returned?))
    && (h.sink.finished ==> h.phase.Returned?)
    && (h.body ==> h.sink.wire == [] && h.phase.Returned?)
  }

  lemma AttemptKeeps(s: Sink, item: WireItem, ok: bool)
    requires WellWritten(s) && !s.failed && !s.finished
    requires item.Data? || s.started
    ensures WellWritten(s.(started := true, finished := item.DoneMark?).Attempt(item, ok).sink)
  {}

  lemma AttemptSays(s: Sink, item: WireItem, ok: bool)
    ensures var t := s.Attempt(item, ok).sink;
            && (SentAuthError(t) <==> SentAuthError(s) || item == Data(Fault(AUTH)))
            && (SentDone(t) <==> SentDone(s) || item.DoneMark?)
  {
    var t := s.Attempt(item, ok).sink;
    assert t.wire[|s.wire|].item == item;
    if SentAuthError(s) {
      var i :| 0 <= i < |s.wire| && s.wire[i].item == Data(Fault(AUTH));
      assert t.wire[i].item == Data(Fault(AUTH));
    }
    if SentDone(s) {
      var i :| 0 <= i < |s.wire| && s.wire[i].item.DoneMark?;
      assert t.wire[i].item.DoneMark?;
    }
    if j :| 0 <= j < |t.wire| && t.wire[j].item == Data(Fault(AUTH)) && j < |s.wire| {
      assert s.wire[j].item == Data(Fault(AUTH));
    }
    if j :| 0 <= j < |t.wire| && t.wire[j].item.DoneMark? && j < |s.wire| {
      assert s.wire[j].item.DoneMark?;
    }
  }

  // What each operation of the sink keeps.
  lemma BeatKeeps(s: Sink, ok: bool)
    requires WellWritten(s)
    ensures var t := s.Heartbeat(ok).sink;
            && WellWritten(t) && t.started == s.started && t.finished == s.finished && (s.wire == [] ==> t.wire == [])
            && (SentAuthError(t) <==> SentAuthError(s)) && (SentDone(t) <==> SentDone(s))
  {
    if s.started && !s.finished && !s.failed { AttemptKeeps(s, Keepalive, ok); AttemptSays(s, Keepalive, ok); }
  }

  lemma DataKeeps(s: Sink, p: Packet, env: Env)
    requires WellWritten(s)
    ensures var op := s.Send(p, env); var t := op.sink;
            && WellWritten(t) && t.finished == s.finished && (s.started || !op.error ==> t.started)
            && (SentAuthError(t) ==> SentAuthError(s) || p == Fault(AUTH)) && (SentDone(t) <==> SentDone(s))
  {
    if !s.failed && !s.finished {
      AttemptKeeps(s, Data(p), env.ok);
      AttemptSays(s.(started := true), Data(p), env.ok);
    }
  }

  lemma EndKeeps(s: Sink, ok: bool)
    requires WellWritten(s) && s.started && !s.finished
    ensures var t := s.Done(ok).sink; WellWritten(t) && (SentAuthError(t) <==> SentAuthError(s))
  {
    if !s.failed {
      AttemptKeeps(s, DoneMark, ok);
      AttemptSays(s.(finished := true), DoneMark, ok);
    }
  }

  lemma NextKeeps(h: Handler, m: Move)
    requires WellWritten(h.sink) && Silent(h)
    requires h.phase.AwaitDone? || h.phase.AwaitFinish? || h.phase.AwaitUsage? ==> h.sink.started
    ensures var n := Next(h, m);
            && WellWritten(n.sink) && Silent(n)
            && (n.phase.AwaitDone? || n.phase.AwaitFinish? || n.phase.AwaitUsage? ==> n.sink.started)
  {
    var s := h.sink;
    match m
    case Tick(ok) => BeatKeeps(s, ok);
    case Emit(d, env) => if d.Beat? { BeatKeeps(s, env.ok); } else { DataKeeps(s, ChunkOf(d), env); }
    case Succeed(finish, usage, env) => DataKeeps(s, FinishChunk(finish), env);
    case SendUsage(env) => DataKeeps(s, Usage, env);
    case SendDone(ok) => if h.phase.AwaitDone? { EndKeeps(s, ok); }
    case Fail(auth, env) => DataKeeps(s, FaultOf(auth), env);
    case FinishSilently =>
  }

  lemma {:induction false} RunKeeps(moves: seq<Move>)
    ensures var h := Run(moves);
            && WellWritten(h.sink) && Silent(h)
            && (h.phase.AwaitDone? || h.phase.AwaitFinish? || h.phase.AwaitUsage? ==> h.sink.started)
  {
    if moves != [] {
      RunKeeps(moves[..|moves| - 1]);
      NextKeeps(Run(moves[..|moves| - 1]), moves[|moves| - 1]);
    }
  }

  // For every interleaving: the first write is a data frame; nothing is written after
  // a failed write; the end mark is the last write, if any; after an authentication
  // error there is none; and a JSON error body excludes any stream write.
  lemma WireLanguage(moves: seq<Move>)
    ensures var h := Run(moves); var w := h.sink.wire;
            && (w != [] ==> w[0].item.Data?)
            && (forall i {:trigger w[i].ok} | 0 <= i < |w| - 1 :: w[i].ok)
            && (forall i {:trigger w[i].item} | 0 <= i < |w| - 1 :: !w[i].item.DoneMark?)
            && (SentAuthError(h.sink) ==> !SentDone(h.sink))
            && (h.body ==> w == [])
  {
    RunKeeps(moves);
  }

  // ---------- What an accepting client may conclude ----------

  // The items whose write succeeded.
  function Delivered(wire: seq<Write>): seq<WireItem> {
    if wire == [] then [] else
      var last := wire[|wire| - 1];
      Delivered(wire[..|wire| - 1]) + (if last.ok then [last.item] else [])
  }

  // The delivered stream without keepalives.
  function Said(s: Sink): seq<WireItem> {
    WithoutKeepalives(Delivered(s.wire))
  }

  lemma SaidAttempt(s: Sink, item: WireItem, ok: bool)
    ensures Said(s.Attempt(item, ok).sink) == Said(s) + (if ok && !item.Keepalive? then [item] else [])
  {
    var w := s.wire + [Write(item, ok)];
    assert w[..|s.wire|] == s.wire;
    var before := Delivered(s.wire);
    if ok {
      assert (before + [item])[..|before|] == before;
    } else {
      assert before + [] == before;
    }
    assert WithoutKeepalives(before) + [] == WithoutKeepalives(before);
  }

  // What has been said in each phase; a failed run never says both finish and end.
  ghost predicate Spoken(h: Handler) {
    var said := Said(h.sink);
    var begun := Chunks(h.deltas);
    match h.phase
    case Executing => said == begun
    case Denied => said == begun
    case AwaitUsage(f) => f != "" && said == begun + [Data(FinishChunk(f))]
    case AwaitDone(Success(f, u)) => f != "" && said == Unended(begun, f, u)
    case AwaitDone(Failed) => Faulted(said, begun)
    case AwaitFinish => Faulted(said, begun)
    case Returned(Success(f, u)) => f != "" && said == Unended(begun, f, u) + (if h.sink.failed then [] else [DoneMark])
    case Returned(Failed) => Unfinished(said, begun)
  }

  // Everything of a successful transcript but the end mark.
  function Unended(begun: seq<WireItem>, f: string, u: bool): seq<WireItem> {
    begun + [Data(FinishChunk(f))] + (if u then [Data(Usage)] else [])
  }

  ghost predicate Faulted(said: seq<WireItem>, begun: seq<WireItem>) {
    said == begun || said == begun + [Data(FaultOf(true))] || said == begun + [Data(FaultOf(false))]
  }

  ghost predicate Unfinished(said: seq<WireItem>, begun: seq<WireItem>) {
    || Faulted(said, begun)
    || (said != [] && said[|said| - 1] == DoneMark && Faulted(said[..|said| - 1], begun))
    || (exists f :: said == begun + [Data(FinishChunk(f))])
  }

  lemma TickSpeaks(h: Handler, ok: bool)
    requires Spoken(h)
    ensures Spoken(Next(h, Tick(ok)))
  {
    SaidAttempt(h.sink, Keepalive, ok);
  }

  lemma EmitSpeaks(h: Handler, d: Delta, env: Env)
    requires Spoken(h)
    ensures Spoken(Next(h, Emit(d, env)))
  {
    assert (h.deltas + [d])[..|h.deltas|] == h.deltas;
    if d.Beat? {
      SaidAttempt(h.sink, Keepalive, env.ok);
    } else {
      SaidAttempt(h.sink.(started := true), Data(ChunkOf(d)), env.ok);
    }
  }

  lemma FinishSpeaks(h: Handler, m: Move)
    requires Spoken(h) && (m.Succeed? || m.SendUsage?)
    ensures Spoken(Next(h, m))
  {
    var t := h.sink.(started := true);
    match m
    case Succeed(f, _, env) => SaidAttempt(t, Data(FinishChunk(f)), env.ok);
    case SendUsage(env) => SaidAttempt(t, Data(Usage), env.ok);
  }

  lemma DoneSpeaks(h: Handler, ok: bool)
    requires Spoken(h)
    ensures Spoken(Next(h, SendDone(ok)))
  {
    SaidAttempt(h.sink.(finished := true), DoneMark, ok);
    if h.phase.AwaitDone? { assert Said(h.sink) + [] == Said(h.sink); }
    if h.phase.AwaitDone? && h.phase.outcome.Failed? {
      var said := Said(h.sink);
      assert (said + [DoneMark])[..|said|] == said;
    }
  }

  lemma FailSpeaks(h: Handler, auth: bool, env: Env)
    requires Spoken(h)
    ensures Spoken(Next(h, Fail(auth, env)))
  {
    SaidAttempt(h.sink.(started := true), Data(FaultOf(auth)), env.ok);
  }

  lemma NextSpeaks(h: Handler, m: Move)
    requires Spoken(h)
    ensures Spoken(Next(h, m))
  {
    match m
    case Tick(ok) => TickSpeaks(h, ok);
    case Emit(d, env) => EmitSpeaks(h, d, env);
    case Succeed(f, u, env) => FinishSpeaks(h, Succeed(f, u, env));
    case SendUsage(env) => FinishSpeaks(h, SendUsage(env));
    case SendDone(ok) => DoneSpeaks(h, ok);
    case Fail(auth, env) => FailSpeaks(h, auth, env);
    case FinishSilently =>
  }

  lemma {:induction false} RunSpeaks(moves: seq<Move>)
    ensures Spoken(Run(moves))
  {
    if moves != [] {
      RunSpeaks(moves[..|moves| - 1]);
      NextSpeaks(Run(moves[..|moves| - 1]), moves[|moves| - 1]);
    }
  }

  lemma FaultedRead(said: seq<WireItem>, ds: seq<Delta>)
    requires Faulted(said, Chunks(ds))
    ensures ReadItems(said) == Raised || ReadItems(said) == Reading(Client(Rebuild(ds), false, false))
  {
    ChunksRead(ds);
    ReadNext(Chunks(ds), Data(FaultOf(true)));
    ReadNext(Chunks(ds), Data(FaultOf(false)));
  }

  lemma UnfinishedRead(said: seq<WireItem>, ds: seq<Delta>)
    requires Unfinished(said, Chunks(ds))
    ensures Assemble(ReadItems(said)) == None
  {
    if Faulted(said, Chunks(ds)) {
      FaultedRead(said, ds);
    } else if f :| said == Chunks(ds) + [Data(FinishChunk(f))] {
      ChunksRead(ds);
      ReadNext(Chunks(ds), Data(FinishChunk(f)));
    } else {
      var before := said[..|said| - 1];
      FaultedRead(before, ds);
      ReadNext(before, DoneMark);
      assert before + [DoneMark] == said;
    }
  }

  lemma UnendedRead(ds: seq<Delta>, f: string, u: bool)
    ensures Assemble(ReadItems(Unended(Chunks(ds), f, u))) == None
  {
    ChunksRead(ds);
    var begun := Chunks(ds);
    ReadNext(begun, Data(FinishChunk(f)));
    ReadNext(begun + [Data(FinishChunk(f))], Data(Usage));
    assert begun + [Data(FinishChunk(f))] + [] == begun + [Data(FinishChunk(f))];
  }

  // Whatever the interleaving and whichever writes fail: a client accepts what was
  // delivered if and only if the run succeeded and no write failed, and then it holds
  // what all its deltas amount to.
  lemma {:induction false} AcceptedExactly(codec: Codec, moves: seq<Move>)
    requires codec.Sound()
    ensures var h := Run(moves);
            var reply := ReadStream(codec, AllLines(codec, Delivered(h.sink.wire)));
            var draft := Rebuild(h.deltas);
            && (reply.Some? <==> h.phase.Returned? && h.phase.outcome.Success? && !h.sink.failed)
            && (reply.Some? ==> reply.value == Reply(draft.text, draft.reasoning, InOrder(draft.calls)))
  {
    var h := Run(moves);
    var items := Delivered(h.sink.wire);
    RunSpeaks(moves);
    LinesRead(codec, items);
    KeepalivesIgnored(items);
    ChunksRead(h.deltas);
    match h.phase
    case Executing =>
    case Denied =>
    case AwaitUsage(f) => UnfinishedRead(Said(h.sink), h.deltas);
    case AwaitDone(Success(f, u)) => UnendedRead(h.deltas, f, u);
    case AwaitDone(Failed) => UnfinishedRead(Said(h.sink), h.deltas);
    case AwaitFinish => UnfinishedRead(Said(h.sink), h.deltas);
    case Returned(Failed) => UnfinishedRead(Said(h.sink), h.deltas);
    case Returned(Success(f, u)) =>
      if h.sink.failed {
        UnendedRead(h.deltas, f, u);
        assert Unended(Chunks(h.deltas), f, u) + [] == Unended(Chunks(h.deltas), f, u);
      } else {
        TranscriptRead(codec, items, h.deltas, f, u);
      }
  }

  // ---------- After a cancellation ----------

  // A run that goes on from a state.
  function RunOn(h: Handler, moves: seq<Move>): Handler {
    if moves == [] then h else Next(RunOn(h, moves[..|moves| - 1]), moves[|moves| - 1])
  }

  lemma {:induction false} RunOnRun(before: seq<Move>, moves: seq<Move>)
    ensures RunOn(Run(before), moves) == Run(before + moves)
  {
    if moves == [] {
      assert before + moves == before;
    } else {
      assert (before + moves)[..|before + moves| - 1] == before + moves[..|moves| - 1];
      RunOnRun(before, moves[..|moves| - 1]);
    }
  }

  // A move while the request is cancelled; marks and keepalives can still be written.
  predicate Cancelled(m: Move) {
    match m
    case Tick(ok) => ok
    case Emit(d, env) => env.cancelled && (d.Beat? ==> env.ok)
    case Succeed(_, _, env) => env.cancelled
    case SendUsage(env) => env.cancelled
    case SendDone(ok) => ok
    case Fail(_, env) => env.cancelled
    case FinishSilently => true
  }

  // The end mark has been written, or is what the handler does next.
  ghost predicate Marks(h: Handler) { h.phase.AwaitDone? || SentDone(h.sink) }

  // A failure other than a refused account meets a running stream.
  predicate FailsRunning(h: Handler, m: Move) {
    h.sink.started && m.Fail? && !m.auth && (h.phase.Executing? || h.phase.Denied?)
  }

  lemma CancelledMove(h: Handler, m: Move)
    requires !h.sink.failed && Cancelled(m)
    ensures var n := Next(h, m);
            && !n.sink.failed && n.sink.started == h.sink.started
            && (Marks(n) <==> Marks(h) || FailsRunning(h, m))
  {
    var s := h.sink;
    match m
    case Tick(ok) => AttemptSays(s, Keepalive, ok);
    case Emit(_, env) => AttemptSays(s, Keepalive, env.ok);
    case SendDone(ok) => AttemptSays(s.(finished := true), DoneMark, ok);
    case _ =>
  }

  // One of the moves is such a failure.
  ghost predicate FailsAt(h: Handler, moves: seq<Move>, i: nat) {
    i < |moves| && FailsRunning(RunOn(h, moves[..i]), moves[i])
  }

  ghost predicate SomeFails(h: Handler, moves: seq<Move>) {
    exists i: nat :: FailsAt(h, moves, i)
  }

  lemma FailsAtPrefix(h: Handler, moves: seq<Move>, k: nat, i: nat)
    requires i < k <= |moves|
    ensures FailsAt(h, moves[..k], i) <==> FailsAt(h, moves, i)
  {
    assert moves[..k][..i] == moves[..i];
  }

  lemma SomeFailsNext(h: Handler, moves: seq<Move>)
    requires moves != []
    ensures var n := |moves| - 1;
            SomeFails(h, moves) <==> (SomeFails(h, moves[..n]) || FailsAt(h, moves, n))
  {
    var n := |moves| - 1;
    if i: nat :| FailsAt(h, moves[..n], i) { FailsAtPrefix(h, moves, n, i); }
    if i: nat :| FailsAt(h, moves, i) && i < n { FailsAtPrefix(h, moves, n, i); }
  }

  // Exactly when the end mark follows a cancellation: the handler had come to it before,
  // or the stream had started and the run fails for another reason than the account.
  lemma {:induction false} MarksAfterCancellation(h: Handler, moves: seq<Move>)
    requires !h.sink.failed && forall i | 0 <= i < |moves| :: Cancelled(moves[i])
    ensures var n := RunOn(h, moves);
            && !n.sink.failed && n.sink.started == h.sink.started
            && (Marks(n) <==> Marks(h) || SomeFails(h, moves))
  {
    if moves != [] {
      var before := moves[..|moves| - 1];
      MarksAfterCancellation(h, before);
      SomeFailsNext(h, moves);
      CancelledMove(RunOn(h, before), moves[|moves| - 1]);
    }
  }

  // A run that would have succeeded returns without a mark, and says nothing more.
  lemma CancelledSuccess(h: Handler, m: Move)
    requires Cancelled(m)
    requires (m.Succeed? && h.phase.Executing? && m.finish != "") || (m.SendUsage? && h.phase.AwaitUsage?)
    ensures Next(h, m) == h.(phase := Returned(Failed))
  {}

  // One such run: the stream has started when the request is cancelled, and the mark
  // is written to a caller who has gone.
  lemma MarkAfterCancellation(model: string, text: string)
    ensures var gone := Env(true, true, true, true);
            var h := Run([Emit(Start(model), Env(false, true, true, true)), Emit(TextDelta(text), gone),
                          Fail(false, gone), SendDone(true)]);
            && h.phase == Returned(Failed)
            && h.sink.wire == [Write(Data(ChunkOf(Start(model))), true)] + [Write(DoneMark, true)]
  {
    var gone := Env(true, true, true, true);
    var moves := [Emit(Start(model), Env(false, true, true, true)), Emit(TextDelta(text), gone), Fail(false, gone),
                  SendDone(true)];
    assert moves[..3][..2] == moves[..2] && moves[..2][..1] == moves[..1] && moves[..1][..0] == [];
    assert Run(moves[..1]) == Next(START, moves[0]);
    assert Run(moves[..2]) == Next(Run(moves[..1]), moves[1]);
    assert Run(moves[..3]) == Next(Run(moves[..2]), moves[2]);
  }

  // ---------- A stream that drives the handler ----------

  // While the upstream stream is read: deltas and heartbeats.
  predicate Driving(m: Move) { m.Tick? || m.Emit? }

  function DeltasOf(moves: seq<Move>): seq<Delta> {
    if moves == [] then [] else
      var last := moves[|moves| - 1];
      DeltasOf(moves[..|moves| - 1]) + (if last.Emit? then [last.delta] else [])
  }

  // The handler accepts all the deltas, or all before the first that is refused.
  lemma {:induction false} DrivenDeltas(moves: seq<Move>)
    requires forall i | 0 <= i < |moves| :: Driving(moves[i])
    ensures var h := Run(moves); var ds := DeltasOf(moves);
            if h.phase.Executing? then h.deltas == ds
            else h.phase.Denied? && h.deltas <= ds && |h.deltas| < |ds|
  {
    if moves != [] {
      var before, m := moves[..|moves| - 1], moves[|moves| - 1];
      DrivenDeltas(before);
      var ds := DeltasOf(before);
      assert ds + [] == ds;
      if m.Emit? { assert ds <= ds + [m.delta]; }
    }
  }

  // Without further deltas the accepted ones stay, and a run that was denied one or that
  // does not report a success never succeeds.
  predicate Lost(h: Handler) {
    match h.phase
    case Denied => true
    case AwaitFinish => true
    case AwaitDone(outcome) => outcome.Failed?
    case Returned(outcome) => outcome.Failed?
    case _ => false
  }

  lemma {:induction false} RestKeeps(h: Handler, rest: seq<Move>)
    requires forall i | 0 <= i < |rest| :: !rest[i].Emit?
    ensures RunOn(h, rest).deltas == h.deltas
    ensures Lost(h) ==> Lost(RunOn(h, rest))
    ensures h.phase.Executing? && (forall i | 0 <= i < |rest| :: !rest[i].Succeed?) ==>
              RunOn(h, rest).phase.Executing? || Lost(RunOn(h, rest))
  {
    if rest != [] { RestKeeps(h, rest[..|rest| - 1]); }
  }
}
