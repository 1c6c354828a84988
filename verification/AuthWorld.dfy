// Runs of the Auth process: callers of get, callbacks, login requests and logouts
// interleave section by section, exchanges lie between sections, any file operation
// may fail, and the machine may crash between or inside sections.
module AuthWorld {
  import opened Wrappers
  import opened CredentialStore
  import opened AuthState

  // A refresh exchange under way.
  datatype Flight = Flight(sent: Credential, generation: nat)

  datatype Event =
    | Began(id: string) | CancelledBy(id: string) | TimedOut(id: string) | LoggedOut | Restarted
    | Installed(id: string)     // the login took effect
    | Stranded(id: string)      // its credential reached the file, but not the memory of this process
  {
    predicate TakesEffect() { Installed? || Stranded? }

    // The account in memory is another one, or none, from then on.
    predicate Turns() { Installed? || LoggedOut? || Restarted? }
  }

  datatype World = World(
    m: Manager,
    disk: Disk,
    flights: seq<Flight>,
    claims: map<string, Attempt>,   // callbacks between their two halves
    finishing: set<string>,         // callbacks that still owe their deferred end
    issued: set<string>,            // attempt IDs ever drawn
    log: seq<Event>,
    spent: set<string>,             // refresh tokens whose fate earlier processes do not know
    mine: set<string>,              // and those of this process
    guard: Option<Credential>,      // the fenced credential of the last exchange, until resolved
    landed: set<Credential>)        // complete credentials written since that exchange
  {
    // Refresh tokens that were sent and since then neither definitively rejected nor issued
    // anew: each may have been spent.
    function Fenced(): set<string> { spent + mine }
  }

  datatype Step =
    | DoEnter(now: Clock, fault: SaveFault)
    | DoSettle(i: nat, now: Clock, reply: Reply, cancelled: bool, fault: SaveFault, qfault: QuarantineFault)
    | DoLogout
    | DoListen
    | DoBegin(now: Clock, id: string, device: string, machine: string, key: Key, drawn: bool, victim: string)
    | DoClaim(id: string, now: Clock, late: bool)
    | DoInstall(id: string, now: Clock, cred: Credential, cancelled: bool, fault: SaveFault)
    | DoFinish(id: string)
    | DoStatus(id: string, now: Clock)
    | DoCancel(id: string)
    | Crash(entry: Entry)
    | CrashIn(inner: Step, k: nat, entry: Entry)

  function Last(trace: seq<Disk>): Disk
    requires trace != []
  {
    trace[|trace| - 1]
  }

  // The process starts on an empty or valid file.
  ghost predicate Starts(w: World) {
    && w.disk.Clean() && w.m == Recover(w.disk)
    && w.flights == [] && w.claims == map[] && w.finishing == {} && w.issued == {} && w.log == []
    && w.spent == {} && w.mine == {} && w.guard == None && w.landed == {}
  }

  // ---------- Refresh rounds ----------

  function EnterStep(w: World, now: Clock, fault: SaveFault): World {
    var r := Enter(w.m, w.disk, now, fault);
    var v := w.(m := r.m, disk := Last(r.trace));
    match r.answer
    case Send(c, g) =>
      v.(flights := w.flights + [Flight(c, g)], mine := w.mine + {c.refreshToken}, guard := Some(c), landed := {})
    case _ => v
  }

  // Whether the end of the exchange counts, and what it then resolves.
  predicate Counts(w: World, f: Flight, cancelled: bool) {
    w.m.generation == f.generation && !cancelled
  }

  // A success or a definitive rejection releases the token that is about to be written.
  function Resolve(w: World, f: Flight, reply: Reply, cancelled: bool): World {
    if !Counts(w, f, cancelled) then w
    else match reply
      case Fresh(c) => Release(w, c.refreshToken).(landed := w.landed + {c.(refreshPending := false)})
      case Rejected => Release(w, f.sent.refreshToken).(guard := None)
      case _ => w
  }

  function Release(w: World, token: string): World {
    w.(spent := w.spent - {token}, mine := w.mine - {token})
  }

  function SettleSection(w: World, f: Flight, now: Clock, reply: Reply, cancelled: bool, fault: SaveFault,
                         qfault: QuarantineFault): (r: Section)
    ensures r.trace != []
  {
    Settle(w.m, w.disk, now, f.sent, f.generation, reply, cancelled, fault, qfault)
  }

  function SettleStep(w: World, i: nat, now: Clock, reply: Reply, cancelled: bool, fault: SaveFault,
                      qfault: QuarantineFault): World {
    if i >= |w.flights| then w else
    var f := w.flights[i];
    var r := SettleSection(w, f, now, reply, cancelled, fault, qfault);
    var v := Resolve(w, f, reply, cancelled);
    var renewed := Counts(w, f, cancelled) && reply.Fresh? && r.m.refreshErr.None?;
    v.(m := r.m, disk := Last(r.trace), flights := w.flights[..i] + w.flights[i + 1..],
       guard := if renewed then None else v.guard)
  }

  // ---------- Logins ----------

  function BeginStep(w: World, now: Clock, id: string, device: string, machine: string, key: Key, drawn: bool,
                     victim: string): World {
    var full := |Supersede(w.m.results, now)| >= MAX_RESULTS;
    // not a drawing that happens
    if id == "" || id in w.issued || (full && !Oldest(Supersede(w.m.results, now), victim)) then w
    else
      var m := Begin(w.m, now, id, device, machine, key, drawn, victim);
      if w.m.listening && drawn then w.(m := m, issued := w.issued + {id}, log := w.log + [Began(id)]) else w.(m := m)
  }

  // A late callback notices after the section that its attempt has run out.
  function ClaimStep(w: World, id: string, now: Clock, late: bool): World {
    if !Claimable(w.m, id, now) then w
    else w.(m := Claim(w.m, id, now), claims := if late then w.claims else w.claims[id := w.m.pending[id]])
  }

  function InstallSection(w: World, id: string, now: Clock, c: Credential, cancelled: bool,
                          fault: SaveFault): (r: Section)
    requires id in w.claims
    ensures r.trace != []
  {
    Install(w.m, w.disk, now, id, w.claims[id], c, cancelled, fault)
  }

  // A login's credential is about to be written.
  function Welcome(w: World, id: string, now: Clock, c: Credential, cancelled: bool): World
    requires id in w.claims
  {
    if MayInstall(w.m, id, w.claims[id], now, cancelled) then
      Release(w, c.refreshToken).(landed := w.landed + {c})
    else w
  }

  function InstallStep(w: World, id: string, now: Clock, c: Credential, cancelled: bool, fault: SaveFault): World {
    if id !in w.claims then w else
    var r := InstallSection(w, id, now, c, cancelled, fault);
    var v := Welcome(w, id, now, c, cancelled)
             .(m := r.m, disk := Last(r.trace), claims := w.claims - {id}, finishing := w.finishing + {id});
    if r.answer.Give? then v.(guard := None, log := w.log + [Installed(id)])
    else if Strands(w, id, now, c, cancelled, Last(r.trace).visible) then v.(log := w.log + [Stranded(id)])
    else v
  }

  // A login that is not refused has put its credential into the file.
  predicate Strands(w: World, id: string, now: Clock, c: Credential, cancelled: bool, visible: Entry)
    requires id in w.claims
  {
    w.m.stored && MayInstall(w.m, id, w.claims[id], now, cancelled) && visible == Saved(c)
  }

  function FinishStep(w: World, id: string): World {
    if id in w.claims || id in w.finishing then
      w.(m := FinishLogin(w.m, id), claims := w.claims - {id}, finishing := w.finishing - {id})
    else w
  }

  function StatusStep(w: World, id: string, now: Clock): World {
    var m := LoginStatus(w.m, id, now);
    if m != w.m then w.(m := m, log := w.log + [TimedOut(id)]) else w
  }

  function CancelStep(w: World, id: string): World {
    var m := CancelLogin(w.m, id);
    if m != w.m then w.(m := m, log := w.log + [CancelledBy(id)]) else w
  }

  // ---------- Crashes ----------

  // A new process on what the crash left.
  function Reborn(w: World, e: Entry): World {
    var d := Disk(e, {e}, None);
    World(Recover(d), d, [], map[], {}, w.issued, w.log + [Restarted], w.spent + w.mine, {},
          if w.guard.Some? && e == Saved(w.guard.value) then w.guard else None, {})
  }

  // The world while a section works on the disk, and the disk states it goes through.
  function During(w: World, step: Step): (World, seq<Disk>) {
    match step
    case DoEnter(now, fault) => (w, Enter(w.m, w.disk, now, fault).trace)
    case DoSettle(i, now, reply, cancelled, fault, qfault) =>
      if i >= |w.flights| then (w, []) else
      (Resolve(w, w.flights[i], reply, cancelled),
       SettleSection(w, w.flights[i], now, reply, cancelled, fault, qfault).trace)
    case DoInstall(id, now, c, cancelled, fault) =>
      if id !in w.claims then (w, []) else
      (Welcome(w, id, now, c, cancelled), InstallSection(w, id, now, c, cancelled, fault).trace)
    case _ => (w, [])
  }

  function CrashStep(w: World, inner: Step, k: nat, e: Entry): World {
    var (v, trace) := During(w, inner);
    if k < |trace| && e in trace[k].recoverable then Reborn(AtCrash(w, v, inner, e), e) else w
  }

  // A login survives a crash inside it if the file has it.
  function AtCrash(w: World, v: World, inner: Step, e: Entry): World {
    match inner
    case DoInstall(id, now, c, cancelled, _) =>
      if id in w.claims && Strands(w, id, now, c, cancelled, e) then v.(log := v.log + [Stranded(id)]) else v
    case _ => v
  }

  function Next(w: World, step: Step): World {
    match step
    case DoEnter(now, fault) => EnterStep(w, now, fault)
    case DoSettle(i, now, reply, cancelled, fault, qfault) => SettleStep(w, i, now, reply, cancelled, fault, qfault)
    case DoLogout => w.(m := Logout(w.m), log := w.log + [LoggedOut])
    case DoListen => w.(m := w.m.(listening := true))
    case DoBegin(now, id, device, machine, key, drawn, victim) =>
      BeginStep(w, now, id, device, machine, key, drawn, victim)
    case DoClaim(id, now, late) => ClaimStep(w, id, now, late)
    case DoInstall(id, now, c, cancelled, fault) => InstallStep(w, id, now, c, cancelled, fault)
    case DoFinish(id) => FinishStep(w, id)
    case DoStatus(id, now) => StatusStep(w, id, now)
    case DoCancel(id) => CancelStep(w, id)
    case Crash(e) => if e in w.disk.recoverable then Reborn(w, e) else w
    case CrashIn(inner, k, e) => CrashStep(w, inner, k, e)
  }

  function Run(w: World, steps: seq<Step>): World {
    if steps == [] then w else Next(Run(w, steps[..|steps| - 1]), steps[|steps| - 1])
  }

  lemma RunStep(w: World, steps: seq<Step>, step: Step)
    ensures Run(w, steps + [step]) == Next(Run(w, steps), step)
  {
    assert (steps + [step])[..|steps|] == steps;
  }

  lemma {:induction false} RunAppend(w: World, before: seq<Step>, after: seq<Step>)
    ensures Run(w, before + after) == Run(Run(w, before), after)
  {
    if after == [] {
      assert before + after == before;
    } else {
      var init, step := after[..|after| - 1], after[|after| - 1];
      RunAppend(w, before, init);
      RunStep(w, before + init, step);
      Regroup(before, after);
    }
  }

  lemma Regroup(before: seq<Step>, after: seq<Step>)
    requires after != []
    ensures before + after == before + after[..|after| - 1] + [after[|after| - 1]]
  {}

  // How often the account in memory was replaced or dropped.
  function Turned(log: seq<Event>): nat {
    if log == [] then 0 else Turned(log[..|log| - 1]) + (if log[|log| - 1].Turns() then 1 else 0)
  }

  lemma TurnedNext(log: seq<Event>, e: Event)
    ensures Turned(log + [e]) == Turned(log) + (if e.Turns() then 1 else 0)
  {
    assert (log + [e])[..|log|] == log;
  }

  // ---------- Steps that only keep the books of the logins ----------

  predicate Bookkeeping(step: Step) {
    step.DoListen? || step.DoBegin? || step.DoClaim? || step.DoFinish? || step.DoStatus? || step.DoCancel?
  }

  predicate Booked(w: World, v: World) {
    && v.m == w.m.(pending := v.m.pending, results := v.m.results, latestLogin := v.m.latestLogin,
       listening := v.m.listening)
    && v == w.(m := v.m, claims := v.claims, finishing := v.finishing, issued := v.issued, log := v.log)
    && Turned(v.log) == Turned(w.log)
  }

  lemma BeginBooked(w: World, now: Clock, id: string, device: string, machine: string, key: Key, drawn: bool,
                    victim: string)
    ensures Booked(w, BeginStep(w, now, id, device, machine, key, drawn, victim))
  {
    TurnedNext(w.log, Began(id));
  }

  lemma StatusBooked(w: World, id: string, now: Clock)
    ensures Booked(w, StatusStep(w, id, now))
  {
    TurnedNext(w.log, TimedOut(id));
  }

  lemma CancelBooked(w: World, id: string)
    ensures Booked(w, CancelStep(w, id))
  {
    TurnedNext(w.log, CancelledBy(id));
  }

  lemma ClaimBooked(w: World, id: string, now: Clock, late: bool)
    ensures Booked(w, ClaimStep(w, id, now, late))
  {}

  lemma FinishBooked(w: World, id: string)
    ensures Booked(w, FinishStep(w, id))
  {}

  lemma OnlyLogins(w: World, step: Step)
    requires Bookkeeping(step)
    ensures Booked(w, Next(w, step))
  {
    match step
    case DoBegin(now, id, device, machine, key, drawn, victim) =>
      BeginBooked(w, now, id, device, machine, key, drawn, victim);
    case DoClaim(id, now, late) => ClaimBooked(w, id, now, late);
    case DoFinish(id) => FinishBooked(w, id);
    case DoStatus(id, now) => StatusBooked(w, id, now);
    case DoCancel(id) => CancelBooked(w, id);
    case DoListen =>
  }
}
