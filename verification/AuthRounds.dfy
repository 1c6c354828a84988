// Whole refresh rounds and whole logins (auth.go, auth_service.go): what callers are
// handed, when a round or a login succeeds, and what a failed round means from then on.
module AuthRounds {
  import opened Wrappers
  import opened CredentialStore
  import opened AuthState
  import opened AuthWorld
  import opened RefreshFence
  import LoginAttempts

  // ---------- What callers are handed ----------

  predicate Good(c: Credential, now: Clock) {
    c.token != "" && (c.expiresAt == 0 || now < c.expiresAt)
  }

  // Every exchange under way was sent with a complete credential.
  ghost predicate Armed(w: World) {
    forall i | 0 <= i < |w.flights| :: w.flights[i].sent.Complete()
  }

  lemma NextArmed(w: World, step: Step)
    requires Fence(w) && Armed(w)
    ensures Armed(Next(w, step))
  {
    match step
    case DoEnter(now, fault) =>
      if Enter(w.m, w.disk, now, fault).answer.Send? {
        SentIsOnDisk(w.m, w.disk, now, fault);
        EnterShape(w.m, w.disk, now, fault);
      }
    case DoSettle(i, now, reply, cancelled, fault, qfault) =>
      if i < |w.flights| { assert w.flights[..i] + w.flights[i + 1..] == []; }
    case DoInstall(_, _, _, _, _) =>
    case Crash(_) =>
    case CrashIn(_, _, _) =>
    case _ => AsideSteps(w, step);
  }

  lemma {:induction false} RunArmed(w: World, steps: seq<Step>)
    requires Starts(w)
    ensures Armed(Run(w, steps))
  {
    if steps != [] {
      RunArmed(w, steps[..|steps| - 1]);
      RunKeeps(w, steps[..|steps| - 1]);
      NextArmed(Run(w, steps[..|steps| - 1]), steps[|steps| - 1]);
    }
  }

  // In any state a caller of get is handed only the current access token, and only while
  // it has not expired.
  lemma HandedOutIsGood(m: Manager, d: Disk, now: Clock, fault: SaveFault)
    ensures var a := Enter(m, d, now, fault).answer;
            a.Give? ==> Good(a.cred, now) && a.cred == m.cred && a.generation == m.generation
  {}

  // What an exchange's own caller may be handed when it ends.
  ghost predicate HandedBack(r: Section, sent: Credential, now: Clock) {
    && r.trace != []
    && (r.answer.Give? ==> Good(r.answer.cred, now) && r.answer.cred == sent)
    && (r.answer.GiveUncertain? ==> r.answer.cred == r.m.cred && Read(Last(r.trace)) == Ok(r.m.cred))
  }

  // After the exchange its caller is handed the token that was sent if it is still good,
  // or the new credential when that is in the file.
  lemma {:induction false} HandedBackIsGood(w: World, steps: seq<Step>, i: nat, now: Clock, reply: Reply,
                                            cancelled: bool,
                                            fault: SaveFault, qfault: QuarantineFault)
    requires Starts(w)
    ensures var v := Run(w, steps);
            i < |v.flights| ==> HandedBack(SettleSection(v, v.flights[i], now, reply, cancelled, fault, qfault),
              v.flights[i].sent, now)
  {
    RunKeeps(w, steps);
    RunArmed(w, steps);
    var v := Run(w, steps);
    if i < |v.flights| {
      SettleGives(v.m, v.disk, now, v.flights[i].sent, v.flights[i].generation, reply, cancelled, fault, qfault);
    }
  }

  lemma RenewGives(m: Manager, d: Disk, now: Clock, sent: Credential, g: nat, c: Credential, fault: SaveFault)
    requires d.Clean() && m.stored && sent.token != ""
    ensures HandedBack(Renew(m, d, now, sent, g, c, fault), sent, now)
  {
    if Published(SaveSteps(d, c, fault), fault.Readable(), c) { PublishedIsVisible(d, c, fault); }
  }

  lemma SettleGives(m: Manager, d: Disk, now: Clock, sent: Credential, g: nat, reply: Reply, cancelled: bool,
                    fault: SaveFault, qfault: QuarantineFault)
    requires d.Clean() && m.stored && sent.token != ""
    ensures HandedBack(Settle(m, d, now, sent, g, reply, cancelled, fault, qfault), sent, now)
  {
    if reply.Fresh? {
      RenewGives(m.(refreshing := false), d, now, sent, g, reply.cred.(refreshPending := false), fault);
    }
  }

  // ---------- A round that succeeds ----------

  // If nothing fails, a due refresh puts the new credential in memory and on disk, lifts
  // the fence, and the next caller is handed it without another exchange.
  lemma {:induction false} RefreshSucceeds(w: World, sentAt: Clock, endedAt: Clock, later: Clock, got: Credential)
    requires Fence(w) && Enter(w.m, w.disk, sentAt, NoFault).answer.Send? && sentAt <= endedAt <= later
    requires got.Complete() && got.expiresAt > later + 2 * MINUTE
    ensures var v := SettleStep(EnterStep(w, sentAt, NoFault), 0, endedAt, Fresh(got), false, NoFault, NoProblem);
            var c := got.(refreshPending := false);
            && v.m.cred == c && v.disk == Disk(Saved(c), {Saved(c)}, None)
            && v.flights == [] && !v.m.refreshing && v.guard == None
            && got.refreshToken !in v.Fenced()
            && Enter(v.m, v.disk, later, NoFault).answer == Give(c, w.m.generation)
  {
    var c := got.(refreshPending := false);
    EnterShape(w.m, w.disk, sentAt, NoFault);
    SentIsOnDisk(w.m, w.disk, sentAt, NoFault);
    var u := EnterStep(w, sentAt, NoFault);
    assert u.flights == [Flight(u.m.cred, w.m.generation)];
    SaveIsAtomic(u.disk, c, NoFault);
    assert u.flights[..0] + u.flights[1..] == [];
  }

  // ---------- When the account is replaced ----------

  predicate Crashes(step: Step) { step.Crash? || step.CrashIn? }

  // The log tells how often the account was replaced or dropped; within one process the
  // generation counts the same.
  // One step and the account.
  ghost predicate Counted(w: World, v: World) {
    v.m.stored && v.m.generation + Turned(w.log) == w.m.generation + Turned(v.log) && Turned(v.log) >= Turned(w.log)
  }

  lemma RoundTurns(w: World, step: Step)
    requires w.m.stored && (step.DoEnter? || step.DoSettle?)
    ensures Counted(w, Next(w, step))
  {
    match step
    case DoEnter(now, fault) => LoginAttempts.EnterFrame(w.m, w.disk, now, fault);
    case DoSettle(i, now, reply, cancelled, fault, qfault) =>
      if i < |w.flights| {
        SettleShape(w.m, w.disk, now, w.flights[i].sent, w.flights[i].generation, reply, cancelled, fault, qfault);
      }
  }

  lemma StepTurns(w: World, step: Step)
    requires w.m.stored
    ensures !Crashes(step) ==> Counted(w, Next(w, step))
    ensures Crashes(step) ==>
              Next(w, step) == w || (Next(w, step).m.stored && Turned(Next(w, step).log) > Turned(w.log))
  {
    match step
    case DoEnter(_, _) => RoundTurns(w, step);
    case DoSettle(_, _, _, _, _, _) => RoundTurns(w, step);
    case DoLogout => TurnedNext(w.log, LoggedOut);
    case DoInstall(id, now, c, cancelled, fault) => InstallTurns(w, id, now, c, cancelled, fault);
    case Crash(e) => RebornTurns(w, e);
    case CrashIn(inner, k, e) => CrashTurns(w, inner, k, e);
    case _ => OnlyLogins(w, step);
  }

  lemma InstallTurns(w: World, id: string, now: Clock, c: Credential, cancelled: bool, fault: SaveFault)
    requires w.m.stored
    ensures var v := InstallStep(w, id, now, c, cancelled, fault);
            && v.m.stored && v.m.generation + Turned(w.log) == w.m.generation + Turned(v.log)
            && v.flights == w.flights && Turned(v.log) >= Turned(w.log)
               && (Turned(v.log) == Turned(w.log) ==> v.m == w.m)
  {
    if id in w.claims {
      LoginAttempts.InstallShape(w, id, now, c, cancelled, fault);
      RefreshFence.InstallShape(w.m, w.disk, id, now, w.claims[id], c, cancelled, fault);
      TurnedNext(w.log, Installed(id));
      TurnedNext(w.log, Stranded(id));
    }
  }

  lemma CrashTurns(w: World, inner: Step, k: nat, e: Entry)
    ensures var v := CrashStep(w, inner, k, e);
            v == w || (v.m.stored && Turned(v.log) > Turned(w.log))
  {
    var v := During(w, inner).0;
    LoginAttempts.DuringLog(w, inner);
    AtCrashTurns(w, v, inner, e);
    RebornTurns(AtCrash(w, v, inner, e), e);
  }

  lemma AtCrashTurns(w: World, v: World, inner: Step, e: Entry)
    ensures Turned(AtCrash(w, v, inner, e).log) == Turned(v.log)
  {
    if inner.DoInstall? { TurnedNext(v.log, Stranded(inner.id)); }
  }

  lemma RebornTurns(w: World, e: Entry)
    ensures Reborn(w, e).m.stored && Turned(Reborn(w, e).log) == Turned(w.log) + 1
  {
    TurnedNext(w.log, Restarted);
  }

  lemma {:induction false} RunTurns(w: World, steps: seq<Step>)
    requires w.m.stored
    ensures Run(w, steps).m.stored && Turned(Run(w, steps).log) >= Turned(w.log)
  {
    if steps != [] {
      RunTurns(w, steps[..|steps| - 1]);
      StepTurns(Run(w, steps[..|steps| - 1]), steps[|steps| - 1]);
    }
  }

  // ---------- After a round that failed ----------

  // No exchange is under way and the account's refresh has failed.
  ghost predicate Stuck(w: World, c: Credential, why: AuthError) {
    w.m.stored && w.m.cred == c && w.m.refreshErr == Some(why) && w.flights == []
  }

  lemma StaysStuck(w: World, step: Step, c: Credential, why: AuthError)
    requires Stuck(w, c, why) && Turned(Next(w, step).log) == Turned(w.log)
    ensures Stuck(Next(w, step), c, why)
  {
    match step
    case DoEnter(_, _) =>
    case DoSettle(_, _, _, _, _, _) =>
    case DoLogout => TurnedNext(w.log, LoggedOut);
    case DoInstall(id, now, got, cancelled, fault) => InstallTurns(w, id, now, got, cancelled, fault);
    case Crash(_) => StepTurns(w, step);
    case CrashIn(_, _, _) => StepTurns(w, step);
    case _ => AsideSteps(w, step);
  }

  lemma {:induction false} RunStuck(w: World, steps: seq<Step>, c: Credential, why: AuthError)
    requires Stuck(w, c, why) && Turned(Run(w, steps).log) == Turned(w.log)
    ensures Stuck(Run(w, steps), c, why)
  {
    if steps != [] {
      var init, step := steps[..|steps| - 1], steps[|steps| - 1];
      RunTurns(w, init);
      StepTurns(Run(w, init), step);
      RunStuck(w, init, c, why);
      StaysStuck(Run(w, init), step, c, why);
    }
  }

  // The exchange of the current account ended without a new credential in memory.
  predicate Fails(w: World, i: nat, now: Clock, reply: Reply, cancelled: bool, fault: SaveFault,
                  qfault: QuarantineFault) {
    && i < |w.flights| && Counts(w, w.flights[i], cancelled)
    && SettleStep(w, i, now, reply, cancelled, fault, qfault).m.refreshErr.Some?
  }

  // Unless a new credential was saved, or saved and read back, every counted end is one.
  lemma FailsExactly(w: World, i: nat, now: Clock, reply: Reply, cancelled: bool, fault: SaveFault,
                     qfault: QuarantineFault)
    requires Fence(w) && i < |w.flights| && Counts(w, w.flights[i], cancelled)
    ensures Fails(w, i, now, reply, cancelled, fault, qfault) <==>
            !(reply.Fresh? &&
              var c := reply.cred.(refreshPending := false);
                  Published(SaveSteps(w.disk, c, fault), fault.Readable(), c))
  {
    if reply.Fresh? {
      var c := reply.cred.(refreshPending := false);
      var saving := SaveSteps(w.disk, c, fault);
      var f := w.flights[i];
      AfterSaveFails(w.m.(refreshing := false), saving, Published(saving, fault.Readable(), c), now, f.sent,
        f.generation, c);
    }
  }

  lemma AfterSaveFails(m: Manager, saving: Saving, published: bool, now: Clock, sent: Credential, g: nat, c: Credential)
    requires saving.WellFormed() && (saving.error.None? ==> published)
    ensures AfterSave(m, saving, published, now, sent, g, c).m.refreshErr.Some? <==> !published
  {}

  // Once an exchange was rejected or left in doubt, every later round of this process, in
  // any interleaving until a login takes effect or a logout, sends nothing: it is refused,
  // or handed the old access token while that is good and the exchange was only in doubt.
  lemma {:induction false} FailedMeansLogin(w: World, i: nat, now: Clock, reply: Reply, cancelled: bool,
                                            fault: SaveFault,
                                            qfault: QuarantineFault, steps: seq<Step>, later: Clock, again: SaveFault)
    requires Fence(w) && Fails(w, i, now, reply, cancelled, fault, qfault)
    requires var u := SettleStep(w, i, now, reply, cancelled, fault, qfault); Turned(Run(u, steps).log) == Turned(u.log)
    ensures var u := SettleStep(w, i, now, reply, cancelled, fault, qfault);
            var v := Run(u, steps); var r := Enter(v.m, v.disk, later, again);
            && r.trace == [v.disk]
            && r.answer == (if w.m.cred.token != "" && !reply.Rejected? && Unexpired(w.m.cred, later)
                            then Give(w.m.cred, v.m.generation) else Refuse)
  {
    var u := SettleStep(w, i, now, reply, cancelled, fault, qfault);
    var f := w.flights[i];
    SettleShape(w.m, w.disk, now, f.sent, f.generation, reply, cancelled, fault, qfault);
    SettleReason(w.m, w.disk, now, f.sent, f.generation, reply, fault, qfault);
    assert w.flights[..i] + w.flights[i + 1..] == [];
    RunStuck(u, steps, w.m.cred, u.m.refreshErr.value);
  }

  lemma SettleReason(m: Manager, d: Disk, now: Clock, sent: Credential, g: nat, reply: Reply, fault: SaveFault,
                     qfault: QuarantineFault)
    requires m.stored && m.generation == g
    ensures var n := Settle(m, d, now, sent, g, reply, false, fault, qfault).m;
            n.refreshErr.Some? ==> n.refreshErr == Some(if reply.Rejected? then LoginRequired else AmbiguousExchange)
  {
    if reply.Fresh? {
      var c := reply.cred.(refreshPending := false);
      var saving := SaveSteps(d, c, fault);
      AfterSaveReason(m.(refreshing := false), saving, Published(saving, fault.Readable(), c), now, sent, g, c);
    }
  }

  lemma AfterSaveReason(m: Manager, saving: Saving, published: bool, now: Clock, sent: Credential, g: nat,
                        c: Credential)
    requires saving.WellFormed()
    ensures var n := AfterSave(m, saving, published, now, sent, g, c).m;
            n.refreshErr.Some? ==> n.refreshErr == Some(AmbiguousExchange)
  {}

  // ---------- Exchanges that are overtaken ----------

  // Steps of a process during one exchange.
  predicate Meanwhile(step: Step) { !step.DoSettle? && !Crashes(step) }

  lemma FlightStays(w: World, step: Step)
    requires Fence(w) && |w.flights| == 1 && Meanwhile(step)
    ensures Next(w, step).flights == w.flights
  {
    match step
    case DoEnter(now, fault) => EnterShape(w.m, w.disk, now, fault);
    case DoInstall(_, _, _, _, _) =>
    case _ => AsideSteps(w, step);
  }

  lemma {:induction false} RunMeanwhile(w: World, steps: seq<Step>)
    requires Fence(w) && |w.flights| == 1 && forall i | 0 <= i < |steps| :: Meanwhile(steps[i])
    ensures var v := Run(w, steps);
            && Fence(v) && v.flights == w.flights && Turned(v.log) >= Turned(w.log)
            && v.m.generation + Turned(w.log) == w.m.generation + Turned(v.log)
  {
    if steps != [] {
      var init, step := steps[..|steps| - 1], steps[|steps| - 1];
      RunMeanwhile(w, init);
      NextKeeps(Run(w, init), step);
      FlightStays(Run(w, init), step);
      StepTurns(Run(w, init), step);
    }
  }

  // In every run: an exchange is overtaken exactly if a login took effect or a logout
  // happened since its token was sent, and then its end, whatever it is, leaves memory
  // and disk as they are.
  lemma {:induction false} StaleExchangeIsHarmless(w: World, before: seq<Step>, sentAt: Clock, fence: SaveFault,
                                                   steps: seq<Step>,
                                                   endedAt: Clock, reply: Reply, cancelled: bool, fault: SaveFault,
                                                     qfault: QuarantineFault)
    requires Starts(w) && Enter(Run(w, before).m, Run(w, before).disk, sentAt, fence).answer.Send?
    requires forall i | 0 <= i < |steps| :: Meanwhile(steps[i])
    ensures var u := EnterStep(Run(w, before), sentAt, fence); var v := Run(u, steps);
            && |v.flights| == 1
            && (v.flights[0].generation != v.m.generation <==> Turned(v.log) > Turned(u.log))
            && (Turned(v.log) > Turned(u.log) ==>
                  SettleStep(v, 0, endedAt, reply, cancelled, fault, qfault) ==
                    v.(m := v.m.(refreshing := false), flights := []))
  {
    var start := Run(w, before);
    RunKeeps(w, before);
    SendFlies(start, sentAt, fence);
    var u := EnterStep(start, sentAt, fence);
    RunMeanwhile(u, steps);
    if Turned(Run(u, steps).log) > Turned(u.log) { StaleEnds(Run(u, steps), endedAt, reply, cancelled, fault, qfault); }
  }

  lemma SendFlies(w: World, now: Clock, fault: SaveFault)
    requires Fence(w) && Enter(w.m, w.disk, now, fault).answer.Send?
    ensures var u := EnterStep(w, now, fault); Fence(u) && u.flights == [Flight(u.m.cred, u.m.generation)]
  {
    EnterShape(w.m, w.disk, now, fault);
    EnterKeeps(w, now, fault);
  }

  lemma StaleEnds(w: World, now: Clock, reply: Reply, cancelled: bool, fault: SaveFault, qfault: QuarantineFault)
    requires |w.flights| == 1 && w.flights[0].generation != w.m.generation
    ensures SettleStep(w, 0, now, reply, cancelled, fault, qfault) == w.(m := w.m.(refreshing := false), flights := [])
  {
    assert w.flights[..0] + w.flights[1..] == [];
  }

  // ---------- A login that succeeds ----------

  // The attempt was begun in w and nothing else has happened to it.
  ghost predicate Begun(w: World, a: World, begun: Clock, id: string) {
    && a.m.stored == w.m.stored && a.disk == w.disk && a.log == w.log + [Began(id)] && a.m.generation == w.m.generation
    && a.m.latestLogin == id && id in a.m.results && a.m.results[id] == LoginResult(Pending, begun + ATTEMPT_TTL)
    && (forall other | other in a.m.results && other != id :: !a.m.results[other].status.Pending?)
  }

  lemma BeginSucceeds(w: World, begun: Clock, id: string, device: string, machine: string, key: Key, victim: string)
    requires w.m.listening && id != "" && id !in w.issued
    requires |Supersede(w.m.results, begun)| >= MAX_RESULTS ==> Oldest(Supersede(w.m.results, begun), victim)
    ensures var a := BeginStep(w, begun, id, device, machine, key, true, victim);
            Begun(w, a, begun, id) && id in a.m.pending && a.m.pending[id].generation == w.m.generation
  {}

  lemma ClaimSucceeds(w: World, a: World, begun: Clock, claimed: Clock, id: string)
    requires Begun(w, a, begun, id) && id in a.m.pending && a.m.pending[id].generation == w.m.generation
    requires claimed < begun + ATTEMPT_TTL
    ensures var b := ClaimStep(a, id, claimed, false);
            Begun(w, b, begun, id) && id in b.claims && b.claims[id].generation == w.m.generation
  {}

  lemma InstallSucceeds(w: World, b: World, begun: Clock, installed: Clock, id: string, c: Credential)
    requires Begun(w, b, begun, id) && id in b.claims && b.claims[id].generation == w.m.generation
    requires b.m.stored && b.disk.Clean() && c.Complete() && installed < begun + ATTEMPT_TTL
    ensures Installs(w, InstallStep(b, id, installed, c, false, NoFault), id, c)
  {
    SaveIsAtomic(b.disk, c, NoFault);
  }

  // The login for this attempt is the only thing that came of w.
  ghost predicate Installs(w: World, v: World, id: string, c: Credential) {
    && v.m.cred == c && v.disk == Disk(Saved(c), {Saved(c)}, None)
    && id in v.m.results && v.m.results[id].status == Completed
    && v.m.refreshErr == None && v.m.generation == w.m.generation + 1
    && v.log == w.log + [Began(id)] + [Installed(id)]
    && (forall other | other in v.m.results && other != id :: !v.m.results[other].status.Pending?)
  }

  // If nothing intervenes and nothing fails, an attempt that is begun, called back and
  // installed within its ten minutes is completed, in memory and on disk, and whatever
  // exchange was under way for the old account is stale.
  lemma {:induction false} LoginSucceeds(w: World, begun: Clock, claimed: Clock, installed: Clock, id: string,
                                         device: string, machine: string,
                                         key: Key, victim: string, c: Credential)
    requires w.m.listening && w.m.stored && w.disk.Clean() && c.Complete()
    requires id != "" && id !in w.issued
    requires |Supersede(w.m.results, begun)| >= MAX_RESULTS ==> Oldest(Supersede(w.m.results, begun), victim)
    requires claimed < begun + ATTEMPT_TTL && installed < begun + ATTEMPT_TTL
    ensures var a := BeginStep(w, begun, id, device, machine, key, true, victim);
            Installs(w, InstallStep(ClaimStep(a, id, claimed, false), id, installed, c, false, NoFault), id, c)
  {
    BeginSucceeds(w, begun, id, device, machine, key, victim);
    var a := BeginStep(w, begun, id, device, machine, key, true, victim);
    ClaimSucceeds(w, a, begun, claimed, id);
    InstallSucceeds(w, ClaimStep(a, id, claimed, false), begun, installed, id, c);
  }

  // ---------- A login that is refused and yet takes effect ----------

  const KEY := Key("key", true)
  const ACCOUNT :=
    Credential("token", "refresh", "user", "client", 9 * SECOND, 9 * SECOND, false, "device", "machine", Some(KEY))
  const NOTHING := Disk(None, {None}, None)
  const FIRST_START := World(Recover(NOTHING), NOTHING, [], map[], {}, {}, [], {}, {}, None, {})

  function Attempted(): seq<Step> {
    [DoListen, DoBegin(2 * SECOND, "id", "device", "machine", KEY, true, ""), DoClaim("id", 3 * SECOND, false)]
  }

  // The attempt is begun and called back.
  lemma CalledBack()
    ensures var w := Run(FIRST_START, Attempted());
            && w.m.stored && w.disk == NOTHING && w.m.cred.token == "" && w.log == [Began("id")]
            && "id" in w.claims && MayInstall(w.m, "id", w.claims["id"], 4 * SECOND, false)
  {
    AttemptedSteps();
    var w := FIRST_START.(m := FIRST_START.m.(listening := true));
    assert Supersede(w.m.results, 2 * SECOND) == map[];
    BeginSucceeds(w, 2 * SECOND, "id", "device", "machine", KEY, "");
    ClaimSucceeds(w, BeginStep(w, 2 * SECOND, "id", "device", "machine", KEY, true, ""), 2 * SECOND, 3 * SECOND, "id");
  }

  lemma AttemptedSteps()
    ensures var w := FIRST_START.(m := FIRST_START.m.(listening := true));
            Run(FIRST_START, Attempted()) ==
            ClaimStep(BeginStep(w, 2 * SECOND, "id", "device", "machine", KEY, true, ""), "id", 3 * SECOND, false)
  {
    var steps := Attempted();
    assert steps[..2] == [DoListen] + [steps[1]] && steps == steps[..2] + [steps[2]] && [DoListen] == [] + [DoListen];
    RunStep(FIRST_START, [], DoListen);
    RunStep(FIRST_START, [DoListen], steps[1]);
    RunStep(FIRST_START, steps[..2], steps[2]);
  }

  // One such login: the directory is not synced and the file cannot be read back. Its
  // caller is refused and nobody is logged in; after a crash that keeps the new file, or
  // after a restart, the next process is.
  lemma StrandedLogin()
    ensures Starts(FIRST_START)
    ensures var w := Run(FIRST_START, Attempted());
            var fault := SyncDirectoryFails(false);
            var v := InstallStep(w, "id", 4 * SECOND, ACCOUNT, false, fault);
            && "id" in w.claims && InstallSection(w, "id", 4 * SECOND, ACCOUNT, false, fault).answer == Unavailable
            && v.log == [Began("id")] + [Stranded("id")] && v.m.cred.token == ""
            && Reborn(v, v.disk.visible).m.cred == ACCOUNT
  {
    CalledBack();
    LoginAttempts.StrandedExactly(Run(FIRST_START, Attempted()), "id", 4 * SECOND, ACCOUNT, false,
                                  SyncDirectoryFails(false));
  }

  // ---------- Deadlines ----------

  // An attempt and its reported result end at the same time.
  ghost predicate Timed(w: World) {
    && (forall id | id in w.m.pending && id in w.m.results :: w.m.pending[id].expires == w.m.results[id].expires)
    && (forall id | id in w.claims && id in w.m.results :: w.claims[id].expires == w.m.results[id].expires)
    && w.m.results.Keys <= w.issued && w.claims.Keys <= w.issued
  }

  lemma BeginTimed(w: World, now: Clock, id: string, device: string, machine: string, key: Key, drawn: bool,
                   victim: string)
    requires Timed(w)
    ensures Timed(BeginStep(w, now, id, device, machine, key, drawn, victim))
  {}

  lemma InstallTimed(w: World, id: string, now: Clock, c: Credential, cancelled: bool, fault: SaveFault)
    requires Timed(w)
    ensures Timed(InstallStep(w, id, now, c, cancelled, fault))
  {
    if id in w.claims { LoginAttempts.InstallShape(w, id, now, c, cancelled, fault); }
  }

  lemma BooksTimed(w: World, step: Step)
    requires Timed(w) && (step.DoClaim? || step.DoFinish? || step.DoStatus? || step.DoCancel?)
    ensures Timed(Next(w, step))
  {
    match step
    case DoClaim(_, _, _) =>
    case DoFinish(_) =>
    case DoStatus(_, _) =>
    case DoCancel(_) =>
  }

  lemma NextTimed(w: World, step: Step)
    requires Timed(w)
    ensures Timed(Next(w, step))
  {
    match step
    case DoEnter(now, fault) => LoginAttempts.EnterFrame(w.m, w.disk, now, fault);
    case DoSettle(i, now, reply, cancelled, fault, qfault) =>
      if i < |w.flights| {
        LoginAttempts.SettleFrame(w.m, w.disk, now, w.flights[i].sent, w.flights[i].generation, reply, cancelled,
          fault, qfault);
      }
    case DoBegin(now, id, device, machine, key, drawn, victim) =>
      BeginTimed(w, now, id, device, machine, key, drawn, victim);
    case DoInstall(id, now, c, cancelled, fault) => InstallTimed(w, id, now, c, cancelled, fault);
    case DoLogout =>
    case DoListen =>
    case Crash(_) =>
    case CrashIn(_, _, _) =>
    case _ => BooksTimed(w, step);
  }

  lemma {:induction false} RunTimed(w: World, steps: seq<Step>)
    requires Starts(w)
    ensures Timed(Run(w, steps))
  {
    if steps != [] {
      RunTimed(w, steps[..|steps| - 1]);
      NextTimed(Run(w, steps[..|steps| - 1]), steps[|steps| - 1]);
    }
  }

  // In every run a login takes effect only while its attempt is pending and before the
  // attempt's own deadline, and an attempt is reported as expired only after it.
  lemma {:induction false} DeadlinesHold(w: World, steps: seq<Step>, id: string, now: Clock, c: Credential,
                                         cancelled: bool, fault: SaveFault)
    requires Starts(w)
    ensures var v := Run(w, steps); var u := InstallStep(v, id, now, c, cancelled, fault);
            u.m.cred != v.m.cred || u.log != v.log ==>
              && id in v.claims && now < v.claims[id].expires
              && id in v.m.results && v.m.results[id].status.Pending? && !cancelled
              && (u.m == v.m || (u.m.cred == c && id in u.m.results
                 && u.m.results[id].status in {Completed, DurabilityUncertain}))
    ensures var v := Run(w, steps); var u := StatusStep(v, id, now);
            u != v ==> id in v.m.results && v.m.results[id].status.Pending? && v.m.results[id].expires <= now
                       && id in u.m.results && u.m.results[id].status == Expired && id !in u.m.pending
  {
    RunTimed(w, steps);
    var v := Run(w, steps);
    if id in v.claims { LoginAttempts.InstallShape(v, id, now, c, cancelled, fault); }
  }
}
