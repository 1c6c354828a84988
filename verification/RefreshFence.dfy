// The one-use refresh token and its durable fence, over all runs (auth.go,
// credential_store.go, auth_service.go).
module RefreshFence {
  import opened Wrappers
  import opened CredentialStore
  import opened AuthState
  import opened AuthWorld

  // An entry that holds a fenced token says so.
  predicate Bears(e: Entry, fenced: set<string>) {
    e.Some? && e.value.content.Whole? && e.value.content.cred.refreshToken in fenced ==>
      e.value.content.cred.refreshPending
  }

  // Every entry is the guarded credential or one that has landed since.
  predicate Guarded(e: Entry, guard: Option<Credential>, landed: set<Credential>) {
    guard.Some? ==>
      || e == Saved(guard.value)
      || (e.Some? && e.value.content.Whole? && e.value.content.cred in landed && e == Saved(e.value.content.cred))
  }

  // A disk state that a crash may leave behind at any time.
  ghost predicate Safe(d: Disk, w: World) {
    && d.visible in d.recoverable
    && forall e | e in d.recoverable :: Sane(e) && Bears(e, w.Fenced()) && Guarded(e, w.guard, w.landed)
  }

  ghost predicate Fence(w: World) {
    && w.m.stored
    && w.disk.Clean()
    && Safe(w.disk, w)
    // one exchange at a time
    && |w.flights| <= 1
    && (w.m.refreshing <==> |w.flights| == 1)
    // a token of an earlier process is never sent again
    && (w.m.cred.token != "" && w.m.cred.refreshToken in w.spent ==> w.m.refreshErr.Some?)
    // the guarded credential is fenced, and is the current one unless logged out
    && (w.guard.Some? ==> w.guard.value.refreshPending && (w.m.cred == w.guard.value || w.m.cred.token == ""))
  }

  lemma StartFence(w: World)
    requires Starts(w)
    ensures Fence(w)
  {}

  // ---------- Disk work inside a section ----------

  // A save keeps every state safe if what it writes is itself safe.
  lemma SaveSafe(d: Disk, c: Credential, fault: SaveFault, w: World)
    requires d.Clean() && Safe(d, w)
    requires c.Complete() ==> Bears(Saved(c), w.Fenced()) && Guarded(Saved(c), w.guard, w.landed)
    ensures var r := SaveSteps(d, c, fault);
            r.Final().Clean() && forall i | 0 <= i < |r.trace| :: Safe(r.trace[i], w)
  {
    SaveIsAtomic(d, c, fault);
    var r := SaveSteps(d, c, fault);
    forall i | 0 <= i < |r.trace| ensures Safe(r.trace[i], w) {
      forall e | e in r.trace[i].recoverable ensures Sane(e) && Bears(e, w.Fenced()) && Guarded(e, w.guard, w.landed) {
        assert r.trace[i].recoverable <= d.recoverable + (if c.Complete() then {Saved(c)} else {});
      }
    }
  }

  lemma QuarantineSafe(d: Disk, token: string, fault: QuarantineFault, w: World)
    requires d.Clean() && Safe(d, w) && w.guard == None
    ensures var r := QuarantineSteps(d, token, fault);
            r.Final().Clean() && forall i | 0 <= i < |r.trace| :: Safe(r.trace[i], w)
  {
    QuarantineIsAtomic(d, token, fault);
    var r := QuarantineSteps(d, token, fault);
    forall i | 0 <= i < |r.trace| ensures Safe(r.trace[i], w) {
      forall e | e in r.trace[i].recoverable ensures Sane(e) && Bears(e, w.Fenced()) && Guarded(e, w.guard, w.landed) {
        assert r.trace[i].recoverable <= d.recoverable + {None};
      }
    }
  }

  lemma EnterSafe(w: World, now: Clock, fault: SaveFault)
    requires Fence(w)
    ensures var trace := Enter(w.m, w.disk, now, fault).trace;
            Last(trace).Clean() && forall i | 0 <= i < |trace| :: Safe(trace[i], w)
  {
    if w.m.cred.token != "" && w.m.refreshErr.None? {
      SaveSafe(w.disk, Marked(w.m.cred), fault, w);
    }
  }

  // Forgetting a fenced token makes nothing unsafe.
  lemma ReleaseSafe(w: World, token: string, landed: set<Credential>, guard: Option<Credential>)
    requires Safe(w.disk, w) && w.landed <= landed && (guard == w.guard || guard == None)
    ensures Safe(w.disk, Release(w, token).(landed := landed, guard := guard))
  {
    var v := Release(w, token).(landed := landed, guard := guard);
    forall e | e in w.disk.recoverable ensures Sane(e) && Bears(e, v.Fenced()) && Guarded(e, v.guard, v.landed) {
      assert Bears(e, w.Fenced()) && Guarded(e, w.guard, w.landed);
    }
  }

  lemma InvalidateSafe(w: World, now: Clock, sent: Credential, fault: SaveFault, qfault: QuarantineFault)
    requires w.disk.Clean() && Safe(w.disk, w) && w.guard == None && sent.refreshToken !in w.Fenced()
    ensures var trace := Invalidate(w.disk, now, sent, fault, qfault);
            Last(trace).Clean() && forall i | 0 <= i < |trace| :: Safe(trace[i], w)
  {
    var saving := SaveSteps(w.disk, Invalid(sent, now), fault);
    SaveSafe(w.disk, Invalid(sent, now), fault, w);
    if saving.error.Some? {
      assert Safe(saving.trace[|saving.trace| - 1], w);
      QuarantineSafe(saving.Final(), sent.token, qfault, w);
    }
  }

  lemma FreshSafe(w: World, f: Flight, now: Clock, c: Credential, fault: SaveFault)
    requires w.m.stored && w.disk.Clean() && Safe(w.disk, w)
    ensures var trace := Renew(w.m.(refreshing := false), w.disk, now, f.sent, f.generation, c, fault).trace;
            var v := Release(w, c.refreshToken).(landed := w.landed + {c});
            Last(trace).Clean() && forall i | 0 <= i < |trace| :: Safe(trace[i], v)
  {
    var v := Release(w, c.refreshToken).(landed := w.landed + {c});
    ReleaseSafe(w, c.refreshToken, w.landed + {c}, w.guard);
    SaveSafe(w.disk, c, fault, v);
    assert Renew(w.m.(refreshing := false), w.disk, now, f.sent, f.generation, c, fault).trace ==
        SaveSteps(w.disk, c, fault).trace;
  }

  lemma RejectedSafe(w: World, f: Flight, now: Clock, fault: SaveFault, qfault: QuarantineFault)
    requires w.m.stored && w.disk.Clean() && Safe(w.disk, w)
    ensures var trace := Invalidate(w.disk, now, f.sent, fault, qfault);
            var v := Release(w, f.sent.refreshToken).(guard := None);
            Last(trace).Clean() && forall i | 0 <= i < |trace| :: Safe(trace[i], v)
  {
    ReleaseSafe(w, f.sent.refreshToken, w.landed, None);
    InvalidateSafe(Release(w, f.sent.refreshToken).(guard := None), now, f.sent, fault, qfault);
  }

  lemma SettleSafe(w: World, f: Flight, now: Clock, reply: Reply, cancelled: bool, fault: SaveFault,
                   qfault: QuarantineFault)
    requires w.m.stored && w.disk.Clean() && Safe(w.disk, w)
    ensures var trace := SettleSection(w, f, now, reply, cancelled, fault, qfault).trace;
            var v := Resolve(w, f, reply, cancelled);
            Last(trace).Clean() && forall i | 0 <= i < |trace| :: Safe(trace[i], v)
  {
    if Counts(w, f, cancelled) {
      match reply
      case Fresh(got) => FreshSafe(w, f, now, got.(refreshPending := false), fault);
      case Rejected => RejectedSafe(w, f, now, fault, qfault);
      case _ =>
    }
  }

  lemma InstallSafe(w: World, id: string, now: Clock, c: Credential, cancelled: bool, fault: SaveFault)
    requires id in w.claims && w.m.stored && w.disk.Clean() && Safe(w.disk, w)
    ensures var trace := InstallSection(w, id, now, c, cancelled, fault).trace;
            var v := Welcome(w, id, now, c, cancelled);
            Last(trace).Clean() && forall i | 0 <= i < |trace| :: Safe(trace[i], v)
  {
    if MayInstall(w.m, id, w.claims[id], now, cancelled) {
      ReleaseSafe(w, c.refreshToken, w.landed + {c}, w.guard);
      SaveSafe(w.disk, c, fault, Welcome(w, id, now, c, cancelled));
    }
  }

  // ---------- The steps ----------

  lemma AfterFenceShape(m: Manager, saving: Saving, now: Clock)
    requires saving.WellFormed()
    ensures var r := AfterFence(m, saving, now);
            && r.m.stored == m.stored && r.m.generation == m.generation && r.m.refreshErr == m.refreshErr
            && (if r.answer.Send? then saving.error.None? && r.m.refreshing && r.m.cred == Marked(m.cred)
               && r.answer == Send(r.m.cred, m.generation)
                else r.m.cred == m.cred && r.m.refreshing == m.refreshing)
  {}

  // What the start of a round makes of memory.
  lemma EnterShape(m: Manager, d: Disk, now: Clock, fault: SaveFault)
    requires m.stored
    ensures var r := Enter(m, d, now, fault);
            && r.m.stored && r.m.generation == m.generation && r.m.refreshErr == m.refreshErr
            && (if r.answer.Send? then m.cred.token != "" && !m.refreshing && r.m.refreshing
               && r.m.cred == Marked(m.cred) && m.refreshErr == None
                                       && r.answer == Send(r.m.cred, m.generation)
                else r.m.cred == m.cred && r.m.refreshing == m.refreshing)
  {
    if m.cred.token != "" && m.refreshErr == None && !m.refreshing {
      AfterFenceShape(m, SaveSteps(d, Marked(m.cred), fault), now);
    }
  }

  lemma EnterKeeps(w: World, now: Clock, fault: SaveFault)
    requires Fence(w)
    ensures Fence(EnterStep(w, now, fault))
  {
    EnterSafe(w, now, fault);
    EnterShape(w.m, w.disk, now, fault);
    var r := Enter(w.m, w.disk, now, fault);
    if r.answer.Send? {
      SentIsOnDisk(w.m, w.disk, now, fault);
      SentFence(w, r.m, Last(r.trace));
    } else {
      assert Safe(r.trace[|r.trace| - 1], w);
      UnsentFence(w, r.m, Last(r.trace));
    }
  }

  lemma SentIsOnDisk(m: Manager, d: Disk, now: Clock, fault: SaveFault)
    requires d.Clean() && m.stored && Enter(m, d, now, fault).answer.Send?
    ensures var r := Enter(m, d, now, fault); var c := Marked(m.cred);
            c.Complete() && Last(r.trace) == Disk(Saved(c), {Saved(c)}, None)
  {
    SaveIsAtomic(d, Marked(m.cred), fault);
  }

  lemma SentFence(w: World, n: Manager, d: Disk)
    requires Fence(w) && !w.m.refreshing && w.m.refreshErr == None && w.m.cred.token != ""
    requires n.stored && n.refreshing && n.cred == Marked(w.m.cred) && n.cred.Complete()
    requires d == Disk(Saved(n.cred), {Saved(n.cred)}, None)
    ensures Fence(w.(m := n, disk := d, flights := w.flights + [Flight(n.cred, w.m.generation)],
                     mine := w.mine + {n.cred.refreshToken}, guard := Some(n.cred), landed := {}))
  {}

  lemma UnsentFence(w: World, n: Manager, d: Disk)
    requires Fence(w) && d.Clean() && Safe(d, w)
    requires n.stored && n.refreshing == w.m.refreshing && n.cred == w.m.cred && n.refreshErr == w.m.refreshErr
    ensures Fence(w.(m := n, disk := d))
  {}

  // What the end of an exchange makes of memory.
  lemma SettleShape(m: Manager, d: Disk, now: Clock, sent: Credential, g: nat, reply: Reply, cancelled: bool,
                    fault: SaveFault, qfault: QuarantineFault)
    requires m.stored
    ensures var n := Settle(m, d, now, sent, g, reply, cancelled, fault, qfault).m;
            && n.stored && !n.refreshing && n.generation == m.generation
            && (if m.generation != g || cancelled then n.cred == m.cred && n.refreshErr == m.refreshErr
                else if reply.Fresh? && n.refreshErr.None? then n.cred == reply.cred.(refreshPending := false)
                else n.cred == m.cred && n.refreshErr.Some?)
  {
    if m.generation == g && !cancelled {
      match reply
      case Fresh(got) =>
        var c := got.(refreshPending := false);
        var saving := SaveSteps(d, c, fault);
        AfterSaveShape(m.(refreshing := false), saving, Published(saving, fault.Readable(), c), now, sent, g, c);
      case Rejected =>
      case Ambiguous =>
      case Broken =>
    }
  }

  lemma AfterSaveShape(m: Manager, saving: Saving, published: bool, now: Clock, sent: Credential, g: nat, c: Credential)
    requires saving.WellFormed() && !m.refreshing
    ensures var n := AfterSave(m, saving, published, now, sent, g, c).m;
            && n.stored == m.stored && !n.refreshing && n.generation == m.generation
            && (if n.refreshErr.None? then n.cred == c else n.cred == m.cred)
  {}

  lemma SettleKeeps(w: World, i: nat, now: Clock, reply: Reply, cancelled: bool, fault: SaveFault,
                    qfault: QuarantineFault)
    requires Fence(w)
    ensures Fence(SettleStep(w, i, now, reply, cancelled, fault, qfault))
  {
    if i < |w.flights| {
      var f := w.flights[i];
      var r := SettleSection(w, f, now, reply, cancelled, fault, qfault);
      SettleSafe(w, f, now, reply, cancelled, fault, qfault);
      SettleShape(w.m, w.disk, now, f.sent, f.generation, reply, cancelled, fault, qfault);
      assert w.flights[..i] + w.flights[i + 1..] == [];
      SettledFence(w, f, reply, cancelled, r.m, r.trace);
    }
  }

  lemma SettledFence(w: World, f: Flight, reply: Reply, cancelled: bool, n: Manager, trace: seq<Disk>)
    requires Fence(w) && trace != [] && Last(trace).Clean() && Safe(trace[|trace| - 1], Resolve(w, f, reply, cancelled))
    requires n.stored && !n.refreshing
    requires if !Counts(w, f, cancelled) then n.cred == w.m.cred && n.refreshErr == w.m.refreshErr
             else if reply.Fresh? && n.refreshErr.None? then n.cred == reply.cred.(refreshPending := false)
             else n.cred == w.m.cred && n.refreshErr.Some?
    ensures var v := Resolve(w, f, reply, cancelled);
            var renewed := Counts(w, f, cancelled) && reply.Fresh? && n.refreshErr.None?;
            Fence(v.(m := n, disk := Last(trace), flights := [], guard := if renewed then None else v.guard))
  {
    SafeUnguarded(Last(trace), Resolve(w, f, reply, cancelled));
  }

  lemma SafeUnguarded(d: Disk, w: World)
    requires Safe(d, w)
    ensures Safe(d, w.(guard := None))
  {
    var v := w.(guard := None);
    forall e | e in d.recoverable ensures Sane(e) && Bears(e, v.Fenced()) && Guarded(e, v.guard, v.landed) {
      assert Bears(e, w.Fenced());
    }
  }

  // The fence says nothing about logins and the log.
  predicate SameFence(v: World, w: World) {
    w == v.(claims := w.claims, finishing := w.finishing, issued := w.issued, log := w.log)
  }

  lemma FenceOnly(v: World, w: World)
    requires Fence(v) && SameFence(v, w)
    ensures Fence(w)
  {}

  // A login that was refused or that failed, and one that took effect.
  lemma RefusedFence(w: World, v: World, d: Disk)
    requires Fence(w) && d.Clean() && Safe(d, v)
    requires v.m == w.m && v.flights == w.flights && v.spent <= w.spent && v.guard == w.guard
    ensures Fence(v.(disk := d))
  {}

  lemma AdoptedFence(w: World, v: World, n: Manager, d: Disk)
    requires Fence(w) && d.Clean() && Safe(d, v) && v.flights == w.flights
    requires n.stored && n.refreshing == w.m.refreshing && n.cred.refreshToken !in v.spent
    ensures Fence(v.(m := n, disk := d, guard := None))
  {
    SafeUnguarded(d, v);
  }

  lemma AcceptedKeeps(w: World, id: string, now: Clock, c: Credential, cancelled: bool, fault: SaveFault)
    requires Fence(w) && id in w.claims && InstallSection(w, id, now, c, cancelled, fault).answer.Give?
    ensures Fence(InstallStep(w, id, now, c, cancelled, fault))
  {
    var r := InstallSection(w, id, now, c, cancelled, fault);
    var v := Welcome(w, id, now, c, cancelled);
    InstallSafe(w, id, now, c, cancelled, fault);
    InstallShape(w.m, w.disk, id, now, w.claims[id], c, cancelled, fault);
    assert Safe(r.trace[|r.trace| - 1], v);
    AdoptedFence(w, v, r.m, Last(r.trace));
    FenceOnly(v.(m := r.m, disk := Last(r.trace), guard := None), InstallStep(w, id, now, c, cancelled, fault));
  }

  lemma RefusedKeeps(w: World, id: string, now: Clock, c: Credential, cancelled: bool, fault: SaveFault)
    requires Fence(w) && id in w.claims && !InstallSection(w, id, now, c, cancelled, fault).answer.Give?
    ensures Fence(InstallStep(w, id, now, c, cancelled, fault))
  {
    var r := InstallSection(w, id, now, c, cancelled, fault);
    var v := Welcome(w, id, now, c, cancelled);
    InstallSafe(w, id, now, c, cancelled, fault);
    InstallShape(w.m, w.disk, id, now, w.claims[id], c, cancelled, fault);
    assert Safe(r.trace[|r.trace| - 1], v);
    RefusedFence(w, v, Last(r.trace));
    FenceOnly(v.(disk := Last(r.trace)), InstallStep(w, id, now, c, cancelled, fault));
  }

  lemma InstallKeeps(w: World, id: string, now: Clock, c: Credential, cancelled: bool, fault: SaveFault)
    requires Fence(w)
    ensures Fence(InstallStep(w, id, now, c, cancelled, fault))
  {
    if id in w.claims {
      if InstallSection(w, id, now, c, cancelled, fault).answer.Give? {
        AcceptedKeeps(w, id, now, c, cancelled, fault);
      } else {
        RefusedKeeps(w, id, now, c, cancelled, fault);
      }
    }
  }

  lemma InstallShape(m: Manager, d: Disk, id: string, now: Clock, p: Attempt, c: Credential, cancelled: bool,
                     fault: SaveFault)
    requires m.stored
    ensures var r := Install(m, d, now, id, p, c, cancelled, fault);
            && r.m.stored && r.m.refreshing == m.refreshing
            && (if r.answer.Give? then MayInstall(m, id, p, now, cancelled) && r.m.cred == c && r.m.refreshErr == None
               && r.m.generation == m.generation + 1
                else r.m == m)
  {}

  // Whatever disk state a crash hits, the new process keeps the fence.
  lemma RebornKeeps(w: World, d: Disk, e: Entry)
    requires Safe(d, w) && e in d.recoverable
    requires w.guard.Some? ==> w.guard.value.refreshPending
    ensures Fence(Reborn(w, e))
  {
    var v := Reborn(w, e);
    assert Bears(e, w.Fenced());
    assert v.Fenced() == w.Fenced();
    assert v.disk.Clean();
  }

  lemma CrashKeeps(w: World, inner: Step, k: nat, e: Entry)
    requires Fence(w)
    ensures Fence(CrashStep(w, inner, k, e))
  {
    var (v, trace) := During(w, inner);
    if k < |trace| && e in trace[k].recoverable {
      match inner {
        case DoEnter(now, fault) => EnterSafe(w, now, fault);
        case DoSettle(i, now, reply, cancelled, fault, qfault) =>
          SettleSafe(w, w.flights[i], now, reply, cancelled, fault, qfault);
        case DoInstall(id, now, c, cancelled, fault) => InstallSafe(w, id, now, c, cancelled, fault);
        case _ =>
      }
      RebornKeeps(v, trace[k], e);
    }
  }

  lemma NextKeeps(w: World, step: Step)
    requires Fence(w)
    ensures Fence(Next(w, step))
  {
    match step
    case DoEnter(now, fault) => EnterKeeps(w, now, fault);
    case DoSettle(i, now, reply, cancelled, fault, qfault) => SettleKeeps(w, i, now, reply, cancelled, fault, qfault);
    case DoInstall(id, now, c, cancelled, fault) => InstallKeeps(w, id, now, c, cancelled, fault);
    case Crash(e) => if e in w.disk.recoverable { RebornKeeps(w, w.disk, e); }
    case CrashIn(inner, k, e) => CrashKeeps(w, inner, k, e);
    case _ =>
      AsideSteps(w, step);
      AsideKeeps(w, Next(w, step));
  }

  // The other steps do not touch the credential, or they drop it.
  predicate Aside(w: World, v: World) {
    && v.flights == w.flights && v.spent == w.spent && v.mine == w.mine && v.disk == w.disk && v.guard == w.guard
       && v.landed == w.landed
    && v.m.refreshing == w.m.refreshing && v.m.stored == w.m.stored
    && ((v.m.cred == w.m.cred && v.m.refreshErr == w.m.refreshErr && v.m.generation == w.m.generation)
        || (v.m.cred.token == "" && v.m.generation > w.m.generation))
  }

  lemma AsideSteps(w: World, step: Step)
    requires step.DoLogout? || Bookkeeping(step)
    ensures Aside(w, Next(w, step))
  {
    if Bookkeeping(step) { OnlyLogins(w, step); }
  }

  lemma AsideKeeps(w: World, v: World)
    requires Fence(w) && Aside(w, v)
    ensures Fence(v)
  {}

  // ---------- Every run ----------

  lemma {:induction false} RunKeeps(w: World, steps: seq<Step>)
    requires Starts(w)
    ensures Fence(Run(w, steps))
  {
    if steps == [] {
      StartFence(w);
    } else {
      RunKeeps(w, steps[..|steps| - 1]);
      NextKeeps(Run(w, steps[..|steps| - 1]), steps[|steps| - 1]);
    }
  }

  ghost predicate AllSafe(trace: seq<Disk>, w: World) {
    forall i | 0 <= i < |trace| :: Safe(trace[i], w)
  }

  // The crash-safe fence. In every run, at rest and at every disk state inside any
  // section, whatever a crash may recover is no file or one complete credential; it is
  // marked as fenced if its token was sent and not resolved; and from the sending until
  // success, definitive rejection or login it is the fenced credential itself or a
  // complete credential written since.
  lemma {:induction false} CrashSafeFence(w: World, steps: seq<Step>, step: Step)
    requires Starts(w)
    ensures Safe(Run(w, steps).disk, Run(w, steps))
    ensures AllSafe(During(Run(w, steps), step).1, During(Run(w, steps), step).0)
  {
    RunKeeps(w, steps);
    var v := Run(w, steps);
    match step
    case DoEnter(now, fault) => EnterSafe(v, now, fault);
    case DoSettle(i, now, reply, cancelled, fault, qfault) =>
      if i < |v.flights| { SettleSafe(v, v.flights[i], now, reply, cancelled, fault, qfault); }
    case DoInstall(id, now, c, cancelled, fault) =>
      if id in v.claims { InstallSafe(v, id, now, c, cancelled, fault); }
    case _ =>
  }

  // At most one refresh exchange is under way, and no process ever sends a token that
  // an earlier process sent without learning its fate.
  lemma {:induction false} NeverResentAfterRestart(w: World, steps: seq<Step>, now: Clock, fault: SaveFault)
    requires Starts(w)
    ensures var v := Run(w, steps);
            && |v.flights| <= 1
            && (Enter(v.m, v.disk, now, fault).answer.Send? ==>
                  v.flights == [] && Enter(v.m, v.disk, now, fault).answer.cred.refreshToken !in v.spent)
  {
    RunKeeps(w, steps);
  }

  // ---------- Persist before publish ----------

  // The credential in memory is unchanged, dropped, or what a reader of the file finds.
  predicate Persisted(w: World, v: World) {
    v.m.cred == w.m.cred || v.m.cred.token == "" || Read(v.disk) == Ok(v.m.cred)
  }

  // So is the account of a new process.
  lemma RebornPersists(v: World, e: Entry)
    ensures Reborn(v, e).m.cred.token == "" || Read(Reborn(v, e).disk) == Ok(Reborn(v, e).m.cred)
  {}

  lemma CrashPersists(w: World, inner: Step, k: nat, e: Entry)
    ensures Persisted(w, CrashStep(w, inner, k, e))
  {
    RebornPersists(AtCrash(w, During(w, inner).0, inner, e), e);
  }

  lemma RoundPersists(w: World, step: Step)
    requires Fence(w) && (step.DoEnter? || step.DoSettle?)
    ensures Persisted(w, Next(w, step))
  {
    match step
    case DoEnter(now, fault) => EnterPersists(w.m, w.disk, now, fault);
    case DoSettle(i, now, reply, cancelled, fault, qfault) =>
      if i < |w.flights| {
        SettlePersists(w.m, w.disk, now, w.flights[i].sent, w.flights[i].generation, reply, cancelled, fault, qfault);
      }
  }

  lemma LoginPersists(w: World, id: string, now: Clock, c: Credential, cancelled: bool, fault: SaveFault)
    requires Fence(w)
    ensures Persisted(w, InstallStep(w, id, now, c, cancelled, fault))
  {
    if id in w.claims { InstallPersists(w.m, w.disk, now, id, w.claims[id], c, cancelled, fault); }
  }

  // In every interleaving a credential enters memory only as the file's visible content.
  lemma {:induction false} PersistBeforePublish(w: World, steps: seq<Step>, step: Step)
    requires Starts(w)
    ensures Persisted(Run(w, steps), Next(Run(w, steps), step))
  {
    RunKeeps(w, steps);
    StepPersists(Run(w, steps), step);
  }

  lemma StepPersists(w: World, step: Step)
    requires Fence(w)
    ensures Persisted(w, Next(w, step))
  {
    match step
    case DoEnter(_, _) => RoundPersists(w, step);
    case DoSettle(_, _, _, _, _, _) => RoundPersists(w, step);
    case DoInstall(id, now, c, cancelled, fault) => LoginPersists(w, id, now, c, cancelled, fault);
    case Crash(e) => RebornPersists(w, e);
    case CrashIn(inner, k, e) => CrashPersists(w, inner, k, e);
    case _ => AsideSteps(w, step);
  }

  // ---------- Runs without cancelled exchanges ----------

  predicate Calm(step: Step) {
    step.DoSettle? ==> !step.cancelled
  }

  // The current token is resolved, known to be in doubt, or under way right now.
  ghost predicate Quiet(w: World) {
    && (forall f | f in w.flights :: f.generation <= w.m.generation)
    && (w.m.cred.token != "" && w.m.cred.refreshToken in w.Fenced() ==>
          w.m.refreshErr.Some? || (w.flights != [] && w.flights[0].generation == w.m.generation))
  }

  lemma SettleQuiet(w: World, i: nat, now: Clock, reply: Reply, fault: SaveFault, qfault: QuarantineFault)
    requires Fence(w) && Quiet(w)
    ensures Quiet(SettleStep(w, i, now, reply, false, fault, qfault))
  {
    if i < |w.flights| {
      var f := w.flights[i];
      assert w.flights[..i] + w.flights[i + 1..] == [];
      SettleShape(w.m, w.disk, now, f.sent, f.generation, reply, false, fault, qfault);
    }
  }

  lemma RebornQuiet(w: World, d: Disk, e: Entry)
    requires Safe(d, w) && e in d.recoverable
    ensures Quiet(Reborn(w, e))
  {
    assert Bears(e, w.Fenced());
    assert Reborn(w, e).Fenced() == w.Fenced();
  }

  lemma CrashQuiet(w: World, inner: Step, k: nat, e: Entry)
    requires Fence(w) && Quiet(w)
    ensures Quiet(CrashStep(w, inner, k, e))
  {
    var (v, trace) := During(w, inner);
    if k < |trace| && e in trace[k].recoverable {
      match inner {
        case DoEnter(now, fault) => EnterSafe(w, now, fault);
        case DoSettle(i, now, reply, cancelled, fault, qfault) =>
          SettleSafe(w, w.flights[i], now, reply, cancelled, fault, qfault);
        case DoInstall(id, now, c, cancelled, fault) => InstallSafe(w, id, now, c, cancelled, fault);
        case _ =>
      }
      RebornQuiet(v, trace[k], e);
    }
  }

  lemma EnterQuiet(w: World, now: Clock, fault: SaveFault)
    requires Fence(w) && Quiet(w)
    ensures Quiet(EnterStep(w, now, fault))
  {
    EnterShape(w.m, w.disk, now, fault);
    if Enter(w.m, w.disk, now, fault).answer.Send? { assert w.flights == []; }
  }

  lemma InstallQuiet(w: World, id: string, now: Clock, c: Credential, cancelled: bool, fault: SaveFault)
    requires Fence(w) && Quiet(w)
    ensures Quiet(InstallStep(w, id, now, c, cancelled, fault))
  {
    if id in w.claims {
      var r := InstallSection(w, id, now, c, cancelled, fault);
      InstallShape(w.m, w.disk, id, now, w.claims[id], c, cancelled, fault);
    }
  }

  lemma AsideQuiet(w: World, v: World)
    requires Quiet(w) && Aside(w, v)
    ensures Quiet(v)
  {}

  lemma NextQuiet(w: World, step: Step)
    requires Fence(w) && Quiet(w) && Calm(step)
    ensures Quiet(Next(w, step))
  {
    match step
    case DoEnter(now, fault) => EnterQuiet(w, now, fault);
    case DoSettle(i, now, reply, _, fault, qfault) => SettleQuiet(w, i, now, reply, fault, qfault);
    case DoInstall(id, now, c, cancelled, fault) => InstallQuiet(w, id, now, c, cancelled, fault);
    case Crash(e) => if e in w.disk.recoverable { RebornQuiet(w, w.disk, e); }
    case CrashIn(inner, k, e) => CrashQuiet(w, inner, k, e);
    case _ =>
      AsideSteps(w, step);
      AsideQuiet(w, Next(w, step));
  }

  lemma {:induction false} RunQuiet(w: World, steps: seq<Step>)
    requires Starts(w) && forall i | 0 <= i < |steps| :: Calm(steps[i])
    ensures Quiet(Run(w, steps))
  {
    if steps != [] {
      RunQuiet(w, steps[..|steps| - 1]);
      RunKeeps(w, steps[..|steps| - 1]);
      NextQuiet(Run(w, steps[..|steps| - 1]), steps[|steps| - 1]);
    }
  }

  // No replay: when no caller was cancelled during an exchange, a token whose fate is
  // unknown is never sent again, neither by this process nor by a later one.
  lemma {:induction false} NeverReplayed(w: World, steps: seq<Step>, now: Clock, fault: SaveFault)
    requires Starts(w) && forall i | 0 <= i < |steps| :: Calm(steps[i])
    ensures var v := Run(w, steps);
            Enter(v.m, v.disk, now, fault).answer.Send? ==>
              Enter(v.m, v.disk, now, fault).answer.cred.refreshToken !in v.Fenced()
  {
    RunKeeps(w, steps);
    RunQuiet(w, steps);
  }

  // A round that sends, and how its exchange ends.
  function Sent(w: World, at: Clock): Credential
    requires Enter(w.m, w.disk, at, NoFault).answer.Send?
  {
    Enter(w.m, w.disk, at, NoFault).answer.cred
  }

  function Ended(w: World, sentAt: Clock, endedAt: Clock, reply: Reply, cancelled: bool, fault: SaveFault,
                 qfault: QuarantineFault): World
  {
    SettleStep(EnterStep(w, sentAt, NoFault), 0, endedAt, reply, cancelled, fault, qfault)
  }

  lemma SentState(w: World, at: Clock)
    requires Fence(w) && Enter(w.m, w.disk, at, NoFault).answer.Send?
    ensures var c := Sent(w, at); var v := EnterStep(w, at, NoFault);
            && c == Marked(w.m.cred) && c.Complete()
            && v.m == w.m.(cred := c, refreshing := true) && w.m.refreshErr.None?
            && v.disk == Disk(Saved(c), {Saved(c)}, None) && v.flights == [Flight(c, w.m.generation)]
            && v.mine == w.mine + {c.refreshToken} && !NeedsNoRefresh(w.m, at)
  {
    EnterShape(w.m, w.disk, at, NoFault);
    SentIsOnDisk(w.m, w.disk, at, NoFault);
  }

  // Whatever the exchange of a cancelled caller came to, its token goes out again.
  lemma CancelledReplays(w: World, sentAt: Clock, endedAt: Clock, againAt: Clock, reply: Reply, fault: SaveFault,
                         qfault: QuarantineFault)
    requires Fence(w) && Enter(w.m, w.disk, sentAt, NoFault).answer.Send? && sentAt <= endedAt <= againAt
    ensures var u := Ended(w, sentAt, endedAt, reply, true, fault, qfault);
            && Sent(w, sentAt).refreshToken in u.mine
            && Enter(u.m, u.disk, againAt, NoFault).answer == Send(Sent(w, sentAt), u.m.generation)
  {
    SentState(w, sentAt);
    SaveIsAtomic(EnterStep(w, sentAt, NoFault).disk, Sent(w, sentAt), NoFault);
  }

  // If nobody was cancelled it does not, unless the exchange brought it anew.
  lemma OthersDoNotReplay(w: World, sentAt: Clock, endedAt: Clock, againAt: Clock, reply: Reply, fault: SaveFault,
                          qfault: QuarantineFault)
    requires Fence(w) && Enter(w.m, w.disk, sentAt, NoFault).answer.Send? && sentAt <= endedAt <= againAt
    ensures var u := Ended(w, sentAt, endedAt, reply, false, fault, qfault);
            var again := Enter(u.m, u.disk, againAt, NoFault).answer;
            && (reply.Ambiguous? || reply.Broken? ==> Sent(w, sentAt).refreshToken in u.mine)
            && (again.Send? ==> reply.Fresh? && again.cred.refreshToken == reply.cred.refreshToken)
  {
    SentState(w, sentAt);
    var v := EnterStep(w, sentAt, NoFault);
    SettleShape(v.m, v.disk, endedAt, Sent(w, sentAt), w.m.generation, reply, false, fault, qfault);
    var u := Ended(w, sentAt, endedAt, reply, false, fault, qfault);
    EnterShape(u.m, u.disk, againAt, NoFault);
  }

  // The cancellation is exactly what makes the difference: after any exchange that did
  // not bring the same token anew, the next round sends it again if and only if the
  // caller was cancelled, even if the exchange had succeeded or had been rejected.
  lemma {:induction false} ReplayedExactlyWhenCancelled(w: World, sentAt: Clock, endedAt: Clock, againAt: Clock,
                                                        reply: Reply, cancelled: bool, fault: SaveFault,
                                                        qfault: QuarantineFault)
    requires Fence(w) && Enter(w.m, w.disk, sentAt, NoFault).answer.Send? && sentAt <= endedAt <= againAt
    ensures var token := Sent(w, sentAt).refreshToken;
            var u := Ended(w, sentAt, endedAt, reply, cancelled, fault, qfault);
            var again := Enter(u.m, u.disk, againAt, NoFault).answer;
            && (again.Send? && again.cred.refreshToken == token ==>
                  cancelled || (reply.Fresh? && reply.cred.refreshToken == token))
            && (cancelled ==> again.Send? && again.cred == Sent(w, sentAt))
            && (cancelled || reply.Ambiguous? || reply.Broken? ==> token in u.mine)
  {
    if cancelled {
      CancelledReplays(w, sentAt, endedAt, againAt, reply, fault, qfault);
    } else {
      OthersDoNotReplay(w, sentAt, endedAt, againAt, reply, fault, qfault);
    }
  }
}
