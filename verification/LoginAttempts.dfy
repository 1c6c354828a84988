// Login attempts over all interleavings of begin, both halves of the callback, its
// deferred end, cancel, status, logout and restarts (auth.go, auth_service.go).
module LoginAttempts {
  import opened Wrappers
  import opened CredentialStore
  import opened AuthState
  import opened AuthWorld

  // ---------- What the sections of get leave alone ----------

  // At most the account's own fields differ.
  predicate SameLogins(m: Manager, n: Manager) {
    n == m.(cred := n.cred, refreshing := n.refreshing, refreshErr := n.refreshErr, uncertain := n.uncertain,
            refreshedAt := n.refreshedAt)
  }

  lemma AfterFenceFrame(m: Manager, saving: Saving, now: Clock)
    requires saving.WellFormed()
    ensures SameLogins(m, AfterFence(m, saving, now).m)
  {}

  lemma EnterFrame(m: Manager, d: Disk, now: Clock, fault: SaveFault)
    ensures SameLogins(m, Enter(m, d, now, fault).m)
  {
    AfterFenceFrame(m, SaveSteps(d, Marked(m.cred), fault), now);
  }

  lemma AfterSaveFrame(m: Manager, saving: Saving, published: bool, now: Clock, sent: Credential, g: nat, c: Credential)
    requires saving.WellFormed()
    ensures SameLogins(m, AfterSave(m, saving, published, now, sent, g, c).m)
  {}

  lemma ResolvedFrame(m: Manager, d: Disk, now: Clock, sent: Credential, g: nat, reply: Reply, fault: SaveFault,
                      qfault: QuarantineFault)
    ensures SameLogins(m, Resolved(m, d, now, sent, g, reply, fault, qfault).m)
  {
    match reply
    case Fresh(got) =>
      var c := got.(refreshPending := false);
      var saving := SaveSteps(d, c, fault);
      AfterSaveFrame(m, saving, Published(saving, fault.Readable(), c), now, sent, g, c);
    case Rejected =>
    case Ambiguous =>
    case Broken =>
  }

  lemma SettleFrame(m: Manager, d: Disk, now: Clock, sent: Credential, g: nat, reply: Reply, cancelled: bool,
                    fault: SaveFault, qfault: QuarantineFault)
    ensures SameLogins(m, Settle(m, d, now, sent, g, reply, cancelled, fault, qfault).m)
  {
    ResolvedFrame(m.(refreshing := false), d, now, sent, g, reply, fault, qfault);
  }

  // A login is announced exactly when it changed the account state.
  lemma InstallFrame(m: Manager, d: Disk, now: Clock, id: string, p: Attempt, c: Credential, cancelled: bool,
                     fault: SaveFault)
    ensures var r := Install(m, d, now, id, p, c, cancelled, fault);
            if r.answer.Give? then
              MayInstall(m, id, p, now, cancelled) && (r.m == Adopt(m, id, c, true) || r.m == Adopt(m, id, c, false))
            else r.m == m
  {}

  // ---------- A status that is settled stays settled ----------

  // Whatever v still knows of a settled attempt is what m knew.
  ghost predicate Stays(m: Manager, v: Manager, id: string) {
    id in m.results && !m.results[id].status.Pending? && id in v.results ==> v.results[id] == m.results[id]
  }

  lemma BeginStays(w: World, now: Clock, attempt: string, device: string, machine: string, key: Key, drawn: bool,
                   victim: string, id: string)
    requires id in w.issued
    ensures Stays(w.m, BeginStep(w, now, attempt, device, machine, key, drawn, victim).m, id)
  {}

  lemma InstallStays(w: World, login: string, now: Clock, c: Credential, cancelled: bool, fault: SaveFault, id: string)
    ensures Stays(w.m, InstallStep(w, login, now, c, cancelled, fault).m, id)
  {
    if login in w.claims { InstallFrame(w.m, w.disk, now, login, w.claims[login], c, cancelled, fault); }
  }

  lemma StepStays(w: World, step: Step, id: string)
    requires id in w.issued
    ensures Stays(w.m, Next(w, step).m, id)
  {
    match step
    case DoEnter(now, fault) => EnterFrame(w.m, w.disk, now, fault);
    case DoSettle(i, now, reply, cancelled, fault, qfault) =>
      if i < |w.flights| {
        SettleFrame(w.m, w.disk, now, w.flights[i].sent, w.flights[i].generation, reply, cancelled, fault, qfault);
      }
    case DoBegin(now, newID, device, machine, key, drawn, victim) =>
      BeginStays(w, now, newID, device, machine, key, drawn, victim, id);
    case DoInstall(login, now, c, cancelled, fault) => InstallStays(w, login, now, c, cancelled, fault, id);
    case DoClaim(_, _, _) =>
    case DoFinish(_) =>
    case DoStatus(_, _) =>
    case DoCancel(_) =>
    case _ =>
  }

  // What a table no longer lists does not come back.
  lemma BooksForget(w: World, step: Step, id: string)
    requires Bookkeeping(step) && id in w.issued && id !in w.m.results
    ensures id !in Next(w, step).m.results
  {
    match step
    case DoBegin(_, _, _, _, _, _, _) =>
    case DoClaim(_, _, _) =>
    case DoFinish(_) =>
    case DoStatus(_, _) =>
    case DoCancel(_) =>
    case DoListen =>
  }

  lemma StepForgets(w: World, step: Step, id: string)
    requires id in w.issued && id !in w.m.results
    ensures id !in Next(w, step).m.results
  {
    match step
    case DoEnter(now, fault) => EnterFrame(w.m, w.disk, now, fault);
    case DoSettle(i, now, reply, cancelled, fault, qfault) =>
      if i < |w.flights| {
        SettleFrame(w.m, w.disk, now, w.flights[i].sent, w.flights[i].generation, reply, cancelled, fault, qfault);
      }
    case DoInstall(login, now, c, cancelled, fault) =>
      if login in w.claims { InstallFrame(w.m, w.disk, now, login, w.claims[login], c, cancelled, fault); }
    case DoLogout =>
    case Crash(_) =>
    case CrashIn(_, _, _) =>
    case _ => BooksForget(w, step, id);
  }

  lemma StepIssues(w: World, step: Step)
    ensures w.issued <= Next(w, step).issued
  {
    match step
    case DoEnter(_, _) =>
    case DoSettle(_, _, _, _, _, _) =>
    case CrashIn(inner, _, _) =>
      match inner {
        case DoSettle(_, _, _, _, _, _) =>
        case DoInstall(_, _, _, _, _) =>
        case _ =>
      }
    case _ =>
  }

  lemma {:induction false} SettledForGood(w: World, steps: seq<Step>, id: string)
    requires id in w.issued && (id !in w.m.results || !w.m.results[id].status.Pending?)
    ensures var v := Run(w, steps);
            id in v.issued && (id in v.m.results ==> id in w.m.results && v.m.results[id] == w.m.results[id])
  {
    if steps != [] {
      var init, step := steps[..|steps| - 1], steps[|steps| - 1];
      SettledForGood(w, init, id);
      var v := Run(w, init);
      StepIssues(v, step);
      if id in v.m.results { StepStays(v, step, id); } else { StepForgets(v, step, id); }
    }
  }

  // ---------- The log ----------

  // An event that ends every hope of this attempt.
  predicate Ends(e: Event, id: string) {
    match e
    case Began(_) => true
    case CancelledBy(other) => other == id
    case TimedOut(other) => other == id
    case Installed(_) => true
    case Stranded(_) => true
    case LoggedOut => true
    case Restarted => true
  }

  // The attempt began and nothing has ended it since.
  predicate Live(log: seq<Event>, id: string) {
    log != [] && (log[|log| - 1] == Began(id) || (!Ends(log[|log| - 1], id) && Live(log[..|log| - 1], id)))
  }

  // The attempt begun last.
  function Newest(log: seq<Event>): string {
    if log == [] then "" else if log[|log| - 1].Began? then log[|log| - 1].id else Newest(log[..|log| - 1])
  }

  lemma Appended(log: seq<Event>, e: Event, id: string)
    ensures Live(log + [e], id) <==> e == Began(id) || (!Ends(e, id) && Live(log, id))
    ensures Newest(log + [e]) == if e.Began? then e.id else Newest(log)
  {
    assert (log + [e])[..|log|] == log;
  }

  ghost predicate BeginsOnce(log: seq<Event>, issued: set<string>) {
    && (forall i | 0 <= i < |log| && log[i].Began? :: log[i].id in issued)
    && (forall i, j | 0 <= i < j < |log| && log[i].Began? && log[j].Began? :: log[i].id != log[j].id)
  }

  ghost predicate InstallsLive(log: seq<Event>) {
    forall i | 0 <= i < |log| && log[i].TakesEffect() :: Live(log[..i], log[i].id)
  }

  ghost predicate GoodLog(log: seq<Event>, issued: set<string>) {
    BeginsOnce(log, issued) && InstallsLive(log)
  }

  lemma LogGrows(log: seq<Event>, e: Event, issued: set<string>)
    requires GoodLog(log, issued)
    requires e.Began? ==> e.id !in issued
    requires e.TakesEffect() ==> Live(log, e.id)
    ensures GoodLog(log + [e], if e.Began? then issued + {e.id} else issued)
  {
    forall i | 0 <= i < |log + [e]| && (log + [e])[i].TakesEffect() ensures Live((log + [e])[..i], (log + [e])[i].id) {
      assert (log + [e])[..i] == log[..i];
    }
    assert log[..|log|] == log;
  }

  // What a reported status means.
  predicate Says(log: seq<Event>, id: string, status: Status) {
    match status
    case Completed => Installed(id) in log
    case DurabilityUncertain => Installed(id) in log
    case Cancelled => CancelledBy(id) in log
    case Expired => TimedOut(id) in log
    case Pending => id == Newest(log)
    case _ => true
  }

  // ---------- The invariant ----------

  ghost predicate Known(w: World) {
    && w.m.results.Keys <= w.issued && w.m.pending.Keys <= w.issued && w.claims.Keys <= w.issued
    && w.m.pending.Keys !! w.claims.Keys
    && (w.m.latestLogin == "" || w.m.latestLogin in w.issued) && "" !in w.issued
  }

  ghost predicate Truthful(w: World) {
    forall id | id in w.m.results :: Says(w.log, id, w.m.results[id].status)
  }

  // A hopeful attempt: nothing has ended it.
  predicate Hope(w: World, id: string, p: Attempt) {
    p.generation <= w.m.generation && (w.m.latestLogin == id && p.generation == w.m.generation ==> Live(w.log, id))
  }

  ghost predicate Hopes(w: World) {
    && (forall id | id in w.m.pending :: Hope(w, id, w.m.pending[id]))
    && (forall id | id in w.claims :: Hope(w, id, w.claims[id]))
  }

  ghost predicate Orderly(w: World) {
    Known(w) && Truthful(w) && Hopes(w) && GoodLog(w.log, w.issued)
  }

  // ---------- The steps ----------

  // A step that only drops attempts and leaves logins otherwise alone.
  lemma DropKeeps(w: World, v: World)
    requires Orderly(w) && v.issued == w.issued && v.log == w.log
    requires v.m.results == w.m.results && v.m.latestLogin == w.m.latestLogin && v.m.generation == w.m.generation
    requires forall id | id in v.m.pending :: id in w.m.pending && v.m.pending[id] == w.m.pending[id]
    requires forall id | id in v.claims ::
              (id in w.claims && v.claims[id] == w.claims[id])
              || (id in w.m.pending && v.claims[id] == w.m.pending[id])
    requires v.m.pending.Keys !! v.claims.Keys
    ensures Orderly(v)
  {
    forall id | id in v.m.pending ensures Hope(v, id, v.m.pending[id]) { assert Hope(w, id, w.m.pending[id]); }
    forall id | id in v.claims ensures Hope(v, id, v.claims[id]) {
      if id in w.claims && v.claims[id] == w.claims[id] {
        assert Hope(w, id, w.claims[id]);
      } else {
        assert Hope(w, id, w.m.pending[id]);
      }
    }
  }

  // A status that is no longer pending and that the log explains.
  lemma MarkKeeps(w: World, id: string, status: Status)
    requires Known(w) && Truthful(w) && id in w.m.results && Says(w.log, id, status)
    ensures var v := w.(m := w.m.(results := w.m.results[id := w.m.results[id].(status := status)]));
            Known(v) && Truthful(v)
  {}

  lemma SupersedeSays(w: World, now: Clock, victim: string)
    requires Truthful(w)
    ensures var r := Evict(Supersede(w.m.results, now), victim);
            forall id | id in r :: id in w.m.results && !r[id].status.Pending? && Says(w.log, id, r[id].status)
  {
    var r := Evict(Supersede(w.m.results, now), victim);
    forall id | id in r ensures id in w.m.results && !r[id].status.Pending? && Says(w.log, id, r[id].status) {
      assert Says(w.log, id, w.m.results[id].status);
    }
  }

  lemma StatusSurvives(log: seq<Event>, e: Event, id: string, status: Status)
    requires Says(log, id, status) && (e.Began? ==> !status.Pending?)
    ensures Says(log + [e], id, status)
  {
    Appended(log, e, id);
  }

  lemma BeginTruthful(w: World, now: Clock, id: string, device: string, machine: string, key: Key, drawn: bool,
                      victim: string)
    requires Truthful(w)
    ensures Truthful(BeginStep(w, now, id, device, machine, key, drawn, victim))
  {
    SupersedeSays(w, now, victim);
    var r := Evict(Supersede(w.m.results, now), victim);
    var v := BeginStep(w, now, id, device, machine, key, drawn, victim);
    if v.log != w.log {
      Appended(w.log, Began(id), id);
      forall k | k in v.m.results ensures Says(v.log, k, v.m.results[k].status) {
        if k != id { StatusSurvives(w.log, Began(id), k, r[k].status); }
      }
    }
  }

  lemma BeginKeeps(w: World, now: Clock, id: string, device: string, machine: string, key: Key, drawn: bool,
                   victim: string)
    requires Orderly(w)
    ensures Orderly(BeginStep(w, now, id, device, machine, key, drawn, victim))
  {
    SupersedeSays(w, now, victim);
    BeginTruthful(w, now, id, device, machine, key, drawn, victim);
    var v := BeginStep(w, now, id, device, machine, key, drawn, victim);
    if v.log != w.log {
      LogGrows(w.log, Began(id), w.issued);
      Appended(w.log, Began(id), id);
    } else {
      forall k | k in v.claims ensures Hope(v, k, v.claims[k]) { assert Hope(w, k, w.claims[k]); }
    }
  }

  // An event that says something about one attempt, which it retires.
  lemma RetireKeeps(w: World, id: string, status: Status, e: Event)
    requires Orderly(w) && id in w.m.results
    requires (status == Expired && e == TimedOut(id)) || (status == Cancelled && e == CancelledBy(id))
    ensures Orderly(w.(m := Retire(w.m, id, status), log := w.log + [e]))
  {
    var v := w.(m := Retire(w.m, id, status), log := w.log + [e]);
    LogGrows(w.log, e, w.issued);
    forall k | k in v.m.results ensures Says(v.log, k, v.m.results[k].status) {
      if k != id { StatusSurvives(w.log, e, k, w.m.results[k].status); }
    }
    forall k | k in v.m.pending ensures Hope(v, k, v.m.pending[k]) {
      assert Hope(w, k, w.m.pending[k]);
      Appended(w.log, e, k);
    }
    forall k | k in v.claims ensures Hope(v, k, v.claims[k]) {
      assert Hope(w, k, w.claims[k]);
      Appended(w.log, e, k);
    }
  }

  lemma InstalledKeeps(w: World, id: string, c: Credential, uncertain: bool, v: World)
    requires Orderly(w) && id in w.claims && id in w.m.results
    requires w.m.latestLogin == id && w.claims[id].generation == w.m.generation
    requires v.m == Adopt(w.m, id, c, uncertain) && v.log == w.log + [Installed(id)]
    requires v.issued == w.issued && v.claims == w.claims - {id}
    ensures Orderly(v)
  {
    assert Hope(w, id, w.claims[id]);
    LogGrows(w.log, Installed(id), w.issued);
    forall k | k in v.m.results ensures Says(v.log, k, v.m.results[k].status) {
      if k != id { StatusSurvives(w.log, Installed(id), k, w.m.results[k].status); }
    }
    forall k | k in v.m.pending ensures Hope(v, k, v.m.pending[k]) { assert Hope(w, k, w.m.pending[k]); }
    forall k | k in v.claims ensures Hope(v, k, v.claims[k]) { assert Hope(w, k, w.claims[k]); }
  }

  // A credential that is in the file only: nothing else may happen to its attempt.
  lemma StrandedKeeps(w: World, id: string, v: World)
    requires Orderly(w) && id in w.claims && w.m.latestLogin == id && w.claims[id].generation == w.m.generation
    requires v.m == w.m && v.log == w.log + [Stranded(id)] && v.issued == w.issued && v.claims == w.claims - {id}
    ensures Orderly(v)
  {
    assert Hope(w, id, w.claims[id]);
    LogGrows(w.log, Stranded(id), w.issued);
    forall k | k in v.m.results ensures Says(v.log, k, v.m.results[k].status) {
      StatusSurvives(w.log, Stranded(id), k, w.m.results[k].status);
    }
    forall k | k in v.m.pending ensures Hope(v, k, v.m.pending[k]) { assert Hope(w, k, w.m.pending[k]); }
    forall k | k in v.claims ensures Hope(v, k, v.claims[k]) { assert Hope(w, k, w.claims[k]); }
  }

  // What a login section may do to the log and to the attempts.
  lemma InstallShape(w: World, id: string, now: Clock, c: Credential, cancelled: bool, fault: SaveFault)
    requires id in w.claims
    ensures var v := InstallStep(w, id, now, c, cancelled, fault);
            && v.claims == w.claims - {id} && v.issued == w.issued
            && ((v.log == w.log && v.m == w.m)
                || (MayInstall(w.m, id, w.claims[id], now, cancelled)
                    && ((v.log == w.log + [Stranded(id)] && v.m == w.m)
                        || (v.log == w.log + [Installed(id)]
                           && (v.m == Adopt(w.m, id, c, true) || v.m == Adopt(w.m, id, c, false))))))
  {
    InstallFrame(w.m, w.disk, now, id, w.claims[id], c, cancelled, fault);
  }

  lemma InstallKeeps(w: World, id: string, now: Clock, c: Credential, cancelled: bool, fault: SaveFault)
    requires Orderly(w)
    ensures Orderly(InstallStep(w, id, now, c, cancelled, fault))
  {
    if id in w.claims {
      InstallShape(w, id, now, c, cancelled, fault);
      var v := InstallStep(w, id, now, c, cancelled, fault);
      if v.log == w.log {
        DropKeeps(w, v);
      } else if v.m == w.m {
        StrandedKeeps(w, id, v);
      } else {
        InstalledKeeps(w, id, c, v.m == Adopt(w.m, id, c, true), v);
      }
    }
  }

  lemma LogoutKeeps(w: World)
    requires Orderly(w)
    ensures Orderly(w.(m := Logout(w.m), log := w.log + [LoggedOut]))
  {
    var v := w.(m := Logout(w.m), log := w.log + [LoggedOut]);
    LogGrows(w.log, LoggedOut, w.issued);
    forall k | k in v.m.results ensures Says(v.log, k, v.m.results[k].status) {
      StatusSurvives(w.log, LoggedOut, k, w.m.results[k].status);
    }
    forall k | k in v.claims ensures Hope(v, k, v.claims[k]) { assert Hope(w, k, w.claims[k]); }
  }

  lemma FinishKeeps(w: World, id: string)
    requires Orderly(w)
    ensures Orderly(FinishStep(w, id))
  {
    var v := w.(claims := w.claims - {id}, finishing := w.finishing - {id});
    DropKeeps(w, v);
    if id in w.m.results && w.m.results[id].status.Pending? {
      MarkKeeps(v, id, Failed);
      var u := v.(m := FinishLogin(v.m, id));
      forall k | k in u.m.pending ensures Hope(u, k, u.m.pending[k]) { assert Hope(v, k, v.m.pending[k]); }
      forall k | k in u.claims ensures Hope(u, k, u.claims[k]) { assert Hope(v, k, v.claims[k]); }
    }
  }

  lemma RebornOrderly(w: World, e: Entry)
    requires GoodLog(w.log, w.issued) && "" !in w.issued
    ensures Orderly(Reborn(w, e))
  {
    LogGrows(w.log, Restarted, w.issued);
  }

  // A crash inside a login may leave its credential in the file for the next process.
  lemma StrandedByCrash(w: World, id: string, v: World, e: Entry)
    requires Orderly(w) && id in w.claims && w.m.latestLogin == id && w.claims[id].generation == w.m.generation
    requires v.log == w.log + [Stranded(id)] && v.issued == w.issued
    ensures Orderly(Reborn(v, e))
  {
    assert Hope(w, id, w.claims[id]);
    LogGrows(w.log, Stranded(id), w.issued);
    RebornOrderly(v, e);
  }

  lemma RestartKeeps(w: World, inner: Step, k: nat, e: Entry)
    requires Orderly(w)
    ensures Orderly(CrashStep(w, inner, k, e))
  {
    var (v, trace) := During(w, inner);
    if k < |trace| && e in trace[k].recoverable {
      DuringLog(w, inner);
      AtCrashOrderly(w, v, inner, e);
    }
  }

  lemma AtCrashOrderly(w: World, v: World, inner: Step, e: Entry)
    requires Orderly(w) && v.log == w.log && v.issued == w.issued
    ensures Orderly(Reborn(AtCrash(w, v, inner, e), e))
  {
    var u := AtCrash(w, v, inner, e);
    if u.log == v.log { RebornOrderly(u, e); } else { StrandedByCrash(w, inner.id, u, e); }
  }

  lemma DuringLog(w: World, step: Step)
    ensures During(w, step).0.log == w.log && During(w, step).0.issued == w.issued
  {
    match step
    case DoSettle(_, _, _, _, _, _) =>
    case DoInstall(_, _, _, _, _) =>
    case _ =>
  }

  lemma EnterOrderly(w: World, now: Clock, fault: SaveFault)
    requires Orderly(w)
    ensures Orderly(EnterStep(w, now, fault))
  {
    EnterFrame(w.m, w.disk, now, fault);
    DropKeeps(w, EnterStep(w, now, fault));
  }

  lemma SettleOrderly(w: World, i: nat, now: Clock, reply: Reply, cancelled: bool, fault: SaveFault,
                      qfault: QuarantineFault)
    requires Orderly(w)
    ensures Orderly(SettleStep(w, i, now, reply, cancelled, fault, qfault))
  {
    if i < |w.flights| {
      SettleFrame(w.m, w.disk, now, w.flights[i].sent, w.flights[i].generation, reply, cancelled, fault, qfault);
      DropKeeps(w, SettleStep(w, i, now, reply, cancelled, fault, qfault));
    }
  }

  lemma ListenKeeps(w: World)
    requires Orderly(w)
    ensures Orderly(w.(m := w.m.(listening := true)))
  {
    DropKeeps(w, w.(m := w.m.(listening := true)));
  }

  lemma ClaimKeeps(w: World, id: string, now: Clock, late: bool)
    requires Orderly(w)
    ensures Orderly(ClaimStep(w, id, now, late))
  {
    DropKeeps(w, ClaimStep(w, id, now, late));
  }

  lemma StatusKeeps(w: World, id: string, now: Clock)
    requires Orderly(w)
    ensures Orderly(StatusStep(w, id, now))
  {
    if LoginStatus(w.m, id, now) != w.m { RetireKeeps(w, id, Expired, TimedOut(id)); }
  }

  lemma CancelKeeps(w: World, id: string)
    requires Orderly(w)
    ensures Orderly(CancelStep(w, id))
  {
    if CancelLogin(w.m, id) != w.m { RetireKeeps(w, id, Cancelled, CancelledBy(id)); }
  }

  lemma NextOrderly(w: World, step: Step)
    requires Orderly(w)
    ensures Orderly(Next(w, step))
  {
    match step
    case DoEnter(now, fault) => EnterOrderly(w, now, fault);
    case DoSettle(i, now, reply, cancelled, fault, qfault) => SettleOrderly(w, i, now, reply, cancelled, fault, qfault);
    case DoLogout => LogoutKeeps(w);
    case DoListen => ListenKeeps(w);
    case DoBegin(now, id, device, machine, key, drawn, victim) =>
      BeginKeeps(w, now, id, device, machine, key, drawn, victim);
    case DoClaim(id, now, late) => ClaimKeeps(w, id, now, late);
    case DoInstall(id, now, c, cancelled, fault) => InstallKeeps(w, id, now, c, cancelled, fault);
    case DoFinish(id) => FinishKeeps(w, id);
    case DoStatus(id, now) => StatusKeeps(w, id, now);
    case DoCancel(id) => CancelKeeps(w, id);
    case Crash(e) => if e in w.disk.recoverable { RebornOrderly(w, e); }
    case CrashIn(inner, k, e) => RestartKeeps(w, inner, k, e);
  }

  lemma {:induction false} RunOrderly(w: World, steps: seq<Step>)
    requires Starts(w)
    ensures Orderly(Run(w, steps))
  {
    if steps != [] {
      RunOrderly(w, steps[..|steps| - 1]);
      NextOrderly(Run(w, steps[..|steps| - 1]), steps[|steps| - 1]);
    }
  }

  // ---------- Every run ----------

  // At most one attempt is pending, and every reported status is true: a completed
  // attempt installed, a cancelled one was cancelled, an expired one was seen to expire.
  lemma {:induction false} OneAttemptPending(w: World, steps: seq<Step>)
    requires Starts(w)
    ensures var v := Run(w, steps);
            && (forall a, b | a in v.m.results && b in v.m.results ::
                  v.m.results[a].status.Pending? && v.m.results[b].status.Pending? ==> a == b)
            && (forall id | id in v.m.results :: Says(v.log, id, v.m.results[id].status))
  {
    RunOrderly(w, steps);
  }

  // A settled attempt is never reported differently afterwards.
  lemma SettledStatusStays(w: World, before: seq<Step>, after: seq<Step>, id: string)
    requires Starts(w)
    requires id in Run(w, before).m.results && !Run(w, before).m.results[id].status.Pending?
    ensures id in Run(w, before + after).m.results ==>
              Run(w, before + after).m.results[id] == Run(w, before).m.results[id]
  {
    RunOrderly(w, before);
    SettledForGood(Run(w, before), after, id);
    RunAppend(w, before, after);
  }

  // Being live means exactly: begun, and nothing has ended it since.
  lemma {:induction false} LiveMeans(log: seq<Event>, id: string)
    ensures Live(log, id) <==>
            exists j :: 0 <= j < |log| && log[j] == Began(id) && forall k | j < k < |log| :: !Ends(log[k], id)
  {
    if log != [] {
      var init := log[..|log| - 1];
      LiveMeans(init, id);
      if Live(init, id) && !Ends(log[|log| - 1], id) {
        var j :| 0 <= j < |init| && init[j] == Began(id) && forall k | j < k < |init| :: !Ends(init[k], id);
        forall k | j < k < |log| ensures !Ends(log[k], id) { if k < |init| { assert log[k] == init[k]; } }
        assert log[j] == Began(id);
      }
      if j :| 0 <= j < |log| && log[j] == Began(id) && forall k | j < k < |log| :: !Ends(log[k], id) {
        if j < |init| {
          assert init[j] == Began(id);
          forall k | j < k < |init| ensures !Ends(init[k], id) { assert init[k] == log[k]; }
        }
      }
    }
  }

  ghost predicate WonBy(log: seq<Event>, i: nat, id: string) {
    exists j :: 0 <= j < i <= |log| && log[j] == Began(id) && forall k | j < k < i :: !Ends(log[k], id)
  }

  // A login takes effect, in memory or only in the file, only if its attempt was begun
  // and since then there was no newer attempt, no cancellation or reported expiry of it,
  // no other login, no logout and no restart; and it takes effect at most once.
  lemma {:induction false} LoginsAreLinear(w: World, steps: seq<Step>)
    requires Starts(w)
    ensures var log := Run(w, steps).log;
            && (forall i | 0 <= i < |log| && log[i].TakesEffect() :: WonBy(log, i, log[i].id))
            && (forall i, j | 0 <= i < j < |log| && log[i].TakesEffect() && log[j].TakesEffect() ::
                  log[i].id != log[j].id)
  {
    RunOrderly(w, steps);
    var log := Run(w, steps).log;
    forall i | 0 <= i < |log| && log[i].TakesEffect() ensures WonBy(log, i, log[i].id) {
      var id := log[i].id;
      LiveMeans(log[..i], id);
      var j :| 0 <= j < i && log[..i][j] == Began(id) && forall k | j < k < i :: !Ends(log[..i][k], id);
      forall k | j < k < i ensures !Ends(log[k], id) { assert log[k] == log[..i][k]; }
      assert log[j] == Began(id);
    }
    forall i, j | 0 <= i < j < |log| && log[i].TakesEffect() && log[j].TakesEffect() ensures log[i].id != log[j].id {
      EffectiveOnce(log, i, j);
    }
  }

  lemma EffectiveOnce(log: seq<Event>, i: nat, j: nat)
    requires i < j < |log| && log[i].TakesEffect() && log[j].TakesEffect()
    requires WonBy(log, i, log[i].id) && WonBy(log, j, log[j].id)
    requires forall a, b | 0 <= a < b < |log| && log[a].Began? && log[b].Began? :: log[a].id != log[b].id
    ensures log[i].id != log[j].id
  {
    var a :| 0 <= a < i && log[a] == Began(log[i].id) && forall k | a < k < i :: !Ends(log[k], log[i].id);
    var b :| 0 <= b < j && log[b] == Began(log[j].id) && forall k | b < k < j :: !Ends(log[k], log[j].id);
    assert Ends(log[i], log[j].id) && log[b] != log[i];
    assert i < b;
  }

  // No login takes effect silently: if a login section changes the account in memory or
  // the file as readers see it, the log says so.
  lemma {:induction false} EffectsAreLogged(w: World, id: string, now: Clock, c: Credential, cancelled: bool,
                                            fault: SaveFault)
    requires w.disk.Clean() && w.m.stored
    ensures var v := InstallStep(w, id, now, c, cancelled, fault);
            v.m.cred != w.m.cred || v.disk.visible != w.disk.visible ==>
              v.log == w.log + [Installed(id)] || v.log == w.log + [Stranded(id)]
  {
    if id in w.claims {
      InstallShape(w, id, now, c, cancelled, fault);
      InstallOnDisk(w.m, w.disk, now, id, w.claims[id], c, cancelled, fault);
    }
  }

  // A login section's disk states: what was there, or the login's credential.
  lemma InstallOnDisk(m: Manager, d: Disk, now: Clock, id: string, p: Attempt, c: Credential, cancelled: bool,
                      fault: SaveFault)
    requires d.Clean() && m.stored
    ensures var trace := Install(m, d, now, id, p, c, cancelled, fault).trace;
            && (Last(trace).visible == d.visible || Last(trace).visible == Saved(c))
            && (forall k, e | 0 <= k < |trace| && e in trace[k].recoverable :: e in d.recoverable || e == Saved(c))
            && (!MayInstall(m, id, p, now, cancelled) ==> trace == [d])
  {
    SaveIsAtomic(d, c, fault);
    var r := SaveSteps(d, c, fault);
    forall k, e | 0 <= k < |r.trace| && e in r.trace[k].recoverable ensures e in d.recoverable || e == Saved(c) {
      assert r.trace[k].recoverable <= d.recoverable + (if c.Complete() then {Saved(c)} else {});
    }
  }

  // Nor by a crash: if the next process finds what was nowhere on the disk before.
  lemma {:induction false} CrashEffectsAreLogged(w: World, id: string, now: Clock, c: Credential, cancelled: bool,
                                                 fault: SaveFault,
                                                 k: nat, e: Entry)
    requires w.disk.Clean() && w.m.stored
    ensures var v := CrashStep(w, DoInstall(id, now, c, cancelled, fault), k, e);
            v.disk.visible !in w.disk.recoverable ==> v.log == w.log + [Stranded(id)] + [Restarted]
  {
    if id in w.claims {
      InstallOnDisk(w.m, w.disk, now, id, w.claims[id], c, cancelled, fault);
    }
  }

  // ---------- A login that is refused and yet takes effect ----------

  // What a permitted login section comes to: it gives the credential if the file was
  // replaced and can be read back, and the file holds the credential if it was replaced.
  lemma InstallOutcome(m: Manager, d: Disk, now: Clock, id: string, p: Attempt, c: Credential, fault: SaveFault)
    requires d.Clean() && m.stored && MayInstall(m, id, p, now, false)
    ensures var r := Install(m, d, now, id, p, c, false, fault);
            && (Last(r.trace).visible == Saved(c) <==> c.Complete() && (Reaches(fault) || d.visible == Saved(c)))
            && (if Last(r.trace).visible == Saved(c) && fault.Readable() then r.answer.Give?
                else r.answer == Unavailable && r.m == m)
  {
    SaveIsAtomic(d, c, fault);
    var saving := SaveSteps(d, c, fault);
    if Read(saving.Final()).Ok? { SameIsEqual(Read(saving.Final()).value, c); }
    assert Sane(d.visible);
    assert Sane(saving.Final().visible);
  }

  // Exactly when a login is refused to its caller although its credential is in the file:
  // the save replaced the file, or the file held it already, and cannot be read back.
  // Nothing changes in memory then, and the next process takes the credential up.
  lemma {:induction false} StrandedExactly(w: World, id: string, now: Clock, c: Credential, cancelled: bool,
                                           fault: SaveFault)
    requires w.disk.Clean() && w.m.stored && id in w.claims
    ensures var v := InstallStep(w, id, now, c, cancelled, fault);
            v.log == w.log + [Stranded(id)] <==>
            && MayInstall(w.m, id, w.claims[id], now, cancelled) && c.Complete()
            && (Reaches(fault) || w.disk.visible == Saved(c)) && !fault.Readable()
    ensures var v := InstallStep(w, id, now, c, cancelled, fault);
            v.log == w.log + [Stranded(id)] ==>
            && InstallSection(w, id, now, c, cancelled, fault).answer == Unavailable
            && v.m == w.m && Recover(v.disk).cred == c
  {
    if MayInstall(w.m, id, w.claims[id], now, cancelled) {
      InstallOutcome(w.m, w.disk, now, id, w.claims[id], c, fault);
      assert Installed(id) != Stranded(id);
      assert (w.log + [Installed(id)])[|w.log|] == Installed(id);
      assert (w.log + [Stranded(id)])[|w.log|] == Stranded(id);
    }
  }
}
