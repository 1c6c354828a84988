// What the API process reads from the credential file while the Auth process works on
// it (credential_store.go, auth.go): it never waits for Auth and never refreshes.
module ApiReader {
  import opened Wrappers
  import opened CredentialStore
  import opened AuthState
  import opened AuthWorld
  import opened RefreshFence

  // No login, or one complete credential that has not expired.
  predicate Served(r: Result<Credential, StoreError>, now: Time) {
    r == Err(NotExist) || (r.Ok? && r.value.Complete() && now < r.value.expiresAt)
  }

  lemma SaneIsServed(d: Disk, now: Time)
    requires Sane(d.visible)
    ensures Served(ReadForAPI(d, now), now)
  {}

  lemma SafeIsServed(d: Disk, w: World, now: Time)
    requires Safe(d, w)
    ensures Served(ReadForAPI(d, now), now)
  {
    SaneIsServed(d, now);
  }

  // In every run a request of the API meets no login or one complete, unexpired
  // credential, never a partial, mixed or rejected file: between the sections of Auth,
  lemma {:induction false} AlwaysServed(w: World, steps: seq<Step>, now: Time)
    requires Starts(w)
    ensures Served(ReadForAPI(Run(w, steps).disk, now), now)
  {
    CrashSafeFence(w, steps, DoListen);
    SafeIsServed(Run(w, steps).disk, Run(w, steps), now);
  }

  lemma AllServed(trace: seq<Disk>, w: World, now: Time)
    requires AllSafe(trace, w)
    ensures forall i | 0 <= i < |trace| :: Served(ReadForAPI(trace[i], now), now)
  {
    forall i | 0 <= i < |trace| ensures Served(ReadForAPI(trace[i], now), now) { SafeIsServed(trace[i], w, now); }
  }

  // and at every disk state inside one.
  lemma {:induction false} ServedInside(w: World, steps: seq<Step>, step: Step, now: Time)
    requires Starts(w)
    ensures var trace := During(Run(w, steps), step).1;
            forall i | 0 <= i < |trace| :: Served(ReadForAPI(trace[i], now), now)
  {
    CrashSafeFence(w, steps, step);
    AllServed(During(Run(w, steps), step).1, During(Run(w, steps), step).0, now);
  }

  // While the fence is raised the API keeps the access token it had: every disk state
  // of that section serves either the file as it was or the same credential, fenced.
  lemma FenceIsInvisible(m: Manager, d: Disk, now: Clock, fault: SaveFault, at: Time)
    requires d.Clean() && m.stored && Read(d) == Ok(m.cred)
    ensures forall i | 0 <= i < |Enter(m, d, now, fault).trace| ::
              var r := ReadForAPI(Enter(m, d, now, fault).trace[i], at);
              if at < m.cred.expiresAt then
                r.Ok? && r.value.(refreshPending := false) == m.cred.(refreshPending := false)
              else r == Err(NotExist)
  {
    SaveIsAtomic(d, Marked(m.cred), fault);
    var trace := Enter(m, d, now, fault).trace;
    forall i | 0 <= i < |trace| ensures trace[i].visible == d.visible || trace[i].visible == Saved(Marked(m.cred)) {
      assert trace == [d] || trace == SaveSteps(d, Marked(m.cred), fault).trace;
    }
  }

  // A definitive rejection ends the API's access exactly when the file could be
  // rewritten or moved away; otherwise the API goes on with what it had.
  lemma RejectionReachesAPI(d: Disk, now: Clock, sent: Credential, fault: SaveFault, qfault: QuarantineFault,
                            later: Clock)
    requires d.Clean() && now <= later
    ensures var final := Invalidate(d, now, sent, fault, qfault);
            ReadForAPI(final[|final| - 1], later) ==
            if (Invalid(sent, now).Complete() && Reaches(fault)) ||
               (Read(d).Ok? && Read(d).value.token == sent.token && (qfault.NoProblem? || qfault.FolderSyncFails?))
            then Err(NotExist) else ReadForAPI(d, later)
  {
    var c := Invalid(sent, now);
    SaveIsAtomic(d, c, fault);
    var saving := SaveSteps(d, c, fault);
    if saving.error.Some? {
      QuarantineIsAtomic(saving.Final(), sent.token, qfault);
    }
  }
}
