// The Auth process's manager as it runs (auth.go, auth_service.go): each method is one
// section under the lock and is proved to do exactly what AuthState says of it, on
// memory and on every disk state it goes through.
module AuthManager {
  import opened Wrappers
  import opened CredentialStore
  import opened AuthState

  // The store's history grew by the states of a section that may not have touched it.
  ghost predicate Recorded(before: seq<Disk>, after: seq<Disk>, trace: seq<Disk>) {
    after == before + trace || (after == before && |trace| == 1)
  }

  class AuthManager {
    var cred: Credential
    var generation: nat
    var refreshing: bool
    var refreshErr: Option<AuthError>
    var durabilityUncertain: bool
    var pending: map<string, Attempt>
    var latestLogin: string
    var results: map<string, LoginResult>
    var refreshedAt: Option<Time>
    var listening: bool
    const store: CredentialStore?

    ghost function View(): Manager
      reads this
    {
      Manager(cred, generation, refreshing, refreshErr, durabilityUncertain, pending, latestLogin, results,
              refreshedAt, store != null, listening)
    }

    // The file as it stands; without a store there is none.
    ghost function Shelf(): Disk
      reads this, store
    {
      if store == null then Disk(None, {None}, None) else store.disk
    }

    // This section left the state and the file as r says, and took the file through r.trace.
    twostate predicate Did(r: Section)
      reads this, store
    {
      && r.trace != []
      && View() == r.m
      && Shelf() == r.trace[|r.trace| - 1]
      && (store != null ==> Recorded(old(store.history), store.history, r.trace))
    }

    // A new process takes up the credential in the file, unless it cannot trust it.
    constructor Recovering(store: CredentialStore)
      requires Read(store.disk).Ok? || Read(store.disk).error.NotExist?
      ensures this.store == store && View() == Recover(store.disk)
    {
      this.store := store;
      cred := NOBODY;
      generation, refreshing, refreshErr, durabilityUncertain := 0, false, None, false;
      pending, latestLogin, results, refreshedAt, listening := map[], "", map[], None, false;
      new;
      var saved := store.Load();
      if saved.Ok? {
        cred := saved.value;
        if saved.value.refreshPending { refreshErr := Some(AmbiguousExchange); }
      }
    }

    // get, from the top of its loop to the exchange.
    method PrepareRefresh(now: Clock, fault: SaveFault) returns (answer: Answer)
      modifies this, store
      ensures var r := Enter(old(View()), old(Shelf()), now, fault); answer == r.answer && Did(r)
    {
      if cred.token == "" { return Refuse; }
      if refreshErr.Some? {
        if refreshErr.value.AmbiguousExchange? && cred.expiresAt != 0 && now < cred.expiresAt {
          return Give(cred, generation);
        }
        return Refuse;
      }
      var left := cred.expiresAt - now;
      if cred.expiresAt == 0 || left > 2 * MINUTE
        || (left > 0 && refreshedAt.Some? && now - refreshedAt.value < MINUTE) {
        return Give(cred, generation);
      }
      if refreshing { return Wait; }
      answer := RaiseFence(now, fault);
    }

    // The fence goes to disk before the token goes out.
    method RaiseFence(now: Clock, fault: SaveFault) returns (answer: Answer)
      modifies this, store
      ensures var r := Fenced(old(View()), old(Shelf()), now, fault); answer == r.answer && Did(r)
    {
      var sent := cred;
      if store != null {
        sent := sent.(refreshPending := true);
        ghost var saving := SaveSteps(store.disk, sent, fault);
        var error := store.Save(sent, fault);
        assert error == saving.error && store.disk == saving.Final();
        if error.Some? {
          refreshedAt := Some(now);
          if cred.expiresAt != 0 && now < cred.expiresAt { return Give(cred, generation); }
          return PrepareFailed;
        }
        cred := cred.(refreshPending := true);
      }
      refreshing := true;
      return Send(sent, generation);
    }

    // Only a complete read-back makes up for a save that reported an error.
    method ReconcilePublished(c: Credential, saveError: Option<StoreError>, readable: bool)
      returns (published: bool, e: bool)
      requires store != null
      ensures published ==
              (saveError.None? || (readable && Read(store.disk).Ok? && SameCredential(Read(store.disk).value, c)))
      ensures e == saveError.Some?
    {
      if saveError.None? { return true, false; }
      if !readable { return false, true; }
      var back := store.Load();
      if back.Err? { return false, true; }
      return SameCredential(back.value, c), true;
    }

    // get, from the end of the exchange to the end of the round.
    method FinishRefresh(now: Clock, sent: Credential, g: nat, reply: Reply, cancelled: bool, fault: SaveFault,
                         qfault: QuarantineFault)
      returns (answer: Answer)
      modifies this, store
      ensures var r := Settle(old(View()), old(Shelf()), now, sent, g, reply, cancelled, fault, qfault);
              answer == r.answer && Did(r)
    {
      refreshing := false;
      if generation != g { return Retry; }
      if cancelled { return Unavailable; }
      answer := Resolve(now, sent, g, reply, fault, qfault);
    }

    // What the exchange came to for an account that is still the same.
    method Resolve(now: Clock, sent: Credential, g: nat, reply: Reply, fault: SaveFault, qfault: QuarantineFault)
      returns (answer: Answer)
      modifies this, store
      ensures var r := Resolved(old(View()), old(Shelf()), now, sent, g, reply, fault, qfault);
              answer == r.answer && Did(r)
    {
      var usable := sent.expiresAt != 0 && now < sent.expiresAt;
      if reply.Fresh? {
        answer := TakeFresh(now, reply.cred.(refreshPending := false), sent, g, fault);
      } else if reply.Rejected? {
        Reject(now, sent, fault, qfault);
        answer := Refuse;
      } else if reply.Ambiguous? || store != null {
        refreshErr := Some(AmbiguousExchange);
        answer := if usable then Give(sent, g) else Unavailable;
      } else {
        if usable { refreshedAt := Some(now); }
        answer := if usable then Give(sent, g) else Unavailable;
      }
    }

    // A fresh credential is saved first and published only if the file holds it.
    method TakeFresh(now: Clock, renewed: Credential, sent: Credential, g: nat, fault: SaveFault)
      returns (answer: Answer)
      modifies this, store
      ensures var r := Renew(old(View()), old(Shelf()), now, sent, g, renewed, fault); answer == r.answer && Did(r)
    {
      var published, e := true, false;
      if store != null {
        var saveError := store.Save(renewed, fault);
        published, e := ReconcilePublished(renewed, saveError, fault.Readable());
      }
      if published {
        cred := renewed;
        refreshedAt := Some(now);
        refreshErr := None;
        durabilityUncertain := e;
        answer := if e then GiveUncertain(renewed, g) else Retry;
      } else {
        refreshErr := Some(AmbiguousExchange);
        answer := if sent.expiresAt != 0 && now < sent.expiresAt then Give(sent, g) else Unavailable;
      }
    }

    // A definitive rejection invalidates the file, or moves it out of the way.
    method Reject(now: Clock, sent: Credential, fault: SaveFault, qfault: QuarantineFault)
      modifies this, store
      ensures Did(Section(old(View()).(refreshErr := Some(LoginRequired)),
                          if store == null then [old(Shelf())]
                            else Invalidate(old(Shelf()), now, sent, fault, qfault), Refuse))
    {
      if store != null { PutAside(store, now, sent, fault, qfault); }
      refreshErr := Some(LoginRequired);
    }

    method PutAside(store: CredentialStore, now: Clock, sent: Credential, fault: SaveFault, qfault: QuarantineFault)
      modifies store
      ensures var trace := Invalidate(old(store.disk), now, sent, fault, qfault);
              store.disk == trace[|trace| - 1] && store.history == old(store.history) + trace
    {
      ghost var before := store.history;
      ghost var saving := SaveSteps(store.disk, Invalid(sent, now), fault);
      var error := store.Save(sent.(expiresAt := now - SECOND, refreshPending := false), fault);
      if error.Some? {
        ghost var moving := QuarantineSteps(store.disk, sent.token, qfault);
        var ignored := store.QuarantineRejected(sent.token, qfault);
        assert before + saving.trace + moving.trace == before + (saving.trace + moving.trace);
      }
    }

    method LogOut()
      modifies this
      ensures View() == Logout(old(View()))
    {
      cred := NOBODY;
      generation := generation + 1;
      refreshErr := None;
      pending := map[];
      latestLogin := "";
    }

    // ---------- Login attempts ----------

    // In whatever order the table is walked, expired results go and pending ones yield.
    method SupersedeResults(now: Clock)
      modifies this`results
      ensures results == Supersede(old(results), now)
    {
      ghost var was := results;
      var todo := results.Keys;
      while todo != {}
        invariant todo <= was.Keys
        invariant forall id :: id in results <==> id in was && (id in todo || now <= was[id].expires)
        invariant forall id | id in results :: results[id] == if id in todo then was[id] else Supersede(was, now)[id]
        decreases |todo|
      {
        var id :| id in todo;
        todo := todo - {id};
        if now > results[id].expires {
          results := results - {id};
        } else if results[id].status.Pending? {
          results := results[id := results[id].(status := Superseded)];
        }
      }
    }

    // In whatever order the table is walked, a result that expires first is found.
    method OldestResult() returns (oldest: string)
      requires "" !in results && results != map[]
      ensures Oldest(results, oldest)
    {
      oldest := "";
      var expiry := 0;
      var todo := results.Keys;
      while todo != {}
        invariant todo <= results.Keys
        invariant oldest == "" <==> todo == results.Keys
        invariant oldest != "" ==> oldest in results && results[oldest].expires == expiry
        invariant forall id | id in results && id !in todo :: expiry <= results[id].expires
        decreases |todo|
      {
        var id :| id in todo;
        todo := todo - {id};
        if oldest == "" || results[id].expires < expiry {
          oldest, expiry := id, results[id].expires;
        }
      }
    }

    method MakeRoom() returns (ghost victim: string)
      requires "" !in results
      modifies this`results
      ensures results == Evict(old(results), victim)
      ensures |old(results)| >= MAX_RESULTS ==> Oldest(old(results), victim)
    {
      victim := "";
      if |results| >= MAX_RESULTS {
        var oldest := OldestResult();
        victim := oldest;
        results := results - {oldest};
      }
    }

    // The new attempt replaces every older one; a full table drops an oldest result.
    method BeginLogin(now: Clock, id: string, device: string, machine: string, key: Key, drawn: bool)
      returns (begun: bool)
      requires "" !in results
      modifies this
      ensures begun == (old(listening) && drawn)
      ensures var m := old(View());
              exists victim :: (m.listening && |Supersede(m.results, now)| >= MAX_RESULTS ==>
                Oldest(Supersede(m.results, now), victim))
                               && View() == Begin(m, now, id, device, machine, key, drawn, victim)
    {
      ghost var m := View();
      ghost var victim := "";
      if !listening {
        assert View() == Begin(m, now, id, device, machine, key, drawn, victim);
        return false;
      }
      SupersedeResults(now);
      victim := MakeRoom();
      pending := map[];
      if !drawn {
        assert View() == Begin(m, now, id, device, machine, key, drawn, victim);
        return false;
      }
      var p := Attempt(now + ATTEMPT_TTL, device, machine, key, generation);
      pending := pending[id := p];
      latestLogin := id;
      results := results[id := LoginResult(Pending, p.expires)];
      assert View() == Begin(m, now, id, device, machine, key, drawn, victim);
      return true;
    }

    // The callback's first half: only one caller gets the attempt.
    method ClaimAttempt(id: string, now: Clock) returns (p: Option<Attempt>)
      modifies this`pending
      ensures View() == Claim(old(View()), id, now)
      ensures p == if Claimable(old(View()), id, now) then Some(old(pending)[id]) else None
    {
      if id !in pending || id !in results { return None; }
      if !results[id].status.Pending? || now >= results[id].expires { return None; }
      p := Some(pending[id]);
      pending := pending - {id};
    }

    // The callback's second half.
    method InstallLogin(now: Clock, id: string, p: Attempt, c: Credential, cancelled: bool, fault: SaveFault)
      returns (answer: Answer)
      modifies this, store
      ensures var r := Install(old(View()), old(Shelf()), now, id, p, c, cancelled, fault); answer == r.answer && Did(r)
    {
      if cancelled || p.generation != generation || latestLogin != id || id !in results { return Refuse; }
      if !results[id].status.Pending? || now >= results[id].expires { return Refuse; }
      var uncertain := false;
      if store != null {
        var saveError := store.Save(c, fault);
        var published, e := ReconcilePublished(c, saveError, fault.Readable());
        if !published { return Unavailable; }
        uncertain := e;
      }
      Accept(id, c, uncertain);
      return Give(c, generation);
    }

    method Accept(id: string, c: Credential, uncertain: bool)
      requires id in results
      modifies this
      ensures View() == Adopt(old(View()), id, c, uncertain)
    {
      cred := c;
      generation := generation + 1;
      refreshErr := None;
      durabilityUncertain := uncertain;
      results := results[id := results[id].(status := if uncertain then DurabilityUncertain else Completed)];
    }

    method FinishAttempt(id: string)
      modifies this`results
      ensures View() == FinishLogin(old(View()), id)
    {
      if id in results && results[id].status.Pending? {
        results := results[id := results[id].(status := Failed)];
      }
    }

    method RetireAttempt(id: string, status: Status)
      requires id in results
      modifies this
      ensures View() == Retire(old(View()), id, status)
    {
      results := results[id := results[id].(status := status)];
      pending := pending - {id};
      if latestLogin == id { latestLogin := ""; }
    }

    method ReportStatus(id: string, now: Clock) returns (status: Option<Status>)
      modifies this
      ensures View() == LoginStatus(old(View()), id, now)
      ensures status == if id in results then Some(results[id].status) else None
    {
      if id !in results { return None; }
      if results[id].status.Pending? && now >= results[id].expires { RetireAttempt(id, Expired); }
      return Some(results[id].status);
    }

    method CancelAttempt(id: string) returns (status: Option<Status>)
      modifies this
      ensures View() == CancelLogin(old(View()), id)
      ensures status == if id in results then Some(results[id].status) else None
    {
      if id !in results { return None; }
      if results[id].status.Pending? { RetireAttempt(id, Cancelled); }
      return Some(results[id].status);
    }
  }
}
