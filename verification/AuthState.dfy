// The Auth process's account state (auth.go, auth_service.go): each function is one
// critical section under the manager's lock. A network exchange lies between Enter
// and Settle, and between Claim and Install. Each section reads the clock once.
module AuthState {
  import opened Wrappers
  import opened CredentialStore

  const SECOND := 1_000_000_000
  const MINUTE := 60 * SECOND
  const ATTEMPT_TTL := 10 * MINUTE
  const MAX_RESULTS := 128

  // A clock reading.
  type Clock = t: nat | t > SECOND witness SECOND + 1

  datatype AuthError = LoginRequired | AmbiguousExchange

  datatype Attempt = Attempt(expires: Time, device: string, machine: string, key: Key, generation: nat)

  datatype Status = Pending | Superseded | Expired | Cancelled | Failed | Completed | DurabilityUncertain

  datatype LoginResult = LoginResult(status: Status, expires: Time)

  datatype Manager = Manager(
    cred: Credential,
    generation: nat,
    refreshing: bool,
    refreshErr: Option<AuthError>,
    uncertain: bool,                    // durabilityUncertain
    pending: map<string, Attempt>,
    latestLogin: string,
    results: map<string, LoginResult>,
    refreshedAt: Option<Time>,
    stored: bool,                       // there is a credential store
    listening: bool)                    // the callback listener is up

  const NOBODY := Credential("", "", "", "", 0, 0, false, "", "", None)

  // newAuthService: what a new process makes of the file.
  function Recover(d: Disk): Manager {
    var m := Manager(NOBODY, 0, false, None, false, map[], "", map[], None, true, false);
    match Read(d)
    case Ok(c) => m.(cred := c, refreshErr := if c.refreshPending then Some(AmbiguousExchange) else None)
    case Err(_) => m
  }

  // ---------- get ----------

  datatype Answer =
    | Give(cred: Credential, generation: nat)
    | Refuse                                  // login is required
    | Wait                                    // another caller is refreshing
    | Send(cred: Credential, generation: nat)  // the refresh token goes out now
    | PrepareFailed                           // the fence could not be written
    | Retry                                   // start over
    | GiveUncertain(cred: Credential, generation: nat)
    | Unavailable                             // an error, or the caller has gone

  // State, every disk state in turn, and what the caller does next.
  datatype Section = Section(m: Manager, trace: seq<Disk>, answer: Answer)

  predicate Unexpired(c: Credential, now: Clock) {
    c.expiresAt != 0 && now < c.expiresAt
  }

  predicate NeedsNoRefresh(m: Manager, now: Clock) {
    var left := m.cred.expiresAt - now;
    || m.cred.expiresAt == 0
    || left > 2 * MINUTE
    || (left > 0 && m.refreshedAt.Some? && now - m.refreshedAt.value < MINUTE)
  }

  // From the top of the loop to the exchange.
  function Enter(m: Manager, d: Disk, now: Clock, fault: SaveFault): (r: Section)
    ensures r.trace != []
  {
    if m.cred.token == "" then Section(m, [d], Refuse)
    else if m.refreshErr.Some? then
      var usable := m.refreshErr.value.AmbiguousExchange? && Unexpired(m.cred, now);
      Section(m, [d], if usable then Give(m.cred, m.generation) else Refuse)
    else if NeedsNoRefresh(m, now) then Section(m, [d], Give(m.cred, m.generation))
    else if m.refreshing then Section(m, [d], Wait)
    else Fenced(m, d, now, fault)
  }

  function Marked(c: Credential): Credential { c.(refreshPending := true) }

  // The fence goes to disk before the token goes out.
  function Fenced(m: Manager, d: Disk, now: Clock, fault: SaveFault): (r: Section)
    ensures r.trace != []
  {
    if !m.stored then Section(m.(refreshing := true), [d], Send(m.cred, m.generation))
    else AfterFence(m, SaveSteps(d, Marked(m.cred), fault), now)
  }

  function AfterFence(m: Manager, saving: Saving, now: Clock): (r: Section)
    requires saving.WellFormed()
    ensures r.trace != []
  {
    if saving.error.Some? then
      Section(m.(refreshedAt := Some(now)), saving.trace,
              if Unexpired(m.cred, now) then Give(m.cred, m.generation) else PrepareFailed)
    else Section(m.(cred := Marked(m.cred), refreshing := true), saving.trace, Send(Marked(m.cred), m.generation))
  }

  // What the exchange came to: a new credential, a definitive rejection, a response
  // without an access token, or any other failure.
  datatype Reply = Fresh(cred: Credential) | Rejected | Ambiguous | Broken

  predicate SameCredential(a: Credential, b: Credential) {
    && a.token == b.token && a.refreshToken == b.refreshToken && a.userID == b.userID && a.clientID == b.clientID
    && a.expiresAt == b.expiresAt && a.refreshExpiresAt == b.refreshExpiresAt && a.refreshPending == b.refreshPending
    && a.deviceID == b.deviceID && a.machineID == b.machineID
    && a.key.Some? && b.key.Some? && a.key == b.key
  }

  // reconcilePublished: after a failed save only an exact read-back counts.
  predicate Published(saving: Saving, readable: bool, c: Credential)
    requires saving.WellFormed()
  {
    saving.error.None? || (readable && Read(saving.Final()).Ok? && SameCredential(Read(saving.Final()).value, c))
  }

  // The access token a caller falls back to, if it is still good.
  function Fallback(sent: Credential, g: nat, now: Clock): Answer {
    if Unexpired(sent, now) then Give(sent, g) else Unavailable
  }

  // A fresh credential is saved, and published if a reader of the file finds it.
  function Renew(idle: Manager, d: Disk, now: Clock, sent: Credential, g: nat, c: Credential,
                 fault: SaveFault): (r: Section)
    ensures r.trace != []
  {
    if !idle.stored then Section(Renewed(idle, c, now, false), [d], Retry)
    else
      var saving := SaveSteps(d, c, fault);
      AfterSave(idle, saving, Published(saving, fault.Readable(), c), now, sent, g, c)
  }

  function Renewed(idle: Manager, c: Credential, now: Clock, uncertain: bool): Manager {
    idle.(cred := c, refreshedAt := Some(now), refreshErr := None, uncertain := uncertain)
  }

  function AfterSave(idle: Manager, saving: Saving, published: bool, now: Clock, sent: Credential, g: nat,
                     c: Credential): (r: Section)
    requires saving.WellFormed()
    ensures r.trace != []
  {
    if saving.error.None? then Section(Renewed(idle, c, now, false), saving.trace, Retry)
    else if published then Section(Renewed(idle, c, now, true), saving.trace, GiveUncertain(c, g))
    else Section(idle.(refreshErr := Some(AmbiguousExchange)), saving.trace, Fallback(sent, g, now))
  }

  // From the end of the exchange to the end of the round.
  function Settle(m: Manager, d: Disk, now: Clock, sent: Credential, g: nat, reply: Reply, cancelled: bool,
                  fault: SaveFault, qfault: QuarantineFault): (r: Section)
    ensures r.trace != []
  {
    var idle := m.(refreshing := false);
    if m.generation != g then Section(idle, [d], Retry)
    else if cancelled then Section(idle, [d], Unavailable)
    else Resolved(idle, d, now, sent, g, reply, fault, qfault)
  }

  function Resolved(idle: Manager, d: Disk, now: Clock, sent: Credential, g: nat, reply: Reply,
                    fault: SaveFault, qfault: QuarantineFault): (r: Section)
    ensures r.trace != []
  {
    match reply
    case Fresh(got) => Renew(idle, d, now, sent, g, got.(refreshPending := false), fault)
    case Rejected =>
      var trace := if idle.stored then Invalidate(d, now, sent, fault, qfault) else [d];
      Section(idle.(refreshErr := Some(LoginRequired)), trace, Refuse)
    case Ambiguous => Section(idle.(refreshErr := Some(AmbiguousExchange)), [d], Fallback(sent, g, now))
    case Broken =>
      if idle.stored then Section(idle.(refreshErr := Some(AmbiguousExchange)), [d], Fallback(sent, g, now))
      else if Unexpired(sent, now) then Section(idle.(refreshedAt := Some(now)), [d], Fallback(sent, g, now))
      else Section(idle, [d], Unavailable)
  }

  // The rejected credential as it is put on disk: expired and no longer fenced.
  function Invalid(c: Credential, now: Clock): Credential {
    c.(expiresAt := now - SECOND, refreshPending := false)
  }

  // A definitive rejection reaches the disk: expired if possible, else moved away.
  function Invalidate(d: Disk, now: Clock, sent: Credential, fault: SaveFault,
                      qfault: QuarantineFault): (trace: seq<Disk>)
    ensures trace != []
  {
    var saving := SaveSteps(d, Invalid(sent, now), fault);
    if saving.error.None? then saving.trace
    else saving.trace + QuarantineSteps(saving.Final(), sent.token, qfault).trace
  }

  function Logout(m: Manager): Manager {
    m.(cred := NOBODY, generation := m.generation + 1, refreshErr := None, pending := map[], latestLogin := "")
  }

  // ---------- Login attempts ----------

  // Expired results are dropped and a pending one is superseded.
  function Supersede(results: map<string, LoginResult>, now: Clock): map<string, LoginResult> {
    map id | id in results && now <= results[id].expires ::
      if results[id].status.Pending? then results[id].(status := Superseded) else results[id]
  }

  predicate Oldest(results: map<string, LoginResult>, id: string) {
    id in results && forall k | k in results :: results[id].expires <= results[k].expires
  }

  function Evict(results: map<string, LoginResult>, victim: string): map<string, LoginResult> {
    if |results| >= MAX_RESULTS then results - {victim} else results
  }

  // A new attempt: its ID and identity are drawn at random; drawing may fail. The
  // victim is the result dropped when the table is full.
  function Begin(m: Manager, now: Clock, id: string, device: string, machine: string, key: Key, drawn: bool,
                 victim: string): Manager {
    if !m.listening then m else
    var results := Evict(Supersede(m.results, now), victim);
    if !drawn then m.(results := results, pending := map[]) else
    var p := Attempt(now + ATTEMPT_TTL, device, machine, key, m.generation);
    m.(results := results[id := LoginResult(Pending, p.expires)], pending := map[id := p], latestLogin := id)
  }

  predicate StillPending(m: Manager, id: string, now: Clock) {
    id in m.results && m.results[id].status.Pending? && now < m.results[id].expires
  }

  // The first half of the callback takes the attempt away, once.
  predicate Claimable(m: Manager, id: string, now: Clock) {
    id in m.pending && StillPending(m, id, now)
  }

  function Claim(m: Manager, id: string, now: Clock): Manager {
    if Claimable(m, id, now) then m.(pending := m.pending - {id}) else m
  }

  predicate MayInstall(m: Manager, id: string, p: Attempt, now: Clock, cancelled: bool) {
    !cancelled && p.generation == m.generation && m.latestLogin == id && StillPending(m, id, now)
  }

  // The second half persists the credential and only then makes it current.
  function Install(m: Manager, d: Disk, now: Clock, id: string, p: Attempt, c: Credential, cancelled: bool,
                   fault: SaveFault): (r: Section)
    ensures r.trace != []
  {
    if !MayInstall(m, id, p, now, cancelled) then Section(m, [d], Refuse)
    else if !m.stored then Section(Adopt(m, id, c, false), [d], Give(c, m.generation + 1))
    else
      var saving := SaveSteps(d, c, fault);
      if !Published(saving, fault.Readable(), c) then Section(m, saving.trace, Unavailable)
      else Section(Adopt(m, id, c, saving.error.Some?), saving.trace, Give(c, m.generation + 1))
  }

  function Adopt(m: Manager, id: string, c: Credential, uncertain: bool): Manager
    requires id in m.results
  {
    m.(cred := c, generation := m.generation + 1, refreshErr := None, uncertain := uncertain,
       results := m.results[id := m.results[id].(status := if uncertain then DurabilityUncertain else Completed)])
  }

  // The callback's deferred end: an attempt that is still pending has failed.
  function FinishLogin(m: Manager, id: string): Manager {
    if id in m.results && m.results[id].status.Pending? then
      m.(results := m.results[id := m.results[id].(status := Failed)])
    else m
  }

  function Retire(m: Manager, id: string, status: Status): Manager
    requires id in m.results
  {
    m.(results := m.results[id := m.results[id].(status := status)],
       pending := m.pending - {id},
       latestLogin := if m.latestLogin == id then "" else m.latestLogin)
  }

  // Asking for the status notices that time has run out.
  function LoginStatus(m: Manager, id: string, now: Clock): Manager {
    if id in m.results && m.results[id].status.Pending? && now >= m.results[id].expires then
      Retire(m, id, Expired)
    else m
  }

  function CancelLogin(m: Manager, id: string): Manager {
    if id in m.results && m.results[id].status.Pending? then Retire(m, id, Cancelled) else m
  }

  // ---------- Persist before publish, and nothing stale ----------

  lemma SameIsEqual(a: Credential, b: Credential)
    ensures SameCredential(a, b) <==> a == b && a.key.Some?
  {}

  lemma PublishedIsVisible(d: Disk, c: Credential, fault: SaveFault)
    requires d.Clean() && Published(SaveSteps(d, c, fault), fault.Readable(), c)
    ensures Read(SaveSteps(d, c, fault).Final()) == Ok(c)
  {
    SaveIsAtomic(d, c, fault);
    if SaveSteps(d, c, fault).error.Some? {
      SameIsEqual(Read(SaveSteps(d, c, fault).Final()).value, c);
    }
  }

  // A credential enters the memory of a process with a store only when a reader of
  // the file finds exactly that credential: before an exchange, after it, at a login.
  lemma EnterPersists(m: Manager, d: Disk, now: Clock, fault: SaveFault)
    requires d.Clean() && m.stored
    ensures var r := Enter(m, d, now, fault); r.m.cred != m.cred ==> Read(r.trace[|r.trace| - 1]) == Ok(r.m.cred)
  {
    SaveIsAtomic(d, m.cred.(refreshPending := true), fault);
  }

  lemma AfterSavePersists(m: Manager, saving: Saving, published: bool, now: Clock, sent: Credential, g: nat,
                          c: Credential)
    requires saving.WellFormed() && (published ==> Read(saving.Final()) == Ok(c)) && (saving.error.None? ==> published)
    ensures var r := AfterSave(m, saving, published, now, sent, g, c);
            r.m.cred != m.cred ==> Read(r.trace[|r.trace| - 1]) == Ok(r.m.cred)
  {}

  lemma RenewPersists(m: Manager, d: Disk, now: Clock, sent: Credential, g: nat, c: Credential, fault: SaveFault)
    requires d.Clean() && m.stored
    ensures var r := Renew(m, d, now, sent, g, c, fault);
            r.m.cred != m.cred ==> Read(r.trace[|r.trace| - 1]) == Ok(r.m.cred)
  {
    var saving := SaveSteps(d, c, fault);
    var published := Published(saving, fault.Readable(), c);
    if published { PublishedIsVisible(d, c, fault); }
    AfterSavePersists(m, saving, published, now, sent, g, c);
  }

  lemma FailureKeepsCredential(m: Manager, d: Disk, now: Clock, sent: Credential, g: nat, reply: Reply,
                               fault: SaveFault, qfault: QuarantineFault)
    requires !reply.Fresh?
    ensures Resolved(m, d, now, sent, g, reply, fault, qfault).m.cred == m.cred
  {}

  lemma SettlePersists(m: Manager, d: Disk, now: Clock, sent: Credential, g: nat, reply: Reply, cancelled: bool,
                       fault: SaveFault, qfault: QuarantineFault)
    requires d.Clean() && m.stored
    ensures var r := Settle(m, d, now, sent, g, reply, cancelled, fault, qfault);
            r.m.cred != m.cred ==> Read(r.trace[|r.trace| - 1]) == Ok(r.m.cred)
  {
    var idle := m.(refreshing := false);
    if reply.Fresh? {
      RenewPersists(idle, d, now, sent, g, reply.cred.(refreshPending := false), fault);
    } else {
      FailureKeepsCredential(idle, d, now, sent, g, reply, fault, qfault);
    }
  }

  lemma InstallPersists(m: Manager, d: Disk, now: Clock, id: string, p: Attempt, c: Credential, cancelled: bool,
                        fault: SaveFault)
    requires d.Clean() && m.stored
    ensures var r := Install(m, d, now, id, p, c, cancelled, fault);
            r.m.cred != m.cred ==> Read(r.trace[|r.trace| - 1]) == Ok(r.m.cred)
  {
    if Published(SaveSteps(d, c, fault), fault.Readable(), c) { PublishedIsVisible(d, c, fault); }
  }

  // When a refresh is due the token goes out exactly if the fence reached the disk. If it
  // did not, a caller whose access token is still good is not told (docs/KNOWN_ISSUES.md).
  lemma FenceFailureIsMasked(m: Manager, d: Disk, now: Clock, fault: SaveFault)
    requires d.Clean() && m.stored
    requires m.cred.token != "" && m.refreshErr.None? && !NeedsNoRefresh(m, now) && !m.refreshing
    ensures var r := Enter(m, d, now, fault);
            && (r.answer.Send? <==> Marked(m.cred).Complete() && fault.NoFault?)
            && (r.answer.Send? ==> Read(r.trace[|r.trace| - 1]) == Ok(r.answer.cred))
            && (!r.answer.Send? ==>
                 (r.answer == Give(m.cred, m.generation) <==> Unexpired(m.cred, now)) && r.m.cred == m.cred)
  {
    SaveIsAtomic(d, Marked(m.cred), fault);
  }
}
