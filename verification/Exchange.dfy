// The exchange of a refresh token (auth.go): how often the token goes out, what each
// answer is taken for, and what a rejection then leaves behind.
module Exchange {
  import opened Wrappers
  import opened Json
  import opened Text
  import opened CredentialStore
  import opened AuthState

  // The runtime, the reading of a point in time, and the claims of an access token.
  datatype Wire = Wire(rt: Runtime, expiry: Option<Json> -> Time, claims: string -> Fields)

  // What becomes of one request: it is never sent, its connection fails after it may
  // have been sent, or it is answered.
  datatype Round = Unsent | Unreachable | Answered(status: int, body: Option<Fields>)

  predicate Refused(r: Round) { r.Answered? && (r.status == 401 || r.status == 403) }

  predicate WentOut(r: Round) { !r.Unsent? }

  // ---------- One answer ----------

  function Inner(root: Fields): Fields {
    if "Result" in root && root["Result"].Obj? then root["Result"].fields
    else if "result" in root && root["result"].Obj? then root["result"].fields
    else root
  }

  function NewToken(w: Wire, data: Fields): string {
    FirstString(w.rt, data, ["Token", "token", "AccessToken", "accessToken"])
  }

  function Orelse(s: string, fallback: string): string { if s != "" then s else fallback }

  function FirstTime(a: Time, b: Time): Time { if a != 0 then a else b }

  function Account(w: Wire, data: Fields): Fields {
    var info := ObjectValue(w.rt, Get(data, "UserInfo"));
    if info.Some? && info.value != map[] then info.value else
      match ObjectValue(w.rt, Get(data, "userInfo")) case Some(m) => m case None => map[]
  }

  function UserIn(w: Wire, source: Fields): string {
    FirstString(w.rt, source, ["UserID", "userId"])
  }

  predicate Chinese(region: string) {
    |region| == 2 && Lower(region[0]) == 'c' && Lower(region[1]) == 'n'
  }

  predicate Elsewhere(w: Wire, data: Fields) {
    var region := FirstString(w.rt, Account(w, data), ["Region", "region"]);
    region != "" && !Chinese(region)
  }

  // The answer names an account other than the expected one, or two different ones.
  predicate Conflict(w: Wire, data: Fields, userID: string) {
    var a, b := UserIn(w, Account(w, data)), UserIn(w, data);
    (a != "" && userID != "" && a != userID) || (b != "" && Orelse(a, userID) != "" && b != Orelse(a, userID))
  }

  function RefreshIn(w: Wire, data: Fields): string { FirstString(w.rt, data, ["RefreshToken", "refreshToken"]) }

  function ClientIn(w: Wire, data: Fields): string { FirstString(w.rt, data, ["ClientID", "clientId"]) }

  function Expiry(w: Wire, data: Fields, token: string): Time {
    FirstTime(FirstTime(w.expiry(Get(data, "TokenExpireAt")), w.expiry(Get(data, "tokenExpireAt"))),
      w.expiry(Get(w.claims(token), "exp")))
  }

  function RefreshExpiry(w: Wire, data: Fields): Time {
    FirstTime(w.expiry(Get(data, "RefreshExpireAt")), w.expiry(Get(data, "refreshExpireAt")))
  }

  function Renewed(w: Wire, data: Fields, c: Credential): Credential {
    var token := NewToken(w, data);
    c.(token := token,
       refreshToken := Orelse(RefreshIn(w, data), c.refreshToken),
       clientID := Orelse(ClientIn(w, data), c.clientID),
       expiresAt := Expiry(w, data, token),
       refreshExpiresAt := FirstTime(RefreshExpiry(w, data), c.refreshExpiresAt),
       userID := Orelse(UserIn(w, data), Orelse(UserIn(w, Account(w, data)), c.userID)))
  }

  method DecodeExchange(w: Wire, status: int, body: Option<Fields>, c: Credential) returns (reply: Reply)
    ensures reply.Rejected? <==>
              status == 401 || status == 403 ||
              (status == 200 && body.Some? && NewToken(w, Inner(body.value)) != "" &&
               !Elsewhere(w, Inner(body.value)) && Conflict(w, Inner(body.value), c.userID))
    ensures reply.Ambiguous? <==> status == 200 && body.Some? && NewToken(w, Inner(body.value)) == ""
    ensures reply.Fresh? <==>
              status == 200 && body.Some? && NewToken(w, Inner(body.value)) != "" &&
              !Elsewhere(w, Inner(body.value)) && !Conflict(w, Inner(body.value), c.userID)
    ensures reply.Fresh? ==> reply.cred == Renewed(w, Inner(body.value), c)
  {
    if status == 401 || status == 403 { return Rejected; }
    if status != 200 || body.None? { return Broken; }
    var data := Inner(body.value);
    var token := NewToken(w, data);
    if token == "" { return Ambiguous; }
    var f := TakeFields(w, data, token, c);
    if Elsewhere(w, data) { return Broken; }
    var sources := [Account(w, data), data];
    ghost var first := UserIn(w, sources[0]);
    for i := 0 to |sources|
      invariant f == Renewed(w, data, c).(userID := f.userID)
      invariant i == 0 ==> f.userID == c.userID
      invariant i == 1 ==> f.userID == Orelse(first, c.userID) && (first == "" || c.userID == "" || first == c.userID)
      invariant i == 2 ==> f == Renewed(w, data, c) && !Conflict(w, data, c.userID)
    {
      var v := UserIn(w, sources[i]);
      if v != "" {
        if f.userID != "" && f.userID != v { return Rejected; }
        f := f.(userID := v);
      }
    }
    return Fresh(f);
  }

  method TakeFields(w: Wire, data: Fields, token: string, c: Credential) returns (f: Credential)
    requires token == NewToken(w, data)
    ensures f == Renewed(w, data, c).(userID := c.userID)
  {
    f := c.(token := token);
    var refresh := RefreshIn(w, data);
    if refresh != "" { f := f.(refreshToken := refresh); }
    var client := ClientIn(w, data);
    if client != "" { f := f.(clientID := client); }
    f := f.(expiresAt := w.expiry(Get(data, "TokenExpireAt")));
    if f.expiresAt == 0 { f := f.(expiresAt := w.expiry(Get(data, "tokenExpireAt"))); }
    if f.expiresAt == 0 { f := f.(expiresAt := w.expiry(Get(w.claims(token), "exp"))); }
    var refreshExpiry := w.expiry(Get(data, "RefreshExpireAt"));
    if refreshExpiry == 0 { refreshExpiry := w.expiry(Get(data, "refreshExpireAt")); }
    if refreshExpiry != 0 { f := f.(refreshExpiresAt := refreshExpiry); }
  }

  // ---------- The exchange ----------

  // What one request is taken for.
  ghost predicate TakenFor(w: Wire, r: Round, c: Credential, reply: Reply) {
    match r
    case Answered(status, body) =>
      && (reply.Rejected? <==> Refused(r) || Disowned(w, r, c))
      && (reply.Fresh? ==>
           status == 200 && body.Some? && reply.cred == Renewed(w, Inner(body.value), c)
           && !Conflict(w, Inner(body.value), c.userID))
      && (status == 200 && body.Some? && NewToken(w, Inner(body.value)) != "" ==>
            Elsewhere(w, Inner(body.value)) || Disowned(w, r, c) || reply.Fresh?)
    case _ => reply.Broken?
  }

  // The server took the token and answered for somebody else.
  predicate Disowned(w: Wire, r: Round, c: Credential) {
    r.Answered? && r.status == 200 && r.body.Some? &&
    (var data := Inner(r.body.value);
     NewToken(w, data) != "" && !Elsewhere(w, data) && Conflict(w, data, c.userID))
  }

  method OneRound(w: Wire, r: Round, c: Credential) returns (reply: Reply)
    ensures TakenFor(w, r, c, reply)
  {
    match r
    case Answered(status, body) => reply := DecodeExchange(w, status, body, c);
    case _ => reply := Broken;
  }

  // Two client identities: the second is tried only after the first was refused. The
  // token never goes out again after an answer or failure that may have spent it.
  method BoundExchange(w: Wire, c: Credential, rounds: seq<Round>) returns (reply: Reply, tried: nat)
    requires |rounds| == 2
    ensures 1 <= tried <= 2
    ensures tried == 2 <==> Refused(rounds[0])
    ensures TakenFor(w, rounds[tried - 1], c, reply)
  {
    reply := Broken;
    tried := 0;
    while tried < |rounds|
      invariant tried <= 2
      invariant tried == 0 || (Refused(rounds[0]) && Refused(rounds[tried - 1])
                && TakenFor(w, rounds[tried - 1], c, reply))
    {
      reply := OneRound(w, rounds[tried], c);
      tried := tried + 1;
      if !Refused(rounds[tried - 1]) { return; }
    }
  }

  predicate Bound(c: Credential) { c.key.Some? || c.deviceID != "" || c.machineID != "" }

  predicate Exchangeable(c: Credential, now: Clock) {
    && c.refreshToken != "" && (c.refreshExpiresAt == 0 || now <= c.refreshExpiresAt)
    && (Bound(c) ==> c.key.Some? && c.deviceID != "" && c.machineID != "")
  }

  method ExchangeToken(w: Wire, c: Credential, now: Clock, rounds: seq<Round>) returns (reply: Reply, tried: nat)
    requires |rounds| == 2
    ensures tried == 0 <==> !Exchangeable(c, now)
    ensures tried <= 2 && (tried == 2 ==> Refused(rounds[0]))
    ensures tried == 0 ==> reply.Rejected?
    ensures tried > 0 ==> TakenFor(w, rounds[tried - 1], c, reply)
    ensures Bound(c) && tried == 1 ==> !Refused(rounds[0])
    ensures Final(w, c, rounds, reply, tried)
  {
    if c.refreshToken == "" || (c.refreshExpiresAt != 0 && now > c.refreshExpiresAt) { return Rejected, 0; }
    if c.key.Some? || c.deviceID != "" || c.machineID != "" {
      if c.key.None? || c.deviceID == "" || c.machineID == "" { return Rejected, 0; }
      reply, tried := BoundExchange(w, c, rounds);
      return;
    }
    reply := OneRound(w, rounds[0], c);
    tried := 1;
  }

  // How an exchange ended: which requests were made, and what the last one was taken for.
  ghost predicate Final(w: Wire, c: Credential, rounds: seq<Round>, reply: Reply, tried: nat) {
    && tried <= |rounds|
    && (forall i | 0 <= i < tried - 1 :: Refused(rounds[i]))
    && (if tried == 0 then reply.Rejected? else TakenFor(w, rounds[tried - 1], c, reply))
  }

  // The server may have spent the token with this request.
  predicate MaySpend(r: Round) { WentOut(r) && !Refused(r) }

  // At most one request may have spent the token, and it is the last one made. If so,
  // the exchange is called a definitive rejection only when the server, having taken
  // the token, answered for another account.
  lemma RejectionIsDefinitive(w: Wire, c: Credential, rounds: seq<Round>, reply: Reply, tried: nat)
    requires Final(w, c, rounds, reply, tried)
    ensures forall i | 0 <= i < tried && MaySpend(rounds[i]) :: i == tried - 1
    ensures reply.Rejected? ==>
              ((exists i :: 0 <= i < tried && MaySpend(rounds[i])) <==> tried > 0 && Disowned(w, rounds[tried - 1], c))
  {
    if tried > 0 && Disowned(w, rounds[tried - 1], c) { assert MaySpend(rounds[tried - 1]); }
  }

  // A success keeps the device identity, never changes the account, and never forgets
  // the refresh token.
  lemma RenewalKeepsIdentity(w: Wire, c: Credential, rounds: seq<Round>, reply: Reply, tried: nat)
    requires Final(w, c, rounds, reply, tried) && reply.Fresh?
    ensures var f := reply.cred;
            && f.deviceID == c.deviceID && f.machineID == c.machineID && f.key == c.key
            && (c.userID != "" ==> f.userID == c.userID)
            && (c.refreshToken != "" ==> f.refreshToken != "")
            && (c.refreshExpiresAt != 0 ==> f.refreshExpiresAt != 0)
            && (c.clientID != "" ==> f.clientID != "")
  {}

  // A definitive rejection may take the mark off the file. Whatever the next process then
  // finds, after a restart or a crash: it sends the same token again if and only if it
  // finds the rejected credential rewritten; and after a restart that is so exactly if
  // the file was rewritten and not then moved away.
  lemma {:induction false} RejectedTokenIsTriedAgain(m: Manager, now: Clock, sent: Credential, fault: SaveFault,
                                                     qfault: QuarantineFault,
                                                     later: Clock)
    requires m.stored && sent.Complete() && sent.refreshPending && now <= later
    ensures var after := Settle(m, Found(Saved(sent)), now, sent, m.generation, Rejected, false, fault, qfault);
            var left := after.trace[|after.trace| - 1];
            && (forall e | e in left.recoverable ::
                  var again := Enter(Recover(Found(e)), Found(e), later, NoFault).answer;
                  && (again.Send? <==> e == Saved(Invalid(sent, now)))
                  && (again.Send? ==> again.cred.refreshToken == sent.refreshToken))
            && left.visible in left.recoverable
            && (left.visible == Saved(Invalid(sent, now)) <==>
                  fault.NoFault? || (Reaches(fault) && !qfault.NoProblem? && !qfault.FolderSyncFails?))
  {
    LeftByRejection(now, sent, fault, qfault);
    var trace := Invalidate(Found(Saved(sent)), now, sent, fault, qfault);
    forall e | e in trace[|trace| - 1].recoverable
      ensures var again := Enter(Recover(Found(e)), Found(e), later, NoFault).answer;
              && (again.Send? <==> e == Saved(Invalid(sent, now)))
              && (again.Send? ==> again.cred.refreshToken == sent.refreshToken)
    {
      FoundAgain(sent, now, e, later);
    }
  }

  // What a rejection leaves of a fenced credential.
  lemma LeftByRejection(now: Clock, sent: Credential, fault: SaveFault, qfault: QuarantineFault)
    requires sent.Complete() && sent.refreshPending
    ensures var trace := Invalidate(Found(Saved(sent)), now, sent, fault, qfault);
            var left := trace[|trace| - 1];
            && left.visible in left.recoverable
            && (forall e | e in left.recoverable :: e == Saved(sent) || e == Saved(Invalid(sent, now)) || e == None)
            && (left.visible == Saved(Invalid(sent, now)) <==>
                  fault.NoFault? || (Reaches(fault) && !qfault.NoProblem? && !qfault.FolderSyncFails?))
  {
    var saving := SaveSteps(Found(Saved(sent)), Invalid(sent, now), fault);
    SaveIsAtomic(Found(Saved(sent)), Invalid(sent, now), fault);
    if saving.error.Some? { QuarantineIsAtomic(saving.Final(), sent.token, qfault); }
  }

  // What a new process starts from.
  function Found(e: Entry): Disk { Disk(e, {e}, None) }

  lemma FoundAgain(sent: Credential, now: Clock, e: Entry, later: Clock)
    requires sent.Complete() && sent.refreshPending && now <= later
    requires e == Saved(sent) || e == Saved(Invalid(sent, now)) || e == None
    ensures var again := Enter(Recover(Found(e)), Found(e), later, NoFault).answer;
            && (again.Send? <==> e == Saved(Invalid(sent, now)))
               && (again.Send? ==> again.cred.refreshToken == sent.refreshToken)
  {
    if e == Saved(Invalid(sent, now)) {
      assert Recover(Found(e)).cred == Invalid(sent, now) && Recover(Found(e)).refreshErr == None;
      SaveIsAtomic(Found(e), Marked(Invalid(sent, now)), NoFault);
    }
  }
}
