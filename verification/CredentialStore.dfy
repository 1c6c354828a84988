// The credential file (credential_store.go) over a file system that may fail at any
// step and crash at any point. A directory entry becomes durable only when the
// directory is synced: until then a crash may bring back any entry it replaced.
module CredentialStore {
  import opened Wrappers

  // Nanoseconds; 0 is the zero time.
  type Time = nat

  datatype Key = Key(id: string, p256: bool)

  datatype Credential = Credential(
    token: string,
    refreshToken: string,
    userID: string,
    clientID: string,
    expiresAt: Time,
    refreshExpiresAt: Time,
    refreshPending: bool,
    deviceID: string,
    machineID: string,
    key: Option<Key>)
  {
    // validateAPI
    predicate Usable() {
      token != "" && userID != "" && clientID != "" && deviceID != "" && machineID != "" && expiresAt != 0
    }

    // Everything the Auth process needs, too.
    predicate Complete() {
      Usable() && refreshToken != "" && refreshExpiresAt != 0 && key.Some? && key.value.p256
    }
  }

  // What a file holds: one encoded credential, a partial write, or something else.
  datatype Content = Whole(cred: Credential) | Torn | Foreign

  datatype File = File(content: Content, secure: bool, synced: bool)

  type Entry = Option<File>

  datatype Disk = Disk(visible: Entry, recoverable: set<Entry>, temp: Entry) {
    // A reader finds nothing or one complete credential, now and after any crash.
    ghost predicate Clean() {
      && visible in recoverable
      && temp == None
      && forall e | e in recoverable :: Sane(e)
    }
  }

  ghost predicate Sane(e: Entry) {
    e.None? || (e.value.secure && e.value.synced && e.value.content.Whole? && e.value.content.cred.Complete())
  }

  function Saved(c: Credential): Entry {
    Some(File(Whole(c), true, true))
  }

  datatype StoreError =
    | NotExist | Closed | UnsafeFile | InvalidFile | UnsafeDirectory | Incomplete | Refusing
    | StepFailed | SyncUnavailable | ChangedCredential | DestinationExists

  function Read(d: Disk): Result<Credential, StoreError> {
    match d.visible
    case None => Err(NotExist)
    case Some(f) =>
      if !f.secure then Err(UnsafeFile)
      else if f.content.Whole? && f.content.cred.Complete() then Ok(f.content.cred)
      else Err(InvalidFile)
  }

  // The API's own narrow read of the same file.
  function ReadForAPI(d: Disk, now: Time): Result<Credential, StoreError> {
    match d.visible
    case None => Err(NotExist)
    case Some(f) =>
      if !f.secure then Err(UnsafeFile)
      else if f.content.Whole? && f.content.cred.Usable() then
        if now < f.content.cred.expiresAt then Ok(f.content.cred) else Err(NotExist)
      else Err(InvalidFile)
  }

  // ---------- File operations ----------

  function Create(d: Disk): Disk { d.(temp := Some(File(Torn, false, false))) }

  function Secure(d: Disk): Disk {
    match d.temp case None => d case Some(f) => d.(temp := Some(f.(secure := true)))
  }

  function Write(d: Disk, content: Content): Disk {
    match d.temp case None => d case Some(f) => d.(temp := Some(f.(content := content, synced := false)))
  }

  function SyncFile(d: Disk): Disk {
    match d.temp case None => d case Some(f) => d.(temp := Some(f.(synced := true)))
  }

  // A crash may tear a file that was not synced.
  function AfterCrash(e: Entry): set<Entry> {
    if e.Some? && !e.value.synced then {e, Some(e.value.(content := Torn))} else {e}
  }

  function Publish(d: Disk): Disk {
    Disk(d.temp, d.recoverable + AfterCrash(d.temp), None)
  }

  function SyncDirectory(d: Disk): Disk { d.(recoverable := AfterCrash(d.visible)) }

  function Unpublish(d: Disk): Disk { d.(visible := None, recoverable := d.recoverable + {None}) }

  function Discard(d: Disk): Disk { d.(temp := None) }

  // ---------- Save ----------

  // Where a save fails, if it does, and whether the file can then be read back.
  datatype SaveFault =
    | NoFault
    | StoreClosed(readable: bool)
    | BadDirectory(readable: bool)
    | LoadFails(readable: bool)
    | CreateFails(readable: bool)
    | SecureFails(readable: bool)
    | WriteFails(readable: bool)
    | SyncFails(readable: bool)
    | CloseFails(readable: bool)
    | RenameFails(readable: bool)
    | OpenDirectoryFails(readable: bool)
    | SyncDirectoryFails(readable: bool)
  {
    predicate Readable() { NoFault? || readable }
  }

  // Every disk state in turn, the last being the final one, and the error.
  datatype Saving = Saving(trace: seq<Disk>, error: Option<StoreError>) {
    predicate WellFormed() { trace != [] }

    function Final(): Disk
      requires WellFormed()
    {
      trace[|trace| - 1]
    }
  }

  function SaveSteps(d: Disk, c: Credential, fault: SaveFault): (r: Saving)
    ensures r.WellFormed()
  {
    if fault.StoreClosed? then Saving([d], Some(Closed))
    else if !c.Complete() then Saving([d], Some(Incomplete))
    else if fault.BadDirectory? then Saving([d], Some(UnsafeDirectory))
    else if fault.LoadFails? || (Read(d).Err? && !Read(d).error.NotExist?) then Saving([d], Some(Refusing))
    else WriteSteps(d, c, fault)
  }

  // From the temporary file to the synced directory.
  function WriteSteps(d: Disk, c: Credential, fault: SaveFault): (r: Saving)
    ensures r.WellFormed()
  {
    if fault.CreateFails? then Saving([d], Some(StepFailed))
    else
      var created := Create(d);
      var secured := Secure(created);
      var written := Write(secured, Whole(c));
      var synced := SyncFile(written);
      var renamed := Publish(synced);
      match fault
      case SecureFails(_) => Saving([d, created, d.(temp := None)], Some(StepFailed))
      case WriteFails(_) => Saving([d, created, secured, Write(secured, Torn), d.(temp := None)], Some(StepFailed))
      case SyncFails(_) => Saving([d, created, secured, written, d.(temp := None)], Some(StepFailed))
      case CloseFails(_) => Saving([d, created, secured, written, synced, d.(temp := None)], Some(StepFailed))
      case RenameFails(_) => Saving([d, created, secured, written, synced, d.(temp := None)], Some(StepFailed))
      case OpenDirectoryFails(_) => Saving([d, created, secured, written, synced, renamed], Some(SyncUnavailable))
      case SyncDirectoryFails(_) => Saving([d, created, secured, written, synced, renamed], Some(SyncUnavailable))
      case _ => Saving([d, created, secured, written, synced, renamed, SyncDirectory(renamed)], None)
  }

  // Whether a save got as far as replacing the visible file.
  predicate Reaches(fault: SaveFault) {
    fault.NoFault? || fault.OpenDirectoryFails? || fault.SyncDirectoryFails?
  }

  // At every point of a save, readers and crashes meet the old entries or the new one;
  // a successful save is visible and durable, and a save that fails before the rename
  // leaves everything as it was.
  lemma SaveIsAtomic(d: Disk, c: Credential, fault: SaveFault)
    requires d.Clean()
    ensures var r := SaveSteps(d, c, fault);
            && (forall i | 0 <= i < |r.trace| :: Between(d, c, r.trace[i]))
            && r.Final().Clean()
            && (r.error.None? ==>
                 c.Complete() && r.Final() == Disk(Saved(c), {Saved(c)}, None) && Read(r.Final()) == Ok(c))
            && (r.error.None? <==> c.Complete() && fault.NoFault?)
            && (!Reaches(fault) || !c.Complete() ==> r.Final() == d)
            && (Reaches(fault) && c.Complete() ==> r.Final().visible == Saved(c))
  {
    assert Sane(d.visible);
    assert Read(d).Err? ==> Read(d).error.NotExist?;
    if c.Complete() { WriteIsAtomic(d, c, fault); }
  }

  // Only old entries and the complete new one can be met.
  ghost predicate Between(d: Disk, c: Credential, t: Disk) {
    && (t.visible == d.visible || (c.Complete() && t.visible == Saved(c)))
    && t.visible in t.recoverable
    && t.recoverable <= d.recoverable + (if c.Complete() then {Saved(c)} else {})
  }

  lemma WriteIsAtomic(d: Disk, c: Credential, fault: SaveFault)
    requires d.Clean() && c.Complete()
    ensures var r := WriteSteps(d, c, fault);
            && (forall i | 0 <= i < |r.trace| :: Between(d, c, r.trace[i]))
            && r.Final().Clean()
            && (r.error.None? ==> r.Final() == Disk(Saved(c), {Saved(c)}, None))
            && (!Reaches(fault) && r.error.Some? ==> r.Final() == d)
            && (Reaches(fault) ==> r.Final().visible == Saved(c))
  {
    SaveStates(d, c);
  }

  lemma SaveStates(d: Disk, c: Credential)
    requires d.Clean() && c.Complete()
    ensures var synced := SyncFile(Write(Secure(Create(d)), Whole(c)));
            var renamed := Publish(synced);
            && synced == d.(temp := Saved(c))
            && renamed == Disk(Saved(c), d.recoverable + {Saved(c)}, None)
            && SyncDirectory(renamed) == Disk(Saved(c), {Saved(c)}, None)
            && renamed.Clean() && SyncDirectory(renamed).Clean()
  {}

  // ---------- Quarantine ----------

  datatype QuarantineFault =
    | NoProblem | QuarantineClosed | BadFolder | Unreadable | NoRandom | Taken | MoveFails | FolderSyncFails

  function QuarantineSteps(d: Disk, token: string, fault: QuarantineFault): (r: Saving)
    ensures r.WellFormed()
  {
    if fault.QuarantineClosed? then Saving([d], Some(Closed))
    else if fault.BadFolder? then Saving([d], Some(UnsafeDirectory))
    else if fault.Unreadable? then Saving([d], Some(StepFailed))
    else match Read(d)
      case Err(e) => Saving([d], Some(e))
      case Ok(c) =>
        if c.token != token then Saving([d], Some(ChangedCredential))
        else if fault.NoRandom? then Saving([d], Some(StepFailed))
        else if fault.Taken? then Saving([d], Some(DestinationExists))
        else if fault.MoveFails? then Saving([d], Some(StepFailed))
        else if fault.FolderSyncFails? then Saving([d, Unpublish(d)], Some(SyncUnavailable))
        else Saving([d, Unpublish(d), SyncDirectory(Unpublish(d))], None)
  }

  // Quarantine only ever takes the rejected credential away.
  lemma QuarantineIsAtomic(d: Disk, token: string, fault: QuarantineFault)
    requires d.Clean()
    ensures var r := QuarantineSteps(d, token, fault);
            && (forall i | 0 <= i < |r.trace| ::
                  && (r.trace[i].visible == d.visible || r.trace[i].visible == None)
                  && r.trace[i].visible in r.trace[i].recoverable
                  && r.trace[i].recoverable <= d.recoverable + {None})
            && r.Final().Clean()
            && (r.Final().visible != d.visible ==> Read(d).Ok? && Read(d).value.token == token)
            && (r.error.None? ==> r.Final() == Disk(None, {None}, None))
  {}

  // ---------- Runs of the store ----------

  datatype Operation = DoSave(cred: Credential, fault: SaveFault) | DoQuarantine(token: string, qfault: QuarantineFault)

  function Perform(d: Disk, op: Operation): (r: Saving)
    ensures r.WellFormed()
  {
    match op
    case DoSave(c, fault) => SaveSteps(d, c, fault)
    case DoQuarantine(token, fault) => QuarantineSteps(d, token, fault)
  }

  // Every disk state of a run.
  function States(d: Disk, ops: seq<Operation>): (states: seq<Disk>)
    ensures states != []
  {
    if ops == [] then [d] else
      var before := States(d, ops[..|ops| - 1]);
      before + Perform(before[|before| - 1], ops[|ops| - 1]).trace
  }

  // The entry of some credential that the run was asked to save, or an initial one.
  ghost predicate Known(e: Entry, d: Disk, ops: seq<Operation>) {
    e == None || e in d.recoverable || exists i :: SavedBy(e, ops, i)
  }

  ghost predicate SavedBy(e: Entry, ops: seq<Operation>, i: int) {
    0 <= i < |ops| && ops[i].DoSave? && e == Saved(ops[i].cred)
  }

  lemma PerformIsAtomic(d: Disk, op: Operation)
    requires d.Clean()
    ensures var r := Perform(d, op);
            && r.Final().Clean()
            && forall i {:trigger r.trace[i]} | 0 <= i < |r.trace| ::
                 && r.trace[i].visible in r.trace[i].recoverable
                 && forall e | e in r.trace[i].recoverable ::
                      Sane(e) && (e == None || e in d.recoverable || SavedBy(e, [op], 0))
  {
    match op
    case DoSave(c, fault) => SaveIsAtomic(d, c, fault);
    case DoQuarantine(token, fault) => QuarantineIsAtomic(d, token, fault);
  }

  // Readers and crashes meet no file or one complete credential that was saved.
  ghost predicate Good(t: Disk, d: Disk, ops: seq<Operation>) {
    t.visible in t.recoverable && forall e | e in t.recoverable :: Sane(e) && Known(e, d, ops)
  }

  // From an absent or valid file, after any operations with failures anywhere, readers
  // and crashes only ever meet no file or one complete credential that was saved.
  lemma {:induction false} StoreIsAtomic(d: Disk, ops: seq<Operation>)
    requires d.Clean()
    ensures var states := States(d, ops); states[|states| - 1].Clean() && AllGood(states, d, ops)
  {
    if ops != [] {
      var before := States(d, ops[..|ops| - 1]);
      StoreIsAtomic(d, ops[..|ops| - 1]);
      NextIsAtomic(before, d, ops);
    }
  }

  ghost predicate AllGood(states: seq<Disk>, d: Disk, ops: seq<Operation>) {
    forall i | 0 <= i < |states| :: Good(states[i], d, ops)
  }

  lemma NextIsAtomic(before: seq<Disk>, d: Disk, ops: seq<Operation>)
    requires ops != [] && before != [] && before[|before| - 1].Clean() && AllGood(before, d, ops[..|ops| - 1])
    ensures var states := before + Perform(before[|before| - 1], ops[|ops| - 1]).trace;
            states[|states| - 1].Clean() && AllGood(states, d, ops)
  {
    var last, op := before[|before| - 1], ops[|ops| - 1];
    PerformIsAtomic(last, op);
    TraceGood(Perform(last, op).trace, last, d, ops);
    forall i | 0 <= i < |before| ensures Good(before[i], d, ops) { GoodLater(before[i], d, ops); }
  }

  lemma TraceGood(trace: seq<Disk>, last: Disk, d: Disk, ops: seq<Operation>)
    requires ops != [] && Good(last, d, ops[..|ops| - 1])
    requires forall i {:trigger trace[i]} | 0 <= i < |trace| ::
               && trace[i].visible in trace[i].recoverable
               && forall e | e in trace[i].recoverable ::
                    Sane(e) && (e == None || e in last.recoverable || SavedBy(e, [ops[|ops| - 1]], 0))
    ensures AllGood(trace, d, ops)
  {
    forall i | 0 <= i < |trace| ensures Good(trace[i], d, ops) { StateKnown(trace[i], last, d, ops); }
  }

  lemma GoodLater(t: Disk, d: Disk, ops: seq<Operation>)
    requires ops != [] && Good(t, d, ops[..|ops| - 1])
    ensures Good(t, d, ops)
  {
    forall e | e in t.recoverable ensures Sane(e) && Known(e, d, ops) { KnownLater(e, d, ops); }
  }

  lemma StateKnown(t: Disk, last: Disk, d: Disk, ops: seq<Operation>)
    requires ops != [] && t.visible in t.recoverable && Good(last, d, ops[..|ops| - 1])
    requires forall e | e in t.recoverable ::
               Sane(e) && (e == None || e in last.recoverable || SavedBy(e, [ops[|ops| - 1]], 0))
    ensures Good(t, d, ops)
  {
    forall e | e in t.recoverable ensures Known(e, d, ops) {
      if e in last.recoverable { KnownLater(e, d, ops); }
      if SavedBy(e, [ops[|ops| - 1]], 0) { assert SavedBy(e, ops, |ops| - 1); }
    }
  }

  lemma KnownLater(e: Entry, d: Disk, ops: seq<Operation>)
    requires ops != [] && Known(e, d, ops[..|ops| - 1])
    ensures Known(e, d, ops)
  {
    if e != None && e !in d.recoverable {
      var i :| SavedBy(e, ops[..|ops| - 1], i);
      assert SavedBy(e, ops, i);
    }
  }

  // ---------- The store as the program runs it ----------

  class CredentialStore {
    var disk: Disk
    ghost var history: seq<Disk>    // every state the disk has been in

    constructor (disk: Disk)
      ensures this.disk == disk && history == []
    {
      this.disk := disk;
      history := [];
    }

    method Become(next: Disk)
      modifies this
      ensures disk == next && history == old(history) + [next]
    {
      disk := next;
      history := history + [next];
    }

    method Load() returns (r: Result<Credential, StoreError>)
      ensures r == Read(disk)
    {
      var visible := disk.visible;
      if visible.None? { return Err(NotExist); }
      if !visible.value.secure { return Err(UnsafeFile); }
      var content := visible.value.content;
      if !content.Whole? || !content.cred.Usable() { return Err(InvalidFile); }
      if content.cred.refreshToken == "" || content.cred.refreshExpiresAt == 0 || content.cred.key.None? {
        return Err(InvalidFile);
      }
      if !content.cred.key.value.p256 { return Err(InvalidFile); }
      return Ok(content.cred);
    }

    method Save(c: Credential, fault: SaveFault) returns (e: Option<StoreError>)
      modifies this
      ensures var r := SaveSteps(old(disk), c, fault);
              e == r.error && disk == r.Final() && history == old(history) + r.trace
    {
      history := history + [disk];
      if fault.StoreClosed? { return Some(Closed); }
      if !c.Complete() { return Some(Incomplete); }
      if fault.BadDirectory? { return Some(UnsafeDirectory); }
      if fault.LoadFails? { return Some(Refusing); }
      var existing := Load();
      if existing.Err? && !existing.error.NotExist? { return Some(Refusing); }
      e := WriteOut(c, fault);
    }

    // The new content reaches a temporary file, which then replaces the visible one.
    method WriteOut(c: Credential, fault: SaveFault) returns (e: Option<StoreError>)
      requires history != [] && history[|history| - 1] == disk
      modifies this
      ensures var r := WriteSteps(old(disk), c, fault);
              e == r.error && disk == r.Final() && history == old(history) + r.trace[1..]
    {
      e := FillTemporary(c, fault);
      if e.Some? { return; }
      if fault.RenameFails? { Become(Discard(disk)); return Some(StepFailed); }
      Become(Publish(disk));
      if fault.OpenDirectoryFails? || fault.SyncDirectoryFails? { return Some(SyncUnavailable); }
      Become(SyncDirectory(disk));
      return None;
    }

    method FillTemporary(c: Credential, fault: SaveFault) returns (e: Option<StoreError>)
      modifies this
      ensures e.Some? <==>
                fault.CreateFails? || fault.SecureFails? || fault.WriteFails? || fault.SyncFails? || fault.CloseFails?
      ensures e.Some? ==> var r := WriteSteps(old(disk), c, fault);
                          e == r.error && disk == r.Final() && history == old(history) + r.trace[1..]
      ensures e.None? ==> var created := Create(old(disk));
                          var secured := Secure(created);
                          var written := Write(secured, Whole(c));
                          disk == SyncFile(written) && history == old(history) + [created, secured, written, disk]
    {
      ghost var h := history;
      if fault.CreateFails? { return Some(StepFailed); }
      Become(Create(disk));
      ghost var created := disk;
      if fault.SecureFails? {
        Become(Discard(disk));
        assert history == h + [created, disk];
        return Some(StepFailed);
      }
      Become(Secure(disk));
      ghost var secured := disk;
      if fault.WriteFails? {
        Become(Write(disk, Torn));
        ghost var torn := disk;
        Become(Discard(disk));
        assert history == h + [created, secured, torn, disk];
        return Some(StepFailed);
      }
      Become(Write(disk, Whole(c)));
      ghost var written := disk;
      if fault.SyncFails? {
        Become(Discard(disk));
        assert history == h + [created, secured, written, disk];
        return Some(StepFailed);
      }
      Become(SyncFile(disk));
      ghost var synced := disk;
      assert history == h + [created, secured, written, synced];
      if fault.CloseFails? {
        Become(Discard(disk));
        assert history == h + [created, secured, written, synced, disk];
        return Some(StepFailed);
      }
      return None;
    }

    method QuarantineRejected(token: string, fault: QuarantineFault) returns (e: Option<StoreError>)
      modifies this
      ensures var r := QuarantineSteps(old(disk), token, fault);
              e == r.error && disk == r.Final() && history == old(history) + r.trace
    {
      history := history + [disk];
      if fault.QuarantineClosed? { return Some(Closed); }
      if fault.BadFolder? { return Some(UnsafeDirectory); }
      if fault.Unreadable? { return Some(StepFailed); }
      var current := Load();
      if current.Err? { return Some(current.error); }
      if current.value.token != token { return Some(ChangedCredential); }
      if fault.NoRandom? { return Some(StepFailed); }
      if fault.Taken? { return Some(DestinationExists); }
      if fault.MoveFails? { return Some(StepFailed); }
      Become(Unpublish(disk));
      if fault.FolderSyncFails? { return Some(SyncUnavailable); }
      Become(SyncDirectory(disk));
      return None;
    }
  }
}
