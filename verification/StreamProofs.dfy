// What holds at every point of every upstream stream, and at its successful end
// (upstream.go).
module StreamProofs {
  import opened Wrappers
  import opened Text
  import opened Json
  import opened Accumulator
  import opened AccumulatorProofs
  import opened EventStream

  // ---------- Every successful stream is complete ----------

  lemma FlushKeeps(x: Session, s: Scan)
    requires x.rt.Sound() && s.acc.Inv(x.policy) && Flush(x, s).Go?
    ensures var b := Flush(x, s).acc; b.Inv(x.policy) && Grows(s.acc, b)
  {
    if s.data != [] {
      FrameKeeps(x, s.acc, s.event, Join(s.data, "\n"));
    }
  }

  lemma PulseKeeps(x: Session, s: Scan)
    requires s.acc.Inv(x.policy) && !Pulse(x, s).Dead?
    ensures var t := Pulse(x, s).scan; t.acc.Inv(x.policy) && Grows(s.acc, t.acc)
  {
    BeatKeeps(x.policy, s.acc);
  }

  lemma LineKeeps(x: Session, s: Scan, line: string)
    requires x.rt.Sound() && s.acc.Inv(x.policy) && !Line(x, s, line).Dead?
    ensures var t := Line(x, s, line).scan; t.acc.Inv(x.policy) && Grows(s.acc, t.acc)
  {
    if Trim(line) == "" {
      FlushKeeps(x, s);
    } else if "event:" <= line {
      if s.data != [] { FlushKeeps(x, s); }
    } else if !("data:" <= line) && ":" <= line {
      PulseKeeps(x, s);
    }
  }

  lemma {:induction false} LinesKeep(x: Session, s: Scan, lines: seq<string>)
    requires x.rt.Sound() && s.acc.Inv(x.policy) && !Lines(x, s, lines).Dead?
    ensures var r := Lines(x, s, lines);
            r.scan.acc.Inv(x.policy) && Grows(s.acc, r.scan.acc) && (r.Halt? ==> r.scan.acc.terminal)
  {
    if lines != [] {
      var before := lines[..|lines| - 1];
      LinesKeep(x, s, before);
      if Lines(x, s, before).More? {
        LineKeeps(x, Lines(x, s, before).scan, lines[|lines| - 1]);
        GrowsTransitive(s.acc, Lines(x, s, before).scan.acc, Lines(x, s, lines).scan.acc);
      }
    }
  }

  // A successful stream saw a terminal event, obeys the request's tool policy, has
  // distinct identities, is not empty, and its deltas amount to its message.
  lemma ReadCompletes(x: Session, lines: seq<string>, broken: bool)
    requires x.rt.Sound() && Read(x, lines, broken).Ended?
    ensures var r := Read(x, lines, broken); Complete(x, r.acc, r.calls)
  {
    InitialInv(x.policy);
    LinesKeep(x, IDLE, lines);
    var s := Lines(x, IDLE, lines).scan;
    if !s.acc.terminal {
      FlushKeeps(x, s);
      ConcludeCompletes(x, Flush(x, s).acc);
    } else {
      ConcludeCompletes(x, s.acc);
    }
  }

  // ---------- At every point of every stream ----------

  // The identity maps: byID is exactly the inverse of the slots' distinct, non-empty
  // IDs, and every stored position exists.
  ghost predicate Inverse(a: Book) {
    && a.lastCall <= |a.calls| <= MAX_CALLS
    && (forall i | 0 <= i < |a.calls| ::
              a.calls[i].call.id != "" && a.calls[i].call.id in a.byID && a.byID[a.calls[i].call.id] == i)
    && (forall id | id in a.byID :: a.byID[id] < |a.calls| && a.calls[a.byID[id]].call.id == id)
    && (forall k | k in a.byIndex :: 0 <= k && a.byIndex[k] < |a.calls|)
  }

  lemma InverseHolds(p: Policy, a: Book)
    requires a.Inv(p)
    ensures Inverse(a)
  {
    forall i | 0 <= i < |a.calls| ensures a.calls[i].call.id != "" && a.calls[i].call.id in a.byID
      && a.byID[a.calls[i].call.id] == i {
      assert a.Registered(i);
    }
    forall id | id in a.byID ensures a.byID[id] < |a.calls| && a.calls[a.byID[id]].call.id == id {
      assert a.Backed(id);
    }
  }

  // After any lines of any stream that has not failed, the maps are exact inverses and
  // the deltas amount to the message so far; after any further lines, no index and no
  // ID has been remapped and nothing emitted has been taken back.
  lemma EveryPrefix(x: Session, first: seq<string>, second: seq<string>)
    requires x.rt.Sound() && !Lines(x, IDLE, first + second).Dead?
    ensures !Lines(x, IDLE, first).Dead?
    ensures var a := Lines(x, IDLE, first).scan.acc; var b := Lines(x, IDLE, first + second).scan.acc;
            && Inverse(a.book)
            && Rebuild(a.emitted) == Draft(a.content, a.reasoning, a.book.Published())
            && (forall k | k in a.book.byIndex :: k in b.book.byIndex && b.book.byIndex[k] == a.book.byIndex[k])
            && (forall id | id in a.book.byID :: id in b.book.byID && b.book.byID[id] == a.book.byID[id])
            && a.emitted <= b.emitted && a.content <= b.content && a.reasoning <= b.reasoning
  {
    InitialInv(x.policy);
    LinesAppend(x, IDLE, first, second);
    LinesKeep(x, IDLE, first);
    var s := Lines(x, IDLE, first).scan;
    InverseHolds(x.policy, s.acc.book);
    if Lines(x, IDLE, first).More? { LinesKeep(x, s, second); }
  }
}
