// Thinking sent inside the text: "<think>R</think>T" arrives as cumulative
// snapshots and is split into reasoning and answer (upstream.go).
module Thinking {
  import opened Wrappers
  import opened Text
  import opened Json
  import opened Accumulator
  import opened AccumulatorProofs

  const OPENING := "<think>"
  const CLOSING := "</think>"

  function Whole(r: string, t: string): string {
    OPENING + r + CLOSING + t
  }

  // The reasoning itself holds no closing tag.
  ghost predicate Untagged(r: string) {
    forall k: nat :: !OccursAt(r, CLOSING, k)
  }

  // A snapshot of this length ends inside the opening or inside the closing tag.
  predicate CutsOpening(n: nat) { 0 < n < 7 }

  predicate CutsClosing(r: string, n: nat) { 7 + |r| < n < 15 + |r| }

  // ---------- One snapshot ----------

  lemma OccursInside(r: string, t: string, n: nat, k: nat)
    requires n <= |Whole(r, t)| && 7 <= k && k + 1 <= |r| && OccursAt(Whole(r, t)[..n], CLOSING, k)
    ensures OccursAt(r, CLOSING, k - 7)
  {
    var j := k - 7;
    forall i | 0 <= i < 8 ensures r[j..j + 8][i] == CLOSING[i] {
      OccursChar(Whole(r, t)[..n], CLOSING, k, i);
      assert Whole(r, t)[k + i] == r[j + i];
    }
    assert r[j..j + 8] == CLOSING;
  }

  // The closing tag cannot begin inside the reasoning: no part of it but its head is '<'.
  lemma ClosingOnlyWhole(r: string, t: string, n: nat, k: nat)
    requires Untagged(r) && n <= |Whole(r, t)| && k < 7 + |r|
    ensures !OccursAt(Whole(r, t)[..n], CLOSING, k)
  {
    var w := Whole(r, t);
    var p := w[..n];
    assert forall i | 0 <= i < 7 :: w[i] == OPENING[i];
    assert w[7 + |r|] == '<';
    if OccursAt(p, CLOSING, k) {
      OccursChar(p, CLOSING, k, 0);
      OccursChar(p, CLOSING, k, 1);
      if k < 7 {
      } else if k - 7 + 8 <= |r| {
        OccursInside(r, t, n, k);
      } else {
        OccursChar(p, CLOSING, k, 7 + |r| - k);
      }
    }
  }

  lemma OccursChar(s: string, sub: string, k: nat, i: nat)
    requires OccursAt(s, sub, k) && i < |sub|
    ensures s[k + i] == sub[i]
  {
    assert s[k..k + |sub|][i] == s[k + i];
  }

  // What a prefix looks like once the opening tag is whole, and once both tags are.
  lemma OpenedPrefix(r: string, t: string, n: nat)
    requires 7 <= n < 15 + |r|
    ensures Whole(r, t)[..n] == OPENING + (if n <= 7 + |r| then r[..n - 7] else r + CLOSING[..n - 7 - |r|])
  {
    var rest := CLOSING + t;
    assert Whole(r, t) == OPENING + (r + rest);
    assert (OPENING + (r + rest))[..n] == OPENING + (r + rest)[..n - 7];
    if n > 7 + |r| { assert (r + rest)[..n - 7] == r + rest[..n - 7 - |r|]; }
  }

  lemma ClosedPrefix(r: string, t: string, n: nat)
    requires 15 + |r| <= n <= |Whole(r, t)|
    ensures Whole(r, t)[..n] == OPENING + r + CLOSING + t[..n - 15 - |r|]
  {}

  lemma SplitOpened(r: string, t: string, n: nat)
    requires Untagged(r) && 7 <= n < 15 + |r|
    ensures SplitThinking(Words(Whole(r, t)[..n], "")) ==
            Words("", if n <= 7 + |r| then r[..n - 7] else r + CLOSING[..n - 7 - |r|])
  {
    var p := Whole(r, t)[..n];
    OpenedPrefix(r, t, n);
    forall k: nat ensures !OccursAt(p, CLOSING, k) {
      if k < 7 + |r| { ClosingOnlyWhole(r, t, n, k); }
    }
    assert p[..7] == OPENING;
  }

  lemma SplitClosed(r: string, t: string, n: nat)
    requires Untagged(r) && 15 + |r| <= n <= |Whole(r, t)|
    ensures SplitThinking(Words(Whole(r, t)[..n], "")) == Words(t[..n - 15 - |r|], r)
  {
    var p, at := Whole(r, t)[..n], 7 + |r|;
    ClosedPrefix(r, t, n);
    forall k: nat | k < at ensures !OccursAt(p, CLOSING, k) { ClosingOnlyWhole(r, t, n, k); }
    assert p[at..at + 8] == CLOSING && OccursAt(p, CLOSING, at);
    assert p[..7] == OPENING && p[7..at] == r && p[at + 8..] == t[..n - 15 - |r|];
  }

  // What each kind of prefix is split into.
  lemma SplitPrefix(r: string, t: string, n: nat)
    requires Untagged(r) && n <= |Whole(r, t)| && !CutsOpening(n)
    ensures SplitThinking(Words(Whole(r, t)[..n], "")) ==
            if n == 0 then Words("", "")
            else if n <= 7 + |r| then Words("", r[..n - 7])
            else if n < 15 + |r| then Words("", r + CLOSING[..n - 7 - |r|])
            else Words(t[..n - 15 - |r|], r)
  {
    if n >= 15 + |r| { SplitClosed(r, t, n); } else if n >= 7 { SplitOpened(r, t, n); }
  }

  // A cut opening tag is taken for text.
  lemma SplitCut(r: string, t: string, n: nat)
    requires CutsOpening(n)
    ensures Whole(r, t)[..n] == OPENING[..n]
    ensures SplitThinking(Words(Whole(r, t)[..n], "")) == Words(OPENING[..n], "")
  {}

  // ---------- Frames that carry nothing but text ----------

  function TextObject(p: string): Fields { map["response" := Str(p)] }

  ghost predicate Carries(rt: Runtime, raw: string, p: string) {
    raw != "[DONE]" && rt.decode(raw) == Some(TextObject(p))
  }

  lemma OutputKind(rt: Runtime, p: string)
    ensures KindOf(rt, "output", TextObject(p)) == Output(false)
  {
    OutputLetters();
    OnlyResponse(rt, p);
    OutputEvent();
  }

  lemma OutputEvent()
    ensures EventKind("output", false) == Output(false)
  {}

  lemma OnlyResponse(rt: Runtime, p: string)
    ensures FirstString(rt, TextObject(p), ["code"]) == ""
  {
    assert ["code"][1..] == [];
  }

  lemma OutputLetters()
    ensures Letters("output") == "output"
  {
    assert "output"[1..] == "utput" && "utput"[1..] == "tput" && "tput"[1..] == "put";
    assert "put"[1..] == "ut" && "ut"[1..] == "t" && "t"[1..] == "";
    assert Letters("t") == "t" && Letters("ut") == "ut" && Letters("put") == "put";
    assert Letters("tput") == "tput" && Letters("utput") == "utput";
  }

  lemma NoItems(rt: Runtime, p: string, n: nat)
    requires n <= |CALL_KEYS|
    ensures ItemsOf(rt, TextObject(p), CALL_KEYS[..n]) == []
  {
    if n > 0 {
      assert CALL_KEYS[..n][..n - 1] == CALL_KEYS[..n - 1];
      NoItems(rt, p, n - 1);
    }
  }

  lemma TextWords(rt: Runtime, p: string)
    ensures ReadWords(rt, TextObject(p)) == Words(p, "")
  {
    var obj := TextObject(p);
    assert ["response", "text", "content"][1..] == ["text", "content"] && ["text", "content"][1..] == ["content"];
    assert FirstString(rt, obj, ["content"]) == "" && FirstString(rt, obj, ["text", "content"]) == "";
    assert ["reasoning_content", "reasoningContent", "thought", "thinking"][1..] ==
        ["reasoningContent", "thought", "thinking"];
    assert ["reasoningContent", "thought", "thinking"][1..] == ["thought", "thinking"]
        && ["thought", "thinking"][1..] == ["thinking"];
    assert FirstString(rt, obj, ["thinking"]) == "" && FirstString(rt, obj, ["thought", "thinking"]) == "";
    assert FirstString(rt, obj, ["reasoningContent", "thought", "thinking"]) == "";
  }

  lemma TextContent(x: Session, a: Acc, p: string)
    requires a.book.Indexed() && Content(x, a, false, TextObject(p)).Go?
    ensures var b := Content(x, a, false, TextObject(p)).acc;
            var w := SplitThinking(Words(p, ""));
            b.content == MergeSnapshot(a.content, w.text).0 && b.reasoning == MergeSnapshot(a.reasoning, w.reason).0
  {
    TextWords(x.rt, p);
    NoItems(x.rt, p, |CALL_KEYS|);
    assert CALL_KEYS[..|CALL_KEYS|] == CALL_KEYS;
  }

  lemma TextFrame(x: Session, a: Acc, raw: string, p: string)
    requires a.book.Indexed() && Carries(x.rt, raw, p) && Frame(x, a, "output", raw).Go?
    ensures var b := Frame(x, a, "output", raw).acc;
            var w := SplitThinking(Words(p, ""));
            b.content == MergeSnapshot(a.content, w.text).0 && b.reasoning == MergeSnapshot(a.reasoning, w.reason).0
  {
    OutputKind(x.rt, p);
    TextContent(x, Note(x.rt, a, TextObject(p)), p);
  }

  function Frames(x: Session, a: Acc, raws: seq<string>): (r: Step)
    requires a.book.Indexed()
    ensures r.Go? ==> r.acc.book.Indexed()
  {
    if raws == [] then Go(a) else
      var b :- Frames(x, a, raws[..|raws| - 1]);
      Frame(x, b, "output", raws[|raws| - 1])
  }

  lemma FramesLast(x: Session, a: Acc, raws: seq<string>)
    requires a.book.Indexed() && raws != [] && Frames(x, a, raws).Go?
    ensures var b := Frames(x, a, raws[..|raws| - 1]);
            b.Go? && Frame(x, b.acc, "output", raws[|raws| - 1]) == Frames(x, a, raws)
  {}

  // ---------- Whole runs ----------

  ghost predicate Snapshots(rt: Runtime, raws: seq<string>, lengths: seq<nat>, r: string, t: string) {
    && |raws| == |lengths|
    && forall i | 0 <= i < |raws| :: Snapshot(rt, raws[i], lengths[i], r, t)
  }

  ghost predicate Snapshot(rt: Runtime, raw: string, n: nat, r: string, t: string) {
    n <= |Whole(r, t)| && Carries(rt, raw, Whole(r, t)[..n])
  }

  ghost predicate LeaksClosing(lengths: seq<nat>, r: string) {
    exists i :: 0 <= i < |lengths| && CutsClosing(r, lengths[i])
  }

  // How much of the answer is shown after one more piece of an opening tag, while what
  // is shown is a beginning of the answer: nothing new if the piece repeats what is
  // shown, more if the answer happens to go on that way, and None once it does not.
  function AfterCut(shown: nat, piece: string, t: string): Option<nat>
    requires shown <= |t|
  {
    if piece <= t[..shown] then Some(shown)
    else if t[..shown] <= piece then if piece <= t then Some(|piece|) else None
    else if piece <= t[shown..] then Some(shown + |piece|)
    else None
  }

  // How much of the answer is shown after snapshots of these lengths.
  function Shown(lengths: seq<nat>, r: string, t: string): (m: Option<nat>)
    ensures m.Some? ==> m.value <= |t|
  {
    if lengths == [] then Some(0) else
      var m := Shown(lengths[..|lengths| - 1], r, t);
      if m.None? then None else ShownAfter(m.value, lengths[|lengths| - 1], r, t)
  }

  function ShownAfter(m: nat, n: nat, r: string, t: string): (k: Option<nat>)
    requires m <= |t|
    ensures k.Some? ==> k.value <= |t|
  {
    if CutsOpening(n) then AfterCut(m, OPENING[..n], t)
    else
      var j := if n < 15 + |r| then 0 else n - 15 - |r|;
      Some(if m < j <= |t| then j else m)
  }

  // The text held is the part of the answer that is shown, or no beginning of it.
  predicate Holds(content: string, m: Option<nat>, t: string) {
    match m
    case Some(k) => k <= |t| && content == t[..k]
    case None => !(content <= t)
  }

  // A fragment of the closing tag stays in the reasoning; without one it is a
  // beginning of the reasoning, and all of it once the whole snapshot was seen.
  ghost predicate Reasoned(reasoning: string, leaks: bool, seen: bool, r: string) {
    if leaks then |reasoning| > |r| else reasoning <= r && (seen ==> reasoning == r)
  }

  lemma ReasonedStep(reasoning: string, leaks: bool, seen: bool, r: string, t: string, n: nat)
    requires Untagged(r) && n <= |Whole(r, t)| && Reasoned(reasoning, leaks, seen, r)
    ensures var w := SplitThinking(Words(Whole(r, t)[..n], ""));
            Reasoned(MergeSnapshot(reasoning, w.reason).0, leaks || CutsClosing(r, n), seen || n == |Whole(r, t)|, r)
  {
    if CutsOpening(n) { SplitCut(r, t, n); } else { SplitPrefix(r, t, n); }
    if !leaks && !CutsClosing(r, n) {
      var i := if 7 < n <= 7 + |r| then n - 7 else if n >= 15 + |r| then |r| else 0;
      assert r[..|reasoning|] == reasoning && r[..|r|] == r && r[..0] == "";
      MergeKeepsLongest(r, |reasoning|, i);
    }
  }

  lemma CutHolds(content: string, m: nat, piece: string, t: string)
    requires m <= |t| && content == t[..m] && piece != ""
    ensures Holds(MergeSnapshot(content, piece).0, AfterCut(m, piece, t), t)
  {
    if !(piece <= content) && !(content <= piece) {
      assert content + piece <= t <==> piece <= t[m..] by { Continues(t, m, piece); }
      if piece <= t[m..] { assert t[..m + |piece|] == content + piece; }
    } else if !(piece <= content) && piece <= t {
      assert t[..|piece|] == piece;
    }
  }

  lemma Continues(t: string, m: nat, piece: string)
    requires m <= |t|
    ensures t[..m] + piece <= t <==> piece <= t[m..]
  {
    assert t == t[..m] + t[m..];
  }

  lemma HoldsStep(content: string, m: nat, r: string, t: string, n: nat)
    requires Untagged(r) && n <= |Whole(r, t)| && m <= |t| && content == t[..m]
    ensures var w := SplitThinking(Words(Whole(r, t)[..n], ""));
            Holds(MergeSnapshot(content, w.text).0, ShownAfter(m, n, r, t), t)
  {
    if CutsOpening(n) {
      SplitCut(r, t, n);
      CutHolds(content, m, OPENING[..n], t);
    } else {
      SplitPrefix(r, t, n);
      var j := if n < 15 + |r| then 0 else n - 15 - |r|;
      assert t[..0] == "";
      MergeKeepsLongest(t, m, j);
    }
  }

  // What one frame makes of both parts.
  lemma SnapshotStep(x: Session, a: Acc, raw: string, r: string, t: string, n: nat, leaks: bool, seen: bool,
                     m: Option<nat>)
    requires a.book.Indexed() && Untagged(r) && Snapshot(x.rt, raw, n, r, t) && Frame(x, a, "output", raw).Go?
    requires Reasoned(a.reasoning, leaks, seen, r) && Holds(a.content, m, t)
    ensures var b := Frame(x, a, "output", raw).acc;
            && Reasoned(b.reasoning, leaks || CutsClosing(r, n), seen || n == |Whole(r, t)|, r)
            && Holds(b.content, if m.None? then None else ShownAfter(m.value, n, r, t), t)
  {
    TextFrame(x, a, raw, Whole(r, t)[..n]);
    ReasonedStep(a.reasoning, leaks, seen, r, t, n);
    if m.Some? { HoldsStep(a.content, m.value, r, t, n); }
  }

  lemma {:induction false} SnapshotsFold(x: Session, raws: seq<string>, lengths: seq<nat>, r: string, t: string)
    requires Untagged(r) && Snapshots(x.rt, raws, lengths, r, t) && Frames(x, INITIAL, raws).Go?
    ensures var b := Frames(x, INITIAL, raws).acc;
            && Reasoned(b.reasoning, LeaksClosing(lengths, r), |Whole(r, t)| in lengths, r)
            && Holds(b.content, Shown(lengths, r, t), t)
  {
    if raws != [] {
      var n := |raws| - 1;
      FramesLast(x, INITIAL, raws);
      SnapshotsFold(x, raws[..n], lengths[..n], r, t);
      SnapshotStep(x, Frames(x, INITIAL, raws[..n]).acc, raws[n], r, t, lengths[n],
                   LeaksClosing(lengths[..n], r), |Whole(r, t)| in lengths[..n], Shown(lengths[..n], r, t));
      LeaksLast(lengths, r, |Whole(r, t)|);
    }
  }

  // The whole answer is shown once the whole snapshot was seen.
  lemma {:induction false} SeenIsShown(lengths: seq<nat>, r: string, t: string)
    requires Shown(lengths, r, t).Some? && |Whole(r, t)| in lengths
    ensures Shown(lengths, r, t) == Some(|t|)
  {
    var n := |lengths| - 1;
    LeaksLast(lengths, r, |Whole(r, t)|);
    if lengths[n] != |Whole(r, t)| { SeenIsShown(lengths[..n], r, t); }
  }

  lemma LeaksLast(lengths: seq<nat>, r: string, m: nat)
    requires lengths != []
    ensures var n := |lengths| - 1;
            LeaksClosing(lengths, r) <==> (LeaksClosing(lengths[..n], r) || CutsClosing(r, lengths[n]))
    ensures var n := |lengths| - 1; m in lengths <==> m in lengths[..n] || lengths[n] == m
  {
    var n := |lengths| - 1;
    if LeaksClosing(lengths[..n], r) {
      var i :| 0 <= i < n && CutsClosing(r, lengths[..n][i]);
      assert CutsClosing(r, lengths[i]);
    }
    if i :| 0 <= i < n && CutsClosing(r, lengths[i]) {
      assert CutsClosing(r, lengths[..n][i]);
    }
    assert lengths == lengths[..n] + [lengths[n]];
  }

  // Snapshots of one thinking answer, cut anywhere, in any order and with repeats: they
  // fold to exactly its reasoning and its answer if and only if none is cut inside the
  // closing tag and the pieces cut off the opening tag never break the answer.
  lemma {:induction false} ThinkingSplit(x: Session, raws: seq<string>, lengths: seq<nat>, r: string, t: string)
    requires Untagged(r) && Snapshots(x.rt, raws, lengths, r, t)
    requires |Whole(r, t)| in lengths
    ensures var f := Frames(x, INITIAL, raws);
            f.Go? ==> ((f.acc.reasoning == r && f.acc.content == t) <==>
                       !LeaksClosing(lengths, r) && Shown(lengths, r, t).Some?)
  {
    if Frames(x, INITIAL, raws).Go? {
      SnapshotsFold(x, raws, lengths, r, t);
      if Shown(lengths, r, t).Some? {
        SeenIsShown(lengths, r, t);
        assert t[..|t|] == t;
      }
    }
  }

  // An answer without '<' is broken by every piece of an opening tag.
  lemma {:induction false} CutsBreak(lengths: seq<nat>, r: string, t: string)
    requires '<' !in t
    ensures Shown(lengths, r, t).Some? <==> forall i | 0 <= i < |lengths| :: !CutsOpening(lengths[i])
  {
    if lengths != [] {
      var n := |lengths| - 1;
      CutsBreak(lengths[..n], r, t);
      if CutsOpening(lengths[n]) { assert OPENING[..lengths[n]][0] == '<'; }
      assert forall i | 0 <= i < n :: lengths[..n][i] == lengths[i];
    }
  }

  // For such an answer the fold is exact if and only if no snapshot is cut inside a tag.
  lemma {:induction false} PlainThinkingSplit(x: Session, raws: seq<string>, lengths: seq<nat>, r: string, t: string)
    requires Untagged(r) && Snapshots(x.rt, raws, lengths, r, t) && '<' !in t
    requires |Whole(r, t)| in lengths
    ensures var f := Frames(x, INITIAL, raws);
            f.Go? ==> ((f.acc.reasoning == r && f.acc.content == t) <==>
                       forall i | 0 <= i < |lengths| :: !CutsOpening(lengths[i]) && !CutsClosing(r, lengths[i]))
  {
    ThinkingSplit(x, raws, lengths, r, t);
    CutsBreak(lengths, r, t);
  }
}
