// The conversation history a client must supply (types.go): which histories are
// accepted, in the form of a grammar, and what the checks per message demand.
module ToolHistory {
  import opened Wrappers
  import opened Json
  import opened Accumulator

  datatype Message =
    Message(role: string, content: string, toolCalls: seq<ToolCall>, toolCallID: string, name: string)
  {
    predicate Answers() { role == "tool" }
  }

  datatype Verdict = Accepted | NoPendingCall(id: string) | PendingBefore | DuplicateID(id: string) | Unanswered

  // ---------- The check ----------

  datatype Ledger = Ledger(pending: set<string>, seen: set<string>) | Duplicate(id: string)

  function Register(calls: seq<ToolCall>, pending: set<string>, seen: set<string>): Ledger {
    if calls == [] then Ledger(pending, seen)
    else if calls[0].id in seen then Duplicate(calls[0].id)
    else Register(calls[1..], pending + {calls[0].id}, seen + {calls[0].id})
  }

  function Walk(ms: seq<Message>, pending: set<string>, seen: set<string>): Verdict {
    if ms == [] then if pending == {} then Accepted else Unanswered
    else if ms[0].Answers() then
      if ms[0].toolCallID !in pending then NoPendingCall(ms[0].toolCallID)
      else Walk(ms[1..], pending - {ms[0].toolCallID}, seen)
    else if pending != {} then PendingBefore
    else match Register(ms[0].toolCalls, pending, seen)
      case Duplicate(id) => DuplicateID(id)
      case Ledger(p, s) => Walk(ms[1..], p, s)
  }

  function Validate(ms: seq<Message>): Verdict {
    Walk(ms, {}, {})
  }

  // validateToolHistory: one pass with two sets updated in place.
  method ValidateToolHistory(ms: seq<Message>) returns (v: Verdict)
    ensures v == Validate(ms)
  {
    var pending: set<string>, seen: set<string> := {}, {};
    var i := 0;
    while i < |ms|
      invariant 0 <= i <= |ms| && Walk(ms[i..], pending, seen) == Validate(ms)
    {
      var m := ms[i];
      assert ms[i..][1..] == ms[i + 1..];
      i := i + 1;
      if m.Answers() {
        if m.toolCallID !in pending { return NoPendingCall(m.toolCallID); }
        pending := pending - {m.toolCallID};
        continue;
      }
      if pending != {} { return PendingBefore; }
      ghost var ledger := Register(m.toolCalls, pending, seen);
      var k := 0;
      while k < |m.toolCalls|
        invariant 0 <= k <= |m.toolCalls| && Register(m.toolCalls[k..], pending, seen) == ledger
      {
        var id := m.toolCalls[k].id;
        if id in seen { return DuplicateID(id); }
        pending, seen := pending + {id}, seen + {id};
        assert m.toolCalls[k..][1..] == m.toolCalls[k + 1..];
        k := k + 1;
      }
    }
    return if pending == {} then Accepted else Unanswered;
  }

  // ---------- The grammar ----------

  // One message that is not a tool answer, with the answers to its calls.
  datatype Block = Block(head: Message, answers: seq<Message>) {
    ghost predicate Proper() {
      && !head.Answers()
      && (forall i | 0 <= i < |answers| :: answers[i].Answers())
      && multiset(AnswerIDs(answers)) == multiset(CallIDs(head.toolCalls))
    }
  }

  function CallIDs(calls: seq<ToolCall>): seq<string> {
    seq(|calls|, i requires 0 <= i < |calls| => calls[i].id)
  }

  function AnswerIDs(ms: seq<Message>): seq<string> {
    seq(|ms|, i requires 0 <= i < |ms| => ms[i].toolCallID)
  }

  function Flatten(blocks: seq<Block>): seq<Message> {
    if blocks == [] then [] else [blocks[0].head] + blocks[0].answers + Flatten(blocks[1..])
  }

  function AllIDs(blocks: seq<Block>): seq<string> {
    if blocks == [] then [] else CallIDs(blocks[0].head.toolCalls) + AllIDs(blocks[1..])
  }

  ghost predicate Distinct(ids: seq<string>) {
    forall i, j | 0 <= i < j < |ids| :: ids[i] != ids[j]
  }

  // The history consists of these blocks, and all call IDs are distinct.
  ghost predicate Parses(ms: seq<Message>, blocks: seq<Block>) {
    && Flatten(blocks) == ms
    && (forall i | 0 <= i < |blocks| :: blocks[i].Proper())
    && Distinct(AllIDs(blocks))
  }

  // ---------- Distinct sequences ----------

  function Elements(ids: seq<string>): set<string> { set id | id in ids }

  lemma DistinctParts(a: seq<string>, b: seq<string>)
    ensures Distinct(a + b) <==> Distinct(a) && Distinct(b) && Elements(a) !! Elements(b)
  {
    if i, j :| 0 <= i < j < |a| && a[i] == a[j] {
      assert (a + b)[i] == (a + b)[j];
    } else if i, j :| 0 <= i < j < |b| && b[i] == b[j] {
      assert (a + b)[|a| + i] == (a + b)[|a| + j];
    } else if id :| id in Elements(a) && id in Elements(b) {
      var i :| 0 <= i < |a| && a[i] == id;
      var j :| 0 <= j < |b| && b[j] == id;
      assert (a + b)[i] == (a + b)[|a| + j];
    } else {
      forall i, j | 0 <= i < j < |a + b| ensures (a + b)[i] != (a + b)[j] {
        assert j < |a| || i >= |a| || (a[i] in Elements(a) && b[j - |a|] in Elements(b));
      }
    }
  }

  lemma {:induction false} DistinctCounts(ids: seq<string>)
    ensures Distinct(ids) <==> forall id :: multiset(ids)[id] <= 1
  {
    if ids != [] {
      var head, tail := ids[0], ids[1..];
      DistinctCounts(tail);
      assert ids == [head] + tail;
      DistinctParts([head], tail);
      if Distinct(ids) {
        assert head !in tail;
      } else if Distinct(tail) {
        assert head in tail;
        assert multiset(ids)[head] == 1 + multiset(tail)[head] >= 2;
      } else {
        var id :| multiset(tail)[id] > 1;
        assert multiset(ids)[id] > 1;
      }
    }
  }

  // Two distinct sequences of the same IDs are permutations of each other.
  lemma PermutationOfDistinct(a: seq<string>, b: seq<string>)
    requires Distinct(a)
    ensures multiset(a) == multiset(b) <==> Distinct(b) && Elements(a) == Elements(b)
  {
    DistinctCounts(a);
    DistinctCounts(b);
    if multiset(a) == multiset(b) {
      forall id ensures id in Elements(a) <==> id in Elements(b) {
        assert id in a <==> id in multiset(a);
        assert id in b <==> id in multiset(b);
      }
    } else if Distinct(b) && Elements(a) == Elements(b) {
      forall id ensures multiset(a)[id] == multiset(b)[id] {
        assert id in multiset(a) <==> id in Elements(a);
        assert id in multiset(b) <==> id in Elements(b);
      }
    }
  }

  // ---------- Acceptance is exactly the grammar ----------

  lemma {:induction false} RegisterExactly(calls: seq<ToolCall>, pending: set<string>, seen: set<string>)
    ensures var ids := CallIDs(calls);
            && (Register(calls, pending, seen).Ledger? <==> Distinct(ids) && Elements(ids) !! seen)
            && (Register(calls, pending, seen).Ledger? ==>
                  Register(calls, pending, seen) == Ledger(pending + Elements(ids), seen + Elements(ids)))
  {
    var ids := CallIDs(calls);
    if calls != [] {
      var id := calls[0].id;
      var rest := CallIDs(calls[1..]);
      RegisterExactly(calls[1..], pending + {id}, seen + {id});
      assert ids == [id] + rest;
      DistinctParts([id], rest);
      assert Elements(ids) == {id} + Elements(rest);
    } else {
      assert Elements(ids) == {};
    }
  }

  // Answers that are a permutation of the pending calls clear them.
  lemma {:induction false} AnswersClear(answers: seq<Message>, rest: seq<Message>, pending: set<string>,
                                        seen: set<string>)
    requires forall i | 0 <= i < |answers| :: answers[i].Answers()
    requires Distinct(AnswerIDs(answers)) && Elements(AnswerIDs(answers)) == pending
    ensures Walk(answers + rest, pending, seen) == Walk(rest, {}, seen)
  {
    if answers == [] {
      assert answers + rest == rest && pending == {};
    } else {
      var id := answers[0].toolCallID;
      var later := AnswerIDs(answers[1..]);
      assert AnswerIDs(answers) == [id] + later;
      DistinctParts([id], later);
      assert id in AnswerIDs(answers);
      assert Elements(later) == pending - {id} by {
        assert Elements([id]) == {id};
        forall k ensures k in Elements(later) <==> k in pending - {id} {
          assert k in AnswerIDs(answers) <==> k == id || k in later;
        }
      }
      assert (answers + rest)[1..] == answers[1..] + rest;
      AnswersClear(answers[1..], rest, pending - {id}, seen);
    }
  }

  // An accepted walk starts with such answers.
  lemma {:induction false} AcceptedAnswers(ms: seq<Message>, pending: set<string>, seen: set<string>) returns (k: nat)
    requires Walk(ms, pending, seen).Accepted?
    ensures k <= |ms| && (k < |ms| ==> !ms[k].Answers())
    ensures forall i | 0 <= i < k :: ms[i].Answers()
    ensures Distinct(AnswerIDs(ms[..k])) && Elements(AnswerIDs(ms[..k])) == pending
    ensures Walk(ms[k..], {}, seen).Accepted?
  {
    if ms == [] || !ms[0].Answers() {
      k := 0;
      assert Elements(AnswerIDs(ms[..0])) == {};
    } else {
      var id := ms[0].toolCallID;
      var n := AcceptedAnswers(ms[1..], pending - {id}, seen);
      k := n + 1;
      var later := AnswerIDs(ms[1..][..n]);
      assert AnswerIDs(ms[..k]) == [id] + later;
      assert Elements([id]) == {id};
      DistinctParts([id], later);
      assert Elements([id] + later) == {id} + Elements(later);
      assert ms[1..][n..] == ms[k..];
    }
  }

  lemma BlockAccepted(b: Block, rest: seq<Message>, seen: set<string>)
    requires b.Proper() && Distinct(CallIDs(b.head.toolCalls)) && Elements(CallIDs(b.head.toolCalls)) !! seen
    ensures Walk([b.head] + b.answers + rest, {}, seen) == Walk(rest, {}, seen + Elements(CallIDs(b.head.toolCalls)))
  {
    var ids := CallIDs(b.head.toolCalls);
    RegisterExactly(b.head.toolCalls, {}, seen);
    PermutationOfDistinct(ids, AnswerIDs(b.answers));
    assert {} + Elements(ids) == Elements(ids);
    assert ([b.head] + b.answers + rest)[1..] == b.answers + rest;
    AnswersClear(b.answers, rest, Elements(ids), seen + Elements(ids));
  }

  lemma {:induction false} GrammarAccepted(blocks: seq<Block>, seen: set<string>)
    requires forall i | 0 <= i < |blocks| :: blocks[i].Proper()
    requires Distinct(AllIDs(blocks)) && Elements(AllIDs(blocks)) !! seen
    ensures Walk(Flatten(blocks), {}, seen).Accepted?
  {
    if blocks != [] {
      var ids := CallIDs(blocks[0].head.toolCalls);
      var rest := AllIDs(blocks[1..]);
      DistinctParts(ids, rest);
      assert Elements(AllIDs(blocks)) == Elements(ids) + Elements(rest);
      BlockAccepted(blocks[0], Flatten(blocks[1..]), seen);
      GrammarAccepted(blocks[1..], seen + Elements(ids));
    }
  }

  lemma {:induction false} AcceptedGrammar(ms: seq<Message>, seen: set<string>) returns (blocks: seq<Block>)
    requires Walk(ms, {}, seen).Accepted?
    ensures Parses(ms, blocks) && Elements(AllIDs(blocks)) !! seen
    decreases |ms|
  {
    if ms == [] {
      blocks := [];
    } else {
      var head := ms[0];
      var ids := CallIDs(head.toolCalls);
      RegisterExactly(head.toolCalls, {}, seen);
      assert {} + Elements(ids) == Elements(ids);
      var k := AcceptedAnswers(ms[1..], Elements(ids), seen + Elements(ids));
      var answers := ms[1..][..k];
      var later := AcceptedGrammar(ms[1..][k..], seen + Elements(ids));
      PermutationOfDistinct(ids, AnswerIDs(answers));
      blocks := [Block(head, answers)] + later;
      assert ms == [head] + answers + ms[1..][k..];
      OneMoreBlock(Block(head, answers), later, ms[1..][k..]);
    }
  }

  lemma OneMoreBlock(b: Block, later: seq<Block>, rest: seq<Message>)
    requires b.Proper() && Parses(rest, later)
    requires Distinct(CallIDs(b.head.toolCalls)) && Elements(CallIDs(b.head.toolCalls)) !! Elements(AllIDs(later))
    ensures Parses([b.head] + b.answers + rest, [b] + later)
    ensures Elements(AllIDs([b] + later)) == Elements(CallIDs(b.head.toolCalls)) + Elements(AllIDs(later))
  {
    assert ([b] + later)[1..] == later;
    DistinctParts(CallIDs(b.head.toolCalls), AllIDs(later));
  }

  // A history is accepted exactly when it splits into blocks of one message followed by
  // a permutation of the answers to its calls, all call IDs being distinct.
  lemma AcceptanceIsGrammar(ms: seq<Message>)
    ensures Validate(ms).Accepted? <==> exists blocks :: Parses(ms, blocks)
  {
    if Validate(ms).Accepted? {
      var blocks := AcceptedGrammar(ms, {});
    } else if blocks :| Parses(ms, blocks) {
      GrammarAccepted(blocks, {});
    }
  }

  // ---------- Names of answered calls ----------

  // The name of every call by its ID, as the request builder collects it.
  function Names(ms: seq<Message>): map<string, string> {
    if ms == [] then map[] else NamesOf(Names(ms[..|ms| - 1]), ms[|ms| - 1].toolCalls)
  }

  function NamesOf(names: map<string, string>, calls: seq<ToolCall>): map<string, string> {
    if calls == [] then names else
      var c := calls[|calls| - 1];
      NamesOf(names, calls[..|calls| - 1])[c.id := c.name]
  }

  function CallsOf(ms: seq<Message>): seq<ToolCall> {
    if ms == [] then [] else CallsOf(ms[..|ms| - 1]) + ms[|ms| - 1].toolCalls
  }

  lemma {:induction false} NamesAreCalls(ms: seq<Message>)
    ensures Names(ms) == NamesOf(map[], CallsOf(ms))
  {
    if ms != [] {
      NamesAreCalls(ms[..|ms| - 1]);
      NamesAppend(map[], CallsOf(ms[..|ms| - 1]), ms[|ms| - 1].toolCalls);
    }
  }

  lemma {:induction false} NamesAppend(names: map<string, string>, a: seq<ToolCall>, b: seq<ToolCall>)
    ensures NamesOf(names, a + b) == NamesOf(NamesOf(names, a), b)
  {
    if b == [] {
      assert a + b == a;
    } else {
      assert (a + b)[..|a + b| - 1] == a + b[..|b| - 1];
      NamesAppend(names, a, b[..|b| - 1]);
    }
  }

  lemma {:induction false} NamesOfKeys(calls: seq<ToolCall>)
    ensures forall id :: id in NamesOf(map[], calls) <==> id in CallIDs(calls)
  {
    if calls != [] {
      var n := |calls| - 1;
      NamesOfKeys(calls[..n]);
      assert CallIDs(calls) == CallIDs(calls[..n]) + [calls[n].id];
    }
  }

  lemma {:induction false} NamesOfDistinct(calls: seq<ToolCall>)
    requires Distinct(CallIDs(calls))
    ensures forall i | 0 <= i < |calls| ::
              calls[i].id in NamesOf(map[], calls) && NamesOf(map[], calls)[calls[i].id] == calls[i].name
    ensures NamesOf(map[], calls).Keys == Elements(CallIDs(calls))
  {
    NamesOfKeys(calls);
    if calls != [] {
      var n, ids := |calls| - 1, CallIDs(calls);
      DistinctFront(calls);
      NamesOfDistinct(calls[..n]);
      forall i | 0 <= i < n ensures calls[i].id != calls[n].id { assert ids[i] != ids[n]; }
    }
  }

  lemma DistinctFront(calls: seq<ToolCall>)
    requires calls != [] && Distinct(CallIDs(calls))
    ensures Distinct(CallIDs(calls[..|calls| - 1]))
  {
    var ids, front := CallIDs(calls), CallIDs(calls[..|calls| - 1]);
    forall i, j | 0 <= i < j < |front| ensures front[i] != front[j] {
      assert ids[i] != ids[j];
    }
  }

  // Calls are made only outside tool answers, as the checks per message demand.
  predicate PlainAnswers(ms: seq<Message>) {
    forall i | 0 <= i < |ms| :: ms[i].Answers() ==> ms[i].toolCalls == []
  }

  lemma {:induction false} CallsAppend(a: seq<Message>, b: seq<Message>)
    ensures CallsOf(a + b) == CallsOf(a) + CallsOf(b)
  {
    if b == [] {
      assert a + b == a && CallsOf(a) + [] == CallsOf(a);
    } else {
      assert (a + b)[..|a + b| - 1] == a + b[..|b| - 1];
      CallsAppend(a, b[..|b| - 1]);
    }
  }

  lemma {:induction false} PlainCalls(ms: seq<Message>)
    requires forall i | 0 <= i < |ms| :: ms[i].toolCalls == []
    ensures CallsOf(ms) == []
  {
    if ms != [] { PlainCalls(ms[..|ms| - 1]); }
  }

  lemma BlockCalls(b: Block)
    requires forall i | 0 <= i < |b.answers| :: b.answers[i].toolCalls == []
    ensures CallsOf([b.head] + b.answers) == b.head.toolCalls
  {
    CallsAppend([b.head], b.answers);
    PlainCalls(b.answers);
    assert [b.head][..0] == [] && CallsOf([]) == [];
    assert CallsOf([b.head]) == b.head.toolCalls;
  }

  lemma {:induction false} BlocksCalls(blocks: seq<Block>)
    requires PlainAnswers(Flatten(blocks)) && forall i | 0 <= i < |blocks| :: blocks[i].Proper()
    ensures CallIDs(CallsOf(Flatten(blocks))) == AllIDs(blocks)
  {
    if blocks != [] {
      var b := blocks[0];
      var first, rest := [b.head] + b.answers, Flatten(blocks[1..]);
      assert Flatten(blocks) == first + rest;
      PlainParts(first, rest);
      PlainParts([b.head], b.answers);
      assert forall i | 0 <= i < |b.answers| :: b.answers[i].toolCalls == [] by {
        assert blocks[0].Proper();
      }
      CallsAppend(first, rest);
      BlockCalls(b);
      BlocksCalls(blocks[1..]);
      IDsAppend(b.head.toolCalls, CallsOf(rest));
    }
  }

  lemma PlainParts(a: seq<Message>, b: seq<Message>)
    requires PlainAnswers(a + b)
    ensures PlainAnswers(a) && PlainAnswers(b)
  {
    forall i | 0 <= i < |a| ensures a[i] == (a + b)[i] {}
    forall i | 0 <= i < |b| ensures b[i] == (a + b)[|a| + i] {}
  }

  lemma IDsAppend(a: seq<ToolCall>, b: seq<ToolCall>)
    ensures CallIDs(a + b) == CallIDs(a) + CallIDs(b)
  {}

  // In an accepted history every answer finds, under its ID, the name of the one call
  // with that ID.
  lemma AnswersAreNamed(ms: seq<Message>)
    requires Validate(ms).Accepted? && PlainAnswers(ms)
    ensures Distinct(CallIDs(CallsOf(ms)))
    ensures forall i | 0 <= i < |CallsOf(ms)| :: var c := CallsOf(ms)[i]; c.id in Names(ms) && Names(ms)[c.id] == c.name
    ensures forall i | 0 <= i < |ms| && ms[i].Answers() :: ms[i].toolCallID in Names(ms)
  {
    var blocks := AcceptedGrammar(ms, {});
    BlocksCalls(blocks);
    NamesAreCalls(ms);
    NamesOfDistinct(CallsOf(ms));
    forall i | 0 <= i < |ms| && ms[i].Answers() ensures ms[i].toolCallID in Elements(AllIDs(blocks)) {
      AnswerHasCall(blocks, i);
    }
  }

  lemma {:induction false} AnswerHasCall(blocks: seq<Block>, i: nat)
    requires forall k | 0 <= k < |blocks| :: blocks[k].Proper()
    requires i < |Flatten(blocks)| && Flatten(blocks)[i].Answers()
    ensures Flatten(blocks)[i].toolCallID in AllIDs(blocks)
  {
    var b := blocks[0];
    assert b.Proper();
    var first := [b.head] + b.answers;
    if i < |first| {
      var id := AnswerIDs(b.answers)[i - 1];
      assert id in multiset(AnswerIDs(b.answers));
      assert id in CallIDs(b.head.toolCalls);
    } else {
      AnswerHasCall(blocks[1..], i - |first|);
    }
  }

  // ---------- Checks per message (validateRequest) ----------

  predicate MessageOk(rt: Runtime, m: Message) {
    && m.role in ["user", "assistant", "system", "developer", "tool"]
    && (m.role == "tool" ==> m.toolCallID != "")
    && (forall i | 0 <= i < |m.toolCalls| :: CallOk(rt, m, m.toolCalls[i]))
  }

  predicate CallOk(rt: Runtime, m: Message, c: ToolCall) {
    m.role == "assistant" && c.kind == "function" && c.id != "" && c.name != "" && rt.valid(c.args)
  }

  lemma MessagesArePlain(rt: Runtime, ms: seq<Message>)
    requires forall i | 0 <= i < |ms| :: MessageOk(rt, ms[i])
    ensures PlainAnswers(ms)
  {
    forall i | 0 <= i < |ms| && ms[i].toolCalls != [] ensures ms[i].role == "assistant" {
      assert CallOk(rt, ms[i], ms[i].toolCalls[0]);
    }
  }
}
