// The estimate of token counts (http.go): one per word run, Han character or
// punctuation mark.
module TokenEstimate {
  import opened Text

  // unicode.Han and unicode.IsPunct.
  datatype Alphabet = Alphabet(han: char -> bool, punct: char -> bool) {
    // Characters that count by themselves.
    predicate Alone(c: char) { !IsSpace(c) && (han(c) || punct(c)) }

    predicate InWord(c: char) { !IsSpace(c) && !Alone(c) }
  }

  predicate StartsInWord(al: Alphabet, s: string) { s != [] && al.InWord(s[0]) }

  predicate EndsInWord(al: Alphabet, s: string) { s != [] && al.InWord(s[|s| - 1]) }

  // A token starts at position i.
  predicate Counted(al: Alphabet, s: string, i: nat)
    requires i < |s|
  {
    al.Alone(s[i]) || (al.InWord(s[i]) && (i == 0 || !al.InWord(s[i - 1])))
  }

  function Estimate(al: Alphabet, s: string): nat {
    if s == [] then 0 else Estimate(al, s[..|s| - 1]) + (if Counted(al, s, |s| - 1) then 1 else 0)
  }

  method EstimateTokens(al: Alphabet, text: string) returns (count: nat)
    ensures count == Estimate(al, text)
  {
    count := 0;
    var word := false;
    for i := 0 to |text|
      invariant count == Estimate(al, text[..i]) && word == EndsInWord(al, text[..i])
    {
      var r := text[i];
      assert text[..i + 1][..i] == text[..i];
      if IsSpace(r) {
        word := false;
      } else if al.han(r) || al.punct(r) {
        count := count + 1;
        word := false;
      } else if !word {
        count := count + 1;
        word := true;
      }
    }
    assert text[..|text|] == text;
  }

  // Exactly the positions where a token starts are counted.
  lemma {:induction false} CountsStarts(al: Alphabet, s: string)
    ensures Estimate(al, s) == |set i: nat | i < |s| && Counted(al, s, i)|
  {
    var starts := set i: nat | i < |s| && Counted(al, s, i);
    if s == [] {
      assert starts == {};
    } else {
      var n := |s| - 1;
      var init := s[..n];
      CountsStarts(al, init);
      var before := set i: nat | i < n && Counted(al, init, i);
      assert forall i: nat | i < n :: Counted(al, s, i) <==> Counted(al, init, i);
      assert starts == before + (if Counted(al, s, n) then {n} else {});
    }
  }

  // Joining two texts loses one token exactly when a word runs across the join.
  lemma {:induction false} EstimateJoin(al: Alphabet, a: string, b: string)
    ensures Estimate(al, a + b) ==
            Estimate(al, a) + Estimate(al, b) - (if EndsInWord(al, a) && StartsInWord(al, b) then 1 else 0)
  {
    if b == [] {
      assert a + b == a;
    } else {
      var init := b[..|b| - 1];
      EstimateJoin(al, a, init);
      assert (a + b)[..|a + b| - 1] == a + init;
      if init == [] { assert a + init == a; }
    }
  }

  lemma {:induction false} EstimateBounded(al: Alphabet, s: string)
    ensures Estimate(al, s) <= |s|
    ensures Estimate(al, s) == 0 <==> forall i | 0 <= i < |s| :: IsSpace(s[i])
  {
    if s != [] {
      EstimateBounded(al, s[..|s| - 1]);
      if Estimate(al, s) == 0 {
        assert forall i | 0 <= i < |s| - 1 :: s[i] == s[..|s| - 1][i];
        if |s| > 1 { assert IsSpace(s[..|s| - 1][|s| - 2]); }
      }
    }
  }
}
