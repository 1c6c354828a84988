// Strings as the gateway uses them: sequences of Unicode characters. Go measures
// len() in UTF-8 bytes, so sizes are taken with ByteLen; Go's prefix tests on
// valid UTF-8 agree with prefix tests on characters.
module Text {
  import opened Wrappers

  // The number of bytes of the UTF-8 encoding.
  function ByteLen(s: string): nat {
    if s == [] then 0 else ByteLen(s[..|s| - 1]) + Width(s[|s| - 1])
  }

  function Width(c: char): nat {
    var n := c as int;
    if n < 0x80 then 1 else if n < 0x800 then 2 else if n < 0x1_0000 then 3 else 4
  }

  // unicode.IsSpace
  predicate IsSpace(c: char) {
    var n := c as int;
    || 0x09 <= n <= 0x0D || n == 0x20 || n == 0x85 || n == 0xA0 || n == 0x1680
    || 0x2000 <= n <= 0x200A || n == 0x2028 || n == 0x2029 || n == 0x202F || n == 0x205F || n == 0x3000
  }

  // strings.TrimSpace
  function Trim(s: string): string {
    TrimRight(TrimLeft(s))
  }

  function TrimLeft(s: string): string {
    if s != [] && IsSpace(s[0]) then TrimLeft(s[1..]) else s
  }

  function TrimRight(s: string): string {
    if s != [] && IsSpace(s[|s| - 1]) then TrimRight(s[..|s| - 1]) else s
  }

  // Nothing to trim at either end.
  predicate Trimmed(s: string) {
    s != [] ==> !IsSpace(s[0]) && !IsSpace(s[|s| - 1])
  }

  // A single leading space, as the printers write it, is trimmed away.
  lemma TrimSpaced(s: string)
    requires Trimmed(s)
    ensures Trim(" " + s) == s
  {
    assert (" " + s)[1..] == s;
    if s == [] { assert TrimLeft(" " + s) == TrimLeft(s); }
  }

  // strings.Join
  function Join(parts: seq<string>, sep: string): string {
    if parts == [] then "" else if |parts| == 1 then parts[0] else parts[0] + sep + Join(parts[1..], sep)
  }

  // The lower-case image of the characters whose image is an ASCII letter: besides
  // A-Z these are the dotted capital I and the Kelvin sign.
  function Lower(c: char): char {
    if 'A' <= c <= 'Z' then (c as int + 32) as char
    else if c == '\U{0130}' then 'i'
    else if c == '\U{212A}' then 'k'
    else c
  }

  function Letters(s: string): string {
    if s == [] then "" else
      var c := Lower(s[0]);
      (if 'a' <= c <= 'z' then [c] else []) + Letters(s[1..])
  }

  function NormalizeEvent(s: string): string {
    var v := Letters(s);
    if v == "responsedone" || v == "streamdone" then "done" else v
  }

  // strings.Index
  function IndexOf(s: string, sub: string): (at: Option<nat>)
    ensures at.Some? ==> OccursAt(s, sub, at.value)
    ensures at.Some? ==> forall k: nat | k < at.value :: !OccursAt(s, sub, k)
    ensures at.None? ==> forall k: nat :: !OccursAt(s, sub, k)
  {
    IndexFrom(s, sub, 0)
  }

  function IndexFrom(s: string, sub: string, from: nat): (at: Option<nat>)
    requires from <= |s| + 1
    ensures at.Some? ==> from <= at.value && OccursAt(s, sub, at.value)
    ensures at.Some? ==> forall k: nat | from <= k < at.value :: !OccursAt(s, sub, k)
    ensures at.None? ==> forall k: nat | from <= k :: !OccursAt(s, sub, k)
    decreases |s| + 1 - from
  {
    if from + |sub| > |s| then None
    else if OccursAt(s, sub, from) then Some(from)
    else IndexFrom(s, sub, from + 1)
  }

  predicate OccursAt(s: string, sub: string, k: nat) {
    k + |sub| <= |s| && s[k..k + |sub|] == sub
  }

  // The text to keep and the part of it that is new: cumulative snapshots extend,
  // repeated or older snapshots are absorbed, anything else is a fragment.
  function MergeSnapshot(kept: string, next: string): (r: (string, string))
    ensures r.0 == kept + r.1
  {
    if next == "" || next <= kept then (kept, "")
    else if kept <= next then
      assert next == kept + next[|kept|..];
      (next, next[|kept|..])
    else (kept + next, next)
  }

  // Snapshots of one growing text: whichever comes first, the longer one stays.
  lemma MergeKeepsLongest(whole: string, m: nat, n: nat)
    requires m <= |whole| && n <= |whole|
    ensures MergeSnapshot(whole[..m], whole[..n]).0 == whole[..if m < n then n else m]
  {
    if n <= m {
      assert whole[..m][..n] == whole[..n];
    } else {
      assert whole[..n][..m] == whole[..m];
    }
  }
}
