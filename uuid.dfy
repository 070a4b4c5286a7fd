/**
 * `makeUuid`: the platform generator's output with every brace removed. The
 * generator itself is not modelled; its output is the input `raw`.
 */
module Uuid {

  predicate IsBrace(c: char) {
    c == '{' || c == '}'
  }

  predicate BraceFree(s: string) {
    forall i :: 0 <= i < |s| ==> !IsBrace(s[i])
  }

  /** `s.replace(/c/g, "")`: every occurrence of `c` removed. */
  function RemoveAll(s: string, c: char): (r: string)
    ensures c !in r
    ensures forall x :: x in r ==> x in s
    ensures |r| <= |s|
  {
    if s == [] then []
    else (if s[0] == c then [] else [s[0]]) + RemoveAll(s[1..], c)
  }

  /** The generator's output with `{` removed, then `}` removed. */
  function MakeUuid(raw: string): (id: string)
    ensures BraceFree(id)
    ensures |id| <= |raw|
  {
    var id := RemoveAll(RemoveAll(raw, '{'), '}');
    assert forall i :: 0 <= i < |id| ==> id[i] in id;
    id
  }

  /** Reference definition: the characters of `s` that are not braces, in their original order. */
  function NonBraces(s: string): string {
    if s == [] then []
    else (if IsBrace(s[0]) then [] else [s[0]]) + NonBraces(s[1..])
  }

  /** Removing every character `c` from a string that starts with `x`. */
  lemma RemoveAllCons(x: char, t: string, c: char)
    ensures RemoveAll([x] + t, c) == (if x == c then [] else [x]) + RemoveAll(t, c)
  {
  }

  /** The two passes of `makeUuid` keep exactly the non-brace characters, in order. */
  lemma {:induction false} MakeUuidKeepsNonBracesInOrder(raw: string)
    ensures MakeUuid(raw) == NonBraces(raw)
  {
    if raw != [] {
      var x, t := raw[0], raw[1..];
      assert raw == [x] + t;
      var u := RemoveAll(t, '{');
      var keep := if IsBrace(x) then [] else [x];
      MakeUuidKeepsNonBracesInOrder(t);
      RemoveAllCons(x, t, '{');
      if x == '{' {
        assert RemoveAll(raw, '{') == u;
      } else {
        assert RemoveAll(raw, '{') == [x] + u;
        RemoveAllCons(x, u, '}');
      }
      assert MakeUuid(raw) == keep + MakeUuid(t);
      assert NonBraces(raw) == keep + NonBraces(t);
    }
  }

  /** Every non-brace character of the input survives into the reference filter. */
  lemma {:induction false} NonBracesKeeps(s: string, k: nat)
    requires k < |s| && !IsBrace(s[k])
    ensures s[k] in NonBraces(s)
  {
    if k > 0 {
      NonBracesKeeps(s[1..], k - 1);
    }
  }

  /** A brace-free string is its own filter. */
  lemma {:induction false} NonBracesOfBraceFree(s: string)
    requires BraceFree(s)
    ensures NonBraces(s) == s
  {
    if s != [] {
      NonBracesOfBraceFree(s[1..]);
    }
  }

  /** `makeUuid` leaves a brace-free string unchanged, so applying it twice changes nothing more. */
  lemma MakeUuidIdempotent(raw: string)
    ensures BraceFree(raw) ==> MakeUuid(raw) == raw
    ensures MakeUuid(MakeUuid(raw)) == MakeUuid(raw)
  {
    MakeUuidKeepsNonBracesInOrder(raw);
    MakeUuidKeepsNonBracesInOrder(MakeUuid(raw));
    NonBracesOfBraceFree(MakeUuid(raw));
    if BraceFree(raw) {
      NonBracesOfBraceFree(raw);
    }
  }

  /** Some character of `s` is not a brace (true of every generator output in practice). */
  predicate HasNonBrace(s: string) {
    exists k :: 0 <= k < |s| && !IsBrace(s[k])
  }

  /** A generator output with a non-brace character gives a non-empty id. */
  lemma MakeUuidNonEmpty(raw: string)
    requires HasNonBrace(raw)
    ensures MakeUuid(raw) != []
  {
    var k :| 0 <= k < |raw| && !IsBrace(raw[k]);
    NonBracesKeeps(raw, k);
    MakeUuidKeepsNonBracesInOrder(raw);
  }
}
