/**
 * The two pieces of Ruby's string library the controller relies on:
 * `String#include?` (the verdict of a test run) and `Array#join`
 * (how a backtrace is laid out in a log).
 */
module Strings {

  /** `sub` occurs in `s` starting at position `i`. */
  ghost predicate OccursAt(s: string, sub: string, i: nat)
  {
    i + |sub| <= |s| && s[i..i + |sub|] == sub
  }

  /** `s.include?(sub)`: scans `s` from the left for an occurrence of `sub`. */
  function Contains(s: string, sub: string): (found: bool)
    decreases |s|
  {
    if |s| < |sub| then false
    else if s[..|sub|] == sub then true
    else Contains(s[1..], sub)
  }

  /** The scan finds `sub` exactly when `sub` occurs somewhere in `s`. */
  lemma {:induction false} ContainsIffOccurs(s: string, sub: string)
    ensures Contains(s, sub) <==> exists i: nat :: OccursAt(s, sub, i)
    decreases |s|
  {
    if |s| < |sub| {
      forall i: nat ensures !OccursAt(s, sub, i) { }
    } else if s[..|sub|] == sub {
      assert OccursAt(s, sub, 0);
    } else {
      ContainsIffOccurs(s[1..], sub);
      if i: nat :| OccursAt(s, sub, i) {
        assert i != 0;
        assert s[1..][i - 1..i - 1 + |sub|] == s[i..i + |sub|];
        assert OccursAt(s[1..], sub, i - 1);
      }
      if j: nat :| OccursAt(s[1..], sub, j) {
        assert s[1..][j..j + |sub|] == s[j + 1..j + 1 + |sub|];
        assert OccursAt(s, sub, j + 1);
      }
    }
  }

  /** An occurrence of `sub` in `s` survives any text put around `s`. */
  lemma ContainsWithin(a: string, s: string, b: string, sub: string)
    requires Contains(s, sub)
    ensures Contains(a + s + b, sub)
  {
    ContainsIffOccurs(s, sub);
    var i: nat :| OccursAt(s, sub, i);
    var t := a + s + b;
    assert t[|a| + i..|a| + i + |sub|] == s[i..i + |sub|];
    assert OccursAt(t, sub, |a| + i);
    ContainsIffOccurs(t, sub);
  }

  /**
   * An occurrence of `sub` in `a + s + b` that neither starts in `a` nor ends
   * in `b` is an occurrence in `s`; any other one lies wholly in a frame or
   * covers a character that touches `s`.
   */
  lemma OccurrenceInFrame(a: string, s: string, b: string, sub: string, i: nat)
    requires OccursAt(a + s + b, sub, i)
    ensures i + |sub| <= |a| ==> OccursAt(a, sub, i)
    ensures i < |a| < i + |sub| ==> a[|a| - 1] in sub
    ensures |a| <= i && i + |sub| <= |a| + |s| ==> OccursAt(s, sub, i - |a|)
    ensures i < |a| + |s| < i + |sub| ==> b[0] in sub
    ensures |a| + |s| <= i ==> OccursAt(b, sub, i - |a| - |s|)
  {
    var t := a + s + b;
    if i + |sub| <= |a| {
      assert a[i..i + |sub|] == t[i..i + |sub|];
    } else if i < |a| {
      assert t[|a| - 1] == sub[|a| - 1 - i];
    }
    if |a| <= i && i + |sub| <= |a| + |s| {
      assert s[i - |a|..i - |a| + |sub|] == t[i..i + |sub|];
    } else if i < |a| + |s| < i + |sub| {
      assert t[|a| + |s|] == sub[|a| + |s| - i];
    } else if |a| + |s| <= i {
      assert b[i - |a| - |s|..i - |a| - |s| + |sub|] == t[i..i + |sub|];
    }
  }

  /** The first character of `sub` is never followed by its second in `s`. */
  ghost predicate PairFree(s: string, sub: string)
    requires |sub| >= 2
  {
    forall i :: 0 <= i < |s| - 1 ==> !(s[i] == sub[0] && s[i + 1] == sub[1])
  }

  /** A text in which `sub` cannot even begin has no occurrence of `sub`. */
  lemma NoLeadingPair(s: string, sub: string)
    requires |sub| >= 2 && PairFree(s, sub)
    ensures !Contains(s, sub)
  {
    forall i: nat ensures !OccursAt(s, sub, i) {
      if i + |sub| <= |s| {
        assert !(s[i] == sub[0] && s[i + 1] == sub[1]);
        assert s[i..i + |sub|][0] == s[i] && s[i..i + |sub|][1] == s[i + 1];
      }
    }
    ContainsIffOccurs(s, sub);
  }

  /**
   * Framing `s` between `a` and `b` neither hides nor creates an occurrence of
   * `sub`, provided `sub` cannot begin inside either frame and the characters
   * that touch `s` cannot be part of `sub`.
   */
  lemma FramedContains(a: string, s: string, b: string, sub: string)
    requires |sub| >= 2
    requires |a| > 0 ==> a[|a| - 1] !in sub
    requires |b| > 0 ==> b[0] !in sub
    requires PairFree(a, sub) && PairFree(b, sub)
    ensures Contains(a + s + b, sub) <==> Contains(s, sub)
  {
    NoLeadingPair(a, sub);
    NoLeadingPair(b, sub);
    if Contains(s, sub) {
      ContainsWithin(a, s, b, sub);
    } else if Contains(a + s + b, sub) {
      ContainsIffOccurs(a + s + b, sub);
      var i: nat :| OccursAt(a + s + b, sub, i);
      OccurrenceInFrame(a, s, b, sub, i);
      ContainsIffOccurs(a, sub);
      ContainsIffOccurs(s, sub);
      ContainsIffOccurs(b, sub);
      assert false;
    }
  }

  /** `parts.join(sep)`: the parts in order with `sep` between neighbours. */
  function Join(parts: seq<string>, sep: string): (joined: string)
  {
    if |parts| == 0 then ""
    else if |parts| == 1 then parts[0]
    else parts[0] + sep + Join(parts[1..], sep)
  }
}
