/** Comparing text, and folding its case. */
module Texts {

  datatype Ordering = Less | Equal | Greater

  function CompareInt(a: int, b: int): Ordering {
    if a < b then Less else if a == b then Equal else Greater
  }

  function Then(first: Ordering, second: Ordering): Ordering {
    if first == Equal then second else first
  }

  /** Dictionary order; on code points it agrees with the order of the UTF-8 bytes. */
  function CompareText(a: string, b: string): Ordering {
    if a == [] && b == [] then Equal
    else if a == [] then Less
    else if b == [] then Greater
    else Then(CompareInt(a[0] as int, b[0] as int), CompareText(a[1..], b[1..]))
  }

  function Flip(o: Ordering): Ordering {
    match o
    case Less => Greater
    case Equal => Equal
    case Greater => Less
  }

  lemma {:induction false} TextOrder(a: string, b: string)
    ensures CompareText(a, b) == Equal <==> a == b
    ensures CompareText(b, a) == Flip(CompareText(a, b))
    decreases |a|
  {
    if a != [] && b != [] {
      TextOrder(a[1..], b[1..]);
      assert a == [a[0]] + a[1..] && b == [b[0]] + b[1..];
    }
  }

  lemma {:induction false} TextTransitive(a: string, b: string, c: string)
    requires CompareText(a, b) != Greater && CompareText(b, c) != Greater
    ensures CompareText(a, c) != Greater
    ensures CompareText(a, c) == Equal ==> CompareText(a, b) == Equal && CompareText(b, c) == Equal
    decreases |a|
  {
    if a != [] && b != [] && c != [] && a[0] == b[0] == c[0] {
      TextTransitive(a[1..], b[1..], c[1..]);
    }
  }

  /** `a` ends where `b` goes on, or has the smaller character at the first place where they differ. */
  ghost predicate DictionaryBefore(a: string, b: string) {
    exists k: nat :: k <= |a| && k <= |b| && a[..k] == b[..k] && DiffersAt(a, b, k)
  }

  predicate DiffersAt(a: string, b: string, k: nat)
    requires k <= |a| && k <= |b|
  {
    k < |b| && (k == |a| || a[k] < b[k])
  }

  lemma {:induction false} TextIsDictionary(a: string, b: string)
    ensures CompareText(a, b) == Less <==> DictionaryBefore(a, b)
    decreases |a|
  {
    if a == [] || b == [] {
      if b != [] {
        assert a[..0] == b[..0] && DiffersAt(a, b, 0);
      }
    } else if a[0] != b[0] {
      assert a[..0] == b[..0];
      assert DiffersAt(a, b, 0) <==> a[0] < b[0];
      assert forall k: nat :: 0 < k <= |a| && k <= |b| ==> a[..k][0] == a[0] && b[..k][0] == b[0];
    } else {
      TextIsDictionary(a[1..], b[1..]);
      if k: nat :| k <= |a[1..]| && k <= |b[1..]| && a[1..][..k] == b[1..][..k] && DiffersAt(a[1..], b[1..], k) {
        assert a[..k + 1] == [a[0]] + a[1..][..k] && b[..k + 1] == [b[0]] + b[1..][..k];
        assert DiffersAt(a, b, k + 1);
      }
      if k: nat :| k <= |a| && k <= |b| && a[..k] == b[..k] && DiffersAt(a, b, k) {
        assert k > 0;
        assert a[1..][..k - 1] == a[..k][1..] && b[1..][..k - 1] == b[..k][1..];
        assert DiffersAt(a[1..], b[1..], k - 1);
      }
    }
  }

  function LowerChar(c: char): char {
    if 'A' <= c <= 'Z' then (c as int - 'A' as int + 'a' as int) as char else c
  }

  function Lower(s: string): (r: string)
    ensures |r| == |s| && forall i :: 0 <= i < |s| ==> r[i] == LowerChar(s[i])
  {
    seq(|s|, i requires 0 <= i < |s| => LowerChar(s[i]))
  }
}
