/** Cutting sequences into chunks and sorting them by a text key. */
module Sequences {
  import opened Texts

  // ----- concatenation and chunks

  function Concat<T>(parts: seq<seq<T>>): seq<T> {
    if parts == [] then [] else parts[0] + Concat(parts[1..])
  }

  lemma {:induction false} ConcatSnoc<T>(parts: seq<seq<T>>, part: seq<T>)
    ensures Concat(parts + [part]) == Concat(parts) + part
    decreases |parts|
  {
    if parts == [] {
      assert parts + [part] == [part];
      assert Concat([part]) == part + Concat<T>([]);
    } else {
      ConcatSnoc(parts[1..], part);
      assert (parts + [part])[1..] == parts[1..] + [part];
    }
  }

  /** Consecutive pieces of a fixed size; only the last may be shorter. */
  function Chunks<T>(s: seq<T>, size: nat): (r: seq<seq<T>>)
    requires size > 0
    ensures Concat(r) == s
    ensures forall i :: 0 <= i < |r| ==> 0 < |r[i]| <= size
    ensures forall i :: 0 <= i < |r| - 1 ==> |r[i]| == size
  {
    if s == [] then []
    else if |s| <= size then
      assert Concat([s]) == s + Concat<T>([]);
      [s]
    else
      var rest := Chunks(s[size..], size);
      var r := [s[..size]] + rest;
      assert r[1..] == rest;
      r
  }

  // ----- sorting

  predicate NotAfter(a: string, b: string) {
    CompareText(a, b) != Greater
  }

  ghost predicate SortedBy<T>(key: T -> string, s: seq<T>) {
    forall i, j :: 0 <= i < j < |s| ==> NotAfter(key(s[i]), key(s[j]))
  }

  lemma NotAfterIsTotal(a: string, b: string, c: string)
    ensures NotAfter(a, b) || NotAfter(b, a)
    ensures NotAfter(a, b) && NotAfter(b, a) ==> a == b
    ensures NotAfter(a, b) && NotAfter(b, c) ==> NotAfter(a, c)
  {
    hide CompareText;
    TextOrder(a, b);
    if NotAfter(a, b) && NotAfter(b, c) {
      TextTransitive(a, b, c);
    }
  }

  /** Sorted means ascending: equal keys, or the earlier one before the later one in the dictionary. */
  lemma SortedIsAscending<T>(key: T -> string, s: seq<T>, i: nat, j: nat)
    requires SortedBy(key, s) && i < j < |s|
    ensures key(s[i]) == key(s[j]) || DictionaryBefore(key(s[i]), key(s[j]))
  {
    hide CompareText, DictionaryBefore;
    assert NotAfter(key(s[i]), key(s[j]));
    TextOrder(key(s[i]), key(s[j]));
    TextIsDictionary(key(s[i]), key(s[j]));
  }

  function Insert<T>(key: T -> string, x: T, s: seq<T>): (r: seq<T>)
    ensures multiset(r) == multiset([x]) + multiset(s)
  {
    if s == [] then [x]
    else if NotAfter(key(x), key(s[0])) then
      [x] + s
    else
      assert s == [s[0]] + s[1..];
      [s[0]] + Insert(key, x, s[1..])
  }

  /** A stable sort. */
  function Sort<T>(key: T -> string, s: seq<T>): (r: seq<T>)
    ensures multiset(r) == multiset(s)
  {
    if s == [] then []
    else
      assert s == [s[0]] + s[1..];
      Insert(key, s[0], Sort(key, s[1..]))
  }

  lemma {:induction false} InsertKeepsSorted<T>(key: T -> string, x: T, s: seq<T>)
    requires SortedBy(key, s)
    ensures SortedBy(key, Insert(key, x, s))
    decreases |s|
  {
    hide NotAfter;
    if s != [] {
      NotAfterIsTotal(key(x), key(s[0]), key(s[0]));
      if NotAfter(key(x), key(s[0])) {
        forall i | 0 <= i < |s| ensures NotAfter(key(x), key(s[i])) {
          NotAfterIsTotal(key(x), key(s[0]), key(s[i]));
        }
      } else {
        var rest := Insert(key, x, s[1..]);
        InsertKeepsSorted(key, x, s[1..]);
        forall i | 0 <= i < |rest| ensures NotAfter(key(s[0]), key(rest[i])) {
          assert rest[i] in multiset(rest);
          assert rest[i] == x || rest[i] in s[1..];
        }
      }
    }
  }

  lemma {:induction false} SortSorts<T>(key: T -> string, s: seq<T>)
    ensures SortedBy(key, Sort(key, s))
    decreases |s|
  {
    if s != [] {
      SortSorts(key, s[1..]);
      InsertKeepsSorted(key, s[0], Sort(key, s[1..]));
    }
  }

  /** Members with the same key are the same. */
  ghost predicate KeyTells<T>(key: T -> string, s: seq<T>) {
    forall i, j :: 0 <= i < |s| && 0 <= j < |s| && key(s[i]) == key(s[j]) ==> s[i] == s[j]
  }

  /** A sorted sequence is determined by its members once keys tell them apart. */
  lemma {:induction false} SortedIsUnique<T>(key: T -> string, a: seq<T>, b: seq<T>)
    requires multiset(a) == multiset(b) && KeyTells(key, a) && SortedBy(key, a) && SortedBy(key, b)
    ensures a == b
    decreases |a|
  {
    hide SortedBy, KeyTells;
    assert |a| == |multiset(a)| == |multiset(b)| == |b|;
    if |a| > 0 {
      SameHead(key, a, b);
      TailMembers(a);
      TailMembers(b);
      TailStaysSorted(key, a);
      TailStaysSorted(key, b);
      TailStaysTold(key, a);
      SortedIsUnique(key, a[1..], b[1..]);
      assert a == [a[0]] + a[1..] && b == [b[0]] + b[1..];
    }
  }

  lemma TailMembers<T>(s: seq<T>)
    requires s != []
    ensures multiset(s[1..]) == multiset(s) - multiset([s[0]])
  {
    assert s == [s[0]] + s[1..];
  }

  lemma TailStaysSorted<T>(key: T -> string, s: seq<T>)
    requires s != [] && SortedBy(key, s)
    ensures SortedBy(key, s[1..])
  {
    hide NotAfter;
  }

  lemma TailStaysTold<T>(key: T -> string, s: seq<T>)
    requires s != [] && KeyTells(key, s)
    ensures KeyTells(key, s[1..])
  {
  }

  lemma SameHead<T>(key: T -> string, a: seq<T>, b: seq<T>)
    requires a != [] && b != []
    requires multiset(a) == multiset(b) && KeyTells(key, a) && SortedBy(key, a) && SortedBy(key, b)
    ensures a[0] == b[0]
  {
    hide NotAfter;
    assert a[0] in multiset(b) && b[0] in multiset(a);
    var i :| 0 <= i < |b| && b[i] == a[0];
    var j :| 0 <= j < |a| && a[j] == b[0];
    NotAfterIsTotal(key(a[0]), key(b[0]), key(a[0]));
    NotAfterIsTotal(key(a[0]), key(a[0]), key(a[0]));
  }

  /** Sorting forgets the order of arrival. */
  lemma SortForgetsOrder<T>(key: T -> string, a: seq<T>, b: seq<T>)
    requires multiset(a) == multiset(b) && KeyTells(key, a)
    ensures Sort(key, a) == Sort(key, b)
  {
    SortSorts(key, a);
    SortSorts(key, b);
    forall i, j | 0 <= i < |Sort(key, a)| && 0 <= j < |Sort(key, a)| && key(Sort(key, a)[i]) == key(Sort(key, a)[j])
      ensures Sort(key, a)[i] == Sort(key, a)[j]
    {
      var x, y := Sort(key, a)[i], Sort(key, a)[j];
      assert x in multiset(Sort(key, a)) && y in multiset(Sort(key, a));
      assert x in a && y in a;
    }
    SortedIsUnique(key, Sort(key, a), Sort(key, b));
  }
}
