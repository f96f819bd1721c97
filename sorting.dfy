/** Rust's stable `sort_by` on a string key, ascending or descending, as a stable
    insertion sort: equal keys keep their input order, which fixes the output uniquely. */
module Sorting {
  import opened Strings

  /** `a` may stand before `b` in the requested order. */
  predicate Before(a: string, b: string, descending: bool) {
    if descending then LexLe(b, a) else LexLe(a, b)
  }

  predicate SortedBy<T>(s: seq<T>, key: T -> string, descending: bool) {
    forall i, j :: 0 <= i < j < |s| ==> Before(key(s[i]), key(s[j]), descending)
  }

  lemma BeforeTotal(a: string, b: string, descending: bool)
    ensures Before(a, b, descending) || Before(b, a, descending)
  {
    LexLeTotal(a, b);
  }

  lemma BeforeTrans(a: string, b: string, c: string, descending: bool)
    requires Before(a, b, descending) && Before(b, c, descending)
    ensures Before(a, c, descending)
  {
    if descending { LexLeTrans(c, b, a); } else { LexLeTrans(a, b, c); }
  }

  /** Place `x` after every element that may stand before it, so it follows equal keys. */
  function Insert<T>(x: T, s: seq<T>, key: T -> string, descending: bool): (r: seq<T>)
    ensures multiset(r) == multiset(s) + multiset{x}
    ensures |r| == |s| + 1
  {
    if s == [] then [x]
    else if Before(key(s[0]), key(x), descending) then
      assert s == [s[0]] + s[1..];
      [s[0]] + Insert(x, s[1..], key, descending)
    else [x] + s
  }

  lemma {:induction false} InsertSorted<T>(x: T, s: seq<T>, key: T -> string, descending: bool)
    requires SortedBy(s, key, descending)
    ensures SortedBy(Insert(x, s, key, descending), key, descending)
  {
    if s == [] {
    } else if Before(key(s[0]), key(x), descending) {
      InsertSorted(x, s[1..], key, descending);
      var t := Insert(x, s[1..], key, descending);
      forall j | 0 <= j < |t|
        ensures Before(key(s[0]), key(t[j]), descending)
      {
        InsertMember(x, s[1..], key, descending, j);
        if t[j] != x {
          var k :| 0 <= k < |s[1..]| && s[1..][k] == t[j];
          assert s[k + 1] == t[j];
        }
      }
      SortedCons(s[0], t, key, descending);
    } else {
      var r := [x] + s;
      BeforeTotal(key(s[0]), key(x), descending);
      forall j | 1 <= j < |r|
        ensures Before(key(x), key(r[j]), descending)
      {
        if j > 1 {
          BeforeTrans(key(x), key(s[0]), key(s[j - 1]), descending);
        }
      }
    }
  }

  /** Every element of an insertion result is the inserted one or came from `s`. */
  lemma InsertMember<T>(x: T, s: seq<T>, key: T -> string, descending: bool, j: nat)
    requires j < |Insert(x, s, key, descending)|
    ensures Insert(x, s, key, descending)[j] == x || Insert(x, s, key, descending)[j] in s
  {
    var r := Insert(x, s, key, descending);
    assert r[j] in multiset(r);
  }

  /** A sorted sequence stays sorted under a head that may stand before all of it. */
  lemma SortedCons<T>(h: T, t: seq<T>, key: T -> string, descending: bool)
    requires SortedBy(t, key, descending)
    requires forall j :: 0 <= j < |t| ==> Before(key(h), key(t[j]), descending)
    ensures SortedBy([h] + t, key, descending)
  {
    var r := [h] + t;
    forall i, j | 0 <= i < j < |r|
      ensures Before(key(r[i]), key(r[j]), descending)
    {
      assert r[j] == t[j - 1];
      if i > 0 {
        assert r[i] == t[i - 1];
      }
    }
  }

  /** The stably sorted permutation of `s`. */
  function SortBy<T>(s: seq<T>, key: T -> string, descending: bool): (r: seq<T>)
    ensures multiset(r) == multiset(s)
    ensures |r| == |s|
  {
    if s == [] then []
    else
      var n := |s| - 1;
      assert s == s[..n] + [s[n]];
      Insert(s[n], SortBy(s[..n], key, descending), key, descending)
  }

  lemma {:induction false} SortBySorted<T>(s: seq<T>, key: T -> string, descending: bool)
    ensures SortedBy(SortBy(s, key, descending), key, descending)
  {
    if s != [] {
      var n := |s| - 1;
      SortBySorted(s[..n], key, descending);
      InsertSorted(s[n], SortBy(s[..n], key, descending), key, descending);
    }
  }
}
