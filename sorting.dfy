/**
 * Python's `sorted(…, key=…, reverse=…)` on string keys, as the advanced script's
 * HTML page uses it: the date keys ascending, and the emails of one date by their
 * raw date header descending. Like Python's, the insertion keeps equal keys in
 * input order in both directions (an element goes after every element whose key
 * it does not strictly precede), but only order and permutation are proved here.
 */
module Sorting {
  import opened Text

  /** `a` goes strictly before `b`: a smaller key ascending, a larger key descending. */
  predicate Precedes(a: string, b: string, descending: bool) {
    if descending then StrLess(b, a) else StrLess(a, b)
  }

  predicate SortedBy<T>(s: seq<T>, key: T -> string, descending: bool) {
    forall i, j | 0 <= i < j < |s| :: !Precedes(key(s[j]), key(s[i]), descending)
  }

  function Insert<T>(x: T, s: seq<T>, key: T -> string, descending: bool): seq<T> {
    if s == [] then [x]
    else if Precedes(key(x), key(s[0]), descending) then [x] + s
    else [s[0]] + Insert(x, s[1..], key, descending)
  }

  function SortBy<T>(s: seq<T>, key: T -> string, descending: bool): seq<T> {
    if s == [] then []
    else Insert(s[|s| - 1], SortBy(s[..|s| - 1], key, descending), key, descending)
  }

  lemma PrecedesTransitive(a: string, b: string, c: string, descending: bool)
    requires Precedes(a, b, descending) && Precedes(b, c, descending)
    ensures Precedes(a, c, descending)
  {
    if descending {
      StrLessTransitive(c, b, a);
    } else {
      StrLessTransitive(a, b, c);
    }
  }

  /** Insertion adds exactly one element. */
  lemma {:induction false} InsertAddsOne<T>(x: T, s: seq<T>, key: T -> string, descending: bool)
    ensures multiset(Insert(x, s, key, descending)) == multiset(s) + multiset{x}
  {
    if s != [] && !Precedes(key(x), key(s[0]), descending) {
      InsertAddsOne(x, s[1..], key, descending);
      assert s == [s[0]] + s[1..];
    }
  }

  /** An element no later element precedes can head a sorted list. */
  lemma ConsSorted<T>(h: T, t: seq<T>, key: T -> string, descending: bool)
    requires SortedBy(t, key, descending)
    requires forall j | 0 <= j < |t| :: !Precedes(key(t[j]), key(h), descending)
    ensures SortedBy([h] + t, key, descending)
  {
    var r := [h] + t;
    forall i, j | 0 <= i < j < |r| ensures !Precedes(key(r[j]), key(r[i]), descending) {
      if i == 0 {
        assert r[j] == t[j - 1];
      } else {
        assert r[i] == t[i - 1] && r[j] == t[j - 1];
      }
    }
  }

  lemma {:induction false} InsertKeepsOrder<T>(x: T, s: seq<T>, key: T -> string, descending: bool)
    requires SortedBy(s, key, descending)
    ensures SortedBy(Insert(x, s, key, descending), key, descending)
    ensures multiset(Insert(x, s, key, descending)) == multiset(s) + multiset{x}
  {
    InsertAddsOne(x, s, key, descending);
    if s == [] {
    } else if Precedes(key(x), key(s[0]), descending) {
      forall j | 0 <= j < |s| ensures !Precedes(key(s[j]), key(x), descending) {
        if Precedes(key(s[j]), key(x), descending) {
          PrecedesTransitive(key(s[j]), key(x), key(s[0]), descending);
          if j == 0 {
            StrLessIrreflexive(key(s[0]));
          }
          assert false;
        }
      }
      ConsSorted(x, s, key, descending);
    } else {
      var tail := Insert(x, s[1..], key, descending);
      InsertKeepsOrder(x, s[1..], key, descending);
      forall j | 0 <= j < |tail| ensures !Precedes(key(tail[j]), key(s[0]), descending) {
        assert tail[j] in multiset(tail);
        if tail[j] != x {
          assert tail[j] in multiset(s[1..]);
          var k :| 0 <= k < |s[1..]| && s[1..][k] == tail[j];
          assert s[k + 1] == tail[j];
        }
      }
      ConsSorted(s[0], tail, key, descending);
    }
  }

  /** The result is sorted by key in the chosen direction and holds exactly the input's elements. */
  lemma {:induction false} SortBySortsAndPermutes<T>(s: seq<T>, key: T -> string, descending: bool)
    ensures SortedBy(SortBy(s, key, descending), key, descending)
    ensures multiset(SortBy(s, key, descending)) == multiset(s)
  {
    if s != [] {
      var init := s[..|s| - 1];
      SortBySortsAndPermutes(init, key, descending);
      InsertKeepsOrder(s[|s| - 1], SortBy(init, key, descending), key, descending);
      assert s == init + [s[|s| - 1]];
    }
  }
}
