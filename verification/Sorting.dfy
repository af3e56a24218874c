/** A stable sort by a numeric key. */
module Sorting {
  import opened Text

  function InsertBy<T>(f: T -> nat, x: T, s: seq<T>): (r: seq<T>)
    ensures |r| == |s| + 1
  {
    if s == [] || f(x) <= f(s[0]) then [x] + s else [s[0]] + InsertBy(f, x, s[1..])
  }

  function SortBy<T>(f: T -> nat, s: seq<T>): (r: seq<T>)
    ensures |r| == |s|
  {
    if s == [] then [] else InsertBy(f, s[0], SortBy(f, s[1..]))
  }

  ghost predicate AscendingBy<T>(f: T -> nat, s: seq<T>) {
    forall i, j :: 0 <= i <= j < |s| ==> f(s[i]) <= f(s[j])
  }

  lemma {:induction false} InsertKeeps<T>(f: T -> nat, x: T, s: seq<T>)
    ensures multiset(InsertBy(f, x, s)) == multiset(s) + multiset{x}
  {
    if s != [] {
      InsertKeeps(f, x, s[1..]);
      assert s == [s[0]] + s[1..];
    }
  }

  lemma AscendingCons<T>(f: T -> nat, x: T, s: seq<T>)
    requires AscendingBy(f, s) && (s == [] || f(x) <= f(s[0]))
    ensures AscendingBy(f, [x] + s)
  {
  }

  lemma InsertFirst<T>(f: T -> nat, x: T, s: seq<T>)
    ensures var r := InsertBy(f, x, s); r != [] && (r[0] == x || (s != [] && r[0] == s[0]))
  {
  }

  lemma {:induction false} InsertOrders<T>(f: T -> nat, x: T, s: seq<T>)
    requires AscendingBy(f, s)
    ensures AscendingBy(f, InsertBy(f, x, s))
  {
    if s == [] || f(x) <= f(s[0]) {
      AscendingCons(f, x, s);
    } else {
      InsertOrders(f, x, s[1..]);
      InsertFirst(f, x, s[1..]);
      AscendingCons(f, s[0], InsertBy(f, x, s[1..]));
    }
  }

  /** The same elements, in ascending order. */
  lemma {:induction false} SortOrders<T>(f: T -> nat, s: seq<T>)
    ensures AscendingBy(f, SortBy(f, s))
    ensures multiset(SortBy(f, s)) == multiset(s)
  {
    if s != [] {
      SortOrders(f, s[1..]);
      InsertOrders(f, s[0], SortBy(f, s[1..]));
      InsertKeeps(f, s[0], SortBy(f, s[1..]));
      assert s == [s[0]] + s[1..];
    }
  }
}
