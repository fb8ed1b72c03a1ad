/** Keeping the elements of a list that pass a check, in order. */
module Filters {

  function Filter<T>(s: seq<T>, pass: T -> bool): (r: seq<T>)
    ensures |r| <= |s|
  {
    if s == [] then []
    else if pass(s[0]) then [s[0]] + Filter(s[1..], pass)
    else Filter(s[1..], pass)
  }

  lemma {:induction false} FilterHas<T>(s: seq<T>, pass: T -> bool, x: T)
    ensures x in Filter(s, pass) <==> x in s && pass(x)
  {
    if s == [] {
    } else {
      FilterHas(s[1..], pass, x);
      assert x in s <==> x == s[0] || x in s[1..];
    }
  }

  lemma FilterOfCons<T>(x: T, s: seq<T>, pass: T -> bool)
    ensures Filter([x] + s, pass) == (if pass(x) then [x] else []) + Filter(s, pass)
  {
    assert ([x] + s)[1..] == s;
  }

  /** Two filters in a row are one, and so can be swapped. */
  lemma {:induction false} FilterTwice<T(!new)>(s: seq<T>, p: T -> bool, q: T -> bool, both: T -> bool)
    requires forall x :: both(x) <==> p(x) && q(x)
    ensures Filter(Filter(s, p), q) == Filter(s, both)
  {
    if s == [] {
    } else {
      FilterTwice(s[1..], p, q, both);
      if p(s[0]) {
        FilterOfCons(s[0], Filter(s[1..], p), q);
      }
    }
  }

  lemma FilterCommutes<T(!new)>(s: seq<T>, p: T -> bool, q: T -> bool)
    ensures Filter(Filter(s, p), q) == Filter(Filter(s, q), p)
  {
    FilterTwice(s, p, q, x => p(x) && q(x));
    FilterTwice(s, q, p, x => p(x) && q(x));
  }

  lemma {:induction false} FilterAll<T>(s: seq<T>, pass: T -> bool)
    requires forall x :: x in s ==> pass(x)
    ensures Filter(s, pass) == s
  {
    if s == [] {
    } else {
      FilterAll(s[1..], pass);
      assert s == [s[0]] + s[1..];
    }
  }

  lemma {:induction false} FilterNone<T>(s: seq<T>, pass: T -> bool)
    requires forall x :: x in s ==> !pass(x)
    ensures Filter(s, pass) == []
  {
    if s == [] {
    } else {
      FilterNone(s[1..], pass);
    }
  }
}
