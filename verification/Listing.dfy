/** Sets of step indexes in ascending order, as the store lists them. */
module Listing {
  import opened Common

  lemma NonEmpty(s: set<int>)
    requires s != {}
    ensures exists x :: x in s
  {
    assert (forall x :: x !in s) ==> s == {};
  }

  ghost function Min(s: set<int>): (m: int)
    requires s != {}
    ensures m in s && forall x :: x in s ==> m <= x
  {
    NonEmpty(s);
    var x :| x in s;
    if s == {x} then x
    else
      var rest := s - {x};
      assert s == rest + {x};
      assert forall y :: y in s ==> y == x || y in rest;
      var m := Min(rest);
      if x <= m then x else m
  }

  ghost function Ascending(s: set<int>): seq<int> {
    if s == {} then [] else [Min(s)] + Ascending(s - {Min(s)})
  }

  lemma Prepended(s: set<int>, m: int, rest: seq<int>)
    requires m in s && (forall x :: x in s ==> m <= x) && |rest| == |s| - 1 && (forall x :: x in rest <==> x in s && x != m)
    requires forall i, j :: 0 <= i < j < |rest| ==> rest[i] < rest[j]
    ensures var all := [m] + rest;
      && |all| == |s| && (forall x :: x in all <==> x in s) && (forall i, j :: 0 <= i < j < |all| ==> all[i] < all[j])
  {
    forall j | 0 <= j < |rest| ensures m < rest[j] {
      assert rest[j] in rest;
    }
  }

  lemma {:induction false} AscendingIsSorted(s: set<int>)
    ensures |Ascending(s)| == |s| && forall x :: x in Ascending(s) <==> x in s
    ensures forall i, j :: 0 <= i < j < |Ascending(s)| ==> Ascending(s)[i] < Ascending(s)[j]
  {
    if s != {} {
      var m, rest := Min(s), Ascending(s - {Min(s)});
      AscendingIsSorted(s - {m});
      assert Ascending(s) == [m] + rest;
      hide Ascending, Min;
      Prepended(s, m, rest);
    }
  }

  /** The first limit elements; all of them when the limit is not positive. */
  function Truncated<T>(s: seq<T>, limit: int): seq<T> {
    if limit > 0 && |s| > limit then s[..limit] else s
  }

  /** Collecting a map's matching indexes and sorting them, smallest first. */
  method Sort(s: set<int>) returns (out: seq<int>)
    ensures out == Ascending(s)
  {
    out := [];
    var rest := s;
    while rest != {}
      invariant out + Ascending(rest) == Ascending(s)
      decreases rest
    {
      ghost var low := Min(rest);
      var m :| m in rest && forall x :: x in rest ==> m <= x;
      assert m == low;
      out := out + [m];
      rest := rest - {m};
    }
  }

  /** The elements of a set in some order. */
  method Enumerate<T(==,!new)>(s: set<T>) returns (out: seq<T>)
    ensures NoDup(out) && |out| == |s| && forall x :: x in out <==> x in s
  {
    out := [];
    var rest := s;
    while rest != {}
      invariant rest <= s && |out| + |rest| == |s| && NoDup(out) && forall x :: x in out <==> x in s && x !in rest
      decreases rest
    {
      var x :| x in rest;
      out := out + [x];
      rest := rest - {x};
    }
  }
}
