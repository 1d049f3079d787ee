/** Small datatypes shared by the models. */
module Common {

  datatype Option<+T> = None | Some(value: T)

  /** Errors of the state store (pkg/state/store.go). */
  datatype Error = Ok | NotFound | Conflict | AlreadyExists

  function Max(a: int, b: int): int { if a > b then a else b }

  function MaxReal(a: real, b: real): real { if a > b then a else b }

  /** Pairwise different elements. */
  ghost predicate NoDup<T(!new)>(s: seq<T>) { forall i, j :: 0 <= i < j < |s| ==> s[i] != s[j] }

  type Bytes = seq<bv8>

  /** There is always another natural number. */
  lemma FreshNat(used: set<nat>) returns (n: nat)
    ensures forall x :: x in used ==> x < n
  {
    n := 0;
    var rest := used;
    while rest != {}
      invariant rest <= used && forall x :: x in used && x !in rest ==> x < n
      decreases rest
    {
      var x :| x in rest;
      n := if x >= n then x + 1 else n;
      rest := rest - {x};
    }
  }

  /** There is always a longer string. */
  lemma FreshString(used: set<string>) returns (r: string)
    ensures r !in used && r != "" && forall u :: u in used ==> |u| < |r|
  {
    var lengths: set<nat> := set s | s in used :: |s|;
    var n := FreshNat(lengths);
    r := seq(n + 1, _ => 'x');
    assert forall u :: u in used ==> |u| in lengths;
  }
}
