/** Decimal printing and parsing, splitting and trimming, as Go's strconv and strings do them. */
module Decimal {
  import opened Common

  function Digit(d: nat): char
    requires d < 10
  {
    ('0' as int + d) as char
  }

  function Digits(n: nat): (s: string)
    ensures s != ""
  {
    if n < 10 then [Digit(n)] else Digits(n / 10) + [Digit(n % 10)]
  }

  /** strconv.Itoa, and the %d of fmt. */
  function Itoa(n: int): string { if n < 0 then "-" + Digits(-n) else Digits(n) }

  function ParseDigits(s: string): Option<nat> {
    if s == "" then None
    else
      var c := s[|s| - 1];
      if !('0' <= c <= '9') then None
      else if |s| == 1 then Some(c as int - '0' as int)
      else
        match ParseDigits(s[..|s| - 1])
        case None => None
        case Some(v) => Some(10 * v + (c as int - '0' as int))
  }

  /** strconv.Atoi without the range check: an optional sign and at least one digit. */
  function Atoi(s: string): Option<int> {
    if s != "" && (s[0] == '-' || s[0] == '+') then
      match ParseDigits(s[1..])
      case None => None
      case Some(v) => var n: int := v; Some(if s[0] == '-' then -n else n)
    else
      match ParseDigits(s)
      case None => None
      case Some(v) => Some(v)
  }

  /** Digits and nothing else. */
  predicate AllDigits(s: string) { forall i :: 0 <= i < |s| ==> '0' <= s[i] <= '9' }

  lemma {:induction false} DigitsParse(n: nat)
    ensures AllDigits(Digits(n)) && ParseDigits(Digits(n)) == Some(n)
  {
    if n >= 10 {
      DigitsParse(n / 10);
      var s := Digits(n);
      assert s[..|s| - 1] == Digits(n / 10);
      assert s[|s| - 1] == Digit(n % 10);
    }
  }

  lemma AtoiItoa(n: int)
    ensures Atoi(Itoa(n)) == Some(n)
  {
    hide Digits, ParseDigits;
    if n < 0 {
      DigitsParse(-n);
      assert Itoa(n)[1..] == Digits(-n);
    } else {
      DigitsParse(n);
    }
  }

  // ---------------------------------------------------------------- strings

  predicate IsSpace(c: char) { c in {' ', '\t', '\n', '\r', '\U{000B}', '\U{000C}', '\U{0085}', '\U{00A0}'} }

  function TrimLeft(s: string): string { if s != "" && IsSpace(s[0]) then TrimLeft(s[1..]) else s }

  function TrimRight(s: string): string { if s != "" && IsSpace(s[|s| - 1]) then TrimRight(s[..|s| - 1]) else s }

  /** strings.TrimSpace */
  function TrimSpace(s: string): string { TrimRight(TrimLeft(s)) }

  lemma TrimDigits(n: nat)
    ensures TrimSpace(Itoa(n)) == Itoa(n)
  {
    DigitsParse(n);
    var s := Itoa(n);
    assert '0' <= s[0] <= '9' && '0' <= s[|s| - 1] <= '9';
  }

  predicate OccursAt(s: string, sep: string, i: nat) { i + |sep| <= |s| && s[i..i + |sep|] == sep }

  /** The first place at or after i where sep occurs. */
  function Find(s: string, sep: string, i: nat): (r: Option<nat>)
    ensures r.Some? ==> OccursAt(s, sep, r.value)
    decreases |s| - i
  {
    if i + |sep| > |s| then None else if OccursAt(s, sep, i) then Some(i) else Find(s, sep, i + 1)
  }

  /** strings.Split */
  function Split(s: string, sep: string): seq<string>
    requires sep != ""
  {
    match Find(s, sep, 0)
    case None => [s]
    case Some(i) => [s[..i]] + Split(s[i + |sep|..], sep)
  }

  lemma {:induction false} FindOnly(s: string, sep: string, i: nat, at: nat)
    requires i <= at && OccursAt(s, sep, at) && forall j: nat :: OccursAt(s, sep, j) ==> j == at
    ensures Find(s, sep, i) == Some(at)
    decreases |s| - i
  {
    if i < at {
      FindOnly(s, sep, i + 1, at);
    }
  }

  lemma {:induction false} FindNone(s: string, sep: string, i: nat)
    requires forall j: nat :: !OccursAt(s, sep, j)
    ensures Find(s, sep, i) == None
    decreases |s| - i
  {
    if i + |sep| <= |s| {
      FindNone(s, sep, i + 1);
    }
  }

  lemma OccursHas(s: string, sep: string, j: nat, k: nat)
    requires k < |sep|
    ensures OccursAt(s, sep, j) ==> s[j + k] == sep[k] && sep[k] in s
  {
    if OccursAt(s, sep, j) {
      assert s[j..j + |sep|][k] == s[j + k];
    }
  }

  /** A separator whose k-th character occurs nowhere else cuts the text around it in two. */
  lemma SplitOnce(a: string, sep: string, b: string, k: nat)
    requires k < |sep| && sep[k] !in a && sep[k] !in b && forall j :: 0 <= j < |sep| && j != k ==> sep[j] != sep[k]
    ensures Split(a + sep + b, sep) == [a, b]
  {
    var s := a + sep + b;
    forall j: nat | OccursAt(s, sep, j) ensures j == |a| {
      OccursHas(s, sep, j, k);
    }
    assert s[|a|..|a| + |sep|] == sep;
    FindOnly(s, sep, 0, |a|);
    assert s[..|a|] == a && s[|a| + |sep|..] == b;
    forall j: nat ensures !OccursAt(b, sep, j) {
      OccursHas(b, sep, j, k);
    }
    FindNone(b, sep, 0);
  }
}
