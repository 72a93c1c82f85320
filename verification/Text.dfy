// Printing and parsing of decimal numbers, and searching in strings.
module Text {
  import opened Json

  function Digit(d: nat): char
    requires d < 10
  {
    "0123456789"[d]
  }

  function Digits(n: nat): string {
    if n < 10 then [Digit(n)] else Digits(n / 10) + [Digit(n % 10)]
  }

  /** Go's %d. */
  function Decimal(n: int): string {
    if n < 0 then "-" + Digits(-n) else Digits(n)
  }

  predicate IsDigit(c: char) {
    '0' <= c <= '9'
  }

  predicate AllDigits(s: string) {
    forall i :: 0 <= i < |s| ==> IsDigit(s[i])
  }

  function ValueOf(s: string): nat
    requires AllDigits(s)
  {
    if s == [] then 0
    else
      assert IsDigit(s[|s| - 1]);
      10 * ValueOf(s[..|s| - 1]) + (s[|s| - 1] as int - '0' as int)
  }

  /** strconv.Atoi: an optional sign, at least one digit, and a value that fits 64 bits. */
  function Atoi(s: string): Option<int> {
    var signed := s != [] && (s[0] == '-' || s[0] == '+');
    var ds := if signed then s[1..] else s;
    if ds == [] || !AllDigits(ds) then None
    else
      var m: int := ValueOf(ds);
      var v := if signed && s[0] == '-' then -m else m;
      if -0x8000_0000_0000_0000 <= v < 0x8000_0000_0000_0000 then Some(v) else None
  }

  /** The text is a numeral for v: digits, perhaps with a sign. */
  predicate Numeral(s: string, ds: string, v: int) {
    && ds != [] && AllDigits(ds)
    && ((s in {ds, "+" + ds} && v == ValueOf(ds)) || (s == "-" + ds && v == 0 - ValueOf(ds)))
  }

  /** Exactly the numerals that fit 64 bits are parsed, leading zeros and a plus sign included. */
  lemma {:induction false} AtoiIs(s: string, v: int)
    ensures Atoi(s) == Some(v) <==>
            -0x8000_0000_0000_0000 <= v < 0x8000_0000_0000_0000 && exists ds :: Numeral(s, ds, v)
  {
    if Atoi(s) == Some(v) {
      var ds := if s[0] == '-' || s[0] == '+' then s[1..] else s;
      assert s[0] == '-' ==> s == "-" + ds;
      assert s[0] == '+' ==> s == "+" + ds;
      assert Numeral(s, ds, v);
    }
    if -0x8000_0000_0000_0000 <= v < 0x8000_0000_0000_0000 && exists ds :: Numeral(s, ds, v) {
      var ds :| Numeral(s, ds, v);
      assert IsDigit(ds[0]);
      assert ("-" + ds)[1..] == ds && ("+" + ds)[1..] == ds;
    }
  }

  lemma {:induction false} DigitsParse(n: nat)
    ensures Digits(n) != []
    ensures AllDigits(Digits(n))
    ensures ValueOf(Digits(n)) == n
  {
    if n < 10 {
      assert ValueOf([]) == 0;
    } else {
      DigitsParse(n / 10);
      var s := Digits(n);
      assert s[..|s| - 1] == Digits(n / 10);
    }
  }

  /** Without leading zeros. */
  lemma {:induction false} DigitsAreCanonical(n: nat)
    ensures |Digits(n)| > 1 ==> Digits(n)[0] != '0'
  {
    if n >= 10 {
      DigitsAreCanonical(n / 10);
      DigitsParse(n / 10);
      if n / 10 < 10 { assert Digits(n)[0] == Digit(n / 10) != '0'; }
    }
  }

  lemma {:induction false} AtoiOfDigits(ds: string)
    requires ds != [] && AllDigits(ds) && ValueOf(ds) < 0x8000_0000_0000_0000
    ensures Atoi(ds) == Some(ValueOf(ds)) && Atoi("-" + ds) == Some(0 - ValueOf(ds))
  {
    assert IsDigit(ds[0]);
    assert ("-" + ds)[1..] == ds;
  }

  /** Parsing undoes printing, for every 64-bit integer but the least. */
  lemma {:induction false} AtoiOfDecimal(n: int)
    requires -0x8000_0000_0000_0000 < n < 0x8000_0000_0000_0000
    ensures Atoi(Decimal(n)) == Some(n)
    ensures ':' !in Decimal(n)
  {
    var m := if n < 0 then -n else n;
    DigitsParse(m);
    AtoiOfDigits(Digits(m));
    assert forall i :: 0 <= i < |Digits(m)| ==> IsDigit(Digits(m)[i]);
  }

  /** strings.LastIndex of one character, -1 when absent. */
  function LastIndex(s: string, c: char): (i: int)
    ensures -1 <= i < |s|
  {
    if s == [] then -1 else if s[|s| - 1] == c then |s| - 1 else LastIndex(s[..|s| - 1], c)
  }

  lemma {:induction false} LastIndexIs(s: string, c: char)
    ensures var i := LastIndex(s, c); (i >= 0 ==> s[i] == c && c !in s[i + 1..]) && (i < 0 ==> c !in s)
  {
    if s != [] && s[|s| - 1] != c {
      var init := s[..|s| - 1];
      LastIndexIs(init, c);
      assert s == init + [s[|s| - 1]];
      var i := LastIndex(init, c);
      if i >= 0 { assert s[i + 1..] == init[i + 1..] + [s[|s| - 1]]; }
    }
  }

  lemma {:induction false} LastIndexOfSeparator(head: string, c: char, tail: string)
    requires c !in tail
    ensures LastIndex(head + [c] + tail, c) == |head|
  {
    var s := head + [c] + tail;
    if tail != [] {
      assert s[..|s| - 1] == head + [c] + tail[..|tail| - 1];
      assert s[|s| - 1] == tail[|tail| - 1];
      LastIndexOfSeparator(head, c, tail[..|tail| - 1]);
    }
  }

  /** Two strings split at the first separator agree part by part. */
  lemma {:induction false} SplitAtFirst(a: string, b: string, a': string, b': string, c: char)
    requires a + [c] + b == a' + [c] + b'
    requires c !in a && c !in a'
    ensures a == a' && b == b'
  {
    var s := a + [c] + b;
    assert s[|a|] == c && s[|a'|] == c;
    assert |a| == |a'|;
    assert a == s[..|a|] && a' == (a' + [c] + b')[..|a'|];
    assert b == s[|a| + 1..] && b' == (a' + [c] + b')[|a'| + 1..];
  }

  lemma {:induction false} CancelPrefix(p: string, a: string, b: string)
    requires p + a == p + b
    ensures a == b
  {
    assert a == (p + a)[|p|..] && b == (p + b)[|p|..];
  }

  lemma {:induction false} CancelSuffix(a: string, b: string, q: string)
    requires a + q == b + q
    ensures a == b
  {
    assert |a| == |b|;
    assert a == (a + q)[..|a|] && b == (b + q)[..|b|];
  }
}
