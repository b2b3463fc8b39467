/** Decimal text of integers, and the number that std::stoi reads from a text. */
module Decimal {
  import opened Prelude

  function DigitChar(d: nat): char
    requires d < 10
  {
    "0123456789"[d]
  }

  predicate IsDigit(c: char) {
    '0' <= c <= '9'
  }

  function DigitValue(c: char): nat
    requires IsDigit(c)
  {
    (c - '0') as nat
  }

  predicate AllDigits(s: Bytes) {
    forall i :: 0 <= i < |s| ==> IsDigit(s[i])
  }

  /** The shortest decimal text of a natural number. */
  function Digits(n: nat): (s: Bytes)
    ensures s != "" && AllDigits(s)
  {
    if n < 10 then [DigitChar(n)] else Digits(n / 10) + [DigitChar(n % 10)]
  }

  /** The number a digit text denotes. */
  function Value(s: Bytes): nat
    requires AllDigits(s)
  {
    if s == "" then 0 else 10 * Value(s[..|s| - 1]) + DigitValue(s[|s| - 1])
  }

  lemma {:induction false} ValueOfDigits(n: nat)
    ensures Value(Digits(n)) == n
  {
    var s := Digits(n);
    if n < 10 {
      assert s[..0] == "";
    } else {
      ValueOfDigits(n / 10);
      assert s[..|s| - 1] == Digits(n / 10);
    }
  }

  /** No superfluous leading zero. */
  lemma {:induction false} NoLeadingZero(n: nat)
    ensures Digits(n)[0] == '0' <==> n == 0
  {
    if n >= 10 { NoLeadingZero(n / 10); }
  }

  function Pow10(k: nat): nat {
    if k == 0 then 1 else 10 * Pow10(k - 1)
  }

  /** A number below 10^k has at most k digits. */
  lemma {:induction false} DigitsLength(n: nat, k: nat)
    requires k > 0 && n < Pow10(k)
    ensures |Digits(n)| <= k
  {
    if n >= 10 {
      assert Pow10(k) == 10 * Pow10(k - 1);
      DigitsLength(n / 10, k - 1);
    }
  }

  // ---------- Signed numbers ----------

  function Text(v: int): Bytes {
    if v < 0 then "-" + Digits(-v) else Digits(v)
  }

  predicate IsSpace(c: char) {
    c == ' ' || c == '\t' || c == '\n' || c == '\r' || c == 11 as char || c == 12 as char
  }

  function TrimLeft(s: Bytes): (r: Bytes)
    ensures |r| <= |s|
    ensures r != "" ==> !IsSpace(r[0])
  {
    if s != "" && IsSpace(s[0]) then TrimLeft(s[1..]) else s
  }

  /** How many digits a text begins with. */
  function LeadingDigits(s: Bytes): (k: nat)
    ensures k <= |s| && AllDigits(s[..k])
    ensures k < |s| ==> !IsDigit(s[k])
  {
    if s == "" || !IsDigit(s[0]) then 0
    else
      var k := LeadingDigits(s[1..]);
      assert s[..k + 1] == [s[0]] + s[1..][..k];
      k + 1
  }

  const INT_MAX := 0x7fff_ffff
  const INT_MIN := -0x8000_0000

  /** std::stoi: blanks, a sign, digits; what follows the digits is ignored. None is either exception. */
  function Stoi(s: Bytes): Option<int> {
    var t := TrimLeft(s);
    var signed := t != "" && (t[0] == '-' || t[0] == '+');
    var u := if signed then t[1..] else t;
    var k := LeadingDigits(u);
    if k == 0 then None
    else
      var n: int := Value(u[..k]);
      var v: int := if signed && t[0] == '-' then -n else n;
      if INT_MIN <= v <= INT_MAX then Some(v) else None
  }

  lemma {:induction false} TrimLeftCuts(pad: Bytes, s: Bytes)
    requires forall c :: c in pad ==> IsSpace(c)
    requires s != "" ==> !IsSpace(s[0])
    ensures TrimLeft(pad + s) == s
  {
    if pad == "" {
      assert pad + s == s;
    } else {
      AppendTail(pad, s);
      assert pad[0] in pad;
      TrimLeftCuts(pad[1..], s);
    }
  }

  lemma {:induction false} LeadingDigitsStop(d: Bytes, rest: Bytes)
    requires AllDigits(d) && (rest != "" ==> !IsDigit(rest[0]))
    ensures LeadingDigits(d + rest) == |d|
  {
    if d == "" {
      assert d + rest == rest;
    } else {
      AppendTail(d, rest);
      LeadingDigitsStop(d[1..], rest);
    }
  }

  /** What the digits behind a sign are worth; neither a missing number nor one that is out of range is one. */
  function Signed(sign: Bytes, d: Bytes): Option<int>
    requires AllDigits(d)
  {
    var v: int := if sign == "-" then -(Value(d) as int) else Value(d);
    if d == "" || v < INT_MIN || v > INT_MAX then None else Some(v)
  }

  /** stoi skips blanks, reads one sign and the digits behind it, and ignores the rest. */
  lemma StoiReads(pad: Bytes, sign: Bytes, d: Bytes, rest: Bytes)
    requires (forall c :: c in pad ==> IsSpace(c)) && (sign == "" || sign == "-" || sign == "+")
    requires AllDigits(d) && (rest != "" ==> !IsDigit(rest[0]))
    requires sign == "" && d == "" && rest != "" ==> !IsSpace(rest[0]) && rest[0] != '-' && rest[0] != '+'
    ensures Stoi(pad + (sign + (d + rest))) == Signed(sign, d)
  {
    var u := d + rest;
    TrimLeftCuts(pad, sign + u);
    LeadingDigitsStop(d, rest);
    StoiOfParts(pad + (sign + u), sign, d, u);
  }

  lemma StoiOfParts(s: Bytes, sign: Bytes, d: Bytes, u: Bytes)
    requires sign == "" || sign == "-" || sign == "+"
    requires TrimLeft(s) == sign + u && (sign == "" && u != "" ==> u[0] != '-' && u[0] != '+')
    requires AllDigits(d) && |d| <= |u| && u[..|d|] == d && LeadingDigits(u) == |d|
    ensures Stoi(s) == Signed(sign, d)
  {
    if sign == "" {
      assert sign + u == u;
    } else {
      ConsTail(sign[0], u);
      assert sign + u == [sign[0]] + u;
    }
  }

  lemma {:induction false} LeadingDigitsAll(s: Bytes)
    requires AllDigits(s)
    ensures LeadingDigits(s) == |s|
  {
    if s != "" { LeadingDigitsAll(s[1..]); }
  }

  lemma DigitsReadBack(n: nat)
    ensures var d := Digits(n);
      TrimLeft(d) == d && d[0] != '-' && d[0] != '+' && d[..LeadingDigits(d)] == d && Value(d) == n
  {
    var d := Digits(n);
    ValueOfDigits(n);
    LeadingDigitsAll(d);
    assert IsDigit(d[0]);
    assert d[..|d|] == d;
  }

  lemma StoiOfDigits(n: nat)
    requires n <= INT_MAX
    ensures Stoi(Digits(n)) == Some(n)
  {
    DigitsReadBack(n);
  }

  /** A minus sign in front of nothing but digits. */
  lemma StoiOfSigned(t: Bytes, d: Bytes, v: int)
    requires d != "" && AllDigits(d) && LeadingDigits(d) == |d|
    requires t != "" && t[0] == '-' && t[1..] == d
    requires Value(d) == -v && INT_MIN <= v
    ensures Stoi(t) == Some(v)
  {
    assert TrimLeft(t) == t;
    assert d[..|d|] == d;
  }

  lemma MinusDigits(d: Bytes, v: int)
    requires d != "" && AllDigits(d) && LeadingDigits(d) == |d| && Value(d) == -v && INT_MIN <= v
    ensures Stoi(['-'] + d) == Some(v)
  {
    ConsTail('-', d);
    StoiOfSigned(['-'] + d, d, v);
  }

  lemma DigitsLead(n: nat)
    ensures LeadingDigits(Digits(n)) == |Digits(n)| && Value(Digits(n)) == n
  {
    ValueOfDigits(n);
    LeadingDigitsAll(Digits(n));
  }

  lemma StoiOfNegative(v: int)
    requires INT_MIN <= v < 0
    ensures Stoi("-" + Digits(-v)) == Some(v)
  {
    DigitsLead(-v);
    MinusDigits(Digits(-v), v);
  }

  /** stoi reads back the text of every int. */
  lemma StoiOfText(v: int)
    requires INT_MIN <= v <= INT_MAX
    ensures Stoi(Text(v)) == Some(v)
  {
    if v < 0 { StoiOfNegative(v); } else { StoiOfDigits(v); }
  }
}
