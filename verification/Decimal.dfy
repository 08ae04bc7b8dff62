/** strconv.Itoa, strconv.Atoi and the IntOrString value built on them. */
module Decimal {
  import opened Prelude

  function DigitChar(d: nat): (c: char)
    requires d < 10
    ensures '0' <= c <= '9' && c as int - '0' as int == d
  {
    ('0' as int + d) as char
  }

  predicate IsDigit(c: char) { '0' <= c <= '9' }

  /** The decimal digits of a natural number. */
  function Digits(n: nat): (s: string)
    ensures s != [] && forall i :: 0 <= i < |s| ==> IsDigit(s[i])
    ensures s[0] == '0' ==> n == 0 && |s| == 1
  {
    if n < 10 then [DigitChar(n)] else Digits(n / 10) + [DigitChar(n % 10)]
  }

  /** A nonempty string of digits. */
  function ParseDigits(s: string): Option<nat> {
    if s == [] || !IsDigit(s[|s| - 1]) then None
    else
      var d := s[|s| - 1] as int - '0' as int;
      if |s| == 1 then Some(d)
      else match ParseDigits(s[..|s| - 1]) case None => None case Some(n) => Some(10 * n + d)
  }

  /** Numbers are printed in base ten, most significant digit first, without leading zeros. */
  lemma DigitsAreDecimal(n: nat, d: nat)
    requires d < 10
    ensures Digits(d) == ["0123456789"[d]]
    ensures n > 0 ==> Digits(10 * n + d) == Digits(n) + ["0123456789"[d]]
  {
    assert "0123456789"[d] == DigitChar(d);
    assert (10 * n + d) / 10 == n && (10 * n + d) % 10 == d;
  }

  /** Exactly the nonempty strings of digits are numbers; leading zeros are allowed. */
  lemma {:induction false} DigitsAreNumbers(s: string)
    ensures ParseDigits(s).Some? <==> s != [] && forall i :: 0 <= i < |s| ==> '0' <= s[i] <= '9'
  {
    if |s| > 1 {
      DigitsAreNumbers(s[..|s| - 1]);
      assert forall i :: 0 <= i < |s| - 1 ==> s[..|s| - 1][i] == s[i];
    }
  }

  /** Besides digits an integer may have one sign in front. */
  lemma SignedNumbers(s: string)
    requires ParseDigits(s).Some?
    ensures Atoi(s) == Some(ParseDigits(s).value as int)
    ensures Atoi(['-'] + s) == Some(-(ParseDigits(s).value as int))
    ensures Atoi(['+'] + s) == Some(ParseDigits(s).value as int)
  {
    DigitsAreNumbers(s);
    assert (['-'] + s)[1..] == s && (['+'] + s)[1..] == s;
  }

  lemma {:induction false} ParsePrintedDigits(n: nat)
    ensures ParseDigits(Digits(n)) == Some(n)
  {
    if n >= 10 {
      ParsePrintedDigits(n / 10);
      assert Digits(n)[..|Digits(n)| - 1] == Digits(n / 10);
    }
  }

  lemma {:induction false} NonDigitFails(s: string, i: nat)
    requires i < |s| && !IsDigit(s[i])
    ensures ParseDigits(s) == None
  {
    if i < |s| - 1 {
      NonDigitFails(s[..|s| - 1], i);
    }
  }

  function Itoa(n: int): string { if n < 0 then ['-'] + Digits(-n) else Digits(n) }

  /** An optional sign, then digits. */
  function Atoi(s: string): Option<int> {
    var signed := s != [] && (s[0] == '-' || s[0] == '+');
    match ParseDigits(if signed then s[1..] else s)
    case None => None
    case Some(n) => var value: int := n; Some(if signed && s[0] == '-' then -value else value)
  }

  lemma AtoiOfDigits(n: nat)
    ensures Atoi(Digits(n)) == Some(n)
  {
    ParsePrintedDigits(n);
    assert IsDigit(Digits(n)[0]);
  }

  lemma AtoiOfMinus(n: nat)
    ensures Atoi(['-'] + Digits(n)) == Some(0 - n as int)
  {
    ParsePrintedDigits(n);
    var s := ['-'] + Digits(n);
    assert s[1..] == Digits(n);
  }

  lemma AtoiOfItoa(n: int)
    ensures Atoi(Itoa(n)) == Some(n)
  {
    if n < 0 { AtoiOfMinus(-n); } else { AtoiOfDigits(n); }
  }

  datatype IntOrString = IntVal(n: int) | StrVal(s: string)

  /** IntOrString.String */
  function Print(v: IntOrString): string {
    match v case IntVal(n) => Itoa(n) case StrVal(s) => s
  }

  /** intstr.Parse */
  function Parse(s: string): IntOrString {
    match Atoi(s) case Some(n) => IntVal(n) case None => StrVal(s)
  }

  /** A value survives printing and parsing unless it is a string that reads as an integer. */
  lemma ParseOfPrint(v: IntOrString)
    ensures Parse(Print(v)) == v <==> v.IntVal? || Atoi(v.s) == None
  {
    if v.IntVal? { AtoiOfItoa(v.n); }
  }

  /** What the API server admits in a disruption budget: a non-negative integer or a percentage. */
  predicate IsBudgetValue(v: IntOrString) {
    match v
    case IntVal(n) => n >= 0
    case StrVal(s) => |s| >= 2 && s[|s| - 1] == '%' && ParseDigits(s[..|s| - 1]).Some?
  }

  lemma BudgetValuesSurvive(v: IntOrString)
    requires IsBudgetValue(v)
    ensures Parse(Print(v)) == v
  {
    ParseOfPrint(v);
    if v.StrVal? {
      NonDigitFails(v.s, |v.s| - 1);
      NonDigitFails(v.s[1..], |v.s| - 2);
    }
  }
}
