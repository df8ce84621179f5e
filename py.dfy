/** The pieces of Python value semantics that the request handlers of the
    shop rely on: the truthiness of request fields, `x or y`, `int()` on a
    field, `str.isdigit()` and `str.lstrip('-')`. */
module Py {

  datatype Option<T> = None | Some(value: T)

  /** A value read from a request body with `.get(key)`: the key is absent,
      it holds JSON null, a number, or a piece of text. */
  datatype Field = Absent | Null | Num(n: int) | Text(t: string)

  /** Python truthiness of the value: `None`, `0` and `""` are false. */
  predicate Truthy(f: Field) {
    match f
    case Absent => false
    case Null => false
    case Num(n) => n != 0
    case Text(t) => t != ""
  }

  /** `a or b`: the first operand when it is truthy, otherwise the second. */
  function Or(a: Field, b: Field): (r: Field)
    ensures Truthy(r) <==> Truthy(a) || Truthy(b)
    ensures Truthy(a) ==> r == a
    ensures !Truthy(a) ==> r == b
  {
    if Truthy(a) then a else b
  }

  /** `d.get(key, default)`: the default replaces only an absent key. */
  function GetOr(f: Field, default: int): Field {
    if f.Absent? then Num(default) else f
  }

  predicate IsDigit(c: char) {
    '0' <= c <= '9'
  }

  /** `s.isdigit()` over ASCII: at least one character, all of them digits. */
  predicate IsDigits(s: string) {
    |s| > 0 && forall i :: 0 <= i < |s| ==> IsDigit(s[i])
  }

  /** The number a string of decimal digits denotes. */
  function DigitsValue(s: string): nat
    requires forall i :: 0 <= i < |s| ==> IsDigit(s[i])
    decreases |s|
  {
    if s == [] then 0
    else
      assert IsDigit(s[|s| - 1]);
      10 * DigitsValue(s[..|s| - 1]) + (s[|s| - 1] as int - '0' as int)
  }

  /** `int(s)` on text: digits, optionally after one `-` or `+`;
      None where Python raises ValueError. */
  function ParseInt(s: string): Option<int> {
    if IsDigits(s) then Some(DigitsValue(s))
    else if |s| >= 2 && s[0] == '-' && IsDigits(s[1..]) then Some(-(DigitsValue(s[1..]) as int))
    else if |s| >= 2 && s[0] == '+' && IsDigits(s[1..]) then Some(DigitsValue(s[1..]))
    else None
  }

  /** `int(f)` on a request field; None where Python raises ValueError or
      TypeError (`int(None)`). */
  function IntOf(f: Field): Option<int> {
    match f
    case Absent => None
    case Null => None
    case Num(n) => Some(n)
    case Text(t) => ParseInt(t)
  }

  /** `s.lstrip('-')`: s without its leading run of minus signs. */
  function LstripMinus(s: string): (r: string)
    ensures |r| <= |s| && r == s[|s| - |r|..]
    ensures forall i :: 0 <= i < |s| - |r| ==> s[i] == '-'
    ensures r == [] || r[0] != '-'
    decreases |s|
  {
    if |s| > 0 && s[0] == '-' then LstripMinus(s[1..]) else s
  }

  /** The number of minus signs `lstrip('-')` removes. */
  function LeadingMinus(s: string): nat {
    |s| - |LstripMinus(s)|
  }

  /** The guard of the signed stock adjustment: `s.lstrip('-').isdigit()`. */
  predicate SignedDigits(s: string) {
    IsDigits(LstripMinus(s))
  }

  /** Which strings that pass the signed guard `int()` accepts: exactly those
      with at most one leading minus sign; with two or more (`"--5"`) the
      guard lets the text through and `int()` raises. */
  lemma SignedDigitsParse(s: string)
    requires SignedDigits(s)
    ensures ParseInt(s).Some? <==> LeadingMinus(s) <= 1
    ensures LeadingMinus(s) == 0 ==> ParseInt(s) == Some(DigitsValue(s))
    ensures LeadingMinus(s) == 1 ==> ParseInt(s) == Some(-(DigitsValue(s[1..]) as int))
  {
    var r := LstripMinus(s);
    if LeadingMinus(s) == 0 {
      assert s == r;
    } else if LeadingMinus(s) == 1 {
      assert s[0] == '-' && s[1..] == r;
      assert !IsDigit(s[0]);
    } else {
      assert s[0] == '-' && s[1] == '-';
      assert !IsDigit(s[0]) && !IsDigit(s[1..][0]);
    }
  }

  /** `str(n)` for a natural number: its decimal digits. */
  function DigitsText(n: nat): string
    decreases n
  {
    if n < 10 then [('0' as int + n) as char]
    else DigitsText(n / 10) + [('0' as int + n % 10) as char]
  }

  /** `str(n)` for an integer. */
  function Show(n: int): string {
    if n < 0 then "-" + DigitsText(-n) else DigitsText(n)
  }

  lemma {:induction false} DigitsTextValue(n: nat)
    ensures IsDigits(DigitsText(n)) && DigitsValue(DigitsText(n)) == n
    decreases n
  {
    if n >= 10 {
      DigitsTextValue(n / 10);
      var s := DigitsText(n);
      assert s[..|s| - 1] == DigitsText(n / 10);
    }
  }

  /** `int(str(n)) == n`: the parser inverts the printer. */
  lemma ParseShow(n: int)
    ensures ParseInt(Show(n)) == Some(n)
    ensures IsDigits(Show(n)) <==> n >= 0
  {
    if n < 0 {
      DigitsTextValue(-n);
      assert Show(n)[1..] == DigitsText(-n);
      assert !IsDigit(Show(n)[0]);
    } else {
      DigitsTextValue(n);
    }
  }
}
