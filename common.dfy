/** Small shared definitions: an Option type, the select/deselect toggle of
    the root keys and chord buttons, JavaScript's numeric helpers
    (Math.abs, Math.min/Math.max clamping, Math.round) and the decimal
    rendering and parsing of integers that the application uses for voice
    ids (`midi-${n}`) and for the typed tempo (parseInt(buffer, 10)). */
module Common {

  datatype Option<T> = None | Some(value: T)

  /** Math.abs on a real. */
  function Abs(x: real): (r: real)
    ensures r >= 0.0
    ensures r == x || r == -x
  {
    if x < 0.0 then -x else x
  }

  /** Math.min(Math.max(x, lo), hi). */
  function Clamp(x: int, lo: int, hi: int): (r: int)
    requires lo <= hi
    ensures lo <= r <= hi
    ensures lo <= x <= hi ==> r == x
    ensures x < lo ==> r == lo
    ensures x > hi ==> r == hi
  {
    if x < lo then lo else if x > hi then hi else x
  }

  /** Math.round: the nearest integer, halves rounded towards +infinity. */
  function JsRound(x: real): (r: int)
    ensures x - 0.5 < r as real <= x + 0.5
  {
    (x + 0.5).Floor
  }

  /** A selector button: pressing the selected value deselects it,
      pressing any other value selects that value. */
  function Toggle<T(==)>(selected: Option<T>, pressed: T): (r: Option<T>)
    ensures r.None? <==> selected == Some(pressed)
    ensures r.Some? ==> r.value == pressed
  {
    if selected == Some(pressed) then None else Some(pressed)
  }

  /** Pressing the same button twice comes back to where it started, from
      no selection or from that button's value. */
  lemma ToggleTwice<T>(selected: Option<T>, pressed: T)
    requires selected.None? || selected == Some(pressed)
    ensures Toggle(Toggle(selected, pressed), pressed) == selected
  {
  }

  /** Some element of a non-empty set. */
  lemma Pick<T>(s: set<T>) returns (x: T)
    requires s != {}
    ensures x in s
  {
    x :| x in s;
  }

  predicate IsDigit(c: char) { '0' <= c <= '9' }

  predicate IsDigitString(s: string) {
    forall i :: 0 <= i < |s| ==> IsDigit(s[i])
  }

  /** The character of a decimal digit, as digit.toString() gives it. */
  function DigitChar(d: nat): (c: char)
    requires d < 10
    ensures IsDigit(c)
    ensures c as int - '0' as int == d
  {
    ('0' as int + d) as char
  }

  /** Decimal digits of a natural number, most significant first, no leading zero. */
  function NatToString(n: nat): string
  {
    if n < 10 then [DigitChar(n)] else NatToString(n / 10) + [DigitChar(n % 10)]
  }

  /** The rendering is a non-empty digit string, of two or more digits from 10 on. */
  lemma {:induction false} NatToStringDigits(n: nat)
    ensures |NatToString(n)| >= 1 && IsDigitString(NatToString(n))
    ensures n >= 10 ==> |NatToString(n)| >= 2
  {
    if n >= 10 {
      NatToStringDigits(n / 10);
    }
  }

  /** The template literal `${i}` for an integer i. */
  function IntToString(i: int): string
  {
    if i < 0 then "-" + NatToString(-i) else NatToString(i)
  }

  /** A rendering starts with a minus sign exactly when the number is negative. */
  lemma IntToStringSign(i: int)
    ensures |IntToString(i)| >= 1
    ensures (i < 0) == (IntToString(i)[0] == '-')
  {
    if i < 0 {
      NatToStringDigits(-i);
    } else {
      NatToStringDigits(i);
      assert IsDigit(NatToString(i)[0]);
    }
  }

  /** parseInt(s, 10) for a non-empty string made of decimal digits only. */
  function ParseDigits(s: string): (n: nat)
    requires IsDigitString(s)
  {
    if s == [] then 0
    else 10 * ParseDigits(s[..|s| - 1]) + (s[|s| - 1] as int - '0' as int)
  }

  /** A string of at most k digits denotes a number below 10^k; for the
      three-digit tempo buffer that is at most 999. */
  lemma {:induction false} ParseDigitsBound(s: string)
    requires IsDigitString(s) && |s| <= 3
    ensures ParseDigits(s) <= 999
    ensures |s| <= 2 ==> ParseDigits(s) <= 99
    ensures |s| <= 1 ==> ParseDigits(s) <= 9
  {
    if s != [] {
      ParseDigitsBound(s[..|s| - 1]);
    }
  }

  /** Parsing undoes rendering. */
  lemma {:induction false} ParseNatToString(n: nat)
    ensures IsDigitString(NatToString(n)) && ParseDigits(NatToString(n)) == n
  {
    var s := NatToString(n);
    NatToStringDigits(n);
    if n >= 10 {
      NatToStringDigits(n / 10);
      ParseNatToString(n / 10);
      assert s[..|s| - 1] == NatToString(n / 10);
    }
  }

  lemma NatToStringInjective(a: nat, b: nat)
    requires NatToString(a) == NatToString(b)
    ensures a == b
  {
    ParseNatToString(a);
    ParseNatToString(b);
  }

  /** Distinct integers render as distinct strings. */
  lemma IntToStringInjective(a: int, b: int)
    requires IntToString(a) == IntToString(b)
    ensures a == b
  {
    IntToStringSign(a);
    IntToStringSign(b);
    if a < 0 && b < 0 {
      assert IntToString(a)[1..] == NatToString(-a);
      assert IntToString(b)[1..] == NatToString(-b);
      NatToStringInjective(-a, -b);
    } else if a >= 0 && b >= 0 {
      NatToStringInjective(a, b);
    }
  }
}
