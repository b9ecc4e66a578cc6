/**
 * Values shared by every component: optional values (JavaScript `undefined`/`null`),
 * JavaScript truthiness, the antd form rules the components declare, and the
 * decimal rendering of a count used in template strings.
 */
module Common {

  /** An optional value: `None` stands for `undefined` or `null`. */
  datatype Option<T> = None | Some(value: T)

  /** Identifiers handed out by the server (UUID-like strings). */
  type Id = string

  // ---------------------------------------------------------------------------
  // JavaScript truthiness (NaN is not modelled)
  // ---------------------------------------------------------------------------

  /** `if (x)` on an optional number: `undefined`, `null` and `0` are falsy. */
  predicate TruthyNum(x: Option<real>) {
    x.Some? && x.value != 0.0
  }

  /**
   * `if (s)` on an optional string: `undefined`, `null` and `''` are falsy.
   * This is also what antd's `required` rule accepts for a text input
   * (whitespace-only text passes both).
   */
  predicate Filled(s: Option<string>) {
    s.Some? && s.value != ""
  }

  /** `x || d` for an optional number. */
  function OrNum(x: Option<real>, d: real): real {
    if TruthyNum(x) then x.value else d
  }

  // ---------------------------------------------------------------------------
  // antd form rules
  // ---------------------------------------------------------------------------

  /** `{ required: true }` together with `{ type: 'number', min: m }`. */
  predicate AtLeast(x: Option<real>, m: real) {
    x.Some? && m <= x.value
  }

  /** `{ required: true }` together with `{ type: 'number', min: lo, max: hi }`. */
  predicate Within(x: Option<real>, lo: real, hi: real) {
    x.Some? && lo <= x.value <= hi
  }

  /** `{ type: 'number', min: lo, max: hi }` without `required`: an absent value passes. */
  predicate WithinIfGiven(x: Option<real>, lo: real, hi: real) {
    x.None? || lo <= x.value <= hi
  }

  // ---------------------------------------------------------------------------
  // What the inputs themselves allow
  // ---------------------------------------------------------------------------

  /** An antd `Input` with `maxLength`: characters beyond the cap cannot be typed. */
  function LimitText(typed: string, maxLength: nat): (s: string)
    ensures |s| <= maxLength
    ensures s <= typed
    ensures |typed| <= maxLength ==> s == typed
  {
    if |typed| <= maxLength then typed else typed[..maxLength]
  }

  /** An antd `InputNumber` with `min`/`max`: an entry outside the range is corrected to the bound. */
  function ClampNumber(typed: real, min: Option<real>, max: Option<real>): (x: real)
    requires min.Some? && max.Some? ==> min.value <= max.value
    ensures min.Some? ==> min.value <= x
    ensures max.Some? ==> x <= max.value
    ensures (min.None? || min.value <= typed) && (max.None? || typed <= max.value) ==> x == typed
  {
    if min.Some? && typed < min.value then min.value
    else if max.Some? && max.value < typed then max.value
    else typed
  }

  /** An optional number as produced by an `InputNumber` (cleared input = `null`). */
  function EnterNumber(typed: Option<real>, min: Option<real>, max: Option<real>): (x: Option<real>)
    requires min.Some? && max.Some? ==> min.value <= max.value
    ensures x.Some? == typed.Some?
    ensures x.Some? && min.Some? ==> min.value <= x.value
    ensures x.Some? && max.Some? ==> x.value <= max.value
    ensures typed.Some? && (min.None? || min.value <= typed.value) && (max.None? || typed.value <= max.value) ==> x == typed
  {
    if typed.None? then None else Some(ClampNumber(typed.value, min, max))
  }

  /** An `InputNumber` with integer bounds over a whole-number field. */
  function EnterInt(typed: Option<int>, min: int, max: int): (x: Option<int>)
    requires min <= max
    ensures x.Some? == typed.Some?
    ensures x.Some? ==> min <= x.value <= max
    ensures typed.Some? && min <= typed.value <= max ==> x == typed
  {
    if typed.None? then None
    else if typed.value < min then Some(min)
    else if max < typed.value then Some(max)
    else typed
  }

  // ---------------------------------------------------------------------------
  // Decimal rendering (`${n}` for a non-negative integer)
  // ---------------------------------------------------------------------------

  function DigitChar(d: nat): char
    requires d < 10
  {
    "0123456789"[d]
  }

  predicate IsDigit(c: char) {
    '0' <= c <= '9'
  }

  function NatToString(n: nat): (s: string)
    ensures |s| >= 1
    ensures forall i :: 0 <= i < |s| ==> IsDigit(s[i])
    ensures n >= 10 ==> |s| >= 2
    decreases n
  {
    if n < 10 then [DigitChar(n)] else NatToString(n / 10) + [DigitChar(n % 10)]
  }

  lemma DigitCharInjective(a: nat, b: nat)
    requires a < 10 && b < 10 && DigitChar(a) == DigitChar(b)
    ensures a == b
  {
  }

  /** Distinct counts render as distinct strings. */
  lemma {:induction false} NatToStringInjective(m: nat, n: nat)
    requires NatToString(m) == NatToString(n)
    ensures m == n
    decreases m
  {
    var s, t := NatToString(m), NatToString(n);
    if m < 10 && n < 10 {
      DigitCharInjective(m, n);
    } else if m >= 10 && n >= 10 {
      assert s[|s| - 1] == DigitChar(m % 10) && t[|t| - 1] == DigitChar(n % 10);
      DigitCharInjective(m % 10, n % 10);
      assert NatToString(m / 10) == s[..|s| - 1] == t[..|t| - 1] == NatToString(n / 10);
      NatToStringInjective(m / 10, n / 10);
    }
  }

  /** Length of the leading run of digits of `s`. */
  function DigitRun(s: string): (n: nat)
    ensures n <= |s|
  {
    if |s| == 0 || !IsDigit(s[0]) then 0 else 1 + DigitRun(s[1..])
  }

  lemma {:induction false} DigitRunOfConcat(a: string, r: string)
    requires forall i :: 0 <= i < |a| ==> IsDigit(a[i])
    requires |r| > 0 && !IsDigit(r[0])
    ensures DigitRun(a + r) == |a|
  {
    if |a| > 0 {
      assert (a + r)[1..] == a[1..] + r;
      DigitRunOfConcat(a[1..], r);
    }
  }

  /**
   * A string made of a run of digits followed by text that does not start with a
   * digit splits in only one way.
   */
  lemma DigitsSplitUniquely(a: string, r: string, b: string, q: string)
    requires forall i :: 0 <= i < |a| ==> IsDigit(a[i])
    requires forall i :: 0 <= i < |b| ==> IsDigit(b[i])
    requires |r| > 0 && !IsDigit(r[0]) && |q| > 0 && !IsDigit(q[0])
    requires a + r == b + q
    ensures a == b && r == q
  {
    DigitRunOfConcat(a, r);
    DigitRunOfConcat(b, q);
    assert a == (a + r)[..|a|] == (b + q)[..|b|] == b;
    assert r == (a + r)[|a|..] == (b + q)[|b|..] == q;
  }
}
