/** Record identifiers: `resource_id + "_" + str(len(data))`. */
module Identifiers {

  function Digit(d: nat): (c: char)
    requires d < 10
  {
    "0123456789"[d]
  }

  /** Python's `str(n)` for a non-negative integer: decimal digits, no
      leading zero. */
  function DecimalString(n: nat): string
    decreases n
  {
    if n < 10 then [Digit(n)] else DecimalString(n / 10) + [Digit(n % 10)]
  }

  /** Decimal digits only, a single one exactly below ten, and no leading
      zero. */
  lemma {:induction false} DecimalStringForm(n: nat)
    ensures var s := DecimalString(n);
      1 <= |s| && (|s| == 1 <==> n < 10) &&
      (forall i :: 0 <= i < |s| ==> '0' <= s[i] <= '9') &&
      (|s| > 1 ==> s[0] != '0')
    decreases n
  {
    if n >= 10 {
      DecimalStringForm(n / 10);
    }
  }

  /** Every character is a decimal digit. */
  predicate IsDigits(s: string)
  {
    forall i :: 0 <= i < |s| ==> '0' <= s[i] <= '9'
  }

  /** The number a string of decimal digits denotes, read left to right;
      the inverse of `DecimalString`. */
  function DecimalValue(s: string): nat
    requires IsDigits(s)
    decreases |s|
  {
    if s == [] then 0 else DecimalValue(s[..|s| - 1]) * 10 + (s[|s| - 1] as int - '0' as int)
  }

  /** `Digit` writes the digit whose value is `d`. */
  lemma {:induction false} DigitValue(d: nat)
    requires d < 10
    ensures Digit(d) as int - '0' as int == d
  {
    var digits := "0123456789";
    assert forall k :: 0 <= k < 10 ==> digits[k] as int - '0' as int == k;
  }

  /** Reading back `str(n)` gives `n`: the decimal form is the usual one. */
  lemma {:induction false} DecimalRoundTrip(n: nat)
    ensures IsDigits(DecimalString(n)) && DecimalValue(DecimalString(n)) == n
    decreases n
  {
    DecimalStringForm(n);
    var s := DecimalString(n);
    DigitValue(n % 10);
    if n < 10 {
      assert s[..|s| - 1] == [];
    } else {
      DecimalRoundTrip(n / 10);
      assert s[..|s| - 1] == DecimalString(n / 10);
    }
  }

  /** The identifier of the record at position `index` of the output,
      kept as its two parts; `Render` spells it out. */
  datatype RecordId = RecordId(resource: string, index: nat)

  /** The identifier as the program writes it: `resource_id + "_" +
      str(index)`. */
  function Render(id: RecordId): string
  {
    id.resource + "_" + DecimalString(id.index)
  }

  /** Distinct numbers have distinct decimal forms. */
  lemma {:induction false} DecimalStringInjective(a: nat, b: nat)
    requires DecimalString(a) == DecimalString(b)
    ensures a == b
    decreases a
  {
    var s := DecimalString(a);
    DecimalStringForm(a);
    DecimalStringForm(b);
    if a >= 10 {
      assert b >= 10;
      assert DecimalString(a / 10) == s[..|s| - 1] == DecimalString(b / 10);
      DecimalStringInjective(a / 10, b / 10);
      assert Digit(a % 10) == s[|s| - 1] == Digit(b % 10);
    }
  }

  /** Different positions give different identifiers under one resource id. */
  lemma {:induction false} RenderInjective(a: RecordId, b: RecordId)
    requires a.resource == b.resource && Render(a) == Render(b)
    ensures a == b
  {
    var p := a.resource + "_";
    assert DecimalString(a.index) == Render(a)[|p|..];
    assert DecimalString(b.index) == Render(b)[|p|..];
    DecimalStringInjective(a.index, b.index);
  }
}
