/**
 * `toSafeNumber` of src/utils/common/toSafeNumber.ts: reads an integer out
 * of a route or query value, which may be a string or an array of them,
 * and falls back to a default for anything else.
 */
module ToSafeNumber {
  import opened Wrappers
  import opened Text

  /** The JavaScript values the function tells apart; numbers, objects, null and the rest are `JsOther`. */
  datatype JsValue = JsArray(items: seq<JsValue>) | JsString(text: string) | JsOther

  /** `Number.MAX_SAFE_INTEGER`, 2^53 - 1. */
  const MaxSafeInteger: int := 9007199254740991

  predicate IsSafeInteger(n: int) {
    -MaxSafeInteger <= n <= MaxSafeInteger
  }

  /** The text `/^-?\d+$/` accepts: an optional minus sign and at least one decimal digit. */
  predicate IsIntegerText(s: string) {
    (|s| >= 1 && AllDigits(s)) || (|s| >= 2 && s[0] == '-' && AllDigits(s[1..]))
  }

  /** `parseInt(s, 10)` of such a text, as an exact integer. */
  function IntegerTextValue(s: string): int
    requires IsIntegerText(s)
  {
    if s[0] == '-' then -(DigitsValue(s[1..]) as int) else DigitsValue(s)
  }

  /**
   * `toSafeNumber(value, defaultValue)`, with `undefined` as None. An array
   * stands for its first element; a string of the right form for its value
   * when that is a safe integer. `parseInt` rounds a long numeral to the
   * nearest double, and no integer beyond 2^53 - 1 rounds to a safe one, so
   * the exact range test decides as `Number.isSafeInteger` does.
   */
  function ToSafeNumber(value: JsValue, defaultValue: Option<int>): (r: Option<int>)
    ensures r == defaultValue || (r.Some? && IsSafeInteger(r.value))
    ensures value.JsOther? ==> r == defaultValue
    ensures value.JsArray? && value.items == [] ==> r == defaultValue
    decreases value
  {
    match value
    case JsArray(items) =>
      if |items| > 0 then ToSafeNumber(items[0], defaultValue) else defaultValue
    case JsString(s) =>
      if IsIntegerText(s) && IsSafeInteger(IntegerTextValue(s)) then Some(IntegerTextValue(s)) else defaultValue
    case JsOther =>
      defaultValue
  }

  /** The decimal text of a safe integer reads back as that integer. */
  lemma SafeIntegerRoundTrip(n: int, defaultValue: Option<int>)
    requires IsSafeInteger(n)
    ensures ToSafeNumber(JsString(IntToDecimal(n)), defaultValue) == Some(n)
  {
    DecimalTextValue(n);
  }

  /** The decimal text of an integer outside the safe range gives the default. */
  lemma UnsafeIntegerIsDefault(n: int, defaultValue: Option<int>)
    requires !IsSafeInteger(n)
    ensures ToSafeNumber(JsString(IntToDecimal(n)), defaultValue) == defaultValue
  {
    DecimalTextValue(n);
  }

  lemma DecimalTextValue(n: int)
    ensures IsIntegerText(IntToDecimal(n)) && IntegerTextValue(IntToDecimal(n)) == n
  {
    var s := IntToDecimal(n);
    if n < 0 {
      NatToDigitsRoundTrip(-n);
      assert s[1..] == NatToDigits(-n);
      assert s[0] == '-';
    } else {
      NatToDigitsRoundTrip(n);
      assert IsDigit(s[0]);
    }
  }

  /** A string that is not an optional minus and digits gives the default, whatever it holds. */
  lemma OtherTextIsDefault(s: string, defaultValue: Option<int>)
    requires !IsIntegerText(s)
    ensures ToSafeNumber(JsString(s), defaultValue) == defaultValue
  {
  }

  /** The empty string, a leading plus, a space and a decimal point all fall outside the form. */
  lemma RejectedForms()
    ensures !IsIntegerText("") && !IsIntegerText("-")
    ensures !IsIntegerText("+1") && !IsIntegerText(" 1") && !IsIntegerText("1.5")
  {
    assert !IsDigit("-"[0]);
    assert !IsDigit("+1"[0]);
    assert !IsDigit(" 1"[0]);
    assert !IsDigit("1.5"[1]);
  }

  /** Nested arrays are unwrapped through their first elements. */
  lemma {:induction false} NestedFirstElement(value: JsValue, depth: nat, defaultValue: Option<int>)
    ensures ToSafeNumber(Wrap(value, depth), defaultValue) == ToSafeNumber(value, defaultValue)
  {
    if depth > 0 {
      NestedFirstElement(value, depth - 1, defaultValue);
    }
  }

  /** `value` inside `depth` one-element arrays. */
  function Wrap(value: JsValue, depth: nat): JsValue {
    if depth == 0 then value else JsArray([Wrap(value, depth - 1)])
  }
}
