/**
 * The cover-state vocabulary shared by the door and position translations:
 * the cloud's numeric `CoverState` codes and the two tests the translations
 * apply to a reported `state` before they read it.
 */
module CoverStates {
  import opened JsValue

  /**
   * The numeric `CoverState` codes of the cloud API. Their values are not
   * part of this model; the translations are stated for any three codes.
   */
  datatype CoverCodes = CoverCodes(opening: int, closing: int, stopped: int)
  {
    predicate Distinct() { opening != closing && closing != stopped && opening != stopped }
  }

  /** `!isNaN(Number(String(v)))`: the reported state reads as a number. */
  predicate IsNumericState(v: JsVal)
  {
    ParseNumber(ToStr(v)).Some?
  }

  /** `["true", "false"].includes(String(v).toLowerCase())`. */
  predicate IsBooleanState(v: JsVal)
  {
    var w := Lower(ToStr(v));
    w == "true" || w == "false"
  }

  /** The error a translation reports for a state that is neither numeric nor boolean. */
  function UnexpectedState(v: JsVal): string
  {
    "Unexpected state value provided: " + ToStr(v)
  }

  /** A code written into the cache passes the numeric test and reads back as itself. */
  lemma CodeReadsBack(k: int)
    ensures IsNumericState(Num(k as real))
    ensures ToNumber(Num(k as real)) == Some(k as real)
  {
    IntegerRoundTrip(k);
    var text := FormatNumber(k as real);
    assert ToStr(Num(k as real)) == text;
    assert ParseNumber(text) == Some(k as real);
  }

  /** Every value that passes the numeric test is a number to `Number` as well. */
  lemma NumericStateHasNumber(v: JsVal)
    requires IsNumericState(v)
    ensures ToNumber(v).Some?
  {
    NamedValuesAreNaN();
  }
}
