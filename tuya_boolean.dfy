/** The Tuya cloud's loose booleans: `true`, `"true"`, `"TRUE"`, ... */
module TuyaBool {
  import opened JsValue

  /** True exactly when `String(v)`, lower-cased, is "true". */
  predicate TuyaBoolean(v: JsVal)
  {
    Lower(ToStr(v)) == "true"
  }

  /** The letters of "true", each in either case. */
  predicate IsTrueWord(s: string)
  {
    |s| == 4 && (s[0] == 't' || s[0] == 'T') && (s[1] == 'r' || s[1] == 'R')
    && (s[2] == 'u' || s[2] == 'U') && (s[3] == 'e' || s[3] == 'E')
  }

  lemma LowerIsTrue(s: string)
    ensures Lower(s) == "true" <==> IsTrueWord(s)
  {
    if IsTrueWord(s) {
      assert Lower(s) == "true";
    }
    if Lower(s) == "true" {
      assert LowerChar(s[0]) == 't' && LowerChar(s[1]) == 'r';
      assert LowerChar(s[2]) == 'u' && LowerChar(s[3]) == 'e';
    }
  }

  /** A boolean is read as itself. */
  lemma TuyaBooleanOfBool(b: bool)
    ensures TuyaBoolean(Bool(b)) == b
  {
    LowerIsTrue("true");
    LowerIsTrue("false");
  }

  /** A string is true iff it spells "true" in any mix of cases; " true", "1" or "yes" are false. */
  lemma TuyaBooleanOfString(s: string)
    ensures TuyaBoolean(Str(s)) <==> IsTrueWord(s)
  {
    LowerIsTrue(s);
  }

  /** `undefined` is false, since `String(undefined)` is "undefined"; so are null, NaN and objects. */
  lemma TuyaBooleanOfMissing()
    ensures !TuyaBoolean(Undef) && !TuyaBoolean(Null) && !TuyaBoolean(NaN)
    ensures forall p :: !TuyaBoolean(Obj(p))
  {
    LowerIsTrue("undefined");
    LowerIsTrue("null");
    LowerIsTrue("NaN");
    LowerIsTrue("[object Object]");
  }

  /** Numbers are never true, 1 included. */
  lemma TuyaBooleanOfNumber(n: real)
    ensures !TuyaBoolean(Num(n))
  {
    var s := FormatNumber(n);
    FormatNumberStart(n);
    LowerIsTrue(s);
  }
}
