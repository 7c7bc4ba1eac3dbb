/** Cell values of a span record, and the primitive lookups and conversions the
    analyzer applies to them: `Series.get`, Python truthiness, `pd.notna` plus
    `pd.to_datetime` on a start or end time, and `int(...)` on a token count. */
module SpanModel {

  datatype Option<T> = None | Some(value: T)

  datatype Result<T> = Success(value: T) | Failure(error: string)

  /** A point in time in microseconds since the epoch. An aware timestamp counts
      UTC microseconds (its offset already applied); a naive one counts
      wall-clock microseconds with no offset attached. */
  datatype Timestamp = Timestamp(micros: int, aware: bool)

  /** What one cell of a span record can hold. */
  datatype Value =
    | VNull                    // None
    | VNaN                     // a missing numeric or time cell (NaN, NaT)
    | VBool(b: bool)
    | VInt(i: int)
    | VReal(r: real)
    | VStr(s: string)
    | VTime(t: Timestamp)
    | VList(items: seq<Value>) // e.g. a list of chat messages

  /** A span is a schemaless record: dotted key to value, any key may be absent. */
  type Span = map<string, Value>

  /** A normalised field: the sentinel 'N/A' or a value. */
  datatype Field<T> = NA | Val(v: T)

  /** The text of the sentinel. */
  const Sentinel: string := "N/A"

  /** `span.get(key)`: the stored value, or None when the key is absent. */
  function Get(span: Span, key: string): Value {
    if key in span then span[key] else VNull
  }

  /** `span.get(key, 'N/A')`: the stored value, whatever it is, or the sentinel
      when the key is absent. */
  function Lookup(span: Span, key: string): Field<Value> {
    if key in span then Val(span[key]) else NA
  }

  /** The negation of Python's `field != 'N/A'`: true of the sentinel and of a
      stored string that happens to read "N/A". */
  predicate IsNA(f: Field<Value>) {
    f.NA? || f.v == VStr(Sentinel)
  }

  /** Python truthiness (`bool(v)`). NaN is truthy in Python. */
  predicate Truthy(v: Value) {
    match v
    case VNull => false
    case VNaN => true
    case VBool(b) => b
    case VInt(i) => i != 0
    case VReal(r) => r != 0.0
    case VStr(s) => s != ""
    case VTime(_) => true
    case VList(items) => |items| > 0
  }

  /** The outcome of `pd.notna(v)` followed by `pd.to_datetime(v)`. */
  datatype Conversion = Missing | Parsed(t: Timestamp) | Unconvertible

  /** Only values that already are timestamps convert; None and NaN are missing;
      every other value is a conversion error. */
  function AsTimestamp(v: Value): Conversion {
    match v
    case VNull => Missing
    case VNaN => Missing
    case VTime(t) => Parsed(t)
    case _ => Unconvertible
  }

  // ---------------------------------------------------------------------------
  // Python string primitives

  /** `str.isspace()` of one character: the ASCII controls \t to \r and \x1c to
      \x1f, the space, NEL, NO-BREAK SPACE, OGHAM SPACE MARK, the spaces U+2000
      to U+200A, the line and paragraph separators, NARROW NO-BREAK SPACE,
      MEDIUM MATHEMATICAL SPACE and IDEOGRAPHIC SPACE. */
  predicate IsSpace(c: char) {
    || ('\t' <= c <= '\r')
    || ('\U{001C}' <= c <= ' ')
    || c == '\U{0085}' || c == '\U{00A0}' || c == '\U{1680}'
    || ('\U{2000}' <= c <= '\U{200A}')
    || c == '\U{2028}' || c == '\U{2029}' || c == '\U{202F}' || c == '\U{205F}'
    || c == '\U{3000}'
  }

  predicate AllSpace(s: string) {
    forall i :: 0 <= i < |s| ==> IsSpace(s[i])
  }

  function StripLeft(s: string): string {
    if |s| > 0 && IsSpace(s[0]) then StripLeft(s[1..]) else s
  }

  function StripRight(s: string): string {
    if |s| > 0 && IsSpace(s[|s| - 1]) then StripRight(s[..|s| - 1]) else s
  }

  /** `str.strip()` with no argument. */
  function Strip(s: string): string {
    StripRight(StripLeft(s))
  }

  /** Stripping on the left removes exactly the leading run of whitespace. */
  lemma {:induction false} StripLeftRemovesLeadingSpace(s: string)
    ensures |StripLeft(s)| <= |s| && StripLeft(s) == s[|s| - |StripLeft(s)|..]
    ensures |StripLeft(s)| > 0 ==> !IsSpace(StripLeft(s)[0])
    ensures forall i :: 0 <= i < |s| - |StripLeft(s)| ==> IsSpace(s[i])
  {
    if |s| > 0 && IsSpace(s[0]) {
      var t := s[1..];
      StripLeftRemovesLeadingSpace(t);
      forall i | 0 <= i < |s| - |StripLeft(s)| ensures IsSpace(s[i]) {
        if i > 0 {
          assert s[i] == t[i - 1];
        }
      }
    }
  }

  /** Stripping on the right removes exactly the trailing run of whitespace. */
  lemma {:induction false} StripRightRemovesTrailingSpace(s: string)
    ensures |StripRight(s)| <= |s| && StripRight(s) == s[..|StripRight(s)|]
    ensures |StripRight(s)| > 0 ==> !IsSpace(StripRight(s)[|StripRight(s)| - 1])
    ensures forall i :: |StripRight(s)| <= i < |s| ==> IsSpace(s[i])
  {
    if |s| > 0 && IsSpace(s[|s| - 1]) {
      var t := s[..|s| - 1];
      StripRightRemovesTrailingSpace(t);
      forall i | |StripRight(s)| <= i < |s| ensures IsSpace(s[i]) {
        if i < |s| - 1 {
          assert s[i] == t[i];
        }
      }
    }
  }

  /** Leading whitespace, however long, is all removed. */
  lemma {:induction false} StripLeftSkipsPadding(w: string, s: string)
    requires AllSpace(w)
    ensures StripLeft(w + s) == StripLeft(s)
  {
    if |w| > 0 {
      assert (w + s)[0] == w[0];
      assert (w + s)[1..] == w[1..] + s;
      StripLeftSkipsPadding(w[1..], s);
    } else {
      assert w + s == s;
    }
  }

  /** Trailing whitespace, however long, is all removed. */
  lemma {:induction false} StripRightSkipsPadding(s: string, w: string)
    requires AllSpace(w)
    ensures StripRight(s + w) == StripRight(s)
  {
    if |w| > 0 {
      assert (s + w)[..|s + w| - 1] == s + w[..|w| - 1];
      StripRightSkipsPadding(s, w[..|w| - 1]);
    } else {
      assert s + w == s;
    }
  }

  /** `strip()` gives back a text padded with whitespace on both sides, as long
      as the text itself neither starts nor ends with whitespace. */
  lemma StripRemovesPadding(w1: string, s: string, w2: string)
    requires AllSpace(w1) && AllSpace(w2)
    requires |s| > 0 ==> !IsSpace(s[0]) && !IsSpace(s[|s| - 1])
    ensures Strip(w1 + s + w2) == s
  {
    assert w1 + s + w2 == w1 + (s + w2);
    StripLeftSkipsPadding(w1, s + w2);
    if |s| > 0 {
      assert (s + w2)[0] == s[0];
    } else {
      assert s + w2 == w2;
      StripLeftSkipsPadding(w2, "");
      assert w2 + "" == w2;
    }
    StripRightSkipsPadding(s, w2);
  }

  predicate IsDigit(c: char) {
    '0' <= c <= '9'
  }

  predicate AllDigits(s: string) {
    forall i :: 0 <= i < |s| ==> IsDigit(s[i])
  }

  /** The value of a string of decimal digits. */
  function DigitsValue(s: string): (n: nat)
    requires AllDigits(s)
    ensures |s| == 0 ==> n == 0
  {
    if |s| == 0 then 0
    else DigitsValue(s[..|s| - 1]) * 10 + (s[|s| - 1] as int - '0' as int)
  }

  predicate DigitOrUnderscore(c: char) {
    IsDigit(c) || c == '_'
  }

  /** The digits of an integer literal: digits, with single underscores allowed
      between two digits. */
  predicate DigitGroups(s: string) {
    && |s| > 0 && IsDigit(s[0]) && IsDigit(s[|s| - 1])
    && (forall i :: 0 <= i < |s| ==> DigitOrUnderscore(s[i]))
    && (forall i :: 0 <= i < |s| - 1 && s[i] == '_' ==> s[i + 1] != '_')
  }

  /** The digits of a string, underscores dropped. */
  function DropUnderscores(s: string): (r: string)
    requires forall i :: 0 <= i < |s| ==> DigitOrUnderscore(s[i])
    ensures AllDigits(r) && |r| <= |s|
  {
    if |s| == 0 then []
    else
      var init := DropUnderscores(s[..|s| - 1]);
      if s[|s| - 1] == '_' then init
      else
        assert DigitOrUnderscore(s[|s| - 1]);
        init + [s[|s| - 1]]
  }

  /** The value of digits and underscores, read from the left; an underscore
      leaves the value as it is. */
  function GroupedValue(s: string): nat
    requires forall i :: 0 <= i < |s| ==> DigitOrUnderscore(s[i])
  {
    if |s| == 0 then 0
    else if s[|s| - 1] == '_' then GroupedValue(s[..|s| - 1])
    else
      assert DigitOrUnderscore(s[|s| - 1]);
      GroupedValue(s[..|s| - 1]) * 10 + (s[|s| - 1] as int - '0' as int)
  }

  /** Underscores do not change the value: it is the value of the digits alone. */
  lemma {:induction false} GroupedValueIgnoresUnderscores(s: string)
    requires forall i :: 0 <= i < |s| ==> DigitOrUnderscore(s[i])
    ensures GroupedValue(s) == DigitsValue(DropUnderscores(s))
  {
    if |s| > 0 {
      var init := s[..|s| - 1];
      GroupedValueIgnoresUnderscores(init);
      if s[|s| - 1] != '_' {
        var d := DropUnderscores(init) + [s[|s| - 1]];
        assert d[..|d| - 1] == DropUnderscores(init);
      }
    }
  }

  /** `int(s)` on a string: surrounding whitespace is stripped, then an optional
      sign and the digits follow, with single underscores allowed between
      digits. Only ASCII digits are read. */
  function ParseInt(s: string): Option<int> {
    var t := Strip(s);
    if |t| > 0 && (t[0] == '-' || t[0] == '+') then
      var body := t[1..];
      if DigitGroups(body) then
        var n: int := GroupedValue(body);
        Some(if t[0] == '-' then -n else n)
      else None
    else if DigitGroups(t) then Some(GroupedValue(t))
    else None
  }

  /** Whitespace around the literal does not matter. */
  lemma ParseIntIgnoresPadding(w1: string, s: string, w2: string)
    requires AllSpace(w1) && AllSpace(w2)
    requires |s| > 0 ==> !IsSpace(s[0]) && !IsSpace(s[|s| - 1])
    ensures ParseInt(w1 + s + w2) == ParseInt(s)
  {
    StripRemovesPadding(w1, s, w2);
    StripRemovesPadding("", s, "");
    assert "" + s + "" == s;
  }

  /** A plain run of digits reads as its decimal value, and single underscores
      between the digits do not change it. */
  lemma ParseIntDigits(s: string)
    requires DigitGroups(s)
    ensures ParseInt(s) == Some(DigitsValue(DropUnderscores(s)))
  {
    StripRemovesPadding("", s, "");
    assert "" + s + "" == s;
    assert Strip(s) == s;
    assert IsDigit(s[0]);
    GroupedValueIgnoresUnderscores(s);
  }

  /** Without underscores there is nothing to drop. */
  lemma {:induction false} DropUnderscoresOfDigits(s: string)
    requires AllDigits(s)
    ensures DropUnderscores(s) == s
  {
    if |s| > 0 {
      DropUnderscoresOfDigits(s[..|s| - 1]);
      assert s[..|s| - 1] + [s[|s| - 1]] == s;
    }
  }

  lemma DigitsValueOf150()
    ensures DigitsValue("150") == 150
  {
    assert "150"[..2] == "15" && "15"[..1] == "1" && "1"[..0] == "";
  }

  lemma DigitsValueOf1000()
    ensures DigitsValue("1000") == 1000
  {
    assert "1000"[..3] == "100" && "100"[..2] == "10" && "10"[..1] == "1" && "1"[..0] == "";
  }

  lemma DropUnderscoresOf1_000()
    ensures DropUnderscores("1_000") == "1000"
  {
    assert "1_000"[..4] == "1_00" && "1_00"[..3] == "1_0" && "1_0"[..2] == "1_";
    assert "1_"[..1] == "1" && "1"[..0] == "";
  }

  /** Whitespace around the digits is accepted. */
  lemma ParseIntPadded()
    ensures ParseInt(" 150") == Some(150)
  {
    ParseIntIgnoresPadding(" ", "150", "");
    assert " " + "150" + "" == " 150";
    ParseIntDigits("150");
    DropUnderscoresOfDigits("150");
    DigitsValueOf150();
  }

  /** A single underscore between digits is accepted. */
  lemma ParseIntUnderscored()
    ensures ParseInt("1_000") == Some(1000)
  {
    assert DigitGroups("1_000") by {
      assert forall i :: 0 <= i < 5 ==> DigitOrUnderscore("1_000"[i]);
    }
    ParseIntDigits("1_000");
    DropUnderscoresOf1_000();
    DigitsValueOf1000();
  }

  /** A sign, and a trailing newline, are accepted. */
  lemma ParseIntSigned()
    ensures ParseInt("-42\n") == Some(-42)
  {
    StripRemovesPadding("", "-42", "\n");
    assert "" + "-42" + "\n" == "-42\n";
    assert "-42"[1..] == "42" && "42"[..1] == "4" && "4"[..0] == "";
  }

  /** Doubled, leading or trailing underscores, a bare sign, a space after the
      sign and the empty string make `int()` raise. */
  lemma ParseIntRefuses()
    ensures ParseInt("1__000").None? && ParseInt("_1").None? && ParseInt("1_").None?
    ensures ParseInt("").None? && ParseInt("+").None? && ParseInt("- 1").None?
  {
    StripRemovesPadding("", "1__000", "");
    assert "" + "1__000" + "" == "1__000";
    assert "1__000"[1] == '_' && "1__000"[2] == '_';
    StripRemovesPadding("", "_1", "");
    assert "" + "_1" + "" == "_1";
    StripRemovesPadding("", "1_", "");
    assert "" + "1_" + "" == "1_";
    StripRemovesPadding("", "- 1", "");
    assert "" + "- 1" + "" == "- 1";
    assert "- 1"[1..] == " 1";
    StripRemovesPadding("", "+", "");
    assert "" + "+" + "" == "+";
    assert "+"[1..] == "";
  }

  /** `int(r)` on a float: truncation toward zero. */
  function Truncate(r: real): (n: int)
    ensures 0.0 <= r ==> n as real <= r < n as real + 1.0
    ensures r < 0.0 ==> n as real - 1.0 < r <= n as real
  {
    if r >= 0.0 then r.Floor else -((-r).Floor)
  }

  /** `int(v)`: None where Python raises (None, NaN, timestamps, lists,
      strings that are not integers). */
  function PyInt(v: Value): Option<int> {
    match v
    case VBool(b) => Some(if b then 1 else 0)
    case VInt(i) => Some(i)
    case VReal(r) => Some(Truncate(r))
    case VStr(s) => ParseInt(s)
    case _ => None
  }
}
