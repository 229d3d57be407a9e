/** The pieces of JavaScript value semantics the components rely on: optional values,
    truthiness of strings, `String.prototype.trim` and `Number(string)`. */
module JsValues {

  datatype Option<+T> = None | Some(value: T)

  /** A possibly absent string used as a condition: `undefined`, `null` and `''` are falsy. */
  predicate Truthy(s: Option<string>)
  {
    s.Some? && s.value != ""
  }

  /** WhiteSpace and LineTerminator code points of ECMAScript (sections 12.2 and 12.3 of
      ECMA-262), the characters `trim` removes and `Number` ignores around a numeral. */
  predicate IsWhiteSpace(c: char)
  {
    c == '\t' || c == '\n' || c == '\U{000B}' || c == '\U{000C}' || c == '\r' || c == ' '
    || c == '\U{00A0}' || c == '\U{1680}' || ('\U{2000}' <= c <= '\U{200A}')
    || c == '\U{2028}' || c == '\U{2029}' || c == '\U{202F}' || c == '\U{205F}'
    || c == '\U{3000}' || c == '\U{FEFF}'
  }

  /** Every character of `s` is white space (so `s.trim()` is falsy). */
  predicate IsBlank(s: string)
  {
    forall i :: 0 <= i < |s| ==> IsWhiteSpace(s[i])
  }

  /** `s` with its leading white space removed. */
  function TrimStart(s: string): (r: string)
    ensures |r| <= |s| && r == s[|s| - |r|..]
    ensures forall i :: 0 <= i < |s| - |r| ==> IsWhiteSpace(s[i])
    ensures r == [] || !IsWhiteSpace(r[0])
  {
    if s != [] && IsWhiteSpace(s[0]) then TrimStart(s[1..]) else s
  }

  /** `s` with its trailing white space removed. */
  function TrimEnd(s: string): (r: string)
    ensures |r| <= |s| && r == s[..|r|]
    ensures forall i :: |r| <= i < |s| ==> IsWhiteSpace(s[i])
    ensures r == [] || !IsWhiteSpace(r[|r| - 1])
  {
    if s != [] && IsWhiteSpace(s[|s| - 1]) then TrimEnd(s[..|s| - 1]) else s
  }

  /** `s.trim()`: what is left of `s` once white space is cut off both ends; it neither
      starts nor ends with white space. */
  function Trim(s: string): (r: string)
    ensures |r| <= |s|
    ensures r == [] || (!IsWhiteSpace(r[0]) && !IsWhiteSpace(r[|r| - 1]))
  {
    TrimEnd(TrimStart(s))
  }

  /** Dropping `i` elements and then `j` more drops `i + j`. */
  lemma DropDrop<T>(s: seq<T>, i: nat, j: nat)
    requires i + j <= |s|
    ensures s[i..][j..] == s[i + j..]
  {
  }

  /** What `TrimStart` cuts off is white space. */
  lemma {:induction false} TrimStartCutsBlank(s: string)
    ensures IsBlank(s[..|s| - |TrimStart(s)|])
  {
    var prefix := s[..|s| - |TrimStart(s)|];
    forall k | 0 <= k < |prefix|
      ensures IsWhiteSpace(prefix[k])
    {
      assert prefix[k] == s[k];
    }
  }

  /** What `TrimEnd` cuts off is white space. */
  lemma {:induction false} TrimEndCutsBlank(t: string)
    ensures IsBlank(t[|TrimEnd(t)|..])
  {
    var suffix := t[|TrimEnd(t)|..];
    forall k | 0 <= k < |suffix|
      ensures IsWhiteSpace(suffix[k])
    {
      assert suffix[k] == t[|TrimEnd(t)| + k];
    }
  }

  /** `s.trim()` is the slice of `s` that starts after its leading white space. */
  lemma {:induction false} TrimSlice(s: string)
    ensures var i := |s| - |TrimStart(s)|; i + |Trim(s)| <= |s| && Trim(s) == s[i..i + |Trim(s)|]
  {
    var t := TrimStart(s);
    assert t == s[|s| - |t|..];
  }

  /** What follows `s.trim()` in `s` is white space. */
  lemma {:induction false} TrimSuffixBlank(s: string)
    ensures var i := |s| - |TrimStart(s)|; i + |Trim(s)| <= |s| && IsBlank(s[i + |Trim(s)|..])
  {
    var t := TrimStart(s);
    TrimEndCutsBlank(t);
    DropDrop(s, |s| - |t|, |TrimEnd(t)|);
  }

  /** `s.trim()` is the slice of `s` after its leading white space, with a blank prefix and a
      blank suffix cut off; with the ends clause of `Trim` this fixes the result: the cut is
      exactly the white space at either end. */
  lemma {:induction false} TrimCutsBlankEnds(s: string)
    ensures var i := |s| - |TrimStart(s)|;
      i + |Trim(s)| <= |s| && Trim(s) == s[i..i + |Trim(s)|]
      && IsBlank(s[..i]) && IsBlank(s[i + |Trim(s)|..])
  {
    TrimStartCutsBlank(s);
    TrimSlice(s);
    TrimSuffixBlank(s);
  }

  /** `s.trim()` is the empty string exactly when `s` consists of white space only. */
  lemma {:induction false} TrimEmptyIffBlank(s: string)
    ensures Trim(s) == "" <==> IsBlank(s)
  {
    var t := TrimStart(s);
    var k := |s| - |t|;
    assert t == s[k..];
    if IsBlank(s) {
      assert IsBlank(t);
    } else {
      var i :| 0 <= i < |s| && !IsWhiteSpace(s[i]);
      assert k <= i;
      assert t[i - k] == s[i];
      assert i - k < |TrimEnd(t)|;
    }
  }

  /** `s.trim()` leaves a string alone that neither starts nor ends with white space. */
  lemma {:induction false} TrimUntrimmed(s: string)
    requires s != [] ==> !IsWhiteSpace(s[0]) && !IsWhiteSpace(s[|s| - 1])
    ensures Trim(s) == s
  {
    assert TrimStart(s) == s;
  }

  predicate IsDigit(c: char)
  {
    '0' <= c <= '9'
  }

  predicate AllDigits(s: string)
  {
    forall i :: 0 <= i < |s| ==> IsDigit(s[i])
  }

  /** The value of a string of decimal digits, most significant first. */
  function DigitsValue(s: string): (n: nat)
    requires AllDigits(s)
  {
    if s == [] then 0
    else 10 * DigitsValue(s[..|s| - 1]) + (s[|s| - 1] as int - '0' as int)
  }

  /** The decimal numeral of `n`, most significant digit first. */
  function NatToDecimal(n: nat): (s: string)
    ensures s != [] && AllDigits(s)
  {
    var d := ['0' + (n % 10) as char];
    if n < 10 then d else NatToDecimal(n / 10) + d
  }

  /** Reading back the decimal form of `n` gives `n`. */
  lemma {:induction false} DecimalRoundTrip(n: nat)
    ensures DigitsValue(NatToDecimal(n)) == n
  {
    var s := NatToDecimal(n);
    if n >= 10 {
      DecimalRoundTrip(n / 10);
      assert s[..|s| - 1] == NatToDecimal(n / 10);
    }
  }

  /** The value of a numeral with the surrounding white space already removed: decimal
      digits with an optional sign. `None` stands for `NaN`. */
  function NumeralValue(t: string): (r: Option<int>)
    ensures AllDigits(t) && t != [] ==> r == Some(DigitsValue(t))
  {
    if t != [] && (t[0] == '-' || t[0] == '+') then
      if |t| > 1 && AllDigits(t[1..]) then
        var v: int := DigitsValue(t[1..]);
        Some(if t[0] == '-' then -v else v)
      else None
    else if t != [] && AllDigits(t) then Some(DigitsValue(t))
    else None
  }

  /** `Number(s)` for a string: the numeral between the white space at either end; an empty
      or all-blank string is 0. */
  function StringToNumber(s: string): (r: Option<int>)
    ensures IsBlank(s) ==> r == Some(0)
    ensures AllDigits(s) && s != [] ==> r == Some(DigitsValue(s))
  {
    TrimEmptyIffBlank(s);
    assert AllDigits(s) && s != [] ==> Trim(s) == s by {
      if AllDigits(s) && s != [] { TrimUntrimmed(s); }
    }
    if Trim(s) == "" then Some(0) else NumeralValue(Trim(s))
  }
}
