/** String operations with the meaning JavaScript gives them in the client:
    truthiness of strings, `||` defaults, `includes`, `startsWith`, number
    formatting, `replace(/\D/g, '')`, `trim`, `toUpperCase`/`toLowerCase` and
    `join`. Strings are sequences of Unicode scalar values. */
module JsText {
  import opened Base

  /** JavaScript truthiness of a `string | null | undefined` value. */
  predicate Present(o: Option<string>)
  {
    o.Some? && o.value != ""
  }

  /** `s || fallback` for a string `s`. */
  function Or(s: string, fallback: string): (r: string)
    ensures r == s || r == fallback
    ensures r != "" <==> s != "" || fallback != ""
  {
    if s != "" then s else fallback
  }

  /** `o || fallback` for a `string | null | undefined` value `o`. */
  function OrElse(o: Option<string>, fallback: string): (r: string)
    ensures Present(o) ==> r == o.value
    ensures !Present(o) ==> r == fallback
  {
    if Present(o) then o.value else fallback
  }

  predicate StartsWith(s: string, prefix: string)
  {
    |prefix| <= |s| && s[..|prefix|] == prefix
  }

  /** `s.includes(sub)`. */
  predicate Contains(s: string, sub: string)
  {
    exists i :: 0 <= i <= |s| - |sub| && OccursAt(s, sub, i)
  }

  predicate OccursAt(s: string, sub: string, i: int)
    requires 0 <= i <= |s| - |sub|
  {
    s[i..i + |sub|] == sub
  }

  // ---------------------------------------------------------------- digits

  predicate IsDigit(c: char)
  {
    '0' <= c <= '9'
  }

  predicate AllDigits(s: string)
  {
    forall i :: 0 <= i < |s| ==> IsDigit(s[i])
  }

  function DigitChar(d: nat): (c: char)
    requires d < 10
    ensures IsDigit(c)
  {
    "0123456789"[d]
  }

  function DigitValue(c: char): nat
    requires IsDigit(c)
  {
    (c as int - '0' as int) as nat
  }

  /** Decimal rendering of a natural number, as template literals render it. */
  function NatToString(n: nat): (s: string)
    ensures |s| >= 1 && AllDigits(s)
  {
    if n < 10 then [DigitChar(n)] else NatToString(n / 10) + [DigitChar(n % 10)]
  }

  /** The number a string of decimal digits denotes. */
  function DigitsValue(s: string): nat
    requires AllDigits(s)
  {
    if s == [] then 0 else DigitsValue(s[..|s| - 1]) * 10 + DigitValue(s[|s| - 1])
  }

  /** A rendered number reads back as itself. */
  lemma {:induction false} NatToStringRoundTrip(n: nat)
    ensures DigitsValue(NatToString(n)) == n
  {
    var s := NatToString(n);
    if n >= 10 {
      NatToStringRoundTrip(n / 10);
      assert s[..|s| - 1] == NatToString(n / 10);
    }
  }

  /** Rendering is injective: different counts give different texts. */
  lemma NatToStringInjective(m: nat, n: nat)
    requires NatToString(m) == NatToString(n)
    ensures m == n
  {
    NatToStringRoundTrip(m);
    NatToStringRoundTrip(n);
  }

  /** `s.replace(/\D/g, '')`: the ASCII digits of `s`, in order. */
  function OnlyDigits(s: string): (r: string)
    ensures AllDigits(r)
    ensures |r| <= |s|
    ensures forall c :: c in r <==> c in s && IsDigit(c)
  {
    if s == [] then []
    else if IsDigit(s[0]) then [s[0]] + OnlyDigits(s[1..])
    else OnlyDigits(s[1..])
  }

  /** One character is kept exactly when it is a digit. */
  lemma OnlyDigitsOfChar(c: char)
    ensures OnlyDigits([c]) == if IsDigit(c) then [c] else []
  {
    assert [c][1..] == [];
  }

  /** Cleaning works piece by piece: the digits of a concatenation are the
      digits of the first part followed by those of the second. With
      `OnlyDigitsOfChar` this fixes the result for every string. */
  lemma {:induction false} OnlyDigitsConcat(a: string, b: string)
    ensures OnlyDigits(a + b) == OnlyDigits(a) + OnlyDigits(b)
  {
    if a == [] {
      assert a + b == b;
    } else {
      assert (a + b)[0] == a[0];
      assert (a + b)[1..] == a[1..] + b;
      OnlyDigitsConcat(a[1..], b);
    }
  }

  lemma {:induction false} OnlyDigitsKeepsDigits(s: string)
    requires AllDigits(s)
    ensures OnlyDigits(s) == s
  {
    if s != [] {
      OnlyDigitsKeepsDigits(s[1..]);
    }
  }

  /** Cleaning twice is cleaning once. */
  lemma OnlyDigitsIdempotent(s: string)
    ensures OnlyDigits(OnlyDigits(s)) == OnlyDigits(s)
  {
    OnlyDigitsKeepsDigits(OnlyDigits(s));
  }

  /** `Number(cents / 100).toString()` for an amount held in cents: the integer
      part, then a point and one or two decimals only when they are not zero. */
  function CentsText(cents: int): (s: string)
    ensures s != ""
  {
    if cents < 0 then "-" + UnsignedCentsText(-cents) else UnsignedCentsText(cents)
  }

  function UnsignedCentsText(cents: nat): (s: string)
    ensures s != ""
  {
    var whole, frac := cents / 100, cents % 100;
    NatToString(whole) +
    (if frac == 0 then ""
     else if frac % 10 == 0 then "." + [DigitChar(frac / 10)]
     else "." + [DigitChar(frac / 10), DigitChar(frac % 10)])
  }

  // ---------------------------------------------------------------- whitespace

  /** The characters `String.prototype.trim` removes (WhiteSpace and
      LineTerminator of ECMAScript). */
  predicate IsJsSpace(c: char)
  {
    c == ' ' || c == '\t' || c == '\n' || c == '\r' || c == '\U{0B}' || c == '\U{0C}' ||
    c == '\U{A0}' || c == '\U{1680}' || ('\U{2000}' <= c <= '\U{200A}') ||
    c == '\U{2028}' || c == '\U{2029}' || c == '\U{202F}' || c == '\U{205F}' ||
    c == '\U{3000}' || c == '\U{FEFF}'
  }

  function TrimStart(s: string): string
  {
    if s != [] && IsJsSpace(s[0]) then TrimStart(s[1..]) else s
  }

  function TrimEnd(s: string): string
  {
    if s != [] && IsJsSpace(s[|s| - 1]) then TrimEnd(s[..|s| - 1]) else s
  }

  function Trim(s: string): string
  {
    TrimEnd(TrimStart(s))
  }

  /** Some character of `s` is not white space. */
  predicate HasContent(s: string)
  {
    exists i :: 0 <= i < |s| && !IsJsSpace(s[i])
  }

  lemma {:induction false} TrimStartContent(s: string)
    ensures TrimStart(s) == [] <==> !HasContent(s)
    ensures HasContent(TrimStart(s)) <==> HasContent(s)
  {
    if s != [] && IsJsSpace(s[0]) {
      TrimStartContent(s[1..]);
      assert forall i :: 0 < i < |s| ==> s[i] == s[1..][i - 1];
    }
  }

  lemma {:induction false} TrimEndContent(s: string)
    ensures TrimEnd(s) == [] <==> !HasContent(s)
  {
    if s != [] && IsJsSpace(s[|s| - 1]) {
      var t := s[..|s| - 1];
      TrimEndContent(t);
      assert forall i :: 0 <= i < |t| ==> s[i] == t[i];
    }
  }

  /** `s.trim().length > 0` holds exactly when `s` has a non-space character. */
  lemma TrimNonEmpty(s: string)
    ensures |Trim(s)| > 0 <==> HasContent(s)
  {
    TrimStartContent(s);
    TrimEndContent(TrimStart(s));
  }

  // ---------------------------------------------------------------- case

  /** `toUpperCase` on one character, for the ASCII and Latin-1 letters. */
  function UpperChar(c: char): char
  {
    if 'a' <= c <= 'z' || ('\U{E0}' <= c <= '\U{FE}' && c != '\U{F7}') then
      (c as int - 32) as char
    else c
  }

  /** `toLowerCase` on one character, for the ASCII and Latin-1 letters. */
  function LowerChar(c: char): char
  {
    if 'A' <= c <= 'Z' || ('\U{C0}' <= c <= '\U{DE}' && c != '\U{D7}') then
      (c as int + 32) as char
    else c
  }

  function ToUpper(s: string): (r: string)
    ensures |r| == |s|
    ensures forall i :: 0 <= i < |s| ==> r[i] == UpperChar(s[i])
  {
    if s == [] then [] else [UpperChar(s[0])] + ToUpper(s[1..])
  }

  function ToLower(s: string): (r: string)
    ensures |r| == |s|
    ensures forall i :: 0 <= i < |s| ==> r[i] == LowerChar(s[i])
  {
    if s == [] then [] else [LowerChar(s[0])] + ToLower(s[1..])
  }

  /** Upper-casing an upper-cased text changes nothing. */
  lemma ToUpperIdempotent(s: string)
    ensures ToUpper(ToUpper(s)) == ToUpper(s)
  {
  }

  /** Lower-casing a lower-cased text changes nothing. */
  /** A word of lower-case ASCII letters is its own lower case. */
  lemma LowerWordUnchanged(s: string)
    requires forall i :: 0 <= i < |s| ==> 'a' <= s[i] <= 'z'
    ensures ToLower(s) == s
  {
  }

  lemma ContainsItself(s: string)
    ensures Contains(s, s)
  {
    assert OccursAt(s, s, 0);
  }

  lemma ToLowerIdempotent(s: string)
    ensures ToLower(ToLower(s)) == ToLower(s)
  {
  }

  // ---------------------------------------------------------------- join

  /** `parts.join(sep)`. */
  function Join(parts: seq<string>, sep: string): string
  {
    if parts == [] then ""
    else if |parts| == 1 then parts[0]
    else parts[0] + sep + Join(parts[1..], sep)
  }

  /** Splitting at every occurrence of `sep`, the inverse reading of `Join`. */
  function Split(s: string, sep: char): (r: seq<string>)
    ensures |r| >= 1
  {
    if s == [] then [""]
    else
      var rest := Split(s[1..], sep);
      if s[0] == sep then [""] + rest
      else [[s[0]] + rest[0]] + rest[1..]
  }

  predicate Free(s: string, c: char)
  {
    forall i :: 0 <= i < |s| ==> s[i] != c
  }

  lemma FreeConcat(a: string, b: string, c: char)
    requires Free(a, c) && Free(b, c)
    ensures Free(a + b, c)
  {
    forall i | 0 <= i < |a + b| ensures (a + b)[i] != c {
      if i >= |a| { assert (a + b)[i] == b[i - |a|]; }
    }
  }

  /** Two separators in a row leave an empty part between them. */
  lemma SplitDoubleSeparator(a: string, b: string, sep: char)
    requires Free(a, sep) && Free(b, sep)
    ensures Split(a + [sep, sep] + b, sep) == [a, "", b]
  {
    assert a + [sep, sep] + b == a + [sep] + ([] + [sep] + b);
    SplitFree(a, sep, [] + [sep] + b);
    SplitFree([], sep, b);
    SplitOfFree(b, sep);
  }

  lemma {:induction false} SplitFree(s: string, sep: char, tail: string)
    requires Free(s, sep)
    ensures Split(s + [sep] + tail, sep) == [s] + Split(tail, sep)
  {
    if s == [] {
      assert ([] + [sep] + tail)[1..] == tail;
    } else {
      SplitFree(s[1..], sep, tail);
      assert (s + [sep] + tail)[1..] == s[1..] + [sep] + tail;
      assert [s[0]] + s[1..] == s;
    }
  }

  lemma {:induction false} SplitOfFree(s: string, sep: char)
    requires Free(s, sep)
    ensures Split(s, sep) == [s]
  {
    if s != [] {
      SplitOfFree(s[1..], sep);
      assert [s[0]] + s[1..] == s;
    }
  }

  /** Joining parts that do not contain the separator and splitting the result
      gives the parts back. */
  lemma {:induction false} SplitJoin(parts: seq<string>, sep: char)
    requires |parts| >= 1
    requires forall k :: 0 <= k < |parts| ==> Free(parts[k], sep)
    ensures Split(Join(parts, [sep]), sep) == parts
  {
    if |parts| == 1 {
      SplitOfFree(parts[0], sep);
    } else {
      SplitJoin(parts[1..], sep);
      SplitFree(parts[0], sep, Join(parts[1..], [sep]));
      assert parts == [parts[0]] + parts[1..];
    }
  }
}
