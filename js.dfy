/** The few JavaScript built-ins the storefront's logic relies on, stated over
    Dafny values: integer-valued numbers with NaN, truthiness, decimal
    rendering and `parseInt`, ASCII `toLowerCase`, `includes`, `trim`,
    `split` on one character and `join`. */
module Js {
  import opened Wrappers

  /** An integer-valued JavaScript number, or NaN. */
  datatype JsInt = Num(value: int) | NaN

  /** `!!n` for a number: 0 and NaN are falsy. */
  predicate Truthy(n: JsInt) {
    n.Num? && n.value != 0
  }

  /** `!!x` for a `number | null` value such as the session's user id. */
  predicate TruthyId(x: Option<JsInt>) {
    x.Some? && Truthy(x.value)
  }

  /** `!!s` for a `string | null` value: null and "" are falsy. */
  predicate TruthyText(x: Option<string>) {
    x.Some? && x.value != ""
  }

  // ---------------------------------------------------------------- digits

  predicate IsDigit(c: char) {
    '0' <= c <= '9'
  }

  /** The regular expression `^\d+$`: one or more ASCII digits and nothing else. */
  predicate AllDigits(s: string) {
    |s| > 0 && forall i :: 0 <= i < |s| ==> IsDigit(s[i])
  }

  function DigitValue(c: char): (d: nat)
    requires IsDigit(c)
    ensures d < 10
  {
    (c as int - '0' as int) as nat
  }

  function DigitChar(d: nat): (c: char)
    requires d < 10
    ensures IsDigit(c) && DigitValue(c) == d
  {
    ('0' as int + d) as char
  }

  /** The decimal digits of a natural number, most significant first. */
  function DigitsOf(n: nat): (s: string)
    ensures AllDigits(s)
  {
    if n < 10 then [DigitChar(n)] else DigitsOf(n / 10) + [DigitChar(n % 10)]
  }

  /** The value of a string of decimal digits. */
  function DigitsValue(s: string): nat
    requires forall i :: 0 <= i < |s| ==> IsDigit(s[i])
  {
    if s == [] then 0 else DigitsValue(s[..|s| - 1]) * 10 + DigitValue(s[|s| - 1])
  }

  lemma {:induction false} DigitsValueOfDigitsOf(n: nat)
    ensures DigitsValue(DigitsOf(n)) == n
  {
    if n >= 10 {
      DigitsValueOfDigitsOf(n / 10);
      var s := DigitsOf(n);
      assert s[..|s| - 1] == DigitsOf(n / 10);
    }
  }

  /** `n.toString()` for an integer. */
  function NumberToString(n: int): (s: string)
    ensures |s| > 0 && (s[0] == '-' || IsDigit(s[0]))
  {
    if n < 0 then "-" + DigitsOf(-n) else DigitsOf(n)
  }

  /** `String(x)` for a number that may be NaN. */
  function JsIntToString(n: JsInt): string {
    match n
    case Num(v) => NumberToString(v)
    case NaN => "NaN"
  }

  // ------------------------------------------------------------ whitespace

  /** ECMAScript WhiteSpace and LineTerminator code points, the set `trim`
      and `parseInt` skip. */
  predicate IsSpace(c: char) {
    c == '\t' || c == '\n' || c == '\U{000B}' || c == '\U{000C}' || c == '\r' || c == ' '
    || c == '\U{00A0}' || c == '\U{1680}' || ('\U{2000}' <= c <= '\U{200A}')
    || c == '\U{2028}' || c == '\U{2029}' || c == '\U{202F}' || c == '\U{205F}'
    || c == '\U{3000}' || c == '\U{FEFF}'
  }

  function TrimStart(s: string): (r: string)
    ensures |r| <= |s|
    ensures r != [] ==> !IsSpace(r[0])
  {
    if s != [] && IsSpace(s[0]) then TrimStart(s[1..]) else s
  }

  function TrimEnd(s: string): (r: string)
    ensures |r| <= |s|
    ensures r != [] ==> !IsSpace(r[|r| - 1])
  {
    if s != [] && IsSpace(s[|s| - 1]) then TrimEnd(s[..|s| - 1]) else s
  }

  /** `trimStart` only removes characters from the front. */
  lemma {:induction false} TrimStartIsSuffix(s: string)
    ensures TrimStart(s) == s[|s| - |TrimStart(s)|..]
  {
    if s != [] && IsSpace(s[0]) {
      TrimStartIsSuffix(s[1..]);
    }
  }

  /** `trimEnd` only removes characters from the back. */
  lemma {:induction false} TrimEndIsPrefix(s: string)
    ensures TrimEnd(s) == s[..|TrimEnd(s)|]
  {
    if s != [] && IsSpace(s[|s| - 1]) {
      TrimEndIsPrefix(s[..|s| - 1]);
    }
  }

  /** Every character of `s.trim()` is a character of `s`. */
  lemma TrimChars(s: string)
    ensures forall i :: 0 <= i < |Trim(s)| ==> Trim(s)[i] in s
  {
    var t := TrimStart(s);
    TrimStartIsSuffix(s);
    TrimEndIsPrefix(t);
    forall i | 0 <= i < |t| ensures t[i] in s {
      assert t[i] == s[|s| - |t| + i];
    }
    forall i | 0 <= i < |TrimEnd(t)| ensures TrimEnd(t)[i] in s {
      assert TrimEnd(t)[i] == t[i];
    }
  }

  /** Trimming adds no character. */
  lemma TrimKeepsOut(s: string, c: char)
    requires c !in s
    ensures c !in Trim(s)
  {
    TrimChars(s);
  }

  /** No whitespace at either edge. */
  predicate Trimmed(s: string) {
    s == [] || (!IsSpace(s[0]) && !IsSpace(s[|s| - 1]))
  }

  /** `s.trim()`. */
  function Trim(s: string): string {
    TrimEnd(TrimStart(s))
  }

  lemma TrimIsTrimmed(s: string)
    ensures Trimmed(Trim(s))
  {
    var t := TrimStart(s);
    var r := TrimEnd(t);
    TrimEndIsPrefix(t);
    if r != [] {
      assert r[0] == t[0];
    }
  }

  lemma TrimOfTrimmed(s: string)
    requires Trimmed(s)
    ensures Trim(s) == s
  {
  }

  /** Trimming a string of whitespace that precedes a trimmed one gives it back. */
  lemma {:induction false} TrimAfterSpaces(w: string, s: string)
    requires forall i :: 0 <= i < |w| ==> IsSpace(w[i])
    requires Trimmed(s)
    ensures Trim(w + s) == s
  {
    if w != [] {
      assert (w + s)[1..] == w[1..] + s;
      TrimAfterSpaces(w[1..], s);
    } else {
      assert w + s == s;
    }
  }

  // ---------------------------------------------------------------- parseInt

  /** The longest prefix of ASCII digits. */
  function DigitPrefix(s: string): (r: string)
    ensures |r| <= |s| && r == s[..|r|]
    ensures forall i :: 0 <= i < |r| ==> IsDigit(r[i])
    ensures |r| < |s| ==> !IsDigit(s[|r|])
  {
    if s != [] && IsDigit(s[0]) then [s[0]] + DigitPrefix(s[1..]) else []
  }

  /** `parseInt(s, 10)`: leading whitespace skipped, an optional sign, then
      the longest run of digits; NaN when there is none. */
  function ParseInt(s: string): JsInt {
    var t := TrimStart(s);
    if t != [] && (t[0] == '-' || t[0] == '+') then
      var d := DigitPrefix(t[1..]);
      if d == [] then NaN
      else if t[0] == '-' then Num(-(DigitsValue(d) as int))
      else Num(DigitsValue(d))
    else
      var d := DigitPrefix(t);
      if d == [] then NaN else Num(DigitsValue(d))
  }

  lemma DigitPrefixOfDigits(s: string)
    requires forall i :: 0 <= i < |s| ==> IsDigit(s[i])
    ensures DigitPrefix(s) == s
  {
  }

  /** The digit run ends at the first character that is not a digit. */
  lemma {:induction false} DigitPrefixStops(d: string, rest: string)
    requires forall i :: 0 <= i < |d| ==> IsDigit(d[i])
    requires rest == [] || !IsDigit(rest[0])
    ensures DigitPrefix(d + rest) == d
  {
    if d != [] {
      assert (d + rest)[1..] == d[1..] + rest;
      DigitPrefixStops(d[1..], rest);
      assert [d[0]] + d[1..] == d;
    } else {
      assert d + rest == rest;
    }
  }

  /** `parseInt` of a positive number's text followed by a non-digit reads the number. */
  lemma ParseIntOfNumberThen(n: nat, rest: string)
    requires rest == [] || !IsDigit(rest[0])
    ensures ParseInt(NumberToString(n) + rest) == Num(n)
  {
    var s := NumberToString(n) + rest;
    assert NumberToString(n) == DigitsOf(n);
    assert s[0] == DigitsOf(n)[0];
    assert TrimStart(s) == s;
    DigitPrefixStops(DigitsOf(n), rest);
    DigitsValueOfDigitsOf(n);
  }

  /** `parseInt(String(n), 10) === n` for every integer `n`. */
  lemma ParseIntOfNumberToString(n: int)
    ensures ParseInt(NumberToString(n)) == Num(n)
  {
    if n >= 0 {
      assert NumberToString(n) + "" == NumberToString(n);
      ParseIntOfNumberThen(n, "");
    } else {
      var s := NumberToString(n);
      var d := DigitsOf(-n);
      assert s == "-" + d && s[1..] == d;
      assert TrimStart(s) == s;
      DigitPrefixOfDigits(d);
      DigitsValueOfDigitsOf(-n);
    }
  }

  // ------------------------------------------------------ case and substrings

  function LowerChar(c: char): (r: char)
    ensures ('A' <= c <= 'Z') ==> r == (c as int + 32) as char
    ensures !('A' <= c <= 'Z') ==> r == c
  {
    if 'A' <= c <= 'Z' then (c as int + 32) as char else c
  }

  /** `s.toLowerCase()` on the ASCII letters. */
  function ToLower(s: string): (r: string)
    ensures |r| == |s|
    ensures forall i :: 0 <= i < |s| ==> r[i] == LowerChar(s[i])
  {
    if s == [] then [] else [LowerChar(s[0])] + ToLower(s[1..])
  }

  /** `q` occurs in `s` starting at offset `i`. */
  predicate OccursAt(s: string, q: string, i: nat) {
    i + |q| <= |s| && s[i..i + |q|] == q
  }

  /** `s.includes(q)`: `q` occurs in `s` at some offset. */
  predicate Includes(s: string, q: string) {
    exists i: nat | i <= |s| :: OccursAt(s, q, i)
  }

  lemma IncludesEmpty(s: string)
    ensures Includes(s, "")
  {
    assert OccursAt(s, "", 0);
  }

  // ----------------------------------------------------------- split and join

  /** `s.split(c)` for a one-character separator: always at least one piece. */
  function Split(s: string, c: char): (r: seq<string>)
    ensures |r| > 0
  {
    if s == [] then [""]
    else
      var rest := Split(s[1..], c);
      if s[0] == c then [""] + rest else [[s[0]] + rest[0]] + rest[1..]
  }

  /** `xs.join(sep)`. */
  function Join(xs: seq<string>, sep: string): string {
    if |xs| == 0 then ""
    else if |xs| == 1 then xs[0]
    else xs[0] + sep + Join(xs[1..], sep)
  }

  /** No piece of a split holds the separator. */
  lemma {:induction false} SplitPiecesLackSeparator(s: string, c: char)
    ensures forall k :: 0 <= k < |Split(s, c)| ==> c !in Split(s, c)[k]
  {
    if s != [] {
      SplitPiecesLackSeparator(s[1..], c);
      var rest := Split(s[1..], c);
      if s[0] != c {
        assert c !in [s[0]] + rest[0];
        assert forall k :: 0 < k < |Split(s, c)| ==> Split(s, c)[k] == rest[k];
      }
    }
  }

  /** Splitting a piece that holds no separator yields that piece alone. */
  lemma {:induction false} SplitWithout(a: string, c: char)
    requires c !in a
    ensures Split(a, c) == [a]
  {
    if a != [] {
      SplitWithout(a[1..], c);
      assert [a[0]] + a[1..] == a;
    }
  }

  /** A separator after a separator-free prefix ends the first piece. */
  lemma {:induction false} SplitAt(a: string, c: char, b: string)
    requires c !in a
    ensures Split(a + [c] + b, c) == [a] + Split(b, c)
  {
    if a == [] {
      assert a + [c] + b == [c] + b;
      assert ([c] + b)[1..] == b;
    } else {
      var s := a + [c] + b;
      assert s[1..] == a[1..] + [c] + b;
      SplitAt(a[1..], c, b);
      assert [a[0]] + a[1..] == a;
    }
  }

  /** Round trip: splitting the join of separator-free pieces returns the pieces. */
  lemma {:induction false} SplitJoin(xs: seq<string>, c: char)
    requires |xs| > 0
    requires forall k :: 0 <= k < |xs| ==> c !in xs[k]
    ensures Split(Join(xs, [c]), c) == xs
  {
    if |xs| == 1 {
      SplitWithout(xs[0], c);
    } else {
      SplitJoin(xs[1..], c);
      SplitAt(xs[0], c, Join(xs[1..], [c]));
      assert [xs[0]] + xs[1..] == xs;
    }
  }
}
