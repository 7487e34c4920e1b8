/** The JavaScript string and number built-ins that the screens' handlers rely on:
    `trim`, `toLowerCase`, `split('-')`, `join`, `startsWith`, `Number(text)` and
    the decimal rendering of a number inside a template string. */
module Strings {

  datatype Option<+T> = None | Some(value: T)

  /** The characters `\s` matches in a JavaScript regular expression; they are also
      exactly the characters `String.prototype.trim` removes. */
  predicate IsSpace(c: char) {
    c == ' ' || c == '\t' || c == '\n' || c == '\r' || c == '\U{B}' || c == '\U{C}'
    || c == '\U{A0}' || c == '\U{1680}' || ('\U{2000}' <= c <= '\U{200A}')
    || c == '\U{2028}' || c == '\U{2029}' || c == '\U{202F}' || c == '\U{205F}'
    || c == '\U{3000}' || c == '\U{FEFF}'
  }

  predicate IsDigit(c: char) {
    '0' <= c <= '9'
  }

  predicate IsUpper(c: char) {
    'A' <= c <= 'Z'
  }

  predicate AllDigits(s: string) {
    forall i :: 0 <= i < |s| ==> IsDigit(s[i])
  }

  /** The one-character classes the screens' regular expressions test for. */
  datatype CharClass = Upper | Digit | Special | Dot

  /** The characters of `[!@#$%^&*(),.?":{}|<>]`. */
  predicate IsSpecial(c: char) {
    || c == '!' || c == '@' || c == '#' || c == '$' || c == '%' || c == '^' || c == '&'
    || c == '*' || c == '(' || c == ')' || c == ',' || c == '.' || c == '?' || c == '"'
    || c == ':' || c == '{' || c == '}' || c == '|' || c == '<' || c == '>'
  }

  predicate InClass(c: char, cls: CharClass) {
    match cls
    case Upper => IsUpper(c)
    case Digit => IsDigit(c)
    case Special => IsSpecial(c)
    case Dot => c == '.'
  }

  /** Whether some character of `s` is in `cls`, as a regular expression `test` on a
      one-character class finds. */
  function Any(s: string, cls: CharClass): (b: bool)
    ensures b <==> exists i :: 0 <= i < |s| && InClass(s[i], cls)
  {
    if |s| == 0 then false
    else if InClass(s[0], cls) then true
    else
      var b := Any(s[1..], cls);
      assert forall i :: 1 <= i < |s| ==> s[i] == s[1..][i - 1];
      b
  }

  /** Position of the first occurrence of `c`, as `indexOf` finds it. */
  function IndexOf(s: string, c: char): (r: Option<nat>)
    ensures r.Some? ==> r.value < |s| && s[r.value] == c && forall i :: 0 <= i < r.value ==> s[i] != c
    ensures r.None? ==> forall i :: 0 <= i < |s| ==> s[i] != c
  {
    if |s| == 0 then None
    else if s[0] == c then Some(0)
    else match IndexOf(s[1..], c)
      case None => None
      case Some(k) => Some(k + 1)
  }

  predicate StartsWith(s: string, prefix: string) {
    |prefix| <= |s| && s[..|prefix|] == prefix
  }

  // ---------------------------------------------------------------- trim

  /** Number of whitespace characters at the front of `s`. */
  function LeadingSpaces(s: string): (k: nat)
    ensures k <= |s|
    ensures forall i :: 0 <= i < k ==> IsSpace(s[i])
    ensures k < |s| ==> !IsSpace(s[k])
  {
    if |s| == 0 || !IsSpace(s[0]) then 0
    else
      var k := LeadingSpaces(s[1..]);
      assert forall i :: 1 <= i < |s| ==> s[i] == s[1..][i - 1];
      k + 1
  }

  /** Number of whitespace characters at the back of `s`. */
  function TrailingSpaces(s: string): (k: nat)
    ensures k <= |s|
    ensures forall i :: |s| - k <= i < |s| ==> IsSpace(s[i])
    ensures k < |s| ==> !IsSpace(s[|s| - 1 - k])
  {
    if |s| == 0 || !IsSpace(s[|s| - 1]) then 0
    else
      var k := TrailingSpaces(s[..|s| - 1]);
      assert forall i :: 0 <= i < |s| - 1 ==> s[i] == s[..|s| - 1][i];
      k + 1
  }

  /** Where `s.trim()` cuts: the longest slice of `s` that neither starts nor ends with
      whitespace and whose cut-off ends are all whitespace. */
  function TrimBounds(s: string): (b: (nat, nat))
    ensures TrimmedAt(s, b.0, b.1)
  {
    var lo := LeadingSpaces(s);
    if lo == |s| then (lo, lo) else (lo, |s| - TrailingSpaces(s))
  }

  /** `s.trim()`. */
  function Trim(s: string): string
  {
    s[TrimBounds(s).0..TrimBounds(s).1]
  }

  /** `s[lo..hi]` is what is left after removing whitespace at both ends. */
  predicate TrimmedAt(s: string, lo: int, hi: int) {
    && 0 <= lo <= hi <= |s|
    && (forall i :: 0 <= i < lo ==> IsSpace(s[i]))
    && (forall i :: hi <= i < |s| ==> IsSpace(s[i]))
    && (lo < hi ==> !IsSpace(s[lo]) && !IsSpace(s[hi - 1]))
  }

  /** The trimmed string neither starts nor ends with whitespace. */
  lemma TrimEnds(s: string)
    ensures Trim(s) == [] || (!IsSpace(Trim(s)[0]) && !IsSpace(Trim(s)[|Trim(s)| - 1]))
  {
  }

  /** A string without whitespace at its ends is left unchanged by trim. */
  lemma {:induction false} TrimNoop(s: string)
    requires s == [] || (!IsSpace(s[0]) && !IsSpace(s[|s| - 1]))
    ensures Trim(s) == s
  {
    var (lo, hi) := TrimBounds(s);
    if s != [] {
      assert lo == 0;
      assert hi == |s|;
    }
  }

  /** Trimming twice trims no more than trimming once. */
  lemma TrimIdempotent(s: string)
    ensures Trim(Trim(s)) == Trim(s)
  {
    TrimEnds(s);
    TrimNoop(Trim(s));
  }

  // ---------------------------------------------------------------- lower case

  function LowerChar(c: char): (d: char)
    ensures IsUpper(c) ==> d as int == c as int + 32
    ensures !IsUpper(c) ==> d == c
  {
    if IsUpper(c) then (c as int + 32) as char else c
  }

  /** `s.toLowerCase()` on the ASCII letters. */
  function ToLower(s: string): (r: string)
    ensures |r| == |s|
    ensures forall i :: 0 <= i < |s| ==> !IsUpper(r[i])
    ensures forall i :: 0 <= i < |s| && IsUpper(s[i]) ==> r[i] as int == s[i] as int + 32
    ensures forall i :: 0 <= i < |s| && !IsUpper(s[i]) ==> r[i] == s[i]
  {
    seq(|s|, i requires 0 <= i < |s| => LowerChar(s[i]))
  }

  /** Lower-casing leaves whitespace where it was: only letters change. */
  lemma ToLowerKeepsSpaces(s: string)
    ensures forall i :: 0 <= i < |s| ==> (IsSpace(ToLower(s)[i]) <==> IsSpace(s[i]))
  {
  }

  /** Lower-casing a string that has no upper-case letter changes nothing. */
  lemma ToLowerNoop(s: string)
    requires forall i :: 0 <= i < |s| ==> !IsUpper(s[i])
    ensures ToLower(s) == s
  {
  }

  // ---------------------------------------------------------------- split and join

  /** `parts.join(sep)`; with a dash it is the inverse of `Split`. */
  function JoinWith(parts: seq<string>, sep: string): string
  {
    if |parts| == 0 then ""
    else if |parts| == 1 then parts[0]
    else parts[0] + sep + JoinWith(parts[1..], sep)
  }

  /** `s.split('-')`: at least one part, no part holds a dash, and joining the parts
      with dashes gives back `s`. */
  function Split(s: string): (parts: seq<string>)
    ensures |parts| >= 1
    ensures forall i :: 0 <= i < |parts| ==> '-' !in parts[i]
    ensures JoinWith(parts, "-") == s
  {
    if |s| == 0 then [""]
    else if s[0] == '-' then
      var rest := Split(s[1..]);
      assert s == "" + "-" + s[1..];
      [""] + rest
    else
      var rest := Split(s[1..]);
      var parts := [[s[0]] + rest[0]] + rest[1..];
      assert parts[1..] == rest[1..];
      assert JoinWith(parts, "-") == [s[0]] + JoinWith(rest, "-");
      parts
  }

  /** Splitting dash-free parts joined with dashes gives the parts back. */
  lemma {:induction false} SplitJoin(parts: seq<string>)
    requires |parts| >= 1
    requires forall i :: 0 <= i < |parts| ==> '-' !in parts[i]
    ensures Split(JoinWith(parts, "-")) == parts
    decreases |parts|, |parts[0]|
  {
    var p := parts[0];
    if |parts| == 1 {
      if |p| > 0 {
        assert p[1..] == JoinWith([p[1..]], "-");
        SplitJoin([p[1..]]);
        assert p == [p[0]] + p[1..];
      }
    } else if |p| == 0 {
      var s := JoinWith(parts, "-");
      assert s == "-" + JoinWith(parts[1..], "-");
      assert s[1..] == JoinWith(parts[1..], "-");
      SplitJoin(parts[1..]);
      assert [""] + parts[1..] == parts;
    } else {
      var s := JoinWith(parts, "-");
      var tail := [p[1..]] + parts[1..];
      assert tail[1..] == parts[1..];
      assert JoinWith(tail, "-") == p[1..] + "-" + JoinWith(parts[1..], "-");
      assert s == [p[0]] + JoinWith(tail, "-");
      assert s[0] == p[0] && s[0] != '-';
      assert s[1..] == JoinWith(tail, "-");
      SplitJoin(tail);
      assert p == [p[0]] + p[1..];
      assert [[p[0]] + p[1..]] + parts[1..] == parts;
    }
  }

  // ---------------------------------------------------------------- numbers

  function DigitChar(d: nat): (c: char)
    requires d < 10
    ensures IsDigit(c) && c as int - '0' as int == d
  {
    ('0' as int + d) as char
  }

  /** The decimal text of `n`, as a template string renders a non-negative integer. */
  function NatToString(n: nat): (s: string)
    ensures |s| >= 1 && AllDigits(s)
    ensures DigitsValue(s) == n
  {
    if n < 10 then
      var s := [DigitChar(n)];
      assert s[..0] == [];
      s
    else
      var prefix := NatToString(n / 10);
      var s := prefix + [DigitChar(n % 10)];
      assert s[..|s| - 1] == prefix;
      s
  }

  /** The value of a string of decimal digits, leading zeros allowed. */
  function DigitsValue(s: string): nat
    requires AllDigits(s)
  {
    if |s| == 0 then 0
    else DigitsValue(s[..|s| - 1]) * 10 + (s[|s| - 1] as int - '0' as int)
  }

  /** `Number(text)` for the texts a numeric keyboard produces: surrounding whitespace is
      ignored, blank text is 0, an optionally signed run of digits is its value and any
      other text is not a number (`NaN`), which every comparison rejects. */
  function ParseNumber(text: string): (r: Option<int>)
    ensures Trim(text) == [] ==> r == Some(0)
    ensures AllDigits(Trim(text)) && Trim(text) != [] ==> r == Some(DigitsValue(Trim(text)))
    ensures var t := Trim(text);
      |t| > 1 && t[0] == '+' && AllDigits(t[1..]) ==> r == Some(DigitsValue(t[1..]))
    ensures var t := Trim(text);
      |t| > 1 && t[0] == '-' && AllDigits(t[1..]) ==> r.Some? && r.value == 0 - DigitsValue(t[1..])
    ensures var t := Trim(text);
      t != [] && !AllDigits(t) && !(|t| > 1 && (t[0] == '+' || t[0] == '-') && AllDigits(t[1..])) ==>
        r.None?
  {
    var t := Trim(text);
    if t == [] then Some(0)
    else if AllDigits(t) then Some(DigitsValue(t))
    else if |t| > 1 && t[0] == '+' && AllDigits(t[1..]) then Some(DigitsValue(t[1..]))
    else if |t| > 1 && t[0] == '-' && AllDigits(t[1..]) then
      var v: int := DigitsValue(t[1..]);
      Some(-v)
    else None
  }

  /** The number a keyboard shows for `n` parses back to `n`. */
  lemma ParseNatToString(n: nat)
    ensures ParseNumber(NatToString(n)) == Some(n)
  {
    var s := NatToString(n);
    assert !IsSpace(s[0]) && !IsSpace(s[|s| - 1]);
    TrimNoop(s);
  }
}
