/**
 * Character classes and string operations of JavaScript's and Java's
 * standard libraries, as the core uses them.  Case mappings are those of the
 * ASCII letters.
 */
module Text {

  predicate IsUpper(c: char) { 'A' <= c <= 'Z' }
  predicate IsLower(c: char) { 'a' <= c <= 'z' }
  predicate IsDigit(c: char) { '0' <= c <= '9' }

  /** The regular-expression class `\w`: `[A-Za-z0-9_]`. */
  predicate IsWordChar(c: char) { IsUpper(c) || IsLower(c) || IsDigit(c) || c == '_' }

  /** The characters the regular-expression `.` does not match. */
  predicate IsLineTerminator(c: char) {
    c == '\n' || c == '\r' || c == '\U{2028}' || c == '\U{2029}'
  }

  /** The characters `String.prototype.trim` removes (white space and line terminators). */
  predicate IsJsSpace(c: char) {
    || c == '\t' || c == '\U{000B}' || c == '\U{000C}' || c == ' ' || c == '\U{00A0}'
    || c == '\U{FEFF}' || c == '\U{1680}' || ('\U{2000}' <= c <= '\U{200A}') || c == '\U{202F}'
    || c == '\U{205F}' || c == '\U{3000}' || IsLineTerminator(c)
  }

  /** `toUpperCase` of one character, for the ASCII letters only. */
  function ToUpper(c: char): (u: char)
    ensures IsLower(c) ==> IsUpper(u)
    ensures !IsLower(c) ==> u == c
  {
    if IsLower(c) then (c as int - 32) as char else c
  }

  /** `toLowerCase` of one character, for the ASCII letters only. */
  function ToLower(c: char): (l: char)
    ensures IsUpper(c) ==> IsLower(l)
    ensures !IsUpper(c) ==> l == c
  {
    if IsUpper(c) then (c as int + 32) as char else c
  }

  /** `s.toLowerCase()` on ASCII letters; every other character is kept. */
  function Lower(s: string): (r: string)
    ensures |r| == |s|
    ensures forall i :: 0 <= i < |s| ==> r[i] == ToLower(s[i])
  {
    if s == [] then [] else [ToLower(s[0])] + Lower(s[1..])
  }

  predicate StartsWith(s: string, prefix: string) {
    |prefix| <= |s| && s[..|prefix|] == prefix
  }

  predicate EndsWith(s: string, suffix: string) {
    |suffix| <= |s| && s[|s| - |suffix|..] == suffix
  }

  /** `s.includes(sub)`. */
  predicate Contains(s: string, sub: string)
    decreases |s|
  {
    StartsWith(s, sub) || (|s| > 0 && Contains(s[1..], sub))
  }

  /** Every string contains itself. */
  lemma ContainsSelf(s: string)
    ensures Contains(s, s)
  {
    assert s[..|s|] == s;
  }

  function TrimStart(s: string): string {
    if |s| > 0 && IsJsSpace(s[0]) then TrimStart(s[1..]) else s
  }

  function TrimEnd(s: string): string {
    if |s| > 0 && IsJsSpace(s[|s| - 1]) then TrimEnd(s[..|s| - 1]) else s
  }

  /** `s.trim()`. */
  function Trim(s: string): string {
    TrimEnd(TrimStart(s))
  }

  /** Trimming the start drops a prefix of white space and nothing else. */
  lemma {:induction false} TrimStartSpec(s: string)
    ensures var r := TrimStart(s);
            (r == [] || !IsJsSpace(r[0])) && |r| <= |s| && r == s[|s| - |r|..]
            && forall k :: 0 <= k < |s| - |r| ==> IsJsSpace(s[k])
    decreases |s|
  {
    if |s| > 0 && IsJsSpace(s[0]) {
      TrimStartSpec(s[1..]);
      var r := TrimStart(s[1..]);
      assert s[1..][|s[1..]| - |r|..] == s[|s| - |r|..];
      forall k | 0 <= k < |s| - |r|
        ensures IsJsSpace(s[k])
      {
        if k > 0 { assert s[k] == s[1..][k - 1]; }
      }
    }
  }

  /** Trimming the end drops a suffix of white space and nothing else. */
  lemma {:induction false} TrimEndSpec(s: string)
    ensures var r := TrimEnd(s);
            (r == [] || !IsJsSpace(r[|r| - 1])) && |r| <= |s| && r == s[..|r|]
            && forall k :: |r| <= k < |s| ==> IsJsSpace(s[k])
    decreases |s|
  {
    if |s| > 0 && IsJsSpace(s[|s| - 1]) {
      var init := s[..|s| - 1];
      TrimEndSpec(init);
      var r := TrimEnd(init);
      assert init[..|r|] == s[..|r|];
      forall k | |r| <= k < |s|
        ensures IsJsSpace(s[k])
      {
        if k < |s| - 1 { assert s[k] == init[k]; }
      }
    }
  }

  /** Neither end of a trimmed string is white space. */
  lemma TrimSpec(s: string)
    ensures var r := Trim(s); r == [] || (!IsJsSpace(r[0]) && !IsJsSpace(r[|r| - 1]))
  {
    var t := TrimStart(s);
    TrimStartSpec(s);
    TrimEndSpec(t);
    var r := TrimEnd(t);
    if r != [] {
      assert r[0] == t[0];
    }
  }

  /** `s.replace(/([A-Z])/g, sep + '$1')`: `sep` before every capital letter. */
  function MarkCapitals(s: string, sep: char): (r: string)
    ensures |r| >= |s|
  {
    if s == [] then []
    else (if IsUpper(s[0]) then [sep, s[0]] else [s[0]]) + MarkCapitals(s[1..], sep)
  }

  /**
   * `s.replace(/^./, c => c.toUpperCase())`, with the ASCII case mapping:
   * `.` does not match a line terminator.
   */
  function UpperFirst(s: string): (r: string)
    ensures |r| == |s|
  {
    if |s| > 0 && !IsLineTerminator(s[0]) then [ToUpper(s[0])] + s[1..] else s
  }

  /**
   * camelCase to words: a space before each capital, the first character
   * upper-cased, then trimmed.
   */
  function Humanize(s: string): string {
    Trim(UpperFirst(MarkCapitals(s, ' ')))
  }

  /** An identifier in lower camelCase: word characters, a lower-case first letter. */
  predicate IsCamelIdentifier(s: string) {
    |s| > 0 && IsLower(s[0]) && forall i :: 0 <= i < |s| ==> IsWordChar(s[i])
  }

  /** Drops every occurrence of `c`. */
  function Without(s: string, c: char): (r: string)
    ensures |r| <= |s|
  {
    if s == [] then [] else (if s[0] == c then [] else [s[0]]) + Without(s[1..], c)
  }

  function LowerFirst(s: string): string {
    if s == [] then s else [ToLower(s[0])] + s[1..]
  }

  /** Marking capitals and then dropping the marks gives the input back. */
  lemma {:induction false} MarkCapitalsWithout(s: string, sep: char)
    requires sep !in s
    ensures Without(MarkCapitals(s, sep), sep) == s
  {
    if s != [] {
      assert sep !in s[1..];
      var head := if IsUpper(s[0]) then [sep, s[0]] else [s[0]];
      MarkCapitalsWithout(s[1..], sep);
      WithoutAppend(head, MarkCapitals(s[1..], sep), sep);
    }
  }

  lemma {:induction false} WithoutAppend(a: string, b: string, c: char)
    ensures Without(a + b, c) == Without(a, c) + Without(b, c)
  {
    if a != [] {
      assert (a + b)[0] == a[0] && (a + b)[1..] == a[1..] + b;
      WithoutAppend(a[1..], b, c);
      assert Without(a + b, c) == (if a[0] == c then [] else [a[0]]) + Without(a[1..] + b, c);
    } else {
      assert a + b == b;
    }
  }

  /** The last character of a marked word-character string is a word character. */
  lemma {:induction false} MarkCapitalsLast(s: string, sep: char)
    requires |s| > 0 && IsWordChar(s[|s| - 1])
    ensures var m := MarkCapitals(s, sep); |m| > 0 && m[|m| - 1] == s[|s| - 1]
  {
    if |s| > 1 {
      assert s[1..][|s[1..]| - 1] == s[|s| - 1];
      MarkCapitalsLast(s[1..], sep);
    }
  }

  /**
   * For a lower camelCase identifier the label is reversible: removing the
   * spaces and lower-casing the first letter restores the identifier.
   */
  lemma {:induction false} HumanizeRoundTrip(s: string)
    requires IsCamelIdentifier(s)
    ensures LowerFirst(Without(Humanize(s), ' ')) == s
  {
    var first, rest := ToUpper(s[0]), s[1..];
    HumanizeCamel(s);
    CamelHasNoSpace(s);
    WithoutMarked(first, rest);
    var w := [first] + rest;
    assert Without(Humanize(s), ' ') == w;
    CaseRoundTrip(s[0]);
    assert LowerFirst(w) == [s[0]] + rest == s;
    assert LowerFirst(Without(Humanize(s), ' ')) == LowerFirst(w);
  }

  lemma CamelHasNoSpace(s: string)
    requires IsCamelIdentifier(s)
    ensures ' ' !in s[1..]
  {
  }

  lemma CaseRoundTrip(c: char)
    requires IsLower(c)
    ensures ToLower(ToUpper(c)) == c
  {
  }

  lemma WithoutMarked(first: char, rest: string)
    requires ' ' !in rest && IsUpper(first)
    ensures Without([first] + MarkCapitals(rest, ' '), ' ') == [first] + rest
  {
    MarkCapitalsWithout(rest, ' ');
    WithoutAppend([first], MarkCapitals(rest, ' '), ' ');
    assert [first][1..] == [];
  }

  /** The label of a camelCase identifier needs no trimming. */
  lemma HumanizeCamel(s: string)
    requires |s| > 0 && IsLower(s[0]) && IsWordChar(s[|s| - 1])
    ensures Humanize(s) == [ToUpper(s[0])] + MarkCapitals(s[1..], ' ')
  {
    var tail := MarkCapitals(s[1..], ' ');
    var u := [ToUpper(s[0])] + tail;
    UpperFirstMarked(s);
    if |s| > 1 {
      MarkCapitalsLast(s[1..], ' ');
      assert s[1..][|s[1..]| - 1] == s[|s| - 1];
      assert u[|u| - 1] == tail[|tail| - 1];
    } else {
      assert tail == [];
    }
    TrimWord(u);
  }

  lemma UpperFirstMarked(s: string)
    requires |s| > 0 && IsLower(s[0])
    ensures UpperFirst(MarkCapitals(s, ' ')) == [ToUpper(s[0])] + MarkCapitals(s[1..], ' ')
  {
  }

  lemma TrimWord(u: string)
    requires |u| > 0 && IsUpper(u[0]) && IsWordChar(u[|u| - 1])
    ensures Trim(u) == u
  {
  }

  /** Decimal digits of a natural number, as `String(n)` / Java's `"" + n`. */
  function NatToString(n: nat): (r: string)
    ensures |r| > 0 && forall i :: 0 <= i < |r| ==> IsDigit(r[i])
    decreases n
  {
    if n < 10 then [Digit(n)] else NatToString(n / 10) + [Digit(n % 10)]
  }

  function Digit(d: nat): (c: char)
    requires d < 10
    ensures IsDigit(c)
  {
    ('0' as int + d) as char
  }

  /** `lines.join(sep)`. */
  function Join(parts: seq<string>, sep: string): string {
    if parts == [] then ""
    else if |parts| == 1 then parts[0]
    else parts[0] + sep + Join(parts[1..], sep)
  }

  /** `s.split(sep)` on a single character: |result| is one more than the separators. */
  function Split(s: string, sep: char): (r: seq<string>)
    ensures |r| > 0
    ensures forall i, j :: 0 <= i < |r| && 0 <= j < |r[i]| ==> r[i][j] != sep
    decreases |s|
  {
    if s == [] then [""]
    else
      var rest := Split(s[1..], sep);
      if s[0] == sep then [""] + rest else [[s[0]] + rest[0]] + rest[1..]
  }

  /** A string without the separator splits into itself alone. */
  lemma {:induction false} SplitWithoutSeparator(s: string, sep: char)
    requires sep !in s
    ensures Split(s, sep) == [s]
    decreases |s|
  {
    if s != [] {
      assert sep !in s[1..];
      SplitWithoutSeparator(s[1..], sep);
      assert [s[0]] + s[1..] == s;
    }
  }
}
