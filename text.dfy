/** The three pieces of Rust's string library the core relies on:
    `str::trim`, `str::split` on a character and `usize::to_string`. */
module Text {

  /** Rust's `char::is_whitespace`: the Unicode White_Space property. */
  predicate IsWhitespace(c: char) {
    ('\t' <= c <= '\r') || c == ' ' || c == '\U{0085}' || c == '\U{00A0}'
    || c == '\U{1680}' || ('\U{2000}' <= c <= '\U{200A}') || c == '\U{2028}'
    || c == '\U{2029}' || c == '\U{202F}' || c == '\U{205F}' || c == '\U{3000}'
  }

  /** Neither the first nor the last character is whitespace. */
  predicate Unpadded(s: string) {
    s == [] || (!IsWhitespace(s[0]) && !IsWhitespace(s[|s| - 1]))
  }

  /** `str::trim_start`: drops the longest whitespace prefix. */
  function TrimStart(s: string): (r: string)
    ensures |r| <= |s| && r == s[|s| - |r|..]
    ensures r == [] || !IsWhitespace(r[0])
    ensures forall i :: 0 <= i < |s| - |r| ==> IsWhitespace(s[i])
  {
    if |s| > 0 && IsWhitespace(s[0]) then TrimStart(s[1..]) else s
  }

  /** `str::trim_end`: drops the longest whitespace suffix. */
  function TrimEnd(s: string): (r: string)
    ensures |r| <= |s| && r == s[..|r|]
    ensures r == [] || !IsWhitespace(r[|r| - 1])
    ensures forall i :: |r| <= i < |s| ==> IsWhitespace(s[i])
  {
    if |s| > 0 && IsWhitespace(s[|s| - 1]) then TrimEnd(s[..|s| - 1]) else s
  }

  /** `str::trim`: what is left once the leading and the trailing
      whitespace are removed. */
  function Trim(s: string): (r: string)
    ensures Unpadded(r)
    ensures Unpadded(s) ==> r == s
    ensures forall c :: c in r ==> c in s
  {
    TrimEnd(TrimStart(s))
  }

  /** Trimming removes whitespace at the two ends and nothing else: the
      result is the stretch of `s` left between a whitespace prefix of
      length `Indent(s)` and a whitespace suffix. */
  lemma TrimKeepsMiddle(s: string)
    ensures Indent(s) + |Trim(s)| <= |s|
    ensures Trim(s) == s[Indent(s)..Indent(s) + |Trim(s)|]
    ensures forall k :: 0 <= k < Indent(s) ==> IsWhitespace(s[k])
    ensures forall k :: Indent(s) + |Trim(s)| <= k < |s| ==> IsWhitespace(s[k])
  {
    var t := TrimStart(s);
    var i := |s| - |t|;
    assert t == s[i..];
    assert forall k :: i + |Trim(s)| <= k < |s| ==> s[k] == t[k - i];
  }

  /** The length of the leading whitespace `str::trim` drops. */
  function Indent(s: string): (n: nat)
    ensures n <= |s|
  {
    |s| - |TrimStart(s)|
  }

  /** Trimming a string that starts with one blank gives back the rest when
      the rest is already unpadded. */
  lemma TrimLeadingBlank(s: string)
    requires Unpadded(s)
    ensures Trim([' '] + s) == s
  {
    assert ([' '] + s)[1..] == s;
  }

  function Occurrences(s: string, c: char): nat {
    if s == [] then 0 else (if s[0] == c then 1 else 0) + Occurrences(s[1..], c)
  }

  /** The position of the first `c` in `s`. */
  function IndexOf(s: string, c: char): (k: nat)
    requires c in s
    ensures k < |s| && s[k] == c && c !in s[..k]
  {
    if s[0] == c then 0
    else
      assert c in s[1..];
      var k := IndexOf(s[1..], c);
      assert s[..k + 1] == [s[0]] + s[1..][..k];
      k + 1
  }

  lemma {:induction false} OccurrencesAppend(a: string, b: string, c: char)
    ensures Occurrences(a + b, c) == Occurrences(a, c) + Occurrences(b, c)
  {
    if a != [] {
      assert (a + b)[1..] == a[1..] + b;
      OccurrencesAppend(a[1..], b, c);
    } else {
      assert a + b == b;
    }
  }

  lemma {:induction false} NoOccurrences(s: string, c: char)
    ensures Occurrences(s, c) == 0 <==> c !in s
  {
    if s != [] {
      NoOccurrences(s[1..], c);
      assert s == [s[0]] + s[1..];
    }
  }

  /** A string with exactly one separator splits at it: into the text
      before it and the text after it. */
  lemma SplitAtOnlySeparator(s: string, sep: char)
    requires Occurrences(s, sep) == 1
    ensures sep in s
    ensures Split(s, sep) == [s[..IndexOf(s, sep)], s[IndexOf(s, sep) + 1..]]
  {
    NoOccurrences(s, sep);
    var k := IndexOf(s, sep);
    assert s == s[..k] + [sep] + s[k + 1..];
    OccurrencesAppend(s[..k] + [sep], s[k + 1..], sep);
    OccurrencesAppend(s[..k], [sep], sep);
    NoOccurrences(s[..k], sep);
    NoOccurrences(s[k + 1..], sep);
    SplitAroundSeparator(s[..k], s[k + 1..], sep);
  }

  /** `s.split(sep).collect::<Vec<_>>()`: the pieces between separators,
      one more piece than there are separators. */
  function Split(s: string, sep: char): (parts: seq<string>)
    ensures |parts| == Occurrences(s, sep) + 1
    ensures forall i :: 0 <= i < |parts| ==> sep !in parts[i]
  {
    if s == [] then [""]
    else
      var rest := Split(s[1..], sep);
      if s[0] == sep then [""] + rest
      else [[s[0]] + rest[0]] + rest[1..]
  }

  /** The inverse of Split: the pieces glued back with the separator. */
  function Join(parts: seq<string>, sep: char): string
    requires |parts| > 0
  {
    if |parts| == 1 then parts[0] else parts[0] + [sep] + Join(parts[1..], sep)
  }

  lemma {:induction false} JoinSplit(s: string, sep: char)
    ensures Join(Split(s, sep), sep) == s
  {
    if s != [] {
      JoinSplit(s[1..], sep);
      var rest := Split(s[1..], sep);
      if s[0] == sep {
        assert ([""] + rest)[1..] == rest;
      } else {
        var parts := [[s[0]] + rest[0]] + rest[1..];
        if |rest| > 1 {
          assert parts[1..] == rest[1..];
          assert Join(rest, sep) == rest[0] + [sep] + Join(rest[1..], sep);
        }
      }
    }
  }

  lemma {:induction false} SplitWithoutSeparator(s: string, sep: char)
    requires sep !in s
    ensures Split(s, sep) == [s]
  {
    if s != [] {
      SplitWithoutSeparator(s[1..], sep);
      assert [s[0]] + s[1..] == s;
    }
  }

  /** A string with exactly one separator splits into the text before it
      and the text after it. */
  lemma {:induction false} SplitAroundSeparator(a: string, b: string, sep: char)
    requires sep !in a && sep !in b
    ensures Split(a + [sep] + b, sep) == [a, b]
  {
    var s := a + [sep] + b;
    if a == [] {
      assert s[1..] == b;
      SplitWithoutSeparator(b, sep);
    } else {
      assert s[1..] == a[1..] + [sep] + b;
      SplitAroundSeparator(a[1..], b, sep);
      assert [a[0]] + a[1..] == a;
    }
  }

  function Digit(d: nat): (c: char)
    requires d < 10
    ensures '0' <= c <= '9'
  {
    ('0' as int + d) as char
  }

  predicate AllDigits(s: string) {
    forall i :: 0 <= i < |s| ==> '0' <= s[i] <= '9'
  }

  /** `n.to_string()` for an unsigned integer: decimal, no sign, no leading
      zero. */
  function DecimalString(n: nat): (s: string)
    ensures |s| > 0 && AllDigits(s)
    ensures |s| > 1 ==> s[0] != '0'
  {
    if n < 10 then [Digit(n)] else DecimalString(n / 10) + [Digit(n % 10)]
  }

  /** The value a string of decimal digits denotes. */
  function DecimalValue(s: string): nat
    requires AllDigits(s)
  {
    if s == [] then 0
    else DecimalValue(s[..|s| - 1]) * 10 + (s[|s| - 1] as int - '0' as int)
  }

  lemma {:induction false} DecimalRoundTrip(n: nat)
    ensures DecimalValue(DecimalString(n)) == n
  {
    if n >= 10 {
      DecimalRoundTrip(n / 10);
      var s := DecimalString(n);
      assert s[..|s| - 1] == DecimalString(n / 10);
    }
  }

  /** Distinct counts give distinct identifiers. */
  lemma DecimalStringInjective(m: nat, n: nat)
    requires m != n
    ensures DecimalString(m) != DecimalString(n)
  {
    DecimalRoundTrip(m);
    DecimalRoundTrip(n);
  }
}
