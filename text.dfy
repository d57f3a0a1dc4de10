/**
 * The parts of Rust's string library the game relies on: `char::is_whitespace`,
 * `str::trim`, `str::split_whitespace`, `[&str]::join`, `str::to_uppercase`
 * (ASCII letters), `str::replace(" ", "_")` and `str::parse` for `usize` and `i32`.
 */
module Text {
  import opened Wrappers

  /** Rust's `char::is_whitespace`: the Unicode White_Space property. */
  predicate IsWhitespace(c: char) {
    c == ' ' || ('\t' <= c <= '\r') || c == '\U{85}' || c == '\U{A0}' || c == '\U{1680}'
    || ('\U{2000}' <= c <= '\U{200A}') || c == '\U{2028}' || c == '\U{2029}'
    || c == '\U{202F}' || c == '\U{205F}' || c == '\U{3000}'
  }

  predicate AllWhitespace(s: string) {
    forall i :: 0 <= i < |s| ==> IsWhitespace(s[i])
  }

  predicate NoWhitespace(s: string) {
    forall i :: 0 <= i < |s| ==> !IsWhitespace(s[i])
  }

  // ---------------------------------------------------------------- trim

  /** `str::trim_start`: drops the leading whitespace. */
  function TrimStart(s: string): (r: string)
    ensures |r| <= |s|
    ensures AllWhitespace(s[..|s| - |r|])
    ensures r == [] || !IsWhitespace(r[0])
    decreases |s|
  {
    if s != [] && IsWhitespace(s[0]) then TrimStart(s[1..]) else s
  }

  /** What `trim_start` keeps is a suffix of its input. */
  lemma {:induction false} TrimStartIsSuffix(s: string)
    ensures TrimStart(s) == s[|s| - |TrimStart(s)|..]
    decreases |s|
  {
    if s != [] && IsWhitespace(s[0]) {
      TrimStartIsSuffix(s[1..]);
    }
  }

  /** `str::trim_end`: drops the trailing whitespace. */
  function TrimEnd(s: string): (r: string)
    ensures |r| <= |s| && r == s[..|r|]
    ensures AllWhitespace(s[|r|..])
    ensures r == [] || !IsWhitespace(r[|r| - 1])
    decreases |s|
  {
    if s != [] && IsWhitespace(s[|s| - 1]) then
      var init := s[..|s| - 1];
      var r := TrimEnd(init);
      assert s[|r|..] == init[|r|..] + [s[|s| - 1]];
      r
    else s
  }

  /** `str::trim`. */
  function Trim(s: string): string {
    TrimEnd(TrimStart(s))
  }

  // ---------------------------------------------------- split_whitespace

  function Flush(word: string): seq<string> {
    if word == [] then [] else [word]
  }

  /** Splits `s` at whitespace, `word` being the part of a word already read. */
  function SplitFrom(s: string, word: string): seq<string>
    decreases |s|
  {
    if s == [] then Flush(word)
    else if IsWhitespace(s[0]) then Flush(word) + SplitFrom(s[1..], [])
    else SplitFrom(s[1..], word + [s[0]])
  }

  /** `str::split_whitespace`: the maximal runs of non-whitespace characters, in order. */
  function Words(s: string): seq<string> {
    SplitFrom(s, [])
  }

  predicate IsWord(w: string) {
    w != [] && NoWhitespace(w)
  }

  lemma {:induction false} SplitFromYieldsWords(s: string, word: string)
    requires NoWhitespace(word)
    ensures forall k :: 0 <= k < |SplitFrom(s, word)| ==> IsWord(SplitFrom(s, word)[k])
    decreases |s|
  {
    if s == [] {
    } else if IsWhitespace(s[0]) {
      SplitFromYieldsWords(s[1..], []);
    } else {
      SplitFromYieldsWords(s[1..], word + [s[0]]);
    }
  }

  /** Every piece `split_whitespace` yields is non-empty and free of whitespace. */
  lemma WordsAreWords(s: string)
    ensures forall k :: 0 <= k < |Words(s)| ==> IsWord(Words(s)[k])
  {
    SplitFromYieldsWords(s, []);
  }

  lemma {:induction false} SplitThroughWord(w: string, t: string, word: string)
    requires NoWhitespace(w)
    ensures SplitFrom(w + t, word) == SplitFrom(t, word + w)
    decreases |w|
  {
    if w == [] {
      assert w + t == t && word + w == word;
    } else {
      assert (w + t)[0] == w[0] && (w + t)[1..] == w[1..] + t;
      assert word + [w[0]] + w[1..] == word + w;
      SplitThroughWord(w[1..], t, word + [w[0]]);
    }
  }

  lemma {:induction false} SplitOverWhitespace(t: string, word: string)
    requires AllWhitespace(t)
    ensures SplitFrom(t, word) == Flush(word)
    decreases |t|
  {
    if t != [] {
      SplitOverWhitespace(t[1..], []);
    }
  }

  lemma {:induction false} SplitDropsLeadingWhitespace(p: string, t: string)
    requires AllWhitespace(p)
    ensures SplitFrom(p + t, []) == SplitFrom(t, [])
    decreases |p|
  {
    if p == [] {
      assert p + t == t;
    } else {
      assert (p + t)[0] == p[0] && (p + t)[1..] == p[1..] + t;
      SplitDropsLeadingWhitespace(p[1..], t);
    }
  }

  lemma {:induction false} SplitDropsTrailingWhitespace(s: string, t: string, word: string)
    requires AllWhitespace(t)
    ensures SplitFrom(s + t, word) == SplitFrom(s, word)
    decreases |s|
  {
    if s == [] {
      assert s + t == t;
      SplitOverWhitespace(t, word);
    } else {
      assert (s + t)[1..] == s[1..] + t;
      if IsWhitespace(s[0]) {
        SplitDropsTrailingWhitespace(s[1..], t, []);
      } else {
        SplitDropsTrailingWhitespace(s[1..], t, word + [s[0]]);
      }
    }
  }

  /** Trimming first does not change the words: `trim().split_whitespace()` equals `split_whitespace()`. */
  lemma WordsOfTrim(s: string)
    ensures Words(Trim(s)) == Words(s)
  {
    WordsOfTrimStart(s);
    WordsOfTrimEnd(TrimStart(s));
  }

  lemma WordsOfTrimStart(s: string)
    ensures Words(TrimStart(s)) == Words(s)
  {
    var a := TrimStart(s);
    var p := s[..|s| - |a|];
    TrimStartIsSuffix(s);
    assert s == p + a;
    SplitDropsLeadingWhitespace(p, a);
  }

  lemma WordsOfTrimEnd(a: string)
    ensures Words(TrimEnd(a)) == Words(a)
  {
    var b := TrimEnd(a);
    var q := a[|b|..];
    assert a == b + q;
    SplitDropsTrailingWhitespace(b, q, []);
  }

  /** A string trims to nothing exactly when it has no words. */
  lemma TrimEmptyIffNoWords(s: string)
    ensures Trim(s) == [] <==> Words(s) == []
  {
    WordsOfTrim(s);
    var t := Trim(s);
    if t != [] {
      assert !IsWhitespace(t[0]);
      assert [] + [t[0]] == [t[0]];
      NonEmptyWordSurvives(t[1..], [t[0]]);
    }
  }

  lemma {:induction false} NonEmptyWordSurvives(s: string, word: string)
    requires word != []
    ensures SplitFrom(s, word) != []
    decreases |s|
  {
    if s != [] && !IsWhitespace(s[0]) {
      NonEmptyWordSurvives(s[1..], word + [s[0]]);
    }
  }

  // ----------------------------------------------------------------- join

  /** `[&str]::join(sep)`. */
  function Join(ws: seq<string>, sep: string): string
    decreases |ws|
  {
    if ws == [] then []
    else if |ws| == 1 then ws[0]
    else ws[0] + sep + Join(ws[1..], sep)
  }

  /** Joining words with single spaces and splitting again gives the words back. */
  lemma {:induction false} WordsOfJoin(ws: seq<string>)
    requires forall k :: 0 <= k < |ws| ==> IsWord(ws[k])
    ensures Words(Join(ws, " ")) == ws
    decreases |ws|
  {
    if ws == [] {
    } else if |ws| == 1 {
      assert ws[0] + [] == ws[0];
      SplitThroughWord(ws[0], [], []);
      assert [] + ws[0] == ws[0];
    } else {
      var rest := Join(ws[1..], " ");
      assert ws[0] + " " + rest == ws[0] + ([' '] + rest);
      SplitThroughWord(ws[0], [' '] + rest, []);
      assert [] + ws[0] == ws[0];
      assert ([' '] + rest)[1..] == rest;
      WordsOfJoin(ws[1..]);
    }
  }

  /** Joining one or more words with single spaces gives a non-empty string with no surrounding whitespace. */
  lemma {:induction false} JoinedWordsAreTrimmed(ws: seq<string>)
    requires |ws| >= 1
    requires forall k :: 0 <= k < |ws| ==> IsWord(ws[k])
    ensures var j := Join(ws, " "); j != [] && !IsWhitespace(j[0]) && !IsWhitespace(j[|j| - 1])
    decreases |ws|
  {
    if |ws| > 1 {
      JoinedWordsAreTrimmed(ws[1..]);
      var rest := Join(ws[1..], " ");
      assert Join(ws, " ") == ws[0] + (" " + rest);
    }
  }

  /** `str::starts_with`. */
  predicate StartsWith(s: string, prefix: string) {
    |prefix| <= |s| && s[..|prefix|] == prefix
  }

  // ------------------------------------------------------------- case, replace

  function UpperChar(c: char): char {
    if 'a' <= c <= 'z' then (c as int - 32) as char else c
  }

  /** `str::to_uppercase` on ASCII letters; every other character is kept. */
  function ToUpper(s: string): (r: string)
    ensures |r| == |s|
    ensures forall i :: 0 <= i < |s| ==> r[i] == UpperChar(s[i])
    decreases |s|
  {
    if s == [] then [] else [UpperChar(s[0])] + ToUpper(s[1..])
  }

  /** Upper-casing twice is upper-casing once. */
  lemma ToUpperIdempotent(s: string)
    ensures ToUpper(ToUpper(s)) == ToUpper(s)
  {
    var u := ToUpper(s);
    assert forall i :: 0 <= i < |u| ==> ToUpper(u)[i] == u[i];
  }

  /** `str::replace(" ", "_")`. */
  function ReplaceSpaces(s: string): (r: string)
    ensures |r| == |s|
    ensures forall i :: 0 <= i < |s| ==> r[i] == (if s[i] == ' ' then '_' else s[i])
  {
    seq(|s|, i requires 0 <= i < |s| => if s[i] == ' ' then '_' else s[i])
  }

  // ------------------------------------------------------------- numbers

  const USIZE_MAX: int := 0xFFFF_FFFF_FFFF_FFFF
  const I32_MIN: int := -0x8000_0000
  const I32_MAX: int := 0x7FFF_FFFF

  predicate IsDigit(c: char) {
    '0' <= c <= '9'
  }

  predicate AllDigits(s: string) {
    forall i :: 0 <= i < |s| ==> IsDigit(s[i])
  }

  /** The value of a string of decimal digits. */
  function DigitsValue(s: string): nat
    requires AllDigits(s)
    decreases |s|
  {
    if s == [] then 0 else 10 * DigitsValue(s[..|s| - 1]) + (s[|s| - 1] as int - '0' as int)
  }

  function DigitChar(d: nat): (c: char)
    requires d < 10
    ensures IsDigit(c) && c as int - '0' as int == d
  {
    ('0' as int + d) as char
  }

  /** The decimal spelling of `n` (Rust's `{}` formatting of an unsigned integer). */
  function NatToString(n: nat): (s: string)
    ensures s != [] && AllDigits(s)
    decreases n
  {
    if n < 10 then [DigitChar(n)] else NatToString(n / 10) + [DigitChar(n % 10)]
  }

  lemma {:induction false} NatToStringValue(n: nat)
    ensures DigitsValue(NatToString(n)) == n
    decreases n
  {
    var s := NatToString(n);
    if n < 10 {
      assert s[..|s| - 1] == [];
    } else {
      NatToStringValue(n / 10);
      assert s[..|s| - 1] == NatToString(n / 10);
    }
  }

  /** `str::parse::<usize>` on a 64-bit target: an optional `+`, then one or more ASCII digits, at most `usize::MAX`. */
  function ParseUsize(s: string): (r: Option<nat>)
    ensures r.Some? ==> r.value <= USIZE_MAX
  {
    var digits := if |s| > 0 && s[0] == '+' then s[1..] else s;
    if digits == [] || !AllDigits(digits) then None
    else if DigitsValue(digits) <= USIZE_MAX then Some(DigitsValue(digits))
    else None
  }

  /** `str::parse::<i32>`: an optional `+` or `-`, then one or more ASCII digits, within the 32-bit range. */
  function ParseI32(s: string): (r: Option<int>)
    ensures r.Some? ==> I32_MIN <= r.value <= I32_MAX
  {
    var negative := |s| > 0 && s[0] == '-';
    var digits := if |s| > 0 && (s[0] == '+' || s[0] == '-') then s[1..] else s;
    if digits == [] || !AllDigits(digits) then None
    else
      var magnitude: int := DigitsValue(digits);
      var v := if negative then -magnitude else magnitude;
      if I32_MIN <= v <= I32_MAX then Some(v) else None
  }

  /** Parsing the decimal spelling of a `usize` gives it back. */
  lemma ParseUsizeOfNatToString(n: nat)
    requires n <= USIZE_MAX
    ensures ParseUsize(NatToString(n)) == Some(n)
  {
    NatToStringValue(n);
  }

  /** Parsing the spelling of an in-range `i32`, with `-` for a negative one, gives it back. */
  lemma ParseI32OfSpelling(n: nat, negative: bool)
    requires if negative then n <= -I32_MIN else n <= I32_MAX
    ensures var m: int := n; var v := if negative then -m else m;
            ParseI32(if negative then "-" + NatToString(n) else NatToString(n)) == Some(v)
  {
    NatToStringValue(n);
    if negative {
      assert ("-" + NatToString(n))[1..] == NatToString(n);
    }
  }
}
