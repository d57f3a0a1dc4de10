/** Reading the player's full name (src/systems/player.rs): last name first, then the first names. */
module Players {
  import opened Wrappers
  import opened Text

  /**
   * `parse_full_name`: trim, split at whitespace, and take the first word as the last
   * name and the remaining words, joined by single spaces, as the first name. Blank
   * input and a single word are refused.
   */
  function ParseFullName(fullName: string): (r: Option<(string, string)>)
    ensures r.None? <==> |Words(fullName)| < 2
    ensures r.Some? ==> r.value == (Words(fullName)[0], Join(Words(fullName)[1..], " "))
  {
    WordsOfTrim(fullName);
    TrimEmptyIffNoWords(fullName);
    var trimmed := Trim(fullName);
    if trimmed == [] then None
    else
      var parts := Words(trimmed);
      if |parts| < 2 then None
      else Some((parts[0], Join(parts[1..], " ")))
  }

  /** Empty or whitespace-only input is refused. */
  lemma BlankNameIsRefused(fullName: string)
    requires AllWhitespace(fullName)
    ensures ParseFullName(fullName) == None
  {
    TrimStartIsSuffix(fullName);
    assert TrimStart(fullName) == [];
    TrimEmptyIffNoWords(fullName);
  }

  /**
   * Both parts of an accepted name are non-empty and carry no surrounding whitespace;
   * the last name is a single word, and the first name splits back into the remaining words.
   */
  lemma ParsedNamePartsAreTrimmed(fullName: string)
    requires ParseFullName(fullName).Some?
    ensures var (last, first) := ParseFullName(fullName).value;
            IsWord(last)
            && first != [] && !IsWhitespace(first[0]) && !IsWhitespace(first[|first| - 1])
            && [last] + Words(first) == Words(fullName)
  {
    var ws := Words(fullName);
    WordsAreWords(fullName);
    JoinedWordsAreTrimmed(ws[1..]);
    WordsOfJoin(ws[1..]);
  }

  /** Only the words matter: inputs that split into the same words give the same result. */
  lemma ParseIgnoresSpacing(a: string, b: string)
    requires Words(a) == Words(b)
    ensures ParseFullName(a) == ParseFullName(b)
  {
  }

  /** A parsed name, written back as "last first" with single spaces, parses to itself. */
  lemma ParseOfCanonicalName(fullName: string)
    requires ParseFullName(fullName).Some?
    ensures var (last, first) := ParseFullName(fullName).value;
            ParseFullName(last + " " + first) == ParseFullName(fullName)
  {
    var ws := Words(fullName);
    WordsAreWords(fullName);
    assert Join(ws, " ") == ws[0] + " " + Join(ws[1..], " ");
    WordsOfJoin(ws);
  }
}
