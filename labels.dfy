/**
 * Start-screen text handling: trimming the player's name and deriving the
 * category and difficulty display labels (frontend/script.js, startQuiz).
 */
module Labels {

  /**
   * The characters that `String.prototype.trim` removes: WhiteSpace and
   * LineTerminator of ECMA-262 (sections 11.2 and 11.3 of the 2019 edition),
   * with the space separators of Unicode category Zs written out.
   */
  predicate IsTrimmable(c: char) {
    || c == '\t' || c == '\U{000B}' || c == '\U{000C}' || c == ' '
    || c == '\U{00A0}' || c == '\U{FEFF}'
    || c == '\n' || c == '\r' || c == '\U{2028}' || c == '\U{2029}'
    || c == '\U{1680}' || ('\U{2000}' <= c <= '\U{200A}')
    || c == '\U{202F}' || c == '\U{205F}' || c == '\U{3000}'
  }

  predicate AllTrimmable(s: string) {
    forall i :: 0 <= i < |s| ==> IsTrimmable(s[i])
  }

  /** Drops the leading trimmable characters. */
  function TrimStart(s: string): string {
    if |s| > 0 && IsTrimmable(s[0]) then TrimStart(s[1..]) else s
  }

  /** Drops the trailing trimmable characters. */
  function TrimEnd(s: string): string {
    if |s| > 0 && IsTrimmable(s[|s| - 1]) then TrimEnd(s[..|s| - 1]) else s
  }

  /** `s.trim()`. */
  function Trim(s: string): string {
    TrimEnd(TrimStart(s))
  }

  /** What is left after `TrimStart` is a suffix of `s` that does not start with white space, and only white space was cut. */
  lemma {:induction false} TrimStartSpec(s: string)
    ensures |TrimStart(s)| <= |s|
    ensures TrimStart(s) == s[|s| - |TrimStart(s)|..]
    ensures AllTrimmable(s[..|s| - |TrimStart(s)|])
    ensures TrimStart(s) == [] || !IsTrimmable(TrimStart(s)[0])
  {
    if |s| > 0 && IsTrimmable(s[0]) {
      var t := s[1..];
      TrimStartSpec(t);
      var r := TrimStart(t);
      var n := |s| - |r|;
      assert t[|t| - |r|..] == s[n..];
      assert s[..n] == [s[0]] + t[..|t| - |r|];
    } else {
      assert s[..0] == [];
    }
  }

  /** What is left after `TrimEnd` is a prefix of `s` that does not end with white space, and only white space was cut. */
  lemma {:induction false} TrimEndSpec(s: string)
    ensures |TrimEnd(s)| <= |s|
    ensures TrimEnd(s) == s[..|TrimEnd(s)|]
    ensures AllTrimmable(s[|TrimEnd(s)|..])
    ensures TrimEnd(s) == [] || !IsTrimmable(TrimEnd(s)[|TrimEnd(s)| - 1])
  {
    if |s| > 0 && IsTrimmable(s[|s| - 1]) {
      var t := s[..|s| - 1];
      TrimEndSpec(t);
      var r := TrimEnd(t);
      assert t[..|r|] == s[..|r|];
      assert s[|r|..] == t[|r|..] + [s[|s| - 1]];
    } else {
      assert s[|s|..] == [];
    }
  }

  /**
   * The trimmed name is a contiguous piece of the input, everything cut off
   * on either side is white space, and it neither starts nor ends with white space.
   */
  lemma TrimIsInfix(s: string)
    ensures var r := Trim(s);
      exists a :: 0 <= a <= |s| - |r| && r == s[a..a + |r|]
        && AllTrimmable(s[..a]) && AllTrimmable(s[a + |r|..])
        && (r == [] || (!IsTrimmable(r[0]) && !IsTrimmable(r[|r| - 1])))
  {
    TrimStartSpec(s);
    var t := TrimStart(s);
    TrimEndSpec(t);
    var r := TrimEnd(t);
    var a := |s| - |t|;
    assert r == s[a..a + |r|];
    assert s[a + |r|..] == t[|r|..];
    assert r != [] ==> r[0] == t[0];
  }

  /** The name check `if (!nameInput)` rejects exactly the inputs made only of white space. */
  lemma TrimEmptyIff(s: string)
    ensures Trim(s) == [] <==> AllTrimmable(s)
  {
    TrimStartSpec(s);
    var t := TrimStart(s);
    TrimEndSpec(t);
    if Trim(s) == [] {
      assert t[|Trim(s)|..] == t;
      assert s[..|s| - |t|] == s;
    } else {
      assert t != [] && s[|s| - |t|] == t[0];
    }
  }

  /** Trimming twice is trimming once. */
  lemma TrimIdempotent(s: string)
    ensures Trim(Trim(s)) == Trim(s)
  {
    TrimIsInfix(s);
    var r := Trim(s);
    if r != [] {
      assert TrimStart(r) == r;
      assert TrimEnd(r) == r;
    }
  }

  /** The category identifiers the start screen offers and their display names. */
  const CategoryMap: map<string, string> :=
    map["18" := "Computer", "9" := "General Knowledge", "20" := "Mythology", "23" := "History"]

  /** `categoryMap[category] || "Unknown"`. */
  function CategoryLabel(category: string): string {
    if category in CategoryMap then CategoryMap[category] else "Unknown"
  }

  /** A known category gets its display name, any other identifier "Unknown", and no label is empty. */
  lemma CategoryLabelKnown(category: string)
    ensures category in CategoryMap ==> CategoryLabel(category) == CategoryMap[category]
    ensures CategoryLabel(category) != []
    ensures CategoryLabel(category) == "Unknown" <==> category !in CategoryMap
  {
  }

  /** `c.toUpperCase()` on one character, for the ASCII letters. */
  function UpperCase(c: char): char {
    if 'a' <= c <= 'z' then (c as int - 32) as char else c
  }

  /** `difficulty.charAt(0).toUpperCase() + difficulty.slice(1)`. */
  function DifficultyLabel(difficulty: string): (name: string)
  {
    if difficulty == [] then [] else [UpperCase(difficulty[0])] + difficulty[1..]
  }

  /**
   * The difficulty label has the token's length and changes at most its first
   * character: a lower-case letter becomes the capital at the same place in
   * the alphabet, any other character stays as it is.
   */
  lemma DifficultyLabelShape(difficulty: string)
    ensures |DifficultyLabel(difficulty)| == |difficulty|
    ensures difficulty != [] ==> DifficultyLabel(difficulty)[1..] == difficulty[1..]
    ensures difficulty != [] && 'a' <= difficulty[0] <= 'z' ==>
      'A' <= DifficultyLabel(difficulty)[0] <= 'Z'
      && DifficultyLabel(difficulty)[0] as int - 'A' as int == difficulty[0] as int - 'a' as int
    ensures difficulty != [] && !('a' <= difficulty[0] <= 'z') ==> DifficultyLabel(difficulty)[0] == difficulty[0]
    ensures difficulty == [] ==> DifficultyLabel(difficulty) == []
  {
  }

  /** Capitalising an already capitalised label changes nothing. */
  lemma DifficultyLabelIdempotent(difficulty: string)
    ensures DifficultyLabel(DifficultyLabel(difficulty)) == DifficultyLabel(difficulty)
  {
  }

  /** The three difficulty tokens the start screen offers. */
  lemma DifficultyLabelExamples()
    ensures DifficultyLabel("easy") == "Easy"
    ensures DifficultyLabel("medium") == "Medium"
    ensures DifficultyLabel("hard") == "Hard"
  {
  }
}
