/** `getNameFallback`: the one- or two-letter initials shown when a user has no avatar. */
module Utils {
  import opened Text

  /** `w[i]` inside a template literal: the character, or the text `"undefined"` when `i` is out of range. */
  function CharAt(w: string, i: int): (r: string)
    ensures 0 <= i < |w| ==> r == [w[i]]
    ensures !(0 <= i < |w|) ==> r == "undefined"
  {
    if 0 <= i < |w| then [w[i]] else "undefined"
  }

  /**
   * `getNameFallback(name)` as written: the words are the trimmed name split on whitespace runs.
   * A whitespace-only name reaches the single-word branch with an empty word.
   */
  function GetNameFallback(name: string): (r: string)
    ensures name == "" ==> r == ""
  {
    if name == "" then "" else InitialsOfWords(SplitOnSpaces(Trim(name)))
  }

  /** The branches of `getNameFallback` after the split. */
  function InitialsOfWords(words: seq<string>): string {
    if |words| >= 2 then ToUpper(CharAt(words[0], 0) + CharAt(words[1], 0))
    else if |words| == 1 then
      var word := words[0];
      if |word| == 1 then ToUpper(CharAt(word, 0))
      else ToUpper(CharAt(word, 0) + CharAt(word, |word| - 1))
    else ""
  }

  /** The final `return ""` is dead: splitting always yields at least one word. */
  lemma FinalReturnUnreachable(name: string)
    ensures |SplitOnSpaces(Trim(name))| >= 1
  {
  }

  /** As written, a whitespace-only name gives the initials `"UNDEFINEDUNDEFINED"`, unlike the empty name. */
  lemma {:induction false} BlankNameAsWritten()
    ensures GetNameFallback(" ") == "UNDEFINEDUNDEFINED"
    ensures GetNameFallback("") == ""
  {
    assert TrimStart(" ") == TrimStart(" "[1..]);
    assert Trim(" ") == "";
    assert SpaceIndex("") == 0;
    assert SplitOnSpaces("") == [""];
    assert CharAt("", 0) + CharAt("", -1) == "undefinedundefined";
  }

  /** The initials with the blank case answered as the empty name is: `""`. */
  function NameInitials(name: string): (r: string)
    ensures Trim(name) == "" ==> r == ""
  {
    if Trim(name) == "" then "" else GetNameFallback(name)
  }

  /**
   * For a non-blank name: the first letters of the first two words, or, for a single word, its
   * first and last letters (just the one for a one-letter word), all uppercased; never a space.
   */
  lemma InitialsOfNonBlank(name: string)
    requires Trim(name) != ""
    ensures var words := SplitOnSpaces(Trim(name));
      var r := NameInitials(name);
      && ProperWords(words)
      && (|words| >= 2 ==> r == [UpperChar(words[0][0]), UpperChar(words[1][0])])
      && (|words| == 1 && |words[0]| == 1 ==> r == [UpperChar(words[0][0])])
      && (|words| == 1 && |words[0]| > 1 ==> r == [UpperChar(words[0][0]), UpperChar(words[0][|words[0]| - 1])])
    ensures 1 <= |NameInitials(name)| <= 2
    ensures forall i :: 0 <= i < |NameInitials(name)| ==> !IsSpace(NameInitials(name)[i])
  {
    var words := SplitOnSpaces(Trim(name));
    assert Trim("") == "";
    assert NameInitials(name) == GetNameFallback(name) == InitialsOfWords(words);
    WordsOfTrimmed(Trim(name));
    InitialsOfNonEmptyWords(words);
  }

  /** The initials of words that are non-empty and hold no whitespace. */
  lemma InitialsOfNonEmptyWords(words: seq<string>)
    requires |words| >= 1 && ProperWords(words)
    ensures var r := InitialsOfWords(words);
      && (|words| >= 2 ==> r == [UpperChar(words[0][0]), UpperChar(words[1][0])])
      && (|words| == 1 && |words[0]| == 1 ==> r == [UpperChar(words[0][0])])
      && (|words| == 1 && |words[0]| > 1 ==> r == [UpperChar(words[0][0]), UpperChar(words[0][|words[0]| - 1])])
      && 1 <= |r| <= 2
      && forall i :: 0 <= i < |r| ==> !IsSpace(r[i])
  {
    var w0 := words[0];
    assert !IsSpace(w0[0]);
    if |words| >= 2 {
      assert !IsSpace(words[1][0]);
      assert CharAt(w0, 0) + CharAt(words[1], 0) == [w0[0], words[1][0]];
    } else if |w0| > 1 {
      assert !IsSpace(w0[|w0| - 1]);
      assert CharAt(w0, 0) + CharAt(w0, |w0| - 1) == [w0[0], w0[|w0| - 1]];
    }
  }

  /** Whitespace around the name does not change the initials. */
  lemma PaddingIgnored(w1: string, name: string, w2: string)
    requires AllSpace(w1) && AllSpace(w2)
    ensures NameInitials(w1 + name + w2) == NameInitials(name)
  {
    TrimIgnoresPadding(w1, name, w2);
  }

  /** Nor does the length of a whitespace run between two words. */
  lemma RunLengthIgnored(a: string, w1: string, w2: string, b: string)
    requires a != [] && forall i :: 0 <= i < |a| ==> !IsSpace(a[i])
    requires b != [] && !IsSpace(b[|b| - 1])
    requires w1 != [] && w2 != [] && AllSpace(w1) && AllSpace(w2)
    ensures NameInitials(a + w1 + b) == NameInitials(a + w2 + b)
  {
    var s1 := a + w1 + b;
    var s2 := a + w2 + b;
    assert s1[0] == a[0] && s1[|s1| - 1] == b[|b| - 1];
    assert s2[0] == a[0] && s2[|s2| - 1] == b[|b| - 1];
    TrimFixedPoint(s1);
    TrimFixedPoint(s2);
    SplitIgnoresRunLength(a, w1, w2, b);
  }
}
