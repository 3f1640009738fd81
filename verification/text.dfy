/**
 * ASCII string helpers standing in for the JavaScript string methods the
 * source calls: `trim`, `startsWith`, `replace` with a string pattern,
 * `join`, `toUpperCase`, `toLowerCase` and `split(/\s+/)`.
 */
module Text {

  /** The ASCII characters that `String.prototype.trim` and the regular-expression class `\s` remove. */
  predicate IsSpace(c: char) {
    c == ' ' || c == '\t' || c == '\n' || c == '\r' || c == '\U{B}' || c == '\U{C}'
  }

  predicate IsLower(c: char) { 'a' <= c <= 'z' }
  predicate IsUpper(c: char) { 'A' <= c <= 'Z' }
  predicate IsLetter(c: char) { IsLower(c) || IsUpper(c) }
  predicate IsDigit(c: char) { '0' <= c <= '9' }

  predicate AllSpace(s: string) {
    forall i :: 0 <= i < |s| ==> IsSpace(s[i])
  }

  /** `s` with its leading whitespace removed. */
  function TrimStart(s: string): (r: string)
    ensures |r| <= |s| && r == s[|s| - |r|..]
    ensures r == [] || !IsSpace(r[0])
    ensures AllSpace(s[..|s| - |r|])
  {
    if s != [] && IsSpace(s[0]) then TrimStart(s[1..]) else s
  }

  /** `s` with its trailing whitespace removed. */
  function TrimEnd(s: string): (r: string)
    ensures |r| <= |s| && r == s[..|r|]
    ensures r == [] || !IsSpace(r[|r| - 1])
    ensures AllSpace(s[|r|..])
  {
    if s != [] && IsSpace(s[|s| - 1]) then TrimEnd(s[..|s| - 1]) else s
  }

  /** JavaScript's `s.trim()`, restricted to ASCII whitespace. */
  function Trim(s: string): (r: string)
    ensures |r| <= |s|
    ensures r == [] || (!IsSpace(r[0]) && !IsSpace(r[|r| - 1]))
  {
    TrimEnd(TrimStart(s))
  }

  /** A string equals its own trim exactly when it neither starts nor ends with whitespace. */
  lemma TrimFixedPoint(s: string)
    ensures s == Trim(s) <==> (s == [] || (!IsSpace(s[0]) && !IsSpace(s[|s| - 1])))
  {
  }

  /** Whitespace added around a string does not change its trim. */
  lemma {:induction false} TrimIgnoresPadding(w1: string, s: string, w2: string)
    requires AllSpace(w1) && AllSpace(w2)
    ensures Trim(w1 + s + w2) == Trim(s)
  {
    assert w1 + s + w2 == w1 + (s + w2);
    TrimStartPadding(w1, s + w2);
    TrimIgnoresTrailing(s, w2);
  }

  /** Whitespace added after a string does not change its trim. */
  lemma {:induction false} TrimIgnoresTrailing(s: string, w: string)
    requires AllSpace(w)
    ensures Trim(s + w) == Trim(s)
  {
    TrimStartKeepsSuffix(s, w);
    if AllSpace(s) {
      TrimStartPadding(s, []);
      TrimStartPadding(w, []);
      assert s + [] == s && w + [] == w;
    } else {
      TrimEndPadding(TrimStart(s), w);
    }
  }

  lemma {:induction false} TrimStartPadding(w: string, s: string)
    requires AllSpace(w)
    ensures TrimStart(w + s) == TrimStart(s)
  {
    if w != [] {
      assert (w + s)[0] == w[0];
      assert (w + s)[1..] == w[1..] + s;
      TrimStartPadding(w[1..], s);
    } else {
      assert w + s == s;
    }
  }

  lemma {:induction false} TrimEndPadding(s: string, w: string)
    requires AllSpace(w)
    ensures TrimEnd(s + w) == TrimEnd(s)
  {
    if w != [] {
      assert (s + w)[..|s + w| - 1] == s + w[..|w| - 1];
      TrimEndPadding(s, w[..|w| - 1]);
    } else {
      assert s + w == s;
    }
  }

  /** Trimming the front of `s + w` leaves `w` in place when `s` is not blank. */
  lemma {:induction false} TrimStartKeepsSuffix(s: string, w: string)
    ensures TrimStart(s + w) == if AllSpace(s) then TrimStart(w) else TrimStart(s) + w
  {
    if s == [] {
      assert s + w == w;
    } else if IsSpace(s[0]) {
      assert (s + w)[1..] == s[1..] + w;
      assert forall i :: 1 <= i < |s| ==> s[i] == s[1..][i - 1];
      assert AllSpace(s) == AllSpace(s[1..]);
      TrimStartKeepsSuffix(s[1..], w);
    } else {
      assert (s + w)[0] == s[0];
      assert !AllSpace(s);
    }
  }

  /** `s.startsWith(p)`. */
  predicate StartsWith(s: string, p: string) {
    |p| <= |s| && s[..|p|] == p
  }

  /** `s.includes(p)`, written the way a regular-expression search scans: try each start position in turn. */
  predicate Contains(s: string, p: string)
    decreases |s|
  {
    StartsWith(s, p) || (s != [] && Contains(s[1..], p))
  }

  /** `p` occurs in `s` starting at index `i`. */
  predicate OccursAt(s: string, p: string, i: int) {
    0 <= i && i + |p| <= |s| && s[i..i + |p|] == p
  }

  /** `Contains` finds exactly the occurrences at some index. */
  lemma {:induction false} ContainsAt(s: string, p: string)
    ensures Contains(s, p) <==> exists i :: OccursAt(s, p, i)
  {
    if s != [] {
      ContainsAt(s[1..], p);
      if exists i :: OccursAt(s, p, i) {
        var i :| OccursAt(s, p, i);
        if i > 0 {
          assert s[1..][i - 1..i - 1 + |p|] == p;
          assert OccursAt(s[1..], p, i - 1);
        } else {
          assert StartsWith(s, p);
        }
      }
      if StartsWith(s, p) {
        assert OccursAt(s, p, 0);
      }
      if Contains(s[1..], p) && !StartsWith(s, p) {
        var i :| OccursAt(s[1..], p, i);
        assert s[i + 1..i + 1 + |p|] == p;
        assert OccursAt(s, p, i + 1);
      }
    } else {
      if exists i :: OccursAt(s, p, i) {
        var i :| OccursAt(s, p, i);
        assert s[..|p|] == p;
      }
      if Contains(s, p) {
        assert OccursAt(s, p, 0);
      }
    }
  }

  /** `s.replace(pat, rep)` with a string pattern: only the first occurrence is replaced. */
  function ReplaceFirst(s: string, pat: string, rep: string): (r: string)
    decreases |s|
  {
    if StartsWith(s, pat) then rep + s[|pat|..]
    else if s == [] then s
    else [s[0]] + ReplaceFirst(s[1..], pat, rep)
  }

  /** Removing a prefix the string starts with drops exactly that prefix. */
  lemma ReplaceLeadingPrefix(s: string, pat: string)
    requires StartsWith(s, pat)
    ensures ReplaceFirst(s, pat, "") == s[|pat|..]
  {
  }

  /** `parts.join(sep)`. */
  function Join(parts: seq<string>, sep: string): string
  {
    if |parts| == 0 then ""
    else if |parts| == 1 then parts[0]
    else parts[0] + sep + Join(parts[1..], sep)
  }

  function UpperChar(c: char): char {
    if IsLower(c) then (c as int - 32) as char else c
  }

  function LowerChar(c: char): char {
    if IsUpper(c) then (c as int + 32) as char else c
  }

  /** `s.toUpperCase()` on ASCII letters. */
  function ToUpper(s: string): (r: string)
    ensures |r| == |s|
    ensures forall i :: 0 <= i < |s| ==> r[i] == UpperChar(s[i])
  {
    seq(|s|, i requires 0 <= i < |s| => UpperChar(s[i]))
  }

  /** `s.toLowerCase()` on ASCII letters. */
  function ToLower(s: string): (r: string)
    ensures |r| == |s|
    ensures forall i :: 0 <= i < |s| ==> r[i] == LowerChar(s[i])
  {
    seq(|s|, i requires 0 <= i < |s| => LowerChar(s[i]))
  }

  /** Position of the first whitespace character of `s`, or `|s|` when there is none. */
  function SpaceIndex(s: string): (k: nat)
    ensures k <= |s|
    ensures k < |s| ==> IsSpace(s[k])
    ensures forall i :: 0 <= i < k ==> !IsSpace(s[i])
  {
    if s == [] || IsSpace(s[0]) then 0 else 1 + SpaceIndex(s[1..])
  }

  /** `s.split(/\s+/)`: the pieces between maximal runs of whitespace. */
  function SplitOnSpaces(s: string): (words: seq<string>)
    ensures |words| >= 1
    decreases |s|
  {
    var k := SpaceIndex(s);
    if k == |s| then [s]
    else
      var rest := TrimStart(s[k..]);
      [s[..k]] + SplitOnSpaces(rest)
  }

  /** Every word is non-empty and holds no whitespace. */
  predicate ProperWords(words: seq<string>) {
    forall i :: 0 <= i < |words| ==> words[i] != [] && forall j :: 0 <= j < |words[i]| ==> !IsSpace(words[i][j])
  }

  /** Every word of a non-blank trimmed string is non-empty and holds no whitespace. */
  lemma {:induction false} WordsOfTrimmed(t: string)
    requires t != [] && !IsSpace(t[0]) && !IsSpace(t[|t| - 1])
    ensures ProperWords(SplitOnSpaces(t))
    decreases |t|
  {
    var k := SpaceIndex(t);
    if k < |t| {
      var tail := t[k..];
      var rest := TrimStart(tail);
      assert tail[|tail| - 1] == t[|t| - 1];
      assert rest != [];
      assert rest[|rest| - 1] == tail[|tail| - 1];
      WordsOfTrimmed(rest);
      var words := SplitOnSpaces(t);
      var more := SplitOnSpaces(rest);
      assert words == [t[..k]] + more;
      forall i | 0 <= i < |words|
        ensures words[i] != [] && forall j :: 0 <= j < |words[i]| ==> !IsSpace(words[i][j])
      {
        if i > 0 {
          assert words[i] == more[i - 1];
        }
      }
    }
  }

  /** How many whitespace characters separate two words does not change the split. */
  lemma SplitIgnoresRunLength(a: string, w1: string, w2: string, b: string)
    requires forall i :: 0 <= i < |a| ==> !IsSpace(a[i])
    requires w1 != [] && w2 != [] && AllSpace(w1) && AllSpace(w2)
    ensures SplitOnSpaces(a + w1 + b) == SplitOnSpaces(a + w2 + b)
  {
    SplitAfterWord(a, w1, b);
    SplitAfterWord(a, w2, b);
  }

  lemma SplitAfterWord(a: string, w: string, b: string)
    requires forall i :: 0 <= i < |a| ==> !IsSpace(a[i])
    requires w != [] && AllSpace(w)
    ensures SplitOnSpaces(a + w + b) == [a] + SplitOnSpaces(TrimStart(b))
  {
    var s := a + w + b;
    assert s[|a|] == w[0];
    assert forall i :: 0 <= i < |a| ==> s[i] == a[i];
    assert SpaceIndex(s) == |a|;
    assert s[..|a|] == a;
    assert s[|a|..] == w + b;
    TrimStartPadding(w, b);
  }

  /** Position of the first `c` in `s`, or `|s|` when there is none. */
  function IndexOfChar(s: string, c: char): (k: nat)
    ensures k <= |s|
    ensures k < |s| ==> s[k] == c
    ensures forall i :: 0 <= i < k ==> s[i] != c
  {
    if s == [] || s[0] == c then 0 else 1 + IndexOfChar(s[1..], c)
  }

  /** `s.split(c)` for a one-character separator. */
  function SplitOn(s: string, c: char): (parts: seq<string>)
    ensures |parts| >= 1
    decreases |s|
  {
    var k := IndexOfChar(s, c);
    if k == |s| then [s] else [s[..k]] + SplitOn(s[k + 1..], c)
  }

  /** Joining the pieces of a split with the separator gives back the string. */
  lemma {:induction false} SplitOnJoin(s: string, c: char)
    ensures Join(SplitOn(s, c), [c]) == s
    decreases |s|
  {
    var k := IndexOfChar(s, c);
    if k < |s| {
      var rest := s[k + 1..];
      SplitOnJoin(rest, c);
      var parts := SplitOn(s, c);
      var more := SplitOn(rest, c);
      assert parts == [s[..k]] + more;
      assert parts[1..] == more;
      assert Join(parts, [c]) == s[..k] + [c] + Join(more, [c]);
      assert s == s[..k] + [c] + rest;
    }
  }

  /** No piece of a split holds the separator. */
  lemma {:induction false} SplitOnPiecesLackSeparator(s: string, c: char)
    ensures forall i, j :: 0 <= i < |SplitOn(s, c)| && 0 <= j < |SplitOn(s, c)[i]| ==> SplitOn(s, c)[i][j] != c
    decreases |s|
  {
    var k := IndexOfChar(s, c);
    if k < |s| {
      var rest := s[k + 1..];
      SplitOnPiecesLackSeparator(rest, c);
      var parts := SplitOn(s, c);
      var more := SplitOn(rest, c);
      assert parts == [s[..k]] + more;
      forall i, j | 0 <= i < |parts| && 0 <= j < |parts[i]|
        ensures parts[i][j] != c
      {
        if i > 0 {
          assert parts[i] == more[i - 1];
        }
      }
    }
  }

  /** Splitting a join of pieces that do not contain the separator gives back the pieces. */
  lemma {:induction false} SplitOnOfJoin(parts: seq<string>, c: char)
    requires |parts| >= 1
    requires forall i, j :: 0 <= i < |parts| && 0 <= j < |parts[i]| ==> parts[i][j] != c
    ensures SplitOn(Join(parts, [c]), c) == parts
    decreases |parts|
  {
    var s := Join(parts, [c]);
    var p := parts[0];
    if |parts| == 1 {
      assert s == p;
    } else {
      var rest := Join(parts[1..], [c]);
      assert s == p + [c] + rest;
      assert forall i :: 0 <= i < |p| ==> s[i] == p[i];
      assert s[|p|] == c;
      assert IndexOfChar(s, c) == |p|;
      assert s[..|p|] == p;
      assert s[|p| + 1..] == rest;
      SplitOnOfJoin(parts[1..], c);
      assert parts == [p] + parts[1..];
    }
  }
}
