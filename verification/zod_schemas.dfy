/** `nameSchema` and `emailSchema`: the field rules shared by the account schemas. */
module ZodSchemas {
  import opened Wrappers
  import opened Text
  import opened Http
  import opened Json
  import opened Zod

  const NameRequired := "Name is required"
  const NameNotString := "Name must be a string"
  const NameTooShort := "Name must be at least 3 characters long"
  const NameTooLong := "Name cannot exceed 20 characters"
  const NameBadStart := "Name must start with a letter (a-z, A-Z) or an underscore (_)"
  const NameBadChars := "Name can only include letters, dots (.), hyphens (-), and underscores (_)"
  const NameBadEnd := "Name cannot end with a dot (.) or hyphen (-)"
  const NameDoubled := "Name cannot contain consecutive dots (..) or hyphens (--)"
  const NameMixed := "Name cannot have mixed consecutive special characters like '.-' or '-.'"
  const EmailRequired := "Email is required"
  const EmailInvalid := "Invalid email format"

  /** The characters `[a-zA-Z. _-]` admits. */
  predicate NameChar(c: char) {
    IsLetter(c) || c == '.' || c == ' ' || c == '_' || c == '-'
  }

  /** The two punctuation marks the refinements constrain. */
  predicate Mark(c: char) {
    c == '.' || c == '-'
  }

  /** The name checks, in schema order, on the trimmed name; every failing check reports. */
  function NameCheckIssues(t: string): seq<Issue> {
    Check(|t| >= 3, TooSmall, NameTooShort)
    + Check(|t| <= 20, TooBig, NameTooLong)
    + Check(t != [] && (IsLetter(t[0]) || t[0] == '_'), InvalidFormat, NameBadStart)
    + Check(t != [] && forall i :: 0 <= i < |t| ==> NameChar(t[i]), InvalidFormat, NameBadChars)
    + Check(!(t != [] && Mark(t[|t| - 1])), Custom, NameBadEnd)
    + Check(!Contains(t, "..") && !Contains(t, "--"), Custom, NameDoubled)
    + Check(!Contains(t, ".-") && !Contains(t, "-."), Custom, NameMixed)
  }

  /**
   * An acceptable (trimmed) name, stated directly: 3 to 20 characters from `[a-zA-Z. _-]`, starting
   * with a letter or `_`, not ending with a mark, and never two marks in a row.
   */
  ghost predicate WellFormedName(t: string) {
    && 3 <= |t| <= 20
    && (IsLetter(t[0]) || t[0] == '_')
    && (forall i :: 0 <= i < |t| ==> NameChar(t[i]))
    && !Mark(t[|t| - 1])
    && (forall i :: 0 <= i < |t| - 1 ==> !(Mark(t[i]) && Mark(t[i + 1])))
  }

  /** `t` contains the two-character string `[a, b]` exactly when `a` is directly followed by `b` somewhere. */
  lemma PairAbsent(t: string, a: char, b: char)
    ensures !Contains(t, [a, b]) <==> forall i :: 0 <= i < |t| - 1 ==> !(t[i] == a && t[i + 1] == b)
  {
    ContainsAt(t, [a, b]);
    if exists i :: 0 <= i < |t| - 1 && t[i] == a && t[i + 1] == b {
      var i :| 0 <= i < |t| - 1 && t[i] == a && t[i + 1] == b;
      assert t[i..i + 2] == [a, b];
      assert OccursAt(t, [a, b], i);
    }
    if Contains(t, [a, b]) {
      var i :| OccursAt(t, [a, b], i);
      assert t[i..i + 2][0] == t[i] && t[i..i + 2][1] == t[i + 1];
    }
  }

  /** The seven checks pass together exactly on the well-formed names. */
  lemma NameChecksExact(t: string)
    ensures NameCheckIssues(t) == [] <==> WellFormedName(t)
  {
    PairAbsent(t, '.', '.');
    PairAbsent(t, '-', '-');
    PairAbsent(t, '.', '-');
    PairAbsent(t, '-', '.');
    assert ".." == ['.', '.'] && "--" == ['-', '-'] && ".-" == ['.', '-'] && "-." == ['-', '.'];
  }

  /** A well-formed name has no digit. */
  lemma NamesHaveNoDigits(t: string)
    requires WellFormedName(t)
    ensures forall i :: 0 <= i < |t| ==> !IsDigit(t[i])
  {
    forall i | 0 <= i < |t| ensures !IsDigit(t[i]) {
      assert NameChar(t[i]);
    }
  }

  /** `nameSchema`: a string, trimmed, then checked; the output is the trimmed string. */
  function ParseName(v: Option<Json>): (r: Result<string, seq<Issue>>)
    ensures r.Ok? <==> v.Some? && v.value.JStr? && WellFormedName(Trim(v.value.s))
    ensures r.Ok? ==> r.value == Trim(v.value.s)
    ensures r.Err? ==> r.error != []
    ensures !(v.Some? && v.value.JStr?) ==>
      r == Err([Problem(InvalidType, if Nullish(v) then NameRequired else NameNotString)])
  {
    if v.Some? && v.value.JStr? then CheckName(Trim(v.value.s))
    else Err([Problem(InvalidType, if Nullish(v) then NameRequired else NameNotString)])
  }

  /** The checks that follow the trim. */
  function CheckName(t: string): (r: Result<string, seq<Issue>>)
    ensures r.Ok? <==> WellFormedName(t)
    ensures r.Ok? ==> r.value == t
    ensures r.Err? ==> r.error != []
  {
    NameChecksExact(t);
    var issues := NameCheckIssues(t);
    if issues == [] then Ok(t) else Err(issues)
  }

  /**
   * `emailSchema`: a string input is trimmed before the format check (`emailFormat`, standing for
   * `z.email()`); the output is the trimmed string. A non-string input is reported as a type error.
   */
  function ParseEmail(v: Option<Json>, emailFormat: string -> bool): (r: Result<string, seq<Issue>>)
    ensures r.Ok? <==> v.Some? && v.value.JStr? && emailFormat(Trim(v.value.s))
    ensures r.Ok? ==> r.value == Trim(v.value.s)
    ensures r.Err? ==> |r.error| == 1 && r.error[0].path == []
    ensures r.Err? && v.Some? && v.value.JStr? ==> r.error == [Problem(InvalidFormat, EmailInvalid)]
    ensures !(v.Some? && v.value.JStr?) ==>
      r == Err([Problem(InvalidType, if Nullish(v) then EmailRequired else EmailInvalid)])
  {
    if v.Some? && v.value.JStr? then
      var t := Trim(v.value.s);
      if emailFormat(t) then Ok(t) else Err([Problem(InvalidFormat, EmailInvalid)])
    else Err([Problem(InvalidType, if Nullish(v) then EmailRequired else EmailInvalid)])
  }

  /** Whitespace around an email address changes nothing: it is trimmed before it is checked. */
  lemma EmailPaddingIgnored(w1: string, s: string, w2: string, emailFormat: string -> bool)
    requires AllSpace(w1) && AllSpace(w2)
    ensures ParseEmail(Some(JStr(w1 + s + w2)), emailFormat) == ParseEmail(Some(JStr(s)), emailFormat)
  {
    TrimIgnoresPadding(w1, s, w2);
  }

  /** Likewise for a name. */
  lemma NamePaddingIgnored(w1: string, s: string, w2: string)
    requires AllSpace(w1) && AllSpace(w2)
    ensures ParseName(Some(JStr(w1 + s + w2))) == ParseName(Some(JStr(s)))
  {
    TrimIgnoresPadding(w1, s, w2);
  }
}
