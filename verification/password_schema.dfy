/**
 * `choosePasswordSchema`, the strength rules a new password must meet, and `passwordSchema`, which
 * accepts any string. The bcrypt transform at the end of `choosePasswordSchema` is the abstract `hash`.
 */
module PasswordSchema {
  import opened Wrappers
  import opened Text
  import opened Http
  import opened Json
  import opened Zod

  const PasswordRequired := "Password is required"
  const PasswordNotString := "Password must be a string"
  const PasswordTooShort := "Password must be at least 8 characters"
  const PasswordTooLong := "Password cannot exceed 128 characters"
  const PasswordPadded := "Password cannot start or end with whitespace"
  const PasswordNoLower := "Password must include at least one lowercase letter"
  const PasswordNoUpper := "Password must include at least one uppercase letter"
  const PasswordNoDigit := "Password must include at least one digit"
  const PasswordNoSpecial := "Password must include at least one special character"
  const PasswordCommon := "Password is too common. Choose something more secure."

  /** The list of forbidden common passwords: empty. */
  const CommonPasswords: seq<string> := []

  predicate HasLower(s: string) { exists i :: 0 <= i < |s| && IsLower(s[i]) }
  predicate HasUpper(s: string) { exists i :: 0 <= i < |s| && IsUpper(s[i]) }
  predicate HasDigit(s: string) { exists i :: 0 <= i < |s| && IsDigit(s[i]) }
  /** `/[^a-zA-Z0-9]/`: some character is neither an ASCII letter nor a digit. */
  predicate HasSpecial(s: string) { exists i :: 0 <= i < |s| && !IsLetter(s[i]) && !IsDigit(s[i]) }

  /** The checks in schema order, on the untrimmed string; every failing check reports. */
  function ChoosePasswordIssues(s: string): seq<Issue> {
    Check(|s| >= 8, TooSmall, PasswordTooShort)
    + Check(|s| <= 128, TooBig, PasswordTooLong)
    + Check(s == Trim(s), Custom, PasswordPadded)
    + Check(HasLower(s), Custom, PasswordNoLower)
    + Check(HasUpper(s), Custom, PasswordNoUpper)
    + Check(HasDigit(s), Custom, PasswordNoDigit)
    + Check(HasSpecial(s), Custom, PasswordNoSpecial)
    + Check(ToLower(s) !in CommonPasswords, Custom, PasswordCommon)
  }

  /**
   * A strong password, stated directly: 8 to 128 characters, no whitespace at either end, and at
   * least one lowercase letter, one uppercase letter, one digit and one other character.
   */
  ghost predicate StrongPassword(s: string) {
    && 8 <= |s| <= 128
    && !IsSpace(s[0]) && !IsSpace(s[|s| - 1])
    && HasLower(s) && HasUpper(s) && HasDigit(s) && HasSpecial(s)
  }

  /** The common-password rule never rejects anything. */
  lemma CommonRuleVacuous(s: string)
    ensures Check(ToLower(s) !in CommonPasswords, Custom, PasswordCommon) == []
  {
  }

  /** The eight checks pass together exactly on the strong passwords. */
  lemma ChoosePasswordExact(s: string)
    ensures ChoosePasswordIssues(s) == [] <==> StrongPassword(s)
  {
    ChecksPassExactly(s);
    TrimFixedPoint(s);
  }

  /** The issue list is empty exactly when each rule holds; the common-password rule always does. */
  lemma ChecksPassExactly(s: string)
    ensures ChoosePasswordIssues(s) == [] <==>
      |s| >= 8 && |s| <= 128 && s == Trim(s) && HasLower(s) && HasUpper(s) && HasDigit(s) && HasSpecial(s)
  {
    var issues := ChoosePasswordIssues(s);
    var common := Check(ToLower(s) !in CommonPasswords, Custom, PasswordCommon);
    CommonRuleVacuous(s);
    assert |issues| ==
      |Check(|s| >= 8, TooSmall, PasswordTooShort)| + |Check(|s| <= 128, TooBig, PasswordTooLong)|
      + |Check(s == Trim(s), Custom, PasswordPadded)| + |Check(HasLower(s), Custom, PasswordNoLower)|
      + |Check(HasUpper(s), Custom, PasswordNoUpper)| + |Check(HasDigit(s), Custom, PasswordNoDigit)|
      + |Check(HasSpecial(s), Custom, PasswordNoSpecial)| + |common|;
  }

  /** A space inside the password counts as its special character. */
  lemma InteriorSpaceIsSpecial(a: string, b: string)
    ensures HasSpecial(a + " " + b)
  {
    assert (a + " " + b)[|a|] == ' ';
  }

  /**
   * `choosePasswordSchema`: a string meeting every rule, turned into `hash(s)`; a missing or
   * non-string value is a type error, anything else lists each broken rule.
   */
  function ParseChoosePassword(v: Option<Json>, hash: string -> string): (r: Result<string, seq<Issue>>)
    ensures r.Ok? <==> v.Some? && v.value.JStr? && StrongPassword(v.value.s)
    ensures r.Ok? ==> r.value == hash(v.value.s)
    ensures r.Err? ==> r.error != []
    ensures !(v.Some? && v.value.JStr?) ==>
      r == Err([Problem(InvalidType, if Nullish(v) then PasswordRequired else PasswordNotString)])
  {
    if v.Some? && v.value.JStr? then
      var s := v.value.s;
      ChoosePasswordExact(s);
      var issues := ChoosePasswordIssues(s);
      if issues == [] then Ok(hash(s)) else Err(issues)
    else Err([Problem(InvalidType, if Nullish(v) then PasswordRequired else PasswordNotString)])
  }

  /** `passwordSchema`: any string, the empty one included, is accepted unchanged. */
  function ParsePassword(v: Option<Json>): (r: Result<string, seq<Issue>>)
    ensures r.Ok? <==> v.Some? && v.value.JStr?
    ensures r.Ok? ==> r.value == v.value.s
    ensures r.Err? ==> r.error == [Problem(InvalidType, if Nullish(v) then PasswordRequired else PasswordNotString)]
  {
    if v.Some? && v.value.JStr? then Ok(v.value.s)
    else Err([Problem(InvalidType, if Nullish(v) then PasswordRequired else PasswordNotString)])
  }
}
