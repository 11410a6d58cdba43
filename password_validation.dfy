/**
 * Password strength: the five requirements of the strong password schema,
 * the requirement flags shown under the field, and the 0..5 strength score
 * with its label and colour.
 */
module PasswordValidation {

  /** `/[a-z]/.test(s)` */
  predicate HasLowercase(s: string) {
    exists i :: 0 <= i < |s| && 'a' <= s[i] <= 'z'
  }

  /** `/[A-Z]/.test(s)` */
  predicate HasUppercase(s: string) {
    exists i :: 0 <= i < |s| && 'A' <= s[i] <= 'Z'
  }

  /** `/[0-9]/.test(s)` */
  predicate HasDigit(s: string) {
    exists i :: 0 <= i < |s| && '0' <= s[i] <= '9'
  }

  predicate IsAlphanumeric(c: char) {
    ('a' <= c <= 'z') || ('A' <= c <= 'Z') || ('0' <= c <= '9')
  }

  /** `/[^a-zA-Z0-9]/.test(s)` */
  predicate HasSpecial(s: string) {
    exists i :: 0 <= i < |s| && !IsAlphanumeric(s[i])
  }

  /** validatePasswordRequirements */
  datatype Requirements = Requirements(
    minLength: bool,
    hasLowercase: bool,
    hasUppercase: bool,
    hasNumber: bool,
    hasSpecialChar: bool)

  function ValidatePasswordRequirements(password: string): (r: Requirements)
    ensures r.minLength <==> |password| >= 8
    ensures r.hasLowercase <==> HasLowercase(password)
    ensures r.hasUppercase <==> HasUppercase(password)
    ensures r.hasNumber <==> HasDigit(password)
    ensures r.hasSpecialChar <==> HasSpecial(password)
  {
    Requirements(|password| >= 8, HasLowercase(password), HasUppercase(password),
                 HasDigit(password), HasSpecial(password))
  }

  predicate AllMet(r: Requirements) {
    r.minLength && r.hasLowercase && r.hasUppercase && r.hasNumber && r.hasSpecialChar
  }

  /** strongPasswordSchema: every check runs, and the messages of the failing
      ones are reported in the order the checks are declared. */
  function SchemaIssues(password: string): (issues: seq<string>)
    ensures |issues| <= 5
    ensures issues == [] <==> AllMet(ValidatePasswordRequirements(password))
  {
    (if |password| >= 8 then [] else ["La contraseña debe tener al menos 8 caracteres"])
    + (if HasLowercase(password) then [] else ["Debe contener al menos una letra minúscula"])
    + (if HasUppercase(password) then [] else ["Debe contener al menos una letra mayúscula"])
    + (if HasDigit(password) then [] else ["Debe contener al menos un número"])
    + (if HasSpecial(password) then [] else ["Debe contener al menos un carácter especial (!@#$%^&*, etc.)"])
  }

  function Point(b: bool): nat {
    if b then 1 else 0
  }

  /** The points before the cap: two for length, one per character class. */
  function Points(password: string): (n: nat)
    ensures n <= 6
  {
    Point(|password| >= 8) + Point(|password| >= 12)
    + Point(HasLowercase(password)) + Point(HasUppercase(password))
    + Point(HasDigit(password)) + Point(HasSpecial(password))
  }

  /** The score calculatePasswordStrength settles on. */
  function Score(password: string): (n: nat)
    ensures n <= 5
    ensures password == [] <==> n == 0
  {
    if password == [] then 0
    else
      NonEmptyScores(password);
      if Points(password) < 5 then Points(password) else 5
  }

  /** Every character is in one of the four classes, so a non-empty password
      earns at least one point. */
  lemma NonEmptyScores(password: string)
    requires password != []
    ensures Points(password) >= 1
  {
    var c := password[0];
    if 'a' <= c <= 'z' {
      assert HasLowercase(password);
    } else if 'A' <= c <= 'Z' {
      assert HasUppercase(password);
    } else if '0' <= c <= '9' {
      assert HasDigit(password);
    } else {
      assert HasSpecial(password);
    }
  }

  /** A password meeting all five requirements scores exactly 5. */
  lemma AllRequirementsScoreFive(password: string)
    requires AllMet(ValidatePasswordRequirements(password))
    ensures Score(password) == 5
  {
  }

  /** A password the schema accepts is shown as "Muy fuerte". */
  lemma AcceptedIsVeryStrong(password: string)
    requires SchemaIssues(password) == []
    ensures StrengthLabel(Score(password)) == "Muy fuerte"
  {
    AllRequirementsScoreFive(password);
  }

  function StrengthLabel(score: nat): string {
    if score <= 1 then "Muy débil"
    else if score == 2 then "Débil"
    else if score == 3 then "Aceptable"
    else if score == 4 then "Fuerte"
    else if score == 5 then "Muy fuerte"
    else ""
  }

  function StrengthColor(score: nat): string {
    if score <= 1 then "bg-red-500"
    else if score == 2 then "bg-orange-500"
    else if score == 3 then "bg-yellow-500"
    else if score == 4 then "bg-blue-500"
    else if score == 5 then "bg-green-500"
    else ""
  }

  /** `label` is a Dafny keyword: the field is `text`. */
  datatype Strength = Strength(score: nat, text: string, color: string)

  /** calculatePasswordStrength: the empty password is unrated; any other
      scores 1..5 and is labelled by its score. */
  method CalculatePasswordStrength(password: string) returns (r: Strength)
    ensures r.score == Score(password) && r.score <= 5
    ensures password == [] ==> r == Strength(0, "", "bg-gray-200")
    ensures password != [] ==> 1 <= r.score && r.text == StrengthLabel(r.score) && r.color == StrengthColor(r.score)
    ensures r.text != ""  <==> password != []
  {
    var score := 0;
    if password == [] {
      return Strength(0, "", "bg-gray-200");
    }
    if |password| >= 8 { score := score + 1; }
    if |password| >= 12 { score := score + 1; }
    if HasLowercase(password) { score := score + 1; }
    if HasUppercase(password) { score := score + 1; }
    if HasDigit(password) { score := score + 1; }
    if HasSpecial(password) { score := score + 1; }
    score := if score < 5 then score else 5;
    var text := "";
    var color := "";
    if score <= 1 {
      text, color := "Muy débil", "bg-red-500";
    } else if score == 2 {
      text, color := "Débil", "bg-orange-500";
    } else if score == 3 {
      text, color := "Aceptable", "bg-yellow-500";
    } else if score == 4 {
      text, color := "Fuerte", "bg-blue-500";
    } else if score == 5 {
      text, color := "Muy fuerte", "bg-green-500";
    }
    r := Strength(score, text, color);
  }
}
