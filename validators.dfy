/**
 * The form validators (src/utils/validators.js). Each regular expression is
 * written out twice: as the regex describes the string (a ghost predicate
 * that splits it into the pattern's parts) and as an explicit check over its
 * characters, and the two are proved to agree. A validator returns None for
 * JavaScript's `null` (valid) and Some(message) for an error.
 */
module Validators {
  import opened Wrappers
  import opened Text

  // ---------------------------------------------------------------------
  // Email: /^[^\s@]+@[^\s@]+\.[^\s@]+$/
  // ---------------------------------------------------------------------

  /** A character of the class `[^\s@]`. */
  predicate Plain(c: char) {
    !IsSpace(c) && c != '@'
  }

  predicate AllPlain(s: string) {
    forall i :: 0 <= i < |s| ==> Plain(s[i])
  }

  /** `s` is local "@" domain "." tld with the '@' at `a`, the '.' at `d`, and each of the three parts a non-empty run of `[^\s@]`. */
  predicate EmailSplit(s: string, a: int, d: int) {
    && 0 < a && a + 1 < d && d + 1 < |s|
    && s[a] == '@' && s[d] == '.'
    && AllPlain(s[..a]) && AllPlain(s[a + 1..d]) && AllPlain(s[d + 1..])
  }

  /** The email regex matches `s`: some split into its parts exists. */
  ghost predicate EmailPattern(s: string) {
    exists a, d :: EmailSplit(s, a, d)
  }

  /**
   * The explicit check: no whitespace, exactly one '@', something before it,
   * and a '.' in the domain that is neither its first nor its last character.
   */
  predicate EmailShape(s: string) {
    && (forall i | 0 <= i < |s| :: !IsSpace(s[i]))
    && exists a | 0 < a < |s| ::
         && s[a] == '@'
         && (forall j | 0 <= j < |s| && j != a :: s[j] != '@')
         && (exists d | a + 1 < d < |s| - 1 :: s[d] == '.')
  }

  lemma EmailShapeMatchesPattern(s: string)
    ensures EmailShape(s) <==> EmailPattern(s)
  {
    if EmailShape(s) {
      var a :| 0 < a < |s| && s[a] == '@' && (forall j | 0 <= j < |s| && j != a :: s[j] != '@')
               && (exists d | a + 1 < d < |s| - 1 :: s[d] == '.');
      var d :| a + 1 < d < |s| - 1 && s[d] == '.';
      assert EmailSplit(s, a, d);
    }
    if EmailPattern(s) {
      var a, d :| EmailSplit(s, a, d);
      forall i | 0 <= i < |s|
        ensures !IsSpace(s[i]) && (i != a ==> s[i] != '@')
      {
        if i < a {
          assert s[i] == s[..a][i];
        } else if a < i < d {
          assert s[i] == s[a + 1..d][i - a - 1];
        } else if d < i {
          assert s[i] == s[d + 1..][i - d - 1];
        }
      }
    }
  }

  /** `validateEmail(email)`; a missing value is the empty string. */
  function ValidateEmail(email: string): (r: Option<string>)
    ensures email == "" ==> r == Some("Email is required")
    ensures r == None <==> email != "" && EmailPattern(email)
  {
    EmailShapeMatchesPattern(email);
    if email == "" then Some("Email is required")
    else if !EmailShape(email) then Some("Please enter a valid email address")
    else None
  }

  // ---------------------------------------------------------------------
  // Password rules and strength
  // ---------------------------------------------------------------------

  /** The class `[!@#$%^&*(),.?":{}|<>]`. */
  const Specials: string := "!@#$%^&*(),.?\":{}|<>"

  predicate HasUpper(s: string) { exists i | 0 <= i < |s| :: IsUpper(s[i]) }
  predicate HasLower(s: string) { exists i | 0 <= i < |s| :: IsLower(s[i]) }
  predicate HasDigit(s: string) { exists i | 0 <= i < |s| :: IsDigit(s[i]) }
  predicate HasSpecial(s: string) { exists i | 0 <= i < |s| :: s[i] in Specials }

  /** The code units JavaScript's `.` does not match: the line terminators, all below U+10000. */
  predicate IsLineTerminatorUnit(x: int) {
    x == 0x0A || x == 0x0D || x == 0x2028 || x == 0x2029
  }

  /** Three equal code units in a row, the first one matched by `.`. */
  predicate TripleIn(u: seq<int>) {
    exists i | 0 <= i < |u| - 2 :: u[i] == u[i + 1] && u[i + 1] == u[i + 2] && !IsLineTerminatorUnit(u[i])
  }

  /** `/(.)\1{2,}/`, a regex without the `u` flag, so it runs over the UTF-16 code units of `s`. */
  predicate HasTriple(s: string) {
    TripleIn(Utf16(s))
  }

  /** `/^[a-zA-Z]+$/`. */
  predicate AllLetters(s: string) {
    |s| > 0 && forall i | 0 <= i < |s| :: IsLetter(s[i])
  }

  /** Everything `validatePassword` asks for. */
  predicate PasswordRulesHold(p: string) {
    Utf16Length(p) >= 8 && HasUpper(p) && HasLower(p) && HasDigit(p) && HasSpecial(p)
  }

  /**
   * `validatePassword(password)`: the message of the first rule that fails, in
   * the source's order. `password.length` counts UTF-16 code units.
   */
  function ValidatePassword(p: string): (r: Option<string>)
    ensures r == None <==> PasswordRulesHold(p)
    ensures p == "" ==> r == Some("Password is required")
    ensures p != "" && Utf16Length(p) < 8 ==> r == Some("Password must be at least 8 characters")
  {
    if p == "" then Some("Password is required")
    else if Utf16Length(p) < 8 then Some("Password must be at least 8 characters")
    else if !HasUpper(p) then Some("Password must contain at least one uppercase letter")
    else if !HasLower(p) then Some("Password must contain at least one lowercase letter")
    else if !HasDigit(p) then Some("Password must contain at least one number")
    else if !HasSpecial(p) then Some("Password must contain at least one special character")
    else None
  }

  /** The nine criteria `getPasswordStrength` awards a point for, numbered in the source's order; lengths are in UTF-16 code units. */
  predicate Criterion(p: string, k: nat) {
    match k
    case 0 => Utf16Length(p) >= 8
    case 1 => Utf16Length(p) >= 12
    case 2 => Utf16Length(p) >= 16
    case 3 => HasLower(p)
    case 4 => HasUpper(p)
    case 5 => HasDigit(p)
    case 6 => HasSpecial(p)
    case 7 => !HasTriple(p)
    case 8 => !AllLetters(p)
    case _ => false
  }

  /** How many of the first `n` criteria `p` meets. */
  function Met(p: string, n: nat): (m: nat)
    ensures m <= n
  {
    if n == 0 then 0 else Met(p, n - 1) + (if Criterion(p, n - 1) then 1 else 0)
  }

  /** One row of the `strengthLevels` table; `name` is its `label` key. */
  datatype Level = Level(min: int, max: int, name: string, color: string)

  const StrengthLevels: seq<Level> := [
    Level(0, 2, "Very Weak", "#ef4444"),
    Level(3, 4, "Weak", "#f59e0b"),
    Level(5, 6, "Medium", "#eab308"),
    Level(7, 8, "Strong", "#22c55e"),
    Level(9, 10, "Very Strong", "#14b8a6")
  ]

  /** `levels.find(l => score >= l.min && score <= l.max)`. */
  function FindLevel(levels: seq<Level>, score: int): (r: Option<Level>)
    ensures r.Some? ==> r.value in levels && r.value.min <= score <= r.value.max
    ensures r.None? ==> forall l | l in levels :: !(l.min <= score <= l.max)
  {
    if levels == [] then None
    else if levels[0].min <= score <= levels[0].max then Some(levels[0])
    else FindLevel(levels[1..], score)
  }

  /** The band a score falls in, stated on its own terms. */
  function BandLabel(score: int): string {
    if score <= 2 then "Very Weak"
    else if score <= 4 then "Weak"
    else if score <= 6 then "Medium"
    else if score <= 8 then "Strong"
    else "Very Strong"
  }

  /** The colour of the band a score falls in. */
  function BandColor(score: int): string {
    if score <= 2 then "#ef4444"
    else if score <= 4 then "#f59e0b"
    else if score <= 6 then "#eab308"
    else if score <= 8 then "#22c55e"
    else "#14b8a6"
  }

  /** The table has a row for every score from 0 to 10, and it is the row of the score's band. */
  lemma LevelOfScore(score: int)
    requires 0 <= score <= 10
    ensures FindLevel(StrengthLevels, score).Some?
    ensures FindLevel(StrengthLevels, score).value.name == BandLabel(score)
    ensures FindLevel(StrengthLevels, score).value.color == BandColor(score)
  {
    var ls := StrengthLevels;
    if score > 2 {
      assert FindLevel(ls, score) == FindLevel(ls[1..], score);
      if score > 4 {
        assert FindLevel(ls[1..], score) == FindLevel(ls[2..], score);
        if score > 6 {
          assert FindLevel(ls[2..], score) == FindLevel(ls[3..], score);
          if score > 8 {
            assert FindLevel(ls[3..], score) == FindLevel(ls[4..], score);
          }
        }
      }
    }
  }

  /** `strengthLevels.find(...) || strengthLevels[0]`: the row of the score's band. */
  function LevelOf(score: int): (l: Level)
    ensures 0 <= score <= 10 ==> l.name == BandLabel(score) && l.color == BandColor(score)
    ensures !(0 <= score <= 10) ==> l == StrengthLevels[0]
  {
    if 0 <= score <= 10 then
      LevelOfScore(score);
      FindLevel(StrengthLevels, score).value
    else
      FindLevel(StrengthLevels, score).GetOr(StrengthLevels[0])
  }

  /** What `getPasswordStrength` returns: the blank result for an empty password, otherwise a rating. */
  datatype Strength =
    | Blank
    | Rated(score: nat, maxScore: nat, percentage: nat, name: string, color: string)
  {
    /** The `score`, `label` and `color` keys, which both shapes carry. */
    function Score(): nat { if Blank? then 0 else score }
    function Label(): string { if Blank? then "" else name }
    function Color(): string { if Blank? then "" else color }
  }

  /**
   * `getPasswordStrength(password)`: a point per satisfied criterion, the band
   * the score falls in, and `Math.round(score / 9 * 100)` as a percentage.
   */
  method PasswordStrength(p: string) returns (s: Strength)
    ensures s.Blank? <==> p == ""
    ensures p != "" ==> s.Score() == Met(p, 9)
    ensures s.Score() <= 9
    ensures s.Rated? ==> s.maxScore == 9 && s.name == BandLabel(s.score)
    ensures s.Rated? ==> s.color == BandColor(s.score)
    ensures s.Rated? ==> s.percentage == (200 * s.score + 9) / 18 && s.percentage <= 100
  {
    if p == "" {
      return Blank;
    }
    var score := ScoreOf(p);
    var level := LevelOf(score);
    var capped := if score < 9 then score else 9;
    s := Rated(capped, 9, (200 * capped + 9) / 18, level.name, level.color);
  }

  /** 1 for true, 0 for false. */
  function Bit(b: bool): nat {
    if b then 1 else 0
  }

  /** How the count grows criterion by criterion, in the terms the scorer tests. */
  lemma ScoreSteps(p: string)
    ensures Met(p, 1) == Bit(Utf16Length(p) >= 8)
    ensures Met(p, 2) == Met(p, 1) + Bit(Utf16Length(p) >= 12)
    ensures Met(p, 3) == Met(p, 2) + Bit(Utf16Length(p) >= 16)
    ensures Met(p, 4) == Met(p, 3) + Bit(HasLower(p))
    ensures Met(p, 5) == Met(p, 4) + Bit(HasUpper(p))
    ensures Met(p, 6) == Met(p, 5) + Bit(HasDigit(p))
    ensures Met(p, 7) == Met(p, 6) + Bit(HasSpecial(p))
    ensures Met(p, 8) == Met(p, 7) + Bit(!HasTriple(p))
    ensures Met(p, 9) == Met(p, 8) + Bit(!AllLetters(p))
  {
  }

  /** The criteria met, written out term by term in the terms the scorer tests. */
  lemma ScoreTerms(p: string)
    ensures Met(p, 9) == Bit(Utf16Length(p) >= 8) + Bit(Utf16Length(p) >= 12) + Bit(Utf16Length(p) >= 16)
                         + Bit(HasLower(p)) + Bit(HasUpper(p)) + Bit(HasDigit(p)) + Bit(HasSpecial(p))
                         + Bit(!HasTriple(p)) + Bit(!AllLetters(p))
  {
    ScoreSteps(p);
  }

  /** The scoring half of `getPasswordStrength`: one point per criterion met, in the source's order. */
  method ScoreOf(p: string) returns (score: nat)
    ensures score == Met(p, 9)
  {
    var length := Utf16Length(p);
    score := 0;
    if length >= 8 { score := score + 1; }
    assert score == Bit(length >= 8);
    ghost var s1 := score;
    if length >= 12 { score := score + 1; }
    assert score == s1 + Bit(length >= 12);
    ghost var s2 := score;
    if length >= 16 { score := score + 1; }
    assert score == s2 + Bit(length >= 16);
    ghost var s3 := score;
    if HasLower(p) { score := score + 1; }
    assert score == s3 + Bit(HasLower(p));
    ghost var s4 := score;
    if HasUpper(p) { score := score + 1; }
    assert score == s4 + Bit(HasUpper(p));
    ghost var s5 := score;
    if HasDigit(p) { score := score + 1; }
    assert score == s5 + Bit(HasDigit(p));
    ghost var s6 := score;
    if HasSpecial(p) { score := score + 1; }
    assert score == s6 + Bit(HasSpecial(p));
    ghost var s7 := score;
    if !HasTriple(p) { score := score + 1; }
    assert score == s7 + Bit(!HasTriple(p));
    ghost var s8 := score;
    if !AllLetters(p) { score := score + 1; }
    assert score == s8 + Bit(!AllLetters(p));
    ScoreTerms(p);
  }

  /**
   * `Math.round(score / 9 * 100)`, which rounds halves up, is the integer
   * `(200 * score + 9) / 18` the model computes, and stays within 0..100.
   */
  lemma PercentageIsRounded(score: nat)
    requires score <= 9
    ensures (200 * score + 9) / 18 == ((score as real) / 9.0 * 100.0 + 0.5).Floor
    ensures 0 <= (200 * score + 9) / 18 <= 100
  {
  }

  /** Any password `validatePassword` accepts scores at least 6, i.e. Medium or better. */
  lemma AcceptedPasswordIsMedium(p: string)
    requires ValidatePassword(p) == None
    ensures Met(p, 9) >= 6
    ensures BandLabel(Met(p, 9)) in {"Medium", "Strong", "Very Strong"}
  {
    assert PasswordRulesHold(p);
    var i :| 0 <= i < |p| && IsDigit(p[i]);
    assert !IsLetter(p[i]);
    assert !AllLetters(p);
    ScoreSteps(p);
  }

  /**
   * A code point above U+FFFF is two code units, so two emoji and "Aa1!" make
   * the eight units the length rule asks for.
   */
  lemma AstralPassword()
    ensures ValidatePassword("\U{1F600}\U{1F600}Aa1!") == None
  {
    var p := "\U{1F600}\U{1F600}Aa1!";
    assert Utf16Length(p) == 8;
    assert IsUpper(p[2]) && IsLower(p[3]) && IsDigit(p[4]) && p[5] in Specials;
  }

  /**
   * The repeat rule sees three equal emoji as alternating high and low
   * surrogates, never three equal units in a row, while "aaa" is a repeat.
   */
  lemma AstralRepeat()
    ensures !HasTriple("\U{1F600}\U{1F600}\U{1F600}")
    ensures HasTriple("aaa")
  {
    assert Utf16("\U{1F600}\U{1F600}\U{1F600}") == [0xD83D, 0xDE00, 0xD83D, 0xDE00, 0xD83D, 0xDE00];
    var u := Utf16("aaa");
    assert u == ['a' as int, 'a' as int, 'a' as int];
    assert u[0] == u[1] && u[1] == u[2] && !IsLineTerminatorUnit(u[0]);
  }

  // ---------------------------------------------------------------------
  // Name, confirmation, phone
  // ---------------------------------------------------------------------

  /** The class `[a-zA-Z\s'-]`. */
  predicate NameChar(c: char) {
    IsLetter(c) || IsSpace(c) || c == '\'' || c == '-'
  }

  /**
   * `validateName(name)`: the trimmed length, in UTF-16 code units, decides the
   * length rules, the untrimmed string the character rule.
   */
  function ValidateName(name: string): (r: Option<string>)
    ensures r == None ==> 2 <= Utf16Length(Trim(name)) <= 50 && forall i | 0 <= i < |name| :: NameChar(name[i])
    ensures 2 <= Utf16Length(Trim(name)) <= 50 && (forall i | 0 <= i < |name| :: NameChar(name[i])) ==> r == None
    ensures name == "" ==> r == Some("Name is required")
    ensures name != "" && Utf16Length(Trim(name)) < 2 ==> r == Some("Name must be at least 2 characters")
  {
    if name == "" then Some("Name is required")
    else if Utf16Length(Trim(name)) < 2 then Some("Name must be at least 2 characters")
    else if Utf16Length(Trim(name)) > 50 then Some("Name must be less than 50 characters")
    else if !(forall i | 0 <= i < |name| :: NameChar(name[i])) then
      Some("Name can only contain letters, spaces, hyphens, and apostrophes")
    else None
  }

  /**
   * A name of letters only is its own trim, so it passes exactly when it has
   * from 2 to 50 characters: fifty pass although the message says "less than
   * 50", and anything longer gets that message.
   */
  lemma LetterNames(name: string)
    requires AllLetters(name)
    ensures Trim(name) == name
    ensures ValidateName(name) == None <==> 2 <= |name| <= 50
    ensures |name| > 50 ==> ValidateName(name) == Some("Name must be less than 50 characters")
  {
    assert TrimStart(name) == name;
    assert TrimEnd(name) == name;
    assert Trim(name) == name;
    assert forall i | 0 <= i < |name| :: name[i] as int < 0x10000 && NameChar(name[i]);
    Utf16OfBmp(name);
    assert Utf16Length(Trim(name)) == |name|;
  }

  /**
   * A single code point above U+FFFF, an emoji say, is two code units: it
   * passes the length rule and is refused by the character rule.
   */
  lemma AstralName(c: char)
    requires c as int >= 0x10000
    ensures ValidateName([c]) == Some("Name can only contain letters, spaces, hyphens, and apostrophes")
  {
    var name := [c];
    assert !IsSpace(c) && !NameChar(c);
    assert TrimStart(name) == name;
    assert TrimEnd(name) == name;
    assert Utf16Length(name) == 2 by {
      assert name[1..] == [];
    }
  }

  /** `validateConfirmPassword(password, confirmPassword)`. */
  function ValidateConfirmPassword(password: string, confirm: string): (r: Option<string>)
    ensures r == None <==> confirm != "" && confirm == password
  {
    if confirm == "" then Some("Please confirm your password")
    else if password != confirm then Some("Passwords do not match")
    else None
  }

  /** The class `[\d\s\-()]`. */
  predicate PhoneChar(c: char) {
    IsDigit(c) || IsSpace(c) || c == '-' || c == '(' || c == ')'
  }

  /** `[\d\s\-()]{10,20}` as the whole string. */
  predicate PhoneBody(t: string) {
    10 <= |t| <= 20 && forall i | 0 <= i < |t| :: PhoneChar(t[i])
  }

  /** `/^\+?[\d\s\-()]{10,20}$/`: the body alone, or a '+' and then the body. */
  predicate PhonePattern(s: string) {
    PhoneBody(s) || (|s| > 0 && s[0] == '+' && PhoneBody(s[1..]))
  }

  /** The explicit check: drop one leading '+', if there is one, and test the rest. */
  predicate PhoneShape(s: string) {
    PhoneBody(if |s| > 0 && s[0] == '+' then s[1..] else s)
  }

  lemma PhoneShapeMatchesPattern(s: string)
    ensures PhoneShape(s) <==> PhonePattern(s)
  {
    if |s| > 0 && s[0] == '+' {
      assert !PhoneChar(s[0]);
    }
  }

  /** `validatePhone(phone)`: the field is optional, so empty is valid. */
  function ValidatePhone(phone: string): (r: Option<string>)
    ensures r == None <==> phone == "" || PhonePattern(phone)
  {
    PhoneShapeMatchesPattern(phone);
    if phone == "" then None
    else if !PhoneShape(phone) then Some("Please enter a valid phone number")
    else None
  }

  // ---------------------------------------------------------------------
  // validateForm
  // ---------------------------------------------------------------------

  /** A validator as `validateForm` calls it: the field's value (absent when the field is missing) and all fields. */
  type Check = (Option<string>, map<string, string>) -> Option<string>

  function Lookup(fields: map<string, string>, f: string): Option<string> {
    if f in fields then Some(fields[f]) else None
  }

  /** `if (error)`: an error counts only when it is a non-empty string. */
  predicate Fails(check: Check, fields: map<string, string>, f: string) {
    var e := check(Lookup(fields, f), fields);
    e.Some? && e.value != ""
  }

  /** The fields whose validator reports an error. */
  function FailingFields(fields: map<string, string>, validators: map<string, Check>): set<string> {
    set f | f in validators && Fails(validators[f], fields, f)
  }

  /**
   * `validateForm(fields, validators)`: runs every validator, records each
   * error under its field, and is valid exactly when no error was recorded.
   */
  method ValidateForm(fields: map<string, string>, validators: map<string, Check>)
    returns (isValid: bool, errors: map<string, string>)
    ensures errors.Keys == FailingFields(fields, validators)
    ensures forall f | f in errors :: f in validators && errors[f] == validators[f](Lookup(fields, f), fields).value
    ensures isValid <==> errors == map[]
  {
    errors := map[];
    isValid := true;
    var rest := validators.Keys;
    while rest != {}
      invariant rest <= validators.Keys
      invariant errors.Keys == FailingFields(fields, validators) - rest
      invariant forall f | f in errors :: f in validators && errors[f] == validators[f](Lookup(fields, f), fields).value
      invariant isValid <==> errors == map[]
      decreases rest
    {
      var f :| f in rest;
      var error := validators[f](Lookup(fields, f), fields);
      if error.Some? && error.value != "" {
        errors := errors[f := error.value];
        isValid := false;
      }
      rest := rest - {f};
    }
  }
}
