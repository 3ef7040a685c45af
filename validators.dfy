/**
 * The two field validators of the review app: the username rule (allowed
 * characters, then the reserved name "me") and the release-year rule.
 */
module Validators {
  import opened Wrappers

  /**
   * How the USERNAME_REGEX setting is anchored. The setting is a character
   * class C repeated one or more times, written either `C+` (Bare) or
   * `^C+\Z` (Full); the class itself is the `allowed` predicate below.
   */
  datatype Anchoring = Bare | Full

  datatype UsernamePattern = UsernamePattern(allowed: char -> bool, anchoring: Anchoring)

  /** The reserved username. */
  const Me: string := "me"

  datatype UsernameError =
    | NotAllowedChars(chars: set<char>)  // NOT_ALLOWED_CHAR_MSG, formatted with these characters
    | NotAllowedMe                       // NOT_ALLOWED_ME_MSG

  datatype YearError = YearInFuture(year: int)  // NOT_ALLOWED_YEAR_MSG, formatted with the current year

  /** `re.compile(USERNAME_REGEX).match(value)` succeeds; re.match anchors at the start only. */
  predicate Matches(p: UsernamePattern, value: string)
  {
    match p.anchoring
    case Bare => |value| > 0 && p.allowed(value[0])
    case Full => |value| > 0 && forall i :: 0 <= i < |value| ==> p.allowed(value[i])
  }

  /** The characters of `s` outside the class, in order. */
  function Disallowed(allowed: char -> bool, s: string): (r: string)
    ensures forall c :: c in r <==> c in s && !allowed(c)
    ensures |r| <= |s|
    ensures (forall i :: 0 <= i < |s| ==> !allowed(s[i])) ==> r == s
  {
    if s == [] then []
    else (if allowed(s[0]) then [] else [s[0]]) + Disallowed(allowed, s[1..])
  }

  /** Removing the matches works piece by piece, so what is left keeps its order. */
  lemma {:induction false} DisallowedAppend(allowed: char -> bool, s: string, t: string)
    ensures Disallowed(allowed, s + t) == Disallowed(allowed, s) + Disallowed(allowed, t)
    decreases |s|
  {
    if s == [] {
      assert s + t == t;
    } else {
      assert (s + t)[1..] == s[1..] + t;
      DisallowedAppend(allowed, s[1..], t);
    }
  }

  /** `re.sub(USERNAME_REGEX, '', value)`: every match of the pattern removed. */
  function Stripped(p: UsernamePattern, value: string): string
  {
    match p.anchoring
    case Bare => Disallowed(p.allowed, value)
    case Full => if Matches(p, value) then "" else value
  }

  /** `set(s)`: the distinct characters of a string. */
  function CharSet(s: string): (r: set<char>)
    ensures forall c :: c in r <==> c in s
  {
    set c | c in s
  }

  /**
   * validate_username: the pattern is checked first, the reserved name
   * second; an accepted value is returned unchanged.
   */
  function ValidateUsername(p: UsernamePattern, value: string): (r: Result<string, UsernameError>)
    ensures r.Ok? <==> Matches(p, value) && value != Me
    ensures r.Ok? ==> r.value == value
    ensures !Matches(p, value) ==> r == Err(NotAllowedChars(CharSet(Stripped(p, value))))
    ensures Matches(p, value) && value == Me ==> r == Err(NotAllowedMe)
  {
    if !Matches(p, value) then Err(NotAllowedChars(CharSet(Stripped(p, value))))
    else if value == Me then Err(NotAllowedMe)
    else Ok(value)
  }

  /** "me" is never accepted; it gets the "me" error exactly when the pattern admits it. */
  lemma MeAlwaysRejected(p: UsernamePattern)
    ensures ValidateUsername(p, Me).Err?
    ensures ValidateUsername(p, Me) == Err(NotAllowedMe) <==> Matches(p, Me)
    ensures ValidateUsername(p, Me) == Err(NotAllowedMe) <==>
              p.allowed('m') && (p.anchoring == Full ==> p.allowed('e'))
  {
    assert Me[0] == 'm' && Me[1] == 'e';
    if p.anchoring == Full && p.allowed('m') && p.allowed('e') {
      forall i | 0 <= i < |Me| ensures p.allowed(Me[i]) {
        assert i == 0 || i == 1;
      }
    }
  }

  /**
   * The character error lists every offending character. With a bare
   * pattern it lists exactly the offending ones; with an anchored pattern
   * re.sub removes nothing from a value that fails, so every character of
   * the value is listed.
   */
  lemma ListedCharacters(p: UsernamePattern, value: string)
    requires !Matches(p, value)
    ensures ValidateUsername(p, value).Err? && ValidateUsername(p, value).error.NotAllowedChars?
    ensures forall c :: c in value && !p.allowed(c) ==> c in ValidateUsername(p, value).error.chars
    ensures p.anchoring == Bare ==>
              ValidateUsername(p, value).error.chars == set c | c in value && !p.allowed(c)
    ensures p.anchoring == Full ==> ValidateUsername(p, value).error.chars == CharSet(value)
  {
  }

  /**
   * With a bare pattern, re.match only needs a matching prefix: a value
   * whose first character is allowed passes whatever follows it.
   */
  lemma BarePatternChecksFirstCharacterOnly(p: UsernamePattern, value: string)
    requires p.anchoring == Bare && |value| > 0 && p.allowed(value[0]) && value != Me
    ensures ValidateUsername(p, value) == Ok(value)
  {
  }

  /** With an anchored pattern, an accepted username is made of allowed characters only. */
  lemma FullPatternAcceptsAllowedCharactersOnly(p: UsernamePattern, value: string)
    requires p.anchoring == Full
    ensures ValidateUsername(p, value).Ok? <==>
              value != "" && value != Me && forall c :: c in value ==> p.allowed(c)
  {
    if value != "" && forall c :: c in value ==> p.allowed(c) {
      forall i | 0 <= i < |value| ensures p.allowed(value[i]) {
        assert value[i] in value;
      }
    }
  }

  /** validate_year with the current calendar year as a parameter. */
  function ValidateYear(value: int, currentYear: int): (r: Result<int, YearError>)
    ensures r == Ok(value) <==> value <= currentYear
    ensures r.Ok? ==> r.value == value
    ensures r.Err? ==> r.error == YearInFuture(currentYear)
  {
    if value > currentYear then Err(YearInFuture(currentYear)) else Ok(value)
  }

  /** The accepted years form a down-closed set whose largest element is the current year. */
  lemma AcceptedYearsDownClosed(value: int, earlier: int, currentYear: int)
    requires ValidateYear(value, currentYear).Ok? && earlier <= value
    ensures ValidateYear(earlier, currentYear) == Ok(earlier)
    ensures ValidateYear(currentYear, currentYear) == Ok(currentYear)
    ensures ValidateYear(currentYear + 1, currentYear) == Err(YearInFuture(currentYear))
  {
  }
}
