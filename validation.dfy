/**
 * Input validators (src/utils/validation.py). Each returns the validated value or
 * the error the source raises; text is a sequence of characters.
 */
module Validation {
  import opened Wrappers
  import opened Errors
  import Rules

  // ---------------------------------------------------------------------------
  // Whitespace, case and digits

  /** The characters `str.strip()` removes, restricted to the ASCII range. */
  predicate IsSpace(c: char) {
    c == ' ' || c == '\t' || c == '\n' || c == '\r' || c == '\U{0b}' || c == '\U{0c}'
    || c == '\U{1c}' || c == '\U{1d}' || c == '\U{1e}' || c == '\U{1f}'
  }

  /** Drops leading whitespace. */
  function StripLeft(s: string): (r: string)
    ensures |r| <= |s| && r == s[|s| - |r|..]
    ensures r == [] || !IsSpace(r[0])
    ensures forall i :: 0 <= i < |s| - |r| ==> IsSpace(s[i])
  {
    if s != [] && IsSpace(s[0]) then StripLeft(s[1..]) else s
  }

  /** Drops trailing whitespace. */
  function StripRight(s: string): (r: string)
    ensures |r| <= |s| && r == s[..|r|]
    ensures r == [] || !IsSpace(r[|r| - 1])
    ensures forall i :: |r| <= i < |s| ==> IsSpace(s[i])
  {
    if s != [] && IsSpace(s[|s| - 1]) then StripRight(s[..|s| - 1]) else s
  }

  /** Where the stripped text starts. */
  function StripStart(s: string): (k: nat)
    ensures k <= |s|
  {
    |s| - |StripLeft(s)|
  }

  /** `str.strip()`: the text between a whitespace prefix and a whitespace suffix, with no whitespace at either end. */
  function Strip(s: string): (r: string)
    ensures StripStart(s) + |r| <= |s| && r == s[StripStart(s)..StripStart(s) + |r|]
    ensures forall i :: 0 <= i < StripStart(s) ==> IsSpace(s[i])
    ensures forall i :: StripStart(s) + |r| <= i < |s| ==> IsSpace(s[i])
    ensures r == [] || (!IsSpace(r[0]) && !IsSpace(r[|r| - 1]))
  {
    StripRight(StripLeft(s))
  }

  /** Stripping leaves nothing exactly when the text is all whitespace. */
  lemma StripEmptyIffBlank(s: string)
    ensures Strip(s) == [] <==> forall i :: 0 <= i < |s| ==> IsSpace(s[i])
  {
    var r := Strip(s);
    if r != [] {
      assert r[0] == s[StripStart(s)];
    }
  }

  /** `str.lower()` on one character, for the ASCII letters. */
  function LowerChar(c: char): (d: char)
    ensures 'A' <= c <= 'Z' ==> d as int == c as int + 32
    ensures !('A' <= c <= 'Z') ==> d == c
  {
    if 'A' <= c <= 'Z' then (c as int + 32) as char else c
  }

  /** `str.lower()`. */
  function Lower(s: string): (r: string)
    ensures |r| == |s| && forall i :: 0 <= i < |s| ==> r[i] == LowerChar(s[i])
  {
    seq(|s|, i requires 0 <= i < |s| => LowerChar(s[i]))
  }

  predicate IsDigit(c: char) {
    '0' <= c <= '9'
  }

  predicate AllDigits(s: string) {
    forall i :: 0 <= i < |s| ==> IsDigit(s[i])
  }

  /** The number a string of decimal digits denotes. */
  function DigitsValue(s: string): (n: nat)
    requires AllDigits(s)
  {
    if s == [] then 0 else DigitsValue(s[..|s| - 1]) * 10 + (s[|s| - 1] as int - '0' as int)
  }

  /** The body of an integer literal: digits, single underscores only between digits. */
  predicate DigitGroups(s: string) {
    s != [] && IsDigit(s[0]) && IsDigit(s[|s| - 1])
    && (forall i :: 0 <= i < |s| ==> IsDigit(s[i]) || s[i] == '_')
    && (forall i :: 0 <= i < |s| - 1 ==> !(s[i] == '_' && s[i + 1] == '_'))
  }

  /** The digits of a literal with its underscores removed. */
  function WithoutUnderscores(s: string): (r: string)
    requires forall i :: 0 <= i < |s| ==> IsDigit(s[i]) || s[i] == '_'
    ensures AllDigits(r) && |r| <= |s|
  {
    if s == [] then []
    else if s[0] == '_' then WithoutUnderscores(s[1..])
    else [s[0]] + WithoutUnderscores(s[1..])
  }

  /** `int(text)` on already stripped text: an optional sign and then digit groups. */
  function ParseInt(s: string): (r: Option<int>)
    ensures r.Some? ==> s != []
    ensures AllDigits(s) && s != [] ==> r == Some(DigitsValue(s))
  {
    if s == [] then None
    else if AllDigits(s) then
      NoUnderscores(s);
      Some(DigitsValue(s))
    else
      var sign := if s[0] == '-' then -1 else 1;
      var body := if s[0] == '-' || s[0] == '+' then s[1..] else s;
      if DigitGroups(body) then Some(sign * DigitsValue(WithoutUnderscores(body))) else None
  }

  /** The decimal digits of a natural number, without leading zeros. */
  function NatToString(n: nat): (s: string)
    ensures AllDigits(s) && s != []
    ensures s[0] == '0' ==> n == 0
    decreases n
  {
    if n < 10 then [('0' as int + n) as char]
    else NatToString(n / 10) + [('0' as int + n % 10) as char]
  }

  /** `str(n)`. */
  function IntToString(n: int): (s: string)
    ensures s != []
  {
    if n < 0 then "-" + NatToString(-n) else NatToString(n)
  }

  lemma {:induction false} NatToStringValue(n: nat)
    ensures DigitsValue(NatToString(n)) == n
    decreases n
  {
    var s := NatToString(n);
    if n >= 10 {
      NatToStringValue(n / 10);
      assert s[..|s| - 1] == NatToString(n / 10);
    }
  }

  lemma {:induction false} NoUnderscores(s: string)
    requires AllDigits(s)
    ensures WithoutUnderscores(s) == s
  {
    if s != [] {
      NoUnderscores(s[1..]);
    }
  }

  /** Parsing the decimal text of any integer gives that integer back. */
  lemma IntToStringRoundTrip(n: int)
    ensures ParseInt(IntToString(n)) == Some(n)
  {
    var digits := NatToString(if n < 0 then -n else n);
    NatToStringValue(if n < 0 then -n else n);
    NoUnderscores(digits);
    if n < 0 {
      assert IntToString(n)[1..] == digits;
    }
  }

  // ---------------------------------------------------------------------------
  // Validators

  /** `validate_integer_input`: not blank, an integer once stripped, within the inclusive bounds. */
  function ValidateIntegerInput(value: string, minValue: Option<int>, maxValue: Option<int>): (r: Result<int, ErrorKind>)
    ensures r.Success? <==>
      Strip(value) != [] && ParseInt(Strip(value)).Some?
      && (minValue.Some? ==> ParseInt(Strip(value)).value >= minValue.value)
      && (maxValue.Some? ==> ParseInt(Strip(value)).value <= maxValue.value)
    ensures r.Success? ==> Some(r.value) == ParseInt(Strip(value))
    ensures Strip(value) == [] ==> r == Failure(InvalidInputError(EmptyInput))
    ensures Strip(value) != [] && ParseInt(Strip(value)).None? ==> r == Failure(InvalidInputError(NotAnInteger))
    ensures r.Failure? ==> r.error.InvalidInputError?
  {
    var text := Strip(value);
    if text == [] then Failure(InvalidInputError(EmptyInput))
    else match ParseInt(text)
      case None => Failure(InvalidInputError(NotAnInteger))
      case Some(n) =>
        if minValue.Some? && n < minValue.value then Failure(InvalidInputError(BelowMinimum))
        else if maxValue.Some? && n > maxValue.value then Failure(InvalidInputError(AboveMaximum))
        else Success(n)
  }

  /** Text with no whitespace at either end is its own stripped form. */
  lemma StripUnchanged(s: string)
    requires s != [] && !IsSpace(s[0]) && !IsSpace(s[|s| - 1])
    ensures Strip(s) == s
  {
    assert StripLeft(s) == s;
    assert StripRight(s) == s;
  }

  /** The decimal text of an integer starts with a sign or a digit and ends with a digit. */
  lemma IntToStringEnds(n: int)
    ensures var s := IntToString(n); !IsSpace(s[0]) && IsDigit(s[|s| - 1])
  {
    var digits := NatToString(if n < 0 then -n else n);
    if n < 0 {
      assert IntToString(n) == "-" + digits;
    }
  }

  /** The decimal text of an integer within the bounds is accepted as that integer. */
  lemma IntegerInputAcceptsInRange(n: int, minValue: Option<int>, maxValue: Option<int>)
    requires minValue.Some? ==> n >= minValue.value
    requires maxValue.Some? ==> n <= maxValue.value
    ensures ValidateIntegerInput(IntToString(n), minValue, maxValue) == Success(n)
  {
    IntToStringRoundTrip(n);
    IntToStringEnds(n);
    StripUnchanged(IntToString(n));
  }

  /** `validate_menu_selection`: an integer in [minOption, maxOption]. */
  function ValidateMenuSelection(value: string, maxOption: int, minOption: int): (r: Result<int, ErrorKind>)
    ensures r.Success? ==> minOption <= r.value <= maxOption
    ensures r == ValidateIntegerInput(value, Some(minOption), Some(maxOption))
  {
    ValidateIntegerInput(value, Some(minOption), Some(maxOption))
  }

  /** `validate_count_estimate`: exactly the integers in [-100, 100]. */
  function ValidateCountEstimate(estimate: string): (r: Result<int, ErrorKind>)
    ensures r.Success? ==> -100 <= r.value <= 100 && Some(r.value) == ParseInt(Strip(estimate))
  {
    ValidateIntegerInput(estimate, Some(-100), Some(100))
  }

  /** Every integer in [-100, 100], written in decimal, is an accepted estimate. */
  lemma CountEstimateAcceptsRange(n: int)
    requires -100 <= n <= 100
    ensures ValidateCountEstimate(IntToString(n)) == Success(n)
  {
    IntegerInputAcceptsInRange(n, Some(-100), Some(100));
  }

  /** Whether two choices match under the comparison in force. */
  predicate SameChoice(value: string, choice: string, caseSensitive: bool) {
    if caseSensitive then value == choice else Lower(value) == Lower(choice)
  }

  /** The first entry of `choices` matching `value`. */
  function FirstMatch(value: string, choices: seq<string>, caseSensitive: bool): (r: Option<nat>)
    ensures r.Some? ==> r.value < |choices| && SameChoice(value, choices[r.value], caseSensitive)
    ensures r.Some? ==> forall j :: 0 <= j < r.value ==> !SameChoice(value, choices[j], caseSensitive)
    ensures r.None? ==> forall j :: 0 <= j < |choices| ==> !SameChoice(value, choices[j], caseSensitive)
  {
    if choices == [] then None
    else if SameChoice(value, choices[0], caseSensitive) then Some(0)
    else match FirstMatch(value, choices[1..], caseSensitive)
      case None => None
      case Some(k) => Some(k + 1)
  }

  /** `validate_choice_input`: the stripped value must match a choice; the choice is returned in its own spelling. */
  function ValidateChoiceInput(value: string, choices: seq<string>, caseSensitive: bool): (r: Result<string, ErrorKind>)
    ensures Strip(value) == [] ==> r == Failure(InvalidInputError(EmptyInput))
    ensures r.Success? <==> Strip(value) != [] && exists j :: 0 <= j < |choices| && SameChoice(Strip(value), choices[j], caseSensitive)
    ensures r.Success? ==> exists j :: 0 <= j < |choices| && r.value == choices[j]
                             && SameChoice(Strip(value), choices[j], caseSensitive)
                             && forall i :: 0 <= i < j ==> !SameChoice(Strip(value), choices[i], caseSensitive)
    ensures r.Success? && caseSensitive ==> r.value == Strip(value)
  {
    var text := Strip(value);
    if text == [] then Failure(InvalidInputError(EmptyInput))
    else match FirstMatch(text, choices, caseSensitive)
      case None => Failure(InvalidInputError(NotAChoice))
      case Some(k) => Success(choices[k])
  }

  /** The characters a session name may not contain. */
  predicate ForbiddenInName(c: char) {
    c == '<' || c == '>' || c == ':' || c == '"' || c == '/' || c == '\\' || c == '|' || c == '?' || c == '*'
  }

  /** `validate_session_name`. */
  function ValidateSessionName(name: string): (r: Result<string, ErrorKind>)
    ensures r.Success? <==>
      Strip(name) != [] && |Strip(name)| <= 100 && forall i :: 0 <= i < |Strip(name)| ==> !ForbiddenInName(Strip(name)[i])
    ensures r.Success? ==> r.value == Strip(name)
    ensures Strip(name) == [] ==> r == Failure(InvalidInputError(EmptyInput))
    ensures |Strip(name)| > 100 ==> r == Failure(InvalidInputError(NameTooLong))
  {
    var text := Strip(name);
    if text == [] then Failure(InvalidInputError(EmptyInput))
    else if |text| > 100 then Failure(InvalidInputError(NameTooLong))
    else if exists i :: 0 <= i < |text| && ForbiddenInName(text[i]) then Failure(InvalidInputError(NameHasInvalidCharacters))
    else Success(text)
  }

  /** `validate_deck_count`: exactly 1, 2, 4, 6 or 8, returned unchanged. */
  function ValidateDeckCount(numDecks: int): (r: Result<int, ErrorKind>)
    ensures r.Success? <==> Rules.AllowedDeckCount(numDecks)
    ensures r.Success? ==> r.value == numDecks
    ensures r.Failure? ==> r.error == ValidationError(BadDeckCount)
  {
    if Rules.AllowedDeckCount(numDecks) then Success(numDecks) else Failure(ValidationError(BadDeckCount))
  }

  /** `validate_penetration`: exactly 0.1 <= p <= 0.95. */
  function ValidatePenetration(p: real): (r: Result<real, ErrorKind>)
    ensures r.Success? <==> 0.1 <= p <= 0.95
    ensures r.Success? ==> r.value == p
    ensures r.Failure? ==> r.error == ValidationError(BadPenetration)
  {
    if 0.1 <= p <= 0.95 then Success(p) else Failure(ValidationError(BadPenetration))
  }

  /** `validate_blackjack_payout`: exactly p > 0. */
  function ValidateBlackjackPayout(p: real): (r: Result<real, ErrorKind>)
    ensures r.Success? <==> p > 0.0
    ensures r.Success? ==> r.value == p
    ensures r.Failure? ==> r.error == ValidationError(BadPayout)
  {
    if p > 0.0 then Success(p) else Failure(ValidationError(BadPayout))
  }

  /** The answers `validate_yes_no_input` reads as yes, once stripped and lower-cased. */
  predicate YesWord(t: string) {
    t == "y" || t == "yes" || t == "true" || t == "1"
  }

  /** The answers `validate_yes_no_input` reads as no, once stripped and lower-cased. */
  predicate NoWord(t: string) {
    t == "n" || t == "no" || t == "false" || t == "0"
  }

  /** `validate_yes_no_input`: the yes words are tried first, then the no words. */
  function ValidateYesNo(value: string): (r: Result<bool, ErrorKind>)
    ensures Strip(value) == [] ==> r == Failure(InvalidInputError(EmptyInput))
    ensures r == Success(true) <==> Strip(value) != [] && YesWord(Lower(Strip(value)))
    ensures r == Success(false) <==> Strip(value) != [] && !YesWord(Lower(Strip(value))) && NoWord(Lower(Strip(value)))
    ensures r.Failure? ==> r.error.InvalidInputError?
  {
    var text := Strip(value);
    if text == [] then Failure(InvalidInputError(EmptyInput))
    else
      var lowered := Lower(text);
      if YesWord(lowered) then Success(true)
      else if NoWord(lowered) then Success(false)
      else Failure(InvalidInputError(NotYesNo))
  }
}
