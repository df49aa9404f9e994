/*
 * validations/user.validation.js: the field rules of the registration and
 * login schemas. Joi stops at the first failing rule of a field (its default
 * abortEarly), and Joi.string() refuses the empty string before any other
 * rule. Joi's e-mail grammar is the parameter `isEmail`.
 */
module UserValidation {
  import opened Common

  const MSG_PASSWORD_MIN: string := "Password must be at least 8 characters long"
  const MSG_PASSWORD_PATTERN: string :=
    "Password must contain at least one uppercase letter, one lowercase letter, one number and one special character"
  const MSG_PASSWORD_REQUIRED: string := "Password is required"
  const MSG_PHONE_PATTERN: string := "Please provide a valid phone number"
  const MSG_EMAIL_INVALID: string := "Please provide a valid email address"
  const MSG_EMAIL_REQUIRED: string := "Email is required"

  /** Joi's built-in message for an empty string, labelled with the key. */
  function EmptyMessage(key: string): string
  {
    "\"" + key + "\" is not allowed to be empty"
  }

  /** The outcome of one field rule: the (possibly converted) value or the message of the first failing rule. */
  datatype Check<T> = Valid(value: T) | Invalid(message: string)

  predicate IsLowerLetter(c: char) { 'a' <= c <= 'z' }
  predicate IsUpperLetter(c: char) { 'A' <= c <= 'Z' }
  predicate IsDigit(c: char) { '0' <= c <= '9' }
  predicate IsSpecial(c: char) { c in "@$!%*?&" }

  /** The class [A-Za-z\d@$!%*?&]. */
  predicate PasswordChar(c: char)
  {
    IsLowerLetter(c) || IsUpperLetter(c) || IsDigit(c) || IsSpecial(c)
  }

  /** The password pattern: four look-aheads, then eight or more characters of the class, anchored. */
  predicate PasswordPattern(p: string)
  {
    |p| >= 8 &&
    (forall i :: 0 <= i < |p| ==> PasswordChar(p[i])) &&
    (exists i :: 0 <= i < |p| && IsLowerLetter(p[i])) &&
    (exists i :: 0 <= i < |p| && IsUpperLetter(p[i])) &&
    (exists i :: 0 <= i < |p| && IsDigit(p[i])) &&
    (exists i :: 0 <= i < |p| && IsSpecial(p[i]))
  }

  /** password: required, non-empty, min(8), then the pattern. */
  function ValidatePassword(p: Option<string>): (r: Check<string>)
    ensures r.Valid? ==> p.Some? && r.value == p.value && PasswordPattern(p.value)
    ensures p.None? ==> r == Invalid(MSG_PASSWORD_REQUIRED)
    ensures p.Some? && 0 < |p.value| < 8 ==> r == Invalid(MSG_PASSWORD_MIN)
  {
    if p.None? then Invalid(MSG_PASSWORD_REQUIRED)
    else if p.value == "" then Invalid(EmptyMessage("password"))
    else if |p.value| < 8 then Invalid(MSG_PASSWORD_MIN)
    else if !PasswordPattern(p.value) then Invalid(MSG_PASSWORD_PATTERN)
    else Valid(p.value)
  }

  /** The pattern already demands eight characters: a password is accepted exactly when it matches. */
  lemma PasswordAcceptedIffPattern(p: string)
    ensures ValidatePassword(Some(p)).Valid? <==> PasswordPattern(p)
    ensures !PasswordPattern(p) && |p| >= 8 ==> ValidatePassword(Some(p)) == Invalid(MSG_PASSWORD_PATTERN)
  {
  }

  /** One password of each kind: all four classes present, and one without an upper-case letter. */
  lemma PasswordExamples()
    ensures ValidatePassword(Some("Secret1!")).Valid?
    ensures ValidatePassword(Some("secret1!")) == Invalid(MSG_PASSWORD_PATTERN)
    ensures ValidatePassword(Some("Secret 1!")) == Invalid(MSG_PASSWORD_PATTERN)
  {
    var good := "Secret1!";
    assert IsUpperLetter(good[0]) && IsLowerLetter(good[1]) && IsDigit(good[6]) && IsSpecial(good[7]);
    var noUpper := "secret1!";
    assert forall i :: 0 <= i < |noUpper| ==> !IsUpperLetter(noUpper[i]);
    var spaced := "Secret 1!";
    assert !PasswordChar(spaced[6]);
  }

  /** \s of JavaScript regular expressions: the Unicode white-space and line-terminator characters. */
  predicate IsJsWhitespace(c: char)
  {
    c == ' ' || c == '\t' || c == '\n' || c == '\U{000B}' || c == '\U{000C}' || c == '\r' ||
    c == '\U{00A0}' || c == '\U{1680}' || ('\U{2000}' <= c <= '\U{200A}') || c == '\U{2028}' ||
    c == '\U{2029}' || c == '\U{202F}' || c == '\U{205F}' || c == '\U{3000}' || c == '\U{FEFF}'
  }

  /** The class [\d\s\-\(\)]. */
  predicate PhoneChar(c: char)
  {
    IsDigit(c) || IsJsWhitespace(c) || c == '-' || c == '(' || c == ')'
  }

  /** The text after an optional leading '+'; '+' is outside the class, so the '?' must take it. */
  function PhoneBody(s: string): string
  {
    if |s| > 0 && s[0] == '+' then s[1..] else s
  }

  /** /^\+?[\d\s\-\(\)]{10,15}$/. */
  predicate PhonePattern(s: string)
  {
    var body := PhoneBody(s);
    10 <= |body| <= 15 && forall i :: 0 <= i < |body| ==> PhoneChar(body[i])
  }

  /** phone: optional; when given, non-empty and matching the pattern. */
  function ValidatePhone(s: Option<string>): (r: Check<Option<string>>)
    ensures r.Valid? <==> s.None? || PhonePattern(s.value)
    ensures r.Valid? ==> r.value == s
  {
    if s.None? then Valid(None)
    else if s.value == "" then Invalid(EmptyMessage("phone"))
    else if !PhonePattern(s.value) then Invalid(MSG_PHONE_PATTERN)
    else Valid(s)
  }

  /** An accepted phone is 10 to 16 characters long, the '+' being the only one outside the class. */
  lemma PhoneLengthBounds(s: string)
    requires PhonePattern(s)
    ensures 10 <= |s| <= 16
    ensures forall i :: 0 < i < |s| ==> PhoneChar(s[i])
    ensures |s| == 16 ==> s[0] == '+'
  {
    if |s| > 0 && s[0] == '+' {
      assert forall i :: 0 < i < |s| ==> s[i] == PhoneBody(s)[i - 1];
    }
  }

  /** A second '+' is never accepted. */
  lemma PhoneSinglePlus(s: string)
    requires |s| >= 2 && s[0] == '+' && s[1] == '+'
    ensures !PhonePattern(s)
  {
    assert PhoneBody(s)[0] == '+';
  }

  /** Labels and messages of a first or last name. */
  datatype NameField = FirstName | LastName

  function NameKey(f: NameField): string
  {
    match f
    case FirstName => "firstName"
    case LastName => "lastName"
  }

  function NameLabel(f: NameField): string
  {
    match f
    case FirstName => "First name"
    case LastName => "Last name"
  }

  /** firstName / lastName: required, min(2), max(30), with the schema's own messages. */
  function ValidateName(f: NameField, s: Option<string>): (r: Check<string>)
    ensures r.Valid? <==> s.Some? && 2 <= |s.value| <= 30
    ensures r.Valid? ==> r.value == s.value
    ensures s.Some? && |s.value| > 30 ==> r == Invalid(NameLabel(f) + " must be less than 30 characters long")
    ensures s.Some? && |s.value| == 1 ==> r == Invalid(NameLabel(f) + " must be at least 2 characters long")
  {
    if s.None? then Invalid(NameLabel(f) + " is required")
    else if s.value == "" then Invalid(EmptyMessage(NameKey(f)))
    else if |s.value| < 2 then Invalid(NameLabel(f) + " must be at least 2 characters long")
    else if |s.value| > 30 then Invalid(NameLabel(f) + " must be less than 30 characters long")
    else Valid(s.value)
  }

  /** The maximum message says "less than 30", yet a name of exactly 30 characters is accepted. */
  lemma ThirtyCharacterNameAccepted(f: NameField, s: string)
    requires |s| == 30
    ensures ValidateName(f, Some(s)).Valid?
  {
  }

  /** One element of addresses, as submitted; the coordinates are the inner numbers array. */
  datatype AddressInput = AddressInput(
    kind: Option<string>,
    street: Option<string>,
    city: Option<string>,
    state: Option<string>,
    country: Option<string>,
    postalCode: Option<string>,
    coordinates: Option<seq<real>>)

  /** A required string of at most `max` characters. */
  predicate BoundedText(s: Option<string>, max: nat)
  {
    s.Some? && 0 < |s.value| <= max
  }

  predicate AddressKindOk(kind: Option<string>)
  {
    kind.None? || kind.value in {"home", "work", "other"}
  }

  /** The address object: type in the three values, the five texts present and bounded, two coordinates. */
  predicate ValidAddress(a: AddressInput)
  {
    AddressKindOk(a.kind) &&
    BoundedText(a.street, 100) && BoundedText(a.city, 50) && BoundedText(a.state, 50) &&
    BoundedText(a.country, 50) && BoundedText(a.postalCode, 20) &&
    (a.coordinates.None? || |a.coordinates.value| == 2)
  }

  /** addresses: every element valid; the first invalid element is the one reported. */
  function FirstInvalidAddress(addresses: seq<AddressInput>): (i: int)
    ensures -1 <= i < |addresses|
    ensures i >= 0 ==> !ValidAddress(addresses[i]) && forall k :: 0 <= k < i ==> ValidAddress(addresses[k])
    ensures i < 0 <==> forall k :: 0 <= k < |addresses| ==> ValidAddress(addresses[k])
  {
    if addresses == [] then -1
    else if !ValidAddress(addresses[0]) then 0
    else
      var k := FirstInvalidAddress(addresses[1..]);
      if k < 0 then -1 else k + 1
  }

  const LANGUAGES: set<string> := {"en", "es", "fr", "de", "it", "pt", "zh", "ja", "ko"}

  /** preferences.language: optional, one of the nine codes. */
  predicate LanguageOk(language: Option<string>)
  {
    language.None? || language.value in LANGUAGES
  }

  /** preferences.currency: three characters, converted to upper case (Joi converts rather than refuses). */
  function ValidateCurrency(c: Option<string>): (r: Check<Option<string>>)
    ensures r.Valid? <==> c.None? || |c.value| == 3
    ensures r.Valid? && c.Some? ==>
              (r.value.Some? && |r.value.value| == 3 && forall i :: 0 <= i < 3 ==> !IsLowerLetter(r.value.value[i]))
  {
    if c.None? then Valid(None)
    else if c.value == "" then Invalid(EmptyMessage("currency"))
    else if |c.value| != 3 then Invalid("\"currency\" length must be 3 characters long")
    else Valid(Some(Upper(c.value)))
  }

  /** Upper-casing is what the rule stores: a currency already in upper case is kept as given. */
  lemma CurrencyKeepsUpperCase(c: string)
    requires |c| == 3 && forall i :: 0 <= i < 3 ==> !IsLowerLetter(c[i])
    ensures ValidateCurrency(Some(c)) == Valid(Some(c))
  {
    assert Upper(c) == c;
  }

  datatype Credentials = Credentials(email: string, password: string)

  /** loginSchema: e-mail required and well formed, then password required; the first failure is reported. */
  function ValidateLogin(email: Option<string>, password: Option<string>, isEmail: string -> bool): (r: Check<Credentials>)
    ensures r.Valid? <==> email.Some? && email.value != "" && isEmail(email.value) && password.Some? && password.value != ""
    ensures r.Valid? ==> r.value == Credentials(email.value, password.value)
    ensures email.None? ==> r == Invalid(MSG_EMAIL_REQUIRED)
    ensures email.Some? && email.value != "" && isEmail(email.value) && password.None? ==> r == Invalid(MSG_PASSWORD_REQUIRED)
  {
    if email.None? then Invalid(MSG_EMAIL_REQUIRED)
    else if email.value == "" then Invalid(EmptyMessage("email"))
    else if !isEmail(email.value) then Invalid(MSG_EMAIL_INVALID)
    else if password.None? then Invalid(MSG_PASSWORD_REQUIRED)
    else if password.value == "" then Invalid(EmptyMessage("password"))
    else Valid(Credentials(email.value, password.value))
  }

  /** Login does not apply the registration password rules: any non-empty password passes the schema. */
  lemma LoginAcceptsWeakPassword(email: string, isEmail: string -> bool)
    requires email != "" && isEmail(email)
    ensures ValidateLogin(Some(email), Some("x"), isEmail).Valid?
    ensures !ValidatePassword(Some("x")).Valid?
  {
  }
}
