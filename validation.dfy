/**
 * The input checks of backend/utils/validationUtils.js. Each check either
 * returns true or throws an error with a message; here it returns
 * `Ok(true)` or `Err(message)`.
 */
module Validation {
  import opened Wrappers
  import opened Text

  /** The argument as JavaScript sees it: absent, `null`, a string, or any other value. */
  datatype JsValue = Undefined | Null | Str(text: string) | OtherValue

  const USERNAME_REQUIRED := "Username is required and must be a string"
  const USERNAME_LENGTH := "Username must be between 3 and 50 characters"
  const USERNAME_CHARACTERS := "Username contains invalid characters"
  const PASSWORD_REQUIRED := "Password is required and must be a string"
  const PASSWORD_LENGTH := "Password must be between 1 and 100 characters"
  const APP_NAME_REQUIRED := "App name is required and must be a string"
  const APPS_NOT_CONFIGURED := "Allowed apps list is not configured"
  const APPS_INVALID := "Allowed apps list format is invalid"
  const CONTENT_REQUIRED := "Content is required"
  const CONTENT_NOT_STRING := "Content must be a string"
  const CONTENT_NUL := "Content contains invalid null bytes"
  const DEFAULT_MAX_SIZE := 100000

  /** A non-empty string: `!v || typeof v !== 'string'` is false exactly for these. */
  predicate NonEmptyString(v: JsValue) {
    v.Str? && v.text != []
  }

  /** The class `[a-zA-Z0-9._-]`. */
  predicate UsernameChar(c: char) {
    ('a' <= c <= 'z') || ('A' <= c <= 'Z') || ('0' <= c <= '9') || c == '.' || c == '_' || c == '-'
  }

  predicate AllUsernameChars(s: string) {
    forall i :: 0 <= i < |s| ==> UsernameChar(s[i])
  }

  /**
   * `validateUsername`: accepted exactly for strings of 3 to 50 characters,
   * each a letter, a digit, `.`, `_` or `-`.
   */
  function ValidateUsername(v: JsValue): (r: Result<bool, string>)
    ensures r.Ok? <==> v.Str? && 3 <= |v.text| <= 50 && AllUsernameChars(v.text)
    ensures r.Ok? ==> r.value
    ensures r.Err? ==> r.error in {USERNAME_REQUIRED, USERNAME_LENGTH, USERNAME_CHARACTERS}
  {
    if !NonEmptyString(v) then Err(USERNAME_REQUIRED)
    else
      UsernameLength(v.text);
      if Utf16Length(v.text) < 3 || Utf16Length(v.text) > 50 then Err(USERNAME_LENGTH)
      else if !AllUsernameChars(v.text) then Err(USERNAME_CHARACTERS)
      else Ok(true)
  }

  /** A name of allowed characters is as long in UTF-16 code units as in characters. */
  lemma UsernameLength(s: string)
    ensures AllUsernameChars(s) ==> Utf16Length(s) == |s|
  {
    if AllUsernameChars(s) {
      assert forall i :: 0 <= i < |s| ==> s[i] as int < 0x10000;
      Utf16LengthOfBmp(s);
    }
  }

  /** The length is checked before the characters: a short name with bad characters reports its length. */
  lemma UsernameLengthCheckedFirst(s: string)
    requires s != [] && Utf16Length(s) < 3
    ensures ValidateUsername(Str(s)) == Err(USERNAME_LENGTH)
  {
  }

  /** A name of allowed characters and an allowed length is accepted; one bad character is reported as such. */
  lemma UsernameCharacterReported(s: string, i: nat)
    requires 3 <= |s| <= 50 && i < |s| && s[i] as int < 0x80 && !UsernameChar(s[i])
    requires forall k :: 0 <= k < |s| ==> s[k] as int < 0x80
    ensures ValidateUsername(Str(s)) == Err(USERNAME_CHARACTERS)
  {
    Utf16LengthOfBmp(s);
  }

  /** `validatePassword`: accepted exactly for strings of 1 to 100 UTF-16 code units. */
  function ValidatePassword(v: JsValue): (r: Result<bool, string>)
    ensures r.Ok? <==> v.Str? && 1 <= Utf16Length(v.text) <= 100
    ensures r.Err? && v.Str? && v.text != [] ==> r.error == PASSWORD_LENGTH
  {
    if !NonEmptyString(v) then Err(PASSWORD_REQUIRED)
    else if Utf16Length(v.text) < 1 || Utf16Length(v.text) > 100 then Err(PASSWORD_LENGTH)
    else Ok(true)
  }

  /**
   * The allowed-apps argument: a falsy value (`""` included), a
   * comma-separated string, an array of names, or any other truthy value.
   */
  datatype AllowedApps = AppsUnset | AppsText(text: string) | AppsList(names: seq<string>) | AppsOther

  /** `allowedApps.split(',').map((app) => app.trim())` */
  function TrimmedEntries(parts: seq<string>): (r: seq<string>)
    ensures |r| == |parts| && forall i :: 0 <= i < |parts| ==> r[i] == Trim(parts[i])
  {
    if parts == [] then [] else TrimmedEntries(parts[..|parts| - 1]) + [Trim(parts[|parts| - 1])]
  }

  /** The list a configured argument stands for. */
  function AppList(apps: AllowedApps): (r: Option<seq<string>>)
    ensures r.Some? <==> (apps.AppsText? && apps.text != []) || apps.AppsList?
  {
    match apps
    case AppsText(text) => if text == [] then None else Some(TrimmedEntries(Split(text, ',')))
    case AppsList(names) => Some(names)
    case _ => None
  }

  /** `validateAppName` */
  function ValidateAppName(appName: JsValue, apps: AllowedApps): (r: Result<bool, string>)
    ensures r.Ok? <==> NonEmptyString(appName) && AppList(apps).Some? && appName.text in AppList(apps).value
    ensures NonEmptyString(appName) && (apps.AppsUnset? || apps == AppsText("")) ==> r == Err(APPS_NOT_CONFIGURED)
    ensures NonEmptyString(appName) && apps.AppsOther? ==> r == Err(APPS_INVALID)
    ensures NonEmptyString(appName) && AppList(apps).Some? && appName.text !in AppList(apps).value
      ==> r == Err("Invalid app name. Must be one of: " + Join(AppList(apps).value, ", "))
  {
    if !NonEmptyString(appName) then Err(APP_NAME_REQUIRED)
    else if apps.AppsUnset? || apps == AppsText("") then Err(APPS_NOT_CONFIGURED)
    else
      var list := AppList(apps);
      if list.None? then Err(APPS_INVALID)
      else if appName.text !in list.value then Err("Invalid app name. Must be one of: " + Join(list.value, ", "))
      else Ok(true)
  }

  /** An entry padded with spaces in the configured text is accepted under its trimmed name. */
  lemma PaddedEntryAccepted(before: string, name: string, after: string)
    requires name != [] && !IsSpace(name[0]) && !IsSpace(name[|name| - 1]) && ',' !in name
    requires AllSpace(before) && AllSpace(after) && ',' !in before && ',' !in after
    ensures ValidateAppName(Str(name), AppsText(before + name + after)).Ok?
  {
    var text := before + name + after;
    assert ',' !in text by {
      assert forall i :: 0 <= i < |text| ==> text[i] == (if i < |before| then before[i] else if i < |before| + |name| then name[i - |before|] else after[i - |before| - |name|]);
    }
    assert Split(text, ',') == [text];
    assert text == before + (name + after);
    TrimPadded(before, name, after);
    assert TrimmedEntries([text]) == [name];
  }

  /** A list written out comma-separated, of names without commas or padding, reads back as the same list. */
  lemma AppsTextRoundTrip(names: seq<string>)
    requires |names| >= 1 && Join(names, ",") != []
    requires forall n :: n in names ==> ',' !in n && Trim(n) == n
    ensures AppList(AppsText(Join(names, ","))) == Some(names)
  {
    assert [','] == ",";
    SplitJoin(names, ',');
    assert Split(Join(names, ","), ',') == names;
    TrimmedUnpadded(names);
  }

  lemma TrimmedUnpadded(names: seq<string>)
    requires forall n :: n in names ==> Trim(n) == n
    ensures TrimmedEntries(names) == names
  {
    var r := TrimmedEntries(names);
    forall i | 0 <= i < |names| ensures r[i] == names[i] {
      assert names[i] in names;
    }
  }

  /**
   * `validateFileContent(content, maxSize = 100000)`: checked in this order:
   * presence, type, size in UTF-8 bytes, and the absence of NUL characters.
   */
  function ValidateFileContent(content: JsValue, maxSize: Option<int>): (r: Result<bool, string>)
    ensures var max := maxSize.GetOr(DEFAULT_MAX_SIZE);
      r.Ok? <==> content.Str? && Utf8Length(content.text) <= max && '\0' !in content.text
    ensures content.Undefined? || content.Null? ==> r == Err(CONTENT_REQUIRED)
    ensures content.OtherValue? ==> r == Err(CONTENT_NOT_STRING)
    ensures content.Str? && Utf8Length(content.text) > maxSize.GetOr(DEFAULT_MAX_SIZE)
      ==> r == Err("Content too large. Maximum size is " + IntToString(maxSize.GetOr(DEFAULT_MAX_SIZE)) + " bytes")
    ensures content.Str? && Utf8Length(content.text) <= maxSize.GetOr(DEFAULT_MAX_SIZE) && '\0' in content.text
      ==> r == Err(CONTENT_NUL)
  {
    var max := maxSize.GetOr(DEFAULT_MAX_SIZE);
    if content.Undefined? || content.Null? then Err(CONTENT_REQUIRED)
    else if !content.Str? then Err(CONTENT_NOT_STRING)
    else if Utf8Length(content.text) > max then Err("Content too large. Maximum size is " + IntToString(max) + " bytes")
    else if '\0' in content.text then Err(CONTENT_NUL)
    else Ok(true)
  }

  /** The size is checked before the NUL characters: an oversized text with a NUL reports its size. */
  lemma SizeCheckedBeforeNul(s: string)
    requires '\0' in s && |s| > DEFAULT_MAX_SIZE
    ensures ValidateFileContent(Str(s), None).Err? && ValidateFileContent(Str(s), None).error != CONTENT_NUL
  {
  }

  /** The empty string is valid content: it is present, even though falsy. */
  lemma EmptyContentValid()
    ensures ValidateFileContent(Str(""), None) == Ok(true)
  {
  }
}
