/**
 * What the sign-up and sign-in forms share: the email and password rules
 * of their `validate` functions, the backend's reply, the error text
 * assembled from a rejected reply, and the token writes after a success.
 */
module AuthCommon {
  import opened Wrappers
  import opened JsText
  import Storage

  // ---------------------------------------------------------------- email

  /** `[^\s@]`: a character that is neither whitespace nor '@'. */
  predicate IsEmailChar(c: char) {
    !IsJsWhitespace(c) && c != '@'
  }

  predicate AllEmailChars(s: string) {
    forall i :: 0 <= i < |s| ==> IsEmailChar(s[i])
  }

  /**
   * `/^[^\s@]+@[^\s@]+\.[^\s@]+$/.test(s)`, read as the split the pattern
   * describes: a non-empty local part, '@', a non-empty name, '.', a
   * non-empty rest, each made of `[^\s@]` characters.
   */
  predicate MatchesEmailPattern(s: string) {
    exists at, dot | 0 < at < dot < |s| - 1 ::
      && at + 1 < dot
      && s[at] == '@' && s[dot] == '.'
      && AllEmailChars(s[..at]) && AllEmailChars(s[at + 1..dot]) && AllEmailChars(s[dot + 1..])
  }

  /**
   * The same shape stated in words: no whitespace anywhere, exactly one '@',
   * something before it, and after it a '.' that is neither the first nor
   * the last character of the domain.
   */
  predicate IsEmailShape(s: string) {
    && (forall i :: 0 <= i < |s| ==> !IsJsWhitespace(s[i]))
    && exists at | 0 < at < |s| ::
      && s[at] == '@'
      && (forall j :: 0 <= j < |s| && j != at ==> s[j] != '@')
      && (exists k :: at + 1 < k < |s| - 1 && s[k] == '.')
  }

  /** A slice is made of `[^\s@]` characters when every position in its range is. */
  lemma EmailCharsSlice(s: string, lo: int, hi: int)
    requires 0 <= lo <= hi <= |s|
    requires forall j :: lo <= j < hi ==> IsEmailChar(s[j])
    ensures AllEmailChars(s[lo..hi])
  {
    forall i | 0 <= i < hi - lo ensures IsEmailChar(s[lo..hi][i]) {
      assert s[lo..hi][i] == s[lo + i];
    }
  }

  /** Every position in the range of a slice of `[^\s@]` characters holds one. */
  lemma EmailCharsAt(s: string, lo: int, hi: int, j: int)
    requires 0 <= lo <= j < hi <= |s|
    requires AllEmailChars(s[lo..hi])
    ensures IsEmailChar(s[j])
  {
    assert s[lo..hi][j - lo] == s[j];
  }

  lemma PatternGivesShape(s: string)
    requires MatchesEmailPattern(s)
    ensures IsEmailShape(s)
  {
    var at, dot :| 0 < at < dot < |s| - 1 && at + 1 < dot && s[at] == '@' && s[dot] == '.'
      && AllEmailChars(s[..at]) && AllEmailChars(s[at + 1..dot]) && AllEmailChars(s[dot + 1..]);
    assert s[..at] == s[0..at] && s[dot + 1..] == s[dot + 1..|s|];
    forall j | 0 <= j < |s| && j != at
      ensures s[j] != '@' && !IsJsWhitespace(s[j])
    {
      if j < at {
        EmailCharsAt(s, 0, at, j);
      } else if j < dot {
        EmailCharsAt(s, at + 1, dot, j);
      } else if j > dot {
        EmailCharsAt(s, dot + 1, |s|, j);
      }
    }
    assert !IsJsWhitespace(s[at]);
  }

  lemma ShapeGivesPattern(s: string)
    requires IsEmailShape(s)
    ensures MatchesEmailPattern(s)
  {
    var at :| 0 < at < |s| && s[at] == '@'
      && (forall j :: 0 <= j < |s| && j != at ==> s[j] != '@')
      && (exists k :: at + 1 < k < |s| - 1 && s[k] == '.');
    var dot :| at + 1 < dot < |s| - 1 && s[dot] == '.';
    EmailCharsSlice(s, 0, at);
    EmailCharsSlice(s, at + 1, dot);
    EmailCharsSlice(s, dot + 1, |s|);
    assert s[..at] == s[0..at] && s[dot + 1..] == s[dot + 1..|s|];
  }

  /** The pattern the forms test and the shape in words accept the same strings. */
  lemma EmailPatternIsShape(s: string)
    ensures MatchesEmailPattern(s) <==> IsEmailShape(s)
  {
    if MatchesEmailPattern(s) {
      PatternGivesShape(s);
    }
    if IsEmailShape(s) {
      ShapeGivesPattern(s);
    }
  }

  const EmailRequired := "Email is required."
  const EmailInvalid := "Invalid email format."
  const PasswordRequired := "Password is required."
  const PasswordTooShort := "Password must be at least 8 characters."
  const MinPasswordLength := 8

  /** The email rule both forms apply: required first, then the pattern. */
  function EmailError(email: string): (e: Option<string>)
    ensures e == Some(EmailRequired) <==> email == ""
    ensures e == Some(EmailInvalid) <==> email != "" && !IsEmailShape(email)
    ensures e == None <==> IsEmailShape(email)
  {
    EmailPatternIsShape(email);
    if email == "" then Some(EmailRequired)
    else if !MatchesEmailPattern(email) then Some(EmailInvalid)
    else None
  }

  /** The password rule both forms apply: required first, then at least 8 characters. */
  function PasswordError(password: string): (e: Option<string>)
    ensures e == Some(PasswordRequired) <==> password == ""
    ensures e == Some(PasswordTooShort) <==> 0 < |password| < MinPasswordLength
    ensures e == None <==> |password| >= MinPasswordLength
  {
    if password == "" then Some(PasswordRequired)
    else if |password| < MinPasswordLength then Some(PasswordTooShort)
    else None
  }

  // ------------------------------------------------------- backend replies

  /** A value in the JSON object the backend answers with. */
  datatype Value = Str(s: string) | List(items: seq<string>) | NullValue

  /** The parsed JSON body: an object (entries in order), `null`, or a string or number. */
  datatype Body = Object(entries: seq<(string, Value)>) | NullBody | Scalar

  /** A settled `fetch`: a reply whose body parsed, or a rejection (network failure or unparsable body). */
  datatype Response = Reply(ok: bool, body: Body) | NetworkFailure

  /** The first entry under `key`. */
  function Lookup(entries: seq<(string, Value)>, key: string): Option<Value> {
    if entries == [] then None
    else if entries[0].0 == key then Some(entries[0].1)
    else Lookup(entries[1..], key)
  }

  /** `body.<key>` when it is a non-empty string (the only truthy form the model gives it). */
  function TruthyField(body: Body, key: string): (v: Option<string>)
    ensures v.Some? ==> v.value != ""
    ensures v.Some? ==> body.Object? && Lookup(body.entries, key) == Some(Str(v.value))
    ensures (body.Object? && Lookup(body.entries, key).Some? && Lookup(body.entries, key).value.Str?
             && Lookup(body.entries, key).value.s != "") ==> v == Some(Lookup(body.entries, key).value.s)
  {
    if body.Object? then
      match Lookup(body.entries, key)
      case Some(Str(s)) => if s != "" then Some(s) else None
      case _ => None
    else None
  }

  /** `${val}` with arrays joined by ", ". */
  function ValueText(v: Value): string {
    match v
    case Str(s) => s
    case List(items) => Join(items, ", ")
    case NullValue => "null"
  }

  function ValueTexts(entries: seq<(string, Value)>): (r: seq<string>)
    ensures |r| == |entries|
    ensures forall i :: 0 <= i < |entries| ==> r[i] == ValueText(entries[i].1)
  {
    if entries == [] then [] else [ValueText(entries[0].1)] + ValueTexts(entries[1..])
  }

  /**
   * The error text built from a rejected reply: its non-empty `detail` if it
   * has one; otherwise, for an object, every value (keys dropped) joined by
   * newlines. None is the `null` body, on which `Object.entries` throws.
   */
  function AssembleErrorMessage(body: Body): (r: Option<string>)
    ensures r.None? <==> body.NullBody?
    ensures body.Scalar? ==> r == Some("")
    ensures body.Object? && TruthyField(body, "detail").Some? ==> r == TruthyField(body, "detail")
    ensures body.Object? && TruthyField(body, "detail").None? && |body.entries| == 1
      ==> r == Some(ValueText(body.entries[0].1))
    ensures body.Object? && TruthyField(body, "detail").None? && body.entries == [] ==> r == Some("")
  {
    match body
    case NullBody => None
    case Scalar => Some("")
    case Object(entries) =>
      var detail := TruthyField(body, "detail");
      if detail.Some? then detail else Some(Join(ValueTexts(entries), "\n"))
  }

  /**
   * Without a usable `detail`, the message has one line per entry, in order,
   * each the entry's value text, as long as no value text has a newline.
   */
  lemma ErrorMessageLines(entries: seq<(string, Value)>)
    requires |entries| > 0
    requires TruthyField(Object(entries), "detail").None?
    requires forall i :: 0 <= i < |entries| ==> '\n' !in ValueText(entries[i].1)
    ensures Split(AssembleErrorMessage(Object(entries)).value, '\n') == ValueTexts(entries)
  {
    SplitJoin(ValueTexts(entries), '\n');
  }

  // ----------------------------------------------------------- token store

  /**
   * The store after `if (data.access) setItem('token', …)` and
   * `if (data.refresh) setItem('refreshToken', …)`: a key is written only
   * when its field is present, and no other key changes.
   */
  function StoreTokens(items: map<string, string>, access: Option<string>, refresh: Option<string>): (r: map<string, string>)
    ensures forall k :: k != Storage.TokenKey && k != Storage.RefreshTokenKey ==>
      (k in r <==> k in items) && (k in items ==> r[k] == items[k])
    ensures access.Some? ==> Storage.TokenKey in r && r[Storage.TokenKey] == access.value
    ensures access.None? ==>
      && (Storage.TokenKey in r <==> Storage.TokenKey in items)
      && (Storage.TokenKey in items ==> r[Storage.TokenKey] == items[Storage.TokenKey])
    ensures refresh.Some? ==> Storage.RefreshTokenKey in r && r[Storage.RefreshTokenKey] == refresh.value
    ensures refresh.None? ==>
      && (Storage.RefreshTokenKey in r <==> Storage.RefreshTokenKey in items)
      && (Storage.RefreshTokenKey in items ==> r[Storage.RefreshTokenKey] == items[Storage.RefreshTokenKey])
  {
    var withAccess := if access.Some? then items[Storage.TokenKey := access.value] else items;
    if refresh.Some? then withAccess[Storage.RefreshTokenKey := refresh.value] else withAccess
  }

  /** Performs the two conditional writes on the page's storage. */
  method SaveTokens(storage: Storage.LocalStorage, body: Body)
    modifies storage
    ensures storage.items == StoreTokens(old(storage.items), TruthyField(body, "access"), TruthyField(body, "refresh"))
  {
    var access := TruthyField(body, "access");
    if access.Some? {
      storage.SetItem(Storage.TokenKey, access.value);
    }
    var refresh := TruthyField(body, "refresh");
    if refresh.Some? {
      storage.SetItem(Storage.RefreshTokenKey, refresh.value);
    }
  }
}
