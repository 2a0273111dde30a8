/**
 * The recommendations tab (src/components/Recommendations.tsx): Persian
 * number and currency helpers, the budget field, and the view that asks
 * the backend for cars within a budget, resuming once after sign-in.
 */
module Recommendations {
  import opened Wrappers
  import opened JsText
  import opened Navigation
  import Storage

  // ------------------------------------------------------------ digits

  /** Extended Arabic-Indic (Persian) digits U+06F0..U+06F9. */
  predicate IsPersianDigit(c: char) {
    '\U{06F0}' <= c <= '\U{06F9}'
  }

  /** Arabic-Indic digits U+0660..U+0669. */
  predicate IsArabicIndicDigit(c: char) {
    '\U{0660}' <= c <= '\U{0669}'
  }

  function ToEnglishDigit(c: char): char {
    if IsPersianDigit(c) then DigitChar(c as int - 0x06F0)
    else if IsArabicIndicDigit(c) then DigitChar(c as int - 0x0660)
    else c
  }

  /**
   * `toEnglishDigits`: every Persian or Arabic-Indic digit becomes the ASCII
   * digit of the same value; every other character stays.
   */
  function ToEnglishDigits(s: string): (r: string)
    ensures |r| == |s|
    ensures forall i :: 0 <= i < |s| && IsPersianDigit(s[i]) ==>
      IsAsciiDigit(r[i]) && DigitValue(r[i]) == s[i] as int - 0x06F0
    ensures forall i :: 0 <= i < |s| && IsArabicIndicDigit(s[i]) ==>
      IsAsciiDigit(r[i]) && DigitValue(r[i]) == s[i] as int - 0x0660
    ensures forall i :: 0 <= i < |s| && !IsPersianDigit(s[i]) && !IsArabicIndicDigit(s[i]) ==> r[i] == s[i]
    ensures forall i :: 0 <= i < |r| ==> !IsPersianDigit(r[i]) && !IsArabicIndicDigit(r[i])
  {
    if s == [] then [] else [ToEnglishDigit(s[0])] + ToEnglishDigits(s[1..])
  }

  lemma ToEnglishDigitsIdempotent(s: string)
    ensures ToEnglishDigits(ToEnglishDigits(s)) == ToEnglishDigits(s)
  {
  }

  // ---------------------------------------------------------- currency

  /** `Math.round(rial / 10)`: the Toman amount nearest to a Rial amount, halves rounded up. */
  function RialToToman(rial: int): (toman: int)
    ensures 10 * toman - 5 <= rial < 10 * toman + 5
  {
    (rial + 5) / 10
  }

  /** `toman * 10` */
  function TomanToRial(toman: int): (rial: int)
    ensures RialToToman(rial) == toman
  {
    toman * 10
  }

  /** Converting to Toman and back moves a Rial amount by at most 5. */
  lemma RialRoundTrip(rial: int)
    ensures -5 < TomanToRial(RialToToman(rial)) - rial <= 5
  {
  }

  // -------------------------------------------------------------- years

  const SolarHijriOffset := 621

  /**
   * `getYearName`: a year read as a number above 1900 is taken as Gregorian
   * and shown as the Solar Hijri year (621 less); one strictly between 1300
   * and 1500 is shown in ASCII digits; anything else is shown as given.
   */
  function GetYearName(year: string): (r: string)
    ensures var y := ParseNumber(ToEnglishDigits(year));
      && (y.Some? && y.value > 1900 ==> ParseNumber(r) == Some(y.value - SolarHijriOffset))
      && (y.Some? && 1300 < y.value < 1500 ==> ParseNumber(r) == Some(y.value))
      && (y.Some? && (y.value > 1900 || 1300 < y.value < 1500) ==> |r| > 0 && (|r| > 1 ==> r[0] != '0'))
      && (y.None? || y.value <= 1300 || 1500 <= y.value <= 1900 ==> r == year)
  {
    var y := ParseNumber(ToEnglishDigits(year));
    if y.Some? && y.value > 1900 then DecimalString(y.value - SolarHijriOffset)
    else if y.Some? && 1300 < y.value < 1500 then DecimalString(y.value)
    else year
  }

  // ------------------------------------------------------------ prices

  /** Groups a digit string in threes from the right, as the `\B(?=(\d{3})+(?!\d))` replacement does. */
  function GroupThousands(digits: string): (r: string)
    ensures digits == [] ==> r == []
    ensures digits != [] ==> |r| == |digits| + (|digits| - 1) / 3
    ensures |digits| <= 3 ==> r == digits
    decreases |digits|
  {
    if |digits| <= 3 then digits
    else GroupThousands(digits[..|digits| - 3]) + "," + digits[|digits| - 3..]
  }

  /** A separator goes before position `i` of `n` digits exactly when 0 < i < n and n - i is a multiple of 3. */
  predicate CommaBefore(n: int, i: int) {
    0 < i < n && (n - i) % 3 == 0
  }

  /** The digits from position `i` on, each preceded by a comma when `CommaBefore` says so. */
  function Separated(digits: string, i: nat): string
    requires i <= |digits|
    decreases |digits| - i
  {
    if i == |digits| then ""
    else (if CommaBefore(|digits|, i) then "," else "") + [digits[i]] + Separated(digits, i + 1)
  }

  lemma {:induction false} SeparatedShort(digits: string, i: nat)
    requires i <= |digits| <= 3
    ensures Separated(digits, i) == digits[i..]
    decreases |digits| - i
  {
    if i < |digits| {
      SeparatedShort(digits, i + 1);
      assert digits[i..] == [digits[i]] + digits[i + 1..];
    }
  }

  lemma SeparatedTail(digits: string)
    requires |digits| > 3
    ensures Separated(digits, |digits| - 3) == "," + digits[|digits| - 3..]
  {
    var n := |digits|;
    assert Separated(digits, n - 1) == [digits[n - 1]];
    assert Separated(digits, n - 2) == [digits[n - 2], digits[n - 1]];
    assert digits[n - 3..] == [digits[n - 3], digits[n - 2], digits[n - 1]];
  }

  /** Dropping the last three digits keeps every earlier separator where it was. */
  lemma CommaShift(n: int, i: int)
    requires 0 <= i < n - 3
    ensures CommaBefore(n, i) == CommaBefore(n - 3, i)
  {
    assert n - i == (n - 3 - i) + 3;
  }

  lemma {:induction false} SeparatedPrefix(digits: string, i: nat)
    requires |digits| > 3 && i <= |digits| - 3
    ensures Separated(digits, i) == Separated(digits[..|digits| - 3], i) + Separated(digits, |digits| - 3)
    decreases |digits| - i
  {
    var p := digits[..|digits| - 3];
    var tail := Separated(digits, |digits| - 3);
    if i < |p| {
      SeparatedPrefix(digits, i + 1);
      var n := |digits|;
      CommaShift(n, i);
      var sep: string := if CommaBefore(n, i) then "," else "";
      assert p[i] == digits[i];
      calc {
        Separated(digits, i);
        sep + [digits[i]] + Separated(digits, i + 1);
        sep + [digits[i]] + (Separated(p, i + 1) + tail);
        (sep + [p[i]] + Separated(p, i + 1)) + tail;
        Separated(p, i) + tail;
      }
    } else {
      assert Separated(p, i) == "";
    }
  }

  lemma {:induction false} GroupThousandsIsSeparated(digits: string)
    ensures GroupThousands(digits) == Separated(digits, 0)
    decreases |digits|
  {
    if |digits| <= 3 {
      SeparatedShort(digits, 0);
    } else {
      var n := |digits|;
      var p := digits[..n - 3];
      var t := digits[n - 3..];
      calc {
        GroupThousands(digits);
        GroupThousands(p) + "," + t;
        { GroupThousandsIsSeparated(p); }
        Separated(p, 0) + "," + t;
        Separated(p, 0) + ("," + t);
        { SeparatedTail(digits); }
        Separated(p, 0) + Separated(digits, n - 3);
        { SeparatedPrefix(digits, 0); }
        Separated(digits, 0);
      }
    }
  }

  /** A digit, with or without a comma before it, survives comma removal alone. */
  lemma StripDigitHead(sep: string, c: char, rest: string)
    requires sep == "" || sep == ","
    requires c != ','
    ensures StripCommas(sep + [c] + rest) == [c] + StripCommas(rest)
  {
    var s := [c] + rest;
    assert s[0] == c && s[1..] == rest;
    assert sep + [c] + rest == sep + s;
    if sep == "," {
      assert (sep + s)[0] == ',' && (sep + s)[1..] == s;
    } else {
      assert sep + s == s;
    }
  }

  lemma StripSeparatedStep(digits: string, i: nat)
    requires i < |digits| && IsAsciiDigit(digits[i])
    ensures StripCommas(Separated(digits, i)) == [digits[i]] + StripCommas(Separated(digits, i + 1))
  {
    var sep: string := if CommaBefore(|digits|, i) then "," else "";
    var rest := Separated(digits, i + 1);
    assert Separated(digits, i) == sep + [digits[i]] + rest;
    StripDigitHead(sep, digits[i], rest);
  }

  lemma {:induction false} StripSeparated(digits: string, i: nat)
    requires i <= |digits| && AllAsciiDigits(digits)
    ensures StripCommas(Separated(digits, i)) == digits[i..]
    decreases |digits| - i
  {
    if i < |digits| {
      calc {
        StripCommas(Separated(digits, i));
        { StripSeparatedStep(digits, i); }
        [digits[i]] + StripCommas(Separated(digits, i + 1));
        { StripSeparated(digits, i + 1); }
        [digits[i]] + digits[i + 1..];
        digits[i..];
      }
    }
  }

  /**
   * `formatPrice`: the ASCII digits of the input, with a comma before every
   * position from which a multiple of three digits remain; removing the
   * commas gives the digits back.
   */
  function FormatPrice(value: string): (r: string)
    ensures r == Separated(KeepAsciiDigits(value), 0)
    ensures StripCommas(r) == KeepAsciiDigits(value)
  {
    var digits := KeepAsciiDigits(value);
    GroupThousandsIsSeparated(digits);
    StripSeparated(digits, 0);
    GroupThousands(digits)
  }

  /** What the budget field shows for a stored price. */
  function DisplayedPrice(price: string): (shown: string)
    ensures AllAsciiDigits(price) ==> StripCommas(shown) == price
    ensures price == "" ==> shown == ""
    ensures price != "" ==> shown == Separated(KeepAsciiDigits(price), 0)
  {
    if price != "" then FormatPrice(price) else ""
  }

  /** The Toman amount requested for a budget typed in Rial; None is NaN. */
  function RequestedToman(price: string): (toman: Option<int>)
    ensures toman.Some? <==> AllAsciiDigits(StripCommas(price))
    ensures toman.Some? ==>
      10 * toman.value - 5 <= DecimalValue(StripCommas(price)) < 10 * toman.value + 5
  {
    match ParseNumber(StripCommas(price))
    case Some(rial) => Some(RialToToman(rial))
    case None => None
  }

  // --------------------------------------------------------------- view

  datatype Suggestion = Suggestion(name: string, model: string, year: string, predictedPrice: int)

  /** The settled `fetchCarRecommendations` call: `suggested_cars` (possibly absent), or a failure. */
  datatype Reply = Suggested(cars: Option<seq<Suggestion>>) | Failed

  const FetchFailedMessage := "Failed to fetch recommendations."
  const RecommendationsTab := 1
  const PriceField := "price"

  /** The carried state makes the resume effect fire: `justSignedIn` and a non-empty carried price. */
  predicate ResumeArmed(state: Option<NavState>): (armed: bool)
    ensures armed <==> state.Some? && state.value.justSignedIn && state.value.formData.Some?
                       && PriceField in state.value.formData.value && state.value.formData.value[PriceField] != ""
  {
    state.Some? && state.value.justSignedIn && CarriedField(state, PriceField) != ""
  }

  /** The navigation to sign-in that keeps the typed budget for later. */
  function SignInIntent(price: string): (nav: Navigation)
    ensures nav.path == SignInPath && !nav.replace && nav.state.Some?
    ensures nav.state.value.from == Some(PredictionPath) && nav.state.value.activeTab == Some(RecommendationsTab)
    ensures CarriedField(nav.state, PriceField) == price
    ensures !nav.state.value.justSignedIn
  {
    Navigation(SignInPath, Some(NavState(Some(PredictionPath), Some(map[PriceField := price]), false, false, Some(RecommendationsTab))), false)
  }

  class RecommendationsView {
    const storage: Storage.LocalStorage
    /** `location.state` of the page. */
    var location: Option<NavState>
    var price: string
    var shouldAutoSubmit: bool
    var recommendations: seq<Suggestion>
    var isLoading: bool
    var error: Option<string>
    var hasSearched: bool
    /** Every `fetchCarRecommendations` call, by the amount sent. */
    var requests: seq<Option<int>>
    var navigation: Option<Navigation>
    /** Requests made by the auto-submit effect. */
    ghost var replays: nat

    /** At most one replay: a replay spends the flag, and the flag spends the armed carried state. */
    ghost predicate Valid()
      reads this
    {
      replays + (if shouldAutoSubmit then 1 else 0) + (if ResumeArmed(location) then 1 else 0) <= 1
    }

    constructor (storage: Storage.LocalStorage, location: Option<NavState>)
      ensures Valid()
      ensures this.storage == storage && this.location == location
      ensures price == CarriedField(location, PriceField)
      ensures !shouldAutoSubmit && recommendations == [] && !isLoading && error.None? && !hasSearched
      ensures requests == [] && navigation.None? && replays == 0
    {
      this.storage := storage;
      this.location := location;
      price := CarriedField(location, PriceField);
      shouldAutoSubmit := false;
      recommendations := [];
      isLoading := false;
      error := None;
      hasSearched := false;
      requests := [];
      navigation := None;
      replays := 0;
    }

    /** The submit path after the sign-in gate, settled with `reply`. */
    method Fetch(reply: Reply)
      modifies this
      ensures requests == old(requests) + [RequestedToman(price)]
      ensures !isLoading
      ensures reply.Suggested? ==> recommendations == reply.cars.GetOr([]) && hasSearched && error.None?
      ensures reply.Failed? ==> recommendations == [] && hasSearched == old(hasSearched) && error == Some(FetchFailedMessage)
      ensures location == old(location) && price == old(price) && shouldAutoSubmit == old(shouldAutoSubmit)
      ensures navigation == old(navigation) && replays == old(replays)
    {
      isLoading := true;
      error := None;
      recommendations := [];
      requests := requests + [RequestedToman(price)];
      match reply {
        case Suggested(cars) =>
          recommendations := cars.GetOr([]);
          hasSearched := true;
        case Failed =>
          error := Some(FetchFailedMessage);
      }
      isLoading := false;
    }

    /**
     * `handleSubmit`: without a token, and unless auto-submitting, no request
     * is made; confirming the prompt goes to sign-in with the budget.
     */
    method HandleSubmit(confirmed: bool, reply: Reply)
      requires Valid()
      modifies this
      ensures Valid()
      ensures location == old(location) && price == old(price) && shouldAutoSubmit == old(shouldAutoSubmit)
      ensures replays == old(replays)
      ensures |requests| > |old(requests)| ==> storage.HasToken() || shouldAutoSubmit
      ensures !storage.HasToken() && !shouldAutoSubmit ==>
        && requests == old(requests) && recommendations == old(recommendations) && isLoading == old(isLoading)
        && error == old(error) && hasSearched == old(hasSearched)
        && navigation == (if confirmed then Some(SignInIntent(price)) else old(navigation))
      ensures storage.HasToken() || shouldAutoSubmit ==>
        && requests == old(requests) + [RequestedToman(price)] && !isLoading && navigation == old(navigation)
        && (reply.Suggested? ==> recommendations == reply.cars.GetOr([]) && hasSearched && error.None?)
        && (reply.Failed? ==> recommendations == [] && hasSearched == old(hasSearched) && error == Some(FetchFailedMessage))
    {
      if !storage.HasToken() && !shouldAutoSubmit {
        if confirmed {
          navigation := Some(SignInIntent(price));
        }
        return;
      }
      Fetch(reply);
    }

    /** The effect on `location.state`: arm the auto-submit once and clear the carried state. */
    method ResumeEffect()
      requires Valid()
      modifies this
      ensures Valid()
      ensures !ResumeArmed(location)
      ensures ResumeArmed(old(location)) ==>
        shouldAutoSubmit && price == CarriedField(old(location), PriceField) && location.None?
      ensures !ResumeArmed(old(location)) ==>
        location == old(location) && price == old(price) && shouldAutoSubmit == old(shouldAutoSubmit)
      ensures requests == old(requests) && replays == old(replays) && navigation == old(navigation)
      ensures recommendations == old(recommendations) && isLoading == old(isLoading)
      ensures error == old(error) && hasSearched == old(hasSearched)
    {
      if ResumeArmed(location) {
        shouldAutoSubmit := true;
        price := CarriedField(location, PriceField);
        location := None;
      }
    }

    /** The effect on the flag and the price: submit once, then drop the flag. */
    method AutoSubmitEffect(reply: Reply)
      requires Valid()
      modifies this
      ensures Valid()
      ensures location == old(location) && price == old(price) && navigation == old(navigation)
      ensures old(shouldAutoSubmit) && price != "" ==>
        && requests == old(requests) + [RequestedToman(price)] && !shouldAutoSubmit
        && replays == old(replays) + 1 && !isLoading
        && (reply.Suggested? ==> recommendations == reply.cars.GetOr([]) && hasSearched && error.None?)
        && (reply.Failed? ==> recommendations == [] && hasSearched == old(hasSearched) && error == Some(FetchFailedMessage))
      ensures !(old(shouldAutoSubmit) && price != "") ==>
        && requests == old(requests) && shouldAutoSubmit == old(shouldAutoSubmit) && replays == old(replays)
        && recommendations == old(recommendations) && isLoading == old(isLoading)
        && error == old(error) && hasSearched == old(hasSearched)
    {
      if shouldAutoSubmit && price != "" {
        Fetch(reply);
        shouldAutoSubmit := false;
        replays := replays + 1;
      }
    }

    /** `handlePriceChange`: the stored price is exactly the ASCII digits typed. */
    method HandlePriceChange(typed: string)
      requires Valid()
      modifies this
      ensures Valid()
      ensures price == KeepAsciiDigits(typed)
      ensures !SubmitDisabled() ==> RequestedToman(price).Some? && Shown() != ""
      ensures location == old(location) && shouldAutoSubmit == old(shouldAutoSubmit) && replays == old(replays)
      ensures requests == old(requests) && navigation == old(navigation)
      ensures recommendations == old(recommendations) && isLoading == old(isLoading)
      ensures error == old(error) && hasSearched == old(hasSearched)
    {
      price := StripCommas(FormatPrice(typed));
    }

    /** The budget field's text. */
    function Shown(): string
      reads this
    {
      DisplayedPrice(price)
    }

    /** The submit button is disabled while loading or with no price. */
    predicate SubmitDisabled(): (disabled: bool)
      reads this
      ensures disabled <==> isLoading || price == ""
    {
      isLoading || price == ""
    }
  }
}
