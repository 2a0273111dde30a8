/**
 * The price-prediction tab (src/components/PredictPrice.tsx): the car
 * form's option lists and engine switch, the request payload, and the
 * resume-after-sign-in flow that submits the form once on return.
 */
module PredictPrice {
  import opened Wrappers
  import opened JsText
  import opened Navigation
  import Storage

  /** The form the parent page owns; every field is the text the inputs hold. */
  datatype CarForm = CarForm(
    name: string, model: string, mile: string, year: string,
    gearbox: string, engineStatus: string, bodyHealth: string)

  /** The engine has been replaced ("هست"). */
  const Replaced := "\U{0647}\U{0633}\U{062A}"
  /** The engine is original ("نیست"). */
  const Original := "\U{0646}\U{06CC}\U{0633}\U{062A}"

  /** The value the engine switch writes into the form. */
  function EngineStatusOf(checked: bool): (status: string)
    ensures status == Replaced <==> checked
    ensures status == Original <==> !checked
  {
    if checked then Replaced else Original
  }

  /** The switch position shown for a form value: on exactly for "replaced". */
  function SwitchOf(status: string): (checked: bool)
    ensures checked <==> status == Replaced
  {
    status == Replaced
  }

  lemma SwitchRoundTrip(checked: bool, status: string)
    ensures SwitchOf(EngineStatusOf(checked)) == checked
    ensures status == Replaced || status == Original ==> EngineStatusOf(SwitchOf(status)) == status
  {
  }

  // ------------------------------------------------------------ options

  datatype SelectOption = SelectOption(value: string, text: string)

  /** Each name becomes an option whose value and label are the name. */
  function OptionsOf(names: seq<string>): (options: seq<SelectOption>)
    ensures |options| == |names|
    ensures forall i :: 0 <= i < |names| ==> options[i] == SelectOption(names[i], names[i])
  {
    if names == [] then [] else [SelectOption(names[0], names[0])] + OptionsOf(names[1..])
  }

  /** `options.find(o => o.value === value) || null`: the first option holding `value`. */
  function FindOption(options: seq<SelectOption>, value: string): (found: Option<SelectOption>)
    ensures found.None? <==> forall i :: 0 <= i < |options| ==> options[i].value != value
    ensures found.Some? ==> found.value.value == value
    ensures found.Some? ==>
      exists i :: 0 <= i < |options| && options[i] == found.value && forall j :: 0 <= j < i ==> options[j].value != value
  {
    if options == [] then None
    else if options[0].value == value then Some(options[0])
    else
      var rest := FindOption(options[1..], value);
      assert forall i :: 1 <= i < |options| ==> options[i] == options[1..][i - 1];
      rest
  }

  /** The selected brand or model is the option named by the form field, or none when no option has that name. */
  lemma {:induction false} SelectedOption(names: seq<string>, value: string)
    ensures FindOption(OptionsOf(names), value) == if value in names then Some(SelectOption(value, value)) else None
  {
    if names != [] {
      SelectedOption(names[1..], value);
      assert OptionsOf(names)[1..] == OptionsOf(names[1..]);
      assert value in names <==> value == names[0] || value in names[1..];
    }
  }

  // ------------------------------------------------------------ payload

  /** The body sent to `predictPrice`; None stands for NaN. */
  datatype Payload = Payload(
    name: string, model: string, gearbox: string,
    year: Option<nat>, mile: Option<nat>, bodyHealth: Option<nat>,
    engineStatus: string)

  /** The text fields pass through; year, mileage and body health go through `Number()`. */
  function PayloadOf(form: CarForm): (p: Payload)
    ensures p.name == form.name && p.model == form.model
    ensures p.gearbox == form.gearbox && p.engineStatus == form.engineStatus
    ensures p.year.Some? <==> AllAsciiDigits(form.year)
    ensures p.mile.Some? <==> AllAsciiDigits(form.mile)
    ensures p.bodyHealth.Some? <==> AllAsciiDigits(form.bodyHealth)
    ensures p.year == ParseNumber(form.year) && p.mile == ParseNumber(form.mile)
    ensures p.bodyHealth == ParseNumber(form.bodyHealth)
    ensures form.mile == "" ==> p.mile == Some(0)
  {
    Payload(form.name, form.model, form.gearbox,
      ParseNumber(form.year), ParseNumber(form.mile), ParseNumber(form.bodyHealth),
      form.engineStatus)
  }

  /** A form whose year and mileage were written out from numbers sends those same numbers. */
  lemma PayloadNumbers(form: CarForm, year: nat, mile: nat)
    requires form.year == DecimalString(year) && form.mile == DecimalString(mile)
    ensures PayloadOf(form).year == Some(year) && PayloadOf(form).mile == Some(mile)
  {
  }

  /** The settled `predictPrice` call: `predicted_price` (possibly absent), or a failure. */
  datatype Reply = Predicted(price: Option<int>) | PredictFailed

  /** `data.predicted_price || null` on success, null on failure. */
  function ResultOf(reply: Reply): (result: Option<int>)
    ensures result.Some? ==> reply.Predicted? && reply.price == result && result.value != 0
    ensures reply.Predicted? && reply.price.Some? && reply.price.value != 0 ==> result == reply.price
  {
    match reply
    case Predicted(p) => if p.Some? && p.value != 0 then p else None
    case PredictFailed => None
  }

  // ------------------------------------------------------------- resume

  /** The form as a carried `formData` object. */
  function FieldsOf(form: CarForm): FormData {
    map["name" := form.name, "model" := form.model, "mile" := form.mile, "year" := form.year,
        "gearbox" := form.gearbox, "engine_status" := form.engineStatus, "body_health" := form.bodyHealth]
  }

  /** The carried state asks for a replay: it holds form data and `justSignedIn` or `autoSubmit`. */
  predicate ResumeArmed(state: Option<NavState>): (armed: bool)
    ensures armed ==> state.Some? && state.value.formData.Some?
    ensures state.Some? && state.value.formData.Some? ==> (armed <==> state.value.justSignedIn || state.value.autoSubmit)
  {
    state.Some? && state.value.formData.Some? && (state.value.justSignedIn || state.value.autoSubmit)
  }

  /** The resume effect's decision: armed, signed in, and a brand and model chosen. */
  predicate ShouldAutoSubmit(state: Option<NavState>, hasToken: bool, form: CarForm): (go: bool)
    ensures go ==> ResumeArmed(state) && hasToken
    ensures go ==> form.name != "" && form.model != ""
    ensures ResumeArmed(state) && hasToken && form.name != "" && form.model != "" ==> go
  {
    ResumeArmed(state) && hasToken && form.name != "" && form.model != ""
  }

  /** `{ ...state, justSignedIn: false, autoSubmit: false }` */
  function FlagsCleared(state: NavState): (r: NavState)
    ensures r.from == state.from && r.formData == state.formData && r.activeTab == state.activeTab
    ensures !ResumeArmed(Some(r))
  {
    state.(justSignedIn := false, autoSubmit := false)
  }

  /** Re-reading the rewritten state never asks for a second replay, whatever the token or the form. */
  lemma ResumeIsOneShot(state: NavState, hasToken: bool, form: CarForm)
    ensures !ShouldAutoSubmit(Some(FlagsCleared(state)), hasToken, form)
  {
  }

  /** The navigation to sign-in that keeps the whole form; no tab is named. */
  function SignInIntent(form: CarForm): (nav: Navigation)
    ensures nav.path == SignInPath && !nav.replace && nav.state.Some?
    ensures nav.state.value.from == Some(PredictionPath) && nav.state.value.formData == Some(FieldsOf(form))
    ensures nav.state.value.activeTab.None? && !nav.state.value.justSignedIn
  {
    Navigation(SignInPath, Some(NavState(Some(PredictionPath), Some(FieldsOf(form)), false, false, None)), false)
  }

  class PredictPriceView {
    const storage: Storage.LocalStorage
    var location: Option<NavState>
    var formData: CarForm
    var brands: seq<string>
    var models: seq<string>
    var shouldAutoSubmit: bool
    var engineStatus: bool
    var isLoading: bool
    var predictionResult: Option<int>
    /** Every `predictPrice` call, by its payload. */
    var requests: seq<Payload>
    var navigation: Option<Navigation>
    ghost var replays: nat

    /** At most one replay: a replay spends the flag, and the flag spends the armed carried state. */
    ghost predicate Valid()
      reads this
    {
      replays + (if shouldAutoSubmit then 1 else 0) + (if ResumeArmed(location) then 1 else 0) <= 1
    }

    constructor (storage: Storage.LocalStorage, location: Option<NavState>, formData: CarForm)
      ensures Valid()
      ensures this.storage == storage && this.location == location && this.formData == formData
      ensures engineStatus == (formData.engineStatus == Replaced)
      ensures brands == [] && models == [] && !shouldAutoSubmit && !isLoading && predictionResult.None?
      ensures requests == [] && navigation.None? && replays == 0
    {
      this.storage := storage;
      this.location := location;
      this.formData := formData;
      brands := [];
      models := [];
      shouldAutoSubmit := false;
      engineStatus := SwitchOf(formData.engineStatus);
      isLoading := false;
      predictionResult := None;
      requests := [];
      navigation := None;
      replays := 0;
    }

    /** The submit path after the sign-in gate, settled with `reply`. */
    method Predict(reply: Reply)
      modifies this
      ensures requests == old(requests) + [PayloadOf(formData)]
      ensures predictionResult == ResultOf(reply) && !isLoading
      ensures location == old(location) && formData == old(formData) && shouldAutoSubmit == old(shouldAutoSubmit)
      ensures navigation == old(navigation) && replays == old(replays)
      ensures brands == old(brands) && models == old(models) && engineStatus == old(engineStatus)
    {
      isLoading := true;
      predictionResult := None;
      requests := requests + [PayloadOf(formData)];
      predictionResult := ResultOf(reply);
      isLoading := false;
    }

    /**
     * `handleSubmit`: without a token, and unless auto-submitting,
     * `predictPrice` is not called; confirming the prompt goes to sign-in
     * with the whole form.
     */
    method HandleSubmit(confirmed: bool, reply: Reply)
      requires Valid()
      modifies this
      ensures Valid()
      ensures location == old(location) && formData == old(formData) && shouldAutoSubmit == old(shouldAutoSubmit)
      ensures replays == old(replays) && brands == old(brands) && models == old(models)
      ensures engineStatus == old(engineStatus)
      ensures |requests| > |old(requests)| ==> storage.HasToken() || shouldAutoSubmit
      ensures !storage.HasToken() && !shouldAutoSubmit ==>
        && requests == old(requests) && predictionResult == old(predictionResult) && isLoading == old(isLoading)
        && navigation == (if confirmed then Some(SignInIntent(formData)) else old(navigation))
      ensures storage.HasToken() || shouldAutoSubmit ==>
        && requests == old(requests) + [PayloadOf(formData)] && navigation == old(navigation)
        && predictionResult == ResultOf(reply) && !isLoading
    {
      if !storage.HasToken() && !shouldAutoSubmit {
        if confirmed {
          navigation := Some(SignInIntent(formData));
        }
        return;
      }
      Predict(reply);
    }

    /** The effect on `location.state`: decide once, then rewrite the flags to false keeping the form data. */
    method ResumeEffect()
      requires Valid()
      modifies this
      ensures Valid()
      ensures !ResumeArmed(location)
      ensures shouldAutoSubmit == (old(shouldAutoSubmit) || ShouldAutoSubmit(old(location), storage.HasToken(), formData))
      ensures old(location).Some? && old(location).value.formData.Some? ==> location == Some(FlagsCleared(old(location).value))
      ensures !(old(location).Some? && old(location).value.formData.Some?) ==> location == old(location)
      ensures formData == old(formData) && requests == old(requests) && replays == old(replays)
      ensures navigation == old(navigation) && predictionResult == old(predictionResult) && isLoading == old(isLoading)
      ensures brands == old(brands) && models == old(models) && engineStatus == old(engineStatus)
    {
      if location.Some? && location.value.formData.Some? {
        if ShouldAutoSubmit(location, storage.HasToken(), formData) {
          shouldAutoSubmit := true;
        }
        location := Some(FlagsCleared(location.value));
      }
    }

    /** The effect on the flag: submit once, then drop the flag. */
    method AutoSubmitEffect(reply: Reply)
      requires Valid()
      modifies this
      ensures Valid()
      ensures location == old(location) && formData == old(formData) && navigation == old(navigation)
      ensures brands == old(brands) && models == old(models) && engineStatus == old(engineStatus)
      ensures old(shouldAutoSubmit) ==>
        && requests == old(requests) + [PayloadOf(formData)] && !shouldAutoSubmit
        && replays == old(replays) + 1 && predictionResult == ResultOf(reply) && !isLoading
      ensures !old(shouldAutoSubmit) ==>
        && requests == old(requests) && !shouldAutoSubmit && replays == old(replays)
        && predictionResult == old(predictionResult) && isLoading == old(isLoading)
    {
      if shouldAutoSubmit {
        Predict(reply);
        shouldAutoSubmit := false;
        replays := replays + 1;
      }
    }

    /** `handleEngineStatusSwitch`: the switch and the form field move together. */
    method HandleEngineStatusSwitch(checked: bool)
      requires Valid()
      modifies this
      ensures Valid()
      ensures engineStatus == checked && formData == old(formData).(engineStatus := EngineStatusOf(checked))
      ensures SwitchOf(formData.engineStatus) == engineStatus
      ensures location == old(location) && shouldAutoSubmit == old(shouldAutoSubmit) && requests == old(requests)
      ensures replays == old(replays) && brands == old(brands) && models == old(models)
      ensures isLoading == old(isLoading) && predictionResult == old(predictionResult) && navigation == old(navigation)
    {
      engineStatus := checked;
      formData := formData.(engineStatus := EngineStatusOf(checked));
    }

    /** The brand list, or none when fetching it failed. */
    method BrandsEffect(fetched: Option<seq<string>>)
      requires Valid()
      modifies this
      ensures Valid()
      ensures brands == fetched.GetOr([])
      ensures location == old(location) && shouldAutoSubmit == old(shouldAutoSubmit) && requests == old(requests)
      ensures formData == old(formData) && models == old(models) && replays == old(replays)
      ensures engineStatus == old(engineStatus) && isLoading == old(isLoading)
      ensures predictionResult == old(predictionResult) && navigation == old(navigation)
    {
      brands := fetched.GetOr([]);
    }

    /** The model list follows the brand: empty without a brand, else the fetched list (empty on failure). */
    method ModelsEffect(fetched: Option<seq<string>>)
      requires Valid()
      modifies this
      ensures Valid()
      ensures formData.name == "" ==> models == []
      ensures formData.name != "" ==> models == fetched.GetOr([])
      ensures location == old(location) && shouldAutoSubmit == old(shouldAutoSubmit) && requests == old(requests)
      ensures formData == old(formData) && brands == old(brands) && replays == old(replays)
      ensures engineStatus == old(engineStatus) && isLoading == old(isLoading)
      ensures predictionResult == old(predictionResult) && navigation == old(navigation)
    {
      if formData.name != "" {
        models := fetched.GetOr([]);
      } else {
        models := [];
      }
    }

    /** The brand select's `onChange`: the chosen option's value, or "" when cleared. */
    method SelectBrand(choice: Option<SelectOption>)
      requires Valid()
      modifies this
      ensures Valid()
      ensures formData == old(formData).(name := if choice.Some? then choice.value.value else "")
      ensures choice.Some? && choice.value in OptionsOf(brands) ==> SelectedBrand() == choice
      ensures choice.None? && "" !in brands ==> SelectedBrand().None?
      ensures location == old(location) && shouldAutoSubmit == old(shouldAutoSubmit) && requests == old(requests)
      ensures brands == old(brands) && models == old(models) && replays == old(replays)
      ensures engineStatus == old(engineStatus) && isLoading == old(isLoading)
      ensures predictionResult == old(predictionResult) && navigation == old(navigation)
    {
      formData := formData.(name := if choice.Some? then choice.value.value else "");
      SelectedOption(brands, formData.name);
    }

    /** The model select's `onChange`: the chosen option's value, or "" when cleared. */
    method SelectModel(choice: Option<SelectOption>)
      requires Valid()
      modifies this
      ensures Valid()
      ensures formData == old(formData).(model := if choice.Some? then choice.value.value else "")
      ensures choice.Some? && choice.value in OptionsOf(models) ==> SelectedModel() == choice
      ensures location == old(location) && shouldAutoSubmit == old(shouldAutoSubmit) && requests == old(requests)
      ensures brands == old(brands) && models == old(models) && replays == old(replays)
      ensures engineStatus == old(engineStatus) && isLoading == old(isLoading)
      ensures predictionResult == old(predictionResult) && navigation == old(navigation)
    {
      formData := formData.(model := if choice.Some? then choice.value.value else "");
      SelectedOption(models, formData.model);
    }

    function SelectedBrand(): Option<SelectOption>
      reads this
    {
      FindOption(OptionsOf(brands), formData.name)
    }

    function SelectedModel(): Option<SelectOption>
      reads this
    {
      FindOption(OptionsOf(models), formData.model)
    }
  }
}
