/**
 * The sign-in interrupt and resume flow across pages: each view's
 * sign-in intent, rebuilt by sign-in or sign-up, arms that view's resume
 * rule, and the interrupted action runs exactly once on return.
 */
module Scenarios {
  import opened Wrappers
  import opened JsText
  import opened Navigation
  import opened AuthCommon
  import Storage
  import SignIn
  import SignUp
  import Recommendations
  import PredictPrice
  import CaraExplorer

  /** A search interrupted for sign-in comes back to the prediction page, on the explorer tab, armed. */
  lemma ExplorerIntentSurvivesSignIn(term: string)
    requires term != ""
    ensures var back := SignIn.ResumeAfterSignIn(CaraExplorer.SignInIntent(term).state);
      && back.path == PredictionPath
      && back.state.value.activeTab == Some(CaraExplorer.ExplorerTab)
      && CarriedField(back.state, CaraExplorer.SearchField) == term
      && CaraExplorer.ResumeArmed(back.state)
  {
  }

  /** A budget interrupted for sign-in comes back on the recommendations tab, armed. */
  lemma RecommendationsIntentSurvivesSignIn(price: string)
    requires price != ""
    ensures var back := SignIn.ResumeAfterSignIn(Recommendations.SignInIntent(price).state);
      && back.path == PredictionPath
      && back.state.value.activeTab == Some(Recommendations.RecommendationsTab)
      && CarriedField(back.state, Recommendations.PriceField) == price
      && Recommendations.ResumeArmed(back.state)
  {
  }

  /** A prediction form interrupted for sign-in comes back with the whole form, armed. */
  lemma PredictionIntentSurvivesSignIn(form: PredictPrice.CarForm)
    ensures var back := SignIn.ResumeAfterSignIn(PredictPrice.SignInIntent(form).state);
      && back.path == PredictionPath
      && back.state.value.formData == Some(PredictPrice.FieldsOf(form))
      && PredictPrice.ResumeArmed(back.state)
  {
  }

  /**
   * Signing up instead of signing in arms the same resume rules, but the
   * tab is not carried on.
   */
  lemma IntentsSurviveSignUp(term: string, price: string, form: PredictPrice.CarForm)
    requires term != "" && price != ""
    ensures CaraExplorer.ResumeArmed(SignUp.ResumeAfterSignUp(CaraExplorer.SignInIntent(term).state).state)
    ensures Recommendations.ResumeArmed(SignUp.ResumeAfterSignUp(Recommendations.SignInIntent(price).state).state)
    ensures PredictPrice.ResumeArmed(SignUp.ResumeAfterSignUp(PredictPrice.SignInIntent(form).state).state)
    ensures SignUp.ResumeAfterSignUp(CaraExplorer.SignInIntent(term).state).state.value.activeTab.None?
  {
  }

  /**
   * A signed-out search for `term` is interrupted, the user signs in with
   * valid credentials, and the explorer is mounted again with the carried
   * state. Its effects then run twice over: `term` is searched once, and
   * only once.
   */
  method InterruptedSearch(term: string, email: string, password: string, login: Response, reply: CaraExplorer.Reply)
    returns (before: seq<string>, after: seq<string>, landed: Navigation)
    requires Trim(term) != ""
    requires SignIn.Validate(email, password) == map[]
    requires login.Reply? && login.ok && login.body.Object?
    ensures before == []
    ensures landed.path == PredictionPath && landed.state.Some? && landed.state.value.activeTab == Some(CaraExplorer.ExplorerTab)
    ensures after == [term]
  {
    var storage := new Storage.LocalStorage(map[]);
    var explorer := new CaraExplorer.CaraExplorerView(storage, None);
    explorer.HandleInput(term);
    explorer.HandleSubmit(true, reply);
    before := explorer.requests;
    var intent := explorer.navigation.value;
    assert intent == CaraExplorer.SignInIntent(term);

    var signIn := new SignIn.SignInPage(storage, intent.state, email, password);
    signIn.HandleSubmit(login);
    landed := signIn.navigation.value;
    assert landed == SignIn.ResumeAfterSignIn(intent.state);
    ExplorerIntentSurvivesSignIn(term);

    var back := new CaraExplorer.CaraExplorerView(storage, landed.state);
    assert back.searchInput == term;
    back.ResumeEffect();
    assert back.shouldAutoSubmit && back.searchInput == term && back.requests == [];
    back.AutoSubmitEffect(reply);
    assert back.requests == [term] && !back.shouldAutoSubmit;
    back.ResumeEffect();
    back.AutoSubmitEffect(reply);
    after := back.requests;
  }

  /**
   * A signed-out budget search is interrupted and resumed the same way:
   * one request, for the budget converted to Toman, whatever the effects
   * re-run.
   */
  method InterruptedRecommendation(price: string, email: string, password: string, login: Response, reply: Recommendations.Reply)
    returns (before: seq<Option<int>>, after: seq<Option<int>>)
    requires price != "" && AllAsciiDigits(price)
    requires SignIn.Validate(email, password) == map[]
    requires login.Reply? && login.ok && login.body.Object?
    ensures before == []
    ensures after == [Recommendations.RequestedToman(price)]
  {
    var storage := new Storage.LocalStorage(map[]);
    var view := new Recommendations.RecommendationsView(storage, None);
    view.HandlePriceChange(price);
    assert view.price == price;
    view.HandleSubmit(true, reply);
    before := view.requests;
    var intent := view.navigation.value;
    assert intent == Recommendations.SignInIntent(price);

    var signIn := new SignIn.SignInPage(storage, intent.state, email, password);
    signIn.HandleSubmit(login);
    var landed := signIn.navigation.value;
    assert landed == SignIn.ResumeAfterSignIn(intent.state);
    RecommendationsIntentSurvivesSignIn(price);

    var back := new Recommendations.RecommendationsView(storage, landed.state);
    back.ResumeEffect();
    assert back.shouldAutoSubmit && back.price == price && back.requests == [];
    back.AutoSubmitEffect(reply);
    assert back.requests == [Recommendations.RequestedToman(price)] && !back.shouldAutoSubmit;
    back.ResumeEffect();
    back.AutoSubmitEffect(reply);
    after := back.requests;
  }

  /**
   * A signed-out prediction is interrupted; the user signs in and the
   * backend returns an access token. Mounted again with the carried state
   * and a form naming a brand and a model, the view predicts once. A
   * further mount with the state it left behind (a page refresh) predicts
   * nothing.
   */
  method InterruptedPrediction(form: PredictPrice.CarForm, email: string, password: string, login: Response, reply: PredictPrice.Reply)
    returns (before: seq<PredictPrice.Payload>, after: seq<PredictPrice.Payload>, refreshed: seq<PredictPrice.Payload>)
    requires form.name != "" && form.model != ""
    requires SignIn.Validate(email, password) == map[]
    requires login.Reply? && login.ok && TruthyField(login.body, "access").Some?
    ensures before == []
    ensures after == [PredictPrice.PayloadOf(form)]
    ensures refreshed == []
  {
    var storage := new Storage.LocalStorage(map[]);
    var view := new PredictPrice.PredictPriceView(storage, None, form);
    view.HandleSubmit(true, reply);
    before := view.requests;
    var intent := view.navigation.value;
    assert intent == PredictPrice.SignInIntent(form);

    var signIn := new SignIn.SignInPage(storage, intent.state, email, password);
    signIn.HandleSubmit(login);
    assert storage.HasToken();
    var landed := signIn.navigation.value;
    assert landed == SignIn.ResumeAfterSignIn(intent.state);
    PredictionIntentSurvivesSignIn(form);

    var back := new PredictPrice.PredictPriceView(storage, landed.state, form);
    back.ResumeEffect();
    assert back.shouldAutoSubmit && back.requests == [];
    back.AutoSubmitEffect(reply);
    assert back.requests == [PredictPrice.PayloadOf(form)] && !back.shouldAutoSubmit;
    back.ResumeEffect();
    back.AutoSubmitEffect(reply);
    after := back.requests;

    var again := new PredictPrice.PredictPriceView(storage, back.location, form);
    again.ResumeEffect();
    again.AutoSubmitEffect(reply);
    refreshed := again.requests;
  }
}
