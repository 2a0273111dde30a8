/**
 * The sign-in form (src/components/SignIn.tsx): the email and password
 * checks, the login request, the token writes and the return, with the
 * interrupted intent, to the page that asked for authentication.
 */
module SignIn {
  import opened Wrappers
  import opened Navigation
  import opened AuthCommon
  import Storage
  import SignUp

  datatype Field = Email | Password

  const InvalidCredentials := "Invalid credentials."
  const NetworkError := "Network error. Please try again."

  datatype Credentials = Credentials(email: string, password: string)

  /** `validate()`: the email rule, then the password rule. */
  function Validate(email: string, password: string): (errors: map<Field, string>)
    ensures Email in errors <==> !IsEmailShape(email)
    ensures Email in errors ==> errors[Email] == (if email == "" then EmailRequired else EmailInvalid)
    ensures Password in errors <==> |password| < MinPasswordLength
    ensures Password in errors ==> errors[Password] == (if password == "" then PasswordRequired else PasswordTooShort)
    ensures errors == map[] <==> IsEmailShape(email) && |password| >= MinPasswordLength
  {
    var e0: map<Field, string> := map[];
    var e1 := match EmailError(email) case Some(m) => e0[Email := m] case None => e0;
    var e2 := match PasswordError(password) case Some(m) => e1[Password := m] case None => e1;
    assert e2 != map[] <== Email in e2 || Password in e2;
    e2
  }

  /** Sign-in checks exactly the email and password rules of sign-up, with the same messages. */
  lemma SameRulesAsSignUp(form: SignUp.Form, agreedToTerms: bool)
    ensures var mine := Validate(form.email, form.password);
      var theirs := SignUp.Validate(form, agreedToTerms);
      && (Email in mine <==> SignUp.Email in theirs)
      && (Email in mine ==> mine[Email] == theirs[SignUp.Email])
      && (Password in mine <==> SignUp.Password in theirs)
      && (Password in mine ==> mine[Password] == theirs[SignUp.Password])
  {
  }

  /**
   * Where a successful sign-in goes: the carried `from` (or home), with
   * `justSignedIn` set and the carried `formData`, `autoSubmit` and
   * `activeTab` passed on unchanged.
   */
  function ResumeAfterSignIn(carried: Option<NavState>): (nav: Navigation)
    ensures !nav.replace && nav.path == ReturnPath(carried) && nav.state.Some?
    ensures nav.state.value.justSignedIn && nav.state.value.formData == CarriedFormData(carried)
    ensures nav.state.value.autoSubmit == (carried.Some? && carried.value.autoSubmit)
    ensures nav.state.value.activeTab == (if carried.Some? then carried.value.activeTab else None)
  {
    var autoSubmit := carried.Some? && carried.value.autoSubmit;
    var activeTab := if carried.Some? then carried.value.activeTab else None;
    Navigation(ReturnPath(carried), Some(NavState(None, CarriedFormData(carried), true, autoSubmit, activeTab)), false)
  }

  /** The email error shown when the login is rejected, or None when assembling it throws. */
  function RejectionError(body: Body): (e: Option<string>)
    ensures e.None? <==> body.NullBody?
    ensures e.Some? ==> e.value != ""
    ensures e.Some? && AssembleErrorMessage(body).value != "" ==> e.value == AssembleErrorMessage(body).value
    ensures e.Some? && AssembleErrorMessage(body).value == "" ==> e.value == InvalidCredentials
  {
    match AssembleErrorMessage(body)
    case None => None
    case Some(m) => Some(if m != "" then m else InvalidCredentials)
  }

  class SignInPage {
    const storage: Storage.LocalStorage
    const location: Option<NavState>
    var email: string
    var password: string
    var errors: map<Field, string>
    var isLoading: bool
    /** Login requests issued, oldest first. */
    var requests: seq<Credentials>
    var navigation: Option<Navigation>

    constructor (storage: Storage.LocalStorage, location: Option<NavState>, email: string, password: string)
      ensures this.storage == storage && this.location == location
      ensures this.email == email && this.password == password
      ensures errors == map[] && !isLoading && requests == [] && navigation.None?
    {
      this.storage := storage;
      this.location := location;
      this.email := email;
      this.password := password;
      errors := map[];
      isLoading := false;
      requests := [];
      navigation := None;
    }

    /** `handleSubmit` with the login reply: a request is sent exactly when validation finds no error. */
    method HandleSubmit(response: Response)
      modifies this, storage
      ensures email == old(email) && password == old(password)
      ensures var v := Validate(email, password);
        v != map[] ==>
          && errors == v && requests == old(requests) && navigation == old(navigation)
          && storage.items == old(storage.items) && isLoading == old(isLoading)
      ensures Validate(email, password) == map[] ==>
        && requests == old(requests) + [Credentials(email, password)]
        && !isLoading
      ensures Validate(email, password) == map[] && response.Reply? && response.ok && !response.body.NullBody? ==>
        && storage.items == StoreTokens(old(storage.items), TruthyField(response.body, "access"), TruthyField(response.body, "refresh"))
        && navigation == Some(ResumeAfterSignIn(location))
        && errors == map[]
      ensures Validate(email, password) == map[] && response.Reply? && !response.ok ==>
        && storage.items == old(storage.items) && navigation == old(navigation)
        && errors == map[Email := RejectionError(response.body).GetOr(NetworkError)]
      ensures Validate(email, password) == map[] && (response.NetworkFailure? || (response.ok && response.body.NullBody?)) ==>
        && storage.items == old(storage.items) && navigation == old(navigation)
        && errors == map[Email := NetworkError]
    {
      var validationErrors := Validate(email, password);
      errors := validationErrors;
      if validationErrors != map[] {
        return;
      }
      isLoading := true;
      requests := requests + [Credentials(email, password)];
      match response {
        case NetworkFailure =>
          isLoading := false;
          errors := map[Email := NetworkError];
        case Reply(ok, body) =>
          isLoading := false;
          if body.NullBody? {
            // reading a field of `null` throws into the network-error handler
            errors := map[Email := NetworkError];
          } else if ok {
            SaveTokens(storage, body);
            navigation := Some(ResumeAfterSignIn(location));
          } else {
            errors := map[Email := RejectionError(body).GetOr(NetworkError)];
          }
      }
    }
  }
}
