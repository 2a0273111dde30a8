/**
 * The sign-up form (src/components/SignUp.tsx): field validation, the
 * registration request, the automatic sign-in that follows it, and the
 * return to the page that asked the user to authenticate.
 */
module SignUp {
  import opened Wrappers
  import opened Navigation
  import opened AuthCommon
  import Storage

  datatype Form = Form(firstName: string, lastName: string, email: string, password: string, confirmPassword: string)

  datatype Field = FirstName | LastName | Email | Password | ConfirmPassword | AgreedToTerms

  const FirstNameRequired := "First name is required."
  const LastNameRequired := "Last name is required."
  const ConfirmRequired := "Please confirm your password."
  const PasswordsDiffer := "Passwords do not match."
  const TermsRequired := "You must agree to the terms."
  const RegistrationFailed := "Registration failed."
  const NetworkError := "Network error. Please try again."

  /** The requests the page sends to the backend. */
  datatype Request =
    | Register(email: string, firstName: string, lastName: string, password: string)
    | Login(email: string, password: string)

  /** `validate()`: an entry for each field whose rule fails, holding that rule's message. */
  function Validate(form: Form, agreedToTerms: bool): (errors: map<Field, string>)
    ensures FirstName in errors <==> form.firstName == ""
    ensures LastName in errors <==> form.lastName == ""
    ensures Email in errors <==> !IsEmailShape(form.email)
    ensures Password in errors <==> |form.password| < MinPasswordLength
    ensures ConfirmPassword in errors <==> form.confirmPassword == "" || form.confirmPassword != form.password
    ensures AgreedToTerms in errors <==> !agreedToTerms
    ensures FirstName in errors ==> errors[FirstName] == FirstNameRequired
    ensures LastName in errors ==> errors[LastName] == LastNameRequired
    ensures Email in errors ==> errors[Email] == (if form.email == "" then EmailRequired else EmailInvalid)
    ensures Password in errors ==> errors[Password] == (if form.password == "" then PasswordRequired else PasswordTooShort)
    ensures ConfirmPassword in errors ==>
      errors[ConfirmPassword] == (if form.confirmPassword == "" then ConfirmRequired else PasswordsDiffer)
    ensures AgreedToTerms in errors ==> errors[AgreedToTerms] == TermsRequired
  {
    map f | f in AllFields && FieldError(form, agreedToTerms, f).Some? :: FieldError(form, agreedToTerms, f).value
  }

  const AllFields: set<Field> := {FirstName, LastName, Email, Password, ConfirmPassword, AgreedToTerms}

  /** The one rule `validate` applies to each field. */
  function FieldError(form: Form, agreedToTerms: bool, field: Field): Option<string> {
    match field
    case FirstName => if form.firstName == "" then Some(FirstNameRequired) else None
    case LastName => if form.lastName == "" then Some(LastNameRequired) else None
    case Email => EmailError(form.email)
    case Password => PasswordError(form.password)
    case ConfirmPassword => ConfirmError(form)
    case AgreedToTerms => if !agreedToTerms then Some(TermsRequired) else None
  }

  /** The form is submitted exactly when every rule passes. */
  lemma NoErrorsIffValid(form: Form, agreedToTerms: bool)
    ensures Validate(form, agreedToTerms) == map[] <==>
      && form.firstName != "" && form.lastName != "" && IsEmailShape(form.email)
      && |form.password| >= MinPasswordLength && form.confirmPassword == form.password && agreedToTerms
  {
    var e := Validate(form, agreedToTerms);
    assert e != map[] <== FirstName in e || LastName in e || Email in e || Password in e
      || ConfirmPassword in e || AgreedToTerms in e;
    assert e.Keys == {} <== FirstName !in e && LastName !in e && Email !in e && Password !in e
      && ConfirmPassword !in e && AgreedToTerms !in e;
  }

  /** The confirmation rule: required first, then equal to the password. */
  function ConfirmError(form: Form): (e: Option<string>)
    ensures e == Some(ConfirmRequired) <==> form.confirmPassword == ""
    ensures e == Some(PasswordsDiffer) <==> form.confirmPassword != "" && form.confirmPassword != form.password
    ensures e == None <==> form.confirmPassword != "" && form.confirmPassword == form.password
  {
    if form.confirmPassword == "" then Some(ConfirmRequired)
    else if form.password != form.confirmPassword then Some(PasswordsDiffer)
    else None
  }

  /**
   * Where a successful automatic sign-in goes: back to the carried `from`
   * (or home), replacing the sign-up entry in the history, with the carried
   * form data and `justSignedIn`; `autoSubmit` and `activeTab` are not
   * carried on.
   */
  function ResumeAfterSignUp(carried: Option<NavState>): (nav: Navigation)
    ensures nav.replace && nav.path == ReturnPath(carried) && nav.state.Some?
    ensures nav.state.value.justSignedIn && nav.state.value.formData == CarriedFormData(carried)
    ensures !nav.state.value.autoSubmit && nav.state.value.activeTab.None? && nav.state.value.from.None?
  {
    Navigation(ReturnPath(carried), Some(NavState(None, CarriedFormData(carried), true, false, None)), true)
  }

  /** A failed automatic sign-in sends the user to sign in by hand, carrying nothing. */
  const ManualSignIn := Navigation(SignInPath, None, true)

  /** The email error shown when registration is rejected, or None when assembling it throws. */
  function RejectionError(body: Body): (e: Option<string>)
    ensures e.None? <==> body.NullBody?
    ensures e.Some? ==> e.value != ""
    ensures e.Some? && AssembleErrorMessage(body).value != "" ==> e.value == AssembleErrorMessage(body).value
    ensures e.Some? && AssembleErrorMessage(body).value == "" ==> e.value == RegistrationFailed
  {
    match AssembleErrorMessage(body)
    case None => None
    case Some(m) => Some(if m != "" then m else RegistrationFailed)
  }

  class SignUpPage {
    const storage: Storage.LocalStorage
    /** The state the page was navigated to with (the interrupted intent, if any). */
    const location: Option<NavState>
    var form: Form
    var agreedToTerms: bool
    var errors: map<Field, string>
    var isLoading: bool
    /** Requests issued, oldest first. */
    var requests: seq<Request>
    /** The last navigation the page performed. */
    var navigation: Option<Navigation>

    constructor (storage: Storage.LocalStorage, location: Option<NavState>, form: Form, agreedToTerms: bool)
      ensures this.storage == storage && this.location == location
      ensures this.form == form && this.agreedToTerms == agreedToTerms
      ensures errors == map[] && !isLoading && requests == [] && navigation.None?
    {
      this.storage := storage;
      this.location := location;
      this.form := form;
      this.agreedToTerms := agreedToTerms;
      errors := map[];
      isLoading := false;
      requests := [];
      navigation := None;
    }

    /**
     * `handleSubmit` with the registration reply and, when it is reached,
     * the automatic sign-in reply. Nothing is sent unless validation finds
     * no error.
     */
    method HandleSubmit(register: Response, login: Response)
      modifies this, storage
      ensures form == old(form) && agreedToTerms == old(agreedToTerms)
      ensures var v := Validate(form, agreedToTerms);
        v != map[] ==>
          && errors == v && requests == old(requests) && navigation == old(navigation)
          && storage.items == old(storage.items) && isLoading == old(isLoading)
      ensures Validate(form, agreedToTerms) == map[] ==>
        && !isLoading
        && |requests| > |old(requests)|
        && requests[..|old(requests)| + 1] == old(requests) + [Register(form.email, form.firstName, form.lastName, form.password)]
      // registration accepted: tokens saved, then the automatic sign-in
      ensures Validate(form, agreedToTerms) == map[] && register.Reply? && register.ok && !register.body.NullBody? ==>
        && requests == old(requests) + [Register(form.email, form.firstName, form.lastName, form.password), Login(form.email, form.password)]
        && errors == map[]
        && var saved := StoreTokens(old(storage.items), TruthyField(register.body, "access"), TruthyField(register.body, "refresh"));
           if login.Reply? && login.ok && !login.body.NullBody? then
             && storage.items == StoreTokens(saved, TruthyField(login.body, "access"), TruthyField(login.body, "refresh"))
             && navigation == Some(ResumeAfterSignUp(location))
           else
             && storage.items == saved
             && navigation == Some(ManualSignIn)
      // registration rejected: the assembled message, or the network error when assembling it throws
      ensures Validate(form, agreedToTerms) == map[] && register.Reply? && !register.ok ==>
        && requests == old(requests) + [Register(form.email, form.firstName, form.lastName, form.password)]
        && storage.items == old(storage.items) && navigation == old(navigation)
        && errors == map[Email := RejectionError(register.body).GetOr(NetworkError)]
      // the request or the reading of its reply failed
      ensures Validate(form, agreedToTerms) == map[] && (register.NetworkFailure? || (register.ok && register.body.NullBody?)) ==>
        && requests == old(requests) + [Register(form.email, form.firstName, form.lastName, form.password)]
        && storage.items == old(storage.items) && navigation == old(navigation)
        && errors == map[Email := NetworkError]
    {
      var validationErrors := Validate(form, agreedToTerms);
      errors := validationErrors;
      if validationErrors != map[] {
        return;
      }
      isLoading := true;
      requests := requests + [Register(form.email, form.firstName, form.lastName, form.password)];
      match register {
        case NetworkFailure =>
          isLoading := false;
          errors := map[Email := NetworkError];
        case Reply(ok, body) =>
          isLoading := false;
          if body.NullBody? {
            // reading a field of `null` throws into the network-error handler
            errors := map[Email := NetworkError];
          } else if ok {
            SaveTokens(storage, body);
            requests := requests + [Login(form.email, form.password)];
            if login.Reply? && login.ok && !login.body.NullBody? {
              SaveTokens(storage, login.body);
              navigation := Some(ResumeAfterSignUp(location));
            } else {
              navigation := Some(ManualSignIn);
            }
          } else {
            errors := map[Email := RejectionError(body).GetOr(NetworkError)];
          }
      }
    }
  }
}
