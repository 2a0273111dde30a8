/**
 * The state a navigation carries (React Router's `location.state`) as the
 * sign-in flow and the three prediction views read and write it.
 */
module Navigation {
  import opened Wrappers

  /** A carried `formData` object: field name to value. */
  type FormData = map<string, string>

  /**
   * One `location.state` object. A boolean flag that the object lacks reads
   * as false, which is all the views test; `from`, `formData` and `activeTab`
   * may be absent.
   */
  datatype NavState = NavState(
    from: Option<string>,
    formData: Option<FormData>,
    justSignedIn: bool,
    autoSubmit: bool,
    activeTab: Option<int>)

  /** A call `navigate(path, { replace, state })`. */
  datatype Navigation = Navigation(path: string, state: Option<NavState>, replace: bool)

  const HomePath := "/"
  const SignInPath := "/signin"
  const PredictionPath := "/prediction"

  /** `state?.formData?.<field> || ''` */
  function CarriedField(state: Option<NavState>, field: string): string {
    if state.Some? && state.value.formData.Some? && field in state.value.formData.value
    then state.value.formData.value[field]
    else ""
  }

  /** `state?.from || '/'`: where to return after signing in. */
  function ReturnPath(state: Option<NavState>): (path: string)
    ensures path != ""
    ensures state.Some? && state.value.from.Some? && state.value.from.value != "" ==> path == state.value.from.value
    ensures !(state.Some? && state.value.from.Some? && state.value.from.value != "") ==> path == HomePath
  {
    if state.Some? && state.value.from.Some? && state.value.from.value != ""
    then state.value.from.value
    else HomePath
  }

  /** `state?.formData` */
  function CarriedFormData(state: Option<NavState>): Option<FormData> {
    if state.Some? then state.value.formData else None
  }
}
