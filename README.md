# Caralytix front-end logic in Dafny

Caralytix is a single-page web app for the Iranian used-car market. It
predicts a car's price, recommends cars within a budget, and searches market
listings. This project models the parts of its front end that are plain logic
rather than markup:

- **Sign-in interrupt and resume.** Three views on the prediction page are
  `PredictPrice`, `Recommendations` and `CaraExplorer`. Each gates its action
  on a stored token. Without one, the user's input travels with the
  navigation to `/signin` as carried state (`from`, `formData`, `activeTab`).
  Sign-in and sign-up rebuild that state with `justSignedIn`. Back on the
  page, each view decides once whether to replay the action, then clears or
  neutralises its flags.
  - Carried navigation state is the value `Navigation.NavState`.
  - Each view is a class holding its `useState` fields.
  - Each view has a ghost counter of replays. Its `Valid()` invariant keeps
    *replays + flag + armed carried state ≤ 1*, which is "at most one replay".
  - Every submit handler's contract (`HandleSubmit`, and the explorer's
    `Gate`) says "no request without a token unless auto-submitting". The
    request methods these handlers call (`Fetch`, `Predict`, `Search`) send
    unconditionally, as the source's inner calls do.
- **The sign-up and sign-in forms.**
  - Field validation, including the email pattern, written as an explicit
    string predicate and proved equal to its description in words.
  - The conditional token writes.
  - The error text assembled from a backend reply.
  - The navigation after success.
- **The recommendations helpers.**
  - Persian and Arabic-Indic digit transliteration.
  - Rial/Toman conversion.
  - The Gregorian-to-Solar-Hijri year shown for a car.
  - Thousands grouping of the budget field, with its comma-stripping inverse.
- **The theme** (`theme.ts`): the precedence stored choice, then system
  preference, then dark. `setTheme` stores the theme, sets the body class and
  dispatches an event.
- **The brand marquee.**
  - Its two rows. The second row comes from two in-place reversals of the
    caller's array.
  - The case-insensitive colour of a make.
  - The highlighted row.

Network calls are abstract. A view method takes the settled reply as a
parameter and appends what it would have sent to a `requests` log. The
browser's `localStorage` is the class `Storage.LocalStorage` over a map.
`Scenarios` chains the views, the sign-in page and the rebuilt state. Its
contracts cover the whole flow: an interrupted action is sent once after
signing in, and a refresh does not send it again.

The code keys the resume logic on two flags, `justSignedIn` and
`autoSubmit`, and each view tests them its own way. The model follows the
code, not a single merged "resume" flag:

- `PredictPrice` accepts either flag but also needs a token and a chosen
  brand and model.
- `Recommendations` and `CaraExplorer` need `justSignedIn` and a non-empty
  carried value.

## Model

| member | source | states |
|---|---|---|
| JsText.KeepAsciiDigits | src/components/Recommendations.tsx:82 | the result holds only ASCII digits, is no longer than the input, and is the input itself when that is all digits |
| JsText.KeepAsciiDigitsCounts | src/components/Recommendations.tsx:82 | each ASCII digit of the input is kept as often as it occurs there, and no other character is kept |
| JsText.KeepAsciiDigitsAppend | src/components/Recommendations.tsx:82 | keeping the digits of a concatenation keeps those of each part, in order, so the digits keep the input's order |
| JsText.StripCommas | src/components/Recommendations.tsx:90 | no comma is left, and a string without commas is unchanged |
| JsText.StripCommasAppend | src/components/Recommendations.tsx:90 | removing commas distributes over concatenation |
| JsText.ParseNumber | src/components/Recommendations.tsx:20 | `Number()` on text gives a number exactly when the text is all ASCII digits, and NaN otherwise; the empty text gives 0 |
| JsText.LeadingZero | src/components/Recommendations.tsx:20 | a leading `0` does not change the number read |
| JsText.PaddedNumber | src/components/PredictPrice.tsx:181-183 | any run of zeros before a number's canonical digits reads as that number, so every digit string's value is fixed |
| JsText.DecimalString | src/components/Recommendations.tsx:23 | `toString()` of a natural gives non-empty ASCII digits with no leading zero that read back as the same number |
| JsText.Trim | src/components/CaraExplorer.tsx:49 | the trimmed text is empty exactly when the text is all whitespace; otherwise it neither starts nor ends with whitespace |
| JsText.SplitJoin | src/components/SignUp.tsx:167-169 | joining parts that lack the separator and splitting again gives the parts back |
| AuthCommon.EmailPatternIsShape | src/components/SignUp.tsx:74 | the pattern `^[^\s@]+@[^\s@]+\.[^\s@]+$` accepts exactly the strings with no whitespace, one `@` after a non-empty local part, and a `.` in the domain that is neither its first nor its last character |
| AuthCommon.EmailError | src/components/SignUp.tsx:72-76 | "required" exactly for the empty email, "invalid" exactly for a non-empty email of the wrong shape, and no error exactly for a well-shaped one |
| AuthCommon.PasswordError | src/components/SignUp.tsx:77-81 | "required" exactly for the empty password, "too short" exactly for 1 to 7 characters, and no error exactly from 8 characters on |
| AuthCommon.TruthyField | src/components/SignIn.tsx:85-86 | a field is present exactly when the body is an object whose first entry under the key is a non-empty string, and then it is that string |
| AuthCommon.ValueTexts | src/components/SignUp.tsx:167-168 | one text per entry, in order, the value's text with the key dropped |
| AuthCommon.AssembleErrorMessage | src/components/SignUp.tsx:165-170 | a `null` body throws; a non-object body gives ""; a non-empty `detail` is the message; a single entry without one gives that entry's value text; an object with no usable `detail` and no entries gives "", the text that triggers the pages' fallback messages |
| AuthCommon.ErrorMessageLines | src/components/SignUp.tsx:165-170 | without a usable `detail`, the message's lines are the entries' value texts in order |
| AuthCommon.StoreTokens | src/components/SignUp.tsx:117-118 | `token` and `refreshToken` are written only when `access` and `refresh` are present, and no other stored key changes |
| AuthCommon.SaveTokens | src/components/SignIn.tsx:85-86 | the page's storage becomes the store described by `StoreTokens` for the reply's `access` and `refresh` |
| SignUp.Validate | src/components/SignUp.tsx:61-91 | each field has an error exactly when its rule fails, with that rule's message: the two names are required, then the email and password rules, then confirmation (required, then equal to the password), then terms |
| SignUp.ConfirmError | src/components/SignUp.tsx:82-86 | "please confirm" exactly when empty, "do not match" exactly when non-empty and different, none exactly when equal |
| SignUp.NoErrorsIffValid | src/components/SignUp.tsx:95-97 | the error map is empty exactly when every rule passes |
| SignUp.ResumeAfterSignUp | src/components/SignUp.tsx:136-144 | the navigation replaces the history entry, goes to the carried `from` or `/`, carries the carried `formData` with `justSignedIn`, and carries neither `autoSubmit` nor `activeTab` |
| SignUp.RejectionError | src/components/SignUp.tsx:165-177 | the error shown is the assembled message, or "Registration failed." when that is empty; a `null` body gives no message |
| SignUp.SignUpPage.HandleSubmit | src/components/SignUp.tsx:93-189 | with errors, nothing is sent and the errors are shown. Without errors, registration is sent. On acceptance, tokens are saved and the automatic login is sent; its success saves tokens and resumes, its failure goes to `/signin` carrying nothing. On rejection, the assembled message is shown. On a failure, the network error is shown |
| SignIn.Validate | src/components/SignIn.tsx:49-62 | an email error and a password error exactly when those rules fail, with their messages; no error exactly when both pass |
| SignIn.SameRulesAsSignUp | src/components/SignIn.tsx:49-62 | sign-in reports the same email and password errors, with the same messages, as sign-up |
| SignIn.ResumeAfterSignIn | src/components/SignIn.tsx:88-101 | the navigation goes to the carried `from` or `/` with `justSignedIn`, copying `formData`, `autoSubmit` and `activeTab` unchanged |
| SignIn.RejectionError | src/components/SignIn.tsx:104-116 | the email error is the assembled message, or "Invalid credentials." when that is empty; a `null` body gives no message |
| SignIn.SignInPage.HandleSubmit | src/components/SignIn.tsx:64-128 | a login request is sent exactly when validation passes. Success stores the tokens present and resumes. A non-ok reply shows the assembled error. A network failure shows exactly "Network error. Please try again.". Loading is cleared either way |
| Recommendations.ToEnglishDigits | src/components/Recommendations.tsx:2-7 | the length is kept; each U+06F0–U+06F9 and U+0660–U+0669 digit becomes the ASCII digit of the same value; every other character is unchanged; no Persian or Arabic-Indic digit is left |
| Recommendations.ToEnglishDigitsIdempotent | src/components/Recommendations.tsx:4-6 | transliterating twice is transliterating once |
| Recommendations.RialToToman | src/components/Recommendations.tsx:10-12 | the Toman amount is the one nearest to a tenth of the Rial amount, halves rounded up |
| Recommendations.TomanToRial | src/components/Recommendations.tsx:14-16 | converting back to Toman gives the same amount |
| Recommendations.RialRoundTrip | src/components/Recommendations.tsx:10-16 | a Rial amount converted to Toman and back moves by at most 5 |
| Recommendations.GetYearName | src/components/Recommendations.tsx:19-30 | a year above 1900 is shown 621 less, and one strictly between 1300 and 1500 is shown as is; both are shown in ASCII digits with no leading zero. Any other input, unparsable included, is returned as given |
| Recommendations.GroupThousands | src/components/Recommendations.tsx:84 | up to three digits stay as they are; n > 0 digits gain (n − 1) / 3 commas |
| Recommendations.GroupThousandsIsSeparated | src/components/Recommendations.tsx:84 | the grouping puts a comma before position i exactly when 0 < i < n and n − i is a multiple of 3 |
| Recommendations.StripSeparated | src/components/Recommendations.tsx:84 | removing the commas from the grouped digits gives the digits back |
| Recommendations.FormatPrice | src/components/Recommendations.tsx:80-85 | the output is the input's ASCII digits (others, Persian digits included, dropped) grouped by threes from the right, and removing its commas gives those digits |
| Recommendations.DisplayedPrice | src/components/Recommendations.tsx:151 | an empty price shows nothing; any other shows its ASCII digits with a comma before every group of three from the right (the `Separated` reference); for a stored digit string, removing the commas gives the price back |
| Recommendations.RequestedToman | src/components/Recommendations.tsx:126-127 | the request carries a number exactly when the comma-free price is all digits, and that number is the nearest Toman amount |
| Recommendations.ResumeArmed | src/components/Recommendations.tsx:61 | the resume fires exactly on `justSignedIn` with a non-empty carried `formData.price` |
| Recommendations.SignInIntent | src/components/Recommendations.tsx:109-115 | the sign-in navigation carries `from: '/prediction'`, the price and tab 1 |
| Recommendations.RecommendationsView.constructor | src/components/Recommendations.tsx:48-56 | the price starts as the carried `formData.price`, or empty |
| Recommendations.RecommendationsView.Fetch | src/components/Recommendations.tsx:121-134 | one request with the Toman amount. On success, the suggested cars (or none) are shown and the view is marked searched; on failure, the fixed error with no cars. Loading ends either way |
| Recommendations.RecommendationsView.HandleSubmit | src/components/Recommendations.tsx:93-135 | with no token and no auto-submit, no request is made, and confirming goes to sign-in with the price; otherwise the fetch runs; the replay invariant is kept |
| Recommendations.RecommendationsView.ResumeEffect | src/components/Recommendations.tsx:59-67 | armed carried state (`justSignedIn` and a non-empty price) sets the flag, takes the price and clears the state; afterwards nothing is armed |
| Recommendations.RecommendationsView.AutoSubmitEffect | src/components/Recommendations.tsx:70-77 | with the flag and a price, exactly one request is made, counted as the replay, and the flag drops; otherwise nothing happens |
| Recommendations.RecommendationsView.SubmitDisabled | src/components/Recommendations.tsx:155 | the button is disabled exactly while loading or when the price is empty; `HandlePriceChange` shows that after typing, an enabled button always sends a number, never NaN |
| Recommendations.RecommendationsView.HandlePriceChange | src/components/Recommendations.tsx:88-91 | the stored price is exactly the ASCII digits typed; if the button is then enabled, the request carries a number and the field shows text; nothing else changes |
| PredictPrice.EngineStatusOf | src/components/PredictPrice.tsx:134-142 | the switch writes `هست` exactly when checked and `نیست` exactly when unchecked |
| PredictPrice.SwitchOf | src/components/PredictPrice.tsx:108 | the switch is on exactly for `هست` |
| PredictPrice.SwitchRoundTrip | src/components/PredictPrice.tsx:134-142 | mapping the switch to a status and back is the identity, and so is status to switch to status |
| PredictPrice.OptionsOf | src/components/PredictPrice.tsx:194-202 | one option per name, in order, with the name as value and label |
| PredictPrice.FindOption | src/components/PredictPrice.tsx:205-206 | null exactly when no option has the value; otherwise the first option that has it |
| PredictPrice.SelectedOption | src/components/PredictPrice.tsx:194-206 | the selected option is the one named by the form field when that name is listed, else null |
| PredictPrice.PayloadOf | src/components/PredictPrice.tsx:177-185 | name, model, gearbox and engine status pass through unchanged; year, mileage and body health are sent as `Number()` of their text: a number exactly when they are digit strings, an empty mileage as 0 |
| PredictPrice.PayloadNumbers | src/components/PredictPrice.tsx:181-183 | a year and mileage written out from numbers are sent as those numbers |
| PredictPrice.ResultOf | src/components/PredictPrice.tsx:186-190 | the result is the predicted price when it is present and non-zero, and null otherwise, failure included |
| PredictPrice.ResumeArmed | src/components/PredictPrice.tsx:92-94 | armed only with carried `formData`, and then exactly when `justSignedIn` or `autoSubmit` is set |
| PredictPrice.ShouldAutoSubmit | src/components/PredictPrice.tsx:92-99 | the auto-submit is flagged exactly when the state is armed, a token is stored, and a brand and a model are chosen |
| PredictPrice.FlagsCleared | src/components/PredictPrice.tsx:101-105 | the rewritten state keeps `from`, `formData` and `activeTab` and is not armed |
| PredictPrice.ResumeIsOneShot | src/components/PredictPrice.tsx:101-105 | re-reading the rewritten state never flags an auto-submit, whatever the token or form |
| PredictPrice.SignInIntent | src/components/PredictPrice.tsx:163-168 | the sign-in navigation carries `from: '/prediction'` and the whole form, and no tab |
| PredictPrice.PredictPriceView.constructor | src/components/PredictPrice.tsx:83-85 | the switch starts on exactly when the form's engine status is `هست` (line 108); lists empty, flag down |
| PredictPrice.PredictPriceView.Predict | src/components/PredictPrice.tsx:174-192 | one request with the form's payload; the result follows `ResultOf`; loading is false afterwards |
| PredictPrice.PredictPriceView.HandleSubmit | src/components/PredictPrice.tsx:144-193 | with no token and no auto-submit, `predictPrice` is not called, and confirming goes to sign-in with the form; otherwise the prediction runs |
| PredictPrice.PredictPriceView.ResumeEffect | src/components/PredictPrice.tsx:88-107 | with carried `formData`, the flag is raised exactly when (`justSignedIn` or `autoSubmit`), a token and a chosen brand and model all hold; the flags are rewritten to false keeping the form data; afterwards nothing is armed |
| PredictPrice.PredictPriceView.AutoSubmitEffect | src/components/PredictPrice.tsx:122-131 | with the flag, exactly one prediction is sent, counted as the replay, and the flag drops |
| PredictPrice.PredictPriceView.HandleEngineStatusSwitch | src/components/PredictPrice.tsx:134-142 | the switch and the form's engine status change together and stay in agreement |
| PredictPrice.PredictPriceView.BrandsEffect | src/components/PredictPrice.tsx:110-112 | the brands are the fetched list, or none on failure |
| PredictPrice.PredictPriceView.ModelsEffect | src/components/PredictPrice.tsx:114-120 | an empty brand clears the models; otherwise they are the fetched list, or none on failure |
| PredictPrice.PredictPriceView.SelectBrand | src/components/PredictPrice.tsx:223-231 | the brand becomes the chosen option's value, or "" when cleared, and a listed choice is then the selected option |
| PredictPrice.PredictPriceView.SelectModel | src/components/PredictPrice.tsx:244-252 | the model becomes the chosen option's value, or "" when cleared, and a listed choice is then the selected option |
| CaraExplorer.RialPrice | src/components/CaraExplorer.tsx:149 | the Rial price shown converts back to the listing's Toman price and is a multiple of 10 |
| CaraExplorer.FailureText | src/components/CaraExplorer.tsx:86 | an `Error`'s own message, else "Failed to search cars" |
| CaraExplorer.ResumeArmed | src/components/CaraExplorer.tsx:29 | the resume fires exactly on `justSignedIn` with a non-empty carried `formData.searchInput` |
| CaraExplorer.SignInIntent | src/components/CaraExplorer.tsx:64-70 | the sign-in navigation carries `from: '/prediction'`, the search text and tab 2 |
| CaraExplorer.PanelOf | src/components/CaraExplorer.tsx:116-167 | a spinner exactly while searching; otherwise the error panel exactly when a non-empty error is set, showing that error; listings only after a search that found some; otherwise the hint for before or after a search |
| CaraExplorer.CaraExplorerView.constructor | src/components/CaraExplorer.tsx:16-24 | the search text starts as the carried `formData.searchInput`, or empty |
| CaraExplorer.CaraExplorerView.Search | src/components/CaraExplorer.tsx:76-89 | one request with the untrimmed text; on success the listings are shown and the view is marked searched; on failure the failure text is shown with no listings; searching ends either way |
| CaraExplorer.CaraExplorerView.Gate | src/components/CaraExplorer.tsx:51-89 | with no token and no auto-submit, no search is made, and confirming goes to sign-in with the text; otherwise the search runs |
| CaraExplorer.CaraExplorerView.HandleSubmit | src/components/CaraExplorer.tsx:47-90 | blank text does nothing. With no token and no auto-submit, no search is made, and confirming goes to sign-in with the text. Otherwise the search runs |
| CaraExplorer.CaraExplorerView.ResumeEffect | src/components/CaraExplorer.tsx:27-35 | armed state (`justSignedIn` and a non-empty carried text) sets the flag, takes the text and clears the state; afterwards nothing is armed |
| CaraExplorer.CaraExplorerView.AutoSubmitEffect | src/components/CaraExplorer.tsx:38-45 | only with the flag and non-blank text: exactly one search, counted as the replay, and the flag drops |
| CaraExplorer.CaraExplorerView.SubmitDisabled | src/components/CaraExplorer.tsx:109 | the button is disabled exactly while searching or when the text is all white space |
| CaraExplorer.CaraExplorerView.HandleInput | src/components/CaraExplorer.tsx:106 | the text is kept exactly as typed |
| Theme.Preferred | src/theme.ts:5-14 | dark without a window; with one, light exactly when "light" is stored, or nothing valid is stored and the system prefers light |
| Theme.Page.GetTheme | src/theme.ts:5-14 | in a browser, a stored "light" or "dark" is returned; otherwise light exactly when the system prefers light |
| Theme.StoredThemeWins | src/theme.ts:7-8 | a stored "light" or "dark" is returned whatever the system prefers |
| Theme.SystemPreferenceDecides | src/theme.ts:6-13 | with nothing valid stored, light exactly when the system prefers light; dark without a window |
| Theme.WithThemeClass | src/theme.ts:18-19 | `light-mode` is present exactly for light and `dark-mode` exactly for dark; other classes are untouched |
| Theme.Page.SetTheme | src/theme.ts:16-21 | the theme is stored, the body gets the matching class, exactly one event with the theme is added, and `getTheme()` then returns it |
| Theme.Page.SyncThemeWithBody | src/theme.ts:23-26 | `getTheme()` is unchanged, and that value is stored, set on the body and announced |
| BrandsMarquee.Reversed | src/components/BrandsMarquee.tsx:14 | the reversal has the input's length; `ReversedAt` places each element |
| BrandsMarquee.ReversedAt | src/components/BrandsMarquee.tsx:14 | position i of the reversal holds position n − 1 − i of the input |
| BrandsMarquee.ReversedTwice | src/components/BrandsMarquee.tsx:14 | reversing twice gives the input back |
| BrandsMarquee.ReverseInPlace | src/components/BrandsMarquee.tsx:14 | `reverse()` leaves the array holding its old contents reversed |
| BrandsMarquee.BuildRows | src/components/BrandsMarquee.tsx:13-14 | row 1 is the brands twice; row 2 is the brands reversed then in order; the caller's array ends as it began |
| BrandsMarquee.ToLower | src/components/BrandsMarquee.tsx:38 | the length is kept and each letter A–Z becomes its lower case |
| BrandsMarquee.ToLowerIdempotent | src/components/BrandsMarquee.tsx:38 | lower-casing twice is lower-casing once |
| BrandsMarquee.GetBrandColor | src/components/BrandsMarquee.tsx:26-40 | the eight listed makes get their listed colour, and a name gets the accent colour exactly when its lower-cased form is not one of them |
| BrandsMarquee.ColorIgnoresCase | src/components/BrandsMarquee.tsx:38 | a name and its lower-cased form get the same colour |
| BrandsMarquee.NextRow | src/components/BrandsMarquee.tsx:19 | the next row is 0 or 1 and differs from a current row in {0, 1} |
| BrandsMarquee.NextRowTwice | src/components/BrandsMarquee.tsx:19 | two steps return to the same row |
| BrandsMarquee.Marquee.Tick | src/components/BrandsMarquee.tsx:17-21 | the row stays in {0, 1}; it moves to the other row exactly when the strip is not hovered |
| BrandsMarquee.Marquee.MouseEnter | src/components/BrandsMarquee.tsx:45 | hovering pauses the strip without changing the row |
| BrandsMarquee.Marquee.MouseLeave | src/components/BrandsMarquee.tsx:46 | leaving resumes the strip without changing the row |
| BrandsMarquee.Marquee.RowActive | src/components/BrandsMarquee.tsx:53 | exactly one of the two rows is active |
| Navigation.ReturnPath | src/components/SignIn.tsx:88 | the carried non-empty `from`, and `/` otherwise |
| Scenarios.ExplorerIntentSurvivesSignIn | src/components/SignIn.tsx:88-101 | a search interrupted for sign-in returns to `/prediction` on tab 2 with the text and arms the explorer's resume |
| Scenarios.RecommendationsIntentSurvivesSignIn | src/components/SignIn.tsx:88-101 | a budget interrupted for sign-in returns to `/prediction` on tab 1 with the price and arms the recommendations resume |
| Scenarios.PredictionIntentSurvivesSignIn | src/components/SignIn.tsx:88-101 | a prediction interrupted for sign-in returns to `/prediction` with the whole form and arms its resume |
| Scenarios.IntentsSurviveSignUp | src/components/SignUp.tsx:136-144 | if sign-up were reached with carried state, all three intents would arm their resume rules, with the tab dropped; no link to `/signup` in the app carries state, so this path does not arise |
| Scenarios.InterruptedSearch | src/components/CaraExplorer.tsx:27-74 | a signed-out search sends nothing. After sign-in, effects run twice over send the term once and only once |
| Scenarios.InterruptedRecommendation | src/components/Recommendations.tsx:59-128 | a signed-out budget search sends nothing. After sign-in, exactly one request for the Toman amount is sent |
| Scenarios.InterruptedPrediction | src/components/PredictPrice.tsx:88-131 | a signed-out prediction sends nothing. After sign-in with a token it is sent once. A refresh with the rewritten state sends nothing |

## Left out

- Network I/O (`fetch` and the API helpers). Each request is a log entry and
  each settled reply is a parameter; the model treats a request and its reply
  as one step. `searchCars` is not part of this model; its rejection is
  either an `Error` with a message or something else.
- SweetAlert dialogs become a `confirmed` parameter, and `console` logging is
  dropped.
- React's effect scheduling, re-renders and the interleaving of
  asynchronous handlers. An effect is a method the caller invokes.
- `navigate` and router internals. A navigation is the value
  `Navigation.Navigation`, and the view's `location` field stands for the
  state it lands on. A state-clearing `navigate(pathname, { replace: true })`
  becomes `location := None`.
- `src/components/Prediction.tsx`. It uses a random mock prediction and
  floating point, and mounts none of the modelled views, so which tab opens
  is not modelled. The scenarios mount the views with the carried state
  directly. In the prediction scenario, the form is assumed to be passed in
  again by the parent.
- Floating point. Prices, years and amounts are integers, and the 0.1 step of
  the body-health slider is not modelled.
- JsText.ParseNumber: `Number()` is modelled only for strings of ASCII
  digits, with "" as 0. Leading or trailing whitespace, signs, decimals, hex
  and exponents all count as NaN here. Precision loss above 2^53 is not
  modelled.
- `toLocaleString` grouping of the Rial price is left out. Only the value
  (10 × the listing price) is modelled.
- String lengths count code points rather than UTF-16 units. For text outside
  the Basic Multilingual Plane the two differ: a password of four emoji has
  JavaScript length 8 and passes the length rule in the app, but has length 4
  and is "too short" in the model.
- The regular-expression engine. The email pattern, `\D`, the grouping
  replacement and `trim` are explicit predicates and functions. `\s` and
  `trim` share the ECMAScript set of white space and line terminators.
- BrandsMarquee.ToLower: only A–Z are lower-cased. Other scripts' case
  mappings of `toLowerCase` are not modelled.
- BrandsMarquee.GetBrandColor: the `in` operator also finds inherited names
  such as `constructor`. Those names would give a non-colour value; the model
  gives them the accent colour.
- AuthCommon.AssembleErrorMessage: a `detail` holding an array or any other
  non-string is treated as absent. The model's JSON values are strings, lists
  of strings and `null`; numbers, booleans and nested objects are not
  modelled.
- AuthCommon.TruthyField: token fields count as present only as non-empty
  strings. Other truthy JSON values are not modelled.
- SignUp.SignUpPage.HandleSubmit: the text of the error dialog after a failed
  automatic sign-in is not modelled; only the navigation to `/signin` is.
- The `setInterval` timer of the marquee is left out. `Tick` is one firing of
  it.
- The theme toggle on the sign-in and sign-up pages and its `themechange`
  listeners are left out. Theme.Page.GetTheme assumes a window; the
  no-window answer (dark) is stated only through `Theme.Preferred`.
- PredictPrice.PredictPriceView.ResumeEffect: the effect navigates with a
  freshly built state object and depends on `location.state`. The state still
  holds `formData`, so in React each run's navigation would trigger another
  run, without end (read from the code, not executed). The model treats
  carried state as a value, so a second run finds nothing armed and the loop
  is not visible.
- Sign-up with carried state: every link to `/signup` (the sign-in page, the
  header, the pricing page) carries none, so `SignUp.ResumeAfterSignUp`
  always lands on `/` in the app; Scenarios.IntentsSurviveSignUp covers a
  path the app does not reach.
- Markup, styling and the presentational components are left out.
