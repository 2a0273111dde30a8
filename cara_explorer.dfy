/**
 * The market-search tab (src/components/CaraExplorer.tsx): a free-text
 * search gated on sign-in, carried through sign-in and replayed once on
 * return, and the listings shown in Rial.
 */
module CaraExplorer {
  import opened Wrappers
  import opened JsText
  import opened Navigation
  import Storage
  import Recommendations

  const SearchField := "searchInput"
  /** The tab index of this view on the prediction page. */
  const ExplorerTab := 2
  const SearchFailedMessage := "Failed to search cars"
  const NotSearchedText := "Enter a car name above to explore available listings"
  const NothingFoundText := "No cars found matching your search. Try a different keyword"

  /** One listing; `price` is in Toman. */
  datatype Listing = Listing(name: string, image: string, link: string, source: string, price: int)

  /** The settled `searchCars` call: the listings, or a rejection carrying an `Error`'s message or something else. */
  datatype Reply = Found(data: seq<Listing>) | SearchFailed(message: Option<string>)

  /** The price shown for a listing, in Rial: it converts back to the listing's Toman price. */
  function RialPrice(listing: Listing): (rial: int)
    ensures Recommendations.RialToToman(rial) == listing.price
    ensures rial % 10 == 0
  {
    listing.price * 10
  }

  /** The message shown for a failed search: the `Error`'s own message, else the fixed text. */
  function FailureText(message: Option<string>): (text: string)
    ensures message.Some? ==> text == message.value
    ensures message.None? ==> text == SearchFailedMessage
  {
    message.GetOr(SearchFailedMessage)
  }

  /** The carried state asks for a replay: `justSignedIn` with a non-empty carried search. */
  predicate ResumeArmed(state: Option<NavState>): (armed: bool)
    ensures armed <==> state.Some? && state.value.justSignedIn && state.value.formData.Some?
                       && SearchField in state.value.formData.value && state.value.formData.value[SearchField] != ""
  {
    state.Some? && state.value.justSignedIn && CarriedField(state, SearchField) != ""
  }

  /** The navigation to sign-in that keeps the search text and names this tab. */
  function SignInIntent(searchInput: string): (nav: Navigation)
    ensures nav.path == SignInPath && !nav.replace && nav.state.Some?
    ensures nav.state.value.from == Some(PredictionPath) && nav.state.value.activeTab == Some(ExplorerTab)
    ensures CarriedField(nav.state, SearchField) == searchInput
    ensures !nav.state.value.justSignedIn && !nav.state.value.autoSubmit
  {
    Navigation(SignInPath, Some(NavState(Some(PredictionPath), Some(map[SearchField := searchInput]), false, false, Some(ExplorerTab))), false)
  }

  /** What the results area shows. */
  datatype Panel = Loading | ErrorPanel(message: string) | Results(listings: seq<Listing>) | Placeholder(text: string)

  /** The results area: spinner, then a non-empty error, then listings from a search, else a hint. */
  function PanelOf(isSearching: bool, error: Option<string>, hasSearched: bool, results: seq<Listing>): (p: Panel)
    ensures p.Loading? <==> isSearching
    ensures p.ErrorPanel? <==> !isSearching && error.Some? && error.value != ""
    ensures p.ErrorPanel? ==> p.message == error.value
    ensures p.Results? ==> p.listings == results && hasSearched && results != []
    ensures p.Placeholder? ==> p.text == (if hasSearched then NothingFoundText else NotSearchedText)
    ensures !isSearching && (error.None? || error == Some("")) && hasSearched && results != [] ==> p == Results(results)
  {
    if isSearching then Loading
    else if error.Some? && error.value != "" then ErrorPanel(error.value)
    else if hasSearched && results != [] then Results(results)
    else Placeholder(if hasSearched then NothingFoundText else NotSearchedText)
  }

  class CaraExplorerView {
    const storage: Storage.LocalStorage
    /** `location.state` of the page. */
    var location: Option<NavState>
    var searchInput: string
    var shouldAutoSubmit: bool
    var searchResults: seq<Listing>
    var isSearching: bool
    var error: Option<string>
    var hasSearched: bool
    /** Every `searchCars` call, by the text sent. */
    var requests: seq<string>
    var navigation: Option<Navigation>
    /** Requests made by the auto-submit effect. */
    ghost var replays: nat

    /** At most one replay: a replay spends the flag, and the flag spends the armed carried state. */
    ghost predicate Valid()
      reads this
    {
      replays + (if shouldAutoSubmit then 1 else 0) + (if ResumeArmed(location) then 1 else 0) <= 1
    }

    constructor (storage: Storage.LocalStorage, location: Option<NavState>)
      ensures Valid()
      ensures this.storage == storage && this.location == location
      ensures searchInput == CarriedField(location, SearchField)
      ensures !shouldAutoSubmit && searchResults == [] && !isSearching && error.None? && !hasSearched
      ensures requests == [] && navigation.None? && replays == 0
    {
      this.storage := storage;
      this.location := location;
      searchInput := CarriedField(location, SearchField);
      shouldAutoSubmit := false;
      searchResults := [];
      isSearching := false;
      error := None;
      hasSearched := false;
      requests := [];
      navigation := None;
      replays := 0;
    }

    /** The search after the sign-in gate, settled with `reply`; the text is sent untrimmed. */
    method Search(reply: Reply)
      modifies this
      ensures requests == old(requests) + [searchInput]
      ensures !isSearching
      ensures reply.Found? ==> searchResults == reply.data && hasSearched && error.None?
      ensures reply.SearchFailed? ==>
        searchResults == [] && hasSearched == old(hasSearched) && error == Some(FailureText(reply.message))
      ensures location == old(location) && searchInput == old(searchInput) && shouldAutoSubmit == old(shouldAutoSubmit)
      ensures navigation == old(navigation) && replays == old(replays)
    {
      isSearching := true;
      error := None;
      searchResults := [];
      requests := requests + [searchInput];
      match reply {
        case Found(data) =>
          searchResults := data;
          hasSearched := true;
        case SearchFailed(message) =>
          error := Some(FailureText(message));
      }
      isSearching := false;
    }

    /** The sign-in gate of `handleSubmit`, reached with non-blank text. */
    method Gate(confirmed: bool, reply: Reply)
      modifies this
      ensures location == old(location) && searchInput == old(searchInput) && shouldAutoSubmit == old(shouldAutoSubmit)
      ensures replays == old(replays)
      ensures !storage.HasToken() && !shouldAutoSubmit ==>
        && requests == old(requests) && searchResults == old(searchResults) && isSearching == old(isSearching)
        && error == old(error) && hasSearched == old(hasSearched)
        && navigation == (if confirmed then Some(SignInIntent(searchInput)) else old(navigation))
      ensures storage.HasToken() || shouldAutoSubmit ==>
        && requests == old(requests) + [searchInput] && !isSearching && navigation == old(navigation)
        && (reply.Found? ==> searchResults == reply.data && hasSearched && error.None?)
        && (reply.SearchFailed? ==> searchResults == [] && hasSearched == old(hasSearched) && error == Some(FailureText(reply.message)))
    {
      if !storage.HasToken() && !shouldAutoSubmit {
        if confirmed {
          navigation := Some(SignInIntent(searchInput));
        }
        return;
      }
      Search(reply);
    }

    /**
     * `handleSubmit`: nothing for blank text; otherwise without a token,
     * and unless auto-submitting, no search is made and confirming the
     * prompt goes to sign-in with the text.
     */
    method HandleSubmit(confirmed: bool, reply: Reply)
      requires Valid()
      modifies this
      ensures Valid()
      ensures location == old(location) && searchInput == old(searchInput) && shouldAutoSubmit == old(shouldAutoSubmit)
      ensures replays == old(replays)
      ensures |requests| > |old(requests)| ==> Trim(searchInput) != "" && (storage.HasToken() || shouldAutoSubmit)
      ensures Trim(searchInput) == "" ==>
        && requests == old(requests) && navigation == old(navigation) && searchResults == old(searchResults)
        && error == old(error) && hasSearched == old(hasSearched) && isSearching == old(isSearching)
      ensures Trim(searchInput) != "" && !storage.HasToken() && !shouldAutoSubmit ==>
        && requests == old(requests) && searchResults == old(searchResults) && isSearching == old(isSearching)
        && error == old(error) && hasSearched == old(hasSearched)
        && navigation == (if confirmed then Some(SignInIntent(searchInput)) else old(navigation))
      ensures Trim(searchInput) != "" && (storage.HasToken() || shouldAutoSubmit) ==>
        && requests == old(requests) + [searchInput] && !isSearching && navigation == old(navigation)
        && (reply.Found? ==> searchResults == reply.data && hasSearched && error.None?)
        && (reply.SearchFailed? ==> searchResults == [] && hasSearched == old(hasSearched) && error == Some(FailureText(reply.message)))
    {
      if Trim(searchInput) != "" {
        Gate(confirmed, reply);
      }
    }

    /** The effect on `location.state`: take the carried text, arm the auto-submit once and clear the state. */
    method ResumeEffect()
      requires Valid()
      modifies this
      ensures Valid()
      ensures !ResumeArmed(location)
      ensures ResumeArmed(old(location)) ==>
        shouldAutoSubmit && searchInput == CarriedField(old(location), SearchField) && location.None?
      ensures !ResumeArmed(old(location)) ==>
        location == old(location) && searchInput == old(searchInput) && shouldAutoSubmit == old(shouldAutoSubmit)
      ensures requests == old(requests) && replays == old(replays) && navigation == old(navigation)
      ensures searchResults == old(searchResults) && isSearching == old(isSearching)
      ensures error == old(error) && hasSearched == old(hasSearched)
    {
      if ResumeArmed(location) {
        shouldAutoSubmit := true;
        searchInput := CarriedField(location, SearchField);
        location := None;
      }
    }

    /** The effect on the flag and the text: submit once when the text is not blank, then drop the flag. */
    method AutoSubmitEffect(reply: Reply)
      requires Valid()
      modifies this
      ensures Valid()
      ensures location == old(location) && searchInput == old(searchInput) && navigation == old(navigation)
      ensures old(shouldAutoSubmit) && Trim(searchInput) != "" ==>
        && requests == old(requests) + [searchInput] && !shouldAutoSubmit
        && replays == old(replays) + 1 && !isSearching
        && (reply.Found? ==> searchResults == reply.data && hasSearched && error.None?)
        && (reply.SearchFailed? ==> searchResults == [] && hasSearched == old(hasSearched) && error == Some(FailureText(reply.message)))
      ensures !(old(shouldAutoSubmit) && Trim(searchInput) != "") ==>
        && requests == old(requests) && shouldAutoSubmit == old(shouldAutoSubmit) && replays == old(replays)
        && searchResults == old(searchResults) && isSearching == old(isSearching)
        && error == old(error) && hasSearched == old(hasSearched)
    {
      if shouldAutoSubmit && Trim(searchInput) != "" {
        // `handleSubmit` passes its blank-text check and its sign-in gate here
        Search(reply);
        shouldAutoSubmit := false;
        replays := replays + 1;
      }
    }

    /** The input's `onChange`: the text is kept as typed. */
    method HandleInput(text: string)
      requires Valid()
      modifies this
      ensures Valid()
      ensures searchInput == text
      ensures location == old(location) && shouldAutoSubmit == old(shouldAutoSubmit) && replays == old(replays)
      ensures requests == old(requests) && navigation == old(navigation)
      ensures searchResults == old(searchResults) && isSearching == old(isSearching)
      ensures error == old(error) && hasSearched == old(hasSearched)
    {
      searchInput := text;
    }

    /** The search button is disabled while searching or when the text is blank. */
    predicate SubmitDisabled(): (disabled: bool)
      reads this
      ensures disabled <==> isSearching || AllWhitespace(searchInput)
    {
      isSearching || Trim(searchInput) == ""
    }

    function Shown(): Panel
      reads this
    {
      PanelOf(isSearching, error, hasSearched, searchResults)
    }
  }
}
