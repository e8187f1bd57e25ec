/**
 * The artist search of the home page. Every value of the search box that
 * survives the debounce reaches the search pipeline; a value equal to the
 * previous one is dropped, a short one clears the results, and a longer one
 * starts a search that replaces any search still running. Timing and the
 * answers of the searches are parameters.
 */
module Home {
  import opened Wrappers
  import opened Models

  /** Queries shorter than this start no search. */
  const MinQueryLength := 2
  const SearchFailedMessage := "Failed to search artists"

  /** The message shown for a failed search: the error's own message, or the default. */
  function FailureText(message: string): (t: string)
    ensures t != ""
    ensures message != "" ==> t == message
  {
    if message != "" then message else SearchFailedMessage
  }

  class HomePage {
    /** The search box and the values it has emitted, in order. */
    var searchText: string
    var emitted: seq<string>
    /** The last query that passed `distinctUntilChanged`. */
    var lastQuery: Option<string>
    /** The number of the search whose answer the pipeline waits for, if any. */
    var inFlight: Option<nat>
    var nextRequest: nat
    var artists: seq<Artist>
    var loading: bool
    var error: Option<string>
    var selectedArtist: Option<Artist>

    /** A search is awaited exactly while the page is loading, and its number was handed out. */
    predicate Valid()
      reads this
    {
      && (inFlight.Some? <==> loading)
      && (inFlight.Some? ==> inFlight.value < nextRequest)
    }

    constructor ()
      ensures Valid()
      ensures searchText == "" && emitted == [] && lastQuery == None && inFlight == None
      ensures artists == [] && !loading && error == None && selectedArtist == None
    {
      searchText := "";
      emitted := [];
      lastQuery := None;
      inFlight := None;
      nextRequest := 0;
      artists := [];
      loading := false;
      error := None;
      selectedArtist := None;
    }

    /** `searchControl.setValue(text)`, or the user typing: the box changes and emits its value. */
    method SetValue(text: string)
      modifies this
      ensures searchText == text && emitted == old(emitted) + [text]
      ensures lastQuery == old(lastQuery) && inFlight == old(inFlight) && nextRequest == old(nextRequest)
      ensures artists == old(artists) && loading == old(loading) && error == old(error)
      ensures selectedArtist == old(selectedArtist)
    {
      searchText := text;
      emitted := emitted + [text];
    }

    /**
     * A debounced value reaches the pipeline. A repeat of the previous query
     * does nothing; a query shorter than two characters clears results and
     * error and cancels a running search; a longer one starts search number
     * `request` and cancels the one before it.
     */
    method QueryReached(query: string) returns (request: Option<nat>)
      requires Valid()
      modifies this
      ensures Valid()
      ensures old(lastQuery) == Some(query) ==>
        && request == None && lastQuery == old(lastQuery) && inFlight == old(inFlight)
        && artists == old(artists) && loading == old(loading) && error == old(error)
      ensures old(lastQuery) != Some(query) && |query| < MinQueryLength ==>
        && request == None && lastQuery == Some(query) && inFlight == None
        && artists == [] && !loading && error == None
      ensures old(lastQuery) != Some(query) && |query| >= MinQueryLength ==>
        && request == Some(old(nextRequest)) && lastQuery == Some(query) && inFlight == request
        && artists == old(artists) && loading && error == None
      ensures request.Some? ==> nextRequest == old(nextRequest) + 1
      ensures request.None? ==> nextRequest == old(nextRequest)
      ensures searchText == old(searchText) && emitted == old(emitted) && selectedArtist == old(selectedArtist)
    {
      if lastQuery == Some(query) {
        return None;
      }
      lastQuery := Some(query);
      if |query| < MinQueryLength {
        // the empty result of `of([])` reaches the subscriber at once
        artists := [];
        error := None;
        inFlight := None;
        loading := false;
        return None;
      }
      loading := true;
      error := None;
      request := Some(nextRequest);
      inFlight := request;
      nextRequest := nextRequest + 1;
    }

    /**
     * The answer of search number `request`. Only the search still awaited
     * has any effect: its artists, or no artists and the failure's message.
     */
    method SearchAnswered(request: nat, answer: Outcome<seq<Artist>>)
      requires Valid()
      modifies this
      ensures Valid()
      ensures old(inFlight) != Some(request) ==>
        inFlight == old(inFlight) && artists == old(artists) && loading == old(loading) && error == old(error)
      ensures old(inFlight) == Some(request) && answer.Ok? ==>
        inFlight == None && artists == answer.value && !loading && error == old(error)
      ensures old(inFlight) == Some(request) && answer.Err? ==>
        inFlight == None && artists == [] && !loading && error == Some(FailureText(answer.message))
      ensures lastQuery == old(lastQuery) && nextRequest == old(nextRequest)
      ensures searchText == old(searchText) && emitted == old(emitted) && selectedArtist == old(selectedArtist)
    {
      if inFlight != Some(request) {
        return;
      }
      match answer {
        case Ok(found) =>
          artists := found;
        case Err(message) =>
          error := Some(FailureText(message));
          artists := [];
      }
      loading := false;
      inFlight := None;
    }

    /** `selectArtist`: the selection is kept, its name fills the box (which emits it) and the results close. */
    method SelectArtist(artist: Artist)
      modifies this
      ensures selectedArtist == Some(artist) && artists == []
      ensures searchText == artist.name && emitted == old(emitted) + [artist.name]
      ensures lastQuery == old(lastQuery) && inFlight == old(inFlight) && nextRequest == old(nextRequest)
      ensures loading == old(loading) && error == old(error)
    {
      selectedArtist := Some(artist);
      SetValue(artist.name);
      artists := [];
    }

    /** `clearSearch`: box, selection, results and error are emptied; the empty value is emitted. */
    method ClearSearch()
      modifies this
      ensures searchText == "" && emitted == old(emitted) + [""]
      ensures selectedArtist == None && artists == [] && error == None
      ensures lastQuery == old(lastQuery) && inFlight == old(inFlight) && nextRequest == old(nextRequest)
      ensures loading == old(loading)
    {
      SetValue("");
      selectedArtist := None;
      artists := [];
      error := None;
    }
  }

  /**
   * A search overtaken by a newer query is ignored: whatever its answer, the
   * results are those of the newer search.
   */
  method SupersededSearch(first: string, second: string, late: Outcome<seq<Artist>>, found: seq<Artist>)
    returns (shown: seq<Artist>)
    requires |first| >= MinQueryLength && |second| >= MinQueryLength && first != second
    ensures shown == found
  {
    var page := new HomePage();
    var r1 := page.QueryReached(first);
    var r2 := page.QueryReached(second);
    page.SearchAnswered(r2.value, Ok(found));
    page.SearchAnswered(r1.value, late);
    shown := page.artists;
  }
}
