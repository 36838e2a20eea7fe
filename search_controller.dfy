/**
 * The shapes of the Deezer search API as script.js consumes them: the
 * track fields it reads, the response body, and the body the passthrough
 * proxy answers with.
 */
module Deezer {
  import opened Wrappers

  /** A track of a Deezer search result (the fields the player reads; `artist.name`, `album.*` flattened). */
  datatype Track = Track(
    id: int,
    title: string,
    artistName: string,
    albumTitle: string,
    coverMedium: string,
    coverBig: string,
    cover: string,
    duration: int,      // whole seconds
    preview: string,    // URL of the 30-second preview; "" when there is none
    link: string)

  /** The `error` object of an error-shaped response; an empty message stands for a missing one. */
  datatype ApiError = ApiError(message: string)

  /** A search response body: `error` when the API reports one, and the `data` list (an absent list reads as empty). */
  datatype Payload = Payload(error: Option<ApiError>, data: seq<Track>)

  /**
   * What the proxy answers: an envelope whose non-empty `contents` text
   * parses to a payload (None when it is not valid JSON), or any other
   * body, which is taken as the payload itself.
   */
  datatype ProxyBody = Envelope(contents: Option<Payload>) | Bare(payload: Payload)
}

/**
 * The search path of script.js (script.js:37-225): the input handler's
 * debounce gate, the cache lookup, the single global abort slot
 * `currentSearchController`, the direct call, the proxy fallback and the
 * 5 s timeout, as a state machine whose events are the callbacks the
 * browser runs. Each AbortController is a number: search `n` creates
 * controller `n`.
 */
module SearchController {
  import opened Wrappers
  import opened JsBuiltins
  import opened Deezer
  import SearchCache

  /**
   * How a fetch settles: a parsed body from an OK response, a response
   * that is not OK, any other failure (network, unreadable body), or an
   * AbortError because its signal's controller was aborted.
   */
  datatype Reply<B> = Answer(body: B) | NotOk | Failure | Aborted

  /** How a search ends. Only Failed is reported as an error; Cancelled is swallowed. */
  datatype Outcome = Found(tracks: seq<Track>) | NoResults | Failed(message: string) | Cancelled

  /** After the direct call: either the search is decided, or the proxy is tried. */
  datatype Step = Decided(outcome: Outcome) | TryProxy

  const UnableToConnect := "Unable to connect to search service"

  /** What a response body comes to once it is in hand (script.js:190-212). */
  function Classify(p: Payload): (o: Outcome)
    ensures o.Failed? <==> p.error.Some?
    ensures o.Failed? ==> o.message != []
    ensures o.Found? <==> p.error.None? && |p.data| > 0
    ensures o.Found? ==> o.tracks == p.data
    ensures o.NoResults? <==> p.error.None? && |p.data| == 0
  {
    if p.error.Some? then Failed(if p.error.value.message == [] then "API error" else p.error.value.message)
    else if |p.data| > 0 then Found(p.data)
    else NoResults
  }

  /**
   * The direct call (script.js:140-157): an AbortError is rethrown and
   * ends the search; a usable payload decides it; no data, or an
   * error-shaped payload, sends the search to the proxy.
   */
  function AfterDirect(direct: Reply<Payload>): (s: Step)
    ensures direct.Aborted? ==> s == Decided(Cancelled)
    ensures s.TryProxy? <==> !direct.Aborted? && (!direct.Answer? || direct.body.error.Some?)
    ensures direct.Answer? && direct.body.error.None? ==> s == Decided(Classify(direct.body))
  {
    match direct
    case Aborted => Decided(Cancelled)
    case Answer(p) => if p.error.Some? then TryProxy else Decided(Classify(p))
    case NotOk => TryProxy
    case Failure => TryProxy
  }

  /** The proxy's body unwrapped (script.js:173-179): `contents` is parsed, any other body is used as it is. */
  function Unwrap(b: ProxyBody): Option<Payload> {
    match b
    case Envelope(parsed) => parsed
    case Bare(p) => Some(p)
  }

  /**
   * The proxy call (script.js:158-192): an AbortError is rethrown; every
   * other failure, an unparseable envelope included, becomes "Unable to
   * connect to search service"; a body is unwrapped and classified.
   */
  function AfterProxy(proxy: Reply<ProxyBody>): (o: Outcome)
    ensures proxy.Aborted? <==> o.Cancelled?
    ensures proxy.NotOk? || proxy.Failure? ==> o == Failed(UnableToConnect)
    ensures proxy.Answer? && Unwrap(proxy.body).None? ==> o == Failed(UnableToConnect)
    ensures proxy.Answer? && Unwrap(proxy.body).Some? ==> o == Classify(Unwrap(proxy.body).value)
  {
    match proxy
    case Aborted => Cancelled
    case NotOk => Failed(UnableToConnect)
    case Failure => Failed(UnableToConnect)
    case Answer(b) => if Unwrap(b).None? then Failed(UnableToConnect) else Classify(Unwrap(b).value)
  }

  /** The whole transport of one undisturbed search: the direct reply, then the proxy's if it is asked. */
  function Resolve(direct: Reply<Payload>, proxy: Reply<ProxyBody>): Outcome {
    match AfterDirect(direct)
    case Decided(o) => o
    case TryProxy => AfterProxy(proxy)
  }

  /**
   * The proxy is consulted exactly when the direct call produced no
   * data or an error-shaped payload: otherwise the proxy's reply cannot
   * change the outcome, and then the outcome is the proxy's.
   */
  lemma ProxyTriedIff(direct: Reply<Payload>, proxy: Reply<ProxyBody>, other: Reply<ProxyBody>)
    ensures !direct.Aborted? && (!direct.Answer? || direct.body.error.Some?) ==>
      Resolve(direct, proxy) == AfterProxy(proxy)
    ensures direct.Aborted? || (direct.Answer? && direct.body.error.None?) ==>
      Resolve(direct, proxy) == Resolve(direct, other)
  {
  }

  /** An AbortError from either call cancels the search, and cancelling takes an abort. */
  lemma CancelledIffAborted(direct: Reply<Payload>, proxy: Reply<ProxyBody>)
    ensures Resolve(direct, proxy).Cancelled? <==>
      direct.Aborted? || (AfterDirect(direct).TryProxy? && proxy.Aborted?)
  {
  }

  /** An envelope and the payload it wraps give the same outcome. */
  lemma EnvelopeIsTransparent(p: Payload)
    ensures AfterProxy(Answer(Envelope(Some(p)))) == AfterProxy(Answer(Bare(p))) == Classify(p)
  {
  }

  /** What `#searchResults` shows. */
  datatype ResultsView = Blank | Searching | Results(tracks: seq<Track>) | NoResultsMessage | ErrorMessage(message: string)

  /** The suggestions drop-down under the search box. */
  datatype SuggestionsView = Hidden | Shown(tracks: seq<Track>)

  datatype Screen = Screen(results: ResultsView, suggestions: SuggestionsView)

  /** A result list put on screen: the drop-down for a suggestion search, the results area otherwise. */
  function Display(s: Screen, tracks: seq<Track>, suggestions: bool): (r: Screen)
    ensures suggestions ==> r.results == s.results && r.suggestions == (if tracks == [] then s.suggestions else Shown(tracks))
    ensures !suggestions ==> r == s.(results := Results(tracks))
  {
    if suggestions then (if tracks == [] then s else s.(suggestions := Shown(tracks)))
    else s.(results := Results(tracks))
  }

  /**
   * What a finished search leaves on screen (script.js:203-221): the
   * results; "no results" and error messages only for an explicit search;
   * nothing at all for a cancelled one.
   */
  function Reported(s: Screen, o: Outcome, suggestions: bool): (r: Screen)
    ensures o.Cancelled? ==> r == s
    ensures suggestions ==> r.results == s.results
    ensures !suggestions ==> r.suggestions == s.suggestions
    ensures suggestions && !o.Found? ==> r == s
    ensures !suggestions && o.NoResults? ==> r.results == NoResultsMessage
    ensures !suggestions && o.Failed? ==> r.results == ErrorMessage(o.message)
    ensures o.Found? ==> r == Display(s, o.tracks, suggestions)
  {
    match o
    case Found(ts) => Display(s, ts, suggestions)
    case NoResults => if suggestions then s else s.(results := NoResultsMessage)
    case Failed(m) => if suggestions then s else s.(results := ErrorMessage(m))
    case Cancelled => s
  }

  /** Where a started search is waiting: on its direct fetch, or on its proxy fetch listening to controller `signal`. */
  datatype Stage = AwaitingDirect | AwaitingProxy(signal: nat)

  /** A search between its first await and its `finally`. */
  datatype Flight = Flight(key: string, suggestions: bool, stage: Stage)


  /** The controller in a slot, as a set: what `slot?.abort()` aborts. */
  function Slot(slot: Option<nat>): set<nat> {
    if slot.Some? then {slot.value} else {}
  }

  /** The search box and the module-level state script.js keeps for it. */
  class SearchBox {
    var input: string                                   // searchInput.value
    var lastQuery: string                               // lastQuery
    var debouncePending: bool                           // searchTimeout armed
    var cache: SearchCache.Cache<seq<Track>>            // searchCache
    var controller: Option<nat>                         // currentSearchController
    var aborted: set<nat>                               // controllers whose abort() has run
    var created: nat                                    // controllers created so far
    var flights: map<nat, Flight>                       // searches awaiting a fetch
    var timers: set<nat>                                // searches whose 5 s timeout is still armed
    var screen: Screen

    /**
     * The cache keeps at most 50 keys and holds only non-empty result
     * lists; the slot holds nothing or the controller of a search still in
     * flight; every controller mentioned has been created.
     */
    ghost predicate Valid()
      reads this
    {
      && SearchCache.Valid(cache) && |cache.order| <= SearchCache.Limit
      && (forall k :: k in cache.entries ==> cache.entries[k] != [])
      && (controller.Some? ==> controller.value in flights)
      && (forall id :: id in flights ==> id < created)
      && (forall id :: id in timers ==> id < created)
      && (forall id :: id in aborted ==> id < created)
    }

    /** Nothing of the search machinery changed: only the input, the query gate and the screen may have. */
    twostate predicate SearchesUnchanged()
      reads this
    {
      && cache == old(cache) && controller == old(controller) && aborted == old(aborted)
      && created == old(created) && flights == old(flights) && timers == old(timers)
    }

    /**
     * The effect of `performSearch(suggestions)` (script.js:102-135), run
     * when the aborted controllers are `before`: a blank query clears the
     * results; a cached key displays the cached list; otherwise the slot's
     * controller is aborted, a new one takes the slot, "Searching..." is
     * shown for an explicit search, the 5 s timeout is armed and the
     * direct fetch is in flight.
     */
    twostate predicate Performed(suggestions: bool, before: set<nat>)
      reads this
    {
      PerformedFrom(old(input), old(screen), suggestions, before)
    }

    /**
     * `Performed`, for a search whose box held `value` and whose screen
     * was `start` when performSearch began, the rest of the state being
     * the old one.
     */
    twostate predicate PerformedFrom(value: string, start: Screen, suggestions: bool, before: set<nat>)
      reads this
    {
      var q := Trim(value);
      var key := SearchCache.Key(q, suggestions);
      && input == value && lastQuery == old(lastQuery) && cache == old(cache)
      && if q == [] then
           && controller == old(controller) && aborted == before && created == old(created)
           && flights == old(flights) && timers == old(timers)
           && screen == start.(results := Blank)
         else if key in old(cache.entries) then
           && controller == old(controller) && aborted == before && created == old(created)
           && flights == old(flights) && timers == old(timers)
           && screen == Display(start, old(cache.entries)[key], suggestions)
         else
           && created == old(created) + 1 && controller == Some(old(created))
           && aborted == before + Slot(old(controller))
           && flights == old(flights)[old(created) := Flight(key, suggestions, AwaitingDirect)]
           && timers == old(timers) + {old(created)}
           && screen == (if suggestions then start else start.(results := Searching))
    }

    /**
     * The end of search `id` with outcome `o` (script.js:189-224): a found
     * list is cached and displayed, the outcome is reported, the `finally`
     * empties the slot whoever holds it, and the search is no longer in
     * flight. The armed timers are stated by the caller.
     */
    twostate predicate Finished(id: nat, o: Outcome)
      reads this
    {
      && id in old(flights)
      && var f := old(flights)[id];
      && cache == (if o.Found? then SearchCache.Remember(old(cache), f.key, o.tracks) else old(cache))
      && screen == Reported(old(screen), o, f.suggestions)
      && controller == None
      && flights == old(flights) - {id}
      && input == old(input) && lastQuery == old(lastQuery) && debouncePending == old(debouncePending)
      && aborted == old(aborted) && created == old(created)
    }

    constructor ()
      ensures Valid()
      ensures input == [] && lastQuery == [] && !debouncePending
      ensures cache == SearchCache.Empty() && controller == None && aborted == {} && created == 0
      ensures flights == map[] && timers == {} && screen == Screen(Blank, Hidden)
    {
      input, lastQuery, debouncePending := [], [], false;
      cache := SearchCache.Empty();
      controller, aborted, created := None, {}, 0;
      flights, timers := map[], {};
      screen := Screen(Blank, Hidden);
    }

    /**
     * The input handler (script.js:60-92): every keystroke cancels the
     * pending debounce and aborts and empties the controller slot; a
     * trimmed query equal to the last one stops there; otherwise the
     * drop-down is hidden and the 250 ms debounce armed when the query is
     * longer than two characters, or the results cleared when it is not.
     */
    method Input(value: string)
      requires Valid()
      modifies this
      ensures Valid()
      ensures input == value && controller == None
      ensures aborted == old(aborted) + Slot(old(controller))
      ensures var q := Trim(value);
        if q == old(lastQuery) then
          lastQuery == old(lastQuery) && !debouncePending && screen == old(screen)
        else
          && lastQuery == q && debouncePending == (|q| > 2)
          && screen == Screen(if |q| > 2 then old(screen.results) else Blank, Hidden)
      ensures cache == old(cache) && created == old(created) && flights == old(flights) && timers == old(timers)
    {
      input := value;
      debouncePending := false;
      if controller.Some? {
        aborted := aborted + {controller.value};
        controller := None;
      }
      var query := Trim(value);
      if query == lastQuery {
        return;
      }
      lastQuery := query;
      screen := screen.(suggestions := Hidden);
      if |query| > 2 {
        debouncePending := true;
      } else {
        screen := Screen(Blank, Hidden);
      }
    }

    /** `performSearch` up to its first await (script.js:102-142). */
    method PerformSearch(suggestions: bool)
      requires Valid()
      modifies this
      ensures Valid()
      ensures Performed(suggestions, old(aborted)) && debouncePending == old(debouncePending)
    {
      var query := Trim(input);
      if query == [] {
        screen := screen.(results := Blank);
        return;
      }
      var key := SearchCache.Key(query, suggestions);
      if key in cache.entries {
        screen := Display(screen, cache.entries[key], suggestions);
      } else {
        Launch(key, suggestions);
      }
    }

    /**
     * A cache miss (script.js:121-142): the slot's controller is aborted,
     * a new controller takes the slot, "Searching..." is shown for an
     * explicit search, the 5 s timeout is armed and the direct fetch is
     * in flight.
     */
    method Launch(key: string, suggestions: bool)
      requires Valid()
      modifies this
      ensures Valid()
      ensures created == old(created) + 1 && controller == Some(old(created))
      ensures aborted == old(aborted) + Slot(old(controller))
      ensures flights == old(flights)[old(created) := Flight(key, suggestions, AwaitingDirect)]
      ensures timers == old(timers) + {old(created)}
      ensures screen == (if suggestions then old(screen) else old(screen).(results := Searching))
      ensures input == old(input) && lastQuery == old(lastQuery) && cache == old(cache)
      ensures debouncePending == old(debouncePending)
    {
      aborted := aborted + Slot(controller);
      var id := created;
      created := created + 1;
      controller := Some(id);
      if !suggestions {
        screen := screen.(results := Searching);
      }
      timers := timers + {id};
      flights := flights[id := Flight(key, suggestions, AwaitingDirect)];
    }

    /** The debounce timer firing: a suggestion search (script.js:83-85); nothing when it was cancelled. */
    method DebounceFires()
      requires Valid()
      modifies this
      ensures Valid()
      ensures !old(debouncePending) ==> unchanged(this)
      ensures old(debouncePending) ==> !debouncePending && Performed(true, old(aborted))
    {
      if debouncePending {
        debouncePending := false;
        PerformSearch(true);
      }
    }

    /** The search button or Enter (script.js:42-56): abort the slot's controller, then an explicit search. */
    method Submit()
      requires Valid()
      modifies this
      ensures Valid()
      ensures Performed(false, old(aborted) + Slot(old(controller))) && debouncePending == old(debouncePending)
    {
      aborted := aborted + Slot(controller);
      PerformSearch(false);
    }

    /**
     * A click on a suggestion (script.js:255-259): fill the box with title
     * and artist, hide the drop-down, and run an explicit search from
     * there. The box is filled by code, so no input event runs: the last
     * query and the debounce stay as they were, and no controller is
     * aborted before performSearch's own abort.
     */
    method SelectSuggestion(title: string, artistName: string)
      requires Valid()
      modifies this
      ensures Valid()
      ensures PerformedFrom(title + " " + artistName, old(screen).(suggestions := Hidden), false, old(aborted))
      ensures debouncePending == old(debouncePending) && screen.suggestions == Hidden
    {
      input := title + " " + artistName;
      screen := screen.(suggestions := Hidden);
      PerformSearch(false);
    }

    /** Search `id` ends: cache and report the outcome, then the `finally` empties the slot. */
    method Finish(id: nat, o: Outcome)
      requires Valid() && id in flights
      requires o.Found? ==> o.tracks != []
      modifies this
      ensures Valid()
      ensures Finished(id, o) && timers == old(timers)
    {
      var f := flights[id];
      if o.Found? {
        SearchCache.RememberBounded(cache, f.key, o.tracks);
        SearchCache.RememberEntries(cache, f.key, o.tracks);
        cache := SearchCache.Remember(cache, f.key, o.tracks);
      }
      screen := Reported(screen, o, f.suggestions);
      controller := None;
      flights := flights - {id};
    }

    /**
     * The direct fetch of search `id` settles (script.js:140-187). Its
     * signal is the search's own controller, so an aborted controller makes
     * it an AbortError whatever the network did. A decided search ends; a
     * search sent to the proxy listens to whatever controller the slot
     * holds now, and an empty slot makes that a TypeError, reported as
     * "Unable to connect". The timeout is cleared by a readable answer and
     * by every proxy failure other than an abort.
     */
    method DirectSettles(id: nat, reply: Reply<Payload>)
      requires Valid()
      modifies this
      ensures Valid()
      ensures id !in old(flights) || !old(flights)[id].stage.AwaitingDirect? ==> unchanged(this)
      ensures id in old(flights) && old(flights)[id].stage.AwaitingDirect? ==>
        var r := if id in old(aborted) then Aborted else reply;
        match AfterDirect(r)
        case Decided(o) =>
          Finished(id, o) && timers == (if r.Answer? then old(timers) - {id} else old(timers))
        case TryProxy =>
          if old(controller).None? then
            Finished(id, Failed(UnableToConnect)) && timers == old(timers) - {id}
          else
            && flights == old(flights)[id := old(flights)[id].(stage := AwaitingProxy(old(controller).value))]
            && timers == (if r.Answer? then old(timers) - {id} else old(timers))
            && cache == old(cache) && controller == old(controller) && aborted == old(aborted)
            && created == old(created) && screen == old(screen)
            && input == old(input) && lastQuery == old(lastQuery) && debouncePending == old(debouncePending)
    {
      if id !in flights || !flights[id].stage.AwaitingDirect? {
        return;
      }
      var r := if id in aborted then Aborted else reply;
      if r.Answer? {
        timers := timers - {id};
      }
      match AfterDirect(r)
      case Decided(o) =>
        Finish(id, o);
      case TryProxy =>
        if controller.None? {
          timers := timers - {id};
          Finish(id, Failed(UnableToConnect));
        } else {
          flights := flights[id := flights[id].(stage := AwaitingProxy(controller.value))];
        }
    }

    /**
     * The proxy fetch of search `id` settles (script.js:158-187): an
     * AbortError when the controller it listens to was aborted, which
     * leaves the timeout armed; otherwise the timeout is cleared and the
     * search ends with the proxy's outcome.
     */
    method ProxySettles(id: nat, reply: Reply<ProxyBody>)
      requires Valid()
      modifies this
      ensures Valid()
      ensures id !in old(flights) || !old(flights)[id].stage.AwaitingProxy? ==> unchanged(this)
      ensures id in old(flights) && old(flights)[id].stage.AwaitingProxy? ==>
        var r := if old(flights)[id].stage.signal in old(aborted) then Aborted else reply;
        Finished(id, AfterProxy(r)) && timers == (if r.Aborted? then old(timers) else old(timers) - {id})
    {
      if id !in flights || !flights[id].stage.AwaitingProxy? {
        return;
      }
      var r := if flights[id].stage.signal in aborted then Aborted else reply;
      if !r.Aborted? {
        timers := timers - {id};
      }
      Finish(id, AfterProxy(r));
    }

    /** The 5 s timeout of search `id` fires (script.js:135): it aborts whatever controller the slot holds now. */
    method TimeoutFires(id: nat)
      requires Valid()
      modifies this
      ensures Valid()
      ensures id !in old(timers) ==> unchanged(this)
      ensures id in old(timers) ==>
        && timers == old(timers) - {id} && aborted == old(aborted) + Slot(old(controller))
        && cache == old(cache) && controller == old(controller) && created == old(created)
        && flights == old(flights) && screen == old(screen)
        && input == old(input) && lastQuery == old(lastQuery) && debouncePending == old(debouncePending)
    {
      if id in timers {
        timers := timers - {id};
        aborted := aborted + Slot(controller);
      }
    }
  }

  // ------------------------------------------------------------ scenarios

  /** The queries of the scenarios below are their own trimmed text. */
  lemma PlainQueries()
    ensures Trim("first") == "first" && Trim("second") == "second" && Trim("third") == "third"
  {
    TrimKeeps("first");
    TrimKeeps("second");
    TrimKeeps("third");
  }

  /**
   * Each keystroke aborts the search in flight, so only the newest
   * suggestion search can fill the drop-down.
   */
  method NewerKeystrokeCancelsOlder(b: seq<Track>, c: seq<Track>) returns (shown: SuggestionsView)
    requires b != [] && c != []
    ensures shown == Shown(c)
  {
    PlainQueries();
    var box := new SearchBox();
    box.Input("second");
    box.DebounceFires();                              // search 0
    assert box.controller == Some(0) && box.created == 1;
    box.Input("third");                               // aborts controller 0
    assert box.aborted == {0} && box.controller == None;
    box.DirectSettles(0, Answer(Payload(None, b)));   // rejected by the abort at once: an AbortError, nothing shown
    assert box.controller == None && box.screen.suggestions == Hidden;
    box.DebounceFires();                              // search 1
    assert box.controller == Some(1) && 1 in box.flights;
    box.DirectSettles(1, Answer(Payload(None, c)));
    shown := box.screen.suggestions;
  }

  /**
   * The `finally` of an aborted search empties the slot while a newer
   * search owns it. The next keystroke then has nothing to abort, and the
   * orphaned search's late answer replaces the newer query's suggestions,
   * although the box holds that newer query.
   */
  method OrphanedSearchShowsStaleSuggestions(b: seq<Track>, c: seq<Track>) returns (shown: SuggestionsView, query: string)
    requires b != [] && c != []
    ensures query == "third" && shown == Shown(b)
  {
    var box := OrphanSearch();
    box.Input("third");                               // the slot is empty: search 1 runs on
    assert box.aborted == {0} && box.lastQuery == "third" && box.debouncePending;
    box.DebounceFires();                              // search 2
    assert box.flights[1].stage == AwaitingDirect && 2 in box.flights && box.flights[2].stage == AwaitingDirect;
    assert 1 !in box.aborted && 2 !in box.aborted;
    box.DirectSettles(2, Answer(Payload(None, c)));
    assert box.flights[1].stage == AwaitingDirect && box.aborted == {0} && box.lastQuery == "third";
    box.DirectSettles(1, Answer(Payload(None, b)));   // the answer for "second"
    shown, query := box.screen.suggestions, box.lastQuery;
  }

  /**
   * A typed query is submitted with the button before its debounce runs
   * out: the explicit search 0 takes the slot, and the debounced
   * suggestion search 1 aborts it and takes the slot in turn
   * (script.js:121-125). The abort rejects fetch 0 at once, so search 0's
   * `finally` runs next and empties the slot that search 1 now holds.
   */
  method OrphanSearch() returns (box: SearchBox)
    ensures fresh(box) && box.Valid()
    ensures box.lastQuery == "second" && box.cache == SearchCache.Empty() && box.created == 2
    ensures box.controller == None && box.aborted == {0} && box.timers == {0, 1} && box.screen.suggestions == Hidden
    ensures 1 in box.flights && box.flights[1] == Flight(SearchCache.Key("second", true), true, AwaitingDirect)
    ensures 2 !in box.flights
  {
    PlainQueries();
    box := new SearchBox();
    box.Input("second");                              // arms the debounce
    assert box.lastQuery == "second" && box.debouncePending && box.controller == None && box.created == 0;
    box.Submit();                                     // search 0, explicit
    assert box.controller == Some(0) && box.created == 1 && box.aborted == {} && box.debouncePending;
    assert box.cache == SearchCache.Empty() && box.screen.suggestions == Hidden;
    box.DebounceFires();                              // search 1 aborts controller 0 and takes the slot
    assert box.controller == Some(1) && box.created == 2 && box.aborted == {0} && box.timers == {0, 1};
    assert box.flights[1] == Flight(SearchCache.Key("second", true), true, AwaitingDirect) && 2 !in box.flights;
    assert box.cache == SearchCache.Empty() && box.screen.suggestions == Hidden && box.lastQuery == "second";
    box.DirectSettles(0, NotOk);                      // AbortError; its finally empties the slot
  }

  /**
   * An aborted search leaves its 5 s timeout armed; when it fires it
   * aborts the newer explicit search in the slot, whose answer is then
   * swallowed, and "Searching..." stays on screen.
   */
  method StaleTimeoutStrandsNewerSearch(b: seq<Track>) returns (results: ResultsView)
    requires b != []
    ensures results == Searching
  {
    PlainQueries();
    var box := new SearchBox();
    box.Input("first");
    box.Submit();                                     // search 0
    box.Input("second");                              // aborts controller 0
    box.DirectSettles(0, Answer(Payload(None, b)));   // AbortError: the timeout of search 0 stays armed
    box.Submit();                                     // search 1
    box.TimeoutFires(0);                              // aborts controller 1
    box.DirectSettles(1, Answer(Payload(None, b)));
    results := box.screen.results;
  }

  /** A repeated explicit search is answered from the cache, without a new request. */
  method RepeatedSearchIsCached(b: seq<Track>) returns (results: ResultsView, requests: nat)
    requires b != []
    ensures results == Results(b) && requests == 1
  {
    PlainQueries();
    var box := new SearchBox();
    box.Input("first");
    box.Submit();                                     // search 0
    box.DirectSettles(0, Answer(Payload(None, b)));
    box.Submit();                                     // a cache hit
    results, requests := box.screen.results, box.created;
  }

  /** A failed direct call falls back to the proxy, whose envelope is unwrapped and displayed. */
  method ProxyRescuesFailedDirectCall(b: seq<Track>) returns (results: ResultsView)
    requires b != []
    ensures results == Results(b)
  {
    PlainQueries();
    var box := new SearchBox();
    box.Input("first");
    box.Submit();                                     // search 0
    box.DirectSettles(0, Failure);                    // the proxy listens to controller 0
    box.ProxySettles(0, Answer(Envelope(Some(Payload(None, b)))));
    results := box.screen.results;
  }

  /**
   * Two quick explicit searches: the first one's `finally` empties the
   * slot, so when the second one's direct call fails it cannot reach the
   * proxy (the slot has no signal) and reports the connection error.
   */
  method EmptySlotSkipsProxy(b: seq<Track>) returns (results: ResultsView)
    requires b != []
    ensures results == ErrorMessage(UnableToConnect)
  {
    PlainQueries();
    var box := new SearchBox();
    box.Input("first");
    box.Submit();                                     // search 0
    box.Submit();                                     // aborts controller 0; search 1
    box.DirectSettles(0, Answer(Payload(None, b)));   // AbortError; its finally empties the slot
    box.DirectSettles(1, NotOk);
    results := box.screen.results;
  }
}
