/**
 * The App component of the component variant (src/App.jsx): its state
 * (token, track list, current track, time, loading flag), the handlers
 * that change it, and the choice of what to render. Each handler's
 * awaited service call runs to completion inside the handler, its
 * network replies given as parameters.
 */
module SpotifyApp {
  import opened Wrappers
  import opened JsBuiltins
  import opened SpotifyApi
  import TrackList

  // ------------------------------------------------------------ track selection

  /** The first index from `i` on whose track has the id, or -1. */
  function FindFrom(tracks: seq<Track>, id: string, i: nat): (k: int)
    requires i <= |tracks|
    ensures k == -1 || i <= k < |tracks|
    ensures k == -1 ==> forall j :: i <= j < |tracks| ==> tracks[j].id != id
    ensures k >= 0 ==> tracks[k].id == id && forall j :: i <= j < k ==> tracks[j].id != id
    decreases |tracks| - i
  {
    if i == |tracks| then -1
    else if tracks[i].id == id then i
    else FindFrom(tracks, id, i + 1)
  }

  /**
   * `tracks.findIndex(track => track.id === currentTrack?.id)`: the first
   * track with the current track's id, or -1; with no current track the
   * id is undefined, which no track's id equals.
   */
  function FindIndex(tracks: seq<Track>, current: Option<Track>): (k: int)
    ensures -1 <= k < |tracks|
    ensures k == -1 <==> current.None? || forall j :: 0 <= j < |tracks| ==> tracks[j].id != current.value.id
    ensures k >= 0 ==>
      (current.Some? && tracks[k].id == current.value.id && forall j :: 0 <= j < k ==> tracks[j].id != current.value.id)
  {
    if current.None? then -1 else FindFrom(tracks, current.value.id, 0)
  }

  /** With unique ids, a track of the list is found at its own index. */
  lemma FindMember(tracks: seq<Track>, i: nat)
    requires i < |tracks| && TrackList.UniqueIds(tracks)
    ensures FindIndex(tracks, Some(tracks[i])) == i
  {
  }

  /**
   * handleNext's choice (src/App.jsx:142-148): the track after the
   * current one, wrapping at the end; a current track not in the list
   * (index -1) gives the first track. `(k + 1) % n` has a non-negative
   * left operand, so JavaScript's `%` and Dafny's agree.
   */
  function NextTrack(tracks: seq<Track>, current: Option<Track>): (t: Track)
    requires tracks != []
    ensures t in tracks
    ensures FindIndex(tracks, current) == -1 ==> t == tracks[0]
    ensures FindIndex(tracks, current) == |tracks| - 1 ==> t == tracks[0]
    ensures 0 <= FindIndex(tracks, current) < |tracks| - 1 ==> t == tracks[FindIndex(tracks, current) + 1]
  {
    var k := FindIndex(tracks, current);
    WrapOnce(k + 1, |tracks|);
    tracks[(k + 1) % |tracks|]
  }

  /** A count from 0 to n, taken modulo n, is itself except that n wraps to 0. */
  lemma WrapOnce(a: int, n: int)
    requires 0 <= a <= n && n > 0
    ensures a % n == if a == n then 0 else a
  {
  }

  /**
   * handlePrevious's choice (src/App.jsx:150-156): the track before the
   * current one, the last track before the first; a current track not
   * in the list gives index -2, `tracks[-2]` is undefined, and no track
   * is selected.
   */
  function PrevTrack(tracks: seq<Track>, current: Option<Track>): (t: Option<Track>)
    requires tracks != []
    ensures t.Some? <==> FindIndex(tracks, current) >= 0
    ensures FindIndex(tracks, current) == 0 ==> t == Some(tracks[|tracks| - 1])
    ensures FindIndex(tracks, current) > 0 ==> t == Some(tracks[FindIndex(tracks, current) - 1])
  {
    var k := FindIndex(tracks, current);
    var p := if k == 0 then |tracks| - 1 else k - 1;
    if p >= 0 then Some(tracks[p]) else None
  }

  /** With unique ids, Previous undoes Next and Next undoes Previous. */
  lemma NextPrevInverse(tracks: seq<Track>, i: nat)
    requires i < |tracks| && TrackList.UniqueIds(tracks)
    ensures PrevTrack(tracks, Some(NextTrack(tracks, Some(tracks[i])))) == Some(tracks[i])
    ensures PrevTrack(tracks, Some(tracks[i])).Some?
    ensures NextTrack(tracks, PrevTrack(tracks, Some(tracks[i]))) == tracks[i]
  {
    var n := |tracks|;
    FindMember(tracks, i);
    var m := if i == n - 1 then 0 else i + 1;
    assert NextTrack(tracks, Some(tracks[i])) == tracks[m];
    FindMember(tracks, m);
    var p := if i == 0 then n - 1 else i - 1;
    assert PrevTrack(tracks, Some(tracks[i])) == Some(tracks[p]);
    FindMember(tracks, p);
  }

  // ------------------------------------------------------------ rendering

  /** What the App renders. `RenderFails` is the TypeError of reading `currentTrack.previewUrl` with no current track. */
  datatype View = LoginView | LoadingView | NoTracksView | PlayerScreen(track: Track) | RenderFails

  /**
   * The render gating (src/App.jsx:171-262). The second token test
   * (line 206) and the test at line 210 repeat cases already decided
   * above them, so they never choose the view.
   */
  function Render(token: string, isLoading: bool, tracks: seq<Track>, current: Option<Track>): (v: View)
    ensures v == LoginView <==> token == []
    ensures v == LoadingView <==> token != [] && isLoading && tracks == []
    ensures v == NoTracksView <==> token != [] && !isLoading && (current.None? || tracks == [])
    ensures v.PlayerScreen? <==> token != [] && current.Some? && tracks != []
    ensures v.PlayerScreen? ==> v.track == current.value
    ensures v == RenderFails <==> token != [] && isLoading && tracks != [] && current.None?
  {
    if token == [] then LoginView
    else if isLoading && tracks == [] then LoadingView
    else if (current.None? || tracks == []) && !isLoading then NoTracksView
    else if current.None? then RenderFails
    else PlayerScreen(current.value)
  }

  /**
   * The `src` of the `<audio>` element a view carries (src/App.jsx:228-233):
   * the current track's preview URL on the player screen, None when the
   * element is not mounted.
   */
  function Source(v: View): (src: Option<string>)
    ensures src.Some? <==> v.PlayerScreen?
    ensures src.Some? ==> src.value == v.track.previewUrl
  {
    if v.PlayerScreen? then Some(v.track.previewUrl) else None
  }

  /** The query loadInitialTracks falls back to (src/App.jsx:72). */
  const FallbackQuery := "popular songs 2024"

  /** The alert of a failed search (src/App.jsx:99). */
  const SearchFailed := "Search failed. Please try again."

  // ------------------------------------------------------------ the component's state

  class App {
    var token: string                 // "" stands for null
    var currentTrack: Option<Track>   // None stands for null and undefined
    var tracks: seq<Track>
    var isPlaying: bool
    var currentTime: int              // ms
    var audioSrc: Option<string>      // the source the audio element has loaded, None while unmounted
    var audioTime: int                // the audio element's currentTime, ms
    var showSearch: bool
    var isLoading: bool
    var alerts: seq<string>

    /** There is a current track exactly when the list is non-empty, and it is one of the list's tracks. */
    ghost predicate TracksConsistent()
      reads this
    {
      && (currentTrack.None? <==> tracks == [])
      && (currentTrack.Some? ==> currentTrack.value in tracks)
    }

    /** Every state the handlers reach: consistent tracks, and the audio element holds the source the view asks for. */
    ghost predicate Valid()
      reads this
    {
      TracksConsistent() && audioSrc == AudioSource()
    }

    function View(): View
      reads this
    {
      Render(token, isLoading, tracks, currentTrack)
    }

    /** The audio element is mounted only with the player screen. */
    predicate AudioMounted()
      reads this
    {
      View().PlayerScreen?
    }

    /** The `src` the rendered audio element asks for. */
    function AudioSource(): Option<string>
      reads this
    {
      Source(View())
    }

    /**
     * The playback effect (src/App.jsx:112-127) plays the element only
     * while it is mounted, `isPlaying` is set and the preview URL is
     * non-empty; otherwise it pauses it.
     */
    predicate AudioRunning()
      reads this
    {
      AudioMounted() && isPlaying && View().track.previewUrl != []
    }

    /**
     * After a render the element holds the source the view asks for; a
     * new source reloads it, which puts its clock back to 0, and mounting
     * or unmounting it counts as a new source.
     */
    twostate predicate AudioFollowsSource()
      reads this
    {
      && audioSrc == AudioSource()
      && audioTime == if audioSrc == old(audioSrc) then old(audioTime) else 0
    }

    /** In every state the handlers reach the render never fails, and Previous always selects a track. */
    lemma ValidNeverFails()
      requires TracksConsistent()
      ensures View() != RenderFails
      ensures tracks != [] ==> PrevTrack(tracks, currentTrack).Some?
    {
      if tracks != [] {
        var t := currentTrack.value;
        var i :| 0 <= i < |tracks| && tracks[i] == t;
        assert FindIndex(tracks, currentTrack) >= 0;
      }
    }

    constructor ()
      ensures token == [] && currentTrack == None && tracks == [] && !isPlaying
      ensures currentTime == 0 && audioSrc == None && audioTime == 0 && !showSearch && !isLoading && alerts == []
      ensures Valid() && View() == LoginView
    {
      token, currentTrack, tracks, isPlaying := [], None, [], false;
      currentTime, audioSrc, audioTime, showSearch, isLoading, alerts := 0, None, 0, false, false, [];
    }

    /**
     * The render that follows a handler: an audio element whose `src`
     * changed reloads from time 0.
     */
    method Rerender()
      modifies this
      ensures AudioFollowsSource()
      ensures token == old(token) && tracks == old(tracks) && currentTrack == old(currentTrack)
      ensures isPlaying == old(isPlaying) && currentTime == old(currentTime) && showSearch == old(showSearch)
      ensures isLoading == old(isLoading) && alerts == old(alerts)
    {
      var src := AudioSource();
      if src != audioSrc {
        audioSrc, audioTime := src, 0;
      }
    }

    /** Only the current track and the times move, the element's clock as its source dictates. */
    twostate predicate OnlyTrackMoved()
      reads this
    {
      && token == old(token) && tracks == old(tracks) && isPlaying == old(isPlaying)
      && AudioFollowsSource() && showSearch == old(showSearch) && isLoading == old(isLoading)
      && alerts == old(alerts)
    }

    /**
     * A finished load of `list`: a non-empty list becomes the track list
     * with its first track current, anything else leaves both alone; the
     * loading flag is down and the playback state is untouched.
     */
    twostate predicate Loaded(list: Result<seq<Track>>)
      reads this
    {
      && !isLoading
      && isPlaying == old(isPlaying) && currentTime == old(currentTime)
      && (if list.Ok? && list.value != [] then tracks == list.value && currentTrack == Some(list.value[0])
          else tracks == old(tracks) && currentTrack == old(currentTrack))
    }

    /**
     * The end of a load (src/App.jsx:68-69, 74-75, 93-95, 81, 101): a
     * non-empty list is adopted with its first track current, the loading
     * flag drops and the audio element follows the new render.
     */
    method Adopt(list: Result<seq<Track>>)
      modifies this
      ensures Loaded(list) && AudioFollowsSource()
      ensures token == old(token) && showSearch == old(showSearch) && alerts == old(alerts)
      ensures old(TracksConsistent()) ==> Valid()
    {
      if list.Ok? && |list.value| > 0 {
        tracks := list.value;
        currentTrack := Some(list.value[0]);
      }
      isLoading := false;
      Rerender();
    }

    /** handleNext (src/App.jsx:142-148): no-op on an empty list. */
    method HandleNext()
      modifies this
      ensures old(tracks) == [] ==> currentTrack == old(currentTrack) && currentTime == old(currentTime)
      ensures old(tracks) != [] ==> currentTrack == Some(NextTrack(old(tracks), old(currentTrack))) && currentTime == 0
      ensures OnlyTrackMoved()
      ensures old(Valid()) ==> Valid()
    {
      if |tracks| > 0 {
        var k := FindIndex(tracks, currentTrack);
        currentTrack := Some(tracks[(k + 1) % |tracks|]);
        currentTime := 0;
      }
      Rerender();
    }

    /** handlePrevious (src/App.jsx:150-156): no-op on an empty list. */
    method HandlePrevious()
      modifies this
      ensures old(tracks) == [] ==> currentTrack == old(currentTrack) && currentTime == old(currentTime)
      ensures old(tracks) != [] ==> currentTrack == PrevTrack(old(tracks), old(currentTrack)) && currentTime == 0
      ensures OnlyTrackMoved()
      ensures old(Valid()) ==> Valid()
    {
      if |tracks| > 0 {
        var k := FindIndex(tracks, currentTrack);
        var p := if k == 0 then |tracks| - 1 else k - 1;
        currentTrack := if p >= 0 then Some(tracks[p]) else None;
        currentTime := 0;
        if old(TracksConsistent()) {
          ValidNeverFails();
        }
      }
      Rerender();
    }

    /** handleEnded (src/App.jsx:158-160): exactly handleNext. */
    method HandleEnded()
      modifies this
      ensures old(tracks) == [] ==> currentTrack == old(currentTrack) && currentTime == old(currentTime)
      ensures old(tracks) != [] ==> currentTrack == Some(NextTrack(old(tracks), old(currentTrack))) && currentTime == 0
      ensures OnlyTrackMoved()
      ensures old(Valid()) ==> Valid()
    {
      HandleNext();
    }

    /** A row click in the track list (src/components/TrackList.jsx:21) through `setCurrentTrack`. */
    method SelectTrack(i: nat)
      requires i < |tracks| && currentTrack.Some?
      modifies this
      ensures currentTrack == Some(old(tracks)[i]) && currentTime == old(currentTime)
      ensures OnlyTrackMoved()
      ensures old(Valid()) ==> Valid()
    {
      currentTrack := Some(TrackList.Click(TrackList.Rows(tracks, currentTrack.value), i));
      Rerender();
    }

    /** handleSeek (src/App.jsx:135-140): with the audio mounted, both times take the requested value. */
    method HandleSeek(time: int)
      modifies this
      ensures old(AudioMounted()) ==> audioTime == time && currentTime == time
      ensures !old(AudioMounted()) ==> audioTime == old(audioTime) && currentTime == old(currentTime)
      ensures token == old(token) && tracks == old(tracks) && currentTrack == old(currentTrack)
      ensures isPlaying == old(isPlaying) && showSearch == old(showSearch) && isLoading == old(isLoading)
      ensures audioSrc == old(audioSrc) && alerts == old(alerts)
      ensures old(Valid()) ==> Valid()
    {
      if AudioMounted() {
        audioTime := time;
        currentTime := time;
      }
    }

    /** handleTimeUpdate (src/App.jsx:129-133): the shown time follows the audio element's. */
    method HandleTimeUpdate()
      modifies this
      ensures currentTime == if old(AudioMounted()) then old(audioTime) else old(currentTime)
      ensures token == old(token) && tracks == old(tracks) && currentTrack == old(currentTrack)
      ensures isPlaying == old(isPlaying) && audioTime == old(audioTime) && showSearch == old(showSearch)
      ensures audioSrc == old(audioSrc) && isLoading == old(isLoading) && alerts == old(alerts)
      ensures old(Valid()) ==> Valid()
    {
      if AudioMounted() {
        currentTime := audioTime;
      }
    }

    /** The Player's play button (src/components/Player.jsx:128): `setIsPlaying(!isPlaying)`. */
    method TogglePlay()
      modifies this
      ensures isPlaying == !old(isPlaying)
      ensures token == old(token) && tracks == old(tracks) && currentTrack == old(currentTrack)
      ensures currentTime == old(currentTime) && audioSrc == old(audioSrc) && audioTime == old(audioTime)
      ensures showSearch == old(showSearch) && isLoading == old(isLoading) && alerts == old(alerts)
      ensures old(Valid()) ==> Valid()
    {
      isPlaying := !isPlaying;
    }

    /** The audio element playing on for `elapsed` ms; a paused or unmounted element stays where it is. */
    method AudioPlays(elapsed: nat)
      modifies this
      ensures audioTime == old(audioTime) + (if old(AudioRunning()) then elapsed else 0)
      ensures token == old(token) && tracks == old(tracks) && currentTrack == old(currentTrack)
      ensures isPlaying == old(isPlaying) && currentTime == old(currentTime) && audioSrc == old(audioSrc)
      ensures showSearch == old(showSearch) && isLoading == old(isLoading) && alerts == old(alerts)
      ensures old(Valid()) ==> Valid()
    {
      if AudioRunning() {
        audioTime := audioTime + elapsed;
      }
    }

    /**
     * handleLogout (src/App.jsx:162-168): the stored token is removed and
     * the App drops its token, its tracks and its current track and stops.
     */
    method HandleLogout(session: Session)
      modifies this, session
      ensures session.storedToken == None && session.sent == old(session.sent) && session.reauths == old(session.reauths)
      ensures token == [] && tracks == [] && currentTrack == None && !isPlaying
      ensures currentTime == old(currentTime) && AudioFollowsSource() && showSearch == old(showSearch)
      ensures isLoading == old(isLoading) && alerts == old(alerts)
      ensures Valid() && View() == LoginView && audioSrc == None
    {
      session.RemoveToken();
      token := [];
      tracks := [];
      currentTrack := None;
      isPlaying := false;
      Rerender();
    }

    /**
     * handleSearch (src/App.jsx:86-103): nothing without a token or with a
     * blank query; otherwise search with limit 50, adopt a non-empty result
     * and close the search panel, keep everything on an empty one, and
     * alert on an error.
     */
    method HandleSearch(query: string, session: Session, reply: Transport<SearchBody>)
      modifies this, session
      ensures token == [] || Trim(query) == [] ==>
        && token == old(token) && tracks == old(tracks) && currentTrack == old(currentTrack)
        && isPlaying == old(isPlaying) && currentTime == old(currentTime)
        && audioSrc == old(audioSrc) && audioTime == old(audioTime)
        && showSearch == old(showSearch) && isLoading == old(isLoading) && alerts == old(alerts)
        && session.Sent([], 0)
      ensures token != [] && Trim(query) != [] ==>
        var r := MapResult(Outcome(reply), SearchResults);
        && token == old(token) && Loaded(r)
        && showSearch == (if r.Ok? && r.value != [] then false else old(showSearch))
        && alerts == old(alerts) + (if r.Throws? then [SearchFailed] else [])
        && session.Sent([Search(query, 50)], Unauthorized(reply))
        && AudioFollowsSource()
      ensures old(Valid()) ==> Valid()
    {
      if token == [] || Trim(query) == [] {
        return;
      }
      isLoading := true;
      var r := session.SearchTracks(query, token, 50, reply);
      match r {
        case Ok(results) =>
          if |results| > 0 {
            showSearch := false;
          }
        case Throws(_) =>
          alerts := alerts + [SearchFailed];
      }
      Adopt(r);
    }

    /** What loadInitialTracks leaves behind, given its replies. */
    twostate predicate InitialLoad(accessToken: string, session: Session,
      topReply: Transport<ItemsBody<SpotifyTrack>>, searchReply: Transport<SearchBody>)
      reads this, session
    {
      var top := MapResult(Outcome(topReply), ItemsResults);
      var fallBack := top.Ok? && top.value == [] && accessToken != [];
      && Loaded(if top.Ok? && top.value == [] then
          (if accessToken == [] then Ok([]) else MapResult(Outcome(searchReply), SearchResults))
        else top)
      && showSearch == old(showSearch) && alerts == old(alerts)
      && session.Sent([TopTracks(50)] + (if fallBack then [Search(FallbackQuery, 20)] else []),
        Unauthorized(topReply) + (if fallBack then Unauthorized(searchReply) else 0))
    }

    /**
     * loadInitialTracks (src/App.jsx:63-83): the top tracks when there are
     * any; on an empty answer a search for "popular songs 2024" with limit
     * 20; an error is swallowed; the loading flag is down at the end.
     */
    method LoadInitialTracks(accessToken: string, session: Session,
      topReply: Transport<ItemsBody<SpotifyTrack>>, searchReply: Transport<SearchBody>)
      modifies this, session
      ensures InitialLoad(accessToken, session, topReply, searchReply)
      ensures token == old(token) && AudioFollowsSource()
      ensures old(Valid()) ==> Valid()
    {
      isLoading := true;
      var sent0, reauths0 := session.sent, session.reauths;
      var top := session.TopTracksOf(50, topReply);
      var u := Unauthorized(topReply);
      assert session.sent == sent0 + [TopTracks(50)] && session.reauths == reauths0 + u;
      var list := top;
      if top.Ok? && |top.value| == 0 {
        var sent1 := session.sent;
        list := session.SearchTracks(FallbackQuery, accessToken, 20, searchReply);
        if accessToken != [] {
          assert session.sent == sent1 + [Search(FallbackQuery, 20)];
          assert sent1 + [Search(FallbackQuery, 20)] == sent0 + [TopTracks(50), Search(FallbackQuery, 20)];
        } else {
          assert session.sent == sent1;
        }
      }
      Adopt(list);
    }

    /**
     * handleTokenInitialization (src/App.jsx:53-60): a stored token
     * becomes the App's token and starts the initial load; without one
     * nothing happens and the login screen stays.
     */
    method InitializeToken(session: Session,
      topReply: Transport<ItemsBody<SpotifyTrack>>, searchReply: Transport<SearchBody>)
      modifies this, session
      ensures old(session.storedToken).None? || old(session.storedToken).value == [] ==>
        && token == old(token) && tracks == old(tracks) && currentTrack == old(currentTrack)
        && isLoading == old(isLoading) && showSearch == old(showSearch) && alerts == old(alerts)
        && audioSrc == old(audioSrc) && audioTime == old(audioTime)
        && session.Sent([], 0)
      ensures old(session.storedToken).Some? && old(session.storedToken).value != [] ==>
        token == old(session.storedToken).value &&
        InitialLoad(old(session.storedToken).value, session, topReply, searchReply)
      ensures old(session.storedToken).Some? && old(session.storedToken).value != [] ==>
        // setToken and the load's setIsLoading(true) share one render, with the old tracks
        var between := Source(Render(old(session.storedToken).value, true, old(tracks), old(currentTrack)));
        && audioSrc == AudioSource()
        && audioTime == if old(audioSrc) == between && between == audioSrc then old(audioTime) else 0
      ensures old(Valid()) ==> Valid()
    {
      var stored := session.storedToken;
      if stored.None? || stored.value == [] {
        return;
      }
      token := stored.value;
      Rerender();
      LoadInitialTracks(stored.value, session, topReply, searchReply);
    }
  }

  // ------------------------------------------------------------ scenarios

  /** A stored token whose top tracks are the given three tracks, loaded. */
  method SignedIn(x: SpotifyTrack, y: SpotifyTrack, z: SpotifyTrack) returns (app: App, session: Session)
    ensures fresh(app) && fresh(session) && app.Valid()
    ensures app.token == "token" && app.tracks == MapTracks([x, y, z]) && app.currentTrack == Some(MapTrack(x))
    ensures !app.isLoading && app.alerts == [] && app.currentTime == 0 && !app.isPlaying
    ensures app.audioSrc == Some(MapTrack(x).previewUrl) && app.audioTime == 0
    ensures session.storedToken == Some("token") && session.sent == [TopTracks(50)] && session.reauths == 0
  {
    session := new Session(Some("token"));
    app := new App();
    app.InitializeToken(session, Response(200, Ok(ItemsBody(Some([x, y, z])))), NetworkFailure("unused"));
  }

  /** Next then Previous comes back to the first track. */
  method NextThenPreviousReturns(x: SpotifyTrack, y: SpotifyTrack, z: SpotifyTrack) returns (current: Option<Track>, view: View)
    requires x.id != y.id && y.id != z.id && x.id != z.id
    ensures current == Some(MapTrack(x)) && view == PlayerScreen(MapTrack(x))
  {
    var app, session := SignedIn(x, y, z);
    var list := MapTracks([x, y, z]);
    assert TrackList.UniqueIds(list);
    NextPrevInverse(list, 0);
    app.HandleNext();
    app.HandlePrevious();
    current, view := app.currentTrack, app.View();
  }

  /** Previous from the first track selects the last one, and resets the time. */
  method PreviousFromFirstGoesToLast(x: SpotifyTrack, y: SpotifyTrack, z: SpotifyTrack) returns (current: Option<Track>, time: int)
    requires x.id != y.id && y.id != z.id && x.id != z.id
    ensures current == Some(MapTrack(z)) && time == 0
  {
    var app, session := SignedIn(x, y, z);
    var list := MapTracks([x, y, z]);
    assert TrackList.UniqueIds(list);
    FindMember(list, 0);
    app.HandleSeek(12000);
    app.HandlePrevious();
    current, time := app.currentTrack, app.currentTime;
  }

  /**
   * A seek on the first track and then Next: the new preview URL reloads
   * the audio element, so its next time update shows 0.
   */
  method NextAfterSeekStartsOver(x: SpotifyTrack, y: SpotifyTrack, z: SpotifyTrack) returns (current: Option<Track>, shown: int)
    requires x.id != y.id && y.id != z.id && x.id != z.id
    requires x.previewUrl != y.previewUrl
    ensures current == Some(MapTrack(y)) && shown == 0
  {
    var app, session := SignedIn(x, y, z);
    var list := MapTracks([x, y, z]);
    assert TrackList.UniqueIds(list);
    FindMember(list, 0);
    app.HandleSeek(12000);
    app.HandleNext();
    app.HandleTimeUpdate();
    current, shown := app.currentTrack, app.currentTime;
  }

  /**
   * The same steps when both tracks carry the same preview URL (both
   * without a preview, say): `src` does not change, the element keeps its
   * position, and the next time update brings the old 12 s back.
   */
  method NextOnSamePreviewKeepsPosition(x: SpotifyTrack, y: SpotifyTrack, z: SpotifyTrack) returns (current: Option<Track>, shown: int)
    requires x.id != y.id && y.id != z.id && x.id != z.id
    requires x.previewUrl == y.previewUrl
    ensures current == Some(MapTrack(y)) && shown == 12000
  {
    var app, session := SignedIn(x, y, z);
    var list := MapTracks([x, y, z]);
    assert TrackList.UniqueIds(list);
    FindMember(list, 0);
    app.HandleSeek(12000);
    app.HandleNext();
    app.HandleTimeUpdate();
    current, shown := app.currentTrack, app.currentTime;
  }

  /** Play pressed, 3 s of playback, then a time update: the label follows the clock when there is a preview. */
  method PlayingAdvancesTime(x: SpotifyTrack, y: SpotifyTrack, z: SpotifyTrack) returns (shown: int)
    ensures shown == if x.previewUrl != [] then 3000 else 0
  {
    var app, session := SignedIn(x, y, z);
    app.TogglePlay();
    app.AudioPlays(3000);
    app.HandleTimeUpdate();
    shown := app.currentTime;
  }

  /** No top tracks: the fallback search's tracks are shown, after exactly the two requests. */
  method EmptyTopTracksFallBack(x: SpotifyTrack) returns (tracks: seq<Track>, requests: seq<Request>)
    ensures tracks == [MapTrack(x)] && requests == [TopTracks(50), Search(FallbackQuery, 20)]
  {
    var session := new Session(Some("token"));
    var app := new App();
    app.InitializeToken(session, Response(200, Ok(ItemsBody(Some([])))), Response(200, Ok(SearchBody(Some([x])))));
    tracks, requests := app.tracks, session.sent;
  }

  /**
   * A search answered 401 drops the stored token and starts one sign-in
   * (src/services/spotifyApi.js:146-151), while handleSearch sees a null
   * response and leaves the App's own state as it was: its token, tracks
   * and current track stay and it raises no alert of its own. The
   * sign-in's redirect, or its alert when no client id is set, happens
   * outside the App and is not part of this model.
   */
  method UnauthorizedSearchStartsSignIn(x: SpotifyTrack, y: SpotifyTrack, z: SpotifyTrack)
    returns (stored: Option<string>, reauths: nat, token: string, tracks: seq<Track>, view: View, alerts: seq<string>)
    ensures stored == None && reauths == 1
    ensures token == "token" && tracks == MapTracks([x, y, z])
    ensures view == PlayerScreen(MapTrack(x)) && alerts == []
  {
    var app, session := SignedIn(x, y, z);
    app.HandleSearch("abba", session, Response(401, Throws("Unexpected end of JSON input")));
    stored, reauths, token, tracks := session.storedToken, session.reauths, app.token, app.tracks;
    view, alerts := app.View(), app.alerts;
  }

  /** A failed search alerts and keeps the tracks. */
  method FailedSearchAlerts(x: SpotifyTrack, y: SpotifyTrack, z: SpotifyTrack)
    returns (tracks: seq<Track>, alerts: seq<string>)
    ensures tracks == MapTracks([x, y, z]) && alerts == [SearchFailed]
  {
    var app, session := SignedIn(x, y, z);
    app.HandleSearch("abba", session, Response(500, Ok(SearchBody(None))));
    tracks, alerts := app.tracks, app.alerts;
  }

  /** A blank query sends nothing. */
  method BlankSearchSendsNothing(x: SpotifyTrack, y: SpotifyTrack, z: SpotifyTrack) returns (requests: seq<Request>)
    ensures requests == [TopTracks(50)]
  {
    var app, session := SignedIn(x, y, z);
    assert Trim("   ") == [] by {
      assert AllSpace("   ") by {
        assert forall i :: 0 <= i < 3 ==> "   "[i] == ' ';
      }
    }
    app.HandleSearch("   ", session, Response(200, Ok(SearchBody(Some([x])))));
    requests := session.sent;
  }

  /** After logout the login screen shows, and a seek no longer reaches the audio element. */
  method LogoutShowsLogin(x: SpotifyTrack, y: SpotifyTrack, z: SpotifyTrack)
    returns (view: View, stored: Option<string>, time: int)
    ensures view == LoginView && stored == None && time == 0
  {
    var app, session := SignedIn(x, y, z);
    app.HandleLogout(session);
    app.HandleSeek(5000);
    view, stored, time := app.View(), session.storedToken, app.currentTime;
  }
}
