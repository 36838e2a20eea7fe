/**
 * The Spotify service of the component variant (src/services/spotifyApi.js):
 * redirect-URI assembly, the access-token parse of the URL fragment, the
 * configuration test, the status handling of every API request, and the
 * mapping of Spotify's track objects to the player's tracks. The network
 * reply of each request is a parameter.
 */
module SpotifyApi {
  import opened Wrappers
  import opened JsBuiltins

  // ------------------------------------------------------------ redirect URI

  predicate EndsWithSlash(s: string) {
    |s| > 0 && s[|s| - 1] == '/'
  }

  /** The path with a "/" appended unless it already ends in one. */
  function BasePath(pathname: string): (r: string)
    ensures EndsWithSlash(r)
    ensures EndsWithSlash(pathname) ==> r == pathname
    ensures !EndsWithSlash(pathname) ==> r == pathname + "/"
  {
    if EndsWithSlash(pathname) then pathname else pathname + "/"
  }

  /** Normalising a path twice is normalising it once. */
  lemma BasePathIdempotent(pathname: string)
    ensures BasePath(BasePath(pathname)) == BasePath(pathname)
  {
  }

  /**
   * getRedirectUri (src/services/spotifyApi.js:5-15): a non-empty
   * override is returned as it is; otherwise the page's origin and path,
   * the path ending in "/" (its own, or one added).
   */
  function RedirectUri(overrideUri: string, origin: string, pathname: string): (r: string)
    ensures overrideUri != [] ==> r == overrideUri
    ensures overrideUri == [] ==> |r| == |origin| + |pathname| + (if EndsWithSlash(pathname) then 0 else 1)
    ensures overrideUri == [] ==> EndsWithSlash(r) && r[..|origin| + |pathname|] == origin + pathname
  {
    if overrideUri != [] then overrideUri
    else
      var r := origin + BasePath(pathname);
      assert r[..|origin| + |pathname|] == origin + pathname by {
        assert BasePath(pathname)[..|pathname|] == pathname;
      }
      r
  }

  // ------------------------------------------------------------ token from the URL fragment

  const AccessTokenKey := "access_token"

  /** The message of the URIError decodeURIComponent throws on a malformed escape. */
  const UriMalformed := "URI malformed"

  /** `item.split('=')`: the key is the text before the first "=". */
  function EntryKey(item: string): string {
    Split(item, '=')[0]
  }

  /**
   * The text passed to decodeURIComponent: `parts[1]`, the text between
   * the first and a second "=", or "undefined" when the item has no "=".
   */
  function EntryValue(item: string): string {
    var parts := Split(item, '=');
    if |parts| >= 2 then parts[1] else "undefined"
  }

  /**
   * The object the `reduce` builds (src/services/spotifyApi.js:24-28),
   * item after item, a later key overwriting an earlier one; a value
   * that `decode` rejects makes the whole parse throw.
   */
  function Entries(items: seq<string>, decode: string -> Option<string>): (r: Result<map<string, string>>)
    ensures r.Throws? ==> r.message == UriMalformed
    decreases |items|
  {
    if items == [] then Ok(map[])
    else
      var item := items[|items| - 1];
      match Entries(items[..|items| - 1], decode)
      case Throws(m) => Throws(m)
      case Ok(m) =>
        match decode(EntryValue(item))
        case None => Throws(UriMalformed)
        case Some(v) => Ok(m[EntryKey(item) := v])
  }

  /**
   * getTokenFromUrl's parse (src/services/spotifyApi.js:20-31): drop the
   * leading "#", split on "&", build the entries, and read `access_token`
   * (None for undefined).
   */
  function TokenFromHash(hash: string, decode: string -> Option<string>): Result<Option<string>> {
    var items := Split(if hash == [] then [] else hash[1..], '&');
    match Entries(items, decode)
    case Throws(m) => Throws(m)
    case Ok(m) => Ok(if AccessTokenKey in m then Some(m[AccessTokenKey]) else None)
  }

  /** Every item decodes. */
  ghost predicate AllDecode(items: seq<string>, decode: string -> Option<string>) {
    forall i :: 0 <= i < |items| ==> decode(EntryValue(items[i])).Some?
  }

  /** When every value decodes, the parse succeeds. */
  lemma {:induction false} AllDecodeParses(items: seq<string>, decode: string -> Option<string>)
    requires AllDecode(items, decode)
    ensures Entries(items, decode).Ok?
    decreases |items|
  {
    if items != [] {
      var front := items[..|items| - 1];
      assert forall i :: 0 <= i < |front| ==> front[i] == items[i];
      AllDecodeParses(front, decode);
    }
  }

  /**
   * When every value decodes, a key is bound to the decoded value of the
   * LAST item carrying it.
   */
  lemma {:induction false} LastEntryWins(items: seq<string>, decode: string -> Option<string>, j: nat)
    requires AllDecode(items, decode) && j < |items|
    requires forall i :: j < i < |items| ==> EntryKey(items[i]) != EntryKey(items[j])
    ensures Entries(items, decode).Ok?
    ensures EntryKey(items[j]) in Entries(items, decode).value
    ensures Entries(items, decode).value[EntryKey(items[j])] == decode(EntryValue(items[j])).value
    decreases |items|
  {
    AllDecodeParses(items, decode);
    var n := |items|;
    if j < n - 1 {
      var front := items[..n - 1];
      assert forall i :: 0 <= i < |front| ==> front[i] == items[i];
      LastEntryWins(front, decode, j);
      assert EntryKey(items[n - 1]) != EntryKey(items[j]);
    }
  }

  /** A key no item carries stays unbound. */
  lemma {:induction false} AbsentKeyUnbound(items: seq<string>, decode: string -> Option<string>, key: string)
    requires AllDecode(items, decode)
    requires forall i :: 0 <= i < |items| ==> EntryKey(items[i]) != key
    ensures Entries(items, decode).Ok? && key !in Entries(items, decode).value
    decreases |items|
  {
    AllDecodeParses(items, decode);
    if items != [] {
      var front := items[..|items| - 1];
      assert forall i :: 0 <= i < |front| ==> front[i] == items[i];
      AbsentKeyUnbound(front, decode, key);
    }
  }

  /** A value `decode` rejects anywhere makes the parse throw. */
  lemma {:induction false} BadEscapeThrows(items: seq<string>, decode: string -> Option<string>, j: nat)
    requires j < |items| && decode(EntryValue(items[j])).None?
    ensures Entries(items, decode) == Throws(UriMalformed)
    decreases |items|
  {
    var n := |items|;
    if j < n - 1 {
      var front := items[..n - 1];
      assert front[j] == items[j];
      BadEscapeThrows(front, decode, j);
    }
  }

  /** `access_token=` followed by a token free of "=" has the token as its value. */
  lemma TokenEntry(token: string)
    requires '=' !in token
    ensures EntryKey("access_token=" + token) == AccessTokenKey
    ensures EntryValue("access_token=" + token) == token
  {
    assert "access_token=" + token == AccessTokenKey + ['='] + token;
    SplitAfterPiece(AccessTokenKey, '=', token);
    SplitPiece(token, '=');
  }

  /** `access_token=` followed by a token free of "&" holds no "&". */
  lemma TokenEntryPlain(token: string)
    requires '&' !in token
    ensures '&' !in "access_token=" + token
  {
    var prefix := "access_token=";
    forall i | 0 <= i < |prefix| ensures prefix[i] != '&' {
    }
  }

  /** A fragment of "&"-free items splits back into those items. */
  lemma FragmentItems(first: string, rest: seq<string>)
    requires '&' !in first
    requires forall i :: 0 <= i < |rest| ==> '&' !in rest[i]
    ensures Split(("#" + Join([first] + rest, "&"))[1..], '&') == [first] + rest
  {
    var items := [first] + rest;
    assert ("#" + Join(items, "&"))[1..] == Join(items, "&");
    assert forall i :: 0 < i < |items| ==> items[i] == rest[i - 1];
    SplitJoin(items, '&');
  }

  /** An entry no later item overrides keeps its decoded value. */
  lemma FirstEntryKept(first: string, rest: seq<string>, decode: string -> Option<string>)
    requires decode(EntryValue(first)).Some? && AllDecode(rest, decode)
    requires forall i :: 0 <= i < |rest| ==> EntryKey(rest[i]) != EntryKey(first)
    ensures Entries([first] + rest, decode).Ok?
    ensures EntryKey(first) in Entries([first] + rest, decode).value
    ensures Entries([first] + rest, decode).value[EntryKey(first)] == decode(EntryValue(first)).value
  {
    var items := [first] + rest;
    assert AllDecode(items, decode) by {
      forall i | 0 <= i < |items| ensures decode(EntryValue(items[i])).Some? {
        if i > 0 {
          assert items[i] == rest[i - 1];
        }
      }
    }
    forall i | 0 < i < |items| ensures EntryKey(items[i]) != EntryKey(items[0]) {
      assert items[i] == rest[i - 1];
    }
    LastEntryWins(items, decode, 0);
  }

  /** The fragment Spotify redirects back with gives back its token when the token decodes to itself. */
  lemma TokenRoundTrip(token: string, rest: seq<string>, decode: string -> Option<string>)
    requires '&' !in token && '=' !in token && decode(token) == Some(token)
    requires forall i :: 0 <= i < |rest| ==> '&' !in rest[i] && EntryKey(rest[i]) != AccessTokenKey
    requires AllDecode(rest, decode)
    ensures TokenFromHash("#" + Join(["access_token=" + token] + rest, "&"), decode) == Ok(Some(token))
  {
    var first := "access_token=" + token;
    TokenEntryPlain(token);
    TokenEntry(token);
    FragmentItems(first, rest);
    FirstEntryKept(first, rest, decode);
  }

  /** The value stops at a second "=": `access_token=a=b` reads as the decoding of "a". */
  lemma ValueStopsAtSecondEquals()
    ensures EntryKey("access_token=a=b") == "access_token" && EntryValue("access_token=a=b") == "a"
  {
    SplitAfterPiece("access_token", '=', "a=b");
    SplitAfterPiece("a", '=', "b");
    assert "access_token=a=b" == "access_token" + ['='] + "a=b";
    assert "a=b" == "a" + ['='] + "b";
  }

  /**
   * isSpotifyConfigured (src/services/spotifyApi.js:132-134), as a
   * truth value: the client id is not all white space.
   */
  function IsConfigured(clientId: string): (b: bool)
    ensures b <==> Trim(clientId) != []
    ensures b <==> exists i :: 0 <= i < |clientId| && !IsSpace(clientId[i])
  {
    clientId != [] && Trim(clientId) != []
  }

  // ------------------------------------------------------------ track mapping

  /** A Spotify track object, with the fields the mappers read; a null `preview_url` is "". */
  datatype SpotifyTrack = SpotifyTrack(
    id: string,
    name: string,
    artists: seq<string>,       // artists[i].name
    albumName: string,
    durationMs: int,
    images: seq<string>,        // album.images[i].url
    previewUrl: string,
    uri: string,
    externalUrl: string)

  /** A track of the component player. */
  datatype Track = Track(
    id: string,
    title: string,
    artist: string,
    album: string,
    duration: int,              // whole seconds
    imageUrl: string,
    previewUrl: string,
    spotifyUri: string,
    externalUrl: string)

  /** `images[0]?.url || images[1]?.url || ''`: the first non-empty of the first two image urls. */
  function ImageUrl(images: seq<string>): (r: string)
    ensures r == [] || (|images| > 0 && r == images[0]) || (|images| > 1 && r == images[1])
    ensures |images| > 0 && images[0] != [] ==> r == images[0]
    ensures r == [] <==> (|images| == 0 || images[0] == []) && (|images| < 2 || images[1] == [])
  {
    if |images| > 0 && images[0] != [] then images[0]
    else if |images| > 1 && images[1] != [] then images[1]
    else []
  }

  /** The total length of a list of strings. */
  function TotalLength(parts: seq<string>): nat {
    if parts == [] then 0 else |parts[0]| + TotalLength(parts[1..])
  }

  /** A join is the pieces plus one separator between each two: nothing lost, nothing added. */
  lemma {:induction false} JoinLength(parts: seq<string>, sep: string)
    ensures |Join(parts, sep)| == TotalLength(parts) + (if |parts| == 0 then 0 else (|parts| - 1) * |sep|)
  {
    if |parts| > 1 {
      JoinLength(parts[1..], sep);
    }
  }

  /** The names of the artists joined with ", ", in order (src/services/spotifyApi.js:176). */
  function ArtistLine(names: seq<string>): string {
    Join(names, ", ")
  }

  /** Each name after the first, with the space the ", " separator leaves in front of it. */
  function Spaced(names: seq<string>): (r: seq<string>)
    ensures |r| == |names| && forall i :: 0 <= i < |names| ==> r[i] == " " + names[i]
  {
    if names == [] then [] else [" " + names[0]] + Spaced(names[1..])
  }

  /** A space before the first piece of a join is a space before the whole join. */
  lemma SpaceBeforeJoin(x: string, rest: seq<string>, sep: string)
    ensures Join([" " + x] + rest, sep) == " " + Join([x] + rest, sep)
  {
    if rest != [] {
      assert ([" " + x] + rest)[1..] == rest && ([x] + rest)[1..] == rest;
    }
  }

  /** Joining with ", " is joining with "," the first name and the spaced others. */
  lemma {:induction false} CommaSpaceJoin(names: seq<string>)
    requires |names| >= 1
    ensures Join(names, ", ") == Join([names[0]] + Spaced(names[1..]), ",")
  {
    if |names| > 1 {
      var tail := names[1..];
      CommaSpaceJoin(tail);
      assert Spaced(tail) == [" " + tail[0]] + Spaced(tail[1..]);
      assert tail[1..] == names[2..];
      SpaceBeforeJoin(tail[0], Spaced(tail[1..]), ",");
      assert ([names[0]] + Spaced(tail))[1..] == Spaced(tail);
    }
  }

  /**
   * When no artist name holds a comma, the artist line splits at ","
   * back into the first name and each later name behind its space: the
   * line loses no name, adds none, and keeps their order.
   */
  lemma ArtistLineSplits(names: seq<string>)
    requires |names| >= 1
    requires forall i :: 0 <= i < |names| ==> ',' !in names[i]
    ensures Split(ArtistLine(names), ',') == [names[0]] + Spaced(names[1..])
  {
    var pieces := [names[0]] + Spaced(names[1..]);
    CommaSpaceJoin(names);
    forall i | 0 <= i < |pieces|
      ensures ',' !in pieces[i]
    {
      if i > 0 {
        assert pieces[i] == " " + names[i];
      }
    }
    SplitJoin(pieces, ',');
  }

  /**
   * The object every endpoint maps a track to (src/services/spotifyApi.js:173-183):
   * the duration floored to whole seconds, the artists joined, the first
   * usable image, and "" for a missing preview.
   */
  function MapTrack(t: SpotifyTrack): (r: Track)
    ensures r.id == t.id && r.title == t.name && r.album == t.albumName
    ensures r.duration * 1000 <= t.durationMs < r.duration * 1000 + 1000
    ensures r.artist == ArtistLine(t.artists) && r.imageUrl == ImageUrl(t.images)
    ensures r.previewUrl == t.previewUrl && r.spotifyUri == t.uri && r.externalUrl == t.externalUrl
  {
    Track(t.id, t.name, ArtistLine(t.artists), t.albumName, FloorDiv(t.durationMs, 1000),
      ImageUrl(t.images), t.previewUrl, t.uri, t.externalUrl)
  }

  /** `.map` of the track mapping: one track per input, in order. */
  function MapTracks(ts: seq<SpotifyTrack>): (r: seq<Track>)
    ensures |r| == |ts|
    ensures forall i :: 0 <= i < |ts| ==> r[i] == MapTrack(ts[i])
  {
    if ts == [] then [] else [MapTrack(ts[0])] + MapTracks(ts[1..])
  }

  /** A playlist item: the track may be null (a removed or local track). */
  datatype Item = Item(track: Option<SpotifyTrack>)

  predicate Playable(item: Item) {
    item.track.Some? && item.track.value.previewUrl != []
  }

  /**
   * getPlaylistTracks' filter and map (src/services/spotifyApi.js:208-220):
   * the items with a track and a preview, mapped, in order.
   */
  function PlayableTracks(items: seq<Item>): (r: seq<Track>)
    ensures |r| <= |items|
    ensures forall i :: 0 <= i < |r| ==> r[i].previewUrl != []
  {
    if items == [] then []
    else if Playable(items[0]) then [MapTrack(items[0].track.value)] + PlayableTracks(items[1..])
    else PlayableTracks(items[1..])
  }

  /** The filter works item by item: the tracks of a concatenation are the tracks of each part, in order. */
  lemma {:induction false} PlayableTracksAppend(a: seq<Item>, b: seq<Item>)
    ensures PlayableTracks(a + b) == PlayableTracks(a) + PlayableTracks(b)
  {
    if a == [] {
      assert a + b == b;
    } else {
      assert (a + b)[0] == a[0];
      assert (a + b)[1..] == a[1..] + b;
      PlayableTracksAppend(a[1..], b);
    }
  }

  /** An item is kept exactly when it is playable: a single item yields its track or nothing. */
  lemma PlayableSingle(item: Item)
    ensures PlayableTracks([item]) == if Playable(item) then [MapTrack(item.track.value)] else []
  {
  }

  /** Items that all have a track with a preview are all kept, so nothing is dropped from them. */
  lemma {:induction false} AllPlayableKept(items: seq<Item>)
    requires forall i :: 0 <= i < |items| ==> Playable(items[i])
    ensures |PlayableTracks(items)| == |items|
  {
    if items != [] {
      AllPlayableKept(items[1..]);
    }
  }

  /** The seed list of a recommendations request: at most the first five ids, comma-joined. */
  function SeedIds(seeds: seq<string>): string {
    Join(seeds[..if |seeds| < 5 then |seeds| else 5], ",")
  }

  /** Splitting the seed list on commas gives back the first five ids (when no id holds a comma). */
  lemma SeedIdsRoundTrip(seeds: seq<string>)
    requires |seeds| > 0
    requires forall i :: 0 <= i < |seeds| ==> ',' !in seeds[i]
    ensures var sent := seeds[..if |seeds| < 5 then |seeds| else 5];
      Split(SeedIds(seeds), ',') == sent && |sent| <= 5
  {
    var sent := seeds[..if |seeds| < 5 then |seeds| else 5];
    assert forall i :: 0 <= i < |sent| ==> sent[i] == seeds[i];
    SplitJoin(sent, ',');
  }

  // ------------------------------------------------------------ requests

  /** The requests the service makes, by endpoint and parameters (the URL text is not modelled). */
  datatype Request =
    | Search(query: string, limit: int)
    | FeaturedPlaylists(limit: int)
    | PlaylistTracks(playlistId: string)
    | SavedTracks(limit: int)
    | TopTracks(limit: int)
    | Recommendations(seedIds: string, limit: int)

  /** How a fetch settles: a response with its status and parsed JSON body (or the parse error), or a network failure. */
  datatype Transport<B> = Response(status: int, body: Result<B>) | NetworkFailure(message: string)

  /** A search response: `tracks.items`, None when `tracks` is missing. */
  datatype SearchBody = SearchBody(tracks: Option<seq<SpotifyTrack>>)

  /** A response with an `items` list, None when `items` is missing. */
  datatype ItemsBody<T> = ItemsBody(items: Option<seq<T>>)

  /** A featured-playlists response: the ids of `playlists.items`, None when `playlists` is missing. */
  datatype PlaylistsBody = PlaylistsBody(playlists: Option<seq<string>>)

  /** A recommendations response: `tracks`, None when missing. */
  datatype TracksBody = TracksBody(tracks: Option<seq<SpotifyTrack>>)

  /** What makeRequest's status test yields once the fetch has settled (src/services/spotifyApi.js:146-157). */
  function Outcome<B>(reply: Transport<B>): (r: Result<Option<B>>)
    ensures reply.Response? && reply.status == 401 ==> r == Ok(None)
    ensures reply.Response? && reply.status != 401 && !(200 <= reply.status < 300) ==>
      r == Throws("API request failed: " + IntToString(reply.status))
    ensures reply.Response? && 200 <= reply.status < 300 ==>
      r == if reply.body.Ok? then Ok(Some(reply.body.value)) else Throws(reply.body.message)
    ensures reply.NetworkFailure? ==> r == Throws(reply.message)
    ensures r.Ok? && r.value.Some? ==> reply.Response? && 200 <= reply.status < 300
  {
    match reply
    case NetworkFailure(m) => Throws(m)
    case Response(status, body) =>
      if status == 401 then Ok(None)
      else if !(200 <= status < 300) then Throws("API request failed: " + IntToString(status))
      else if body.Ok? then Ok(Some(body.value))
      else Throws(body.message)
  }

  /** 1 for a 401 reply, after which makeRequest drops the stored token and starts a sign-in; 0 otherwise. */
  function Unauthorized<B>(reply: Transport<B>): nat {
    if reply.Response? && reply.status == 401 then 1 else 0
  }

  /** `.map` over an Ok value; an error passes through. */
  function MapResult<A, B>(r: Result<A>, f: A -> B): Result<B> {
    match r
    case Ok(v) => Ok(f(v))
    case Throws(m) => Throws(m)
  }

  function SearchResults(data: Option<SearchBody>): seq<Track> {
    if data.None? || data.value.tracks.None? then [] else MapTracks(data.value.tracks.value)
  }

  function ItemsResults(data: Option<ItemsBody<SpotifyTrack>>): seq<Track> {
    if data.None? || data.value.items.None? then [] else MapTracks(data.value.items.value)
  }

  function PlaylistResults(data: Option<ItemsBody<Item>>): seq<Track> {
    if data.None? || data.value.items.None? then [] else PlayableTracks(data.value.items.value)
  }

  function RecommendationResults(data: Option<TracksBody>): seq<Track> {
    if data.None? || data.value.tracks.None? then [] else MapTracks(data.value.tracks.value)
  }

  /** The session state the service keeps: the stored token and the requests made so far. */
  class Session {
    var storedToken: Option<string>     // localStorage 'spotify_access_token'
    var sent: seq<Request>
    var reauths: nat                     // getAccessToken calls made after a 401

    constructor (stored: Option<string>)
      ensures storedToken == stored && sent == [] && reauths == 0
    {
      storedToken, sent, reauths := stored, [], 0;
    }

    /**
     * The session after the requests `reqs`, `unauthorized` of which were
     * answered 401: the requests are logged, one sign-in is started per
     * 401, and any 401 leaves no stored token.
     */
    twostate predicate Sent(reqs: seq<Request>, unauthorized: nat)
      reads this
    {
      && sent == old(sent) + reqs
      && reauths == old(reauths) + unauthorized
      && storedToken == (if unauthorized > 0 then None else old(storedToken))
    }

    /** removeToken (src/services/spotifyApi.js:45-47): the stored token is gone, nothing else changes. */
    method RemoveToken()
      modifies this
      ensures storedToken == None && sent == old(sent) && reauths == old(reauths)
    {
      storedToken := None;
    }

    /**
     * makeRequest (src/services/spotifyApi.js:137-162): send the request;
     * a 401 removes the stored token, starts a new sign-in and yields
     * null; any other non-OK status throws; an OK response yields its body.
     */
    method MakeRequest<B>(req: Request, reply: Transport<B>) returns (r: Result<Option<B>>)
      modifies this
      ensures r == Outcome(reply)
      ensures Sent([req], Unauthorized(reply))
    {
      sent := sent + [req];
      match reply
      case NetworkFailure(m) =>
        r := Throws(m);
      case Response(status, body) =>
        if status == 401 {
          storedToken := None;
          reauths := reauths + 1;
          r := Ok(None);
          return;
        }
        if !(200 <= status < 300) {
          r := Throws("API request failed: " + IntToString(status));
          return;
        }
        r := if body.Ok? then Ok(Some(body.value)) else Throws(body.message);
    }

    /** searchTracks (src/services/spotifyApi.js:165-184): no request for an empty query or token. */
    method SearchTracks(query: string, token: string, limit: int, reply: Transport<SearchBody>) returns (r: Result<seq<Track>>)
      modifies this
      ensures query == [] || token == [] ==> r == Ok([]) && Sent([], 0)
      ensures query != [] && token != [] ==>
        Sent([Search(query, limit)], Unauthorized(reply)) && r == MapResult(Outcome(reply), SearchResults)
    {
      if query == [] || token == [] {
        return Ok([]);
      }
      var data := MakeRequest(Search(query, limit), reply);
      r := MapResult(data, SearchResults);
    }

    /**
     * getFeaturedPlaylists (src/services/spotifyApi.js:187-199): the
     * tracks of the first featured playlist, or none.
     */
    method FeaturedTracks(limit: int, reply: Transport<PlaylistsBody>, tracksReply: Transport<ItemsBody<Item>>)
      returns (r: Result<seq<Track>>)
      modifies this
      ensures var first := Outcome(reply);
        if first.Throws? then r == Throws(first.message) && Sent([FeaturedPlaylists(limit)], 0)
        else if first.value.None? || first.value.value.playlists.None? || first.value.value.playlists.value == [] then
          r == Ok([]) && Sent([FeaturedPlaylists(limit)], Unauthorized(reply))
        else
          var id := first.value.value.playlists.value[0];
          && Sent([FeaturedPlaylists(limit), PlaylistTracks(id)], Unauthorized(tracksReply))
          && r == MapResult(Outcome(tracksReply), PlaylistResults)
    {
      var data := MakeRequest(FeaturedPlaylists(limit), reply);
      if data.Throws? {
        return Throws(data.message);
      }
      if data.value.None? || data.value.value.playlists.None? || data.value.value.playlists.value == [] {
        return Ok([]);
      }
      r := PlaylistTracksOf(data.value.value.playlists.value[0], tracksReply);
    }

    /** getPlaylistTracks (src/services/spotifyApi.js:202-221). */
    method PlaylistTracksOf(playlistId: string, reply: Transport<ItemsBody<Item>>) returns (r: Result<seq<Track>>)
      modifies this
      ensures Sent([PlaylistTracks(playlistId)], Unauthorized(reply))
      ensures r == MapResult(Outcome(reply), PlaylistResults)
    {
      var data := MakeRequest(PlaylistTracks(playlistId), reply);
      r := MapResult(data, PlaylistResults);
    }

    /** getSavedTracks (src/services/spotifyApi.js:224-241); each saved item is taken by its track. */
    method SavedTracksOf(limit: int, reply: Transport<ItemsBody<SpotifyTrack>>) returns (r: Result<seq<Track>>)
      modifies this
      ensures Sent([SavedTracks(limit)], Unauthorized(reply))
      ensures r == MapResult(Outcome(reply), ItemsResults)
    {
      var data := MakeRequest(SavedTracks(limit), reply);
      r := MapResult(data, ItemsResults);
    }

    /** getTopTracks (src/services/spotifyApi.js:244-261). */
    method TopTracksOf(limit: int, reply: Transport<ItemsBody<SpotifyTrack>>) returns (r: Result<seq<Track>>)
      modifies this
      ensures Sent([TopTracks(limit)], Unauthorized(reply))
      ensures r == MapResult(Outcome(reply), ItemsResults)
    {
      var data := MakeRequest(TopTracks(limit), reply);
      r := MapResult(data, ItemsResults);
    }

    /** getRecommendations (src/services/spotifyApi.js:264-284): no request without seeds. */
    method RecommendationsFor(seeds: seq<string>, limit: int, reply: Transport<TracksBody>) returns (r: Result<seq<Track>>)
      modifies this
      ensures seeds == [] ==> r == Ok([]) && Sent([], 0)
      ensures seeds != [] ==>
        Sent([Recommendations(SeedIds(seeds), limit)], Unauthorized(reply)) && r == MapResult(Outcome(reply), RecommendationResults)
    {
      if seeds == [] {
        return Ok([]);
      }
      var data := MakeRequest(Recommendations(SeedIds(seeds), limit), reply);
      r := MapResult(data, RecommendationResults);
    }
  }
}
