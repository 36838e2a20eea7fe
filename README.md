# Music player core, modelled in Dafny

This project models the logic of a small web music player that exists in two variants.

The first variant is a vanilla page (`script.js`). It searches the Deezer catalogue through a direct call with a proxy fallback. It keeps a bounded search cache and lets one search controller be aborted by keystrokes and timeouts. It holds a playlist with unique ids and plays 30-second previews, with a progress loop that auto-advances at the end of a track.

The second variant is a React app (`src/`) over the Spotify Web API. It consists of:
- the service module (redirect URI, access-token parse, request status handling, track mapping);
- the App component (next/previous selection, search, initial load, seek, logout, render gating);
- the Player component (time label, progress, volume and mute);
- the TrackList component (duration label, highlight, selection).

Files:
- `wrappers.dfy`: `Option` and `Result`.
- `js_builtins.dfy`: the JavaScript behaviour the code relies on: falsy numbers, floor division, truncating `%`, `trim`, number-to-string, `padStart`, `split`, `join`.
- `search_cache.dfy`: the insertion-ordered, 50-key search cache.
- `search_controller.dfy`: the Deezer records and the search state machine (`SearchBox`).
- `jukebox.dfy`: the playlist, the transport and the progress loop (`Player`) and `formatTime`.
- `spotify_api.dfy`: the Spotify service (`Session` for the stored token and the requests sent).
- `app.dfy`: the App component (`App`).
- `player_view.dfy`: the Player component.
- `track_list.dfy`: the TrackList component.

Modelling conventions:
- Times are integers in milliseconds. `Num = NaN | Ms(ms)` stands for a JavaScript number that may be NaN or undefined.
- Network replies, timers, animation frames and the passing of playback time are inputs to explicit methods (`DirectSettles`, `TimeoutFires`, `Tick`, `Jukebox.Player.AudioPlays`, `SpotifyApp.App.AudioPlays`, the `Transport` parameters of the service).
- In the App the `<audio>` element's clock is a field. It runs only while the element plays, and it goes back to 0 whenever a render gives the element a new `src`.
- An empty string stands for a null token or preview URL.

## Model

| member | source | states |
|---|---|---|
| SearchCache.KeyInjective | script.js:110 | Two searches share a cache key only when both the query and the suggestions flag agree. |
| SearchCache.Set | script.js:196 | `Map.set`: a new key goes last, an existing key keeps its place, and the binding is updated. Validity is preserved. |
| SearchCache.DeleteOldest | script.js:198-200 | Deleting the first key in insertion order removes exactly that key and its binding. |
| SearchCache.Remember | script.js:194-201 | Inserting and then trimming keeps the cache a valid Map: distinct keys, exactly the bound ones. |
| SearchCache.RememberBounded | script.js:194-201 | After every insertion the cache holds at most 50 keys. |
| SearchCache.RememberEntries | script.js:194-201 | An insertion binds nothing but the inserted key and the bindings already present. |
| SearchCache.RememberOrder | script.js:194-201 | Re-setting a key keeps the order. A new key goes last. When the cache is full, only the oldest-inserted key is evicted. |
| SearchCache.RememberGet | script.js:194-201 | A get after an insertion returns the inserted list. Every other key keeps its value unless it is the evicted oldest key. |
| SearchCache.RememberAll | script.js:194-201 | Successive insertions keep the cache valid. |
| SearchCache.FillInOrder | script.js:194-201 | Up to 50 distinct keys inserted one after another are all kept, in insertion order. |
| SearchCache.FillKeepsValues | script.js:194-201 | Below the limit, insertions only add their bindings. |
| SearchCache.FillFromEmpty | script.js:194-201 | From an empty cache, up to 50 distinct keys are kept with their values, in order. |
| SearchCache.FiftyFirstInsertionEvictsFirst | script.js:194-201 | The 51st distinct insertion evicts exactly the first key. The other 50 keep their values. |
| SearchController.Classify | script.js:190-212 | An error payload fails with its message, non-empty data is found, and empty data is "no results". |
| SearchController.AfterDirect | script.js:140-157 | An aborted direct call cancels. A non-error answer is decided. No data or an error payload goes to the proxy. |
| SearchController.AfterProxy | script.js:158-192 | A proxy abort cancels. An unwrapped answer is classified. Any other proxy failure reports "Unable to connect to search service". |
| SearchController.Unwrap | script.js:173-179 | Definition: the proxy body unwrapped, an unparseable envelope giving nothing. `EnvelopeIsTransparent` and `AfterProxy` state its effect. |
| SearchController.Resolve | script.js:140-187 | Definition: one undisturbed search, the direct reply first and then the proxy's. `ProxyTriedIff` and `CancelledIffAborted` state when the proxy decides it and when it is cancelled. |
| SearchController.ProxyTriedIff | script.js:140-187 | The proxy decides the outcome exactly when the direct call gave no data or an error payload. Otherwise the proxy's reply cannot change it. |
| SearchController.CancelledIffAborted | script.js:140-187 | A search is cancelled if and only if the direct call, or the proxy call that was tried, was aborted. |
| SearchController.EnvelopeIsTransparent | script.js:173-179 | A `contents` envelope and the bare payload give the same outcome. |
| SearchController.Display | script.js:203-212 | Found tracks go to the drop-down in suggestion mode and to the results area otherwise. |
| SearchController.Reported | script.js:203-221 | A cancelled search changes nothing on screen. The "no results" and error messages appear only for an explicit search. |
| SearchController.SearchBox.constructor | script.js:37-39 | The search box starts empty: no cache, no controller, no pending search. |
| SearchController.SearchBox.Input | script.js:60-92 | Each keystroke cancels the pending debounce and aborts and empties the controller slot. A trimmed query equal to the last one stops there. Otherwise the drop-down is hidden, and a query longer than two characters arms a suggestion search while a shorter one clears the results. |
| SearchController.SearchBox.PerformSearch | script.js:102-142 | A blank query clears the results. A cache hit is displayed with no abort and no fetch. Otherwise the old controller is aborted, a new one is created with a 5 s timer, and the direct fetch starts. |
| SearchController.SearchBox.Launch | script.js:121-142 | A cache miss aborts the controller in the slot, puts a new controller there, shows "Searching..." for an explicit search only, arms that controller's 5 s timeout and puts its direct fetch in flight. The input, last query, cache and debounce are left unchanged. |
| SearchController.SearchBox.DebounceFires | script.js:83-85 | A live debounce runs a suggestion search. A cancelled one does nothing. |
| SearchController.SearchBox.Submit | script.js:42-56 | The search button aborts the slot's controller and starts an explicit search. |
| SearchController.SearchBox.SelectSuggestion | script.js:255-259 | A suggestion click runs an explicit search from the box holding "title artist" with the drop-down hidden, along all three paths: a blank box clears the results, a cache hit shows the cached list with no abort and no fetch, and a miss aborts the slot and starts a fetch. No input event runs, so the last query, the debounce and every earlier abort stay. The drop-down ends hidden. |
| SearchController.SearchBox.Finish | script.js:189-224 | A finished search caches non-empty results under its key within the 50-key bound. It reports its outcome and empties the controller slot. |
| SearchController.SearchBox.DirectSettles | script.js:140-187 | A settled direct fetch either decides the search or moves it on to the proxy, listening to the controller then in the slot. With an empty slot it fails with the connection error. |
| SearchController.SearchBox.ProxySettles | script.js:158-187 | A settled proxy fetch finishes the search. An aborted signal forces a cancellation. |
| SearchController.SearchBox.TimeoutFires | script.js:135 | The 5 s timeout aborts whatever controller the slot holds when it fires. |
| SearchController.PlainQueries | script.js:69 | The scenario queries are their own trimmed text. |
| SearchController.NewerKeystrokeCancelsOlder | script.js:60-92 | After two keystrokes only the newest suggestion search fills the drop-down. |
| SearchController.OrphanedSearchShowsStaleSuggestions | script.js:60-92 | A query submitted before its debounce runs out starts two searches. When the debounced one aborts the explicit one, the explicit one's `finally` empties the slot. The next keystroke has nothing to abort, and the orphaned search's late answer shows suggestions for an older query. |
| SearchController.StaleTimeoutStrandsNewerSearch | script.js:135 | An aborted search's armed timeout aborts a newer explicit search, and "Searching..." stays on screen. |
| SearchController.RepeatedSearchIsCached | script.js:110-119 | A repeated explicit search is answered from the cache with one request in all. |
| SearchController.ProxyRescuesFailedDirectCall | script.js:140-187 | A failed direct call falls back to the proxy, and the proxy's envelope is displayed. |
| SearchController.EmptySlotSkipsProxy | script.js:158-187 | When an earlier search's `finally` has emptied the slot, a failing direct call reports the connection error. |
| Jukebox.ToSong | script.js:284-300 | The playlist song keeps the track's fields. Its cover is the first non-empty of the medium, big and plain covers. |
| Jukebox.AppendKeepsUnique | script.js:281-307 | Appending a song with a new id keeps ids unique. |
| Jukebox.SpliceStart | script.js:318 | `splice`'s start: an in-range index as it is, a negative index counted from the end. |
| Jukebox.Splice | script.js:318 | `splice(i, 1)` removes exactly the entry at the start position, and the others keep their order. |
| Jukebox.SpliceRemovesOne | script.js:318 | An in-range removal takes exactly that song out of the multiset. |
| Jukebox.SpliceKeepsUnique | script.js:318 | Removal keeps ids unique. |
| Jukebox.ClampIndex | script.js:319-321 | `currentIndex` is pulled back to the last entry (or 0) only when it has fallen off the end. |
| Jukebox.NextIndex | script.js:575-579 | The next index wraps from the last entry to the first. |
| Jukebox.PrevIndex | script.js:569-573 | The previous index wraps from the first entry to the last. |
| Jukebox.NextPrevInverse | script.js:569-579 | Previous undoes next, and next undoes previous. |
| Jukebox.LoopDuration | script.js:522 | Definition: the audio duration unless it is NaN or zero, else the song's. `Jukebox.Player.Tick` states what the loop does with it. |
| Jukebox.AtEnd | script.js:530 | Definition: the auto-advance test, within half a second of the end. `AtEndStays` states that it is monotone, and `Tick` that it advances exactly once. |
| Jukebox.AtEndStays | script.js:530 | Once the auto-advance test holds, it holds at every later position. |
| Jukebox.PlayNotices | script.js:448-464 | Definition: the notices playSong raises. `Jukebox.Player.PlaySong` states when they appear, together with the index, the source and the loop. |
| Jukebox.FormatTimeReadsBack | script.js:606-611 | For a non-negative time the label is minutes digits, a colon and two seconds digits below 60. The minutes times 60 plus the seconds are the whole seconds. |
| Jukebox.FormatTimeNegative | script.js:606-611 | A negative time gets a signed seconds field ("-1:0-5" for -5 s). |
| Jukebox.FormatTime | script.js:606-611 | Definition of the "m:ss" label. `FormatTimeReadsBack` and `FormatTimeNegative` state its meaning. |
| Jukebox.Player.constructor | script.js:2-5 | The player starts with an empty playlist, index 0, not paused, and no loop. |
| Jukebox.Player.CancelLoop | script.js:503-506 | Cancelling clears the pending frame and the loop handle, and nothing else. |
| Jukebox.Player.StartProgressTracking | script.js:501-543 | The previous frame is cancelled before one new frame is scheduled for the current song, so at most one loop is live. |
| Jukebox.Player.AddToPlaylist | script.js:279-310 | A duplicate id changes nothing but a notice. Otherwise exactly one song is appended and ids stay unique. |
| Jukebox.Player.RemoveFromPlaylist | script.js:317-328 | The playlist is spliced and the index clamped only when it fell off the end. An emptied playlist stops playback. |
| Jukebox.Player.PlaySong | script.js:437-468 | An out-of-range index changes nothing. Otherwise the index is set, the player is unpaused, the audio source is set and the loop restarts. |
| Jukebox.Player.Pause | script.js:470-478 | Pause sets the flag, stops the audio and cancels the loop. |
| Jukebox.Player.Resume | script.js:480-485 | Resume clears the flag, plays the audio and restarts the loop. |
| Jukebox.Player.Stop | script.js:487-499 | Stop clears the flag, rewinds the audio to 0 and cancels the loop. |
| Jukebox.Player.NextSong | script.js:575-579 | Next does nothing on an empty playlist and otherwise plays index `(i+1) % n`. |
| Jukebox.Player.PrevSong | script.js:569-573 | Previous does nothing on an empty playlist and otherwise plays index `(i-1+n) % n`. |
| Jukebox.Player.PauseButton | script.js:556-563 | On a non-empty playlist the button flips between pause and resume. |
| Jukebox.Player.Tick | script.js:518-540 | A live frame at the end advances once with no reschedule. Otherwise it updates and reschedules. A stale frame changes nothing. |
| Jukebox.Player.AudioPlays | script.js:520-523 | The audio clock advances only while playing. |
| Jukebox.AtMostOneLoop | script.js:501-506 | In every reachable state at most one animation frame is pending. |
| Jukebox.RemovingEarlierEntryShiftsCurrent | script.js:317-328 | Removing an earlier entry does not decrement the index: the index now names the next song while the loop still plays the old one. |
| Jukebox.EndOfPreviewAdvances | script.js:518-540 | Half a second from the end, a tick advances to the next song at position 0 with one live loop. |
| Jukebox.RemovingLastEntryStops | script.js:317-328 | Removing the only entry stops playback at index 0, with no loop. |
| SpotifyApi.BasePath | src/services/spotifyApi.js:12-14 | The path ends in "/": its own, or one appended. |
| SpotifyApi.BasePathIdempotent | src/services/spotifyApi.js:12-14 | Normalising a path twice is normalising it once. |
| SpotifyApi.RedirectUri | src/services/spotifyApi.js:5-15 | A non-empty override is returned verbatim. Otherwise the result is origin plus path, ending in exactly one added-or-existing "/". |
| SpotifyApi.Entries | src/services/spotifyApi.js:23-28 | The only failure of the entry parse is the URIError of a malformed escape. |
| SpotifyApi.TokenFromHash | src/services/spotifyApi.js:20-31 | Definition: the fragment after "#" parsed into entries, then `access_token` looked up. `TokenRoundTrip`, `LastEntryWins`, `AbsentKeyUnbound` and `BadEscapeThrows` state its meaning. |
| SpotifyApi.AllDecodeParses | src/services/spotifyApi.js:23-28 | When every value decodes, the parse succeeds. |
| SpotifyApi.LastEntryWins | src/services/spotifyApi.js:23-28 | A key is bound to the decoded value of the last item carrying it. |
| SpotifyApi.AbsentKeyUnbound | src/services/spotifyApi.js:23-28 | A key no item carries is unbound. |
| SpotifyApi.BadEscapeThrows | src/services/spotifyApi.js:26 | One value that fails to decode makes the whole parse throw. |
| SpotifyApi.TokenRoundTrip | src/services/spotifyApi.js:20-31 | The fragment `#access_token=<t>&...` yields `t` back when `t` decodes to itself. |
| SpotifyApi.ValueStopsAtSecondEquals | src/services/spotifyApi.js:25-26 | The value is `parts[1]`: the text stops at a second "=". |
| SpotifyApi.IsConfigured | src/services/spotifyApi.js:132-134 | True if and only if the client id has a non-white-space character. |
| SpotifyApi.ImageUrl | src/services/spotifyApi.js:180 | The first image url, else the second, else "". |
| SpotifyApi.JoinLength | src/services/spotifyApi.js:176 | The joined artist line holds all the names plus one separator between each two. |
| SpotifyApi.ArtistLine | src/services/spotifyApi.js:176 | Definition: the names joined with ", ". `ArtistLineSplits` and `JoinLength` state what the line holds. |
| SpotifyApi.ArtistLineSplits | src/services/spotifyApi.js:176 | When no name holds a comma, the line splits at "," back into the first name and each later name behind one space: no name lost or added, order kept. |
| SpotifyApi.MapTrack | src/services/spotifyApi.js:173-183 | Every field is carried over. The duration is `floor(duration_ms / 1000)`. A missing preview is "". |
| SpotifyApi.MapTracks | src/services/spotifyApi.js:173 | One mapped track per input, in order. |
| SpotifyApi.PlayableTracks | src/services/spotifyApi.js:208-220 | Only tracks with a preview are kept, and no more than the input. |
| SpotifyApi.PlayableTracksAppend | src/services/spotifyApi.js:208-220 | The filter preserves order: a concatenation maps to the concatenation. |
| SpotifyApi.PlayableSingle | src/services/spotifyApi.js:209 | An item is kept if and only if it has a track with a preview. |
| SpotifyApi.AllPlayableKept | src/services/spotifyApi.js:208-220 | Playable items are never dropped. |
| SpotifyApi.SeedIdsRoundTrip | src/services/spotifyApi.js:265-268 | The seed list is at most the first five ids, comma-joined, and splits back into them. |
| SpotifyApi.SeedIds | src/services/spotifyApi.js:267 | Definition: the first five ids joined with ",". `SeedIdsRoundTrip` states that they split back. |
| SpotifyApi.Outcome | src/services/spotifyApi.js:146-161 | A 401 yields null. Another non-OK status throws "API request failed: <status>". An OK response yields its body. A network or parse error is rethrown. |
| SpotifyApi.Unauthorized | src/services/spotifyApi.js:146 | Definition: the number of sign-ins one reply starts. `Session.MakeRequest` and `Session.Sent` state its effect on the stored token and the sign-in count. |
| SpotifyApi.Session.constructor | src/services/spotifyApi.js:34-37 | The session starts from the token in storage, with nothing sent and no sign-in started. |
| SpotifyApi.Session.RemoveToken | src/services/spotifyApi.js:45-47 | The stored token is removed. |
| SpotifyApi.Session.MakeRequest | src/services/spotifyApi.js:137-162 | The request is logged. A 401 removes the stored token and starts a sign-in. The result is `Outcome`. |
| SpotifyApi.Session.SearchTracks | src/services/spotifyApi.js:165-184 | An empty query or token gives `[]` with no request. Otherwise a null response or one without `tracks` gives `[]`, and anything else is mapped. |
| SpotifyApi.Session.FeaturedTracks | src/services/spotifyApi.js:187-199 | The tracks of the first featured playlist, or `[]` when there is none. |
| SpotifyApi.Session.PlaylistTracksOf | src/services/spotifyApi.js:202-221 | The playable tracks of the playlist. |
| SpotifyApi.Session.SavedTracksOf | src/services/spotifyApi.js:224-241 | The mapped saved tracks, or `[]` for a null or item-less response. |
| SpotifyApi.Session.TopTracksOf | src/services/spotifyApi.js:244-261 | The mapped top tracks, or `[]` for a null or item-less response. |
| SpotifyApi.Session.RecommendationsFor | src/services/spotifyApi.js:264-284 | No seeds gives `[]` with no request. Otherwise at most five seed ids are sent and the tracks are mapped. |
| PlayerView.FormatTimeAgrees | src/components/Player.jsx:23-28 | For every non-negative time the Player's label equals script.js's label. |
| PlayerView.FormatTime | src/components/Player.jsx:23-28 | Definition of the Player's label. `FormatTimeAgrees`, `SecondsFieldTwoDigits` and `NegativeTimeLabel` state its meaning. |
| PlayerView.SecondsFieldTwoDigits | src/components/Player.jsx:25-27 | For a non-negative time the seconds field is two digits below 60, and the label reads back to the whole seconds. |
| PlayerView.NegativeTimeLabel | src/components/Player.jsx:23-28 | On a negative time `padStart` leaves "-5" as it is, so the Player's label differs from script.js's. |
| PlayerView.Progress | src/components/Player.jsx:46 | The progress is 0 when the duration is not positive. Otherwise it is elapsed/duration times 100, within 0..100 for an elapsed time within the duration. |
| PlayerView.Changed | src/components/Player.jsx:30-34 | The new volume is the slider value, muted exactly when it is 0. |
| PlayerView.Toggled | src/components/Player.jsx:36-44 | Muted or silent goes to 70 unmuted. Anything else goes to 0 muted. Afterwards muted holds if and only if the volume is 0. |
| PlayerView.ToggleTwice | src/components/Player.jsx:37-43 | Two toggles from an audible volume end at 70, not at the volume the user had. |
| PlayerView.ToggleFlips | src/components/Player.jsx:36-44 | From a consistent state each toggle flips muted. |
| PlayerView.SliderValue | src/components/Player.jsx:174 | The slider shows 0 while muted and the volume otherwise. |
| PlayerView.VolumeControl.constructor | src/components/Player.jsx:21 | The control starts at volume 70, unmuted. |
| PlayerView.VolumeControl.HandleVolumeChange | src/components/Player.jsx:30-34 | The state becomes `Changed(v)`. |
| PlayerView.VolumeControl.ToggleMute | src/components/Player.jsx:36-44 | The state becomes `Toggled` of the old state. |
| PlayerView.SliderThenToggleTwice | src/components/Player.jsx:30-44 | A slider move to 45 and two toggles leave the volume at 70, unmuted. |
| TrackList.LabelMatchesPlayer | src/components/TrackList.jsx:49 | For a non-negative duration the row label equals the Player's formatTime of it. |
| TrackList.DurationLabel | src/components/TrackList.jsx:49 | Definition of the row label. `LabelMatchesPlayer` states that it is the Player's label. |
| TrackList.Rows | src/components/TrackList.jsx:18-50 | One row per track, in order. A row is highlighted if and only if its id is the current track's id. Each row carries its duration label. |
| TrackList.AtMostOneHighlighted | src/components/TrackList.jsx:23 | With unique ids at most one row is highlighted, and the current track's row is highlighted. |
| TrackList.Click | src/components/TrackList.jsx:21 | Definition: the clicked row's track. `ClickHighlightsRow` states the effect of the click. |
| TrackList.ClickHighlightsRow | src/components/TrackList.jsx:21-23 | After a click exactly the clicked row is highlighted. |
| SpotifyApp.FindIndex | src/App.jsx:144 | The first index with the current track's id, or -1 (always -1 with no current track). |
| SpotifyApp.FindMember | src/App.jsx:144 | With unique ids a track is found at its own index. |
| SpotifyApp.NextTrack | src/App.jsx:142-148 | The track after the current one. The last wraps to the first, and an absent current track gives the first. |
| SpotifyApp.PrevTrack | src/App.jsx:150-156 | The track before the current one, the first giving the last. An absent current track selects none (index -2). |
| SpotifyApp.NextPrevInverse | src/App.jsx:142-156 | With unique ids, previous undoes next and next undoes previous. |
| SpotifyApp.Render | src/App.jsx:171-262 | Login if and only if there is no token. Loading if and only if loading with no tracks. "No tracks" if and only if not loading and there is no current track or no tracks. Otherwise the player, or a failing render. |
| SpotifyApp.Source | src/App.jsx:228-233 | The audio element's `src` is present exactly on the player screen, and it is then the current track's preview URL. |
| SpotifyApp.App.ValidNeverFails | src/App.jsx:171-230 | In every reachable state the render never fails and Previous always selects a track. |
| SpotifyApp.App.constructor | src/App.jsx:15-22 | The initial state shows the login screen. |
| SpotifyApp.App.Rerender | src/App.jsx:228-233 | After a render the element holds the view's `src`. A changed `src` (mounting and unmounting included) reloads it at time 0, and an unchanged one keeps its position. |
| SpotifyApp.App.Adopt | src/App.jsx:67-81 | The end of a load. A non-empty list is adopted with its first track current, loading ends false, and the audio element follows the new render. |
| SpotifyApp.App.HandleNext | src/App.jsx:142-148 | No-op on an empty list. Otherwise the current track becomes `NextTrack` and the time is reset to 0. The audio element reloads at 0 exactly when its `src` changed. |
| SpotifyApp.App.HandlePrevious | src/App.jsx:150-156 | No-op on an empty list. Otherwise the current track becomes `PrevTrack` and the time is reset to 0. The audio element reloads at 0 exactly when its `src` changed. |
| SpotifyApp.App.HandleEnded | src/App.jsx:158-160 | Exactly `HandleNext`. |
| SpotifyApp.App.SelectTrack | src/components/TrackList.jsx:21 | The clicked track becomes current, and the audio element follows its `src`. |
| SpotifyApp.App.HandleSeek | src/App.jsx:135-140 | With the audio mounted, both the audio time and the shown time take the requested value. Otherwise nothing changes. |
| SpotifyApp.App.HandleTimeUpdate | src/App.jsx:129-133 | With the audio mounted, the shown time takes the audio element's time. |
| SpotifyApp.App.TogglePlay | src/components/Player.jsx:128 | The play button flips `isPlaying` and changes nothing else. |
| SpotifyApp.App.AudioPlays | src/App.jsx:112-127 | The element's clock advances by the elapsed time exactly when the playback effect has it playing: mounted, `isPlaying`, and a non-empty preview URL. Otherwise it stays put. |
| SpotifyApp.App.HandleLogout | src/App.jsx:162-168 | The stored token is removed. Token, tracks and current track are cleared, playback stops, and the login screen shows. The audio element is unmounted, so its clock is back at 0. |
| SpotifyApp.App.HandleSearch | src/App.jsx:86-103 | Nothing happens without a token or with a blank query. Otherwise a non-empty result is adopted with its first track current, an empty one changes nothing, and an error alerts. Loading ends false, and the audio element follows its `src`. |
| SpotifyApp.App.LoadInitialTracks | src/App.jsx:63-83 | Top tracks if any. Otherwise the "popular songs 2024" search with limit 20. Errors are swallowed, loading ends false, and the audio element follows its `src`. |
| SpotifyApp.App.InitializeToken | src/App.jsx:53-60 | A stored token becomes the App's token and starts the initial load. Without one nothing happens. The audio element's clock stays only if its `src` is unchanged both at the render with the new token and after the load. |
| SpotifyApp.NextThenPreviousReturns | src/App.jsx:142-156 | Next then Previous returns to the first track. |
| SpotifyApp.PreviousFromFirstGoesToLast | src/App.jsx:150-156 | Previous from the first track selects the last one and resets the time. |
| SpotifyApp.NextAfterSeekStartsOver | src/App.jsx:228-233 | A seek and then Next to a track with another preview URL: the next time update shows 0. |
| SpotifyApp.NextOnSamePreviewKeepsPosition | src/App.jsx:228-233 | When both tracks share a preview URL, `src` does not change, and the next time update brings the earlier 12 s back. |
| SpotifyApp.PlayingAdvancesTime | src/App.jsx:112-133 | After Play and 3 s of playback the shown time is 3 s if the track has a preview, and 0 otherwise. |
| SpotifyApp.EmptyTopTracksFallBack | src/App.jsx:66-76 | With no top tracks the fallback search's tracks are shown, after exactly two requests. |
| SpotifyApp.UnauthorizedSearchStartsSignIn | src/services/spotifyApi.js:146-151 | A search answered 401 removes the stored token and starts exactly one sign-in. handleSearch leaves the App's token, tracks and screen untouched and raises no alert of its own. The sign-in's redirect is not modelled. |
| SpotifyApp.FailedSearchAlerts | src/App.jsx:97-99 | A failed search alerts and keeps the tracks. |
| SpotifyApp.BlankSearchSendsNothing | src/App.jsx:87 | A blank query sends no request. |
| SpotifyApp.LogoutShowsLogin | src/App.jsx:162-172 | After logout the login screen shows, and a seek no longer moves the time. |

## Left out

- DOM and HTML rendering are not modelled: result and playlist markup, slider CSS, notifications as elements, modals, and all JSX markup. Notifications and alerts are kept as lists of messages.
- Colour theming (script.js:629-879) is floating-point HSL arithmetic over canvas pixels.
- Real `fetch`, `AbortController`, `setTimeout`, `requestAnimationFrame` and the `<audio>` element become explicit inputs: replies, timer firings, frame ticks, the ready flag and the audio clock.
- Times are whole milliseconds. Fractional milliseconds, Infinity and floating-point rounding of the progress percentage are not modelled.
- A rejected `audio.play()` and its notification are not modelled: the promise rejection comes from the browser.
- Jukebox.PlayNotices: does not include the notification of a rejected `play()`, for the reason above.
- `getAccessToken` (the implicit-grant authorization redirect, its `sessionStorage` record and its console output) is left out, and so are the `window.location` writes: they are redirects and browser storage. A 401's sign-in is only counted (`reauths`). The page then leaves the player for the authorization page, or alerts when no client id is set (src/services/spotifyApi.js:66-125). The App state the model states after a 401 is the state just before that.
- The hash clearing in `getTokenFromUrl` (src/services/spotifyApi.js:30) is not modelled; only the parse is. `decodeURIComponent` is a parameter (`None` for a URIError), and a `__proto__` key's special assignment is not modelled.
- SpotifyApi.IsConfigured: returns the truth value of `CLIENT_ID && CLIENT_ID.trim() !== ''`, not the empty string it yields for an empty id, because callers only test its truth.
- `getCodeFromUrl`, which App.jsx imports, is not defined in the service module, so the mount effect (src/App.jsx:26-50) is left out. `InitializeToken` models the stored-token path it ends in.
- The volume effect (src/App.jsx:106-110), which copies the App's `volume` into `audio.volume`, is left out. Of the playback effect (src/App.jsx:112-127) only whether the element's clock runs is modelled (`AudioRunning`).
- SpotifyApp.App.AudioPlays: the clock is not bounded by the preview's length. An ended element that `play()` restarts from the beginning is not modelled, because the end of the media is the browser's.
- The Login and Search components are UI glue. Search's blank-query guard repeats `handleSearch`'s.
- The search panel's open and close flags and the track-list toggle are not modelled; they only flip booleans.
- `isTokenExpired` always returns false and has no behaviour to state.
- Request URLs and their percent-encoding are abstracted to a `Request` datatype.
- Saved-track items are taken by their track. A saved item with a null track, which would throw, is not modelled.
- Each awaited call in `handleSearch`, `loadInitialTracks` and `handleTokenInitialization` completes inside its handler. Interleavings with other handlers during an await are not modelled, so `isLoading` is only seen false after each handler.
- Strings are sequences of characters. UTF-16 code units, surrogate pairs and Unicode white space beyond the characters `IsSpace` lists are not modelled.
- `NatToString` writes every number in plain digits. JavaScript switches to exponent notation from 1e21.
- The click-outside handler (script.js:95-100) only hides the drop-down and is not modelled.
- The progress bar's width and the elapsed-time DOM labels (script.js:523-527) are not modelled; the label text is `FormatTime`.
- The favourite button (script.js:565-567) only toggles a CSS class and is not modelled.
- The previous and next buttons' own empty-playlist checks repeat those of `prevSong` and `nextSong`, which are modelled.
