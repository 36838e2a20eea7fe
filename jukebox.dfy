/**
 * The playlist and playback half of script.js (script.js:2-5, 279-328,
 * 437-611): the module-level `playlist`, `currentIndex`, `isPaused` and
 * `progressInterval`, the `<audio>` element's source, position and
 * play state, the notifications shown, and the animation-frame progress
 * loop with the closure state of each pending frame.
 */
module Jukebox {
  import opened Wrappers
  import opened JsBuiltins
  import Deezer

  /** A playlist entry as addToPlaylist builds it; `fullTrack` is always null and is left out. */
  datatype Song = Song(
    id: int,
    title: string,
    artist: string,
    album: string,
    cover: string,
    duration: int,          // whole seconds, as Deezer reports them
    preview: string,        // "" when the track has no preview
    link: string,
    youtubeSearch: string)

  /** What a scheduled `updateProgress` closure holds: the song captured when the loop started, and its `lastUpdate`. */
  datatype Frame = Frame(song: Song, lastUpdate: int)

  const AlreadyInPlaylist := "Song already in playlist!"
  const PreviewOnly := "Playing 30-second preview. Full tracks require premium API access."
  const NoPreview := "Audio preview not available for this song."

  /**
   * The song addToPlaylist makes of a search result (script.js:284-300):
   * the cover is the first non-empty of the medium, big and plain covers
   * (the plain one when all are empty), and the YouTube search text is
   * the title and the artist.
   */
  function ToSong(t: Deezer.Track): (s: Song)
    ensures s.id == t.id && s.title == t.title && s.artist == t.artistName && s.album == t.albumTitle
    ensures s.duration == t.duration && s.preview == t.preview && s.link == t.link
    ensures s.cover == t.coverMedium || s.cover == t.coverBig || s.cover == t.cover
    ensures t.coverMedium != [] ==> s.cover == t.coverMedium
    ensures s.cover == [] <==> t.coverMedium == [] && t.coverBig == [] && t.cover == []
    ensures s.youtubeSearch == t.title + " " + t.artistName
  {
    var cover := if t.coverMedium != [] then t.coverMedium else if t.coverBig != [] then t.coverBig else t.cover;
    Song(t.id, t.title, t.artistName, t.albumTitle, cover, t.duration, t.preview, t.link, t.title + " " + t.artistName)
  }

  /** The notification `Added "<title>" to playlist!`. */
  function AddedNotice(title: string): string {
    "Added \"" + title + "\" to playlist!"
  }

  /**
   * No two playlist entries share an id: the invariant addToPlaylist's
   * duplicate check keeps (script.js:281-284).
   */
  predicate UniqueIds(s: seq<Song>) {
    forall i, j :: 0 <= i < j < |s| ==> s[i].id != s[j].id
  }

  predicate HasId(s: seq<Song>, id: int) {
    exists i :: 0 <= i < |s| && s[i].id == id
  }

  /** Appending a song whose id is new keeps the ids unique. */
  lemma AppendKeepsUnique(s: seq<Song>, x: Song)
    requires UniqueIds(s) && !HasId(s, x.id)
    ensures UniqueIds(s + [x])
  {
    forall i, j | 0 <= i < j < |s + [x]| ensures (s + [x])[i].id != (s + [x])[j].id {
      if j == |s| {
        assert (s + [x])[i] == s[i];
      }
    }
  }

  /** Where `splice(i, 1)` starts on an array of length n: a negative index counts from the end. */
  function SpliceStart(i: int, n: nat): (k: nat)
    ensures k <= n
    ensures 0 <= i < n ==> k == i
    ensures -(n as int) <= i < 0 ==> k as int == n as int + i
  {
    if i < 0 then (if n + i < 0 then 0 else n + i) else if i < n then i else n
  }

  /**
   * The array `splice(i, 1)` leaves behind: the element at the start
   * position removed, when there is one (an index past the end removes
   * nothing).
   */
  function Splice(s: seq<Song>, i: int): (r: seq<Song>)
    ensures SpliceStart(i, |s|) < |s| ==> |r| == |s| - 1
    ensures SpliceStart(i, |s|) == |s| ==> r == s
    ensures var k := SpliceStart(i, |s|);
      (forall j :: 0 <= j < k && j < |r| ==> r[j] == s[j]) && (forall j :: k <= j < |r| ==> r[j] == s[j + 1])
  {
    var k := SpliceStart(i, |s|);
    if k < |s| then s[..k] + s[k + 1..] else s
  }

  /** Removing an in-range entry takes exactly that entry out of the multiset of songs. */
  lemma SpliceRemovesOne(s: seq<Song>, i: int)
    requires 0 <= i < |s|
    ensures multiset(Splice(s, i)) + multiset{s[i]} == multiset(s)
  {
    assert s == s[..i] + [s[i]] + s[i + 1..];
    assert Splice(s, i) == s[..i] + s[i + 1..];
  }

  /** What a splice keeps, keeps unique ids. */
  lemma SpliceKeepsUnique(s: seq<Song>, i: int)
    requires UniqueIds(s)
    ensures UniqueIds(Splice(s, i))
  {
    var r, k := Splice(s, i), SpliceStart(i, |s|);
    forall a, b | 0 <= a < b < |r| ensures r[a].id != r[b].id {
      var a' := if a < k then a else a + 1;
      var b' := if b < k then b else b + 1;
      assert r[a] == s[a'] && r[b] == s[b'];
    }
  }

  /** `currentIndex` after a removal: pulled back to the last entry only when it has fallen off the end. */
  function ClampIndex(current: nat, n: nat): (k: nat)
    ensures current < n ==> k == current
    ensures current >= n ==> k == if n == 0 then 0 else n - 1
    ensures k < n || k == 0
  {
    if current >= n then (if n == 0 then 0 else n - 1) else current
  }

  /** nextSong's index: one on, the last wrapping to the first. */
  function NextIndex(i: nat, n: nat): (k: nat)
    requires i < n
    ensures k < n
    ensures i + 1 < n ==> k == i + 1
    ensures i == n - 1 ==> k == 0
  {
    (i + 1) % n
  }

  /** prevSong's index: one back, the first wrapping to the last. */
  function PrevIndex(i: nat, n: nat): (k: nat)
    requires i < n
    ensures k < n
    ensures i > 0 ==> k == i - 1
    ensures i == 0 ==> k == n - 1
  {
    (i - 1 + n) % n
  }

  /** Previous undoes next and next undoes previous. */
  lemma NextPrevInverse(i: nat, n: nat)
    requires i < n
    ensures PrevIndex(NextIndex(i, n), n) == i
    ensures NextIndex(PrevIndex(i, n), n) == i
  {
  }

  /**
   * The length the progress loop measures against, in milliseconds:
   * the audio element's duration unless it is NaN or zero, else the
   * song's own (script.js:522).
   */
  function LoopDuration(audioDuration: Num, song: Song): int {
    if Falsy(audioDuration) then song.duration * 1000 else audioDuration.ms
  }

  /** The auto-advance test (script.js:529): the position is within half a second of the end, or past it. */
  predicate AtEnd(current: int, audioDuration: Num, song: Song) {
    current >= LoopDuration(audioDuration, song) - 500
  }

  /** Once the loop would advance, it would at every later position too. */
  lemma AtEndStays(current: int, later: int, audioDuration: Num, song: Song)
    requires AtEnd(current, audioDuration, song) && current <= later
    ensures AtEnd(later, audioDuration, song)
  {
  }

  /** The notifications playSong raises for a song (script.js:448-464), apart from a rejected play(). */
  function PlayNotices(song: Song): seq<string> {
    if song.preview == [] then [NoPreview] else if song.duration > 30 then [PreviewOnly] else []
  }

  /**
   * script.js's formatTime (script.js:606-611) on a number of seconds
   * held in milliseconds: "0:00" for zero or NaN, otherwise the floored
   * minutes, a colon, and the seconds `Math.floor(seconds % 60)` with a
   * "0" put before any value under ten. The `%` keeps the sign of its
   * left operand, so negative times give odd labels (see FormatTimeNegative).
   */
  function FormatTime(t: Num): string {
    if Falsy(t) then "0:00"
    else
      var m := FloorDiv(t.ms, 60000);
      var s := FloorDiv(TruncRem(t.ms, 60000), 1000);
      IntToString(m) + ":" + (if s < 10 then "0" else "") + IntToString(s)
  }

  /**
   * For a non-negative time the label reads back: minutes digits, a
   * colon, exactly two seconds digits below 60, and minutes * 60 +
   * seconds is the time floored to whole seconds.
   */
  lemma FormatTimeReadsBack(ms: nat)
    ensures var r := FormatTime(Ms(ms)); var k := |r| - 3;
      && k >= 1 && r[k] == ':' && AllDigits(r[..k]) && AllDigits(r[k + 1..])
      && DigitsValue(r[k + 1..]) < 60
      && DigitsValue(r[..k]) * 60 + DigitsValue(r[k + 1..]) == ms / 1000
  {
    var r := FormatTime(Ms(ms));
    var m, s := ms / 60000, (ms % 60000) / 1000;
    var mm, ss := NatToString(m), TwoDigits(s);
    TwoDigitsValue(s);
    DigitsRoundTrip(m);
    SecondsSplit(ms);
    if ms == 0 {
      assert r == "0:00";
      assert r[..1] == "0" && r[2..] == "00";
    } else {
      assert r == mm + ":" + ss;
      assert r[..|mm|] == mm && r[|mm| + 1..] == ss;
    }
  }

  /** The seconds field for 0 <= s < 60: two digits, a leading zero below ten. */
  function TwoDigits(s: nat): string
    requires s < 60
  {
    (if s < 10 then "0" else "") + IntToString(s)
  }

  lemma TwoDigitsValue(s: nat)
    requires s < 60
    ensures |TwoDigits(s)| == 2 && AllDigits(TwoDigits(s)) && DigitsValue(TwoDigits(s)) == s
  {
    DigitsRoundTrip(s);
    if s < 10 {
      assert TwoDigits(s)[..1] == "0";
    }
  }

  lemma SecondsSplit(ms: nat)
    ensures (ms / 60000) * 60 + (ms % 60000) / 1000 == ms / 1000
  {
    var m, r := ms / 60000, ms % 60000;
    var q, e := r / 1000, r % 1000;
    assert ms == 1000 * (60 * m + q) + e;
  }

  /** A negative time (the progress loop never passes one) gets a negative minute and a signed seconds field. */
  lemma FormatTimeNegative()
    ensures FormatTime(Ms(-5000)) == "-1:0-5"
  {
    assert FloorDiv(-5000, 60000) == -1;
    assert TruncRem(-5000, 60000) == -5000;
    assert FloorDiv(-5000, 1000) == -5;
  }

  /** The vanilla player's playlist, transport and progress loop. */
  class Player {
    var playlist: seq<Song>
    var currentIndex: nat
    var isPaused: bool
    var progressInterval: Option<nat>       // the last requestAnimationFrame handle, null after a cancel
    var frames: map<nat, Frame>             // animation frames scheduled and not yet run or cancelled
    var nextHandle: nat                     // the handle the next requestAnimationFrame returns
    var audioSrc: string
    var audioTime: int                      // audioPlayer.currentTime, in milliseconds
    var audioPlaying: bool
    var notices: seq<string>

    /**
     * Ids are unique; `currentIndex` is on an entry, or 0 for an empty
     * playlist; every pending frame is the one `progressInterval` names,
     * so at most one loop is live, and none is while paused or with an
     * empty playlist.
     */
    ghost predicate Valid()
      reads this
    {
      && Sound()
      && (forall h :: h in frames ==> |playlist| > 0)
    }

    /** Valid short of the link between pending frames and a non-empty playlist, which a removal breaks until it stops. */
    ghost predicate Sound()
      reads this
    {
      && UniqueIds(playlist)
      && (currentIndex < |playlist| || currentIndex == 0)
      && nextHandle >= 1
      && (progressInterval.Some? ==> 1 <= progressInterval.value < nextHandle)
      && (forall h :: h in frames ==> progressInterval == Some(h) && !isPaused)
    }

    /** The frames scheduled by one restart of the loop for `song`, with `lastUpdate` at `last`. */
    twostate predicate Scheduled(song: Song, last: int)
      reads this
    {
      && nextHandle == old(nextHandle) + 1 && progressInterval == Some(old(nextHandle))
      && frames == map[old(nextHandle) := Frame(song, last)]
    }

    /**
     * The effect of playSong(index) on an in-range index (script.js:437-468):
     * the index becomes current, a song with a preview is loaded from the
     * start and played, the notices are raised, the player is unpaused and
     * the loop restarted on that song.
     */
    twostate predicate Played(index: nat)
      reads this
    {
      && index < |old(playlist)|
      && var song := old(playlist)[index];
      && playlist == old(playlist) && currentIndex == index && !isPaused
      && (if song.preview != [] then audioSrc == song.preview && audioTime == 0 && audioPlaying
          else audioSrc == old(audioSrc) && audioTime == old(audioTime) && audioPlaying == old(audioPlaying))
      && notices == old(notices) + PlayNotices(song)
      && Scheduled(song, 0)
    }

    constructor ()
      ensures Valid()
      ensures playlist == [] && currentIndex == 0 && !isPaused && progressInterval == None
      ensures frames == map[] && audioSrc == [] && audioTime == 0 && !audioPlaying && notices == []
    {
      playlist, currentIndex, isPaused := [], 0, false;
      progressInterval, frames, nextHandle := None, map[], 1;
      audioSrc, audioTime, audioPlaying := [], 0, false;
      notices := [];
    }

    /** `cancelAnimationFrame(progressInterval)` and clearing the handle: with the invariant, nothing stays pending. */
    method CancelLoop()
      requires Valid()
      modifies this
      ensures Valid()
      ensures frames == map[] && progressInterval == None
      ensures playlist == old(playlist) && currentIndex == old(currentIndex) && isPaused == old(isPaused)
      ensures nextHandle == old(nextHandle) && audioSrc == old(audioSrc) && audioTime == old(audioTime)
      ensures audioPlaying == old(audioPlaying) && notices == old(notices)
    {
      if progressInterval.Some? {
        frames := frames - {progressInterval.value};
        progressInterval := None;
      }
      assert forall h :: h !in frames;
      assert frames == map[];
    }

    /**
     * startProgressTracking (script.js:501-543): cancel the pending frame,
     * then, when there is an active entry, schedule one frame for the
     * current song with `lastUpdate` 0.
     */
    method StartProgressTracking()
      requires Valid() && !isPaused
      modifies this
      ensures Valid()
      ensures |playlist| == 0 ==> frames == map[] && progressInterval == None && nextHandle == old(nextHandle)
      ensures |playlist| > 0 ==> Scheduled(playlist[currentIndex], 0)
      ensures playlist == old(playlist) && currentIndex == old(currentIndex) && isPaused == old(isPaused)
      ensures audioSrc == old(audioSrc) && audioTime == old(audioTime)
      ensures audioPlaying == old(audioPlaying) && notices == old(notices)
    {
      CancelLoop();
      if |playlist| == 0 {
        return;
      }
      var h := nextHandle;
      nextHandle := nextHandle + 1;
      frames := map[h := Frame(playlist[currentIndex], 0)];
      progressInterval := Some(h);
    }

    /**
     * addToPlaylist (script.js:279-310): an id already present only
     * raises a notice; otherwise the song is appended and announced.
     */
    method AddToPlaylist(t: Deezer.Track)
      requires Valid()
      modifies this
      ensures Valid()
      ensures HasId(old(playlist), t.id) ==> playlist == old(playlist) && notices == old(notices) + [AlreadyInPlaylist]
      ensures !HasId(old(playlist), t.id) ==>
        playlist == old(playlist) + [ToSong(t)] && notices == old(notices) + [AddedNotice(t.title)]
      ensures currentIndex == old(currentIndex) && isPaused == old(isPaused) && progressInterval == old(progressInterval)
      ensures frames == old(frames) && nextHandle == old(nextHandle)
      ensures audioSrc == old(audioSrc) && audioTime == old(audioTime) && audioPlaying == old(audioPlaying)
    {
      if exists i :: 0 <= i < |playlist| && playlist[i].id == t.id {
        notices := notices + [AlreadyInPlaylist];
        return;
      }
      var song := ToSong(t);
      AppendKeepsUnique(playlist, song);
      playlist := playlist + [song];
      notices := notices + [AddedNotice(song.title)];
    }

    /**
     * removeFromPlaylist (script.js:317-328): splice the entry out, pull
     * `currentIndex` back only when it has fallen off the end, and stop
     * playback when the playlist is left empty.
     */
    method RemoveFromPlaylist(index: int)
      requires Valid()
      modifies this
      ensures Valid()
      ensures playlist == Splice(old(playlist), index)
      ensures currentIndex == ClampIndex(old(currentIndex), |playlist|)
      ensures |playlist| > 0 ==>
        && isPaused == old(isPaused) && progressInterval == old(progressInterval) && frames == old(frames)
        && audioTime == old(audioTime) && audioPlaying == old(audioPlaying)
      ensures |playlist| == 0 ==>
        && !isPaused && progressInterval == None && frames == map[] && audioTime == 0 && !audioPlaying
      ensures nextHandle == old(nextHandle) && audioSrc == old(audioSrc) && notices == old(notices)
    {
      SpliceKeepsUnique(playlist, index);
      playlist := Splice(playlist, index);
      if currentIndex >= |playlist| {
        currentIndex := if |playlist| == 0 then 0 else |playlist| - 1;
      }
      if |playlist| == 0 {
        Stop();
      }
    }

    /** playSong (script.js:437-468): out-of-range indices are ignored. */
    method PlaySong(index: int)
      requires Valid()
      modifies this
      ensures Valid()
      ensures !(0 <= index < |old(playlist)|) ==> unchanged(this)
      ensures 0 <= index < |old(playlist)| ==> Played(index)
    {
      if index < 0 || index >= |playlist| {
        return;
      }
      var song := playlist[index];
      currentIndex := index;
      if song.preview != [] {
        audioSrc, audioTime, audioPlaying := song.preview, 0, true;
        if song.duration > 30 {
          notices := notices + [PreviewOnly];
        }
      } else {
        notices := notices + [NoPreview];
      }
      isPaused := false;
      StartProgressTracking();
    }

    /** pausePlayback (script.js:470-478): pause the audio, set the flag, cancel the loop. */
    method Pause()
      requires Valid()
      modifies this
      ensures Valid()
      ensures isPaused && !audioPlaying && frames == map[] && progressInterval == None
      ensures playlist == old(playlist) && currentIndex == old(currentIndex) && nextHandle == old(nextHandle)
      ensures audioSrc == old(audioSrc) && audioTime == old(audioTime) && notices == old(notices)
    {
      audioPlaying := false;
      CancelLoop();
      isPaused := true;
    }

    /** resumePlayback (script.js:480-485): play the audio, clear the flag, restart the loop. */
    method Resume()
      requires Valid()
      modifies this
      ensures Valid()
      ensures !isPaused && audioPlaying
      ensures |playlist| > 0 ==> Scheduled(playlist[currentIndex], 0)
      ensures |playlist| == 0 ==> frames == map[] && progressInterval == None && nextHandle == old(nextHandle)
      ensures playlist == old(playlist) && currentIndex == old(currentIndex)
      ensures audioSrc == old(audioSrc) && audioTime == old(audioTime) && notices == old(notices)
    {
      audioPlaying := true;
      isPaused := false;
      StartProgressTracking();
    }

    /** stopPlayback (script.js:487-499): pause the audio, rewind it, clear the flag, cancel the loop. */
    method Stop()
      requires Sound()
      modifies this
      ensures Valid()
      ensures !isPaused && !audioPlaying && audioTime == 0 && frames == map[] && progressInterval == None
      ensures playlist == old(playlist) && currentIndex == old(currentIndex) && nextHandle == old(nextHandle)
      ensures audioSrc == old(audioSrc) && notices == old(notices)
    {
      audioPlaying, audioTime := false, 0;
      isPaused := false;
      if progressInterval.Some? {
        frames := frames - {progressInterval.value};
        progressInterval := None;
      }
      assert forall h :: h !in frames;
      assert frames == map[];
    }

    /** nextSong (script.js:575-579): nothing on an empty playlist, otherwise play the next entry, wrapping. */
    method NextSong()
      requires Valid()
      modifies this
      ensures Valid()
      ensures |old(playlist)| == 0 ==> unchanged(this)
      ensures |old(playlist)| > 0 ==> Played(NextIndex(old(currentIndex), |old(playlist)|))
    {
      if |playlist| == 0 {
        return;
      }
      currentIndex := NextIndex(currentIndex, |playlist|);
      PlaySong(currentIndex);
    }

    /** prevSong (script.js:569-573): nothing on an empty playlist, otherwise play the previous entry, wrapping. */
    method PrevSong()
      requires Valid()
      modifies this
      ensures Valid()
      ensures |old(playlist)| == 0 ==> unchanged(this)
      ensures |old(playlist)| > 0 ==> Played(PrevIndex(old(currentIndex), |old(playlist)|))
    {
      if |playlist| == 0 {
        return;
      }
      currentIndex := PrevIndex(currentIndex, |playlist|);
      PlaySong(currentIndex);
    }

    /** The pause button (script.js:556-563): on a non-empty playlist, resume when paused and pause otherwise. */
    method PauseButton()
      requires Valid()
      modifies this
      ensures Valid()
      ensures |old(playlist)| == 0 ==> unchanged(this)
      ensures |old(playlist)| > 0 ==> isPaused == !old(isPaused) && audioPlaying == old(isPaused)
      ensures playlist == old(playlist) && currentIndex == old(currentIndex)
      ensures |old(playlist)| > 0 && old(isPaused) ==> Scheduled(playlist[currentIndex], 0)
      ensures |old(playlist)| > 0 && !old(isPaused) ==> frames == map[] && progressInterval == None
    {
      if |playlist| == 0 {
        return;
      }
      if isPaused {
        Resume();
      } else {
        Pause();
      }
    }

    /**
     * The browser runs animation frame `h` at time `ts` (ms) with the
     * audio's ready state and duration (script.js:517-540). A frame that
     * is not pending does nothing. Otherwise, once 100 ms have passed
     * since `lastUpdate`, a ready and playing audio at its end advances to
     * the next song and ends this loop (the advance starts a new one);
     * else `lastUpdate` moves to `ts` when due, and the next frame is
     * scheduled while not paused.
     */
    method Tick(h: nat, ts: int, ready: bool, audioDuration: Num)
      requires Valid()
      modifies this
      ensures Valid()
      ensures h !in old(frames) ==> unchanged(this)
      ensures h in old(frames) ==>
        var f := old(frames)[h];
        var due := ts - f.lastUpdate >= 100;
        if due && ready && AtEnd(old(audioTime), audioDuration, f.song) then
          Played(NextIndex(old(currentIndex), |old(playlist)|))
        else
          && Scheduled(f.song, if due then ts else f.lastUpdate)
          && playlist == old(playlist) && currentIndex == old(currentIndex) && isPaused == old(isPaused)
          && audioSrc == old(audioSrc) && audioTime == old(audioTime) && audioPlaying == old(audioPlaying)
          && notices == old(notices)
    {
      if h !in frames {
        return;
      }
      var f := frames[h];
      frames := frames - {h};
      assert frames == map[];
      var lastUpdate := f.lastUpdate;
      if ts - lastUpdate >= 100 {
        if ready && !isPaused {
          if audioTime >= LoopDuration(audioDuration, f.song) - 500 {
            NextSong();
            return;
          }
        }
        lastUpdate := ts;
      }
      if !isPaused {
        var h' := nextHandle;
        nextHandle := nextHandle + 1;
        frames := map[h' := Frame(f.song, lastUpdate)];
        progressInterval := Some(h');
      }
    }

    /** The audio element playing on for `elapsed` ms; a paused element stays where it is. */
    method AudioPlays(elapsed: nat)
      requires Valid()
      modifies this
      ensures Valid()
      ensures audioTime == old(audioTime) + (if old(audioPlaying) then elapsed else 0)
      ensures playlist == old(playlist) && currentIndex == old(currentIndex) && isPaused == old(isPaused)
      ensures progressInterval == old(progressInterval) && frames == old(frames) && nextHandle == old(nextHandle)
      ensures audioSrc == old(audioSrc) && audioPlaying == old(audioPlaying) && notices == old(notices)
    {
      if audioPlaying {
        audioTime := audioTime + elapsed;
      }
    }
  }

  /** A player's invariant allows at most one live progress loop. */
  lemma AtMostOneLoop(p: Player)
    requires p.Valid()
    ensures |p.frames.Keys| <= 1
  {
    if p.progressInterval.None? {
      assert p.frames.Keys == {};
    } else if p.progressInterval.value in p.frames {
      assert p.frames.Keys == {p.progressInterval.value};
    } else {
      assert p.frames.Keys == {};
    }
  }

  // ------------------------------------------------------------ scenarios

  /**
   * Removing an entry before the playing one does not move
   * `currentIndex`: the highlight passes to the following song while the
   * progress loop still tracks the one that was playing.
   */
  method RemovingEarlierEntryShiftsCurrent(a: Deezer.Track, b: Deezer.Track, c: Deezer.Track, d: Deezer.Track)
    returns (current: int, looping: int)
    requires a.id != b.id && a.id != c.id && a.id != d.id && b.id != c.id && b.id != d.id && c.id != d.id
    ensures current == d.id && looping == c.id
  {
    var p := FourSongs(a, b, c, d);
    p.PlaySong(2);
    var h: nat := p.nextHandle - 1;
    assert h in p.frames && p.frames[h].song.id == c.id;
    p.RemoveFromPlaylist(0);
    current := p.playlist[p.currentIndex].id;
    looping := p.frames[h].song.id;
  }

  /** A player holding the four tracks, in order, with nothing played yet. */
  method FourSongs(a: Deezer.Track, b: Deezer.Track, c: Deezer.Track, d: Deezer.Track) returns (p: Player)
    requires a.id != b.id && a.id != c.id && a.id != d.id && b.id != c.id && b.id != d.id && c.id != d.id
    ensures fresh(p) && p.Valid()
    ensures p.playlist == [ToSong(a), ToSong(b), ToSong(c), ToSong(d)] && p.currentIndex == 0
  {
    p := new Player();
    p.AddToPlaylist(a);
    p.AddToPlaylist(b);
    assert !HasId(p.playlist, c.id) by {
      assert p.playlist == [ToSong(a), ToSong(b)];
    }
    p.AddToPlaylist(c);
    assert !HasId(p.playlist, d.id) by {
      assert p.playlist == [ToSong(a), ToSong(b), ToSong(c)];
    }
    p.AddToPlaylist(d);
  }

  /**
   * When the audio has played to within half a second of its duration,
   * the next due frame moves to the next song, which is loaded from its
   * start, and one loop runs on for it.
   */
  method EndOfPreviewAdvances(a: Deezer.Track, b: Deezer.Track) returns (index: nat, position: int, loops: nat)
    requires a.id != b.id && a.preview != [] && b.preview != []
    ensures index == 1 && position == 0 && loops == 1
  {
    var p := new Player();
    p.AddToPlaylist(a);
    p.AddToPlaylist(b);
    p.PlaySong(0);
    var h: nat := p.nextHandle - 1;
    p.AudioPlays(29600);
    p.Tick(h, 100, true, Ms(30000));
    index, position, loops := p.currentIndex, p.audioTime, |p.frames.Keys|;
    assert p.frames.Keys == {h + 1};
  }

  /** Removing the last entry stops playback: no loop, audio paused at 0, index 0. */
  method RemovingLastEntryStops(a: Deezer.Track) returns (index: nat, position: int, playing: bool, loops: nat)
    ensures index == 0 && position == 0 && !playing && loops == 0
  {
    var p := new Player();
    p.AddToPlaylist(a);
    p.PlaySong(0);
    p.RemoveFromPlaylist(0);
    index, position, playing, loops := p.currentIndex, p.audioTime, p.audioPlaying, |p.frames.Keys|;
  }
}
