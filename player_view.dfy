/**
 * The Player component of the component variant
 * (src/components/Player.jsx): its time label, its progress percentage,
 * and the volume slider with its mute toggle. Times are held in
 * milliseconds, as in the rest of the model.
 */
module PlayerView {
  import opened JsBuiltins
  import Jukebox

  /**
   * Player's formatTime (src/components/Player.jsx:23-28): "0:00" for
   * zero or NaN, otherwise the floored minutes, a colon, and
   * `Math.floor(seconds % 60)` left-padded with "0" to two characters.
   */
  function FormatTime(t: Num): string {
    if Falsy(t) then "0:00"
    else
      var m := FloorDiv(t.ms, 60000);
      var s := FloorDiv(TruncRem(t.ms, 60000), 1000);
      IntToString(m) + ":" + PadStart(IntToString(s), 2, '0')
  }

  /** Padding a seconds value below 60 to two characters is putting a "0" before a single digit. */
  lemma PadSeconds(s: nat)
    requires s < 60
    ensures PadStart(IntToString(s), 2, '0') == Jukebox.TwoDigits(s)
  {
    var d := IntToString(s);
    if s < 10 {
      var p := PadStart(d, 2, '0');
      assert |d| == 1;
      assert p[0] == '0' && p[1..] == d;
      assert p == "0" + d;
    } else {
      assert |d| >= 2;
    }
  }

  /**
   * For every non-negative time the Player's label is the label script.js
   * shows: the two formatTime functions agree, so Player's label has the
   * same read-back property (Jukebox.FormatTimeReadsBack).
   */
  lemma FormatTimeAgrees(ms: nat)
    ensures FormatTime(Ms(ms)) == Jukebox.FormatTime(Ms(ms))
  {
    if ms != 0 {
      var s := FloorDiv(TruncRem(ms, 60000), 1000);
      assert 0 <= TruncRem(ms, 60000) < 60000;
      assert 0 <= s < 60;
      PadSeconds(s);
    }
  }

  /**
   * For a non-negative time the seconds field is exactly two digits and
   * below 60 (src/components/Player.jsx:25-27).
   */
  lemma SecondsFieldTwoDigits(ms: nat)
    ensures var r := FormatTime(Ms(ms)); var k := |r| - 3;
      && k >= 1 && r[k] == ':' && AllDigits(r[k + 1..]) && DigitsValue(r[k + 1..]) < 60
      && DigitsValue(r[..k]) * 60 + DigitsValue(r[k + 1..]) == ms / 1000
  {
    FormatTimeAgrees(ms);
    Jukebox.FormatTimeReadsBack(ms);
  }

  /**
   * On a negative time padStart leaves the two-character "-5" alone, so
   * Player's label differs from script.js's "-1:0-5".
   */
  lemma NegativeTimeLabel()
    ensures FormatTime(Ms(-5000)) == "-1:-5"
    ensures FormatTime(Ms(-5000)) != Jukebox.FormatTime(Ms(-5000))
  {
    assert FloorDiv(-5000, 60000) == -1;
    assert TruncRem(-5000, 60000) == -5000;
    assert FloorDiv(-5000, 1000) == -5;
    assert NatToString(1) == "1" && NatToString(5) == "5";
    assert PadStart("-5", 2, '0') == "-5";
    Jukebox.FormatTimeNegative();
  }

  /**
   * The progress percentage (src/components/Player.jsx:46): the elapsed
   * share of the duration (in whole seconds) times 100, or 0 when the
   * duration is not positive. Exact arithmetic stands for the floats.
   */
  function Progress(currentTime: int, duration: int): (p: real)
    ensures duration <= 0 ==> p == 0.0
    ensures duration > 0 ==> p * (duration as real) * 10.0 == currentTime as real
    ensures duration > 0 && 0 <= currentTime <= duration * 1000 ==> 0.0 <= p <= 100.0
  {
    if duration > 0 then (currentTime as real / 1000.0) / (duration as real) * 100.0 else 0.0
  }

  /** The volume the Player restores when unmuting. */
  const DefaultVolume := 70

  /** The state the toggle moves between: a volume and the muted flag. */
  datatype Level = Level(volume: int, muted: bool)

  /** A level is consistent when it is muted exactly at volume 0. */
  predicate Consistent(l: Level) {
    l.muted <==> l.volume == 0
  }

  /** handleVolumeChange's new level (src/components/Player.jsx:30-34): the slider value, muted exactly at 0. */
  function Changed(v: int): (l: Level)
    ensures l.volume == v && Consistent(l)
  {
    Level(v, v == 0)
  }

  /**
   * toggleMute's new level (src/components/Player.jsx:36-44): muted or
   * silent goes to the default volume unmuted; anything else to muted at 0.
   */
  function Toggled(l: Level): (r: Level)
    ensures Consistent(r)
    ensures l.muted || l.volume == 0 ==> r == Level(DefaultVolume, false)
    ensures !l.muted && l.volume != 0 ==> r == Level(0, true)
  {
    if l.muted || l.volume == 0 then Level(DefaultVolume, false) else Level(0, true)
  }

  /** Two toggles from an audible level end at the default volume, not at the volume the user had. */
  lemma ToggleTwice(v: int)
    requires v != 0
    ensures Toggled(Toggled(Level(v, false))) == Level(DefaultVolume, false)
    ensures v != DefaultVolume ==> Toggled(Toggled(Level(v, false))).volume != v
  {
  }

  /** Each toggle flips whether the player is silent. */
  lemma ToggleFlips(l: Level)
    requires Consistent(l)
    ensures Toggled(l).muted == !l.muted
  {
  }

  /** The slider's value (src/components/Player.jsx:174): 0 while muted, the volume otherwise. */
  function SliderValue(l: Level): (v: int)
    ensures l.muted ==> v == 0
    ensures !l.muted ==> v == l.volume
    ensures Consistent(l) ==> v == l.volume
  {
    if l.muted then 0 else l.volume
  }

  /** The speaker icon shows muted when muted or at volume 0 (src/components/Player.jsx:157). */
  predicate ShowsMutedIcon(l: Level) {
    l.muted || l.volume == 0
  }

  /**
   * The volume and mute state the Player and the App keep (`volume`
   * lives in the App, `isMuted` in the Player).
   */
  class VolumeControl {
    var volume: int
    var isMuted: bool

    function Current(): Level
      reads this
    {
      Level(volume, isMuted)
    }

    constructor ()
      ensures Current() == Level(DefaultVolume, false)
    {
      volume, isMuted := DefaultVolume, false;
    }

    /** handleVolumeChange (src/components/Player.jsx:30-34). */
    method HandleVolumeChange(v: int)
      modifies this
      ensures Current() == Changed(v)
    {
      volume := v;
      isMuted := v == 0;
    }

    /** toggleMute (src/components/Player.jsx:36-44). */
    method ToggleMute()
      modifies this
      ensures Current() == Toggled(old(Current()))
    {
      if isMuted || volume == 0 {
        volume := DefaultVolume;
        isMuted := false;
      } else {
        isMuted := true;
        volume := 0;
      }
    }
  }

  /** Moving the slider to 45 and toggling twice leaves the volume at 70. */
  method SliderThenToggleTwice() returns (volume: int, muted: bool, slider: int)
    ensures volume == DefaultVolume && !muted && slider == DefaultVolume
  {
    var c := new VolumeControl();
    c.HandleVolumeChange(45);
    c.ToggleMute();
    assert c.volume == 0 && c.isMuted;
    c.ToggleMute();
    volume, muted, slider := c.volume, c.isMuted, SliderValue(c.Current());
  }
}
