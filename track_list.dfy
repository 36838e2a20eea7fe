/**
 * The TrackList component (src/components/TrackList.jsx): one row per
 * track, in order, each with a duration label and a highlight when it is
 * the current track; clicking a row selects its track.
 */
module TrackList {
  import opened JsBuiltins
  import opened SpotifyApi
  import PlayerView

  /**
   * A row's duration label (src/components/TrackList.jsx:49) for a
   * duration in whole seconds: the floored minutes, a colon, and
   * `d % 60` left-padded with "0" to two characters.
   */
  function DurationLabel(d: int): string {
    IntToString(FloorDiv(d, 60)) + ":" + PadStart(IntToString(TruncRem(d, 60)), 2, '0')
  }

  /** For a non-negative duration the row's label is the Player's formatTime of it. */
  lemma LabelMatchesPlayer(d: nat)
    ensures DurationLabel(d) == PlayerView.FormatTime(Ms(d * 1000))
  {
    var ms := d * 1000;
    if d == 0 {
      assert DurationLabel(0) == "0:" + PadStart("0", 2, '0');
      assert PadStart("0", 2, '0') == "00";
    } else {
      assert FloorDiv(ms, 60000) == FloorDiv(d, 60) by {
        var q := d / 60;
        assert q * 60 <= d < q * 60 + 60;
        assert q * 60000 <= ms < q * 60000 + 60000;
      }
      assert FloorDiv(TruncRem(ms, 60000), 1000) == TruncRem(d, 60) by {
        var q, r := d / 60, d % 60;
        assert d == q * 60 + r;
        assert ms == q * 60000 + r * 1000;
        assert TruncRem(ms, 60000) == r * 1000;
      }
    }
  }

  /** A rendered row: its track, whether it is highlighted, and its duration label. */
  datatype Row = Row(track: Track, highlighted: bool, durationText: string)

  /**
   * The rows of the list (src/components/TrackList.jsx:18-50): one per
   * track, in order; a row is highlighted exactly when its id is the
   * current track's id (lines 23, 32 and 40 use the same test).
   */
  function Rows(tracks: seq<Track>, current: Track): (rows: seq<Row>)
    ensures |rows| == |tracks|
    ensures forall i :: 0 <= i < |tracks| ==> rows[i].track == tracks[i]
    ensures forall i :: 0 <= i < |tracks| ==> (rows[i].highlighted <==> tracks[i].id == current.id)
    ensures forall i :: 0 <= i < |tracks| ==> rows[i].durationText == DurationLabel(tracks[i].duration)
  {
    if tracks == [] then []
    else [Row(tracks[0], tracks[0].id == current.id, DurationLabel(tracks[0].duration))] + Rows(tracks[1..], current)
  }

  /**
   * No two tracks share an id: what the list's `key={track.id}`
   * (src/components/TrackList.jsx:20) and the App's id-based findIndex
   * both take for granted. The App relies on this one predicate too.
   */
  predicate UniqueIds(tracks: seq<Track>) {
    forall i, j :: 0 <= i < j < |tracks| ==> tracks[i].id != tracks[j].id
  }

  /**
   * With unique ids at most one row is highlighted, and when the current
   * track is in the list its row is the highlighted one.
   */
  lemma AtMostOneHighlighted(tracks: seq<Track>, current: Track)
    requires UniqueIds(tracks)
    ensures forall i, j ::
      (0 <= i < |tracks| && 0 <= j < |tracks| && Rows(tracks, current)[i].highlighted && Rows(tracks, current)[j].highlighted)
      ==> i == j
    ensures forall i :: 0 <= i < |tracks| && tracks[i] == current ==> Rows(tracks, current)[i].highlighted
  {
  }

  /**
   * Clicking row `i` (src/components/TrackList.jsx:21) makes its track
   * the current one; re-rendering then highlights that row, and with
   * unique ids no other.
   */
  function Click(rows: seq<Row>, i: nat): Track
    requires i < |rows|
  {
    rows[i].track
  }

  lemma ClickHighlightsRow(tracks: seq<Track>, current: Track, i: nat)
    requires i < |tracks| && UniqueIds(tracks)
    ensures var chosen := Click(Rows(tracks, current), i);
      chosen == tracks[i] &&
      forall j :: 0 <= j < |tracks| ==> (Rows(tracks, chosen)[j].highlighted <==> j == i)
  {
    var chosen := Click(Rows(tracks, current), i);
    AtMostOneHighlighted(tracks, chosen);
  }
}
