/**
 * The control `Album.render` puts in the first cell of each track row:
 * a play or pause button on the hovered row, the 1-based track number on
 * every other row.
 */
module SongRows {
  import opened Wrappers
  import opened Catalog
  import opened Playback

  datatype Control = PauseButton | PlayButton | TrackNumber(number: nat)

  predicate IsButton(c: Control)
  {
    !c.TrackNumber?
  }

  /** The control of the row at `index`. */
  function RowControl(s: State, index: nat): (c: Control)
    ensures IsButton(c) <==> HoveredRow(s.isHovered) == Some(index)
    ensures c == PauseButton <==> HoveredRow(s.isHovered) == Some(index) && s.isPlaying && index == s.currentSong
    ensures !IsButton(c) ==> c == TrackNumber(index + 1)
  {
    if s.isHovered == Row(index) then
      if s.isPlaying && index == s.currentSong then PauseButton else PlayButton
    else
      TrackNumber(index + 1)
  }

  /** The controls of the whole table, one per song, in album order. */
  function Controls(songs: seq<Song>, s: State): (cs: seq<Control>)
    ensures |cs| == |songs|
  {
    seq(|songs|, i requires 0 <= i < |songs| => RowControl(s, i))
  }

  /**
   * The hovered row, and only that one, shows a button; it is a pause
   * button exactly when that row's song is the one playing. Every other
   * row shows its position counted from 1.
   */
  lemma ControlsShape(songs: seq<Song>, s: State)
    requires Inv(songs, s)
    ensures var cs := Controls(songs, s);
      && (forall i :: 0 <= i < |cs| ==> (IsButton(cs[i]) <==> HoveredRow(s.isHovered) == Some(i)))
      && (forall i :: 0 <= i < |cs| ==>
            (cs[i] == PauseButton <==> HoveredRow(s.isHovered) == Some(i) && s.isPlaying && i == s.currentSong))
      && (forall i :: 0 <= i < |cs| && !IsButton(cs[i]) ==> cs[i] == TrackNumber(i + 1))
      && (forall i, j :: 0 <= i < |cs| && 0 <= j < |cs| && IsButton(cs[i]) && IsButton(cs[j]) ==> i == j)
  {}

  /**
   * The button shown on a row says what clicking it does: a pause button
   * pauses that (current) song, a play button plays that row's song.
   */
  lemma ButtonMatchesClick(songs: seq<Song>, s: State, i: nat)
    requires Inv(songs, s) && i < |songs|
    ensures Controls(songs, s)[i] == PauseButton ==>
      var r := SongClick(songs, s, Some(i));
      !r.isPlaying && r.currentSong == i && r.media.src == s.media.src
    ensures Controls(songs, s)[i] == PlayButton ==>
      var r := SongClick(songs, s, Some(i));
      r.isPlaying && r.currentSong == i && r.media.src == songs[i].audioSrc
  {}

  /** Before any hover, every row shows its track number. */
  lemma InitialControls(songs: seq<Song>)
    requires |songs| > 0
    ensures Controls(songs, Initial(songs)) == seq(|songs|, (i: nat) => TrackNumber(i + 1))
  {}
}
