/**
 * The playback state of the Album component as a value, and each handler
 * of the component as a transition over it. The class in album.dfy runs
 * these transitions step by step on its fields; the lemmas here state what
 * the transitions promise.
 */
module Playback {
  import opened Wrappers
  import opened JsNumber
  import opened Catalog

  /**
   * The value of `state.isHovered`: the empty array `[]` the component
   * stores to clear hover, `undefined` left by a mouse-leave, or a song of
   * the album (by index). A fresh `[]` is equal to no song and to nothing
   * else, so only `Row` marks a row as hovered.
   */
  datatype Hover = EmptyArray | Undefined | Row(index: nat)

  /** The row the track table treats as hovered. */
  function HoveredRow(h: Hover): Option<nat>
  {
    if h.Row? then Some(h.index) else None
  }

  /** `isHovered === song` for a song (`Some`) or `undefined` (`None`). */
  predicate SameHover(h: Hover, song: Option<nat>)
  {
    match h
    case EmptyArray => false
    case Undefined => song.None?
    case Row(i) => song == Some(i)
  }

  /** `isHovered = song`. */
  function ToHover(song: Option<nat>): Hover
  {
    if song.Some? then Row(song.value) else Undefined
  }

  /**
   * The properties of the owned `<audio>` element that the component sets:
   * its source, whether it is paused, the playback position it was last
   * sent to, and its volume.
   */
  datatype Media = Media(src: string, paused: bool, currentTime: Num, volume: Num)

  /** A newly created `<audio>` element. */
  const FreshMedia := Media("", true, Finite(0.0), Finite(1.0))

  /**
   * Assigning `src` runs the media element load algorithm of the HTML
   * Living Standard: a playing element is paused and its position returns
   * to 0.
   */
  function Load(m: Media, src: string): (r: Media)
    ensures r.src == src && r.paused && r.volume == m.volume
  {
    m.(src := src, paused := true, currentTime := Finite(0.0))
  }

  /** The component's `state` (the album aside) together with its audio element. */
  datatype State = State(
    currentSong: nat,
    isPlaying: bool,
    isHovered: Hover,
    currentTime: Num,
    duration: Num,
    volume: Num,
    media: Media)

  /** A volume the audio element accepts; any other value makes it throw. */
  predicate VolumeInRange(v: real)
  {
    0.0 <= v <= 1.0
  }

  /**
   * What holds between handlers and inside them: the current song and any
   * hovered row are songs of the album, the element plays the current
   * song's audio, and the volume is one the element accepted and mirrors.
   */
  predicate Inv(songs: seq<Song>, s: State)
  {
    && s.currentSong < |songs|
    && s.media.src == songs[s.currentSong].audioSrc
    && (s.isHovered.Row? ==> s.isHovered.index < |songs|)
    && s.volume == s.media.volume
    && s.volume.Finite? && VolumeInRange(s.volume.value)
  }

  /**
   * The play flag agrees with the element. Play, Pause, PrevClick and
   * NextClick restore it; the other handlers keep it.
   */
  predicate Synced(s: State)
  {
    s.media.paused == !s.isPlaying
  }

  // Construction

  function Initial(songs: seq<Song>): (s: State)
    requires |songs| > 0
    ensures Inv(songs, s) && Synced(s)
  {
    State(0, false, EmptyArray, Finite(0.0), songs[0].duration, Finite(1.0),
          Load(FreshMedia, songs[0].audioSrc))
  }

  // play, pause, setSong

  function Play(songs: seq<Song>, s: State): (r: State)
    requires Inv(songs, s)
    ensures Inv(songs, r) && Synced(r) && r.isPlaying
  {
    s.(isPlaying := true, media := s.media.(paused := false))
  }

  function Pause(songs: seq<Song>, s: State): (r: State)
    requires Inv(songs, s)
    ensures Inv(songs, r) && Synced(r) && !r.isPlaying
  {
    s.(isPlaying := false, media := s.media.(paused := true))
  }

  /** Loads song `i`; leaves the element paused until the caller plays it. */
  function SetSong(songs: seq<Song>, s: State, i: nat): (r: State)
    requires Inv(songs, s) && i < |songs|
    ensures Inv(songs, r) && r.currentSong == i && r.media.paused
  {
    s.(currentSong := i, media := Load(s.media, songs[i].audioSrc))
  }

  // Handlers

  /** A click on a row's button, on a row, or on the player bar's play/pause (`song` is the current song). */
  function SongClick(songs: seq<Song>, s: State, song: Option<nat>): (r: State)
    requires Inv(songs, s) && (song.Some? ==> song.value < |songs|)
    ensures Inv(songs, r)
    ensures Synced(s) ==> Synced(r)
  {
    var isSameSong := song == Some(s.currentSong);
    if s.isPlaying && isSameSong then Pause(songs, s)
    else if song.None? then s.(isHovered := EmptyArray)
    else Play(songs, if !isSameSong then SetSong(songs, s, song.value) else s)
  }

  function Max(a: int, b: int): int { if a < b then b else a }

  function Min(a: int, b: int): int { if a < b then a else b }

  /**
   * The previous-track button. The source finds the current index with
   * `findIndex` on song identity; with songs as indices that index is
   * `currentSong`.
   */
  function PrevClick(songs: seq<Song>, s: State): (r: State)
    requires Inv(songs, s)
    ensures Inv(songs, r) && Synced(r)
  {
    var newIndex := Max(0, s.currentSong - 1);
    Play(songs, SetSong(songs, s, newIndex))
  }

  /** The next-track button. */
  function NextClick(songs: seq<Song>, s: State): (r: State)
    requires Inv(songs, s)
    ensures Inv(songs, r) && Synced(r)
  {
    var newIndex := Min(|songs| - 1, s.currentSong + 1);
    Play(songs, SetSong(songs, s, newIndex))
  }

  /**
   * Mouse-enter (`song` is the row's song) and mouse-leave (`None`) on a row.
   * Whatever branch the source takes, the row it leaves hovered is `song`,
   * and nothing but `isHovered` changes.
   */
  function HoverSong(songs: seq<Song>, s: State, song: Option<nat>): (r: State)
    requires Inv(songs, s) && (song.Some? ==> song.value < |songs|)
    ensures Inv(songs, r)
    ensures HoveredRow(r.isHovered) == song
    ensures r == s.(isHovered := r.isHovered)
  {
    if !SameHover(s.isHovered, song) then s.(isHovered := ToHover(song))
    else if song.None? then s.(isHovered := EmptyArray)
    else s
  }

  /**
   * The volume slider. Assigning the element's volume throws an
   * IndexSizeError outside [0, 1], before the state is updated.
   */
  function VolumeChange(songs: seq<Song>, s: State, newVolume: real): (r: State)
    requires Inv(songs, s)
    ensures Inv(songs, r)
    ensures Synced(s) ==> Synced(r)
  {
    if VolumeInRange(newVolume) then
      s.(volume := Finite(newVolume), media := s.media.(volume := Finite(newVolume)))
    else s
  }

  /**
   * The scrub slider, at `fraction` of the element's duration
   * `mediaDuration` (NaN until the browser knows it). Assigning a NaN
   * position to the element throws a TypeError, before the state is updated.
   */
  function TimeChange(songs: seq<Song>, s: State, mediaDuration: Num, fraction: real): (r: State)
    requires Inv(songs, s)
    ensures Inv(songs, r)
    ensures Synced(s) ==> Synced(r)
  {
    var newTime := Mul(mediaDuration, Finite(fraction));
    if newTime.NaN? then s
    else s.(currentTime := newTime, media := s.media.(currentTime := newTime))
  }

  // Properties of the handlers

  /** Construction starts on the first song, paused, at time 0, volume 1, nothing hovered. */
  lemma InitialState(songs: seq<Song>)
    requires |songs| > 0
    ensures var s := Initial(songs);
      && s.currentSong == 0 && !s.isPlaying && HoveredRow(s.isHovered) == None
      && s.currentTime == Finite(0.0) && s.duration == songs[0].duration
      && s.volume == Finite(1.0) && s.media.src == songs[0].audioSrc && s.media.paused
  {}

  /** Next moves one song forward, stopping at the last song, and plays. */
  lemma NextClickMoves(songs: seq<Song>, s: State)
    requires Inv(songs, s)
    ensures var r := NextClick(songs, s);
      && r.currentSong == Min(|songs| - 1, s.currentSong + 1)
      && (s.currentSong == |songs| - 1 ==> r.currentSong == s.currentSong)
      && r.isPlaying && !r.media.paused
      && r.media.src == songs[r.currentSong].audioSrc
      && r.isHovered == s.isHovered && r.currentTime == s.currentTime
      && r.duration == s.duration && r.volume == s.volume
  {}

  /** Previous moves one song back, stopping at the first song, and plays. */
  lemma PrevClickMoves(songs: seq<Song>, s: State)
    requires Inv(songs, s)
    ensures var r := PrevClick(songs, s);
      && r.currentSong == Max(0, s.currentSong - 1)
      && (s.currentSong == 0 ==> r.currentSong == 0)
      && r.isPlaying && !r.media.paused
      && r.media.src == songs[r.currentSong].audioSrc
      && r.isHovered == s.isHovered && r.currentTime == s.currentTime
      && r.duration == s.duration && r.volume == s.volume
  {}

  /** `k` clicks on Next. */
  function NextClicks(songs: seq<Song>, s: State, k: nat): (r: State)
    requires Inv(songs, s)
    ensures Inv(songs, r)
    decreases k
  {
    if k == 0 then s else NextClicks(songs, NextClick(songs, s), k - 1)
  }

  /** `k` clicks on Previous. */
  function PrevClicks(songs: seq<Song>, s: State, k: nat): (r: State)
    requires Inv(songs, s)
    ensures Inv(songs, r)
    decreases k
  {
    if k == 0 then s else PrevClicks(songs, PrevClick(songs, s), k - 1)
  }

  /** Any run of Next clicks ends `k` songs on, or on the last song: no wrap-around. */
  lemma {:induction false} NextClicksIndex(songs: seq<Song>, s: State, k: nat)
    requires Inv(songs, s)
    ensures NextClicks(songs, s, k).currentSong == Min(|songs| - 1, s.currentSong + k)
    decreases k
  {
    if k > 0 {
      NextClicksIndex(songs, NextClick(songs, s), k - 1);
    }
  }

  /** Any run of Previous clicks ends `k` songs back, or on the first song. */
  lemma {:induction false} PrevClicksIndex(songs: seq<Song>, s: State, k: nat)
    requires Inv(songs, s)
    ensures PrevClicks(songs, s, k).currentSong == Max(0, s.currentSong - k)
    decreases k
  {
    if k > 0 {
      PrevClicksIndex(songs, PrevClick(songs, s), k - 1);
    }
  }

  /** Away from the ends of the album, Previous undoes Next and Next undoes Previous. */
  lemma PrevUndoesNext(songs: seq<Song>, s: State)
    requires Inv(songs, s)
    ensures s.currentSong < |songs| - 1 ==>
      PrevClick(songs, NextClick(songs, s)).currentSong == s.currentSong
    ensures s.currentSong > 0 ==>
      NextClick(songs, PrevClick(songs, s)).currentSong == s.currentSong
  {}

  /** Three songs, second one current: Next reaches the third, a second Next stays there. */
  lemma ThreeSongNextScenario(songs: seq<Song>, s: State)
    requires |songs| == 3 && Inv(songs, s) && s.currentSong == 1
    ensures NextClick(songs, s).currentSong == 2
    ensures NextClick(songs, NextClick(songs, s)).currentSong == 2
  {}

  /** Clicking the current song while it plays pauses it and changes nothing else. */
  lemma SongClickPausesCurrent(songs: seq<Song>, s: State)
    requires Inv(songs, s) && s.isPlaying
    ensures var r := SongClick(songs, s, Some(s.currentSong));
      && !r.isPlaying && r.media.paused
      && r == s.(isPlaying := false, media := s.media.(paused := true))
  {}

  /**
   * Clicking another song, or the current song while paused, plays the
   * clicked song; the element is reloaded only for another song.
   */
  lemma SongClickPlays(songs: seq<Song>, s: State, i: nat)
    requires Inv(songs, s) && i < |songs|
    requires !(s.isPlaying && i == s.currentSong)
    ensures var r := SongClick(songs, s, Some(i));
      && r.currentSong == i && r.isPlaying && !r.media.paused
      && r.media.src == songs[i].audioSrc
      && (i == s.currentSong ==> r.media == s.media.(paused := false))
      && (i != s.currentSong ==> r.media.currentTime == Finite(0.0))
      && r.isHovered == s.isHovered && r.volume == s.volume
      && r.currentTime == s.currentTime && r.duration == s.duration
  {}

  /** A click with `null` only clears hover. */
  lemma SongClickNull(songs: seq<Song>, s: State)
    requires Inv(songs, s)
    ensures SongClick(songs, s, None) == s.(isHovered := EmptyArray)
    ensures HoveredRow(SongClick(songs, s, None).isHovered) == None
  {}

  /** Two clicks on the playing current song pause it and resume it, back where it was. */
  lemma SongClickTwiceResumes(songs: seq<Song>, s: State)
    requires Inv(songs, s) && Synced(s) && s.isPlaying
    ensures SongClick(songs, SongClick(songs, s, Some(s.currentSong)), Some(s.currentSong)) == s
  {}

  /**
   * Hovering the same song twice is hovering it once. For a mouse-leave the
   * stored value alternates between `undefined` and `[]`, and the row it
   * marks as hovered is none both times.
   */
  lemma HoverIdempotent(songs: seq<Song>, s: State, song: Option<nat>)
    requires Inv(songs, s) && (song.Some? ==> song.value < |songs|)
    ensures var once := HoverSong(songs, s, song);
      var twice := HoverSong(songs, once, song);
      && HoveredRow(twice.isHovered) == HoveredRow(once.isHovered)
      && (song.Some? ==> twice == once)
      && twice.currentSong == s.currentSong && twice.isPlaying == s.isPlaying
  {}

  /** The volume slider takes exactly the values the element accepts, and touches nothing else. */
  lemma VolumeChangeSets(songs: seq<Song>, s: State, newVolume: real)
    requires Inv(songs, s)
    ensures var r := VolumeChange(songs, s, newVolume);
      && (VolumeInRange(newVolume) ==>
            r == s.(volume := Finite(newVolume), media := s.media.(volume := Finite(newVolume))))
      && (!VolumeInRange(newVolume) ==> r == s)
  {}

  /** Scrubbing moves the element and the state to `fraction` of a known duration, and touches nothing else. */
  lemma TimeChangeSets(songs: seq<Song>, s: State, mediaDuration: Num, fraction: real)
    requires Inv(songs, s)
    ensures var r := TimeChange(songs, s, mediaDuration, fraction);
      && (mediaDuration.Finite? ==>
            var newTime := Finite(mediaDuration.value * fraction);
            r == s.(currentTime := newTime, media := s.media.(currentTime := newTime)))
      && (mediaDuration.NaN? ==> r == s)
  {}
}
