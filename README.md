# Album playback model

A Dafny model of the `Album` React component of bloc-jams. The component
shows one album's track list and drives a single `<audio>` element. This
model covers its playback state machine:

- construction, which looks up the album by slug and starts on its first song;
- `play`, `pause` and `setSong`;
- the song-click toggle;
- previous and next, clamped at the ends of the album;
- hover tracking;
- the scrub and volume sliders;
- `formatTime`;
- the play, pause or track-number control that `render` puts in each track row.

Layout:

- `album.dfy` (module `AlbumComponent`): the component as a class. `Album`
  has the component's state fields and owns a `MediaElement`. Each handler
  is a method that updates the fields step by step, as the source does.
  Its postcondition equates the new `Snapshot()` with a transition of
  module `Playback` applied to the old one.
- `playback.dfy` (module `Playback`): the state as a value and every handler
  as a transition function. It also holds the invariant and the lemmas that
  state what the handlers promise.
- `song_rows.dfy` (module `SongRows`): the per-row control chosen by `render`.
- `format_time.dfy` (module `FormatTime`) and `decimal.dfy` (module
  `Decimal`): `formatTime`, the decimal text of integers, and parsers that
  read both back.
- `catalog.dfy` (module `Catalog`): songs, albums and the slug lookup.
- `js_number.dfy`, `wrappers.dfy`: JavaScript numbers (NaN or a finite
  value), plus Option and Result.

Modelling choices:

- A song is its index in `album.songs`. The source compares songs with
  `===`. The model assumes the catalog's song objects are distinct, so
  object identity becomes index equality. If one object appeared twice in
  an album, `findIndex` (Album.js:80, 88) would return its first position
  and `===` (Album.js:67) would match both positions, unlike indices. `findIndex` of the current song is
  therefore `currentSong` itself.
- `isHovered` keeps the three values the source stores:
  - `EmptyArray` is the `[]` set at construction and by a click with `null`;
  - `Undefined` is what a mouse-leave stores;
  - `Row(i)` is a song.

  A fresh `[]` equals nothing, so only `Row` marks a row as hovered
  (`HoveredRow`).
- The `<audio>` element is modelled through the properties the component
  sets: `src`, `paused`, `currentTime` and `volume`. The model assumes
  the following about it, from the HTML Living Standard:
  - assigning `src` runs the media element load algorithm, which pauses the
    element and resets its position to 0;
  - assigning a non-finite `currentTime` throws a TypeError;
  - assigning a `volume` outside [0, 1] throws an IndexSizeError;
  - `play()` succeeds and unpauses the element.

  In the source, both throwing assignments come before `setState`. A
  throwing handler therefore leaves the state unchanged.
- The element's `duration` belongs to the browser and is a parameter of
  `HandleTimeChange`.
- React `setState` is an immediate assignment.
- The invariant `Playback.Inv` says that:
  - the current song and any hovered row are songs of the album;
  - the element's `src` is the current song's `audioSrc`;
  - the volume lies in [0, 1] and matches the element's volume.

  `Playback.Synced` says that `isPlaying` is the opposite of the element's
  `paused`. `setSong` breaks `Synced` for a moment, because loading pauses
  the element. `play`, `pause`, previous and next always end in `Synced`, given that
  `play()` succeeds.
  A song click, hover, volume change and time change keep it when it
  held before.

Two behaviours of the code worth stating plainly:

- Volume is not clamped (Album.js:101-105). The state stays in [0, 1]
  only because the element throws an IndexSizeError, a DOM exception,
  before `setState` runs.
- Mouse-leave stores `undefined` (Album.js:109). A second mouse-leave
  stores `[]` (Album.js:110-111). Either way no row is hovered.

## Model

| member | source | states |
|---|---|---|
| `Catalog.FindAlbum` | src/components/Album.js:9-11 | Returns the first album whose slug matches, or none exactly when no album has that slug |
| `Catalog.OpenAlbum` | src/components/Album.js:9-19 | Construction succeeds exactly when an album with the slug exists and has a song, and then opens the first such album; otherwise it names the crash (no album, no songs) |
| `AlbumComponent.Album.constructor` | src/components/Album.js:6-25 | Opens the looked-up album on a fresh audio element; the state is `Initial`, which satisfies the invariant, and the element is paused |
| `Playback.Initial` | src/components/Album.js:13-24 | The initial state satisfies the invariant (its `src` is song 0's audio) and agrees with the element |
| `Playback.InitialState` | src/components/Album.js:13-24 | The component starts on song 0, paused, time 0, song 0's duration, volume 1, nothing hovered, with song 0's audio loaded |
| `AlbumComponent.Album.Play` | src/components/Album.js:27-30 | Starts the element and sets `isPlaying`; nothing else changes |
| `Playback.Play` | src/components/Album.js:27-30 | Playing keeps the invariant and leaves the flag set and the element playing |
| `AlbumComponent.Album.Pause` | src/components/Album.js:32-35 | Pauses the element and clears `isPlaying`; nothing else changes |
| `Playback.Pause` | src/components/Album.js:32-35 | Pausing keeps the invariant and leaves the flag clear and the element paused |
| `AlbumComponent.Album.SetSong` | src/components/Album.js:61-64 | Loads the song's audio into the element and makes it current; the element's `src` stays the current song's audio |
| `Playback.SetSong` | src/components/Album.js:61-64 | After `setSong(i)` the current song is `i`, the invariant holds and the element is paused until played |
| `AlbumComponent.MediaElement.SetSrc` | src/components/Album.js:62 | Assigning `src` loads the new source, paused at position 0 |
| `AlbumComponent.MediaElement.constructor` | src/components/Album.js:23 | A new `<audio>` element: no source, paused, position 0, volume 1 |
| `AlbumComponent.MediaElement.Play` | src/components/Album.js:28 | `play()` unpauses the element and changes nothing else (assumed to succeed) |
| `AlbumComponent.MediaElement.Pause` | src/components/Album.js:33 | `pause()` pauses the element and changes nothing else |
| `AlbumComponent.MediaElement.SetCurrentTime` | src/components/Album.js:97 | Assigning `currentTime` throws (TypeError) exactly for NaN and then changes nothing; otherwise only the position changes |
| `AlbumComponent.MediaElement.SetVolume` | src/components/Album.js:103 | Assigning `volume` throws (IndexSizeError) exactly outside [0, 1] and then changes nothing; otherwise only the volume changes |
| `JsNumber.Mul` | src/components/Album.js:96 | `duration * value` is NaN exactly when either operand is NaN |
| `AlbumComponent.Album.HandleSongClick` | src/components/Album.js:66-77 | Runs the click toggle on the fields; the new state is `SongClick` of the old |
| `Playback.SongClick` | src/components/Album.js:66-77 | Every click keeps the invariant and leaves the flag in agreement with the element |
| `Playback.SongClickPausesCurrent` | src/components/Album.js:67-69 | Clicking the current song while it plays pauses it; song, source and all else unchanged |
| `Playback.SongClickPlays` | src/components/Album.js:73-76 | Clicking another song switches song and source and plays; clicking the paused current song only plays, without reloading |
| `Playback.SongClickNull` | src/components/Album.js:70-71 | A click with `null` only clears hover |
| `Playback.SongClickTwiceResumes` | src/components/Album.js:66-76 | Two clicks on the playing current song return exactly to the starting state |
| `AlbumComponent.Album.HandlePrevClick` | src/components/Album.js:79-85 | Runs the previous-track handler on the fields; the new state is `PrevClick` of the old |
| `Playback.PrevClick` | src/components/Album.js:79-85 | Previous keeps the invariant and leaves the element playing in agreement with the flag |
| `Playback.PrevClickMoves` | src/components/Album.js:79-85 | Previous sets the index to `max(0, idx-1)`, is a no-op on the index at the first song, loads that song and plays; hover, time, duration and volume unchanged |
| `Playback.PrevClicksIndex` | src/components/Album.js:79-85 | `k` clicks on Previous end on `max(0, idx-k)`: never before the first song, no wrap-around |
| `AlbumComponent.Album.HandleNextClick` | src/components/Album.js:87-93 | Runs the next-track handler on the fields; the new state is `NextClick` of the old |
| `Playback.NextClick` | src/components/Album.js:87-93 | Next keeps the invariant and leaves the element playing in agreement with the flag |
| `Playback.NextClickMoves` | src/components/Album.js:87-93 | Next sets the index to `min(len-1, idx+1)`, is a no-op on the index at the last song, loads that song and plays; hover, time, duration and volume unchanged |
| `Playback.NextClicksIndex` | src/components/Album.js:87-93 | `k` clicks on Next end on `min(len-1, idx+k)`: never past the last song, no wrap-around |
| `Playback.PrevUndoesNext` | src/components/Album.js:79-93 | Away from the ends, Previous after Next (and Next after Previous) returns to the same song |
| `Playback.ThreeSongNextScenario` | src/components/Album.js:87-93 | On a three-song album at song 2, Next goes to song 3 and a second Next stays on song 3 |
| `AlbumComponent.Album.HandleTimeChange` | src/components/Album.js:95-99 | Seeks the element to `fraction` of its duration and mirrors it in the state; reports the TypeError a NaN duration causes |
| `Playback.TimeChange` | src/components/Album.js:95-99 | Scrubbing keeps the invariant and the play flag's agreement with the element |
| `Playback.TimeChangeSets` | src/components/Album.js:95-99 | With a known duration, the new state is the old one with only the state's and the element's current time set to `duration * fraction`; with NaN the state is unchanged |
| `AlbumComponent.Album.HandleVolumeChange` | src/components/Album.js:101-105 | Sets the element's and the state's volume, or reports the IndexSizeError for a value outside [0, 1] |
| `Playback.VolumeChange` | src/components/Album.js:101-105 | The volume slider keeps the invariant, so volume stays in [0, 1] and mirrored by the element |
| `Playback.VolumeChangeSets` | src/components/Album.js:101-105 | For a value in [0, 1], the new state is the old one with only the state's and the element's volume set to it; any other value leaves the state unchanged |
| `AlbumComponent.Album.HandleHover` | src/components/Album.js:107-115 | Runs the hover handler on `isHovered`; the new state is `HoverSong` of the old |
| `Playback.HoverSong` | src/components/Album.js:107-115 | Whatever branch runs, the hovered row becomes the given song (none for mouse-leave), and nothing but `isHovered` changes |
| `Playback.HoverIdempotent` | src/components/Album.js:107-115 | Hovering a song twice equals hovering it once; a repeated mouse-leave keeps no row hovered; song and flag are untouched |
| `FormatTime.FormatTime` | src/components/Album.js:117-124 | `"-:--"` exactly for NaN or 0; otherwise `m:s` with `0 <= s < 60`, `60m + s` the whole seconds of the input, no zero padding |
| `FormatTime.ClockSplit` | src/components/Album.js:121-122 | `floor(t/60)` minutes and `floor(t - 60m)` seconds give `0 <= s < 60` and `60m + s = floor(t)` |
| `FormatTime.FormatTimeReadsBack` | src/components/Album.js:117-124 | Every shown time reads back to the whole seconds of the input |
| `FormatTime.ClockReadsBack` | src/components/Album.js:123 | The text `m:s` reads back to `60m + s` |
| `FormatTime.PlaceholderIsNotATime` | src/components/Album.js:118-119 | The placeholder reads back to no time, so it cannot be mistaken for one |
| `FormatTime.FormatTimeExamples` | src/components/Album.js:117-124 | NaN and 0 give `"-:--"`, 125 gives `"2:5"`, 605.5 gives `"10:5"` |
| `Decimal.NatToString` | src/components/Album.js:123 | The digits of a number in a template literal: non-empty, all digits, no leading zero |
| `Decimal.IntToString` | src/components/Album.js:123 | The text of `${minutes}`: non-empty, ending in a digit, only digits and '-', and the plain digits for a non-negative number; `ParseIntToString` pins its value |
| `Decimal.ParseNatToString` | src/components/Album.js:123 | Reading back the digits of `n` gives `n` |
| `Decimal.ParseIntToString` | src/components/Album.js:123 | Reading back the text of any integer, negative ones included, gives that integer |
| `SongRows.RowControl` | src/components/Album.js:149-165 | A row shows a button exactly when it is the hovered row; a pause button exactly when it is also the current song and playing; otherwise its number `index + 1` |
| `SongRows.Controls` | src/components/Album.js:149-167 | One control per song, in album order; `ControlsShape` states the shape of the whole table |
| `SongRows.ControlsShape` | src/components/Album.js:149-165 | Only the hovered row shows a button; it is a pause button exactly when that row's song is current and playing; every other row shows its 1-based number |
| `SongRows.ButtonMatchesClick` | src/components/Album.js:149-158 | A row's pause button pauses that song when clicked; a play button plays that row's song |
| `SongRows.InitialControls` | src/components/Album.js:149-165 | Before any hover, the rows show 1, 2, ..., n |

## Left out

- Media-element event listeners (`componentDidMount`, `componentWillUnmount`, Album.js:37-59) are left out. They mirror the element's time, duration and volume into the state through asynchronous events. Unmounting assigns `null` to `src` (Album.js:55). That points the element at the URL "null" and reloads it.
- The element pausing itself at the end of a track is left out. The source has no listener for that event, so `isPlaying` then stays true while the element is paused. `Synced` covers only the handlers modelled here.
- A rejected `play()` is left out. The HTML standard rejects it with a NotAllowedError when autoplay is not allowed, or a NotSupportedError when the source failed to load. In both cases the element stays paused while `isPlaying` is set to true. `Synced` after `play`, a song click, previous or next is therefore promised only for a `play()` that succeeds.
- The seek clamp is left out. The element limits a seek to [0, duration], but `media.currentTime` here holds the requested `duration * fraction` unclamped. The player bar's slider yields fractions in [0, 1], so in use the two agree. `state.currentTime` is unclamped in the source as well (Album.js:98).
- Audio decoding, buffering and the advance of the playback position during play are left out. They are browser behaviour.
- Numbers are exact reals or NaN. IEEE-754 rounding, infinities and negative zero are not modelled. Neither is the exponent notation JavaScript uses for integers of 21 digits or more.
- The slider value arrives in the source as a string (`e.target.value`). Here it is a real. In the source, `state.volume` then holds that string.
- The JSX markup, album metadata display and `PlayerBar` wiring of `render` are presentation. Only the per-row control is modelled.
- `AlbumComponent.Album.HandleSongClick`, `HandleHover`, `SetSong`: callers pass only songs of the album. An index outside the album is therefore excluded by `requires`.
- The catalog's contents are external data and enter as a parameter.
