/**
 * The Album component: its state fields and its owned `<audio>` element,
 * updated in place by the handlers. Each method does what the source's
 * method does, statement by statement, and its postcondition ties the new
 * state to the matching transition in module Playback.
 */
module AlbumComponent {
  import opened Wrappers
  import opened JsNumber
  import opened Catalog
  import P = Playback

  /** The `<audio>` element, as far as the component drives it. */
  class MediaElement {
    var src: string
    var paused: bool
    var currentTime: Num
    var volume: Num

    function Snapshot(): P.Media
      reads this
    {
      P.Media(src, paused, currentTime, volume)
    }

    /** `document.createElement('audio')`. */
    constructor ()
      ensures Snapshot() == P.FreshMedia
    {
      src := "";
      paused := true;
      currentTime := Finite(0.0);
      volume := Finite(1.0);
    }

    /** `play()`, taken to succeed; a rejected play leaves the element paused and is not modelled. */
    method Play()
      modifies this
      ensures Snapshot() == old(Snapshot()).(paused := false)
    {
      paused := false;
    }

    method Pause()
      modifies this
      ensures Snapshot() == old(Snapshot()).(paused := true)
    {
      paused := true;
    }

    /** Assigning `src`: the load algorithm runs. */
    method SetSrc(newSrc: string)
      modifies this
      ensures Snapshot() == P.Load(old(Snapshot()), newSrc)
    {
      src := newSrc;
      paused := true;
      currentTime := Finite(0.0);
    }

    /** Assigning `currentTime`: a non-finite value throws a TypeError and changes nothing. */
    method SetCurrentTime(t: Num) returns (thrown: bool)
      modifies this
      ensures thrown <==> t.NaN?
      ensures Snapshot() == if thrown then old(Snapshot()) else old(Snapshot()).(currentTime := t)
    {
      thrown := t.NaN?;
      if !thrown {
        currentTime := t;
      }
    }

    /** Assigning `volume`: a value outside [0, 1] throws an IndexSizeError and changes nothing. */
    method SetVolume(v: real) returns (thrown: bool)
      modifies this
      ensures thrown <==> !P.VolumeInRange(v)
      ensures Snapshot() == if thrown then old(Snapshot()) else old(Snapshot()).(volume := Finite(v))
    {
      thrown := !P.VolumeInRange(v);
      if !thrown {
        volume := Finite(v);
      }
    }
  }

  class Album {
    const album: AlbumRecord
    const audioElement: MediaElement
    var currentSong: nat
    var isPlaying: bool
    var isHovered: P.Hover
    var currentTime: Num
    var duration: Num
    var volume: Num

    /** The component's state and its element's, as one value. */
    function Snapshot(): P.State
      reads this, audioElement
    {
      P.State(currentSong, isPlaying, isHovered, currentTime, duration, volume, audioElement.Snapshot())
    }

    ghost predicate Valid()
      reads this, audioElement
    {
      P.Inv(album.songs, Snapshot())
    }

    /** Opens the first album whose slug is `slug`, on its first song. */
    constructor (catalog: seq<AlbumRecord>, slug: string)
      requires OpenAlbum(catalog, slug).Ok?
      ensures album == OpenAlbum(catalog, slug).value
      ensures fresh(audioElement)
      ensures Valid() && P.Synced(Snapshot())
      ensures Snapshot() == P.Initial(album.songs)
    {
      var found := FindAlbum(catalog, slug);
      album := found.value;
      currentSong := 0;
      isPlaying := false;
      isHovered := P.EmptyArray;
      currentTime := Finite(0.0);
      duration := found.value.songs[0].duration;
      volume := Finite(1.0);
      audioElement := new MediaElement();
      new;
      audioElement.SetSrc(album.songs[0].audioSrc);
    }

    method Play()
      requires Valid()
      modifies this, audioElement
      ensures Valid()
      ensures Snapshot() == P.Play(album.songs, old(Snapshot()))
    {
      audioElement.Play();
      isPlaying := true;
    }

    method Pause()
      requires Valid()
      modifies this, audioElement
      ensures Valid()
      ensures Snapshot() == P.Pause(album.songs, old(Snapshot()))
    {
      audioElement.Pause();
      isPlaying := false;
    }

    /** Makes song `song` current; the one writer of `currentSong` and of the element's `src`. */
    method SetSong(song: nat)
      requires Valid() && song < |album.songs|
      modifies this, audioElement
      ensures Valid()
      ensures Snapshot() == P.SetSong(album.songs, old(Snapshot()), song)
    {
      audioElement.SetSrc(album.songs[song].audioSrc);
      currentSong := song;
    }

    method HandleSongClick(song: Option<nat>)
      requires Valid() && (song.Some? ==> song.value < |album.songs|)
      modifies this, audioElement
      ensures Valid()
      ensures Snapshot() == P.SongClick(album.songs, old(Snapshot()), song)
    {
      var isSameSong := song == Some(currentSong);
      if isPlaying && isSameSong {
        Pause();
      } else if song.None? {
        isHovered := P.EmptyArray;
      } else {
        if !isSameSong {
          SetSong(song.value);
        }
        Play();
      }
    }

    method HandlePrevClick()
      requires Valid()
      modifies this, audioElement
      ensures Valid()
      ensures Snapshot() == P.PrevClick(album.songs, old(Snapshot()))
    {
      var currentIndex: int := currentSong;
      var newIndex := P.Max(0, currentIndex - 1);
      SetSong(newIndex);
      Play();
    }

    method HandleNextClick()
      requires Valid()
      modifies this, audioElement
      ensures Valid()
      ensures Snapshot() == P.NextClick(album.songs, old(Snapshot()))
    {
      var currentIndex: int := currentSong;
      var newIndex := P.Min(|album.songs| - 1, currentIndex + 1);
      SetSong(newIndex);
      Play();
    }

    /**
     * The scrub slider at `fraction`; `mediaDuration` is the element's
     * duration as the browser reports it. Returns whether the element threw.
     */
    method HandleTimeChange(mediaDuration: Num, fraction: real) returns (thrown: bool)
      requires Valid()
      modifies this, audioElement
      ensures Valid()
      ensures thrown <==> mediaDuration.NaN?
      ensures Snapshot() == P.TimeChange(album.songs, old(Snapshot()), mediaDuration, fraction)
    {
      var newTime := Mul(mediaDuration, Finite(fraction));
      thrown := audioElement.SetCurrentTime(newTime);
      if !thrown {
        currentTime := newTime;
      }
    }

    /** The volume slider at `newVolume`. Returns whether the element threw. */
    method HandleVolumeChange(newVolume: real) returns (thrown: bool)
      requires Valid()
      modifies this, audioElement
      ensures Valid()
      ensures thrown <==> !P.VolumeInRange(newVolume)
      ensures Snapshot() == P.VolumeChange(album.songs, old(Snapshot()), newVolume)
    {
      thrown := audioElement.SetVolume(newVolume);
      if !thrown {
        volume := Finite(newVolume);
      }
    }

    method HandleHover(song: Option<nat>)
      requires Valid() && (song.Some? ==> song.value < |album.songs|)
      modifies this
      ensures Valid()
      ensures Snapshot() == P.HoverSong(album.songs, old(Snapshot()), song)
    {
      if !P.SameHover(isHovered, song) {
        isHovered := P.ToHover(song);
      } else if song.None? {
        isHovered := P.EmptyArray;
      }
    }
  }
}
