/**
 * The album catalog and the lookup that opens the component on one album.
 * The catalog's contents are data from outside the component and are a
 * parameter here.
 */
module Catalog {
  import opened Wrappers
  import opened JsNumber

  /** A track: its title, advisory duration in seconds, and audio source. */
  datatype Song = Song(title: string, duration: Num, audioSrc: string)

  /** An album; `songs` is in playback order. */
  datatype AlbumRecord = AlbumRecord(
    slug: string,
    title: string,
    artist: string,
    releaseInfo: string,
    albumCover: string,
    songs: seq<Song>)

  /** `albumData.find(album => album.slug === slug)`: the first album with that slug. */
  function FindAlbum(catalog: seq<AlbumRecord>, slug: string): (r: Option<AlbumRecord>)
    ensures r.None? <==> forall i :: 0 <= i < |catalog| ==> catalog[i].slug != slug
    ensures r.Some? ==>
      exists i :: 0 <= i < |catalog| && catalog[i] == r.value && r.value.slug == slug
        && forall j :: 0 <= j < i ==> catalog[j].slug != slug
  {
    if catalog == [] then None
    else if catalog[0].slug == slug then Some(catalog[0])
    else
      var r := FindAlbum(catalog[1..], slug);
      assert r.Some? ==> (exists i :: 0 < i < |catalog| && catalog[i] == r.value
                                && forall j :: 0 <= j < i ==> catalog[j].slug != slug) by {
        if r.Some? {
          var i :| 0 <= i < |catalog[1..]| && catalog[1..][i] == r.value
            && forall j :: 0 <= j < i ==> catalog[1..][j].slug != slug;
          assert catalog[i + 1] == r.value;
          assert forall j :: 0 <= j < i + 1 ==> catalog[j].slug != slug by {
            forall j | 0 <= j < i + 1 ensures catalog[j].slug != slug {
              if j > 0 { assert catalog[j] == catalog[1..][j - 1]; }
            }
          }
        }
      }
      r
  }

  /**
   * Why the component cannot be built: the source then dereferences
   * `undefined` (`album.songs` with no album, `album.songs[0].duration`
   * with no songs) and throws a TypeError.
   */
  datatype OpenError = NoAlbumWithSlug | AlbumWithoutSongs

  /** The album the constructor opens, or the reason its first lines crash. */
  function OpenAlbum(catalog: seq<AlbumRecord>, slug: string): (r: Result<AlbumRecord, OpenError>)
    ensures r == Err(NoAlbumWithSlug) <==> forall i :: 0 <= i < |catalog| ==> catalog[i].slug != slug
    ensures r == Err(AlbumWithoutSongs) <==> FindAlbum(catalog, slug).Some? && FindAlbum(catalog, slug).value.songs == []
    ensures r.Ok? ==> r.value.slug == slug && r.value in catalog && |r.value.songs| > 0
    ensures r.Ok? ==> FindAlbum(catalog, slug) == Some(r.value)
  {
    match FindAlbum(catalog, slug)
    case None => Err(NoAlbumWithSlug)
    case Some(album) => if album.songs == [] then Err(AlbumWithoutSongs) else Ok(album)
  }
}
