// Media items for the Android Auto / media-browser tree: the builder
// expressions that turn artists, albums and songs into browsable or playable
// items.  The media3 builders become plain records; the helpers the mapper
// calls but that live elsewhere in the app (cleanPrefix, cleanTitle,
// cleanArtistsText, the 480-pixel thumbnail rewrite, Song.asMediaItem) are
// fields of a `Helpers` record.
module MediaItemMapper {
  import opened Wrappers
  import Strings
  import MediaSessionConstants

  /** The media3 MEDIA_TYPE_* constants the core uses. */
  datatype MediaType =
    | Music | Video | Artist | Album | Playlist
    | FolderMixed | FolderArtists | FolderAlbums | FolderPlaylists

  /** The boolean keys the core puts into a metadata extras bundle. */
  datatype ExtraKey = IsExplicit | ExplicitBundleTag | PersistentQueue

  /** The fields of a media3 MediaMetadata the core sets; None is "not set". */
  datatype MediaMetadata = MediaMetadata(
    title: Option<string>,
    subtitle: Option<string>,
    artist: Option<string>,
    artworkUri: Option<string>,
    isPlayable: Option<bool>,
    isBrowsable: Option<bool>,
    mediaType: Option<MediaType>,
    extras: map<ExtraKey, bool>)

  datatype MediaItem = MediaItem(mediaId: string, metadata: MediaMetadata)

  /** The columns of the song table that the mappers read. */
  datatype Song = Song(id: string, title: string, artistsText: Option<string>, thumbnailUrl: Option<string>)

  /** App helpers that are not part of this model. */
  datatype Helpers = Helpers(
    explicitPrefix: string,
    cleanPrefix: string -> string,
    cleanTitle: Song -> string,
    cleanArtistsText: Song -> Option<string>,
    thumbnail: (string, int) -> Option<string>,
    asMediaItem: Song -> MediaItem)

  /** `thumbnailUrl?.thumbnail(480)`: no URL, no artwork. */
  function Artwork(h: Helpers, thumbnailUrl: Option<string>): (r: Option<string>)
    ensures thumbnailUrl.None? ==> r.None?
    ensures thumbnailUrl.Some? ==> r == h.thumbnail(thumbnailUrl.value, 480)
  {
    match thumbnailUrl
    case None => None
    case Some(u) => h.thumbnail(u, 480)
  }

  /** A child id: the parent path, a slash, the child's own id. */
  function ChildId(path: string, id: string): (r: string)
    ensures |r| == |path| + 1 + |id|
    ensures r[..|path|] == path && r[|path|] == '/' && r[|path| + 1..] == id
  {
    path + "/" + id
  }

  /** Splitting a child id of slash-free parts by "/" gives the parts back. */
  lemma ChildIdSplits(path: string, id: string)
    requires '/' !in path && '/' !in id
    ensures Strings.Split(ChildId(path, id), '/') == [path, id]
  {
    assert ChildId(path, id) == path + ['/'] + id;
    Strings.SplitAround(path, id, '/');
    Strings.SplitSingle(path, '/');
    Strings.SplitSingle(id, '/');
  }

  /** A browsable folder item: never playable, always browsable, subtitle doubling as artist. */
  function BrowsableMediaItem(h: Helpers, id: string, title: string, subtitle: Option<string>,
                              iconUri: Option<string>, mediaType: MediaType): (m: MediaItem)
    ensures m.mediaId == id
    ensures m.metadata.isPlayable == Some(false) && m.metadata.isBrowsable == Some(true)
    ensures m.metadata.subtitle == m.metadata.artist == subtitle
    ensures m.metadata.title == Some(h.cleanPrefix(title))
    ensures m.metadata.artworkUri == iconUri && m.metadata.mediaType == Some(mediaType)
    ensures m.metadata.extras == map[]
  {
    MediaItem(id, MediaMetadata(Some(h.cleanPrefix(title)), subtitle, subtitle, iconUri,
                                Some(false), Some(true), Some(mediaType), map[]))
  }

  /**
   * An artist folder under `parentId`.  The search path the source accepts
   * is passed on to a parameter the builder never reads, so it is not
   * modelled.
   */
  function MapArtistToMediaItem(h: Helpers, parentId: string, id: string, name: string,
                                thumbnailUrl: Option<string>, subtext: Option<string>): (m: MediaItem)
    ensures m.mediaId == ChildId(parentId, id)
    ensures m.metadata.isPlayable == Some(false) && m.metadata.isBrowsable == Some(true)
    ensures m.metadata.mediaType == Some(Artist)
    ensures m.metadata.title == Some(h.cleanPrefix(name))
    ensures m.metadata.subtitle == m.metadata.artist == subtext
    ensures m.metadata.artworkUri == Artwork(h, thumbnailUrl)
  {
    BrowsableMediaItem(h, ChildId(parentId, id), name, subtext, Artwork(h, thumbnailUrl), Artist)
  }

  /** An album folder under `parentId`, with the authors as subtitle. */
  function MapAlbumToMediaItem(h: Helpers, parentId: string, id: string, title: string,
                               authorsText: Option<string>, thumbnailUrl: Option<string>): (m: MediaItem)
    ensures m.mediaId == ChildId(parentId, id)
    ensures m.metadata.isPlayable == Some(false) && m.metadata.isBrowsable == Some(true)
    ensures m.metadata.mediaType == Some(Album)
    ensures m.metadata.title == Some(h.cleanPrefix(title))
    ensures m.metadata.subtitle == m.metadata.artist == authorsText
    ensures m.metadata.artworkUri == Artwork(h, thumbnailUrl)
  {
    BrowsableMediaItem(h, ChildId(parentId, id), title, authorsText, Artwork(h, thumbnailUrl), Album)
  }

  /** Both explicit flags, set from the raw title's prefix. */
  function ExplicitExtras(h: Helpers, song: Song): (e: map<ExtraKey, bool>)
    ensures e.Keys == {IsExplicit, ExplicitBundleTag}
    ensures e[IsExplicit] == e[ExplicitBundleTag]
    ensures e[IsExplicit] <==> Strings.StartsWith(song.title, h.explicitPrefix)
  {
    var isExplicit := Strings.StartsWith(song.title, h.explicitPrefix);
    map[IsExplicit := isExplicit, ExplicitBundleTag := isExplicit]
  }

  /** A playable song under `path`; a video when the path is a video search. */
  function MapSongToMediaItem(h: Helpers, song: Song, path: string): (m: MediaItem)
    ensures m.mediaId == ChildId(path, song.id)
    ensures m.metadata.isPlayable == Some(true) && m.metadata.isBrowsable == Some(false)
    ensures m.metadata.mediaType == Some(Video) <==> Strings.Contains(path, MediaSessionConstants.IdSearchVideos)
    ensures m.metadata.mediaType == Some(Music) <==> !Strings.Contains(path, MediaSessionConstants.IdSearchVideos)
    ensures m.metadata.title == Some(h.cleanTitle(song))
    ensures m.metadata.subtitle == m.metadata.artist == h.cleanArtistsText(song)
    ensures m.metadata.artworkUri == Artwork(h, song.thumbnailUrl)
    ensures m.metadata.extras == ExplicitExtras(h, song)
  {
    var kind := if Strings.Contains(path, MediaSessionConstants.IdSearchVideos) then Video else Music;
    MediaItem(ChildId(path, song.id),
              MediaMetadata(Some(h.cleanTitle(song)), h.cleanArtistsText(song), h.cleanArtistsText(song),
                            Artwork(h, song.thumbnailUrl), Some(true), Some(false), Some(kind),
                            ExplicitExtras(h, song)))
  }

  /**
   * The queue form of a song: the app's own item for it, with its extras
   * replaced by the single persistent-queue flag.
   */
  function MapSongToQueueItem(h: Helpers, song: Song, isFromPersistentQueue: bool): (m: MediaItem)
    ensures m.metadata.extras == map[PersistentQueue := isFromPersistentQueue]
    ensures m.metadata.extras[PersistentQueue] == isFromPersistentQueue
    ensures m.mediaId == h.asMediaItem(song).mediaId
    ensures m.metadata.(extras := map[]) == h.asMediaItem(song).metadata.(extras := map[])
  {
    var item := h.asMediaItem(song);
    item.(metadata := item.metadata.(extras := map[PersistentQueue := isFromPersistentQueue]))
  }
}
