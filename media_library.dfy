/**
 * The media-browser callback: the children each browser id lists, the four
 * search folders, and how `onSetMediaItems` turns a chosen child id back
 * into a queue and a start index.  Database flows, the Innertube search and
 * string resources are inputs; the search results the callback remembers
 * between the two calls are fields of `MediaLibrarySessionCallback`.
 */
module MediaLibrary {
  import opened Wrappers
  import opened Strings
  import opened Lists
  import opened MediaSessionConstants
  import opened MediaItemMapper

  /** The browser ids of PlayerServiceModern, which is not part of this model. */
  datatype ServiceIds = ServiceIds(root: string, song: string, artist: string, album: string,
                                   playlist: string, searched: string)

  /** The first path segments `onSetMediaItems` recognises, in the order it tries them. */
  function QueueHeads(ids: ServiceIds): seq<string> {
    [IdQuickPicks, IdSearchSongs, IdSearchVideos, ids.searched, ids.song, ids.artist, ids.album, ids.playlist]
  }

  /** The ids `MediaSessionConstants` defines that can head a path. */
  function ConstantHeads(): set<string> {
    {IdQuickPicks, IdLuckyShuffle, IdSearchSongs, IdSearchArtists, IdSearchAlbums, IdSearchVideos}
  }

  /** A service id usable as a path head: no slash, and not one of the constants. */
  predicate IsHead(s: string) {
    '/' !in s && s !in ConstantHeads()
  }

  /** The service ids are usable heads and pairwise different. */
  predicate WellFormed(ids: ServiceIds) {
    IsHead(ids.root) && IsHead(ids.song) && IsHead(ids.artist) && IsHead(ids.album) &&
    IsHead(ids.playlist) && IsHead(ids.searched) &&
    ids.root != ids.song && ids.root != ids.artist && ids.root != ids.album && ids.root != ids.playlist &&
    ids.root != ids.searched && ids.song != ids.artist && ids.song != ids.album && ids.song != ids.playlist &&
    ids.song != ids.searched && ids.artist != ids.album && ids.artist != ids.playlist && ids.artist != ids.searched &&
    ids.album != ids.playlist && ids.album != ids.searched && ids.playlist != ids.searched
  }

  /** The constant heads are slash-free and pairwise different. */
  lemma ConstantsDistinct()
    ensures forall c :: c in ConstantHeads() ==> '/' !in c
    ensures IdQuickPicks != IdLuckyShuffle && IdQuickPicks != IdSearchSongs && IdQuickPicks != IdSearchVideos
    ensures IdSearchSongs != IdSearchVideos && IdSearchSongs != IdSearchArtists && IdSearchSongs != IdSearchAlbums
    ensures IdSearchArtists != IdSearchAlbums && IdSearchArtists != IdSearchVideos && IdSearchAlbums != IdSearchVideos
    ensures IdLuckyShuffle != IdSearchSongs && IdLuckyShuffle != IdSearchVideos
    ensures IdQuickPicks != IdSearchArtists && IdQuickPicks != IdSearchAlbums
    ensures IdLuckyShuffle != IdSearchArtists && IdLuckyShuffle != IdSearchAlbums
  {
    assert IdLuckyShuffle[0] != IdSearchVideos[0];
    assert IdLuckyShuffle[0] != IdSearchAlbums[0];
    assert IdSearchAlbums[7] != IdSearchVideos[7];
    forall c | c in ConstantHeads() ensures '/' !in c {
      assert forall i :: 0 <= i < |c| ==> c[i] != '/';
    }
  }

  /** String resources (`context.getString`). */
  datatype Label =
    | QuickPicksLabel | SongsLabel | ArtistsLabel | AlbumsLabel | PlaylistsLabel | VideosLabel
    | FavoritesLabel | CachedLabel | DownloadedLabel | TopLabel | OnDeviceLabel | LuckyShuffleLabel

  /** Drawables, whose `android.resource` URIs are inputs. */
  datatype Icon =
    | Sparkles | MusicalNotes | People | AlbumIcon | LibraryIcon | VideoIcon
    | Heart | DownloadIcon | DownloadedIcon | Trending | Devices | Random

  datatype Resources = Resources(text: Label -> string, drawable: Icon -> string)

  datatype DownloadState = Queued | Stopped | Downloading | Completed | Failed | Removing | Restarting
  datatype Download = Download(state: DownloadState, updateTimeMs: int)
  datatype FormatWithSong = FormatWithSong(song: Song, contentLength: Option<int>)
  datatype ArtistRow = ArtistRow(id: string, name: Option<string>, thumbnailUrl: Option<string>)
  datatype AlbumRow = AlbumRow(id: string, title: Option<string>, authorsText: Option<string>, thumbnailUrl: Option<string>)
  datatype PlaylistPreview = PlaylistPreview(id: int, name: string, songCount: int)
  datatype ArtistItem = ArtistItem(key: string, name: Option<string>, subscribersCountText: Option<string>,
                                   thumbnailUrl: Option<string>)
  datatype AlbumItem = AlbumItem(key: string, name: Option<string>, authors: Option<seq<Option<string>>>,
                                 thumbnailUrl: Option<string>)

  /**
   * One snapshot of everything the callback reads from the repository and
   * the database.  `top` is the most-played list already cut to the
   * preferred length; `isCached` is the player cache's lookup.
   */
  datatype Library = Library(
    trending: seq<Song>,
    related: Option<seq<Song>>,
    songs: seq<Song>,
    songsWithHidden: seq<Song>,
    followedArtists: seq<ArtistRow>,
    albums: seq<AlbumRow>,
    favorites: seq<Song>,
    formats: seq<FormatWithSong>,
    isCached: (string, int) -> bool,
    top: seq<Song>,
    onDevice: seq<Song>,
    downloads: map<string, Download>,
    playlistsBySongCount: seq<PlaylistPreview>,
    songsByArtist: string -> seq<Song>,
    songsOfAlbum: string -> seq<Song>,
    songsOfPlaylist: int -> seq<Song>)

  /** Innertube search by query; a failed request is an empty list. */
  datatype Search = Search(
    songs: string -> seq<Song>,
    artists: string -> seq<ArtistItem>,
    albums: string -> seq<AlbumItem>,
    videos: string -> seq<Song>)

  datatype ItemsWithStart = ItemsWithStart(items: seq<MediaItem>, startIndex: int, startPositionMs: int)

  /** The title mark the callback puts in front of videos. */
  const VideoMark: string := "\U{1F3A5} "

  /** `Song.toMediaItem(path)` of the callback: the mapper's song item, with videos marked in the title. */
  function SongItem(h: Helpers, song: Song, path: string): (m: MediaItem)
    ensures m.mediaId == ChildId(path, song.id)
    ensures m.metadata.(title := None) == MapSongToMediaItem(h, song, path).metadata.(title := None)
    ensures Contains(path, IdSearchVideos) ==> m.metadata.title == Some(VideoMark + h.cleanTitle(song))
    ensures !Contains(path, IdSearchVideos) ==> m.metadata == MapSongToMediaItem(h, song, path).metadata
  {
    var m := MapSongToMediaItem(h, song, path);
    if Contains(path, IdSearchVideos) then m.(metadata := m.metadata.(title := Some(VideoMark + h.cleanTitle(song))))
    else m
  }

  function SongItems(h: Helpers, songs: seq<Song>, path: string): (r: seq<MediaItem>)
    ensures |r| == |songs|
    ensures forall i :: 0 <= i < |songs| ==> r[i] == SongItem(h, songs[i], path)
  {
    seq(|songs|, i requires 0 <= i < |songs| => SongItem(h, songs[i], path))
  }

  /** `Song.toMediaItem()` over a queue: the app's items, not from the persistent queue. */
  function QueueItems(h: Helpers, songs: seq<Song>, persistent: bool): (r: seq<MediaItem>)
    ensures |r| == |songs|
    ensures forall i :: 0 <= i < |songs| ==> r[i] == MapSongToQueueItem(h, songs[i], persistent)
  {
    seq(|songs|, i requires 0 <= i < |songs| => MapSongToQueueItem(h, songs[i], persistent))
  }

  function MediaIdOf(m: MediaItem): string { m.mediaId }
  function SongIdOf(s: Song): string { s.id }

  // ---------------------------------------------------------------- children

  function Folder(h: Helpers, res: Resources, id: string, name: Label, subtitle: Option<string>,
                  icon: Icon, kind: MediaType): MediaItem {
    BrowsableMediaItem(h, id, res.text(name), subtitle, Some(res.drawable(icon)), kind)
  }

  /** The five top-level folders. */
  function RootChildren(h: Helpers, res: Resources, ids: ServiceIds): (r: seq<MediaItem>)
    ensures |r| == 5
    ensures r[0].mediaId == IdQuickPicks && r[1].mediaId == ids.song && r[2].mediaId == ids.artist
    ensures r[3].mediaId == ids.album && r[4].mediaId == ids.playlist
    ensures forall i :: 0 <= i < 5 ==> r[i].metadata.isBrowsable == Some(true) && r[i].metadata.isPlayable == Some(false)
  {
    [Folder(h, res, IdQuickPicks, QuickPicksLabel, None, Sparkles, FolderMixed),
     Folder(h, res, ids.song, SongsLabel, None, MusicalNotes, Playlist),
     Folder(h, res, ids.artist, ArtistsLabel, None, People, FolderArtists),
     Folder(h, res, ids.album, AlbumsLabel, None, AlbumIcon, FolderAlbums),
     Folder(h, res, ids.playlist, PlaylistsLabel, None, LibraryIcon, FolderPlaylists)]
  }

  /** The playable "lucky shuffle" entry heading the quick picks. */
  function LuckyItem(res: Resources): (m: MediaItem)
    ensures m.mediaId == IdLuckyShuffle
    ensures m.metadata.isPlayable == Some(true) && m.metadata.isBrowsable == Some(false)
  {
    MediaItem(IdLuckyShuffle, MediaMetadata(Some(res.text(LuckyShuffleLabel)), None, None, Some(res.drawable(Random)),
                                            Some(true), Some(false), Some(Music), map[]))
  }

  /** Trending songs, then the related page's songs (none without a page). */
  function Pool(lib: Library): seq<Song> {
    lib.trending + lib.related.GetOr([])
  }

  /** The quick-picks list: lucky entry, then the pool's items without repeated ids. */
  function QuickPicksChildren(h: Helpers, res: Resources, lib: Library, parentId: string): (r: seq<MediaItem>)
    ensures |r| >= 1 && r[0] == LuckyItem(res)
    ensures DistinctKeys(r[1..], MediaIdOf)
    ensures forall j :: 1 <= j < |r| ==> r[j] in SongItems(h, Pool(lib), parentId)
    ensures forall i :: 0 <= i < |Pool(lib)| && FirstWithKey(SongItems(h, Pool(lib), parentId), MediaIdOf, i) ==>
              SongItem(h, Pool(lib)[i], parentId) in r[1..]
    ensures r[1..] == FirstsFrom(SongItems(h, Pool(lib), parentId), MediaIdOf, 0)
  {
    var items := SongItems(h, Pool(lib), parentId);
    var tail := DistinctBy(items, MediaIdOf, {});
    DistinctByInOrder(items, MediaIdOf);
    forall i | 0 <= i < |items| && FirstWithKey(items, MediaIdOf, i) ensures items[i] in tail {
      DistinctByKeepsFirst(items, MediaIdOf, {}, i);
    }
    var r := [LuckyItem(res)] + tail;
    assert r[1..] == tail;
    r
  }

  function UpdateTime(downloads: map<string, Download>, s: Song): int {
    if s.id in downloads then downloads[s.id].updateTimeMs else 0
  }

  predicate IsCompleted(downloads: map<string, Download>, s: Song) {
    s.id in downloads && downloads[s.id].state == Completed
  }

  /** The sort key of the downloaded playlist. */
  function UpdateTimeIn(downloads: map<string, Download>): Song -> int {
    s => UpdateTime(downloads, s)
  }

  /** The filter of the downloaded playlist. */
  function CompletedIn(downloads: map<string, Download>): Song -> bool {
    s => IsCompleted(downloads, s)
  }

  /**
   * The downloaded playlist: completed downloads, newest update first; each
   * completed song as often as it is listed, and songs updated at the same
   * time in the order they are listed.
   */
  function DownloadedSongs(lib: Library): (r: seq<Song>)
    ensures forall j :: 0 <= j < |r| ==> r[j] in lib.songsWithHidden && IsCompleted(lib.downloads, r[j])
    ensures forall i :: 0 <= i < |lib.songsWithHidden| && IsCompleted(lib.downloads, lib.songsWithHidden[i]) ==>
              lib.songsWithHidden[i] in r
    ensures forall i, j :: 0 <= i < j < |r| ==> UpdateTime(lib.downloads, r[i]) >= UpdateTime(lib.downloads, r[j])
    ensures multiset(r) == multiset(Filter(lib.songsWithHidden, CompletedIn(lib.downloads)))
    ensures forall t :: WithKey(r, UpdateTimeIn(lib.downloads), t) ==
                        WithKey(Filter(lib.songsWithHidden, CompletedIn(lib.downloads)), UpdateTimeIn(lib.downloads), t)
  {
    var done := Filter(lib.songsWithHidden, CompletedIn(lib.downloads));
    SortDescByKeeps(done, UpdateTimeIn(lib.downloads));
    SortDescBy(done, UpdateTimeIn(lib.downloads))
  }

  predicate IsCachedFormat(lib: Library, f: FormatWithSong) {
    f.contentLength.Some? && lib.isCached(f.song.id, f.contentLength.value)
  }

  /** The filter of the cached playlist. */
  function CachedIn(lib: Library): FormatWithSong -> bool {
    f => IsCachedFormat(lib, f)
  }

  /**
   * Cached songs, most recent format first: exactly the songs of the fully
   * cached formats, the format listed last coming first (`.reversed()`).
   */
  function CachedSongs(lib: Library): (r: seq<Song>)
    ensures forall j :: 0 <= j < |r| ==> exists f :: f in lib.formats && IsCachedFormat(lib, f) && f.song == r[j]
    ensures forall f :: f in lib.formats && IsCachedFormat(lib, f) ==> f.song in r
    ensures |r| == |Filter(lib.formats, CachedIn(lib))|
    ensures forall j :: 0 <= j < |r| ==>
              r[j] == Filter(lib.formats, CachedIn(lib))[|r| - 1 - j].song
  {
    var filtered := Filter(lib.formats, CachedIn(lib));
    var kept := Reverse(filtered);
    var r := seq(|kept|, i requires 0 <= i < |kept| => kept[i].song);
    forall j | 0 <= j < |r| ensures exists f :: f in lib.formats && IsCachedFormat(lib, f) && f.song == r[j] {
      var f := filtered[|filtered| - 1 - j];
      assert kept[j] == f && f in filtered;
      assert CachedIn(lib)(f);
      assert f in lib.formats && IsCachedFormat(lib, f) && f.song == r[j];
    }
    forall f | f in lib.formats && IsCachedFormat(lib, f) ensures f.song in r {
      var i :| 0 <= i < |lib.formats| && lib.formats[i] == f;
      assert CachedIn(lib)(lib.formats[i]);
      assert f in filtered;
      var k :| 0 <= k < |filtered| && filtered[k] == f;
      assert kept[|filtered| - 1 - k] == f;
      assert r[|filtered| - 1 - k] == f.song;
    }
    r
  }

  function CompletedDownloads(downloads: map<string, Download>): set<string> {
    set id | id in downloads && downloads[id].state == Completed
  }

  /** The fixed playlist folders followed by the user's playlists, all under the playlist id. */
  function PlaylistFolders(h: Helpers, res: Resources, ids: ServiceIds, lib: Library): (r: seq<MediaItem>)
    ensures |r| == 5 + |lib.playlistsBySongCount|
    ensures r[0].mediaId == ChildId(ids.playlist, IdFavorites) && r[1].mediaId == ChildId(ids.playlist, IdCached)
    ensures r[2].mediaId == ChildId(ids.playlist, IdDownloaded) && r[3].mediaId == ChildId(ids.playlist, IdTop)
    ensures r[4].mediaId == ChildId(ids.playlist, IdOnDevice)
    ensures r[2].metadata.subtitle == Some(IntToString(|CompletedDownloads(lib.downloads)|))
    ensures forall i :: 0 <= i < |lib.playlistsBySongCount| ==>
              r[5 + i].mediaId == ChildId(ids.playlist, IntToString(lib.playlistsBySongCount[i].id))
  {
    var cachedCount := |Filter(lib.formats, CachedIn(lib))|;
    var ps := lib.playlistsBySongCount;
    [Folder(h, res, ChildId(ids.playlist, IdFavorites), FavoritesLabel, Some(IntToString(|lib.favorites|)), Heart, Playlist),
     Folder(h, res, ChildId(ids.playlist, IdCached), CachedLabel, Some(IntToString(cachedCount)), DownloadIcon, Playlist),
     Folder(h, res, ChildId(ids.playlist, IdDownloaded), DownloadedLabel,
            Some(IntToString(|CompletedDownloads(lib.downloads)|)), DownloadedIcon, Playlist),
     Folder(h, res, ChildId(ids.playlist, IdTop), TopLabel, None, Trending, Playlist),
     Folder(h, res, ChildId(ids.playlist, IdOnDevice), OnDeviceLabel, Some(IntToString(|lib.onDevice|)), Devices, Playlist)]
    + seq(|ps|, i requires 0 <= i < |ps| =>
          BrowsableMediaItem(h, ChildId(ids.playlist, IntToString(ps[i].id)), ps[i].name,
                             Some(IntToString(ps[i].songCount)), Some(res.drawable(LibraryIcon)), Playlist))
  }

  /**
   * The songs of a playlist id: one of the five fixed ids, else a numeric
   * playlist id (`None` when `toLong` throws).
   */
  function PlaylistQueue(lib: Library, playlistId: string): (r: Option<seq<Song>>)
    ensures playlistId == IdDownloaded ==> r == Some(DownloadedSongs(lib))
    ensures playlistId == IdFavorites ==> r == Some(Reverse(lib.favorites))
    ensures r.None? <==> playlistId !in {IdFavorites, IdCached, IdTop, IdOnDevice, IdDownloaded} && ToLong(playlistId).None?
  {
    if playlistId == IdFavorites then Some(Reverse(lib.favorites))
    else if playlistId == IdCached then Some(CachedSongs(lib))
    else if playlistId == IdTop then Some(lib.top)
    else if playlistId == IdOnDevice then Some(lib.onDevice)
    else if playlistId == IdDownloaded then Some(DownloadedSongs(lib))
    else match ToLong(playlistId)
      case None => None
      case Some(n) => Some(lib.songsOfPlaylist(n))
  }

  /** Numeric playlist ids are read back from their decimal form. */
  lemma PlaylistIdRoundTrip(lib: Library, id: int)
    requires LongMin <= id <= LongMax
    ensures PlaylistQueue(lib, IntToString(id)) == Some(lib.songsOfPlaylist(id))
  {
    var t := IntToString(id);
    LongRoundTrip(id);
    assert t[0] == '-' || '0' <= t[0] <= '9';
    assert t != IdFavorites && t != IdCached && t != IdTop && t != IdOnDevice && t != IdDownloaded by {
      assert IdFavorites[0] == 'F' && IdCached[0] == 'C' && IdTop[0] == 'T';
      assert IdOnDevice[0] == 'O' && IdDownloaded[0] == 'D';
    }
  }

  /** `authors.joinToString(", ") { it.name ?: "" }`. */
  function JoinAuthors(authors: seq<Option<string>>): (r: string)
    ensures authors == [] ==> r == ""
    ensures authors != [] ==> StartsWith(r, authors[0].GetOr(""))
  {
    if authors == [] then ""
    else if |authors| == 1 then authors[0].GetOr("")
    else
      var front := JoinAuthors(authors[..|authors| - 1]);
      assert authors[..|authors| - 1][0] == authors[0];
      var r := front + ", " + authors[|authors| - 1].GetOr("");
      assert r[..|authors[0].GetOr("")|] == front[..|authors[0].GetOr("")|];
      r
  }

  /** Read from the front: the first name, then ", " and the names after it. */
  lemma {:induction false} JoinAuthorsCons(authors: seq<Option<string>>)
    requires |authors| >= 2
    ensures JoinAuthors(authors) == authors[0].GetOr("") + ", " + JoinAuthors(authors[1..])
    decreases |authors|
  {
    var n := |authors|;
    var last := authors[n - 1].GetOr("");
    assert authors[1..][..n - 2] == authors[1..n - 1];
    assert authors[1..][n - 2] == authors[n - 1];
    if n == 2 {
      assert authors[1..] == [authors[1]];
    } else {
      JoinAuthorsCons(authors[..n - 1]);
      assert authors[..n - 1][1..] == authors[1..n - 1];
      assert authors[..n - 1][0] == authors[0];
    }
  }

  /** A searched artist: a browsable folder `<artist>/<key>` subtitled with the subscriber count. */
  function ArtistFolder(h: Helpers, ids: ServiceIds, a: ArtistItem): (m: MediaItem)
    ensures m.mediaId == ChildId(ids.artist, a.key)
    ensures m.metadata.isBrowsable == Some(true) && m.metadata.isPlayable == Some(false)
    ensures m.metadata.subtitle == a.subscribersCountText && m.metadata.artworkUri == a.thumbnailUrl
  {
    BrowsableMediaItem(h, ChildId(ids.artist, a.key), a.name.GetOr(""), a.subscribersCountText, a.thumbnailUrl, Artist)
  }

  /** A searched album: a browsable folder `<album>/<key>` subtitled with its joined authors. */
  function AlbumFolder(h: Helpers, ids: ServiceIds, a: AlbumItem): (m: MediaItem)
    ensures m.mediaId == ChildId(ids.album, a.key)
    ensures m.metadata.isBrowsable == Some(true) && m.metadata.isPlayable == Some(false)
    ensures a.authors.None? ==> m.metadata.subtitle.None?
    ensures a.authors.Some? ==> m.metadata.subtitle == Some(JoinAuthors(a.authors.value))
  {
    var authors := match a.authors case None => None case Some(xs) => Some(JoinAuthors(xs));
    BrowsableMediaItem(h, ChildId(ids.album, a.key), a.name.GetOr(""), authors, a.thumbnailUrl, Album)
  }

  /** The parent ids `onGetChildren` matches whole, before splitting. */
  predicate IsExactId(ids: ServiceIds, parentId: string) {
    parentId in {ids.root, IdQuickPicks, ids.song, ids.artist, ids.album, ids.playlist}
  }

  /** The query of a `"<prefix>/<query>/..."` parent id that reaches the search branch for `prefix`. */
  function SearchQuery(ids: ServiceIds, parentId: string, prefix: string): (q: Option<string>)
    ensures q.Some? ==> !IsExactId(ids, parentId) && Split(parentId, '/')[0] == prefix
  {
    var parts := Split(parentId, '/');
    if !IsExactId(ids, parentId) && parts[0] == prefix && |parts| >= 2 then Some(parts[1]) else None
  }

  /**
   * `onGetChildren` for a parent id that is split on "/".  `None` is the
   * exception thrown when a segment is missing or a playlist id is not a
   * number.
   */
  function PathChildren(h: Helpers, ids: ServiceIds, lib: Library, search: Search, parentId: string): (r: Option<seq<MediaItem>>)
    ensures var parts := Split(parentId, '/');
      r.None? ==> parts[0] in {IdSearchSongs, IdSearchArtists, IdSearchAlbums, IdSearchVideos, ids.artist, ids.album, ids.playlist} &&
                  (|parts| < 2 || (parts[0] == ids.playlist && PlaylistQueue(lib, parts[1]).None?))
    ensures var parts := Split(parentId, '/');
      parts[0] !in {IdSearchSongs, IdSearchArtists, IdSearchAlbums, IdSearchVideos, ids.artist, ids.album, ids.playlist} ==>
        r == Some([])
  {
    var parts := Split(parentId, '/');
    var head := parts[0];
    if head == IdSearchSongs then
      if |parts| < 2 then None else Some(SongItems(h, search.songs(parts[1]), parentId))
    else if head == IdSearchArtists then
      if |parts| < 2 then None
      else var found := search.artists(parts[1]);
        Some(seq(|found|, i requires 0 <= i < |found| => ArtistFolder(h, ids, found[i])))
    else if head == IdSearchAlbums then
      if |parts| < 2 then None
      else var found := search.albums(parts[1]);
        Some(seq(|found|, i requires 0 <= i < |found| => AlbumFolder(h, ids, found[i])))
    else if head == IdSearchVideos then
      if |parts| < 2 then None else Some(SongItems(h, search.videos(parts[1]), parentId))
    else if head == ids.artist then
      if |parts| < 2 then None else Some(SongItems(h, lib.songsByArtist(parts[1]), parentId))
    else if head == ids.album then
      if |parts| < 2 then None else Some(SongItems(h, lib.songsOfAlbum(parts[1]), parentId))
    else if head == ids.playlist then
      if |parts| < 2 then None
      else match PlaylistQueue(lib, parts[1])
        case None => None
        case Some(songs) => Some(SongItems(h, songs, parentId))
    else Some([])
  }

  /** Everything `onGetChildren` can answer, by parent id. */
  function Children(h: Helpers, res: Resources, ids: ServiceIds, lib: Library, search: Search,
                    parentId: string): (r: Option<seq<MediaItem>>)
    ensures IsExactId(ids, parentId) ==> r.Some?
    ensures parentId == ids.root ==> r == Some(RootChildren(h, res, ids))
    ensures parentId == IdQuickPicks && parentId != ids.root ==> r == Some(QuickPicksChildren(h, res, lib, parentId))
    ensures parentId == ids.song && parentId !in {ids.root, IdQuickPicks} ==> r == Some(SongItems(h, lib.songs, parentId))
    ensures parentId == ids.playlist && parentId !in {ids.root, IdQuickPicks, ids.song, ids.artist, ids.album} ==>
      r == Some(PlaylistFolders(h, res, ids, lib))
    ensures r.None? ==> Split(parentId, '/')[0] in {IdSearchSongs, IdSearchArtists, IdSearchAlbums, IdSearchVideos,
                                                    ids.artist, ids.album, ids.playlist}
    ensures parentId == ids.artist && parentId !in {ids.root, IdQuickPicks, ids.song} ==>
      r.Some? && |r.value| == |lib.followedArtists| &&
      forall i :: 0 <= i < |r.value| ==> r.value[i].mediaId == ChildId(ids.artist, lib.followedArtists[i].id) &&
                                         r.value[i].metadata.isBrowsable == Some(true)
    ensures parentId == ids.album && parentId !in {ids.root, IdQuickPicks, ids.song, ids.artist} ==>
      r.Some? && |r.value| == |lib.albums| &&
      forall i :: 0 <= i < |r.value| ==> r.value[i].mediaId == ChildId(ids.album, lib.albums[i].id) &&
                                         r.value[i].metadata.isBrowsable == Some(true)
  {
    if parentId == ids.root then Some(RootChildren(h, res, ids))
    else if parentId == IdQuickPicks then Some(QuickPicksChildren(h, res, lib, parentId))
    else if parentId == ids.song then Some(SongItems(h, lib.songs, parentId))
    else if parentId == ids.artist then
      var rows := lib.followedArtists;
      Some(seq(|rows|, i requires 0 <= i < |rows| =>
        BrowsableMediaItem(h, ChildId(ids.artist, rows[i].id), rows[i].name.GetOr(""), Some(""),
                           rows[i].thumbnailUrl, Artist)))
    else if parentId == ids.album then
      var rows := lib.albums;
      Some(seq(|rows|, i requires 0 <= i < |rows| =>
        BrowsableMediaItem(h, ChildId(ids.album, rows[i].id), rows[i].title.GetOr(""), rows[i].authorsText,
                           rows[i].thumbnailUrl, Album)))
    else if parentId == ids.playlist then Some(PlaylistFolders(h, res, ids, lib))
    else PathChildren(h, ids, lib, search, parentId)
  }

  /** A parent id none of whose heads is recognised has no children. */
  lemma UnknownParentIsEmpty(h: Helpers, res: Resources, ids: ServiceIds, lib: Library, search: Search, parentId: string)
    requires !IsExactId(ids, parentId)
    requires Split(parentId, '/')[0] !in {IdSearchSongs, IdSearchArtists, IdSearchAlbums, IdSearchVideos,
                                         ids.artist, ids.album, ids.playlist}
    ensures Children(h, res, ids, lib, search, parentId) == Some([])
  {
  }

  /** The search result: one browsable folder per search kind, each id carrying the query. */
  function SearchResult(h: Helpers, res: Resources, query: string): (r: seq<MediaItem>)
    ensures |r| == 4
    ensures r[0].mediaId == IdSearchSongs + "/" + query && r[1].mediaId == IdSearchArtists + "/" + query
    ensures r[2].mediaId == IdSearchAlbums + "/" + query && r[3].mediaId == IdSearchVideos + "/" + query
    ensures forall i :: 0 <= i < 4 ==> r[i].metadata.isBrowsable == Some(true) && r[i].metadata.isPlayable == Some(false)
  {
    [Folder(h, res, ChildId(IdSearchSongs, query), SongsLabel, None, MusicalNotes, FolderMixed),
     Folder(h, res, ChildId(IdSearchArtists, query), ArtistsLabel, None, People, FolderArtists),
     Folder(h, res, ChildId(IdSearchAlbums, query), AlbumsLabel, None, AlbumIcon, FolderAlbums),
     Folder(h, res, ChildId(IdSearchVideos, query), VideosLabel, None, VideoIcon, FolderMixed)]
  }

  /** A search folder id holding a slash-free query opens the matching search branch. */
  lemma SearchFolderOpens(h: Helpers, res: Resources, ids: ServiceIds, lib: Library, search: Search, query: string)
    requires WellFormed(ids) && '/' !in query
    ensures var r := SearchResult(h, res, query);
      Children(h, res, ids, lib, search, r[0].mediaId) == Some(SongItems(h, search.songs(query), r[0].mediaId)) &&
      Children(h, res, ids, lib, search, r[3].mediaId) == Some(SongItems(h, search.videos(query), r[3].mediaId)) &&
      SearchQuery(ids, r[1].mediaId, IdSearchArtists) == Some(query) &&
      SearchQuery(ids, r[2].mediaId, IdSearchAlbums) == Some(query)
  {
    ConstantsDistinct();
    var r := SearchResult(h, res, query);
    ChildIdSplits(IdSearchSongs, query);
    ChildIdSplits(IdSearchArtists, query);
    ChildIdSplits(IdSearchAlbums, query);
    ChildIdSplits(IdSearchVideos, query);
    SearchIdNotExact(ids, IdSearchSongs, query);
    SearchIdNotExact(ids, IdSearchArtists, query);
    SearchIdNotExact(ids, IdSearchAlbums, query);
    SearchIdNotExact(ids, IdSearchVideos, query);
    assert IdSearchSongs[7] != IdSearchArtists[7] && IdSearchSongs[7] != IdSearchAlbums[7];
    assert IdSearchArtists[8] != IdSearchAlbums[8];
  }

  lemma SearchIdNotExact(ids: ServiceIds, prefix: string, query: string)
    requires WellFormed(ids)
    ensures !IsExactId(ids, ChildId(prefix, query))
  {
    ConstantsDistinct();
    var id := ChildId(prefix, query);
    assert id[|prefix|] == '/';
  }

  // ------------------------------------------------------------ set items

  /** The song id a queue path names and the list the queue is built from. */
  datatype QueueSource = QueueSource(songId: string, queryList: seq<Song>)

  /** trending ++ related without repeated song ids, as quick picks and lucky shuffle use it. */
  function QuickPicksPool(lib: Library): (r: seq<Song>)
    ensures DistinctKeys(r, SongIdOf)
    ensures forall j :: 0 <= j < |r| ==> r[j] in Pool(lib)
    ensures r == FirstsFrom(Pool(lib), SongIdOf, 0)
  {
    DistinctByInOrder(Pool(lib), SongIdOf);
    DistinctBy(Pool(lib), SongIdOf, {})
  }

  /**
   * The `when` of `onSetMediaItems` over the split path.  `None` is the
   * exception the `runCatching` swallows (a missing segment, a playlist id
   * that is not a number); an unknown head leaves the song id empty and the
   * list empty.
   */
  function ResolvePath(ids: ServiceIds, lib: Library, searchedSongs: seq<Song>, searchedVideos: seq<Song>,
                       paths: seq<string>): (r: Option<QueueSource>)
    requires |paths| >= 1
    ensures paths[0] !in QueueHeads(ids) ==> r == Some(QueueSource("", []))
    ensures |paths| == 1 && paths[0] in QueueHeads(ids) ==> r.None?
  {
    var head := paths[0];
    if head == IdQuickPicks then
      if |paths| < 2 then None else Some(QueueSource(paths[1], QuickPicksPool(lib)))
    else if head == IdSearchSongs then
      if |paths| < 3 then None else Some(QueueSource(paths[2], searchedSongs))
    else if head == IdSearchVideos then
      if |paths| < 3 then None else Some(QueueSource(paths[2], searchedVideos))
    else if head == ids.searched then
      if |paths| < 2 then None else Some(QueueSource(paths[1], searchedSongs))
    else if head == ids.song then
      if |paths| < 2 then None else Some(QueueSource(paths[1], lib.songs))
    else if head == ids.artist then
      if |paths| < 3 then None else Some(QueueSource(paths[2], lib.songsByArtist(paths[1])))
    else if head == ids.album then
      if |paths| < 3 then None else Some(QueueSource(paths[2], lib.songsOfAlbum(paths[1])))
    else if head == ids.playlist then
      if |paths| < 3 then None
      else match PlaylistQueue(lib, paths[1])
        case None => None
        case Some(songs) => Some(QueueSource(paths[2], songs))
    else Some(QueueSource("", []))
  }

  /** `indexOfFirst { it.id == songId }.coerceAtLeast(0)`. */
  function StartIndex(queryList: seq<Song>, songId: string): (i: nat)
    ensures i == 0 || i < |queryList|
    ensures (exists k :: 0 <= k < |queryList| && queryList[k].id == songId) ==>
              i < |queryList| && queryList[i].id == songId
    ensures forall k :: 0 <= k < i && k < |queryList| ==> queryList[k].id != songId
    ensures (forall k :: 0 <= k < |queryList| ==> queryList[k].id != songId) ==> i == 0
  {
    if queryList == [] then 0
    else if queryList[0].id == songId then 0
    else
      var j := StartIndex(queryList[1..], songId);
      if j < |queryList| - 1 && queryList[1..][j].id == songId then j + 1 else 0
  }

  /** The whole of `onSetMediaItems`, with `picks` as the randomness of `shuffled()`. */
  function SetMediaItems(h: Helpers, ids: ServiceIds, lib: Library, searchedSongs: seq<Song>, searchedVideos: seq<Song>,
                         mediaItems: seq<MediaItem>, startIndex: int, startPositionMs: int,
                         picks: seq<nat>): (r: ItemsWithStart)
    ensures |r.items| > 0 ==> 0 <= r.startIndex < |r.items|
    ensures r.startPositionMs != startPositionMs ==> r.startIndex == 0 && r.startPositionMs == 0
  {
    if |mediaItems| > 0 && mediaItems[0].mediaId == IdLuckyShuffle && |QuickPicksPool(lib)| > 0 then
      ItemsWithStart(QueueItems(h, Shuffled(QuickPicksPool(lib), picks), false), 0, 0)
    else if mediaItems == [] then ItemsWithStart([], startIndex, startPositionMs)
    else match ResolvePath(ids, lib, searchedSongs, searchedVideos, Split(mediaItems[0].mediaId, '/'))
      case None => ItemsWithStart([], startIndex, startPositionMs)
      case Some(q) => ItemsWithStart(QueueItems(h, q.queryList, false), StartIndex(q.queryList, q.songId), startPositionMs)
  }

  /** Away from lucky shuffle, the queue is the one the first item's path names. */
  lemma SetMediaItemsByPath(h: Helpers, ids: ServiceIds, lib: Library, searchedSongs: seq<Song>,
                            searchedVideos: seq<Song>, item: MediaItem, startIndex: int, startPositionMs: int,
                            picks: seq<nat>)
    requires item.mediaId != IdLuckyShuffle || QuickPicksPool(lib) == []
    ensures SetMediaItems(h, ids, lib, searchedSongs, searchedVideos, [item], startIndex, startPositionMs, picks)
            == match ResolvePath(ids, lib, searchedSongs, searchedVideos, Split(item.mediaId, '/'))
               case None => ItemsWithStart([], startIndex, startPositionMs)
               case Some(q) => ItemsWithStart(QueueItems(h, q.queryList, false), StartIndex(q.queryList, q.songId),
                                              startPositionMs)
  {
  }

  /** Ids of the form `head/songId` name the song at segment 1. */
  lemma OneSegmentRoundTrip(ids: ServiceIds, lib: Library, searchedSongs: seq<Song>, searchedVideos: seq<Song>,
                            head: string, songId: string)
    requires WellFormed(ids) && head in {IdQuickPicks, ids.searched, ids.song} && '/' !in songId
    ensures var r := ResolvePath(ids, lib, searchedSongs, searchedVideos, Split(ChildId(head, songId), '/'));
      r.Some? && r.value.songId == songId &&
      (head == IdQuickPicks ==> r.value.queryList == QuickPicksPool(lib)) &&
      (head == ids.searched ==> r.value.queryList == searchedSongs) &&
      (head == ids.song ==> r.value.queryList == lib.songs)
  {
    ConstantsDistinct();
    ChildIdSplits(head, songId);
  }

  /** Ids of the form `head/middle/songId` name the song at segment 2 and the list at segment 1. */
  lemma TwoSegmentRoundTrip(ids: ServiceIds, lib: Library, searchedSongs: seq<Song>, searchedVideos: seq<Song>,
                            head: string, middle: string, songId: string)
    requires WellFormed(ids) && head in {IdSearchSongs, IdSearchVideos, ids.artist, ids.album}
    requires '/' !in middle && '/' !in songId
    ensures var r := ResolvePath(ids, lib, searchedSongs, searchedVideos, Split(ChildId(ChildId(head, middle), songId), '/'));
      r.Some? && r.value.songId == songId &&
      (head == IdSearchSongs ==> r.value.queryList == searchedSongs) &&
      (head == IdSearchVideos ==> r.value.queryList == searchedVideos) &&
      (head == ids.artist ==> r.value.queryList == lib.songsByArtist(middle)) &&
      (head == ids.album ==> r.value.queryList == lib.songsOfAlbum(middle))
  {
    ConstantsDistinct();
    ThreeParts(head, middle, songId);
  }

  /** Playlist song ids name the playlist at segment 1 and the song at segment 2. */
  lemma PlaylistRoundTrip(ids: ServiceIds, lib: Library, searchedSongs: seq<Song>, searchedVideos: seq<Song>,
                          playlistId: string, songId: string)
    requires WellFormed(ids) && '/' !in playlistId && '/' !in songId
    ensures var r := ResolvePath(ids, lib, searchedSongs, searchedVideos,
                                 Split(ChildId(ChildId(ids.playlist, playlistId), songId), '/'));
      (PlaylistQueue(lib, playlistId).Some? ==> r == Some(QueueSource(songId, PlaylistQueue(lib, playlistId).value))) &&
      (PlaylistQueue(lib, playlistId).None? ==> r.None?)
  {
    ConstantsDistinct();
    ThreeParts(ids.playlist, playlistId, songId);
  }

  lemma ThreeParts(a: string, b: string, c: string)
    requires '/' !in a && '/' !in b && '/' !in c
    ensures Split(ChildId(ChildId(a, b), c), '/') == [a, b, c]
  {
    assert ChildId(ChildId(a, b), c) == ChildId(a, b) + ['/'] + c;
    SplitAround(ChildId(a, b), c, '/');
    ChildIdSplits(a, b);
    SplitSingle(c, '/');
  }

  /** A bare head with its segments missing throws, and the caller's start index comes back. */
  lemma MissingSegmentKeepsStart(h: Helpers, ids: ServiceIds, lib: Library, searchedSongs: seq<Song>,
                                 searchedVideos: seq<Song>, item: MediaItem, startIndex: int, startPositionMs: int,
                                 picks: seq<nat>)
    requires WellFormed(ids) && item.mediaId in QueueHeads(ids)
    ensures SetMediaItems(h, ids, lib, searchedSongs, searchedVideos, [item], startIndex, startPositionMs, picks)
            == ItemsWithStart([], startIndex, startPositionMs)
  {
    ConstantsDistinct();
    SplitSingle(item.mediaId, '/');
    SetMediaItemsByPath(h, ids, lib, searchedSongs, searchedVideos, item, startIndex, startPositionMs, picks);
  }

  /** An unrecognised head gives an empty queue starting at index 0. */
  lemma UnknownHeadStartsAtZero(h: Helpers, ids: ServiceIds, lib: Library, searchedSongs: seq<Song>,
                                searchedVideos: seq<Song>, item: MediaItem, startIndex: int, startPositionMs: int,
                                picks: seq<nat>)
    requires item.mediaId != IdLuckyShuffle && Split(item.mediaId, '/')[0] !in QueueHeads(ids)
    ensures SetMediaItems(h, ids, lib, searchedSongs, searchedVideos, [item], startIndex, startPositionMs, picks)
            == ItemsWithStart([], 0, startPositionMs)
  {
    SetMediaItemsByPath(h, ids, lib, searchedSongs, searchedVideos, item, startIndex, startPositionMs, picks);
  }

  /** A shuffle of the quick-picks pool holds each song once, and a song for every id of the pool. */
  lemma ShuffledPoolCovers(lib: Library, picks: seq<nat>)
    ensures var q := Shuffled(QuickPicksPool(lib), picks);
      multiset(q) == multiset(QuickPicksPool(lib)) &&
      (forall x :: x in q ==> multiset(q)[x] == 1) &&
      (forall i :: 0 <= i < |Pool(lib)| ==> exists j :: 0 <= j < |q| && q[j].id == Pool(lib)[i].id)
  {
    var ps := Pool(lib);
    var pool := QuickPicksPool(lib);
    assert pool == DistinctBy(ps, SongIdOf, {});
    var q := Shuffled(pool, picks);
    ShuffledDistinctCovers(ps, SongIdOf, picks);
    forall i | 0 <= i < |ps| ensures exists j :: 0 <= j < |q| && q[j].id == ps[i].id {
      var j :| 0 <= j < |q| && SongIdOf(q[j]) == SongIdOf(ps[i]);
    }
  }

  /**
   * Lucky shuffle over a non-empty pool plays every song of the
   * de-duplicated pool exactly once, from the start.
   */
  lemma LuckyShufflePlaysPool(h: Helpers, ids: ServiceIds, lib: Library, searchedSongs: seq<Song>,
                              searchedVideos: seq<Song>, items: seq<MediaItem>, startIndex: int,
                              startPositionMs: int, picks: seq<nat>)
    requires |items| > 0 && items[0].mediaId == IdLuckyShuffle && |QuickPicksPool(lib)| > 0
    ensures var r := SetMediaItems(h, ids, lib, searchedSongs, searchedVideos, items, startIndex, startPositionMs, picks);
      var q := Shuffled(QuickPicksPool(lib), picks);
      r == ItemsWithStart(QueueItems(h, q, false), 0, 0) &&
      multiset(q) == multiset(QuickPicksPool(lib)) &&
      (forall x :: x in q ==> multiset(q)[x] == 1) &&
      (forall i :: 0 <= i < |Pool(lib)| ==> exists j :: 0 <= j < |q| && q[j].id == Pool(lib)[i].id)
  {
    ShuffledPoolCovers(lib, picks);
  }

  /** With an empty pool, lucky shuffle falls through to an empty queue at index 0. */
  lemma LuckyShuffleEmptyPool(h: Helpers, ids: ServiceIds, lib: Library, searchedSongs: seq<Song>,
                              searchedVideos: seq<Song>, item: MediaItem, startIndex: int, startPositionMs: int,
                              picks: seq<nat>)
    requires WellFormed(ids) && item.mediaId == IdLuckyShuffle && QuickPicksPool(lib) == []
    ensures SetMediaItems(h, ids, lib, searchedSongs, searchedVideos, [item], startIndex, startPositionMs, picks)
            == ItemsWithStart([], 0, startPositionMs)
  {
    ConstantsDistinct();
    SplitSingle(item.mediaId, '/');
    SetMediaItemsByPath(h, ids, lib, searchedSongs, searchedVideos, item, startIndex, startPositionMs, picks);
  }

  /** Choosing a quick pick queues the quick-picks pool and starts at that song. */
  lemma PlayQuickPick(h: Helpers, ids: ServiceIds, lib: Library, searchedSongs: seq<Song>, searchedVideos: seq<Song>,
                      song: Song, startIndex: int, startPositionMs: int, picks: seq<nat>)
    requires WellFormed(ids) && '/' !in song.id && song in QuickPicksPool(lib)
    ensures var r := SetMediaItems(h, ids, lib, searchedSongs, searchedVideos, [SongItem(h, song, IdQuickPicks)],
                                   startIndex, startPositionMs, picks);
      r.items == QueueItems(h, QuickPicksPool(lib), false) &&
      r.startIndex < |QuickPicksPool(lib)| && QuickPicksPool(lib)[r.startIndex].id == song.id &&
      r.startPositionMs == startPositionMs
  {
    var id := SongItem(h, song, IdQuickPicks).mediaId;
    assert id[0] == IdQuickPicks[0] && IdLuckyShuffle[0] == 'L';
    OneSegmentRoundTrip(ids, lib, searchedSongs, searchedVideos, IdQuickPicks, song.id);
    SetMediaItemsByPath(h, ids, lib, searchedSongs, searchedVideos, SongItem(h, song, IdQuickPicks),
                        startIndex, startPositionMs, picks);
    var k :| 0 <= k < |QuickPicksPool(lib)| && QuickPicksPool(lib)[k] == song;
  }

  // ------------------------------------------------------ playback resumption

  /** A row of the persisted queue; `position` is set on the entry that was playing. */
  datatype QueueEntry = QueueEntry(song: Song, position: Option<int>)

  /** `indexOfFirst { it.position != null }.coerceAtLeast(0)`. */
  function FirstPositioned(queue: seq<QueueEntry>): (i: nat)
    ensures i == 0 || i < |queue|
    ensures (exists k :: 0 <= k < |queue| && queue[k].position.Some?) ==> i < |queue| && queue[i].position.Some?
    ensures forall k :: 0 <= k < i && k < |queue| ==> queue[k].position.None?
  {
    if queue == [] || queue[0].position.Some? then 0
    else
      var j := FirstPositioned(queue[1..]);
      if j < |queue| - 1 && queue[1..][j].position.Some? then j + 1 else 0
  }

  function ResumedItems(h: Helpers, queue: seq<QueueEntry>): (r: seq<MediaItem>)
    ensures |r| == |queue|
    ensures forall i :: 0 <= i < |queue| ==> r[i] == MapSongToQueueItem(h, queue[i].song, true)
  {
    seq(|queue|, i requires 0 <= i < |queue| => MapSongToQueueItem(h, queue[i].song, true))
  }

  /** `onPlaybackResumption` as written: the start position is the start index itself. */
  function PlaybackResumptionAsWritten(h: Helpers, persistentQueue: bool, queue: seq<QueueEntry>): (r: ItemsWithStart)
    ensures !persistentQueue ==> r == ItemsWithStart([], 0, 0)
    ensures persistentQueue ==> r.items == ResumedItems(h, queue) && r.startIndex == FirstPositioned(queue)
    ensures persistentQueue ==> r.startPositionMs == r.startIndex
  {
    if !persistentQueue then ItemsWithStart([], 0, 0)
    else
      var i := FirstPositioned(queue);
      ItemsWithStart(ResumedItems(h, queue), i, i)
  }

  /** `onPlaybackResumption` resuming at the saved position of the entry that was playing. */
  function PlaybackResumption(h: Helpers, persistentQueue: bool, queue: seq<QueueEntry>): (r: ItemsWithStart)
    ensures !persistentQueue ==> r == ItemsWithStart([], 0, 0)
    ensures persistentQueue ==> r.items == ResumedItems(h, queue) && r.startIndex == FirstPositioned(queue)
    ensures persistentQueue && (exists k :: 0 <= k < |queue| && queue[k].position.Some?) ==>
              r.startPositionMs == queue[r.startIndex].position.value
    ensures persistentQueue && (forall k :: 0 <= k < |queue| ==> queue[k].position.None?) ==>
              r.startIndex == 0 && r.startPositionMs == 0
  {
    if !persistentQueue then ItemsWithStart([], 0, 0)
    else
      var i := FirstPositioned(queue);
      var position := if i < |queue| then queue[i].position.GetOr(0) else 0;
      ItemsWithStart(ResumedItems(h, queue), i, position)
  }

  /**
   * A queue whose playing entry is the first, saved 42 s in: the code as
   * written resumes at 0 ms, the saved position is 42000 ms.
   */
  lemma ResumptionPositionLost(h: Helpers, song: Song)
    ensures var queue := [QueueEntry(song, Some(42000))];
      PlaybackResumptionAsWritten(h, true, queue).startPositionMs == 0 &&
      PlaybackResumption(h, true, queue).startPositionMs == 42000
  {
  }

  // ------------------------------------------------------------ the callback

  class MediaLibrarySessionCallback {
    const ids: ServiceIds
    var searchedSongs: seq<Song>
    var searchedArtists: seq<ArtistItem>
    var searchedVideos: seq<Song>
    var searchedAlbums: seq<AlbumItem>

    constructor(ids: ServiceIds)
      ensures this.ids == ids
      ensures searchedSongs == [] && searchedArtists == [] && searchedVideos == [] && searchedAlbums == []
    {
      this.ids := ids;
      searchedSongs := [];
      searchedArtists := [];
      searchedVideos := [];
      searchedAlbums := [];
    }

    /**
     * `onGetChildren`: the children of `parentId`, remembering a search's
     * results in the matching field.
     */
    method OnGetChildren(h: Helpers, res: Resources, lib: Library, search: Search, parentId: string)
      returns (r: Option<seq<MediaItem>>)
      modifies this
      ensures r == Children(h, res, ids, lib, search, parentId)
      ensures searchedSongs == (match SearchQuery(ids, parentId, IdSearchSongs)
                                case Some(q) => search.songs(q) case None => old(searchedSongs))
      ensures searchedArtists == (match SearchQuery(ids, parentId, IdSearchArtists)
                                  case Some(q) => search.artists(q) case None => old(searchedArtists))
      ensures searchedAlbums == (match SearchQuery(ids, parentId, IdSearchAlbums)
                                 case Some(q) => search.albums(q) case None => old(searchedAlbums))
      ensures searchedVideos == (match SearchQuery(ids, parentId, IdSearchVideos)
                                 case Some(q) => search.videos(q) case None => old(searchedVideos))
    {
      r := Children(h, res, ids, lib, search, parentId);
      if IsExactId(ids, parentId) {
        return;
      }
      var parts := Split(parentId, '/');
      if |parts| < 2 {
        return;
      }
      if parts[0] == IdSearchSongs {
        searchedSongs := search.songs(parts[1]);
      } else if parts[0] == IdSearchArtists {
        searchedArtists := search.artists(parts[1]);
      } else if parts[0] == IdSearchAlbums {
        searchedAlbums := search.albums(parts[1]);
      } else if parts[0] == IdSearchVideos {
        searchedVideos := search.videos(parts[1]);
      }
    }

    /**
     * `onSetMediaItems`: lucky shuffle, else the queue named by the first
     * item's id, with the exception path keeping the caller's start.
     */
    method OnSetMediaItems(h: Helpers, lib: Library, mediaItems: seq<MediaItem>, startIndex: int,
                           startPositionMs: int, picks: seq<nat>) returns (r: ItemsWithStart)
      ensures r == SetMediaItems(h, ids, lib, searchedSongs, searchedVideos, mediaItems, startIndex,
                                 startPositionMs, picks)
    {
      if |mediaItems| > 0 && mediaItems[0].mediaId == IdLuckyShuffle {
        var allSongs := Shuffled(QuickPicksPool(lib), picks);
        if |allSongs| > 0 {
          return ItemsWithStart(QueueItems(h, allSongs, false), 0, 0);
        }
      }
      var queryList: seq<Song> := [];
      var startIdx := startIndex;
      if |mediaItems| > 0 {
        var songId := "";
        var paths := Split(mediaItems[0].mediaId, '/');
        match ResolvePath(ids, lib, searchedSongs, searchedVideos, paths) {
          case Some(source) =>
            songId := source.songId;
            queryList := source.queryList;
            startIdx := StartIndex(queryList, songId);
          case None =>
        }
      }
      return ItemsWithStart(QueueItems(h, queryList, false), startIdx, startPositionMs);
    }
  }
}
