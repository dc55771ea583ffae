// Browser ids and custom action names shared by the media library callback
// and the media item mapper.
module MediaSessionConstants {
  const IdQuickPicks: string := "QUICK_PICKS"
  const IdLuckyShuffle: string := "LUCKY_SHUFFLE"
  const IdSearchSongs: string := "SEARCH_SONGS"
  const IdSearchArtists: string := "SEARCH_ARTISTS"
  const IdSearchAlbums: string := "SEARCH_ALBUMS"
  const IdSearchVideos: string := "SEARCH_VIDEOS"
  const IdFavorites: string := "FAVORITES"
  const IdCached: string := "CACHED"
  const IdDownloaded: string := "DOWNLOADED"
  const IdTop: string := "TOP"
  const IdOnDevice: string := "ONDEVICE"
}
