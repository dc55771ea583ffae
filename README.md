# RiMusic core, modelled in Dafny

This project is a Dafny model of the core of RiMusic, an Android music
player written in Kotlin. It covers four areas:

- **The image cache's decision logic** (`ImageCacheFactory.kt`):
  - how the network quality is picked;
  - the per-URL download decision with its 10-second cooldown;
  - the cache keys;
  - the two SharedPreferences stores (learned playlist thumbnails and cached-quality metadata);
  - the thumbnail URL rewrites and the 404 fallback chain.
- **The connectivity helper** (`NetworkQualityHelper.kt`): metered detection, connected/available tests, network type, quality with the metered cap.
- **The media-browser service of Android Auto** (`MediaLibrarySessionCallback.kt` and `MediaItemMapper.kt`):
  - the browse tree;
  - search folders;
  - resolving a tapped item's id to a queue;
  - restoring the persistent queue.
- **The artwork holder** (`BitmapProvider.kt`) and **seven visualizer painters**. Six draw a spectrum: `FftCPoly`, `FftCWave`, `FftCLine`, `FftPoly`, `FftLine` and `FftAnalog`. `WfmAnalog` draws a waveform. Each painter records what it draws on a `Canvas`.

Pure Kotlin functions become Dafny functions whose contracts say what the
result means. Objects whose fields change become classes:

- the two stores, the cache object, the session callback and the bitmap provider;
- every painter, with the `fft` array, the gravity `points` array and the `path`.

Their loops are `while` loops with invariants, proved against recursive
specification functions (`Bars`, `Ring`, `Spokes`, `Boxes`, `Segments`,
`Trace`, `Wave`). Several things the model cannot compute are passed in as
parameters:

- Android services (connectivity, preferences, database rows, downloads, the image loader);
- string helpers from other files (`cleanPrefix`, `cleanTitle`, `asMediaItem`, `thumbnail`);
- the visualizer helpers (power shaping, mirroring, interpolation, gravity, polar conversion, the `drawHelper` dispatch).

Modules:

- `Wrappers`, `Strings`, `Lists`: `Option` and the Kotlin library operations the core calls: `split`, `substringBefore/After`, `replace`, `toLong`, `hashCode`, `distinctBy`, `sortedByDescending`, `shuffled`.
- `MediaSessionConstants`: the browse-tree id constants.
- `ImageCacheStores`: `NetworkQuality`, `PlaylistThumbnailStore`, `CacheMetadataStore`.
- `ThumbnailUrls`: `getYouTubeId`, `thumbnail(size)`, `getNextYouTubeFallback`.
- `ImageCacheFactory`: `getNetworkQuality`, `getDownloadDecision`, `generateCacheKeySync`, `isImageCached`, `clearImageCache`.
- `NetworkQualityHelper`: the connectivity helper.
- `MediaItemMapper`, `MediaLibrary`: the media-browser service.
- `BitmapProvider`: the artwork holder.
- `Visualizer`: what the painters share (canvas, `calc` pipeline, layout arithmetic).
- `FftCPoly`, `FftCWave`, `FftCLine`, `FftPoly`, `FftLine`, `FftAnalog`, `WfmAnalog`: the painters.

## Model

| member | source | states |
|---|---|---|
| ImageCacheStores.QualityValueOf | composeApp/src/androidMain/kotlin/me/knighthat/coil/ImageCacheFactory.kt:152-158 | `valueOf` on the text before `:` yields a quality exactly for "LOW", "MEDIUM" and "HIGH", and that quality's name is the text read |
| ImageCacheStores.QualityOrder | composeApp/src/androidMain/kotlin/me/knighthat/coil/ImageCacheFactory.kt:82-86 | the three qualities are ordered the same way by ordinal, by thumbnail size and by time-to-live, and equal ordinals mean the same quality |
| ImageCacheStores.StoredHalves | composeApp/src/androidMain/kotlin/me/knighthat/coil/ImageCacheFactory.kt:99-104 | an id with no stored entry reads as two empty halves, and neither half of a stored "low\|high" pair contains the separator |
| ImageCacheStores.HighUrl | composeApp/src/androidMain/kotlin/me/knighthat/coil/ImageCacheFactory.kt:116-121 | a learned high-resolution URL is never empty and never holds `\|`; an id never stored has none |
| ImageCacheStores.LowUrl | composeApp/src/androidMain/kotlin/me/knighthat/coil/ImageCacheFactory.kt:123-128 | a learned low-resolution URL is never empty and never holds `\|`; an id never stored has none |
| ImageCacheStores.SplitPair | composeApp/src/androidMain/kotlin/me/knighthat/coil/ImageCacheFactory.kt:109-119 | a pair written as `low\|high` splits back into exactly its two halves when neither holds the separator |
| ImageCacheStores.SaveHighRoundTrip | composeApp/src/androidMain/kotlin/me/knighthat/coil/ImageCacheFactory.kt:99-121 | after `save(id, url, true)` `getHighUrl(id)` returns `url`, the low URL is unchanged and every other id keeps its entry |
| ImageCacheStores.SaveLowRoundTrip | composeApp/src/androidMain/kotlin/me/knighthat/coil/ImageCacheFactory.kt:99-128 | after `save(id, url, false)` `getLowUrl(id)` returns `url`, the high URL is unchanged and every other id keeps its entry |
| ImageCacheStores.SaveNothingWhenEmpty | composeApp/src/androidMain/kotlin/me/knighthat/coil/ImageCacheFactory.kt:106-110 | saving an empty URL over a half that is already empty writes nothing |
| ImageCacheStores.PlaylistThumbnailStore.constructor | composeApp/src/androidMain/kotlin/me/knighthat/coil/ImageCacheFactory.kt:94-96 | a new store holds no entries |
| ImageCacheStores.PlaylistThumbnailStore.Save | composeApp/src/androidMain/kotlin/me/knighthat/coil/ImageCacheFactory.kt:99-114 | the preferences become the saved entry for `id`: the chosen half replaced, the other kept, nothing written when both end up empty |
| ImageCacheStores.PlaylistThumbnailStore.Clear | composeApp/src/androidMain/kotlin/me/knighthat/coil/ImageCacheFactory.kt:130-134 | the entry for `id` is removed and both getters then answer null |
| ImageCacheStores.PlaylistThumbnailStore.ClearAll | composeApp/src/androidMain/kotlin/me/knighthat/coil/ImageCacheFactory.kt:136-138 | the store is empty afterwards |
| ImageCacheStores.StoredQuality | composeApp/src/androidMain/kotlin/me/knighthat/coil/ImageCacheFactory.kt:152-158 | no entry under the URL's hash code gives null; a quality that is found is the one whose name opens the stored entry |
| ImageCacheStores.MetadataRoundTrip | composeApp/src/androidMain/kotlin/me/knighthat/coil/ImageCacheFactory.kt:145-158 | after `save(url, q)` at any time, `get(url)` returns `q` |
| ImageCacheStores.MetadataRemoved | composeApp/src/androidMain/kotlin/me/knighthat/coil/ImageCacheFactory.kt:152-162 | after `remove(url)`, `get(url)` returns null |
| ImageCacheStores.MetadataHashCollision | composeApp/src/androidMain/kotlin/me/knighthat/coil/ImageCacheFactory.kt:145-158 | entries are keyed by `hashCode()`, so the distinct URLs "Aa" and "BB" share one: saving a quality for "Aa" makes `get("BB")` return it |
| ImageCacheStores.CacheMetadataStore.constructor | composeApp/src/androidMain/kotlin/me/knighthat/coil/ImageCacheFactory.kt:141-143 | a new store holds no entries |
| ImageCacheStores.CacheMetadataStore.Save | composeApp/src/androidMain/kotlin/me/knighthat/coil/ImageCacheFactory.kt:145-150 | the entry under the URL's hash becomes `NAME:time`, and `get` then answers the saved quality |
| ImageCacheStores.CacheMetadataStore.Remove | composeApp/src/androidMain/kotlin/me/knighthat/coil/ImageCacheFactory.kt:160-162 | the entry under the URL's hash is removed and `get` then answers null |
| ImageCacheStores.CacheMetadataStore.ClearAll | composeApp/src/androidMain/kotlin/me/knighthat/coil/ImageCacheFactory.kt:164-166 | the store is empty afterwards |
| ThumbnailUrls.YouTubeId | composeApp/src/androidMain/kotlin/me/knighthat/coil/ImageCacheFactory.kt:681-690 | an id is found only on the three i.ytimg.com hosts, is non-empty, differs from the URL and holds no `/`; on a video URL it is the segment after `/vi/` |
| ThumbnailUrls.HighResMarkers | composeApp/src/androidMain/kotlin/me/knighthat/coil/ImageCacheFactory.kt:763-764 | `isYouTubeHighRes` holds exactly when `mwEK` or `maxres` occurs somewhere in the URL |
| ThumbnailUrls.NonTrivial | composeApp/src/androidMain/kotlin/me/knighthat/coil/ImageCacheFactory.kt:688 | `takeIf { it.isNotEmpty() && it != this }`: the segment is kept exactly when it is non-empty and not the whole URL |
| ThumbnailUrls.VideoUrlId | composeApp/src/androidMain/kotlin/me/knighthat/coil/ImageCacheFactory.kt:684 | the id of `https://…i.ytimg.com/vi/<id>/<file>` is `<id>` |
| ThumbnailUrls.VariantFor | composeApp/src/androidMain/kotlin/me/knighthat/coil/ImageCacheFactory.kt:723-728 | maxres exactly above 1000, sd in (600, 1000], hq in (300, 600], mq at 300 and below |
| ThumbnailUrls.VariantMonotone | composeApp/src/androidMain/kotlin/me/knighthat/coil/ImageCacheFactory.kt:723-728 | a larger requested size never gets a lower-resolution file |
| ThumbnailUrls.PlaylistThumbnail | composeApp/src/androidMain/kotlin/me/knighthat/coil/ImageCacheFactory.kt:697-718 | a learned high URL always wins; otherwise a large request keeps the original, and a small one takes a learned low URL that differs from it |
| ThumbnailUrls.PlaylistThumbnailKnown | composeApp/src/androidMain/kotlin/me/knighthat/coil/ImageCacheFactory.kt:697-718 | a playlist thumbnail resolves only to itself or to a URL learned for some id |
| ThumbnailUrls.LearnedHighWins | composeApp/src/androidMain/kotlin/me/knighthat/coil/ImageCacheFactory.kt:99-121 | once a high URL has been saved for a playlist's id, every request for that playlist resolves to it, whatever the size |
| ThumbnailUrls.Thumbnail | composeApp/src/androidMain/kotlin/me/knighthat/coil/ImageCacheFactory.kt:692-745 | null stays null and nothing else becomes null; playlists and podcasts take the playlist branch, video thumbnails get the size's file name, googleusercontent and yt3.ggpht URLs get their size parameters rewritten, and any other URL comes back unchanged |
| ThumbnailUrls.NextFallback | composeApp/src/androidMain/kotlin/me/knighthat/coil/ImageCacheFactory.kt:747-755 | each fallback has a strictly lower resolution; there is none exactly for null, non-video URLs and the lowest resolution |
| ThumbnailUrls.FallbackEnds | composeApp/src/androidMain/kotlin/me/knighthat/coil/ImageCacheFactory.kt:747-755 | applying the fallback more times than the URL's resolution rank always ends in null |
| ThumbnailUrls.NoneStaysNone | composeApp/src/androidMain/kotlin/me/knighthat/coil/ImageCacheFactory.kt:748 | null has no fallback, however often it is applied |
| ThumbnailUrls.FallbackAtMostThree | composeApp/src/androidMain/kotlin/me/knighthat/coil/ImageCacheFactory.kt:747-755 | at most three fallbacks are offered: the fourth application gives null |
| ThumbnailUrls.VideoFallbackChain | composeApp/src/androidMain/kotlin/me/knighthat/coil/ImageCacheFactory.kt:750-753 | on a video URL the chain goes maxres, sd, hq, mq and then stops |
| ImageCacheFactory.BandwidthQuality | composeApp/src/androidMain/kotlin/me/knighthat/coil/ImageCacheFactory.kt:232-236 | HIGH exactly above 20000 kbps, MEDIUM in (5000, 20000], LOW at 5000 and below |
| ImageCacheFactory.BandwidthMonotone | composeApp/src/androidMain/kotlin/me/knighthat/coil/ImageCacheFactory.kt:232-236 | more bandwidth never gives a lower quality |
| ImageCacheFactory.BandwidthAgreesWithHelper | composeApp/src/androidMain/kotlin/me/knighthat/coil/ImageCacheFactory.kt:232-236 | the factory's thresholds agree with the connectivity helper's |
| ImageCacheFactory.NetworkQualityFor | composeApp/src/androidMain/kotlin/me/knighthat/coil/ImageCacheFactory.kt:214-243 | a forced setting wins; in Auto a failure or missing capabilities give LOW, and otherwise the bandwidth decides |
| ImageCacheFactory.Decide | composeApp/src/androidMain/kotlin/me/knighthat/coil/ImageCacheFactory.kt:247-278 | the download decision and the new cooldown map; only the requested URL's cooldown entry can change |
| ImageCacheFactory.DecideInvalid | composeApp/src/androidMain/kotlin/me/knighthat/coil/ImageCacheFactory.kt:248-251 | a null, blank or "null" URL is never downloaded, is rated LOW and leaves the cooldown map alone |
| ImageCacheFactory.DecideInCooldown | composeApp/src/androidMain/kotlin/me/knighthat/coil/ImageCacheFactory.kt:253-259 | within 10 s of the last attempt the network is not used; the stored quality (or LOW) is answered and nothing changes |
| ImageCacheFactory.DecideOutsideCooldown | composeApp/src/androidMain/kotlin/me/knighthat/coil/ImageCacheFactory.kt:261-277 | outside the cooldown a download happens exactly when nothing is stored or the current quality ranks higher; the cooldown is then stamped with `now` |
| ImageCacheFactory.NoRefetchWithinCooldown | composeApp/src/androidMain/kotlin/me/knighthat/coil/ImageCacheFactory.kt:253-265 | a URL downloaded at `now` is not downloaded again at any time less than 10 s later |
| ImageCacheFactory.HexByte | composeApp/src/androidMain/kotlin/me/knighthat/coil/ImageCacheFactory.kt:200 | `"%02x".format(b)` is two hexadecimal digits |
| ImageCacheFactory.Hex | composeApp/src/androidMain/kotlin/me/knighthat/coil/ImageCacheFactory.kt:200 | the folded digest is two hex digits per byte |
| ImageCacheFactory.DigestKey | composeApp/src/androidMain/kotlin/me/knighthat/coil/ImageCacheFactory.kt:197-202 | with a digest, two hex digits per digest byte; when the digest throws, a key ending in `_` and the quality's size |
| ImageCacheFactory.MemoKey | composeApp/src/androidMain/kotlin/me/knighthat/coil/ImageCacheFactory.kt:195 | the memo key is the URL, then `_`, then the quality's size |
| ImageCacheFactory.MemoKeyShape | composeApp/src/androidMain/kotlin/me/knighthat/coil/ImageCacheFactory.kt:195 | the memo key is the URL, `_`, then the quality's size |
| ImageCacheFactory.SizeTextInjective | composeApp/src/androidMain/kotlin/me/knighthat/coil/ImageCacheFactory.kt:82-86 | distinct qualities have distinct size texts |
| ImageCacheFactory.MemoKeyInjective | composeApp/src/androidMain/kotlin/me/knighthat/coil/ImageCacheFactory.kt:195 | two memo keys are equal only for the same URL and quality, so memoised keys never mix |
| ImageCacheFactory.CacheKey | composeApp/src/androidMain/kotlin/me/knighthat/coil/ImageCacheFactory.kt:186-203 | "empty" exactly for a null or blank URL; a `playlist_` key exactly for a playlist or podcast URL that has an id |
| ImageCacheFactory.PlaylistKeyResolution | composeApp/src/androidMain/kotlin/me/knighthat/coil/ImageCacheFactory.kt:190-193 | a playlist key is `playlist_<id>_HIGH` or `_LOW` according to `isYouTubeHighRes` |
| ImageCacheFactory.ImageCache.constructor | composeApp/src/androidMain/kotlin/me/knighthat/coil/ImageCacheFactory.kt:90-92 | empty cooldown and memo maps, and empty fresh thumbnail and metadata stores |
| ImageCacheFactory.ImageCache.GenerateCacheKeySync | composeApp/src/androidMain/kotlin/me/knighthat/coil/ImageCacheFactory.kt:186-203 | answers `CacheKey(url, quality)` whether or not the key was memoised; the memo map either stays as it was or gains the entry for this URL and quality; cooldowns are untouched |
| ImageCacheFactory.ImageCache.GetDownloadDecision | composeApp/src/androidMain/kotlin/me/knighthat/coil/ImageCacheFactory.kt:247-278 | the answer and the new cooldown map are `Decide` of the old state; memoised keys are unchanged |
| ImageCacheFactory.ImageCache.ClearImageCache | composeApp/src/androidMain/kotlin/me/knighthat/coil/ImageCacheFactory.kt:626-648 | both stores, the memo map and the cooldown map are empty afterwards |
| ImageCacheFactory.IsImageCached | composeApp/src/androidMain/kotlin/me/knighthat/coil/ImageCacheFactory.kt:622 | an image is cached exactly when some quality is stored for its URL (a null URL is looked up as "") |
| NetworkQualityHelper.ActiveCapabilities | composeApp/src/androidMain/kotlin/app/it/fast4x/rimusic/utils/NetworkQualityHelper.kt:17-18 | no active network means no capabilities |
| NetworkQualityHelper.IsMetered | composeApp/src/androidMain/kotlin/app/it/fast4x/rimusic/utils/NetworkQualityHelper.kt:14-43 | metered when roaming, when data saver is on (API 24+) or when the user forces it; false when there is no network, no capabilities or an exception |
| NetworkQualityHelper.IsNetworkConnected | composeApp/src/androidMain/kotlin/app/it/fast4x/rimusic/utils/NetworkQualityHelper.kt:45-59 | false on an exception; on API 23+ needs both INTERNET and VALIDATED, below that the legacy `isConnected` |
| NetworkQualityHelper.IsNetworkAvailable | composeApp/src/androidMain/kotlin/app/it/fast4x/rimusic/utils/NetworkQualityHelper.kt:61-74 | false on an exception; on API 23+ needs INTERNET, below that the legacy `isConnected` |
| NetworkQualityHelper.ConnectedImpliesAvailable | composeApp/src/androidMain/kotlin/app/it/fast4x/rimusic/utils/NetworkQualityHelper.kt:45-74 | a connected network is always available, and below API 23 the two tests agree |
| NetworkQualityHelper.CurrentNetworkType | composeApp/src/androidMain/kotlin/app/it/fast4x/rimusic/utils/NetworkQualityHelper.kt:76-90 | "?" on an exception, "-" without network or capabilities, else WIFI, ETHERNET, CELLULAR or "?" in that priority |
| NetworkQualityHelper.BandwidthClass | composeApp/src/androidMain/kotlin/app/it/fast4x/rimusic/utils/NetworkQualityHelper.kt:105-109 | HIGH exactly above 20000 kbps, MEDIUM in (5000, 20000], LOW at 5000 and below |
| NetworkQualityHelper.MeteredCap | composeApp/src/androidMain/kotlin/app/it/fast4x/rimusic/utils/NetworkQualityHelper.kt:112-114 | a metered connection never keeps HIGH, unmetered ones keep their quality, and the cap never raises quality |
| NetworkQualityHelper.QualityOf | composeApp/src/androidMain/kotlin/app/it/fast4x/rimusic/utils/NetworkQualityHelper.kt:92-124 | LOW on an exception or without capabilities; never HIGH on a metered connection |
| NetworkQualityHelper.QualityMonotone | composeApp/src/androidMain/kotlin/app/it/fast4x/rimusic/utils/NetworkQualityHelper.kt:105-114 | on the same connection, more bandwidth never lowers the quality |
| NetworkQualityHelper.GlobalNetworkLogger.constructor | composeApp/src/androidMain/kotlin/app/it/fast4x/rimusic/utils/GlobalNetworkLogger.kt:6-7 | the logger starts with bandwidth -1 and not metered |
| NetworkQualityHelper.GetCurrentNetworkQuality | composeApp/src/androidMain/kotlin/app/it/fast4x/rimusic/utils/NetworkQualityHelper.kt:92-124 | answers `QualityOf(c)`; the logger records the bandwidth and metered flag when capabilities were read, and is untouched otherwise |
| MediaItemMapper.Artwork | composeApp/src/androidMain/kotlin/app/it/fast4x/rimusic/service/modern/MediaItemMapper.kt:35 | no thumbnail gives no artwork; otherwise the artwork is the thumbnail resized to 480 |
| MediaItemMapper.ChildId | composeApp/src/androidMain/kotlin/app/it/fast4x/rimusic/service/modern/MediaItemMapper.kt:32 | a child id is the parent path, one `/`, then the child's own id |
| MediaItemMapper.ChildIdSplits | composeApp/src/androidMain/kotlin/app/it/fast4x/rimusic/service/modern/MediaItemMapper.kt:32 | a child id `path/id` splits at `/` back into its two parts |
| MediaItemMapper.BrowsableMediaItem | composeApp/src/androidMain/kotlin/app/it/fast4x/rimusic/service/modern/MediaItemMapper.kt:93-117 | a browsable, non-playable folder with the given id, cleaned title, subtitle as artist, icon and media type, and no extras |
| MediaItemMapper.MapArtistToMediaItem | composeApp/src/androidMain/kotlin/app/it/fast4x/rimusic/service/modern/MediaItemMapper.kt:24-38 | a browsable artist folder under `parentId/id` with cleaned name, subtext and resized artwork |
| MediaItemMapper.MapAlbumToMediaItem | composeApp/src/androidMain/kotlin/app/it/fast4x/rimusic/service/modern/MediaItemMapper.kt:40-54 | a browsable album folder under `parentId/id` with cleaned title, authors and resized artwork |
| MediaItemMapper.ExplicitExtras | composeApp/src/androidMain/kotlin/app/it/fast4x/rimusic/service/modern/MediaItemMapper.kt:70-74 | both explicit extras are set, agree, and hold exactly when the title carries the explicit prefix |
| MediaItemMapper.MapSongToMediaItem | composeApp/src/androidMain/kotlin/app/it/fast4x/rimusic/service/modern/MediaItemMapper.kt:57-77 | a playable song under `path/id`; VIDEO exactly when the path holds the video-search id, MUSIC otherwise; cleaned title and artists, resized artwork, explicit extras |
| MediaItemMapper.MapSongToQueueItem | composeApp/src/androidMain/kotlin/app/it/fast4x/rimusic/service/modern/MediaItemMapper.kt:79-91 | the song's own media item with only the persistent-queue extra, set to the flag given |
| MediaLibrary.ConstantsDistinct | composeApp/src/androidMain/kotlin/app/it/fast4x/rimusic/service/modern/MediaLibrarySessionCallback.kt:231-483 | the browse-tree constants hold no `/` and are pairwise distinct, so the head of a path names one folder |
| MediaLibrary.SongItem | composeApp/src/androidMain/kotlin/app/it/fast4x/rimusic/service/modern/MediaLibrarySessionCallback.kt:670-690 | the mapper's item for the song, with a video mark before the title only under the video-search path |
| MediaLibrary.SongItems | composeApp/src/androidMain/kotlin/app/it/fast4x/rimusic/service/modern/MediaLibrarySessionCallback.kt:475 | one item per song, in order |
| MediaLibrary.QueueItems | composeApp/src/androidMain/kotlin/app/it/fast4x/rimusic/service/modern/MediaLibrarySessionCallback.kt:628 | one queue item per song, in order |
| MediaLibrary.RootChildren | composeApp/src/androidMain/kotlin/app/it/fast4x/rimusic/service/modern/MediaLibrarySessionCallback.kt:241-277 | the root lists Quick picks, songs, artists, albums and playlists, in that order, all browsable |
| MediaLibrary.LuckyItem | composeApp/src/androidMain/kotlin/app/it/fast4x/rimusic/service/modern/MediaLibrarySessionCallback.kt:280-291 | the lucky-shuffle entry is playable and not browsable |
| MediaLibrary.QuickPicksChildren | composeApp/src/androidMain/kotlin/app/it/fast4x/rimusic/service/modern/MediaLibrarySessionCallback.kt:279-297 | lucky shuffle first, then exactly the first item of every media id in the trending + related pool, in pool order |
| MediaLibrary.DownloadedSongs | composeApp/src/androidMain/kotlin/app/it/fast4x/rimusic/service/modern/MediaLibrarySessionCallback.kt:463-472 | exactly the completed downloads among all songs, with hidden ones, each as often as it is listed, most recently updated first, and songs updated at the same time in their listed order |
| MediaLibrary.CachedSongs | composeApp/src/androidMain/kotlin/app/it/fast4x/rimusic/service/modern/MediaLibrarySessionCallback.kt:445-454 | exactly the songs of fully cached formats: each one listed has such a format, and the song of every such format is listed; one song per cached format, the format listed last coming first |
| MediaLibrary.PlaylistFolders | composeApp/src/androidMain/kotlin/app/it/fast4x/rimusic/service/modern/MediaLibrarySessionCallback.kt:321-372 | five built-in playlists in fixed order, then one folder per user playlist; Downloaded shows the number of completed downloads |
| MediaLibrary.PlaylistQueue | composeApp/src/androidMain/kotlin/app/it/fast4x/rimusic/service/modern/MediaLibrarySessionCallback.kt:441-475 | Downloaded is the list above and Favourites the favourites reversed; an id that is neither built-in nor a number gives nothing |
| MediaLibrary.PlaylistIdRoundTrip | composeApp/src/androidMain/kotlin/app/it/fast4x/rimusic/service/modern/MediaLibrarySessionCallback.kt:474 | a numeric playlist id written as text opens that playlist's songs |
| MediaLibrary.SearchQuery | composeApp/src/androidMain/kotlin/app/it/fast4x/rimusic/service/modern/MediaLibrarySessionCallback.kt:374-378 | a search query is found only under a non-exact id whose head is the search folder |
| MediaLibrary.PathChildren | composeApp/src/androidMain/kotlin/app/it/fast4x/rimusic/service/modern/MediaLibrarySessionCallback.kt:374-477 | a split parent id fails only under a search, artist, album or playlist head, for a missing segment or an unknown non-numeric playlist; any other head has no children |
| MediaLibrary.JoinAuthors | composeApp/src/androidMain/kotlin/app/it/fast4x/rimusic/service/modern/MediaLibrarySessionCallback.kt:420 | no authors give the empty text; otherwise the text starts with the first author's name |
| MediaLibrary.JoinAuthorsCons | composeApp/src/androidMain/kotlin/app/it/fast4x/rimusic/service/modern/MediaLibrarySessionCallback.kt:420 | read from the front: the first name, `, `, then the rest joined |
| MediaLibrary.ArtistFolder | composeApp/src/androidMain/kotlin/app/it/fast4x/rimusic/service/modern/MediaLibrarySessionCallback.kt:398-404 | a browsable, non-playable folder `<artist>/<key>` subtitled with the subscriber count |
| MediaLibrary.AlbumFolder | composeApp/src/androidMain/kotlin/app/it/fast4x/rimusic/service/modern/MediaLibrarySessionCallback.kt:417-423 | a browsable, non-playable folder `<album>/<key>` subtitled with the joined authors, or none |
| MediaLibrary.Children | composeApp/src/androidMain/kotlin/app/it/fast4x/rimusic/service/modern/MediaLibrarySessionCallback.kt:231-483 | every exact id answers: the root gives the root folders, quick picks the quick-picks list, the song id the items of all songs, the playlist id the playlist folders, and followed artists and albums become folders `<head>/<id>`, one per row; only the split-path heads can fail |
| MediaLibrary.UnknownParentIsEmpty | composeApp/src/androidMain/kotlin/app/it/fast4x/rimusic/service/modern/MediaLibrarySessionCallback.kt:477 | an id with an unknown head has no children, not an error |
| MediaLibrary.SearchResult | composeApp/src/androidMain/kotlin/app/it/fast4x/rimusic/service/modern/MediaLibrarySessionCallback.kt:159-188 | a search offers songs, artists, albums and videos for the query, in that order, all browsable |
| MediaLibrary.SearchFolderOpens | composeApp/src/androidMain/kotlin/app/it/fast4x/rimusic/service/modern/MediaLibrarySessionCallback.kt:376-438 | the songs and videos folders a search offers open to that query's results, and the artists and albums folders yield that query |
| MediaLibrary.SearchIdNotExact | composeApp/src/androidMain/kotlin/app/it/fast4x/rimusic/service/modern/MediaLibrarySessionCallback.kt:374-378 | a `prefix/query` id is never mistaken for a top-level id |
| MediaLibrary.QuickPicksPool | composeApp/src/androidMain/kotlin/app/it/fast4x/rimusic/service/modern/MediaLibrarySessionCallback.kt:511-514 | the first song of every id in trending + related, in pool order |
| MediaLibrary.ResolvePath | composeApp/src/androidMain/kotlin/app/it/fast4x/rimusic/service/modern/MediaLibrarySessionCallback.kt:527-595 | an unknown head gives an empty queue with song id ""; a bare known head gives an error |
| MediaLibrary.StartIndex | composeApp/src/androidMain/kotlin/app/it/fast4x/rimusic/service/modern/MediaLibrarySessionCallback.kt:597 | the index of the first song with the tapped id, or 0 when there is none |
| MediaLibrary.SetMediaItems | composeApp/src/androidMain/kotlin/app/it/fast4x/rimusic/service/modern/MediaLibrarySessionCallback.kt:504-601 | a non-empty queue starts at one of its own indices; the start position is the caller's or, for lucky shuffle, index and position 0 |
| MediaLibrary.SetMediaItemsByPath | composeApp/src/androidMain/kotlin/app/it/fast4x/rimusic/service/modern/MediaLibrarySessionCallback.kt:521-600 | away from lucky shuffle, a tapped item resolves through its path: a failed resolution keeps the given start and queues nothing, otherwise the folder's list is queued from the tapped song's index |
| MediaLibrary.OneSegmentRoundTrip | composeApp/src/androidMain/kotlin/app/it/fast4x/rimusic/service/modern/MediaLibrarySessionCallback.kt:529-548 | an item built as `head/songId` under Quick picks, search results or songs resolves back to that folder's list and song |
| MediaLibrary.TwoSegmentRoundTrip | composeApp/src/androidMain/kotlin/app/it/fast4x/rimusic/service/modern/MediaLibrarySessionCallback.kt:533-556 | an item built as `head/middle/songId` resolves back to its folder's list and song |
| MediaLibrary.PlaylistRoundTrip | composeApp/src/androidMain/kotlin/app/it/fast4x/rimusic/service/modern/MediaLibrarySessionCallback.kt:557-594 | an item built as `playlist/id/songId` resolves to that playlist's queue and song |
| MediaLibrary.ThreeParts | composeApp/src/androidMain/kotlin/app/it/fast4x/rimusic/service/modern/MediaLibrarySessionCallback.kt:527 | a path of three slash-free parts splits back into them |
| MediaLibrary.MissingSegmentKeepsStart | composeApp/src/androidMain/kotlin/app/it/fast4x/rimusic/service/modern/MediaLibrarySessionCallback.kt:521-524 | a bare known head fails inside `runCatching`, so the queue is empty and the start index is the one given |
| MediaLibrary.UnknownHeadStartsAtZero | composeApp/src/androidMain/kotlin/app/it/fast4x/rimusic/service/modern/MediaLibrarySessionCallback.kt:597 | an item whose head is unknown gives an empty queue starting at 0 |
| MediaLibrary.LuckyShufflePlaysPool | composeApp/src/androidMain/kotlin/app/it/fast4x/rimusic/service/modern/MediaLibrarySessionCallback.kt:511-518 | lucky shuffle queues every pool song exactly once, from index 0 |
| MediaLibrary.LuckyShuffleEmptyPool | composeApp/src/androidMain/kotlin/app/it/fast4x/rimusic/service/modern/MediaLibrarySessionCallback.kt:516 | with an empty pool, lucky shuffle falls through to path resolution |
| MediaLibrary.PlayQuickPick | composeApp/src/androidMain/kotlin/app/it/fast4x/rimusic/service/modern/MediaLibrarySessionCallback.kt:529-532 | a tapped quick pick queues the pool and starts at that song |
| MediaLibrary.FirstPositioned | composeApp/src/androidMain/kotlin/app/it/fast4x/rimusic/service/modern/MediaLibrarySessionCallback.kt:623 | the first entry with a saved position, or 0 when none has one |
| MediaLibrary.ResumedItems | composeApp/src/androidMain/kotlin/app/it/fast4x/rimusic/service/modern/MediaLibrarySessionCallback.kt:628 | one persistent-queue item per stored entry, in order |
| MediaLibrary.PlaybackResumptionAsWritten | composeApp/src/androidMain/kotlin/app/it/fast4x/rimusic/service/modern/MediaLibrarySessionCallback.kt:603-638 | nothing without the persistent-queue setting; otherwise the stored items from the first positioned entry, with start position equal to the start index |
| MediaLibrary.PlaybackResumption | composeApp/src/androidMain/kotlin/app/it/fast4x/rimusic/service/modern/MediaLibrarySessionCallback.kt:603-638 | as above, but the start position is that entry's saved position (0 when none has one) |
| MediaLibrary.ResumptionPositionLost | composeApp/src/androidMain/kotlin/app/it/fast4x/rimusic/service/modern/MediaLibrarySessionCallback.kt:622-627 | a one-entry queue saved at 42000 ms resumes at 0 ms as written and at 42000 ms when corrected |
| MediaLibrary.MediaLibrarySessionCallback.constructor | composeApp/src/androidMain/kotlin/app/it/fast4x/rimusic/service/modern/MediaLibrarySessionCallback.kt:82-85 | the callback starts with no search results |
| MediaLibrary.MediaLibrarySessionCallback.OnGetChildren | composeApp/src/androidMain/kotlin/app/it/fast4x/rimusic/service/modern/MediaLibrarySessionCallback.kt:231-483 | answers the children of `parentId`; a search folder replaces its stored results, others keep theirs |
| MediaLibrary.MediaLibrarySessionCallback.OnSetMediaItems | composeApp/src/androidMain/kotlin/app/it/fast4x/rimusic/service/modern/MediaLibrarySessionCallback.kt:504-601 | answers the queue and start index for the tapped items and their stored searches; the state is unchanged |
| BitmapProvider.BitmapProvider.constructor | composeApp/src/androidMain/kotlin/it/fast4x/rimusic/service/BitmapProvider.kt:18-45 | the default bitmap is painted (blank if painting fails, as no fallback exists yet); the fallback is the app icon or a grey square |
| BitmapProvider.BitmapProvider.SetFallbackBitmap | composeApp/src/androidMain/kotlin/it/fast4x/rimusic/service/BitmapProvider.kt:47-57 | the fallback becomes the app icon, or a 0xFF666666 square when the icon throws; nothing else changes |
| BitmapProvider.BitmapProvider.SetDefaultBitmap | composeApp/src/androidMain/kotlin/it/fast4x/rimusic/service/BitmapProvider.kt:59-78 | nothing happens when the UI mode matches the last one; otherwise the mode is stored and the default repainted (fallback on failure), and a repaint is needed exactly when there is no artwork |
| BitmapProvider.BitmapProvider.CurrentBitmap | composeApp/src/androidMain/kotlin/it/fast4x/rimusic/service/BitmapProvider.kt:33-34 | the artwork if any, else the fallback, else the default |
| BitmapProvider.BitmapProvider.ValidNeverShowsDefault | composeApp/src/androidMain/kotlin/it/fast4x/rimusic/service/BitmapProvider.kt:33-34 | once constructed, the getter answers the artwork or the fallback, never the default |
| BitmapProvider.BitmapProvider.SetListener | composeApp/src/androidMain/kotlin/it/fast4x/rimusic/service/BitmapProvider.kt:36-40 | a new listener is invoked at once with the current artwork |
| BitmapProvider.BitmapProvider.Load | composeApp/src/androidMain/kotlin/it/fast4x/rimusic/service/BitmapProvider.kt:80-103 | null installs the fallback and calls back; the same URI only calls back; a new URI is remembered and requested, or the fallback is installed when enqueueing throws |
| BitmapProvider.BitmapProvider.Complete | composeApp/src/androidMain/kotlin/it/fast4x/rimusic/service/BitmapProvider.kt:117-164 | a decoded bitmap becomes the artwork, anything else the fallback; a network error first preloads; then the request's callback runs |
| BitmapProvider.BitmapProvider.Clear | composeApp/src/androidMain/kotlin/it/fast4x/rimusic/service/BitmapProvider.kt:175-179 | the last request is disposed and the URI and artwork forgotten, so the getter shows the fallback again |
| BitmapProvider.Without | composeApp/src/androidMain/kotlin/it/fast4x/rimusic/service/BitmapProvider.kt:176 | disposing of a request removes exactly it from the pending ones |
| Visualizer.Shortest | composeApp/src/androidMain/kotlin/app/it/fast4x/rimusic/extensions/nextvisualizer/painters/fft/FftCPoly.kt:78 | `min(width, height)` |
| Visualizer.IsQuiet | composeApp/src/androidMain/kotlin/app/it/fast4x/rimusic/extensions/nextvisualizer/painters/fft/FftCPoly.kt:42-48 | a frame is skipped exactly when no magnitude exceeds 5 |
| Visualizer.Filled | composeApp/src/androidMain/kotlin/app/it/fast4x/rimusic/extensions/nextvisualizer/painters/fft/FftCPoly.kt:40 | the magnitudes fill the front of the buffer and the rest is kept |
| Visualizer.Shape | composeApp/src/androidMain/kotlin/app/it/fast4x/rimusic/extensions/nextvisualizer/painters/fft/FftCPoly.kt:55-67 | power shaping keeps the buffer's length; with mirror the bars follow the mirrored copy of the filled part, otherwise the buffer itself; the linear painters without mirror keep `filled` bars |
| Visualizer.Prior | composeApp/src/androidMain/kotlin/app/it/fast4x/rimusic/extensions/nextvisualizer/painters/fft/FftCPoly.kt:69 | the gravity array is kept when its size is right and otherwise replaced by fresh bars |
| Visualizer.Updated | composeApp/src/androidMain/kotlin/app/it/fast4x/rimusic/extensions/nextvisualizer/painters/fft/FftCPoly.kt:70 | every bar follows its own value times `ampR` |
| Visualizer.Regravitate | composeApp/src/androidMain/kotlin/app/it/fast4x/rimusic/extensions/nextvisualizer/painters/fft/FftCPoly.kt:69-70 | the array is replaced exactly when its size is wrong, and then every bar is updated |
| Visualizer.CalcFrame | composeApp/src/androidMain/kotlin/app/it/fast4x/rimusic/extensions/nextvisualizer/painters/fft/FftCPoly.kt:39-73 | a quiet frame is skipped before any shaping; otherwise the buffer is shaped and the bars updated |
| Visualizer.Step | composeApp/src/androidMain/kotlin/app/it/fast4x/rimusic/extensions/nextvisualizer/painters/fft/FftCWave.kt:78 | `num` steps make up the whole |
| Visualizer.Ratio | composeApp/src/androidMain/kotlin/app/it/fast4x/rimusic/extensions/nextvisualizer/painters/fft/FftCPoly.kt:79 | the quotient times a non-zero divisor gives the dividend |
| Visualizer.WriteQuad | composeApp/src/androidMain/kotlin/app/it/fast4x/rimusic/extensions/nextvisualizer/painters/fft/FftCLine.kt:103-113 | one segment writes its four slots and leaves every other slot alone |
| FftCPoly.LayoutOf | composeApp/src/androidMain/kotlin/app/it/fast4x/rimusic/extensions/nextvisualizer/painters/fft/FftCPoly.kt:78-80 | the radius is `shortest / 2 * radiusR` |
| FftCPoly.LayoutCoversTurn | composeApp/src/androidMain/kotlin/app/it/fast4x/rimusic/extensions/nextvisualizer/painters/fft/FftCPoly.kt:78-80 | the bars and their gaps make up one full turn |
| FftCPoly.StopAngle | composeApp/src/androidMain/kotlin/app/it/fast4x/rimusic/extensions/nextvisualizer/painters/fft/FftCPoly.kt:83-99 | each bar spans one bar angle |
| FftCPoly.BarsTileTheTurn | composeApp/src/androidMain/kotlin/app/it/fast4x/rimusic/extensions/nextvisualizer/painters/fft/FftCPoly.kt:83-99 | neighbouring bars are one gap apart, so bars never overlap |
| FftCPoly.Bar | composeApp/src/androidMain/kotlin/app/it/fast4x/rimusic/extensions/nextvisualizer/painters/fft/FftCPoly.kt:83-99 | one bar is a closed quadrilateral: moveTo, three lineTo, close |
| FftCPoly.Bars | composeApp/src/androidMain/kotlin/app/it/fast4x/rimusic/extensions/nextvisualizer/painters/fft/FftCPoly.kt:83-99 | the first `n` bars are `5n` path commands, bar after bar |
| FftCPoly.BarsAt | composeApp/src/androidMain/kotlin/app/it/fast4x/rimusic/extensions/nextvisualizer/painters/fft/FftCPoly.kt:83-99 | commands `5i .. 5i+4` are bar `i` |
| FftCPoly.BarReadsTwoKnots | composeApp/src/androidMain/kotlin/app/it/fast4x/rimusic/extensions/nextvisualizer/painters/fft/FftCPoly.kt:83-99 | a bar reads the spline only at its own knot and the next |
| FftCPoly.BarsReadKnotsOnly | composeApp/src/androidMain/kotlin/app/it/fast4x/rimusic/extensions/nextvisualizer/painters/fft/FftCPoly.kt:83-99 | the drawing depends on the spline only at the integer knots |
| FftCPoly.FftCPoly.constructor | composeApp/src/androidMain/kotlin/app/it/fast4x/rimusic/extensions/nextvisualizer/painters/fft/FftCPoly.kt:13-37 | the configuration is the one given; the magnitude buffer is a fresh array of 260 zeros, no bars yet, the frame not skipped, no spline, and an empty path with the default fill type |
| FftCPoly.FftCPoly.Calc | composeApp/src/androidMain/kotlin/app/it/fast4x/rimusic/extensions/nextvisualizer/painters/fft/FftCPoly.kt:39-73 | quiet frames are skipped; loud ones update the bars and interpolate them around the circle |
| FftCPoly.FftCPoly.AppendBars | composeApp/src/androidMain/kotlin/app/it/fast4x/rimusic/extensions/nextvisualizer/painters/fft/FftCPoly.kt:83-99 | the loop appends exactly the `num` bars |
| FftCPoly.FftCPoly.Draw | composeApp/src/androidMain/kotlin/app/it/fast4x/rimusic/extensions/nextvisualizer/painters/fft/FftCPoly.kt:75-145 | nothing on a skipped frame; otherwise the branch's bars drawn centred and the path reset |
| FftCWave.Ring | composeApp/src/androidMain/kotlin/app/it/fast4x/rimusic/extensions/nextvisualizer/painters/fft/FftCWave.kt:91-105 | a ring has one vertex per step |
| FftCWave.RingAt | composeApp/src/androidMain/kotlin/app/it/fast4x/rimusic/extensions/nextvisualizer/painters/fft/FftCWave.kt:91-105 | command `i` of a ring is vertex `i` |
| FftCWave.RingShape | composeApp/src/androidMain/kotlin/app/it/fast4x/rimusic/extensions/nextvisualizer/painters/fft/FftCWave.kt:91-105 | a ring opens with moveTo and continues with lineTo |
| FftCWave.RingEndsAtFullTurn | composeApp/src/androidMain/kotlin/app/it/fast4x/rimusic/extensions/nextvisualizer/painters/fft/FftCWave.kt:82-88 | the last vertex lies a full turn round, closing the ring |
| FftCWave.WaveCmds | composeApp/src/androidMain/kotlin/app/it/fast4x/rimusic/extensions/nextvisualizer/painters/fft/FftCWave.kt:90-121 | the three `drawHelper` lambdas: the first ring of `num + 1` vertices is the outer ring, or the plain one in branch 1, then `close`; the two-ring branches follow it with the closed inner ring; `num + 2` commands for one ring, twice that for two |
| FftCWave.WaveRingsClosed | composeApp/src/androidMain/kotlin/app/it/fast4x/rimusic/extensions/nextvisualizer/painters/fft/FftCWave.kt:91-121 | the first ring is closed, and two-ring branches close both rings, the second opening with moveTo |
| FftCWave.RingReadsKnotsOnly | composeApp/src/androidMain/kotlin/app/it/fast4x/rimusic/extensions/nextvisualizer/painters/fft/FftCWave.kt:91-105 | a ring depends on the spline only at the integer knots |
| FftCWave.FftCWave.constructor | composeApp/src/androidMain/kotlin/app/it/fast4x/rimusic/extensions/nextvisualizer/painters/fft/FftCWave.kt:13-37 | the configuration is the one given; the magnitude buffer is a fresh array of 260 zeros, no bars yet, the frame not skipped, no spline, and an empty path with the default fill type |
| FftCWave.FftCWave.Calc | composeApp/src/androidMain/kotlin/app/it/fast4x/rimusic/extensions/nextvisualizer/painters/fft/FftCWave.kt:39-73 | a quiet frame is skipped only with a stroke paint; otherwise as the other circular painters |
| FftCWave.FftCWave.AppendRing | composeApp/src/androidMain/kotlin/app/it/fast4x/rimusic/extensions/nextvisualizer/painters/fft/FftCWave.kt:91-105 | the loop appends exactly the ring's vertices |
| FftCWave.FftCWave.BuildWave | composeApp/src/androidMain/kotlin/app/it/fast4x/rimusic/extensions/nextvisualizer/painters/fft/FftCWave.kt:82-121 | the branch's rings, with even-odd filling when there are two |
| FftCWave.FftCWave.Draw | composeApp/src/androidMain/kotlin/app/it/fast4x/rimusic/extensions/nextvisualizer/painters/fft/FftCWave.kt:75-123 | nothing on a skipped frame; otherwise the rings drawn centred, the path reset with its fill type kept |
| FftCLine.Spoke | composeApp/src/androidMain/kotlin/app/it/fast4x/rimusic/extensions/nextvisualizer/painters/fft/FftCLine.kt:103-113 | a spoke is four floats: start x, start y, stop x, stop y |
| FftCLine.Spokes | composeApp/src/androidMain/kotlin/app/it/fast4x/rimusic/extensions/nextvisualizer/painters/fft/FftCLine.kt:77 | the buffer holds four floats per spoke |
| FftCLine.SpokesAt | composeApp/src/androidMain/kotlin/app/it/fast4x/rimusic/extensions/nextvisualizer/painters/fft/FftCLine.kt:103-113 | slots `4i .. 4i+3` hold spoke `i` |
| FftCLine.SpokesReadKnotsOnly | composeApp/src/androidMain/kotlin/app/it/fast4x/rimusic/extensions/nextvisualizer/painters/fft/FftCLine.kt:81-113 | the spokes depend on the spline only at the integer knots |
| FftCLine.WriteSpokes | composeApp/src/androidMain/kotlin/app/it/fast4x/rimusic/extensions/nextvisualizer/painters/fft/FftCLine.kt:77-113 | every slot of the zeroed buffer is written once, with its spoke's value |
| FftCLine.FftCLine.constructor | composeApp/src/androidMain/kotlin/app/it/fast4x/rimusic/extensions/nextvisualizer/painters/fft/FftCLine.kt:12-35 | the configuration is the one given; the magnitude buffer is a fresh array of 260 zeros, no bars yet, the frame not skipped, no spline |
| FftCLine.FftCLine.Calc | composeApp/src/androidMain/kotlin/app/it/fast4x/rimusic/extensions/nextvisualizer/painters/fft/FftCLine.kt:37-71 | quiet frames are skipped; loud ones update the bars and interpolate them around the circle |
| FftCLine.FftCLine.Draw | composeApp/src/androidMain/kotlin/app/it/fast4x/rimusic/extensions/nextvisualizer/painters/fft/FftCLine.kt:73-116 | nothing on a skipped frame; otherwise one `drawLines` of all spokes, centred |
| FftPoly.BarWidth | composeApp/src/androidMain/kotlin/app/it/fast4x/rimusic/extensions/nextvisualizer/painters/fft/FftPoly.kt:76 | the bars and their `num + 1` gaps fill the canvas width |
| FftPoly.BarsSpanTheWidth | composeApp/src/androidMain/kotlin/app/it/fast4x/rimusic/extensions/nextvisualizer/painters/fft/FftPoly.kt:79-94 | every box is one bar wide, neighbours are one gap apart, and the row is a gap in from both edges |
| FftPoly.Box | composeApp/src/androidMain/kotlin/app/it/fast4x/rimusic/extensions/nextvisualizer/painters/fft/FftPoly.kt:79-94 | a box is a closed quadrilateral |
| FftPoly.BoxShape | composeApp/src/androidMain/kotlin/app/it/fast4x/rimusic/extensions/nextvisualizer/painters/fft/FftPoly.kt:79-94 | a box stands on its bar's left and right edges with its top at minus the spline at its two knots; its base lies on the axis in the first branch and mirrors the top in the second |
| FftPoly.Boxes | composeApp/src/androidMain/kotlin/app/it/fast4x/rimusic/extensions/nextvisualizer/painters/fft/FftPoly.kt:79-94 | the first `n` boxes are `5n` path commands, box after box |
| FftPoly.BoxesAt | composeApp/src/androidMain/kotlin/app/it/fast4x/rimusic/extensions/nextvisualizer/painters/fft/FftPoly.kt:79-94 | commands `5i .. 5i+4` are box `i` |
| FftPoly.BoxReadsTwoKnots | composeApp/src/androidMain/kotlin/app/it/fast4x/rimusic/extensions/nextvisualizer/painters/fft/FftPoly.kt:79-94 | a box reads the spline only at its knot and the next |
| FftPoly.BoxesReadKnotsOnly | composeApp/src/androidMain/kotlin/app/it/fast4x/rimusic/extensions/nextvisualizer/painters/fft/FftPoly.kt:79-94 | the boxes depend on the spline only at the integer knots |
| FftPoly.FftPoly.constructor | composeApp/src/androidMain/kotlin/app/it/fast4x/rimusic/extensions/nextvisualizer/painters/fft/FftPoly.kt:11-34 | the configuration is the one given; the magnitude buffer is a fresh array of 256 zeros, no bars yet, the frame not skipped, no spline, and an empty path with the default fill type |
| FftPoly.FftPoly.Calc | composeApp/src/androidMain/kotlin/app/it/fast4x/rimusic/extensions/nextvisualizer/painters/fft/FftPoly.kt:36-70 | quiet frames are skipped; loud ones update the bars and interpolate them |
| FftPoly.FftPoly.AppendBoxes | composeApp/src/androidMain/kotlin/app/it/fast4x/rimusic/extensions/nextvisualizer/painters/fft/FftPoly.kt:79-94 | the loop appends exactly the `num` boxes |
| FftPoly.FftPoly.Draw | composeApp/src/androidMain/kotlin/app/it/fast4x/rimusic/extensions/nextvisualizer/painters/fft/FftPoly.kt:72-98 | nothing on a skipped frame; otherwise the branch's boxes drawn and the path reset |
| FftLine.SegmentsInsideTheWidth | composeApp/src/androidMain/kotlin/it/fast4x/rimusic/extensions/nextvisualizer/painters/fft/FftLine.kt:74-91 | segment centres lie inside the canvas, half a slot from either edge, one slot apart |
| FftLine.Segment | composeApp/src/androidMain/kotlin/it/fast4x/rimusic/extensions/nextvisualizer/painters/fft/FftLine.kt:78-91 | a segment is four floats |
| FftLine.SegmentShape | composeApp/src/androidMain/kotlin/it/fast4x/rimusic/extensions/nextvisualizer/painters/fft/FftLine.kt:78-91 | a segment is vertical at its slot's centre, from minus the spline down to the axis, or mirrored about it in the second branch |
| FftLine.Segments | composeApp/src/androidMain/kotlin/it/fast4x/rimusic/extensions/nextvisualizer/painters/fft/FftLine.kt:76-91 | the first `n` segments fill `4n` floats, the `FloatArray(4 * num)` of the source |
| FftLine.SegmentsAt | composeApp/src/androidMain/kotlin/it/fast4x/rimusic/extensions/nextvisualizer/painters/fft/FftLine.kt:78-91 | slots `4i .. 4i+3` hold segment `i` |
| FftLine.SegmentsReadKnotsOnly | composeApp/src/androidMain/kotlin/it/fast4x/rimusic/extensions/nextvisualizer/painters/fft/FftLine.kt:78-91 | the segments depend on the spline only at the integer knots |
| FftLine.WriteSegments | composeApp/src/androidMain/kotlin/it/fast4x/rimusic/extensions/nextvisualizer/painters/fft/FftLine.kt:76-91 | every slot of the zeroed buffer is written once, with its segment's value |
| FftLine.FftLine.constructor | composeApp/src/androidMain/kotlin/it/fast4x/rimusic/extensions/nextvisualizer/painters/fft/FftLine.kt:10-32 | the configuration is the one given; the magnitude buffer is a fresh array of 256 zeros, no bars yet, the frame not skipped, no spline |
| FftLine.FftLine.Calc | composeApp/src/androidMain/kotlin/it/fast4x/rimusic/extensions/nextvisualizer/painters/fft/FftLine.kt:34-68 | quiet frames are skipped; loud ones update the bars and interpolate them |
| FftLine.FftLine.Draw | composeApp/src/androidMain/kotlin/it/fast4x/rimusic/extensions/nextvisualizer/painters/fft/FftLine.kt:70-94 | nothing on a skipped frame; otherwise one `drawLines` of all segments |
| FftAnalog.Trace | composeApp/src/androidMain/kotlin/it/fast4x/rimusic/extensions/nextvisualizer/painters/fft/FftAnalog.kt:76-84 | the trace has one vertex per bar |
| FftAnalog.TraceAt | composeApp/src/androidMain/kotlin/it/fast4x/rimusic/extensions/nextvisualizer/painters/fft/FftAnalog.kt:76-84 | command `i` is vertex `i` |
| FftAnalog.Zigzag | composeApp/src/androidMain/kotlin/it/fast4x/rimusic/extensions/nextvisualizer/painters/fft/FftAnalog.kt:76-84 | the trace opens with moveTo at the left edge, even vertices sit at minus the spline and odd ones at plus it, the last is one slot from the right edge, and on a canvas of positive width the vertices run strictly left to right |
| FftAnalog.TraceReadsKnotsOnly | composeApp/src/androidMain/kotlin/it/fast4x/rimusic/extensions/nextvisualizer/painters/fft/FftAnalog.kt:76-84 | the trace depends on the spline only at the integer knots |
| FftAnalog.FftAnalog.constructor | composeApp/src/androidMain/kotlin/it/fast4x/rimusic/extensions/nextvisualizer/painters/fft/FftAnalog.kt:11-32 | the configuration is the one given; the magnitude buffer is a fresh array of 256 zeros, no bars yet, the frame not skipped, no spline, and an empty path with the default fill type |
| FftAnalog.FftAnalog.Calc | composeApp/src/androidMain/kotlin/it/fast4x/rimusic/extensions/nextvisualizer/painters/fft/FftAnalog.kt:34-67 | quiet frames are skipped; loud ones update the bars and interpolate them |
| FftAnalog.FftAnalog.AppendTrace | composeApp/src/androidMain/kotlin/it/fast4x/rimusic/extensions/nextvisualizer/painters/fft/FftAnalog.kt:76-84 | the loop appends exactly the trace |
| FftAnalog.FftAnalog.Draw | composeApp/src/androidMain/kotlin/it/fast4x/rimusic/extensions/nextvisualizer/painters/fft/FftAnalog.kt:69-88 | nothing on a skipped frame; otherwise the trace drawn and the path reset |
| WfmAnalog.Unsigned | composeApp/src/androidMain/kotlin/app/it/fast4x/rimusic/extensions/nextvisualizer/painters/waveform/WfmAnalog.kt:59-61 | `toUByte()`: the byte's value modulo 256, unchanged for non-negative bytes |
| WfmAnalog.Height | composeApp/src/androidMain/kotlin/app/it/fast4x/rimusic/extensions/nextvisualizer/painters/waveform/WfmAnalog.kt:59-61 | the unsigned midpoint 128 is drawn on the axis; with a positive amplitude, samples below it are drawn on the positive side and samples above it on the negative side |
| WfmAnalog.HeightRange | composeApp/src/androidMain/kotlin/app/it/fast4x/rimusic/extensions/nextvisualizer/painters/waveform/WfmAnalog.kt:59-61 | a vertex's height stays within the amplitude band, and is 0 exactly for the byte -128 (silence) |
| WfmAnalog.Stride | composeApp/src/androidMain/kotlin/app/it/fast4x/rimusic/extensions/nextvisualizer/painters/waveform/WfmAnalog.kt:56 | `waveform.size / (num + 1)` never exceeds the size, and is 0 exactly when the capture has at most `num` samples |
| WfmAnalog.StrideFloor | composeApp/src/androidMain/kotlin/app/it/fast4x/rimusic/extensions/nextvisualizer/painters/waveform/WfmAnalog.kt:56 | the stride is the largest step that fits `num + 1` times into the capture |
| WfmAnalog.SamplesInBounds | composeApp/src/androidMain/kotlin/app/it/fast4x/rimusic/extensions/nextvisualizer/painters/waveform/WfmAnalog.kt:56 | every sample index read lies inside the waveform, and indices never decrease |
| WfmAnalog.Wave | composeApp/src/androidMain/kotlin/app/it/fast4x/rimusic/extensions/nextvisualizer/painters/waveform/WfmAnalog.kt:59-61 | the wave has `num + 1` vertices |
| WfmAnalog.VertexIsLineTo | composeApp/src/androidMain/kotlin/app/it/fast4x/rimusic/extensions/nextvisualizer/painters/waveform/WfmAnalog.kt:60-61 | every vertex after the first is a `lineTo` at `sliceWidth * i` of the in-bounds sample `point * i` |
| WfmAnalog.WaveAt | composeApp/src/androidMain/kotlin/app/it/fast4x/rimusic/extensions/nextvisualizer/painters/waveform/WfmAnalog.kt:59-61 | command `i` is vertex `i` |
| WfmAnalog.WaveSpansTheWidth | composeApp/src/androidMain/kotlin/app/it/fast4x/rimusic/extensions/nextvisualizer/painters/waveform/WfmAnalog.kt:56-61 | the wave opens with moveTo at the left edge at the first sample's height, then lineTo one slice apart, ending at the right edge |
| WfmAnalog.SilenceIsFlat | composeApp/src/androidMain/kotlin/app/it/fast4x/rimusic/extensions/nextvisualizer/painters/waveform/WfmAnalog.kt:56-61 | a silent waveform draws a flat line at height 0 |
| WfmAnalog.WfmAnalog.constructor | composeApp/src/androidMain/kotlin/app/it/fast4x/rimusic/extensions/nextvisualizer/painters/waveform/WfmAnalog.kt:10-27 | the configuration is the one given; a fresh buffer of 256 magnitudes, the frame not skipped, no waveform captured yet, and an empty path with the default fill type |
| WfmAnalog.WfmAnalog.Calc | composeApp/src/androidMain/kotlin/app/it/fast4x/rimusic/extensions/nextvisualizer/painters/waveform/WfmAnalog.kt:29-48 | magnitudes are stored; quiet frames are skipped; loud ones keep the waveform |
| WfmAnalog.WfmAnalog.AppendWave | composeApp/src/androidMain/kotlin/app/it/fast4x/rimusic/extensions/nextvisualizer/painters/waveform/WfmAnalog.kt:59-61 | the loop appends exactly the wave |
| WfmAnalog.WfmAnalog.Draw | composeApp/src/androidMain/kotlin/app/it/fast4x/rimusic/extensions/nextvisualizer/painters/waveform/WfmAnalog.kt:51-64 | nothing on a skipped frame; otherwise the wave drawn and the path reset |
| Strings.SubstringBefore | composeApp/src/androidMain/kotlin/me/knighthat/coil/ImageCacheFactory.kt:156 | the whole string without the delimiter; otherwise the prefix before its first occurrence |
| Strings.Split | composeApp/src/androidMain/kotlin/app/it/fast4x/rimusic/service/modern/MediaLibrarySessionCallback.kt:375 | `split` always yields at least one piece |
| Strings.JoinSplit | composeApp/src/androidMain/kotlin/me/knighthat/coil/ImageCacheFactory.kt:102 | `split` loses nothing: joining the pieces gives back the string |
| Strings.ToLong | composeApp/src/androidMain/kotlin/app/it/fast4x/rimusic/service/modern/MediaLibrarySessionCallback.kt:474 | `toLong` succeeds only on non-empty text, within the 64-bit range, and never on an empty text or a lone sign |
| Strings.LongRoundTrip | composeApp/src/androidMain/kotlin/app/it/fast4x/rimusic/service/modern/MediaLibrarySessionCallback.kt:474 | `toLong` reads back every 64-bit number's decimal text |
| Strings.JavaHashCode | composeApp/src/androidMain/kotlin/me/knighthat/coil/ImageCacheFactory.kt:147 | `hashCode()` is a signed 32-bit value |
| Lists.DistinctBy | composeApp/src/androidMain/kotlin/app/it/fast4x/rimusic/service/modern/MediaLibrarySessionCallback.kt:296 | no repeated keys, only elements of the input |
| Lists.DistinctByKeepsFirst | composeApp/src/androidMain/kotlin/app/it/fast4x/rimusic/service/modern/MediaLibrarySessionCallback.kt:296 | the first element with each key survives |
| Lists.DistinctBySuffix | composeApp/src/androidMain/kotlin/app/it/fast4x/rimusic/service/modern/MediaLibrarySessionCallback.kt:296 | with the keys of a prefix already seen, the rest keeps exactly its first occurrences, in order |
| Lists.DistinctByInOrder | composeApp/src/androidMain/kotlin/app/it/fast4x/rimusic/service/modern/MediaLibrarySessionCallback.kt:296 | `distinctBy` is exactly the first element of every key, in input order |
| Lists.SortDescBy | composeApp/src/androidMain/kotlin/app/it/fast4x/rimusic/service/modern/MediaLibrarySessionCallback.kt:471 | sorted by descending key, and a permutation of the input |
| Lists.InsertDescWithKey | composeApp/src/androidMain/kotlin/app/it/fast4x/rimusic/service/modern/MediaLibrarySessionCallback.kt:471 | an inserted element goes ahead of the elements with its own key |
| Lists.SortDescByStable | composeApp/src/androidMain/kotlin/app/it/fast4x/rimusic/service/modern/MediaLibrarySessionCallback.kt:471 | the sort is stable: the elements of every key come out in input order |
| Lists.Shuffled | composeApp/src/androidMain/kotlin/app/it/fast4x/rimusic/service/modern/MediaLibrarySessionCallback.kt:514 | a permutation of the input |

## Left out

- Android I/O is modelled as inputs: SharedPreferences (plain `map`s), the database flows (`Library` values, read once as `.first()` does), the download helper (a map of `Download` records), the connectivity manager (a `Connectivity` record with a `serviceFails` flag for the caught exception) and wall-clock time (a `now` parameter).
- Concurrency: the coroutine scopes, futures (`Futures.immediateFuture`, `SettableFuture`, `scope.future`) and the thread safety of `ConcurrentHashMap` are not modelled; the maps are plain values.
- Logging: the Timber and `GlobalNetworkLogger.logNetworkState` calls only write log lines and are dropped; `GlobalNetworkLogger` keeps its two fields.
- The MD5 digest is the collaborator `digest`, which may fail; its fallback `"${url.hashCode()}_${size}"` is modelled.
- The regular-expression rewrites in `thumbnail(size)` (the video file name and the `w`/`h`/`s` parameters of googleusercontent and yt3.ggpht URLs) are the collaborator `UrlRewrites`. `String.resize` is not part of this model.
- `Thumbnail`, `Painter` and `AsyncImage` are Compose UI and are left out, as are `loadBitmap`, `preloadImage` (the image-loader pipelines), `clearCacheForKey`, `getCacheSize`, `getDiskCache`, `DISK_CACHE` and `LOADER`. Clearing the memory and disk caches in `clearImageCache` is not visible in the model.
- `shouldUseNetwork`, which `BitmapProvider.load` calls, is not part of this model: its result is the input `useNetwork`. The loader's asynchronous answers are the `Complete` method, and `dispose` drops the request from `pending`.
- Floating point: the painters' floats are reals, so rounding, `Infinity` and `NaN` are not modelled. `Step` and `Ratio` answer 0 where Kotlin divides a float by zero. Most painters divide by `num` only for loops that are empty when `num == 0`, but two layouts read the 0:
  - FftCWave.FftCWave.Draw with `num == 0` still draws vertex 0 at angle `angle * 0`. Kotlin computes `2π / 0` as infinite and that angle as `NaN`; the model uses angle 0.
  - FftCPoly.LayoutOf with a base radius of 0 (a zero-size canvas, or `radiusR == 0`) takes `gapTheta` as 0. Kotlin gets an infinite or `NaN` `gapTheta`, and so `NaN` bar angles.
- The visualizer helpers are collaborators whose behaviour is only constrained by `Sound`: `applyPowerFft` keeps the length, `fillCircleFft` reports a size within the buffer, and `drawHelper` runs one of the lambdas it is given. The gravity dynamics (`GravityModel.update`), the spline interpolators, `toCartesian`, the Paint object and the magnitude extraction from an FFT (`getFftMagnitudeRange`, replaced by the `magnitudes` passed to `Calc`) are left abstract.
- `FftAnalog` and `WfmAnalog` call `drawHelper` with a single lambda; the model runs it directly.
- FftCPoly.FftCPoly.Draw: requires `skipFrame || psf.Some?`, so it leaves out a `draw` before the first `calc`. There `skipFrame` is still false and reading the `lateinit var psf` throws. Any `Calc` establishes the precondition: a skipped frame sets `skipFrame`, and a processed one sets `psf`. With `num == 0` Kotlin never reads `psf` and draws an empty path without throwing; the model leaves that case out too.
- FftCWave.FftCWave.Draw: the same `skipFrame || psf.Some?` precondition; before the first `calc` Kotlin throws at the first vertex on the uninitialised `psf`.
- FftCLine.FftCLine.Draw: the same `skipFrame || psf.Some?` precondition, leaving out the throw on the uninitialised `psf` before the first `calc` (and the case `num == 0`, where nothing is read).
- FftPoly.FftPoly.Draw: the same `skipFrame || psf.Some?` precondition, leaving out the throw on the uninitialised `psf` before the first `calc` (and the case `num == 0`, where nothing is read).
- FftLine.FftLine.Draw: the same `skipFrame || psf.Some?` precondition, leaving out the throw on the uninitialised `psf` before the first `calc` (and the case `num == 0`, where nothing is read).
- FftAnalog.FftAnalog.Draw: the same `skipFrame || psf.Some?` precondition, leaving out the throw on the uninitialised `psf` before the first `calc` (and the case `num == 0`, where nothing is read).
- WfmAnalog.WfmAnalog.Draw: requires a waveform to have been captured and to be non-empty, where Kotlin throws (an uninitialised `lateinit`, or `waveform[0]` of an empty array).
- The browse ids of `object MediaSessionConstants` have the source's own values. The lemmas use only that they are slash-free and pairwise distinct (`ConstantsDistinct`). Its custom action names are not used by the modelled operations and are left out.
- The `PlayerServiceModern` ids (song, artist, album, playlist, searched) are the `ServiceIds` input; the lemmas that need them distinct from each other and from the session constants say so with `WellFormed`.
- `onGetItem`, `onConnect`, `onCustomCommand`, `onSearch`, `observeRepository` and `release` only talk to the session (notifications, custom-command plumbing, starting collection jobs) and are left out; `onGetSearchResult` is modelled as `SearchResult`.
- The `Top` and `On device` playlists are database queries, passed in with the `Library`.
- Strings.ToLong: reads ASCII decimal digits only. Kotlin's `toLong` also accepts the other Unicode decimal digits (`Character.digit`).

## Findings

| source | as written | input that shows it | evidently intended | confidence | as-written member | corrected member |
|---|---|---|---|---|---|---|
| composeApp/src/androidMain/kotlin/app/it/fast4x/rimusic/service/modern/MediaLibrarySessionCallback.kt:622-627 | `startPositionMs = it.toLong()` reuses the start index as a position in milliseconds | a persistent queue of one entry saved at position 42000 ms resumes at 0 ms | resume at the saved position of the first entry that has one | medium, not executed | MediaLibrary.PlaybackResumptionAsWritten (shown by MediaLibrary.ResumptionPositionLost) | MediaLibrary.PlaybackResumption |
