/**
 * `ImageCacheFactory`: the network-quality probe, the per-URL download decision
 * (a cooldown map plus the stored quality of each cached image) and the cache-key
 * scheme (memoised in `cacheKeyMap`). The clock is the parameter `now`; the MD5
 * digest of a URL's bytes is the collaborator `digest`.
 */
module ImageCacheFactory {
  import opened Wrappers
  import opened Strings
  import opened ImageCacheStores
  import opened ThumbnailUrls
  import Helper = NetworkQualityHelper

  /** `COOLDOWN_MS`: ten seconds between network attempts for one URL. */
  const CooldownMs := 10 * 1000

  /** `DownloadDecision` */
  datatype DownloadDecision = DownloadDecision(useNetwork: bool, quality: NetworkQuality)

  /** The user's image quality preference (`ImageQualityFormat`). */
  datatype ImageQualityFormat = Auto | High | Medium | Low

  /**
   * What `getNetworkQuality` reads: the preference, the downstream bandwidth of the
   * active network (`None` when it has no capabilities) and whether the
   * connectivity service throws.
   */
  datatype QualityProbe = QualityProbe(forced: ImageQualityFormat, bandwidthKbps: Option<int>, fails: bool)

  /** The automatic classification: above 20000 kbps HIGH, above 5000 MEDIUM, else LOW. */
  function BandwidthQuality(kbps: int): (q: NetworkQuality)
    ensures q == HIGH <==> kbps > 20000
    ensures q == MEDIUM <==> 5000 < kbps <= 20000
    ensures q == LOW <==> kbps <= 5000
  {
    if kbps > 20000 then HIGH
    else if kbps > 5000 then MEDIUM
    else LOW
  }

  /** More bandwidth never means a lower quality. */
  lemma BandwidthMonotone(a: int, b: int)
    requires a <= b
    ensures BandwidthQuality(a).Ordinal() <= BandwidthQuality(b).Ordinal()
  {
  }

  /**
   * The factory's bandwidth thresholds are the same as those of the app-wide
   * helper, whose quality enum is a separate type with the same order.
   */
  lemma BandwidthAgreesWithHelper(kbps: int)
    ensures BandwidthQuality(kbps).Ordinal() == Helper.BandwidthClass(kbps).Ordinal()
  {
  }

  /** `getNetworkQuality`: a forced preference wins; otherwise the bandwidth decides, LOW on failure. */
  function NetworkQualityFor(p: QualityProbe): (q: NetworkQuality)
    ensures p.forced == High ==> q == HIGH
    ensures p.forced == Medium ==> q == MEDIUM
    ensures p.forced == Low ==> q == LOW
    ensures p.forced == Auto && (p.fails || p.bandwidthKbps.None?) ==> q == LOW
    ensures p.forced == Auto && !p.fails && p.bandwidthKbps.Some? ==>
      q == BandwidthQuality(p.bandwidthKbps.value)
  {
    if p.forced != Auto then
      match p.forced
      case High => HIGH
      case Medium => MEDIUM
      case _ => LOW
    else if p.fails then LOW
    else
      match p.bandwidthKbps
      case None => LOW
      case Some(kbps) => BandwidthQuality(kbps)
  }

  /** `isNullOrBlank() || == "null"`: a thumbnail URL not worth looking at. */
  predicate InvalidUrl(url: Option<string>) {
    url.None? || IsBlank(url.value) || url.value == "null"
  }

  /** `getDownloadDecision`: the decision and the cooldown map it leaves behind. */
  function Decide(url: Option<string>, cooldown: map<string, int>, metadata: map<string, string>,
                  now: int, probe: QualityProbe): (r: (DownloadDecision, map<string, int>))
    ensures forall k :: url.None? || k != url.value ==>
      (k in r.1 <==> k in cooldown) && (k in cooldown ==> r.1[k] == cooldown[k])
  {
    if InvalidUrl(url) then (DownloadDecision(false, LOW), cooldown)
    else
      var u := url.value;
      if u in cooldown && now - cooldown[u] < CooldownMs then
        (DownloadDecision(false, StoredQuality(metadata, u).GetOr(LOW)), cooldown)
      else
        var current := NetworkQualityFor(probe);
        var cached := StoredQuality(metadata, u);
        if cached.None? then (DownloadDecision(true, current), cooldown[u := now])
        else if current.Ordinal() > cached.value.Ordinal() then (DownloadDecision(true, current), cooldown[u := now])
        else (DownloadDecision(false, cached.value), cooldown)
  }

  /** An invalid URL never goes to the network, asks for LOW and leaves the cooldown map alone. */
  lemma DecideInvalid(url: Option<string>, cooldown: map<string, int>, metadata: map<string, string>,
                      now: int, probe: QualityProbe)
    requires InvalidUrl(url)
    ensures Decide(url, cooldown, metadata, now, probe) == (DownloadDecision(false, LOW), cooldown)
  {
  }

  /** Within ten seconds of the last attempt: no network, the stored quality (or LOW), no write. */
  lemma DecideInCooldown(u: string, cooldown: map<string, int>, metadata: map<string, string>,
                         now: int, probe: QualityProbe)
    requires !InvalidUrl(Some(u)) && u in cooldown && now - cooldown[u] < CooldownMs
    ensures Decide(Some(u), cooldown, metadata, now, probe) ==
      (DownloadDecision(false, StoredQuality(metadata, u).GetOr(LOW)), cooldown)
  {
  }

  /**
   * Outside the cooldown: the network is chosen exactly when nothing is stored or the
   * current quality is higher than the stored one; the timestamp is written exactly
   * then; the answer is never below the stored quality.
   */
  lemma DecideOutsideCooldown(u: string, cooldown: map<string, int>, metadata: map<string, string>,
                              now: int, probe: QualityProbe)
    requires !InvalidUrl(Some(u)) && !(u in cooldown && now - cooldown[u] < CooldownMs)
    ensures var (d, after) := Decide(Some(u), cooldown, metadata, now, probe);
      var cached := StoredQuality(metadata, u);
      var current := NetworkQualityFor(probe);
      (d.useNetwork <==> cached.None? || current.Ordinal() > cached.value.Ordinal())
      && (d.useNetwork ==> d.quality == current && after == cooldown[u := now])
      && (!d.useNetwork ==> after == cooldown)
      && (cached.Some? ==> d.quality.Ordinal() >= cached.value.Ordinal())
  {
  }

  /** After a network decision, the same URL is not fetched again for ten seconds. */
  lemma NoRefetchWithinCooldown(u: string, cooldown: map<string, int>, metadata: map<string, string>,
                                now: int, later: int, p1: QualityProbe, p2: QualityProbe)
    requires Decide(Some(u), cooldown, metadata, now, p1).0.useNetwork
    requires now <= later < now + CooldownMs
    ensures !Decide(Some(u), Decide(Some(u), cooldown, metadata, now, p1).1, metadata, later, p2).0.useNetwork
  {
  }

  /** One byte as `"%02x"` prints it (negative bytes print as their unsigned value). */
  function HexByte(b: int): (h: string)
    ensures |h| == 2 && IsHexDigit(h[0]) && IsHexDigit(h[1])
  {
    var v := b % 256;
    [HexDigit(v / 16), HexDigit(v % 16)]
  }

  function HexDigit(d: int): (c: char)
    requires 0 <= d < 16
    ensures IsHexDigit(c)
  {
    "0123456789abcdef"[d]
  }

  predicate IsHexDigit(c: char) {
    '0' <= c <= '9' || 'a' <= c <= 'f'
  }

  /** `digest.fold("") { str, it -> str + "%02x".format(it) }` */
  function Hex(bytes: seq<int>): (h: string)
    ensures |h| == 2 * |bytes|
    ensures forall i :: 0 <= i < |h| ==> IsHexDigit(h[i])
    decreases |bytes|
  {
    if |bytes| == 0 then "" else Hex(bytes[..|bytes| - 1]) + HexByte(bytes[|bytes| - 1])
  }

  /** The memo key `"${url}_${quality.size}"`. */
  function MemoKey(url: string, q: NetworkQuality): (k: string)
    ensures |k| == |url| + 1 + |q.SizeText()|
    ensures k[..|url|] == url && k[|url|] == '_' && k[|url| + 1..] == q.SizeText()
  {
    url + "_" + q.SizeText()
  }

  lemma MemoKeyShape(u: string, q: NetworkQuality)
    ensures var k := MemoKey(u, q);
      |k| == |u| + 1 + |q.SizeText()| && k[..|u|] == u && k[|u| + 1..] == q.SizeText()
      && k[|k| - 4] == (if q == HIGH then '1' else '_')
  {
    var k := MemoKey(u, q);
    assert k[|u| + 1..] == q.SizeText();
    if q == HIGH {
      assert k[|k| - 4] == q.SizeText()[0];
    } else {
      assert k[|k| - 4] == k[|u|];
    }
  }

  lemma SizeTextInjective(q1: NetworkQuality, q2: NetworkQuality)
    ensures q1.SizeText() == q2.SizeText() ==> q1 == q2
  {
    assert "300"[0] != "720"[0] && "300"[0] != "1200"[0] && "720"[0] != "1200"[0];
  }

  /** Different URLs or qualities never share a memo key. */
  lemma MemoKeyInjective(u1: string, q1: NetworkQuality, u2: string, q2: NetworkQuality)
    ensures MemoKey(u1, q1) == MemoKey(u2, q2) ==> u1 == u2 && q1 == q2
  {
    MemoKeyShape(u1, q1);
    MemoKeyShape(u2, q2);
    SizeTextInjective(q1, q2);
  }

  /** The key computed on a memo miss: the MD5 hex, or `"${url.hashCode()}_${size}"` when the digest throws. */
  function DigestKey(url: string, q: NetworkQuality, digest: string -> Option<seq<int>>): (k: string)
    ensures digest(url).Some? ==>
              |k| == 2 * |digest(url).value| && forall i :: 0 <= i < |k| ==> IsHexDigit(k[i])
    ensures digest(url).None? ==>
              |k| > |q.SizeText()| && k[|k| - |q.SizeText()| - 1] == '_' && k[|k| - |q.SizeText()|..] == q.SizeText()
  {
    match digest(url)
    case Some(bytes) => Hex(bytes)
    case None => IntToString(JavaHashCode(url)) + "_" + q.SizeText()
  }

  /** The playlist-shaped key: `"playlist_${id}_HIGH"` or `"_LOW"`. */
  predicate IsPlaylistUrl(u: string) {
    YouTubeId(u).Some? && (Contains(u, "pl_c") || Contains(u, "podcasts"))
  }

  /** What `generateCacheKeySync` returns, memo aside. */
  function CacheKey(url: Option<string>, q: NetworkQuality, digest: string -> Option<seq<int>>): (k: string)
    ensures k == "empty" <==> url.None? || IsBlank(url.value)
    ensures StartsWith(k, "playlist_") <==> url.Some? && !IsBlank(url.value) && IsPlaylistUrl(url.value)
  {
    if url.None? || IsBlank(url.value) then "empty"
    else
      var u := url.value;
      if IsPlaylistUrl(u) then
        "playlist_" + YouTubeId(u).value + "_" + (if IsHighRes(u) then "HIGH" else "LOW")
      else
        var k := DigestKey(u, q, digest);
        assert |k| > 0 ==> k[0] == '-' || '0' <= k[0] <= '9' || IsHexDigit(k[0]);
        assert |k| >= 5 ==> k[..5] != "empty" by {
          if |k| >= 5 { assert k[..5][1] == k[1]; assert "empty"[1] == 'm'; }
        }
        assert |k| >= 9 ==> k[..9] != "playlist_" by {
          if |k| >= 9 { assert k[..9][0] == k[0]; assert "playlist_"[0] == 'p'; }
        }
        k
  }

  /** Playlist keys follow the URL's resolution marker. */
  lemma PlaylistKeyResolution(u: string, q: NetworkQuality, digest: string -> Option<seq<int>>)
    requires !IsBlank(u) && IsPlaylistUrl(u)
    ensures CacheKey(Some(u), q, digest) ==
      "playlist_" + YouTubeId(u).value + (if Contains(u, "mwEK") || Contains(u, "maxres") then "_HIGH" else "_LOW")
  {
  }

  /** `ImageCacheFactory`'s mutable state and the stores it consults. */
  class ImageCache {
    var cooldownMap: map<string, int>
    var cacheKeyMap: map<string, string>
    const metadata: CacheMetadataStore
    const playlists: PlaylistThumbnailStore
    const digest: string -> Option<seq<int>>

    /** Every memoised key is the one the digest gives. */
    ghost predicate Valid()
      reads this
    {
      forall u, q :: MemoKey(u, q) in cacheKeyMap ==> cacheKeyMap[MemoKey(u, q)] == DigestKey(u, q, digest)
    }

    constructor(digest: string -> Option<seq<int>>)
      ensures Valid() && fresh(metadata) && fresh(playlists)
      ensures cooldownMap == map[] && cacheKeyMap == map[] && this.digest == digest
      ensures metadata.prefs == map[] && playlists.prefs == map[]
    {
      cooldownMap := map[];
      cacheKeyMap := map[];
      metadata := new CacheMetadataStore();
      playlists := new PlaylistThumbnailStore();
      this.digest := digest;
    }

    /** `generateCacheKeySync`: memoisation never changes the key. */
    method GenerateCacheKeySync(url: Option<string>, q: NetworkQuality) returns (key: string)
      requires Valid()
      modifies this
      ensures Valid()
      ensures key == CacheKey(url, q, digest)
      ensures cooldownMap == old(cooldownMap)
      ensures cacheKeyMap == old(cacheKeyMap) ||
        (url.Some? && cacheKeyMap == old(cacheKeyMap)[MemoKey(url.value, q) := key])
    {
      if url.None? || IsBlank(url.value) {
        return "empty";
      }
      var u := url.value;
      var id := YouTubeId(u);
      if id.Some? && (Contains(u, "pl_c") || Contains(u, "podcasts")) {
        var resSuffix := if IsHighRes(u) then "HIGH" else "LOW";
        return "playlist_" + id.value + "_" + resSuffix;
      }
      var memo := MemoKey(u, q);
      if memo in cacheKeyMap {
        key := cacheKeyMap[memo];
      } else {
        key := DigestKey(u, q, digest);
        cacheKeyMap := cacheKeyMap[memo := key];
        forall u', q' | MemoKey(u', q') in cacheKeyMap
          ensures cacheKeyMap[MemoKey(u', q')] == DigestKey(u', q', digest)
        {
          MemoKeyInjective(u', q', u, q);
        }
      }
    }

    /** `getDownloadDecision` at clock reading `now`. */
    method GetDownloadDecision(url: Option<string>, now: int, probe: QualityProbe) returns (d: DownloadDecision)
      modifies this
      ensures (d, cooldownMap) == Decide(url, old(cooldownMap), metadata.prefs, now, probe)
      ensures cacheKeyMap == old(cacheKeyMap)
    {
      if url.None? || IsBlank(url.value) || url.value == "null" {
        return DownloadDecision(false, LOW);
      }
      var u := url.value;
      if u in cooldownMap && now - cooldownMap[u] < CooldownMs {
        var cachedQuality := StoredQuality(metadata.prefs, u).GetOr(LOW);
        return DownloadDecision(false, cachedQuality);
      }
      var currentQuality := NetworkQualityFor(probe);
      var cachedQuality := StoredQuality(metadata.prefs, u);
      if cachedQuality.None? {
        cooldownMap := cooldownMap[u := now];
        return DownloadDecision(true, currentQuality);
      }
      if currentQuality.Ordinal() > cachedQuality.value.Ordinal() {
        cooldownMap := cooldownMap[u := now];
        return DownloadDecision(true, currentQuality);
      }
      return DownloadDecision(false, cachedQuality.value);
    }

    /** `clearImageCache`, for the stores and the two maps. */
    method ClearImageCache()
      modifies this, metadata, playlists
      ensures Valid()
      ensures cooldownMap == map[] && cacheKeyMap == map[]
      ensures metadata.prefs == map[] && playlists.prefs == map[]
    {
      playlists.ClearAll();
      metadata.ClearAll();
      cacheKeyMap := map[];
      cooldownMap := map[];
    }
  }

  /** `isImageCached`: a quality is stored for the URL (a null URL looks up the empty string). */
  function IsImageCached(metadata: map<string, string>, url: Option<string>): (r: bool)
    ensures r ==> MetadataKey(url.GetOr("")) in metadata
    ensures r <==> StoredQuality(metadata, url.GetOr("")).Some?
  {
    StoredQuality(metadata, url.GetOr("")).Some?
  }
}
