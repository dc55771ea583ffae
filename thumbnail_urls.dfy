/**
 * The thumbnail URL rules of the image cache: YouTube id extraction, the
 * high-resolution test, the size-dependent rewrite done by `thumbnail(size)`,
 * and the chain of fallbacks tried after a 404 on a video thumbnail.
 */
module ThumbnailUrls {
  import opened Wrappers
  import opened Strings
  import opened ImageCacheStores

  const VideoHost := "i.ytimg.com/vi/"
  const PlaylistHost := "i.ytimg.com/pl_c/"
  const PodcastHost := "i.ytimg.com/podcasts_artwork/"

  const MaxresName := "maxresdefault.jpg"
  const SdName := "sddefault.jpg"
  const HqName := "hqdefault.jpg"
  const MqName := "mqdefault.jpg"

  /** A character occurs in `t` exactly when the one-character string does. */
  lemma CharContains(t: string, c: char)
    ensures c in t <==> Contains(t, [c])
  {
    ContainsOccurs(t, [c]);
    if c in t {
      var i :| 0 <= i < |t| && t[i] == c;
      assert t[i..i + 1] == [c];
      assert OccursAt(t, [c], i);
    }
    forall k | OccursAt(t, [c], k) ensures c in t {
      assert t[k..k + 1][0] == t[k];
    }
  }

  /** `substringAfter(marker).substringBefore("/")`: the path segment after `marker`. */
  function SegmentAfter(s: string, marker: string): (seg: string)
    ensures '/' !in seg
  {
    var tail := SubstringAfter(s, marker);
    CharContains(tail, '/');
    var seg := SubstringBefore(tail, "/");
    CharContains(seg, '/');
    seg
  }

  /** `getYouTubeId`: the segment after `/vi/`, `/pl_c/` or `/podcasts_artwork/`. */
  function YouTubeId(s: string): (r: Option<string>)
    ensures r.Some? ==> r.value != "" && r.value != s && '/' !in r.value
    ensures r.Some? ==> Contains(s, VideoHost) || Contains(s, PlaylistHost) || Contains(s, PodcastHost)
    ensures Contains(s, VideoHost) ==> r == NonTrivial(SegmentAfter(s, "/vi/"), s)
  {
    if Contains(s, VideoHost) then NonTrivial(SegmentAfter(s, "/vi/"), s)
    else if Contains(s, PlaylistHost) then NonTrivial(SegmentAfter(s, "/pl_c/"), s)
    else if Contains(s, PodcastHost) then NonTrivial(SegmentAfter(s, "/podcasts_artwork/"), s)
    else None
  }

  /** `takeIf { it.isNotEmpty() && it != this }` */
  function NonTrivial(seg: string, s: string): (r: Option<string>)
    ensures r.Some? <==> seg != "" && seg != s
    ensures r.Some? ==> r.value == seg
  {
    if seg != "" && seg != s then Some(seg) else None
  }

  /** An occurrence in `b` is an occurrence in `b + y`. */
  lemma ContainsExtend(b: string, y: string, w: string)
    ensures Contains(b, w) ==> Contains(b + y, w)
  {
    ContainsOccurs(b, w);
    ContainsOccurs(b + y, w);
    forall k | OccursAt(b, w, k) ensures OccursAt(b + y, w, k) {
      assert (b + y)[k..k + |w|] == b[k..k + |w|];
    }
  }

  /** Facts about an occurrence of `z` in `b + y`, by where it ends. */
  lemma OccursAcross(b: string, y: string, z: string, k: int)
    requires |z| > 0
    ensures OccursAt(b + y, z, k) && k + |z| <= |b| ==> OccursAt(b, z, k)
    ensures OccursAt(b + y, z, k) && k + |z| > |b| ==> z[|z| - 1] == y[k + |z| - 1 - |b|]
    ensures OccursAt(b + y, z, k) && k + |z| == |b| + |y| && |z| <= |y| ==> y[|y| - |z|..] == z
    ensures OccursAt(b + y, z, k) && k + |z| == |b| + |y| && |z| > |y| ==> z[|z| - |y|..] == y
  {
    var t := b + y;
    if 0 <= k && k + |z| <= |t| {
      if k + |z| <= |b| {
        assert t[k..k + |z|] == b[k..k + |z|];
      } else {
        assert t[k..k + |z|][|z| - 1] == t[k + |z| - 1];
      }
      if k + |z| == |t| && |z| <= |y| {
        assert t[k..k + |z|] == y[|y| - |z|..];
      }
      if k + |z| == |t| && |z| > |y| {
        assert t[k..k + |z|][|z| - |y|..] == y;
      }
    }
  }

  /**
   * Appending an end-marked `y` to a string without `z` creates no `z` when `z`
   * has the same end marker and neither is a suffix of the other.
   */
  lemma AppendMarkedAbsent(b: string, y: string, z: string, g: char)
    requires EndMarked(y, g) && EndMarked(z, g)
    requires !Contains(b, z) && !IsSuffix(z, y) && !IsSuffix(y, z)
    ensures !Contains(b + y, z)
  {
    ContainsOccurs(b, z);
    ContainsOccurs(b + y, z);
    forall k ensures !OccursAt(b + y, z, k) {
      OccursAcross(b, y, z, k);
      var e := k + |z| - 1 - |b|;
      if 0 <= e < |y| - 1 {
        assert y[..|y| - 1][e] == y[e];
      }
    }
  }

  /** With `b` free of an end-marked `y`, the leftmost replacement in `b + y` is the appended one. */
  lemma ReplaceAppended(b: string, y: string, r: string, g: char)
    requires EndMarked(y, g) && !Contains(b, y)
    ensures ReplaceAll(b + y, y, r) == b + r
    ensures Contains(b + y, y)
  {
    ContainsOccurs(b, y);
    forall k | 0 <= k < |b| ensures !OccursAt(b + y, y, k) {
      OccursAcross(b, y, y, k);
      var e := k + |y| - 1 - |b|;
      if 0 <= e < |y| - 1 {
        assert y[..|y| - 1][e] == y[e];
      }
    }
    ReplaceAllSkip(b, y, y, r);
    assert StartsWith(y, y);
    assert y[|y|..] == [];
    assert ReplaceAll(y, y, r) == r + ReplaceAll([], y, r);
    assert (b + y)[|b|..|b| + |y|] == y;
    OccursContains(b + y, y, |b|);
  }

  /** The four video thumbnail names end with `g` and none is a suffix of another. */
  lemma NamesMarked()
    ensures EndMarked(MaxresName, 'g') && EndMarked(SdName, 'g')
    ensures EndMarked(HqName, 'g') && EndMarked(MqName, 'g')
    ensures !IsSuffix(SdName, MaxresName) && !IsSuffix(HqName, MaxresName) && !IsSuffix(MqName, MaxresName)
    ensures !IsSuffix(MaxresName, SdName) && !IsSuffix(MaxresName, HqName) && !IsSuffix(MaxresName, MqName)
    ensures !IsSuffix(SdName, HqName) && !IsSuffix(HqName, SdName)
    ensures !IsSuffix(SdName, MqName) && !IsSuffix(MqName, SdName)
    ensures !IsSuffix(HqName, MqName) && !IsSuffix(MqName, HqName)
  {
    assert MaxresName[4..][0] != SdName[0];
    assert MaxresName[4..][0] != HqName[0];
    assert MaxresName[4..][0] != MqName[0];
    assert SdName[0] != HqName[0] && SdName[0] != MqName[0];
    assert HqName[0] != MqName[0];
  }

  /** `isYouTubeHighRes` */
  predicate IsHighRes(s: string) {
    Contains(s, "mwEK") || Contains(s, "maxres")
  }

  /** A URL is high-resolution exactly when one of the two markers occurs somewhere in it. */
  lemma HighResMarkers(s: string)
    ensures IsHighRes(s) <==> exists k :: OccursAt(s, "mwEK", k) || OccursAt(s, "maxres", k)
  {
    ContainsOccurs(s, "mwEK");
    ContainsOccurs(s, "maxres");
  }

  /** The file names `thumbnail(size)` puts on a video thumbnail. */
  datatype VideoVariant = Maxres | Sd | Hq | Mq {
    function FileName(): string {
      match this
      case Maxres => MaxresName
      case Sd => SdName
      case Hq => HqName
      case Mq => MqName
    }

    /** Resolution rank, highest first. */
    function Level(): nat {
      match this
      case Maxres => 3
      case Sd => 2
      case Hq => 1
      case Mq => 0
    }
  }

  /** The variant chosen for a requested size, by strict thresholds. */
  function VariantFor(size: int): (v: VideoVariant)
    ensures v == Maxres <==> size > 1000
    ensures v == Sd <==> 600 < size <= 1000
    ensures v == Hq <==> 300 < size <= 600
    ensures v == Mq <==> size <= 300
  {
    if size > 1000 then Maxres
    else if size > 600 then Sd
    else if size > 300 then Hq
    else Mq
  }

  /** A bigger request never gets a smaller variant. */
  lemma VariantMonotone(a: int, b: int)
    requires a <= b
    ensures VariantFor(a).Level() <= VariantFor(b).Level()
  {
  }

  /**
   * The regular-expression rewrites `thumbnail(size)` applies: the replacement of
   * the file name of a video thumbnail (`/name.jpg?query` at the end becomes
   * `/` + the chosen name) and the `w`/`h`/`s` size parameters of Google-hosted
   * images.
   */
  datatype UrlRewrites = UrlRewrites(
    renameFile: (string, string) -> string,
    resizeParams: (string, int) -> string)

  /** The playlist and podcast branch of `thumbnail(size)`. */
  function PlaylistThumbnail(s: string, size: int, learned: map<string, string>): (r: string)
    ensures YouTubeId(s).None? ==> r == s
    ensures YouTubeId(s).Some? ==>
      var id := YouTubeId(s).value;
      (HighUrl(learned, id).Some? ==> r == HighUrl(learned, id).value)
      && (HighUrl(learned, id).None? && size > 600 ==> r == s)
      && (HighUrl(learned, id).None? && size <= 600 ==>
            r == if LowUrl(learned, id).Some? && LowUrl(learned, id).value != s
                 then LowUrl(learned, id).value else s)
  {
    var quality := if size > 600 then HIGH else LOW;
    match YouTubeId(s)
    case None => s
    case Some(id) =>
      if HighUrl(learned, id).Some? then HighUrl(learned, id).value
      else if quality == HIGH then s
      else
        var smaller := LowUrl(learned, id);
        if smaller.Some? && smaller.value != s then smaller.value else s
  }

  /** `String?.thumbnail(size)`, reading the learned playlist URLs from `learned`. */
  function Thumbnail(url: Option<string>, size: int, learned: map<string, string>, rw: UrlRewrites): (r: Option<string>)
    ensures url.None? <==> r.None?
    ensures url.Some? && (Contains(url.value, PlaylistHost) || Contains(url.value, PodcastHost)) ==>
      r == Some(PlaylistThumbnail(url.value, size, learned))
    ensures (url.Some? && !Contains(url.value, PlaylistHost) && !Contains(url.value, PodcastHost)
      && Contains(url.value, VideoHost)) ==>
      r == Some(rw.renameFile(url.value, VariantFor(size).FileName()))
    ensures (url.Some? && !Contains(url.value, PlaylistHost) && !Contains(url.value, PodcastHost)
      && !Contains(url.value, VideoHost)) ==>
      r == if Contains(url.value, "googleusercontent.com") || Contains(url.value, "yt3.ggpht.com")
           then Some(rw.resizeParams(url.value, size)) else url
  {
    match url
    case None => None
    case Some(s) =>
      if Contains(s, PlaylistHost) || Contains(s, PodcastHost) then Some(PlaylistThumbnail(s, size, learned))
      else if Contains(s, VideoHost) then Some(rw.renameFile(s, VariantFor(size).FileName()))
      else if Contains(s, "googleusercontent.com") || Contains(s, "yt3.ggpht.com") then Some(rw.resizeParams(s, size))
      else Some(s)
  }

  /**
   * A playlist thumbnail only ever resolves to itself or to a URL learned for its id.
   */
  lemma PlaylistThumbnailKnown(s: string, size: int, learned: map<string, string>)
    ensures var r := PlaylistThumbnail(s, size, learned);
      r == s || exists id :: HighUrl(learned, id) == Some(r) || LowUrl(learned, id) == Some(r)
  {
    if YouTubeId(s).Some? {
      var id := YouTubeId(s).value;
      var r := PlaylistThumbnail(s, size, learned);
      assert r == s || HighUrl(learned, id) == Some(r) || LowUrl(learned, id) == Some(r);
    }
  }

  /**
   * Once a high-resolution URL has been saved for a playlist's id, every request for
   * that playlist thumbnail resolves to it, whatever the size.
   */
  lemma LearnedHighWins(s: string, size: int, learned: map<string, string>, u: string, rw: UrlRewrites)
    requires YouTubeId(s).Some? && u != "" && '|' !in u
    requires Contains(s, PlaylistHost) || Contains(s, PodcastHost)
    ensures Thumbnail(Some(s), size, SavedEntry(learned, YouTubeId(s).value, u, true), rw) == Some(u)
  {
    SaveHighRoundTrip(learned, YouTubeId(s).value, u);
  }

  /** `getNextYouTubeFallback`: maxres, then sd, then hq, then mq, then nothing. */
  function NextFallback(o: Option<string>): (r: Option<string>)
    ensures r.Some? ==> o.Some? && Level(r.value) < Level(o.value)
    ensures r.None? <==> o.None? || !Contains(o.value, VideoHost) || Level(o.value) == 0
  {
    if o.None? || !Contains(o.value, VideoHost) then None
    else
      var s := o.value;
      NamesMarked();
      if Contains(s, MaxresName) then
        var t := ReplaceAll(s, MaxresName, SdName);
        ReplacedContains(s, MaxresName, SdName, MaxresName, 'g');
        Some(t)
      else if Contains(s, SdName) then
        var t := ReplaceAll(s, SdName, HqName);
        ReplacedContains(s, SdName, HqName, MaxresName, 'g');
        ReplacedContains(s, SdName, HqName, SdName, 'g');
        Some(t)
      else if Contains(s, HqName) then
        var t := ReplaceAll(s, HqName, MqName);
        ReplacedContains(s, HqName, MqName, MaxresName, 'g');
        ReplacedContains(s, HqName, MqName, SdName, 'g');
        ReplacedContains(s, HqName, MqName, HqName, 'g');
        Some(t)
      else None
  }

  /** How many fallbacks are left: 3 with a maxres name, 2 with sd, 1 with hq, else 0. */
  function Level(s: string): nat {
    if Contains(s, MaxresName) then 3
    else if Contains(s, SdName) then 2
    else if Contains(s, HqName) then 1
    else 0
  }

  /** `n` successive fallbacks. */
  function Iterate(o: Option<string>, n: nat): Option<string>
    decreases n
  {
    if n == 0 then o else Iterate(NextFallback(o), n - 1)
  }

  /** Each fallback lowers the level, so the chain ends after at most `Level` steps. */
  lemma {:induction false} FallbackEnds(o: Option<string>, n: nat)
    requires o.Some? ==> Level(o.value) < n
    ensures Iterate(o, n) == None
    decreases n
  {
    if o.None? {
      NoneStaysNone(n);
    } else {
      FallbackEnds(NextFallback(o), n - 1);
    }
  }

  lemma {:induction false} NoneStaysNone(n: nat)
    ensures Iterate(None, n) == None
    decreases n
  {
    if n > 0 {
      NoneStaysNone(n - 1);
    }
  }

  /** From any URL, at most three fallbacks are offered: the fourth application gives null. */
  lemma FallbackAtMostThree(s: string)
    ensures Iterate(Some(s), 4) == None
  {
    FallbackEnds(Some(s), 4);
  }

  /**
   * On a video thumbnail whose base holds none of the names, the chain visits each
   * lower resolution in turn.
   */
  lemma VideoFallbackChain(base: string)
    requires Contains(base, VideoHost)
    requires !Contains(base, MaxresName) && !Contains(base, SdName) && !Contains(base, HqName)
    ensures NextFallback(Some(base + MaxresName)) == Some(base + SdName)
    ensures NextFallback(Some(base + SdName)) == Some(base + HqName)
    ensures NextFallback(Some(base + HqName)) == Some(base + MqName)
    ensures NextFallback(Some(base + MqName)) == None
  {
    NamesMarked();
    ContainsExtend(base, MaxresName, VideoHost);
    ContainsExtend(base, SdName, VideoHost);
    ContainsExtend(base, HqName, VideoHost);
    ContainsExtend(base, MqName, VideoHost);
    ReplaceAppended(base, MaxresName, SdName, 'g');
    ReplaceAppended(base, SdName, HqName, 'g');
    ReplaceAppended(base, HqName, MqName, 'g');
    AppendMarkedAbsent(base, SdName, MaxresName, 'g');
    AppendMarkedAbsent(base, HqName, MaxresName, 'g');
    AppendMarkedAbsent(base, HqName, SdName, 'g');
    AppendMarkedAbsent(base, MqName, MaxresName, 'g');
    AppendMarkedAbsent(base, MqName, SdName, 'g');
    AppendMarkedAbsent(base, MqName, HqName, 'g');
  }

  /** The id of a canonical video thumbnail URL is its video id. */
  lemma VideoUrlId(host: string, id: string, name: string)
    requires !Contains("https://" + host + "i.ytimg.com", "/vi/")
    requires id != "" && '/' !in id
    ensures YouTubeId("https://" + host + "i.ytimg.com/vi/" + id + "/" + name) == Some(id)
  {
    var p := "https://" + host + "i.ytimg.com";
    var s := "https://" + host + "i.ytimg.com/vi/" + id + "/" + name;
    var rest := id + "/" + name;
    assert s == p + "/vi/" + rest;
    assert s[|p| - 11..|p| + 4] == VideoHost;
    OccursContains(s, VideoHost, |p| - 11);
    // the first "/vi/" starts right after p: none starts inside p
    ContainsOccurs(p, "/vi/");
    forall k | 0 <= k < |p| ensures !OccursAt(s, "/vi/", k) {
      OccursAcross(p, "/vi/" + rest, "/vi/", k);
      if k + 4 > |p| {
        assert s[k..k + 4][|p| - 1 - k] == s[|p| - 1] == 'm';
      }
    }
    assert s[|p|..|p| + 4] == "/vi/";
    var i := IndexOf(s, "/vi/");
    assert OccursAt(s, "/vi/", |p|);
    OccursContains(s, "/vi/", |p|);
    assert !(|p| < i);
    assert i == |p|;
    assert s[i + 4..] == id + ['/'] + name;
    SubstringBeforeSeparator(id, '/', name);
  }
}
