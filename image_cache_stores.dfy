/**
 * The quality levels of the image cache and its two preference-backed stores:
 * learned playlist thumbnail URLs (`"low|high"` per id) and the quality each
 * cached image was fetched at (keyed by the URL's Java hash code).
 * SharedPreferences files are modelled as maps from key to string.
 */
module ImageCacheStores {
  import opened Wrappers
  import opened Strings

  /** `ImageCacheFactory.NetworkQuality`: a target thumbnail size and a cache lifetime. */
  datatype NetworkQuality = LOW | MEDIUM | HIGH {
    /** Requested thumbnail size in pixels. */
    function Size(): int {
      match this
      case LOW => 300
      case MEDIUM => 720
      case HIGH => 1200
    }

    /** Time to live in milliseconds: one hour, one day, fourteen days. */
    function TtlMs(): int {
      match this
      case LOW => 60 * 60 * 1000
      case MEDIUM => 24 * 60 * 60 * 1000
      case HIGH => 14 * 24 * 60 * 60 * 1000
    }

    /** Declaration order, as Kotlin's `ordinal`. */
    function Ordinal(): nat {
      match this
      case LOW => 0
      case MEDIUM => 1
      case HIGH => 2
    }

    /** The enum constant's `name`. */
    function Name(): string {
      match this
      case LOW => "LOW"
      case MEDIUM => "MEDIUM"
      case HIGH => "HIGH"
    }

    /** The size as `"${quality.size}"` prints it. */
    function SizeText(): (t: string)
      ensures t == NatToString(Size())
    {
      assert NatToString(3) == "3" && NatToString(30) == "30" && NatToString(12) == "12";
      assert NatToString(7) == "7" && NatToString(72) == "72" && NatToString(120) == "120";
      match this
      case LOW => "300"
      case MEDIUM => "720"
      case HIGH => "1200"
    }
  }

  /** `NetworkQuality.valueOf(name)`, with the thrown exception as `None`. */
  function QualityValueOf(name: string): (r: Option<NetworkQuality>)
    ensures r.Some? <==> name == "LOW" || name == "MEDIUM" || name == "HIGH"
    ensures r.Some? ==> r.value.Name() == name
  {
    if name == "LOW" then Some(LOW)
    else if name == "MEDIUM" then Some(MEDIUM)
    else if name == "HIGH" then Some(HIGH)
    else None
  }

  /** Bigger sizes and longer lifetimes go with higher ordinals. */
  lemma QualityOrder(a: NetworkQuality, b: NetworkQuality)
    ensures a.Ordinal() < b.Ordinal() <==> a.Size() < b.Size()
    ensures a.Ordinal() < b.Ordinal() <==> a.TtlMs() < b.TtlMs()
    ensures a.Ordinal() == b.Ordinal() <==> a == b
  {
  }

  // ---------------------------------------------------------------------------
  // PlaylistThumbnailStore: one entry per playlist id, "lowResUrl|highResUrl"

  /** The two halves `save` reads back from an entry; a missing half reads as empty. */
  function StoredHalves(prefs: map<string, string>, id: string): (halves: (string, string))
    ensures id !in prefs ==> halves == ("", "")
    ensures '|' !in halves.0 && '|' !in halves.1
  {
    if id in prefs then
      SplitPiecesClean(prefs[id], '|');
      var parts := Split(prefs[id], '|');
      (parts[0], if |parts| > 1 then parts[1] else "")
    else ("", "")
  }

  /** `getHighUrl`: the second half of the entry, when present and non-empty. */
  function HighUrl(prefs: map<string, string>, id: string): (r: Option<string>)
    ensures r.Some? ==> r.value != "" && '|' !in r.value
    ensures id !in prefs ==> r == None
  {
    if id in prefs then
      SplitPiecesClean(prefs[id], '|');
      var parts := Split(prefs[id], '|');
      if |parts| > 1 && parts[1] != "" then Some(parts[1]) else None
    else None
  }

  /** `getLowUrl`: the first half of the entry, when non-empty. */
  function LowUrl(prefs: map<string, string>, id: string): (r: Option<string>)
    ensures r.Some? ==> r.value != "" && '|' !in r.value
    ensures id !in prefs ==> r == None
  {
    if id in prefs then
      SplitPiecesClean(prefs[id], '|');
      var parts := Split(prefs[id], '|');
      if parts[0] != "" then Some(parts[0]) else None
    else None
  }

  /** The store after `save(id, url, isHigh)`. */
  function SavedEntry(prefs: map<string, string>, id: string, url: string, isHigh: bool): map<string, string> {
    var (low, high) := StoredHalves(prefs, id);
    var low' := if isHigh then low else url;
    var high' := if isHigh then url else high;
    if low' != "" || high' != "" then prefs[id := low' + "|" + high'] else prefs
  }

  /** `"low|high"` splits back into its two halves when neither holds the separator. */
  lemma SplitPair(low: string, high: string)
    requires '|' !in low && '|' !in high
    ensures Split(low + "|" + high, '|') == [low, high]
  {
    assert low + "|" + high == low + ['|'] + high;
    SplitAround(low, high, '|');
    SplitSingle(low, '|');
    SplitSingle(high, '|');
  }

  /**
   * Saving a high-resolution URL: `getHighUrl` then returns it, `getLowUrl` is what
   * it was before, and no other id changes.
   */
  lemma SaveHighRoundTrip(prefs: map<string, string>, id: string, u: string)
    requires u != "" && '|' !in u
    ensures HighUrl(SavedEntry(prefs, id, u, true), id) == Some(u)
    ensures LowUrl(SavedEntry(prefs, id, u, true), id) == LowUrl(prefs, id)
    ensures forall k :: k != id ==> (k in SavedEntry(prefs, id, u, true) <==> k in prefs)
    ensures forall k :: k != id && k in prefs ==> SavedEntry(prefs, id, u, true)[k] == prefs[k]
  {
    var (low, high) := StoredHalves(prefs, id);
    SplitPair(low, u);
  }

  /**
   * Saving a low-resolution URL: `getLowUrl` then returns it, `getHighUrl` is what
   * it was before, and no other id changes.
   */
  lemma SaveLowRoundTrip(prefs: map<string, string>, id: string, u: string)
    requires u != "" && '|' !in u
    ensures LowUrl(SavedEntry(prefs, id, u, false), id) == Some(u)
    ensures HighUrl(SavedEntry(prefs, id, u, false), id) == HighUrl(prefs, id)
    ensures forall k :: k != id ==> (k in SavedEntry(prefs, id, u, false) <==> k in prefs)
    ensures forall k :: k != id && k in prefs ==> SavedEntry(prefs, id, u, false)[k] == prefs[k]
  {
    var (low, high) := StoredHalves(prefs, id);
    SplitPair(u, high);
  }

  /** When both halves would be empty nothing is written, not even a removal. */
  lemma SaveNothingWhenEmpty(prefs: map<string, string>, id: string, isHigh: bool)
    requires (if isHigh then StoredHalves(prefs, id).0 else StoredHalves(prefs, id).1) == ""
    ensures SavedEntry(prefs, id, "", isHigh) == prefs
  {
  }

  /** `PlaylistThumbnailStore`, over its preferences file. */
  class PlaylistThumbnailStore {
    var prefs: map<string, string>

    constructor()
      ensures prefs == map[]
    {
      prefs := map[];
    }

    /** `save`: overwrite one half of the entry, keeping the other. */
    method Save(id: string, url: string, isHigh: bool)
      modifies this
      ensures prefs == SavedEntry(old(prefs), id, url, isHigh)
    {
      var halves := StoredHalves(prefs, id);
      var low, high := halves.0, halves.1;
      if isHigh {
        high := url;
      } else {
        low := url;
      }
      if low != "" || high != "" {
        prefs := prefs[id := low + "|" + high];
      }
    }

    /** `clear`: forget one id. */
    method Clear(id: string)
      modifies this
      ensures prefs == old(prefs) - {id}
      ensures HighUrl(prefs, id) == None && LowUrl(prefs, id) == None
    {
      prefs := prefs - {id};
    }

    /** `clearAll` */
    method ClearAll()
      modifies this
      ensures prefs == map[]
    {
      prefs := map[];
    }
  }

  // ---------------------------------------------------------------------------
  // CacheMetadataStore: "NAME:timestamp" under the decimal Java hash of the URL

  /** `url.hashCode().toString()` */
  function MetadataKey(url: string): string {
    IntToString(JavaHashCode(url))
  }

  /** `"${quality.name}:${System.currentTimeMillis()}"`, the clock reading given as `now`. */
  function MetadataEntry(q: NetworkQuality, now: int): string {
    q.Name() + ":" + IntToString(now)
  }

  /** `CacheMetadataStore.get(url)`: the quality named before the first `:`, if it is a valid name. */
  function StoredQuality(prefs: map<string, string>, url: string): (r: Option<NetworkQuality>)
    ensures MetadataKey(url) !in prefs ==> r == None
    ensures r.Some? ==> StartsWith(prefs[MetadataKey(url)], r.value.Name())
  {
    var key := MetadataKey(url);
    if key in prefs then
      var name := SubstringBefore(prefs[key], ":");
      var r := QualityValueOf(name);
      if r.Some? then
        assert StartsWith(prefs[key], name) by {
          if !Contains(prefs[key], ":") {
            assert prefs[key][..|name|] == prefs[key];
          } else {
            assert prefs[key][..|name| + 1][..|name|] == prefs[key][..|name|];
          }
        }
        r
      else r
    else None
  }

  /** What `save` writes, `get` reads back, whatever the clock said. */
  lemma MetadataRoundTrip(prefs: map<string, string>, url: string, q: NetworkQuality, now: int)
    ensures StoredQuality(prefs[MetadataKey(url) := MetadataEntry(q, now)], url) == Some(q)
  {
    assert q.Name() + ":" + IntToString(now) == q.Name() + [':'] + IntToString(now);
    SubstringBeforeSeparator(q.Name(), ':', IntToString(now));
  }

  /** After `remove`, `get` finds nothing. */
  lemma MetadataRemoved(prefs: map<string, string>, url: string)
    ensures StoredQuality(prefs - {MetadataKey(url)}, url) == None
  {
  }

  /**
   * Entries are keyed by the 32-bit hash, so two different URLs with the same hash
   * share one entry: "Aa" and "BB" both hash to 2112.
   */
  lemma MetadataHashCollision(prefs: map<string, string>, q: NetworkQuality, now: int)
    ensures "Aa" != "BB" && JavaHashCode("Aa") == JavaHashCode("BB") == 2112
    ensures StoredQuality(prefs[MetadataKey("Aa") := MetadataEntry(q, now)], "BB") == Some(q)
  {
    HashOfPair('A', 'a');
    HashOfPair('B', 'B');
    assert "Aa"[0] != "BB"[0];
    MetadataRoundTrip(prefs, "Aa", q, now);
  }

  /** The hash of a two-character string of the Basic Multilingual Plane. */
  lemma HashOfPair(x: char, y: char)
    requires (x as int) < 0x1_0000 && (y as int) < 0x1_0000
    ensures JavaHashCode([x, y]) == 31 * (x as int) + (y as int)
  {
    var s := [x, y];
    assert s[1..] == [y] && [y][1..] == [];
    assert Utf16([y]) == [y as int];
    assert Utf16(s) == [x as int, y as int];
    var u := [x as int, y as int];
    assert u[..1] == [x as int] && [x as int][..0] == [];
    assert HashAccumulate([x as int]) == x as int;
    assert HashAccumulate(u) == (31 * (x as int) + (y as int)) % 0x1_0000_0000;
  }

  /** `CacheMetadataStore`, over its preferences file. */
  class CacheMetadataStore {
    var prefs: map<string, string>

    constructor()
      ensures prefs == map[]
    {
      prefs := map[];
    }

    /** `save(url, quality)` at clock reading `now`. */
    method Save(url: string, q: NetworkQuality, now: int)
      modifies this
      ensures prefs == old(prefs)[MetadataKey(url) := MetadataEntry(q, now)]
      ensures StoredQuality(prefs, url) == Some(q)
    {
      prefs := prefs[MetadataKey(url) := MetadataEntry(q, now)];
      MetadataRoundTrip(old(prefs), url, q, now);
    }

    /** `remove(url)` */
    method Remove(url: string)
      modifies this
      ensures prefs == old(prefs) - {MetadataKey(url)}
      ensures StoredQuality(prefs, url) == None
    {
      prefs := prefs - {MetadataKey(url)};
    }

    /** `clearAll` */
    method ClearAll()
      modifies this
      ensures prefs == map[]
    {
      prefs := map[];
    }
  }
}
