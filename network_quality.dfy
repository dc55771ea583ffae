/**
 * `NetworkQualityHelper`: whether the active network is metered, connected or
 * available, its transport name, and the quality class derived from its
 * downstream bandwidth. What `ConnectivityManager`, `Build.VERSION` and the
 * preferences report is the input record `Connectivity`.
 */
module NetworkQualityHelper {
  import opened Wrappers

  /** `Build.VERSION_CODES.M` and `Build.VERSION_CODES.N`. */
  const VersionM := 23
  const VersionN := 24

  /** The app's `NetworkQuality` enum, in declaration order LOW, MEDIUM, HIGH. */
  datatype NetworkQuality = LOW | MEDIUM | HIGH {
    function Ordinal(): nat {
      match this
      case LOW => 0
      case MEDIUM => 1
      case HIGH => 2
    }
  }

  /** The parts of `NetworkCapabilities` the helper reads. */
  datatype Capabilities = Capabilities(
    notRoaming: bool,
    internet: bool,
    validated: bool,
    wifi: bool,
    ethernet: bool,
    cellular: bool,
    downstreamKbps: int)

  /**
   * What the helper can observe: whether the connectivity service throws, whether
   * there is an active network and its capabilities, the platform version, the
   * data-saver status, the legacy `activeNetworkInfo?.isConnected`, and the user's
   * force-metered preference.
   */
  datatype Connectivity = Connectivity(
    serviceFails: bool,
    activeNetwork: bool,
    capabilities: Option<Capabilities>,
    sdkInt: int,
    restrictBackgroundEnabled: bool,
    legacyConnected: Option<bool>,
    forceMetered: bool)

  /** `cm.getNetworkCapabilities(cm.activeNetwork)`: nothing without an active network. */
  function ActiveCapabilities(c: Connectivity): (r: Option<Capabilities>)
    ensures !c.activeNetwork ==> r == None
  {
    if c.activeNetwork then c.capabilities else None
  }

  /** `isMetered`: any one of roaming, data saver (API 24+) and the user override makes it metered. */
  method IsMetered(c: Connectivity) returns (metered: bool)
    ensures metered == MeteredNow(c)
  {
    if c.serviceFails || !c.activeNetwork {
      return false;
    }
    if c.capabilities.None? {
      return false;
    }
    var capabilities := c.capabilities.value;
    metered := false;
    if !capabilities.notRoaming {
      metered := true;
    }
    if c.sdkInt >= VersionN {
      if c.restrictBackgroundEnabled {
        metered := true;
      }
    }
    if c.forceMetered {
      metered := true;
    }
  }

  /**
   * The metered rule: with capabilities at hand, roaming, an enabled data saver on
   * API 24+, or the user override; never without an active network or capabilities.
   */
  predicate MeteredNow(c: Connectivity) {
    !c.serviceFails && ActiveCapabilities(c).Some? &&
    (!ActiveCapabilities(c).value.notRoaming
     || (c.sdkInt >= VersionN && c.restrictBackgroundEnabled)
     || c.forceMetered)
  }

  /** `isNetworkConnected`: INTERNET and VALIDATED on API 23+, the legacy flag before. */
  function IsNetworkConnected(c: Connectivity): (r: bool)
    ensures c.serviceFails ==> !r
    ensures !c.serviceFails && c.sdkInt >= VersionM ==>
      (r <==> ActiveCapabilities(c).Some? && ActiveCapabilities(c).value.internet
              && ActiveCapabilities(c).value.validated)
    ensures !c.serviceFails && c.sdkInt < VersionM ==> (r <==> c.legacyConnected == Some(true))
  {
    if c.serviceFails then false
    else if c.sdkInt >= VersionM then
      var caps := ActiveCapabilities(c);
      caps.Some? && caps.value.internet && caps.value.validated
    else c.legacyConnected == Some(true)
  }

  /** `isNetworkAvailable`: INTERNET alone on API 23+, the legacy flag before. */
  function IsNetworkAvailable(c: Connectivity): (r: bool)
    ensures c.serviceFails ==> !r
    ensures !c.serviceFails && c.sdkInt >= VersionM ==>
      (r <==> ActiveCapabilities(c).Some? && ActiveCapabilities(c).value.internet)
    ensures !c.serviceFails && c.sdkInt < VersionM ==> (r <==> c.legacyConnected == Some(true))
  {
    if c.serviceFails then false
    else if c.sdkInt >= VersionM then
      var caps := ActiveCapabilities(c);
      caps.Some? && caps.value.internet
    else c.legacyConnected == Some(true)
  }

  /** A connected network is an available one; before API 23 the two agree. */
  lemma ConnectedImpliesAvailable(c: Connectivity)
    ensures IsNetworkConnected(c) ==> IsNetworkAvailable(c)
    ensures c.sdkInt < VersionM ==> IsNetworkConnected(c) == IsNetworkAvailable(c)
  {
  }

  /** `getCurrentNetworkType`: WIFI before ETHERNET before CELLULAR, `-` without a network. */
  function CurrentNetworkType(c: Connectivity): (r: string)
    ensures c.serviceFails ==> r == "?"
    ensures !c.serviceFails && ActiveCapabilities(c).None? ==> r == "-"
    ensures !c.serviceFails && ActiveCapabilities(c).Some? ==>
      var caps := ActiveCapabilities(c).value;
      (r == "WIFI" <==> caps.wifi)
      && (r == "ETHERNET" <==> !caps.wifi && caps.ethernet)
      && (r == "CELLULAR" <==> !caps.wifi && !caps.ethernet && caps.cellular)
      && (r == "?" <==> !caps.wifi && !caps.ethernet && !caps.cellular)
  {
    if c.serviceFails then "?"
    else
      match ActiveCapabilities(c)
      case None => "-"
      case Some(caps) =>
        if caps.wifi then "WIFI"
        else if caps.ethernet then "ETHERNET"
        else if caps.cellular then "CELLULAR"
        else "?"
  }

  /** The raw class of a bandwidth: above 20000 kbps HIGH, above 5000 MEDIUM, else LOW. */
  function BandwidthClass(kbps: int): (q: NetworkQuality)
    ensures q == HIGH <==> kbps > 20000
    ensures q == MEDIUM <==> 5000 < kbps <= 20000
    ensures q == LOW <==> kbps <= 5000
  {
    if kbps > 20000 then HIGH
    else if kbps > 5000 then MEDIUM
    else LOW
  }

  /** A metered connection is capped at MEDIUM; MEDIUM and LOW pass unchanged. */
  function MeteredCap(q: NetworkQuality, metered: bool): (r: NetworkQuality)
    ensures metered ==> r != HIGH
    ensures q != HIGH || !metered ==> r == q
    ensures r.Ordinal() <= q.Ordinal()
  {
    if metered && q == HIGH then MEDIUM else q
  }

  /** What `getCurrentNetworkQuality` returns. */
  function QualityOf(c: Connectivity): (q: NetworkQuality)
    ensures c.serviceFails || ActiveCapabilities(c).None? ==> q == LOW
    ensures MeteredNow(c) ==> q != HIGH
  {
    if c.serviceFails then LOW
    else
      match ActiveCapabilities(c)
      case None => LOW
      case Some(caps) => MeteredCap(BandwidthClass(caps.downstreamKbps), MeteredNow(c))
  }

  /** With the same metered status, more bandwidth never means a lower quality. */
  lemma QualityMonotone(c: Connectivity, kbps: int)
    requires !c.serviceFails && ActiveCapabilities(c).Some?
    requires ActiveCapabilities(c).value.downstreamKbps <= kbps
    ensures var c' := c.(capabilities := Some(ActiveCapabilities(c).value.(downstreamKbps := kbps)));
      QualityOf(c).Ordinal() <= QualityOf(c').Ordinal()
  {
    var c' := c.(capabilities := Some(ActiveCapabilities(c).value.(downstreamKbps := kbps)));
    assert MeteredNow(c') == MeteredNow(c);
  }

  /** `GlobalNetworkLogger`'s last observed bandwidth and metered status. */
  class GlobalNetworkLogger {
    var lastBandwidth: int
    var lastIsMetered: bool

    constructor()
      ensures lastBandwidth == -1 && !lastIsMetered
    {
      lastBandwidth := -1;
      lastIsMetered := false;
    }
  }

  /**
   * `getCurrentNetworkQuality`: classify, cap when metered, and record the bandwidth
   * and metered flag in the logger whenever capabilities were found.
   */
  method GetCurrentNetworkQuality(c: Connectivity, logger: GlobalNetworkLogger) returns (quality: NetworkQuality)
    modifies logger
    ensures quality == QualityOf(c)
    ensures !c.serviceFails && ActiveCapabilities(c).Some? ==>
      logger.lastBandwidth == ActiveCapabilities(c).value.downstreamKbps
      && logger.lastIsMetered == MeteredNow(c)
    ensures c.serviceFails || ActiveCapabilities(c).None? ==>
      logger.lastBandwidth == old(logger.lastBandwidth) && logger.lastIsMetered == old(logger.lastIsMetered)
  {
    if c.serviceFails {
      return LOW;
    }
    var capabilities := ActiveCapabilities(c);
    if capabilities.None? {
      return LOW;
    }
    var isMetered := IsMetered(c);
    var bandwidth := capabilities.value.downstreamKbps;
    logger.lastBandwidth := bandwidth;
    logger.lastIsMetered := isMetered;
    quality := BandwidthClass(bandwidth);
    if isMetered && quality == HIGH {
      quality := MEDIUM;
    }
  }
}
