/**
 * What the spectrum and waveform painters share: the canvas and path they
 * draw on (recorded as command lists), the per-frame `calc` pipeline over
 * the magnitude buffer and the gravity bars, and the layout arithmetic.
 * The visualizer helpers the painters call but that are not part of this
 * model (power shaping, mirroring, circular padding, the gravity dynamics,
 * spline interpolation, polar-to-Cartesian conversion and the dispatch of
 * `drawHelper` on the side string) are fields of a `Collaborators` record.
 * Floats are modelled as reals.
 */
module Visualizer {

  /** `PI.toFloat()`, the float nearest to pi, written out exactly. */
  const PiF: real := 3.1415927410125732

  datatype PathCmd = MoveTo(x: real, y: real) | LineTo(x: real, y: real) | Close

  /** A Path's fill type; `reset()` keeps it. */
  datatype FillType = Winding | EvenOdd

  /** What a painter hands to the canvas, with the anchor `drawHelper` centres it on. */
  datatype Drawing =
    | PathDrawing(anchorX: real, anchorY: real, cmds: seq<PathCmd>, fill: FillType)
    | LinesDrawing(anchorX: real, anchorY: real, pts: seq<real>)

  /** A canvas of a fixed size that records what is drawn on it. */
  class Canvas {
    const width: int
    const height: int
    var drawn: seq<Drawing>

    constructor(width: int, height: int)
      ensures this.width == width && this.height == height && drawn == []
    {
      this.width := width;
      this.height := height;
      drawn := [];
    }
  }

  /** `min(canvas.width, canvas.height)`. */
  function Shortest(width: int, height: int): (s: int)
    ensures s <= width && s <= height && (s == width || s == height)
  {
    if width <= height then width else height
  }

  /** The state of one GravityModel bar; how it moves is the collaborator `update`. */
  datatype Gravity = Gravity(height: real, speed: real)

  datatype Collaborators = Collaborators(
    applyPower: (seq<real>, nat) -> seq<real>,          // applyPowerFft(buffer, size), in place
    mirror: seq<real> -> seq<real>,                      // getMirrorFft(copy)
    fillCircle: (seq<real>, nat) -> (seq<real>, nat),    // fillCircleFft(buffer, size, buffer): new buffer and size
    initialBar: Gravity,                                 // GravityModel(0f)
    update: (Gravity, real) -> Gravity,                  // GravityModel.update
    interpolate: (seq<Gravity>, nat, string) -> real -> real,        // interpolateFft
    interpolateCircle: (seq<Gravity>, nat, string) -> real -> real,  // interpolateFftCircle
    toCartesian: (real, real) -> (real, real),           // (radius, angle) to (x, y)
    branch: (string, nat) -> nat)                        // which of n drawHelper lambdas the side runs

  /**
   * What the painters rely on from their collaborators: in-place shaping
   * keeps the buffer's length, circular padding reports a size within it,
   * and `drawHelper` runs one of the lambdas it is given.
   */
  ghost predicate Sound(c: Collaborators) {
    (forall s, n :: |c.applyPower(s, n)| == |s|) &&
    (forall s, n :: |c.fillCircle(s, n).0| == |s| && c.fillCircle(s, n).1 <= |s|) &&
    (forall side, n :: n > 0 ==> c.branch(side, n) < n)
  }

  /** A frame is quiet when no magnitude exceeds 5. */
  predicate Quiet(m: seq<real>) {
    forall i :: 0 <= i < |m| ==> m[i] <= 5.0
  }

  /** The quiet scan over the first `filled` entries of the buffer. */
  method IsQuiet(fft: array<real>, filled: nat) returns (quiet: bool)
    requires filled <= fft.Length
    ensures quiet <==> Quiet(fft[..filled])
  {
    var i := 0;
    while i < filled
      invariant 0 <= i <= filled
      invariant forall j :: 0 <= j < i ==> fft[j] <= 5.0
    {
      if fft[i] > 5.0 {
        assert fft[..filled][i] > 5.0;
        return false;
      }
      i := i + 1;
    }
    return true;
  }

  /** The buffer after `fillFftMagnitudeRange` wrote `m` at its front. */
  function Filled(buffer: seq<real>, m: seq<real>): (r: seq<real>)
    requires |m| <= |buffer|
    ensures |r| == |buffer| && r[..|m|] == m && r[|m|..] == buffer[|m|..]
  {
    m + buffer[|m|..]
  }

  /** The buffer after shaping, the values the bars follow, and how many bars there are. */
  datatype Spectrum = Spectrum(buffer: seq<real>, processing: seq<real>, size: nat)

  /**
   * Power shaping of the first `filled` values, then either a mirrored copy
   * of them or, for the circular painters, circular padding in place; the
   * linear painters without mirror keep `filled` bars.
   */
  function Shape(c: Collaborators, power: bool, mirror: bool, circle: bool, buffer: seq<real>, filled: nat): (s: Spectrum)
    requires Sound(c) && filled <= |buffer|
    ensures |s.buffer| == |buffer| && s.size <= |s.processing|
    ensures !power && !(!mirror && circle) ==> s.buffer == buffer
    ensures mirror ==> s.size == |s.processing| && s.processing == c.mirror(s.buffer[..filled])
    ensures !mirror ==> s.processing == s.buffer
    ensures !mirror && !circle ==> s.size == filled
  {
    var powered := if power then c.applyPower(buffer, filled) else buffer;
    if mirror then
      var mirrored := c.mirror(powered[..filled]);
      Spectrum(powered, mirrored, |mirrored|)
    else if circle then
      var padded := c.fillCircle(powered, filled);
      Spectrum(padded.0, padded.0, padded.1)
    else
      Spectrum(powered, powered, filled)
  }

  /** The bars before the update: kept when the count is right, else `size` fresh ones. */
  function Prior(bars: seq<Gravity>, size: nat, c: Collaborators): (r: seq<Gravity>)
    ensures |r| == size
    ensures |bars| == size ==> r == bars
    ensures |bars| != size ==> forall i :: 0 <= i < size ==> r[i] == c.initialBar
  {
    if |bars| == size then bars else seq(size, _ => c.initialBar)
  }

  /** `bar.update(value * ampR)`. */
  function Follow(c: Collaborators, bar: Gravity, value: real, ampR: real): Gravity {
    c.update(bar, value * ampR)
  }

  /** Every bar follows its value times `ampR`. */
  function Updated(bars: seq<Gravity>, values: seq<real>, ampR: real, c: Collaborators): (r: seq<Gravity>)
    requires |bars| <= |values|
    ensures |r| == |bars|
    ensures forall i :: 0 <= i < |bars| ==> r[i] == Follow(c, bars[i], values[i], ampR)
  {
    if bars == [] then []
    else [Follow(c, bars[0], values[0], ampR)] + Updated(bars[1..], values[1..], ampR, c)
  }

  /**
   * `if (points.size != validSize) points = Array(validSize) { GravityModel(0f) }`
   * followed by the per-bar update: the array is replaced exactly when its
   * size is wrong.
   */
  method Regravitate(points: array<Gravity>, values: seq<real>, size: nat, ampR: real, c: Collaborators)
    returns (bars: array<Gravity>)
    requires size <= |values|
    modifies points
    ensures bars.Length == size
    ensures points.Length == size ==> bars == points
    ensures points.Length != size ==> fresh(bars) && points[..] == old(points[..])
    ensures bars[..] == Updated(Prior(old(points[..]), size, c), values, ampR, c)
  {
    bars := points;
    if points.Length != size {
      bars := new Gravity[size](_ => c.initialBar);
    }
    ghost var prior := Prior(old(points[..]), size, c);
    assert bars[..] == prior;
    var i := 0;
    while i < size
      invariant 0 <= i <= size && bars.Length == size
      invariant bars == points || fresh(bars)
      invariant points.Length == size ==> bars == points
      invariant points.Length != size ==> points[..] == old(points[..])
      invariant forall j :: 0 <= j < i ==> bars[j] == Follow(c, prior[j], values[j], ampR)
      invariant forall j :: i <= j < size ==> bars[j] == prior[j]
    {
      bars[i] := c.update(bars[i], values[i] * ampR);
      i := i + 1;
    }
  }

  /**
   * The `calc` step the spectrum painters share: the magnitudes are written
   * to the front of the buffer, a quiet frame (when `quietSkips`) is skipped
   * before any shaping, and otherwise the buffer is shaped and the bars are
   * updated.
   */
  method CalcFrame(fft: array<real>, points: array<Gravity>, magnitudes: seq<real>, c: Collaborators,
                   quietSkips: bool, power: bool, mirror: bool, circle: bool, ampR: real)
    returns (skip: bool, bars: array<Gravity>)
    requires Sound(c) && |magnitudes| <= fft.Length
    modifies fft, points
    ensures skip <==> quietSkips && Quiet(magnitudes)
    ensures skip ==> bars == points && points[..] == old(points[..]) && fft[..] == Filled(old(fft[..]), magnitudes)
    ensures !skip ==>
              var s := Shape(c, power, mirror, circle, Filled(old(fft[..]), magnitudes), |magnitudes|);
              fft[..] == s.buffer && bars.Length == s.size &&
              (points.Length == s.size ==> bars == points) &&
              (points.Length != s.size ==> fresh(bars)) &&
              bars[..] == Updated(Prior(old(points[..]), s.size, c), s.processing, ampR, c)
  {
    var filled := |magnitudes|;
    forall i | 0 <= i < filled {
      fft[i] := magnitudes[i];
    }
    assert fft[..] == Filled(old(fft[..]), magnitudes);
    var quiet := IsQuiet(fft, filled);
    assert fft[..filled] == magnitudes;
    if quiet && quietSkips {
      return true, points;
    }
    var s := Shape(c, power, mirror, circle, fft[..], filled);
    forall i | 0 <= i < fft.Length {
      fft[i] := s.buffer[i];
    }
    assert fft[..] == s.buffer;
    bars := Regravitate(points, s.processing, s.size, ampR, c);
    skip := false;
  }

  /** One of `num` equal steps of `total` (`total / num`; never used when `num` is 0). */
  function Step(total: real, num: nat): (s: real)
    ensures num > 0 ==> s * (num as real) == total
  {
    if num == 0 then 0.0 else total / num as real
  }

  /** `a / b`, never used with `b` zero by the layouts that call it. */
  function Ratio(a: real, b: real): (r: real)
    ensures b != 0.0 ==> r * b == a
  {
    if b == 0.0 then 0.0 else a / b
  }

  /** `i.toDouble()`. */
  function RealOf(k: int): real {
    k as real
  }

  /** One `drawLines` segment: writes the four values `xy` to slots `k .. k+3` and leaves every other slot alone. */
  method WriteQuad(pts: array<real>, k: nat, xy: seq<real>)
    requires |xy| == 4 && k + 4 <= pts.Length
    modifies pts
    ensures forall j :: 0 <= j < pts.Length && !(k <= j < k + 4) ==> pts[j] == old(pts[j])
    ensures forall j :: k <= j < k + 4 ==> pts[j] == xy[j - k]
  {
    pts[k] := xy[0];
    pts[k + 1] := xy[1];
    pts[k + 2] := xy[2];
    pts[k + 3] := xy[3];
  }

  lemma AppendAssoc<T>(a: seq<T>, b: seq<T>, c: seq<T>)
    ensures a + b + c == a + (b + c)
  {
  }

  lemma SliceOfFront<T>(front: seq<T>, back: seq<T>, lo: nat, hi: nat)
    requires lo <= hi <= |front|
    ensures (front + back)[lo..hi] == front[lo..hi]
  {
  }

  lemma SliceOfBack<T>(front: seq<T>, back: seq<T>)
    ensures (front + back)[|front|..|front| + |back|] == back
  {
  }

  /** The radius a radial painter starts from: `shortest / 2f * radiusR`. */
  function BaseRadius(shortest: int, radiusR: real): real {
    shortest as real / 2.0 * radiusR
  }
}
