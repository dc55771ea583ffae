/**
 * The radial line painter: `num` spokes at equal angles, each drawn as one
 * line segment whose endpoints fill four slots of a float buffer.
 */
module FftCLine {
  import opened Wrappers
  import opened Visualizer

  /** Where spoke `i` starts and stops, per drawHelper branch. */
  function SpokeRadii(base: real, psf: real -> real, i: nat, branch: nat): (real, real) {
    var here := psf(RealOf(i));
    if branch == 0 then (base, base + here)
    else if branch == 1 then (base, base - here)
    else (base + here, base - here)
  }

  /** The four buffer values of spoke `i`: start x, start y, stop x, stop y, at angle `angle * i`. */
  function Spoke(c: Collaborators, base: real, angle: real, psf: real -> real, i: nat, branch: nat): (xy: seq<real>)
    ensures |xy| == 4
  {
    var r := SpokeRadii(base, psf, i, branch);
    var start := c.toCartesian(r.0, angle * (i as real));
    var stop := c.toCartesian(r.1, angle * (i as real));
    [start.0, start.1, stop.0, stop.1]
  }

  /** The buffer after the first `n` spokes. */
  function Spokes(c: Collaborators, base: real, angle: real, psf: real -> real, n: nat, branch: nat): (pts: seq<real>)
    ensures |pts| == 4 * n
  {
    if n == 0 then [] else Spokes(c, base, angle, psf, n - 1, branch) + Spoke(c, base, angle, psf, n - 1, branch)
  }

  /** Slots `4i .. 4i+3` hold spoke `i`. */
  lemma {:induction false} SpokesAt(c: Collaborators, base: real, angle: real, psf: real -> real, n: nat, branch: nat, i: nat)
    requires i < n
    ensures Spokes(c, base, angle, psf, n, branch)[4 * i..4 * i + 4] == Spoke(c, base, angle, psf, i, branch)
  {
    var prefix := Spokes(c, base, angle, psf, n - 1, branch);
    var last := Spoke(c, base, angle, psf, n - 1, branch);
    assert Spokes(c, base, angle, psf, n, branch) == prefix + last;
    if i < n - 1 {
      SpokesAt(c, base, angle, psf, n - 1, branch, i);
      SliceOfFront(prefix, last, 4 * i, 4 * i + 4);
    } else {
      SliceOfBack(prefix, last);
    }
  }

  /** The spline is read only at the integer knots `0..n-1`. */
  lemma {:induction false} SpokesReadKnotsOnly(c: Collaborators, base: real, angle: real, f: real -> real, g: real -> real,
                                               n: nat, branch: nat)
    requires forall j: nat :: j < n ==> f(RealOf(j)) == g(RealOf(j))
    ensures Spokes(c, base, angle, f, n, branch) == Spokes(c, base, angle, g, n, branch)
  {
    if n > 0 {
      SpokesReadKnotsOnly(c, base, angle, f, g, n - 1, branch);
      assert SpokeRadii(base, f, n - 1, branch) == SpokeRadii(base, g, n - 1, branch);
      assert Spokes(c, base, angle, f, n, branch) == Spokes(c, base, angle, f, n - 1, branch) + Spoke(c, base, angle, f, n - 1, branch);
      assert Spokes(c, base, angle, g, n, branch) == Spokes(c, base, angle, g, n - 1, branch) + Spoke(c, base, angle, g, n - 1, branch);
    }
  }

  /**
   * The drawing loop over a fresh zeroed buffer of `4 * num` floats: pass
   * `i` writes exactly slots `4i .. 4i+3`, so when it is done every slot
   * has been written once.
   */
  method WriteSpokes(pts: array<real>, c: Collaborators, base: real, angle: real, f: real -> real, num: nat, branch: nat)
    requires pts.Length == 4 * num
    requires forall j :: 0 <= j < pts.Length ==> pts[j] == 0.0
    modifies pts
    ensures pts[..] == Spokes(c, base, angle, f, num, branch)
  {
    ghost var target := Spokes(c, base, angle, f, num, branch);
    var i, k := 0, 0;
    while i < num
      invariant 0 <= i <= num && k == 4 * i
      invariant forall j :: 0 <= j < k ==> pts[j] == target[j]
      invariant forall j :: k <= j < pts.Length ==> pts[j] == 0.0
    {
      var r := SpokeRadii(base, f, i, branch);
      var start := c.toCartesian(r.0, angle * (i as real));
      var stop := c.toCartesian(r.1, angle * (i as real));
      SpokesAt(c, base, angle, f, num, branch, i);
      assert target[k..k + 4] == [start.0, start.1, stop.0, stop.1];
      WriteQuad(pts, k, [start.0, start.1, stop.0, stop.1]);
      i, k := i + 1, k + 4;
    }
    assert pts[..] == target;
  }

  class FftCLine {
    const num: nat
    const interpolator: string
    const side: string
    const mirror: bool
    const power: bool
    const radiusR: real
    const ampR: real
    const c: Collaborators
    /** The magnitude buffer, 260 values. */
    const fft: array<real>
    var points: array<Gravity>
    var skipFrame: bool
    var psf: Option<real -> real>

    constructor(num: nat, interpolator: string, side: string, mirror: bool, power: bool,
                radiusR: real, ampR: real, c: Collaborators)
      ensures this.num == num && this.interpolator == interpolator && this.side == side
      ensures this.mirror == mirror && this.power == power && this.radiusR == radiusR
      ensures this.ampR == ampR && this.c == c
      ensures fresh(fft) && fft.Length == 260 && fresh(points) && points.Length == 0
      ensures !skipFrame && psf.None?
    {
      this.num := num;
      this.interpolator := interpolator;
      this.side := side;
      this.mirror := mirror;
      this.power := power;
      this.radiusR := radiusR;
      this.ampR := ampR;
      this.c := c;
      fft := new real[260](_ => 0.0);
      points := new Gravity[0];
      skipFrame := false;
      psf := None;
    }

    /** `calc`: quiet frames are skipped; loud ones update the bars and interpolate them around the circle. */
    method Calc(magnitudes: seq<real>)
      requires Sound(c) && |magnitudes| <= fft.Length
      modifies this, fft, points
      ensures skipFrame <==> Quiet(magnitudes)
      ensures skipFrame ==> points == old(points) && points[..] == old(points[..]) && psf == old(psf) &&
                            fft[..] == Filled(old(fft[..]), magnitudes)
      ensures !skipFrame ==>
                var s := Shape(c, power, mirror, true, Filled(old(fft[..]), magnitudes), |magnitudes|);
                fft[..] == s.buffer && points.Length == s.size &&
                (old(points.Length) == s.size ==> points == old(points)) &&
                (old(points.Length) != s.size ==> fresh(points)) &&
                points[..] == Updated(Prior(old(points[..]), s.size, c), s.processing, ampR, c) &&
                psf == Some(c.interpolateCircle(points[..], num, interpolator))
    {
      var skip, bars := CalcFrame(fft, points, magnitudes, c, true, power, mirror, true, ampR);
      skipFrame := skip;
      points := bars;
      if !skip {
        psf := Some(c.interpolateCircle(points[..], num, interpolator));
      }
    }

    /** `draw`: nothing on a skipped frame; otherwise one `drawLines` of the `num` spokes, centred. */
    method Draw(canvas: Canvas)
      requires skipFrame || psf.Some?
      modifies canvas
      ensures skipFrame ==> canvas.drawn == old(canvas.drawn)
      ensures !skipFrame ==>
                var base := BaseRadius(Shortest(canvas.width, canvas.height), radiusR);
                canvas.drawn == old(canvas.drawn) +
                  [LinesDrawing(0.5, 0.5, Spokes(c, base, Step(2.0 * PiF, num), psf.value, num, c.branch(side, 3)))]
    {
      if skipFrame {
        return;
      }
      var angle := Step(2.0 * PiF, num);
      var pts := new real[4 * num](_ => 0.0);
      var base := BaseRadius(Shortest(canvas.width, canvas.height), radiusR);
      WriteSpokes(pts, c, base, angle, psf.value, num, c.branch(side, 3));
      canvas.drawn := canvas.drawn + [LinesDrawing(0.5, 0.5, pts[..])];
    }
  }
}
