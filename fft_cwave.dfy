/**
 * The circular wave painter: closed rings of `num + 1` vertices around the
 * centre, one following the spline outwards, and for the other sides a
 * second ring cut out of it with the even-odd rule.
 */
module FftCWave {
  import opened Wrappers
  import opened Visualizer

  /** Which radius a ring follows: base + spline, the base circle, or base - spline. */
  datatype RingKind = Outer | Plain | Inner

  function RingRadius(base: real, psf: real -> real, kind: RingKind, i: nat): real {
    match kind
    case Outer => base + psf(RealOf(i))
    case Plain => base
    case Inner => base - psf(RealOf(i))
  }

  /** Vertex `i` of a ring at angle `angle * i`: a `moveTo` for the first, `lineTo` after. */
  function Vertex(c: Collaborators, base: real, angle: real, psf: real -> real, kind: RingKind, i: nat): PathCmd {
    var p := c.toCartesian(RingRadius(base, psf, kind, i), angle * (i as real));
    if i == 0 then MoveTo(p.0, p.1) else LineTo(p.0, p.1)
  }

  /** The first `k` vertices of a ring. */
  function Ring(c: Collaborators, base: real, angle: real, psf: real -> real, kind: RingKind, k: nat): (cmds: seq<PathCmd>)
    ensures |cmds| == k
  {
    if k == 0 then [] else Ring(c, base, angle, psf, kind, k - 1) + [Vertex(c, base, angle, psf, kind, k - 1)]
  }

  /** Command `i` of a ring is vertex `i`. */
  lemma {:induction false} RingAt(c: Collaborators, base: real, angle: real, psf: real -> real, kind: RingKind, k: nat, i: nat)
    requires i < k
    ensures Ring(c, base, angle, psf, kind, k)[i] == Vertex(c, base, angle, psf, kind, i)
  {
    var prefix := Ring(c, base, angle, psf, kind, k - 1);
    assert Ring(c, base, angle, psf, kind, k) == prefix + [Vertex(c, base, angle, psf, kind, k - 1)];
    if i < k - 1 {
      RingAt(c, base, angle, psf, kind, k - 1, i);
    }
  }

  /** A ring opens with one `moveTo` and continues with `lineTo`s. */
  lemma RingShape(c: Collaborators, base: real, angle: real, psf: real -> real, kind: RingKind, k: nat)
    requires k > 0
    ensures var cmds := Ring(c, base, angle, psf, kind, k);
      cmds[0].MoveTo? && forall i :: 1 <= i < k ==> cmds[i].LineTo?
  {
    var cmds := Ring(c, base, angle, psf, kind, k);
    RingAt(c, base, angle, psf, kind, k, 0);
    forall i | 1 <= i < k
      ensures cmds[i].LineTo?
    {
      RingAt(c, base, angle, psf, kind, k, i);
    }
  }

  /**
   * When `num` steps of `angle` make a full turn (as `Step(2π, num)` does),
   * the last of the `num + 1` vertices lies a full turn round.
   */
  lemma RingEndsAtFullTurn(c: Collaborators, base: real, angle: real, psf: real -> real, kind: RingKind, num: nat)
    requires num > 0 && angle * (num as real) == 2.0 * PiF
    ensures Ring(c, base, angle, psf, kind, num + 1)[num] ==
              var p := c.toCartesian(RingRadius(base, psf, kind, num), 2.0 * PiF); LineTo(p.0, p.1)
  {
    RingAt(c, base, angle, psf, kind, num + 1, num);
  }

  /** What one frame adds to the path, per drawHelper branch. */
  function WaveCmds(c: Collaborators, base: real, angle: real, psf: real -> real, num: nat, branch: nat): (cmds: seq<PathCmd>)
    ensures |cmds| == if branch == 0 then num + 2 else 2 * (num + 2)
    ensures cmds[..num + 1] == Ring(c, base, angle, psf, if branch == 1 then Plain else Outer, num + 1)
    ensures branch != 0 ==> cmds[num + 2..] == Ring(c, base, angle, psf, Inner, num + 1) + [Close]
  {
    var outer := Ring(c, base, angle, psf, Outer, num + 1) + [Close];
    var inner := Ring(c, base, angle, psf, Inner, num + 1) + [Close];
    if branch == 0 then outer
    else if branch == 1 then Ring(c, base, angle, psf, Plain, num + 1) + [Close] + inner
    else outer + inner
  }

  /** The first ring is closed, and the two-ring branches close both rings. */
  lemma WaveRingsClosed(c: Collaborators, base: real, angle: real, psf: real -> real, num: nat, branch: nat)
    ensures var cmds := WaveCmds(c, base, angle, psf, num, branch);
      cmds[num + 1] == Close &&
      (branch == 0 ==> |cmds| == num + 2) &&
      (branch != 0 ==> |cmds| == 2 * (num + 2) && cmds[2 * num + 3] == Close && cmds[num + 2].MoveTo?)
  {
    RingAt(c, base, angle, psf, Inner, num + 1, 0);
  }

  /** The spline is read only at the integer knots `0..k-1`. */
  lemma {:induction false} RingReadsKnotsOnly(c: Collaborators, base: real, angle: real, f: real -> real, g: real -> real,
                                              kind: RingKind, k: nat)
    requires forall j: nat :: j < k ==> f(RealOf(j)) == g(RealOf(j))
    ensures Ring(c, base, angle, f, kind, k) == Ring(c, base, angle, g, kind, k)
  {
    if k > 0 {
      RingReadsKnotsOnly(c, base, angle, f, g, kind, k - 1);
      assert RingRadius(base, f, kind, k - 1) == RingRadius(base, g, kind, k - 1);
      assert Ring(c, base, angle, f, kind, k) == Ring(c, base, angle, f, kind, k - 1) + [Vertex(c, base, angle, f, kind, k - 1)];
      assert Ring(c, base, angle, g, kind, k) == Ring(c, base, angle, g, kind, k - 1) + [Vertex(c, base, angle, g, kind, k - 1)];
    }
  }

  class FftCWave {
    const num: nat
    const interpolator: string
    const side: string
    const mirror: bool
    const power: bool
    const radiusR: real
    const ampR: real
    /** `paint.style == Paint.Style.STROKE`. */
    const stroke: bool
    const c: Collaborators
    /** The magnitude buffer, 260 values. */
    const fft: array<real>
    var points: array<Gravity>
    var skipFrame: bool
    var psf: Option<real -> real>
    var path: seq<PathCmd>
    var fillType: FillType

    constructor(num: nat, interpolator: string, side: string, mirror: bool, power: bool,
                radiusR: real, ampR: real, stroke: bool, c: Collaborators)
      ensures this.num == num && this.interpolator == interpolator && this.side == side
      ensures this.mirror == mirror && this.power == power && this.radiusR == radiusR
      ensures this.ampR == ampR && this.stroke == stroke && this.c == c
      ensures fresh(fft) && fft.Length == 260 && fresh(points) && points.Length == 0
      ensures !skipFrame && psf.None? && path == [] && fillType == Winding
    {
      this.num := num;
      this.interpolator := interpolator;
      this.side := side;
      this.mirror := mirror;
      this.power := power;
      this.radiusR := radiusR;
      this.ampR := ampR;
      this.stroke := stroke;
      this.c := c;
      fft := new real[260](_ => 0.0);
      points := new Gravity[0];
      skipFrame := false;
      psf := None;
      path := [];
      fillType := Winding;
    }

    /** `calc`: as the other circular painters, but a quiet frame is skipped only with a stroke paint. */
    method Calc(magnitudes: seq<real>)
      requires Sound(c) && |magnitudes| <= fft.Length
      modifies this, fft, points
      ensures skipFrame <==> stroke && Quiet(magnitudes)
      ensures skipFrame ==> points == old(points) && points[..] == old(points[..]) && psf == old(psf) &&
                            fft[..] == Filled(old(fft[..]), magnitudes)
      ensures !skipFrame ==>
                var s := Shape(c, power, mirror, true, Filled(old(fft[..]), magnitudes), |magnitudes|);
                fft[..] == s.buffer && points.Length == s.size &&
                (old(points.Length) == s.size ==> points == old(points)) &&
                (old(points.Length) != s.size ==> fresh(points)) &&
                points[..] == Updated(Prior(old(points[..]), s.size, c), s.processing, ampR, c) &&
                psf == Some(c.interpolateCircle(points[..], num, interpolator))
      ensures path == old(path) && fillType == old(fillType)
    {
      var skip, bars := CalcFrame(fft, points, magnitudes, c, stroke, power, mirror, true, ampR);
      skipFrame := skip;
      points := bars;
      if !skip {
        psf := Some(c.interpolateCircle(points[..], num, interpolator));
      }
    }

    /** One `for (i in 0..num)` loop: the ring's vertices appended to the path. */
    method AppendRing(base: real, angle: real, f: real -> real, kind: RingKind)
      modifies this
      ensures path == old(path) + Ring(c, base, angle, f, kind, num + 1)
      ensures points == old(points) && skipFrame == old(skipFrame) && psf == old(psf) && fillType == old(fillType)
    {
      var i := 0;
      while i <= num
        invariant 0 <= i <= num + 1
        invariant path == old(path) + Ring(c, base, angle, f, kind, i)
        invariant points == old(points) && skipFrame == old(skipFrame) && psf == old(psf) && fillType == old(fillType)
      {
        var point := c.toCartesian(RingRadius(base, f, kind, i), angle * (i as real));
        ghost var before := path;
        if i == 0 {
          path := path + [MoveTo(point.0, point.1)];
        } else {
          path := path + [LineTo(point.0, point.1)];
        }
        assert path == before + [Vertex(c, base, angle, f, kind, i)];
        AppendAssoc(old(path), Ring(c, base, angle, f, kind, i), [Vertex(c, base, angle, f, kind, i)]);
        i := i + 1;
      }
    }

    /** The path one branch builds, and the fill type it leaves. */
    method BuildWave(base: real, angle: real, f: real -> real, branch: nat)
      modifies this
      ensures path == old(path) + WaveCmds(c, base, angle, f, num, branch)
      ensures fillType == (if branch == 0 then old(fillType) else EvenOdd)
      ensures points == old(points) && skipFrame == old(skipFrame) && psf == old(psf)
    {
      ghost var outer := Ring(c, base, angle, f, Outer, num + 1);
      ghost var inner := Ring(c, base, angle, f, Inner, num + 1);
      if branch == 0 {
        AppendRing(base, angle, f, Outer);
        path := path + [Close];
        AppendAssoc(old(path), outer, [Close]);
      } else {
        var first := if branch == 1 then Plain else Outer;
        ghost var ring := Ring(c, base, angle, f, first, num + 1);
        AppendRing(base, angle, f, first);
        path := path + [Close];
        AppendAssoc(old(path), ring, [Close]);
        ghost var middle := path;
        AppendRing(base, angle, f, Inner);
        path := path + [Close];
        AppendAssoc(middle, inner, [Close]);
        AppendAssoc(old(path), ring + [Close], inner + [Close]);
        fillType := EvenOdd;
      }
    }

    /**
     * `draw`: nothing on a skipped frame; otherwise the selected branch
     * builds its ring or rings, switches to even-odd filling when there
     * are two, draws the path centred and resets it, which keeps the fill
     * type for later frames.
     */
    method Draw(canvas: Canvas)
      requires skipFrame || psf.Some?
      modifies this, canvas
      ensures points == old(points) && skipFrame == old(skipFrame) && psf == old(psf)
      ensures skipFrame ==> canvas.drawn == old(canvas.drawn) && path == old(path) && fillType == old(fillType)
      ensures !skipFrame ==>
                var branch := c.branch(side, 3);
                var base := BaseRadius(Shortest(canvas.width, canvas.height), radiusR);
                fillType == (if branch == 0 then old(fillType) else EvenOdd) &&
                canvas.drawn == old(canvas.drawn) +
                  [PathDrawing(0.5, 0.5, old(path) + WaveCmds(c, base, Step(2.0 * PiF, num), psf.value, num, branch), fillType)] &&
                path == []
    {
      if skipFrame {
        return;
      }
      var angle := Step(2.0 * PiF, num);
      var base := BaseRadius(Shortest(canvas.width, canvas.height), radiusR);
      var branch := c.branch(side, 3);
      BuildWave(base, angle, psf.value, branch);
      canvas.drawn := canvas.drawn + [PathDrawing(0.5, 0.5, path, fillType)];
      path := [];
    }
  }
}
