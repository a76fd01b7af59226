/**
  Cursor movement of handlerz/cursor.py: absolute trackpad positioning through an
  acceleration curve, and the dual-joystick integrator that turns stick deflection
  into whole-pixel relative moves while carrying the fractional remainder.
 */
module Cursor {
  import opened Host
  import opened Numeric

  // ---------------------------------------------------------------- curves

  /** The curve named by `/curve`; a name other than the three known ones is kept but applies as linear. */
  datatype Curve = Linear | Quadratic | Smooth | Unrecognised

  /** The curve selected by `str(args[0])`: no number renders as one of the three names. */
  function CurveOf(a: Arg): (c: Curve)
    ensures c == Linear <==> a == Text("linear")
    ensures c == Quadratic <==> a == Text("quadratic")
    ensures c == Smooth <==> a == Text("smooth")
  {
    match a
    case Num(_) => Unrecognised
    case Text(s) =>
      if s == "linear" then Linear
      else if s == "quadratic" then Quadratic
      else if s == "smooth" then Smooth
      else Unrecognised
  }

  /** The smoothstep polynomial 3t^2 - 2t^3. */
  function Smoothstep(t: real): (r: real)
    ensures t == 0.0 ==> r == 0.0
    ensures t == 1.0 ==> r == 1.0
  {
    t * t * (3.0 - 2.0 * t)
  }

  lemma MulNonneg(a: real, b: real)
    requires a >= 0.0 && b >= 0.0
    ensures a * b >= 0.0
  {
  }

  lemma SmoothstepBounds(t: real)
    requires 0.0 <= t <= 1.0
    ensures 0.0 <= Smoothstep(t) <= 1.0
  {
    var sq := t * t;
    MulNonneg(t, t);
    MulNonneg(sq, 3.0 - 2.0 * t);
    var u := (1.0 - t) * (1.0 - t);
    MulNonneg(1.0 - t, 1.0 - t);
    MulNonneg(u, 1.0 + 2.0 * t);
    assert 1.0 - Smoothstep(t) == u * (1.0 + 2.0 * t);
  }

  /** smoothstep is symmetric about its midpoint. */
  lemma SmoothstepMirror(t: real)
    ensures Smoothstep(1.0 - t) == 1.0 - Smoothstep(t)
  {
    assert (1.0 - t) * (1.0 - t) == 1.0 - 2.0 * t + t * t;
    assert Smoothstep(1.0 - t) == (1.0 - 2.0 * t + t * t) * (1.0 + 2.0 * t);
  }

  /** Clamp to the unit interval: Python's `max(0, min(1, v))`. */
  function Unit(v: real): (r: real)
    ensures 0.0 <= r <= 1.0
    ensures 0.0 <= v <= 1.0 ==> r == v
  {
    Max(0.0, Min(1.0, v))
  }

  /**
    `_apply_curve` on an offset from the centre. Linear and unrecognised names
    are the identity; smooth clamps the shifted offset and applies smoothstep, so
    it stays within [-0.5, 0.5]; quadratic is `sign(v) * |v| ** 1.5`, with
    `pow15` standing for Python's `** 1.5`.
   */
  function ApplyCurve(v: real, c: Curve, pow15: real -> real): (r: real)
    ensures c == Linear || c == Unrecognised ==> r == v
    ensures c == Smooth ==> -0.5 <= r <= 0.5
  {
    match c
    case Linear => v
    case Quadratic => (if v >= 0.0 then 1.0 else -1.0) * pow15(Abs(v))
    case Smooth =>
      var t := Unit(v + 0.5);
      SmoothstepBounds(t);
      Smoothstep(t) - 0.5
    case Unrecognised => v
  }

  /**
    The quadratic curve keeps the sign of the offset and shapes its size by `** 1.5`,
    whatever non-negative values that power takes.
   */
  lemma QuadraticKeepsSign(v: real, pow15: real -> real)
    requires forall u :: u >= 0.0 ==> pow15(u) >= 0.0
    ensures v >= 0.0 ==> ApplyCurve(v, Quadratic, pow15) >= 0.0
    ensures v < 0.0 ==> ApplyCurve(v, Quadratic, pow15) <= 0.0
    ensures Abs(ApplyCurve(v, Quadratic, pow15)) == pow15(Abs(v))
  {
    assert pow15(Abs(v)) >= 0.0;
  }

  /** The smooth curve fixes the centre and both edges. */
  lemma SmoothFixedPoints(pow15: real -> real)
    ensures ApplyCurve(0.0, Smooth, pow15) == 0.0
    ensures ApplyCurve(0.5, Smooth, pow15) == 0.5
    ensures ApplyCurve(-0.5, Smooth, pow15) == -0.5
  {
    calc { Smoothstep(0.5); == 0.5 * 0.5 * (3.0 - 2.0 * 0.5); == 0.25 * 2.0; == 0.5; }
    calc { Smoothstep(1.0); == 1.0 * 1.0 * (3.0 - 2.0 * 1.0); == 1.0; }
    calc { Smoothstep(0.0); == 0.0 * 0.0 * (3.0 - 2.0 * 0.0); == 0.0; }
    assert Unit(0.5) == 0.5 && Unit(1.0) == 1.0 && Unit(0.0) == 0.0;
  }

  /** Beyond the edges the smooth curve saturates. */
  lemma SmoothSaturates(pow15: real -> real, v: real)
    ensures v >= 0.5 ==> ApplyCurve(v, Smooth, pow15) == 0.5
    ensures v <= -0.5 ==> ApplyCurve(v, Smooth, pow15) == -0.5
  {
    assert Smoothstep(1.0) == 1.0;
    assert Smoothstep(0.0) == 0.0;
    if v >= 0.5 {
      assert Unit(v + 0.5) == 1.0;
    }
    if v <= -0.5 {
      assert Unit(v + 0.5) == 0.0;
    }
  }

  /** The smooth curve is odd: mirrored offsets give mirrored results. */
  lemma SmoothIsOdd(pow15: real -> real, v: real)
    ensures ApplyCurve(-v, Smooth, pow15) == -ApplyCurve(v, Smooth, pow15)
  {
    var t := Unit(v + 0.5);
    assert Unit(-v + 0.5) == 1.0 - t;
    SmoothstepMirror(t);
  }

  // ---------------------------------------------------------- trackpad

  /**
    `handle_trackpad` for a touch at (xn, yn): invert y, recentre, curve, scale by
    the screen size and the speed multiplier around the screen centre, truncate,
    and clamp. Whatever the touch, speed or curve, the point is on screen.
   */
  function TrackpadPoint(xn: real, yn: real, c: Curve, speed: real, w: int, h: int, pow15: real -> real): (r: Action)
    requires w >= 1 && h >= 1
    ensures r.MoveTo? && 0 <= r.x < w && 0 <= r.y < h
  {
    var yi := 1.0 - yn;
    var xc := ApplyCurve(xn - 0.5, c, pow15) + 0.5;
    var yc := ApplyCurve(yi - 0.5, c, pow15) + 0.5;
    var x := Trunc(w as real / 2.0 + (xc - 0.5) * w as real * speed);
    var y := Trunc(h as real / 2.0 + (yc - 0.5) * h as real * speed);
    MoveTo(Clamp(x, w), Clamp(y, h))
  }

  /** /trackpad: one absolute move for two numeric arguments, nothing otherwise. */
  function Trackpad(args: seq<Arg>, c: Curve, speed: real, w: int, h: int, pow15: real -> real): (r: seq<Action>)
    requires w >= 1 && h >= 1
    ensures |r| <= 1
    ensures r != [] <==> |args| >= 2 && args[0].Num? && args[1].Num?
    ensures forall k :: 0 <= k < |r| ==> r[k].MoveTo? && 0 <= r[k].x < w && 0 <= r[k].y < h
  {
    if |args| >= 2 && args[0].Num? && args[1].Num? then
      [TrackpadPoint(args[0].num, args[1].num, c, speed, w, h, pow15)]
    else []
  }

  /** With the linear curve at speed 1 the touch maps straight onto the screen, y flipped. */
  lemma LinearUnitSpeed(xn: real, yn: real, w: int, h: int, pow15: real -> real)
    requires w >= 1 && h >= 1
    ensures TrackpadPoint(xn, yn, Linear, 1.0, w, h, pow15)
         == MoveTo(Clamp(Trunc(xn * w as real), w), Clamp(Trunc((1.0 - yn) * h as real), h))
  {
    var W, H := w as real, h as real;
    assert W / 2.0 + ((xn - 0.5 + 0.5) - 0.5) * W * 1.0 == xn * W;
    assert H / 2.0 + (((1.0 - yn) - 0.5 + 0.5) - 0.5) * H * 1.0 == (1.0 - yn) * H;
  }

  /** The touch (0, 0) on a 1000x1000 screen lands on (0, 999) after the y flip and the clamp. */
  lemma CornerScenario(pow15: real -> real)
    ensures TrackpadPoint(0.0, 0.0, Linear, 1.0, 1000, 1000, pow15) == MoveTo(0, 999)
  {
    LinearUnitSpeed(0.0, 0.0, 1000, 1000, pow15);
    assert Trunc(1000.0) == 1000;
  }

  // ---------------------------------------------------------- joystick

  const JoyDeadzone: real := 0.1
  const DefaultCoarseGain: real := 25.0
  const DefaultFineGain: real := 5.0

  datatype Vec = Vec(x: real, y: real)

  /** A stick sample; `mag` is the `math.sqrt(x**2 + y**2)` the source computes. */
  datatype Stick = Stick(x: real, y: real, mag: real)

  predicate HasMagnitude(s: Stick) {
    s.mag >= 0.0 && s.mag * s.mag == s.x * s.x + s.y * s.y
  }

  /** Rescale a magnitude so the deadzone edge maps to 0 and full deflection to 1. */
  function NormalizedMagnitude(m: real): (r: real)
    ensures m == JoyDeadzone ==> r == 0.0
    ensures m == 1.0 ==> r == 1.0
    ensures JoyDeadzone <= m <= 1.0 ==> 0.0 <= r <= 1.0
  {
    (m - JoyDeadzone) / (1.0 - JoyDeadzone)
  }

  lemma ScaledNorm(x: real, y: real, m: real, n: real)
    requires m > 0.0 && m * m == x * x + y * y
    ensures (x * (n / m)) * (x * (n / m)) + (y * (n / m)) * (y * (n / m)) == n * n
  {
    var k := n / m;
    assert k * m == n;
    assert (x * k) * (x * k) + (y * k) * (y * k) == k * k * (x * x + y * y);
    assert k * k * (m * m) == (k * m) * (k * m);
  }

  /**
    `_process_joystick_input`: a radial deadzone. Inside it the output is zero;
    outside it the direction is kept and the length becomes the normalized
    magnitude, so the output length is continuous at the deadzone edge.
   */
  function ProcessStick(s: Stick): (r: Vec)
    requires HasMagnitude(s)
    ensures s.mag < JoyDeadzone ==> r == Vec(0.0, 0.0)
    ensures s.mag >= JoyDeadzone ==>
      r.x * r.x + r.y * r.y == NormalizedMagnitude(s.mag) * NormalizedMagnitude(s.mag)
    ensures r.x * s.x >= 0.0 && r.y * s.y >= 0.0
    ensures r.x * s.y == r.y * s.x
  {
    if s.mag < JoyDeadzone then Vec(0.0, 0.0)
    else
      var scale := NormalizedMagnitude(s.mag) / s.mag;
      ScaledNorm(s.x, s.y, s.mag, NormalizedMagnitude(s.mag));
      assert scale >= 0.0;
      assert (s.x * scale) * s.x == scale * (s.x * s.x);
      assert (s.y * scale) * s.y == scale * (s.y * s.y);
      assert (s.x * scale) * s.y == (s.y * scale) * s.x;
      Vec(s.x * scale, s.y * scale)
  }

  /** `_get_velocity` with exponent 2 on one axis: `copysign(|n| ** 2, n) * gain`. */
  function Velocity(n: real, gain: real): (r: real)
    ensures n == 0.0 || gain == 0.0 ==> r == 0.0
  {
    (if n >= 0.0 then n * n else -(n * n)) * gain
  }

  // The calc steps below keep each product in its own proof obligation;
  // Z3 does not combine an equation and an inequality over a real product.

  /** For a positive gain a velocity component has the sign of its input, and is zero iff the input is. */
  lemma VelocitySign(n: real, gain: real)
    requires gain > 0.0
    ensures Velocity(n, gain) > 0.0 <==> n > 0.0
    ensures Velocity(n, gain) < 0.0 <==> n < 0.0
    ensures Velocity(n, gain) == 0.0 <==> n == 0.0
  {
    if n > 0.0 {
      calc { Velocity(n, gain); == n * n * gain; > 0.0; }
    } else if n < 0.0 {
      calc { Velocity(n, gain); == -(n * n) * gain; < 0.0; }
    } else {
      calc { Velocity(n, gain); == 0.0 * gain; == 0.0; }
    }
  }

  /** The size of a velocity component is the squared input times the size of the gain. */
  lemma VelocitySize(n: real, gain: real)
    ensures Abs(Velocity(n, gain)) == n * n * Abs(gain)
  {
    if n >= 0.0 && gain >= 0.0 {
      calc { Abs(Velocity(n, gain)); == Abs(n * n * gain); == n * n * gain; }
    } else if n >= 0.0 {
      calc { Abs(Velocity(n, gain)); == Abs(n * n * gain); == n * n * -gain; }
    } else if gain >= 0.0 {
      calc { Abs(Velocity(n, gain)); == Abs(-(n * n) * gain); == n * n * gain; }
    } else {
      calc { Abs(Velocity(n, gain)); == Abs(-(n * n) * gain); == n * n * -gain; }
    }
  }

  /** What one tick reads: both sticks and both gains, as last written by the handlers. */
  datatype TickInput = TickInput(left: Stick, right: Stick, coarseGain: real, fineGain: real)

  predicate ValidInput(t: TickInput) {
    HasMagnitude(t.left) && HasMagnitude(t.right)
  }

  /** The velocity one tick adds: coarse (left) plus fine (right). Sticks in the deadzone add nothing. */
  function TickVelocity(t: TickInput): (r: Vec)
    requires ValidInput(t)
    ensures t.left.mag < JoyDeadzone && t.right.mag < JoyDeadzone ==> r == Vec(0.0, 0.0)
  {
    var l := ProcessStick(t.left);
    var f := ProcessStick(t.right);
    Vec(Velocity(l.x, t.coarseGain) + Velocity(f.x, t.fineGain),
        Velocity(l.y, t.coarseGain) + Velocity(f.y, t.fineGain))
  }

  /** Scaling by a positive factor keeps the sign. */
  lemma ScaleKeepsSign(x: real, k: real)
    requires k > 0.0
    ensures x * k > 0.0 <==> x > 0.0
    ensures x * k < 0.0 <==> x < 0.0
  {
    if x > 0.0 {
      calc { x * k; > 0.0; }
    } else if x < 0.0 {
      calc { x * k; == -((-x) * k); < 0.0; }
    } else {
      calc { x * k; == 0.0 * k; == 0.0; }
    }
  }

  /** Outside the deadzone each axis of the processed stick has the sign of the raw one. */
  lemma StickDirection(s: Stick)
    requires HasMagnitude(s) && s.mag > JoyDeadzone
    ensures ProcessStick(s).x > 0.0 <==> s.x > 0.0
    ensures ProcessStick(s).x < 0.0 <==> s.x < 0.0
    ensures ProcessStick(s).y > 0.0 <==> s.y > 0.0
    ensures ProcessStick(s).y < 0.0 <==> s.y < 0.0
  {
    var n := NormalizedMagnitude(s.mag);
    assert n > 0.0;
    var scale := n / s.mag;
    assert scale > 0.0;
    assert ProcessStick(s) == Vec(s.x * scale, s.y * scale);
    ScaleKeepsSign(s.x, scale);
    ScaleKeepsSign(s.y, scale);
  }

  /**
    With the fine stick centred and a positive coarse gain, a tick moves the
    accumulator in the direction the coarse stick points, on each axis.
   */
  lemma CoarseDirection(t: TickInput)
    requires ValidInput(t) && t.left.mag > JoyDeadzone && t.right.mag < JoyDeadzone && t.coarseGain > 0.0
    ensures TickVelocity(t).x > 0.0 <==> t.left.x > 0.0
    ensures TickVelocity(t).x < 0.0 <==> t.left.x < 0.0
    ensures TickVelocity(t).y > 0.0 <==> t.left.y > 0.0
    ensures TickVelocity(t).y < 0.0 <==> t.left.y < 0.0
  {
    var l := ProcessStick(t.left);
    StickDirection(t.left);
    assert ProcessStick(t.right) == Vec(0.0, 0.0);
    assert Velocity(0.0, t.fineGain) == 0.0;
    VelocitySign(l.x, t.coarseGain);
    VelocitySign(l.y, t.coarseGain);
  }

  /** The fractional pixel remainder the loop carries between ticks. */
  datatype Accum = Accum(x: real, y: real)

  datatype TickResult = TickResult(accum: Accum, emitted: seq<Action>)

  /** Total horizontal pixels of the relative moves in `acts`. */
  function MovedX(acts: seq<Action>): int
    decreases |acts|
  {
    if acts == [] then 0
    else MovedX(acts[..|acts| - 1]) + (if acts[|acts| - 1].MoveRel? then acts[|acts| - 1].dx else 0)
  }

  /** Total vertical pixels (screen direction) of the relative moves in `acts`. */
  function MovedY(acts: seq<Action>): int
    decreases |acts|
  {
    if acts == [] then 0
    else MovedY(acts[..|acts| - 1]) + (if acts[|acts| - 1].MoveRel? then acts[|acts| - 1].dy else 0)
  }

  lemma {:induction false} MovedAppend(a: seq<Action>, b: seq<Action>)
    ensures MovedX(a + b) == MovedX(a) + MovedX(b)
    ensures MovedY(a + b) == MovedY(a) + MovedY(b)
    decreases |b|
  {
    if b == [] {
      assert a + b == a;
    } else {
      assert (a + b)[..|a + b| - 1] == a + b[..|b| - 1];
      MovedAppend(a, b[..|b| - 1]);
    }
  }

  /**
    One pass of the `_joystick_update_loop` body: add the velocity, move by the
    integer parts (y flipped for the screen) when either is non-zero, and keep
    the fractional remainder. The remainder always ends below one pixel, and no
    motion is lost: what was moved plus what is kept is what was accumulated.
   */
  function TickStep(a: Accum, v: Vec): (r: TickResult)
    ensures Abs(r.accum.x) < 1.0 && Abs(r.accum.y) < 1.0
    ensures r.emitted != [] <==> Trunc(a.x + v.x) != 0 || Trunc(a.y + v.y) != 0
    ensures r.emitted == [] || r.emitted == [MoveRel(Trunc(a.x + v.x), -Trunc(a.y + v.y))]
    ensures MovedX(r.emitted) as real + r.accum.x == a.x + v.x
    ensures r.accum.y - MovedY(r.emitted) as real == a.y + v.y
  {
    var ax := a.x + v.x;
    var ay := a.y + v.y;
    var mx := Trunc(ax);
    var my := Trunc(ay);
    if mx != 0 || my != 0 then
      var e := [MoveRel(mx, -my)];
      assert e[..0] == [];
      TickResult(Accum(ax - mx as real, ay - my as real), e)
    else
      TickResult(Accum(ax, ay), [])
  }

  /** Sum of the horizontal velocities the ticks of `s` add. */
  function SumVx(s: seq<TickInput>): real
    requires forall i :: 0 <= i < |s| ==> ValidInput(s[i])
    decreases |s|
  {
    if s == [] then 0.0 else SumVx(s[..|s| - 1]) + TickVelocity(s[|s| - 1]).x
  }

  /** Sum of the vertical velocities the ticks of `s` add. */
  function SumVy(s: seq<TickInput>): real
    requires forall i :: 0 <= i < |s| ==> ValidInput(s[i])
    decreases |s|
  {
    if s == [] then 0.0 else SumVy(s[..|s| - 1]) + TickVelocity(s[|s| - 1]).y
  }

  /**
    `_joystick_update_loop` over the stick readings `samples` seen by its
    successive ticks, starting from an empty accumulator. Every emitted move is
    a non-zero whole-pixel move, the final remainder is below one pixel on each
    axis, and the pixels moved plus the remainder equal the summed velocities.
   */
  method JoystickLoop(samples: seq<TickInput>) returns (acts: seq<Action>, acc: Accum)
    requires forall i :: 0 <= i < |samples| ==> ValidInput(samples[i])
    ensures Abs(acc.x) < 1.0 && Abs(acc.y) < 1.0
    ensures MovedX(acts) as real + acc.x == SumVx(samples)
    ensures acc.y - MovedY(acts) as real == SumVy(samples)
    ensures |acts| <= |samples|
    ensures forall k :: 0 <= k < |acts| ==> acts[k].MoveRel? && (acts[k].dx != 0 || acts[k].dy != 0)
  {
    acc := Accum(0.0, 0.0);
    acts := [];
    var i := 0;
    while i < |samples|
      invariant 0 <= i <= |samples|
      invariant Abs(acc.x) < 1.0 && Abs(acc.y) < 1.0
      invariant MovedX(acts) as real + acc.x == SumVx(samples[..i])
      invariant acc.y - MovedY(acts) as real == SumVy(samples[..i])
      invariant |acts| <= i
      invariant forall k :: 0 <= k < |acts| ==> acts[k].MoveRel? && (acts[k].dx != 0 || acts[k].dy != 0)
    {
      var r := TickStep(acc, TickVelocity(samples[i]));
      MovedAppend(acts, r.emitted);
      assert samples[..i + 1][..i] == samples[..i];
      acts := acts + r.emitted;
      acc := r.accum;
      i := i + 1;
    }
    assert samples[..i] == samples;
  }

  /** `/joy-left 1.0 0.0` at the default gains: the first tick moves 25 pixels right and keeps nothing. */
  lemma FullDeflectionScenario()
    ensures var t := TickInput(Stick(1.0, 0.0, 1.0), Stick(0.0, 0.0, 0.0), DefaultCoarseGain, DefaultFineGain);
      TickVelocity(t) == Vec(25.0, 0.0) &&
      TickStep(Accum(0.0, 0.0), TickVelocity(t)) == TickResult(Accum(0.0, 0.0), [MoveRel(25, 0)])
  {
    assert ProcessStick(Stick(1.0, 0.0, 1.0)) == Vec(1.0, 0.0);
    assert Trunc(25.0) == 25;
  }

  // ---------------------------------------------------------- handler state

  /** `float(args[0])` when there is one, else the setting stays. */
  function FloatSetting(current: real, args: seq<Arg>): (r: real)
    ensures |args| >= 1 && args[0].Num? ==> r == args[0].num
    ensures !(|args| >= 1 && args[0].Num?) ==> r == current
  {
    if |args| >= 1 then
      match AsFloat(args[0])
      case Some(v) => v
      case None => current
    else current
  }

  /** `[float(args[0]), float(args[1])]` when both convert. */
  function StickArgs(args: seq<Arg>): (r: Option<Vec>)
    ensures r.Some? <==> |args| >= 2 && args[0].Num? && args[1].Num?
    ensures r.Some? ==> r.value == Vec(args[0].num, args[1].num)
  {
    if |args| >= 2 && args[0].Num? && args[1].Num? then Some(Vec(args[0].num, args[1].num)) else None
  }

  /**
    The module-level settings and joystick state of handlerz/cursor.py; `width`
    and `height` stand for `pyautogui.size()`.
   */
  class CursorState {
    const width: int
    const height: int
    var speed: real
    var curve: Curve
    var joyLeft: Vec
    var joyRight: Vec
    var joyActive: bool
    var coarseGain: real
    var fineGain: real

    constructor (w: int, h: int)
      requires w >= 1 && h >= 1
      ensures width == w && height == h
      ensures speed == 1.0 && curve == Linear
      ensures joyLeft == Vec(0.0, 0.0) && joyRight == Vec(0.0, 0.0) && !joyActive
      ensures coarseGain == DefaultCoarseGain && fineGain == DefaultFineGain
    {
      width, height := w, h;
      speed, curve := 1.0, Linear;
      joyLeft, joyRight, joyActive := Vec(0.0, 0.0), Vec(0.0, 0.0), false;
      coarseGain, fineGain := DefaultCoarseGain, DefaultFineGain;
    }

    /** /trackpad under the current curve and speed. */
    method HandleTrackpad(args: seq<Arg>, pow15: real -> real) returns (acts: seq<Action>)
      requires width >= 1 && height >= 1
      ensures acts == Trackpad(args, curve, speed, width, height, pow15)
    {
      acts := [];
      if |args| >= 2 && args[0].Num? && args[1].Num? {
        acts := [TrackpadPoint(args[0].num, args[1].num, curve, speed, width, height, pow15)];
      }
    }

    /** /speed */
    method HandleSpeed(args: seq<Arg>)
      modifies this`speed
      ensures speed == FloatSetting(old(speed), args)
    {
      speed := FloatSetting(speed, args);
    }

    /** /curve */
    method HandleCurve(args: seq<Arg>)
      modifies this`curve
      ensures curve == (if |args| >= 1 then CurveOf(args[0]) else old(curve))
    {
      if |args| >= 1 {
        curve := CurveOf(args[0]);
      }
    }

    /**
      `_start_joystick_thread`: the loop is started only when inactive; it is
      never stopped, so every later call does nothing.
     */
    method StartJoystick() returns (started: bool)
      modifies this`joyActive
      ensures joyActive
      ensures started == !old(joyActive)
    {
      started := !joyActive;
      if !joyActive {
        joyActive := true;
      }
    }

    /** /joy-left: store the coarse stick and lazily start the loop, even for a centred stick. */
    method HandleJoyLeft(args: seq<Arg>) returns (started: bool)
      modifies this`joyLeft, this`joyActive
      ensures StickArgs(args).Some? ==> joyLeft == StickArgs(args).value && joyActive && started == !old(joyActive)
      ensures StickArgs(args).None? ==> joyLeft == old(joyLeft) && joyActive == old(joyActive) && !started
    {
      started := false;
      var v := StickArgs(args);
      if v.Some? {
        joyLeft := v.value;
        started := StartJoystick();
      }
    }

    /** /joy-right: store the fine stick and lazily start the loop. */
    method HandleJoyRight(args: seq<Arg>) returns (started: bool)
      modifies this`joyRight, this`joyActive
      ensures StickArgs(args).Some? ==> joyRight == StickArgs(args).value && joyActive && started == !old(joyActive)
      ensures StickArgs(args).None? ==> joyRight == old(joyRight) && joyActive == old(joyActive) && !started
    {
      started := false;
      var v := StickArgs(args);
      if v.Some? {
        joyRight := v.value;
        started := StartJoystick();
      }
    }

    /** /joy-left-gain */
    method HandleJoyLeftGain(args: seq<Arg>)
      modifies this`coarseGain
      ensures coarseGain == FloatSetting(old(coarseGain), args)
    {
      coarseGain := FloatSetting(coarseGain, args);
    }

    /** /joy-right-gain */
    method HandleJoyRightGain(args: seq<Arg>)
      modifies this`fineGain
      ensures fineGain == FloatSetting(old(fineGain), args)
    {
      fineGain := FloatSetting(fineGain, args);
    }
  }
}
