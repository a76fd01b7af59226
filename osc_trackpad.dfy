/**
  The standalone receiver osc_trackpad.py: the same trackpad, button, scroll and
  curve handlers as the handlerz package, plus two-finger gestures on /multixy
  (vertical scroll from the moving centre, zoom hotkeys from the changing
  finger distance) and a two-finger tap that right-clicks.
 */
module OscTrackpad {
  import opened Host
  import opened Numeric
  import Click
  import Cursor

  const ScrollThreshold: real := 0.01
  const ScrollGain: real := 20.0
  const PinchThreshold: real := 0.02

  const ZoomIn: Action := Hotkey("command", "=")
  const ZoomOut: Action := Hotkey("command", "-")

  /** The gesture globals `last_pinch_distance` and `last_scroll_y`. */
  datatype Session = Session(lastPinchDistance: Option<real>, lastScrollY: Option<real>)

  const Released: Session := Session(None, None)

  datatype Gesture = Gesture(session: Session, actions: seq<Action>)

  /** A /multixy frame whose first four arguments are numbers, so the y inversion and the distance succeed. */
  predicate TwoPoints(args: seq<Arg>) {
    |args| >= 4 && args[0].Num? && args[1].Num? && args[2].Num? && args[3].Num?
  }

  /** The centre height of the two touches after each y is inverted. */
  function CenterY(args: seq<Arg>): (r: real)
    requires TwoPoints(args)
    ensures Min(1.0 - args[1].num, 1.0 - args[3].num) <= r <= Max(1.0 - args[1].num, 1.0 - args[3].num)
    ensures r - (1.0 - args[1].num) == (1.0 - args[3].num) - r
  {
    ((1.0 - args[1].num) + (1.0 - args[3].num)) / 2.0
  }

  /** `d` is `math.sqrt((x2 - x1)**2 + (y2 - y1)**2)` for the inverted touch points. */
  predicate IsDistance(args: seq<Arg>, d: real)
    requires TwoPoints(args)
  {
    var dx := args[2].num - args[0].num;
    var dy := (1.0 - args[3].num) - (1.0 - args[1].num);
    d >= 0.0 && d * d == dx * dx + dy * dy
  }

  /** The finger distance is determined by the frame: at most one `d` is its square root. */
  lemma DistanceDetermined(args: seq<Arg>, d1: real, d2: real)
    requires TwoPoints(args) && IsDistance(args, d1) && IsDistance(args, d2)
    ensures d1 == d2
  {
    if d1 < d2 {
      calc { d1 * d1; <= d1 * d2; < d2 * d2; }
    } else if d2 < d1 {
      calc { d2 * d2; <= d2 * d1; < d1 * d1; }
    }
  }

  /** The last centre was seen and the centre has moved by more than the threshold. */
  predicate ScrollDue(s: Session, args: seq<Arg>)
    requires TwoPoints(args)
  {
    s.lastScrollY.Some? && Abs(CenterY(args) - s.lastScrollY.value) > ScrollThreshold
  }

  /**
    `handle_multixy` on the frame `args`, with `dist` its finger distance.
    Fewer than four arguments is a release: both memories are forgotten and
    nothing happens. Four arguments that are not all numbers raise before any
    global is written. Otherwise the frame is remembered whatever it emits; a
    vertical move of the centre beyond 0.01 since the last frame scrolls by
    `int(delta * 20)` lines first, and a change of the distance beyond 0.02
    since the last frame zooms in (spreading) or out (pinching).
   */
  function GestureStep(s: Session, args: seq<Arg>, dist: real): (r: Gesture)
    requires TwoPoints(args) ==> IsDistance(args, dist)
    ensures |args| < 4 ==> r == Gesture(Released, [])
    ensures |args| >= 4 && !TwoPoints(args) ==> r == Gesture(s, [])
    ensures TwoPoints(args) ==> r.session == Session(Some(dist), Some(CenterY(args)))
    ensures |r.actions| <= 2
    ensures |r.actions| ==
      (if TwoPoints(args) && ScrollDue(s, args) then 1 else 0) +
      (if TwoPoints(args) && s.lastPinchDistance.Some? && Abs(dist - s.lastPinchDistance.value) > PinchThreshold then 1 else 0)
    ensures forall k :: 0 <= k < |r.actions| ==> r.actions[k].Scroll? || r.actions[k] == ZoomIn || r.actions[k] == ZoomOut
    ensures (r.actions != [] && r.actions[0].Scroll?) <==> TwoPoints(args) && ScrollDue(s, args)
    ensures TwoPoints(args) && ScrollDue(s, args) ==>
      r.actions[0] == Scroll(Trunc((CenterY(args) - s.lastScrollY.value) * ScrollGain))
    ensures forall k :: 0 < k < |r.actions| ==> !r.actions[k].Scroll?
    ensures ZoomIn in r.actions <==>
      TwoPoints(args) && s.lastPinchDistance.Some? && dist - s.lastPinchDistance.value > PinchThreshold
    ensures ZoomOut in r.actions <==>
      TwoPoints(args) && s.lastPinchDistance.Some? && dist - s.lastPinchDistance.value < -PinchThreshold
  {
    if |args| < 4 then Gesture(Released, [])
    else if !TwoPoints(args) then Gesture(s, [])
    else
      var cy := CenterY(args);
      var scroll :=
        if ScrollDue(s, args) then [Scroll(Trunc((cy - s.lastScrollY.value) * ScrollGain))] else [];
      var zoom :=
        if s.lastPinchDistance.Some? && Abs(dist - s.lastPinchDistance.value) > PinchThreshold then
          (if dist - s.lastPinchDistance.value > 0.0 then [ZoomIn] else [ZoomOut])
        else [];
      Gesture(Session(Some(dist), Some(cy)), scroll + zoom)
  }

  /** The first two-finger frame after a release only records where the fingers are. */
  lemma FirstFrameSilent(args: seq<Arg>, dist: real)
    requires TwoPoints(args) && IsDistance(args, dist)
    ensures GestureStep(Released, args, dist).actions == []
  {
  }

  /** Holding both fingers still emits nothing on the repeated frame. */
  lemma StillFingersSilent(s: Session, args: seq<Arg>, dist: real)
    requires TwoPoints(args) && IsDistance(args, dist)
    ensures GestureStep(GestureStep(s, args, dist).session, args, dist).actions == []
  {
    var s2 := GestureStep(s, args, dist).session;
    assert s2.lastScrollY.value == CenterY(args);
    assert !ScrollDue(s2, args);
  }

  /** Arguments after the first four (further touches) change nothing. */
  lemma ExtraTouchesIgnored(s: Session, args: seq<Arg>, dist: real)
    requires |args| >= 4
    requires TwoPoints(args) ==> IsDistance(args, dist)
    ensures TwoPoints(args[..4]) == TwoPoints(args)
    ensures GestureStep(s, args[..4], dist) == GestureStep(s, args, dist)
  {
    var a := args[..4];
    assert a[0] == args[0] && a[1] == args[1] && a[2] == args[2] && a[3] == args[3];
    if TwoPoints(args) {
      assert CenterY(a) == CenterY(args);
      assert ScrollDue(s, a) == ScrollDue(s, args);
    }
  }

  /** The memories a frame leaves do not depend on the memories before it, except for a malformed frame. */
  lemma SessionForgetsHistory(s1: Session, s2: Session, args: seq<Arg>, dist: real)
    requires TwoPoints(args) ==> IsDistance(args, dist)
    requires |args| < 4 || TwoPoints(args)
    ensures GestureStep(s1, args, dist).session == GestureStep(s2, args, dist).session
  {
  }

  /** A scroll goes the way the centre moved, and never by more than 20 lines per unit of movement. */
  lemma ScrollFollowsCentre(s: Session, args: seq<Arg>, dist: real)
    requires TwoPoints(args) && IsDistance(args, dist) && ScrollDue(s, args)
    ensures var lines := GestureStep(s, args, dist).actions[0].lines;
      (lines > 0 ==> CenterY(args) > s.lastScrollY.value) &&
      (lines < 0 ==> CenterY(args) < s.lastScrollY.value) &&
      Abs(lines as real) <= Abs(CenterY(args) - s.lastScrollY.value) * ScrollGain
  {
    var delta := CenterY(args) - s.lastScrollY.value;
    assert Abs(delta * ScrollGain) == Abs(delta) * ScrollGain;
  }

  /**
    Two fingers at height 0.5 and then at 0.52 move the centre down by 0.02:
    beyond the threshold, yet `int(-0.4)` is 0, so a zero-line scroll is sent.
   */
  lemma ZeroLineGestureScenario()
    ensures var f1 := [Num(0.4), Num(0.5), Num(0.6), Num(0.5)];
      var f2 := [Num(0.4), Num(0.52), Num(0.6), Num(0.52)];
      var g1 := GestureStep(Released, f1, 0.2);
      g1.actions == [] && GestureStep(g1.session, f2, 0.2).actions == [Scroll(0)]
  {
    var f1 := [Num(0.4), Num(0.5), Num(0.6), Num(0.5)];
    var f2 := [Num(0.4), Num(0.52), Num(0.6), Num(0.52)];
    assert IsDistance(f1, 0.2) && IsDistance(f2, 0.2);
    assert CenterY(f1) == 0.5 && CenterY(f2) == 0.48;
    assert Trunc((0.48 - 0.5) * ScrollGain) == 0;
  }

  /** /multixy/tap: a right click when the first argument equals 1. */
  function MultiTap(args: seq<Arg>): (r: seq<Action>)
    ensures r == [RightClick] || r == []
    ensures r != [] <==> |args| >= 1 && Is(args[0], 1.0)
  {
    Click.TapWith(args, RightClick)
  }

  /**
    The module-level globals of osc_trackpad.py; `width` and `height` stand for
    `pyautogui.size()`.
   */
  class TrackpadApp {
    const width: int
    const height: int
    var speed: real
    var curve: Cursor.Curve
    var leftHeld: bool
    var rightHeld: bool
    var lastPinchDistance: Option<real>
    var lastScrollY: Option<real>

    constructor (w: int, h: int)
      requires w >= 1 && h >= 1
      ensures width == w && height == h
      ensures speed == 1.0 && curve == Cursor.Linear
      ensures !leftHeld && !rightHeld
      ensures lastPinchDistance == None && lastScrollY == None
    {
      width, height := w, h;
      speed, curve := 1.0, Cursor.Linear;
      leftHeld, rightHeld := false, false;
      lastPinchDistance, lastScrollY := None, None;
    }

    /** /speed */
    method HandleSpeed(args: seq<Arg>)
      modifies this`speed
      ensures speed == Cursor.FloatSetting(old(speed), args)
    {
      if |args| >= 1 && args[0].Num? {
        speed := args[0].num;
      }
    }

    /** /curve */
    method HandleCurve(args: seq<Arg>)
      modifies this`curve
      ensures curve == (if |args| >= 1 then Cursor.CurveOf(args[0]) else old(curve))
    {
      if |args| >= 1 {
        curve := Cursor.CurveOf(args[0]);
      }
    }

    /** /trackpad under the current curve and speed. */
    method HandleTrackpad(args: seq<Arg>, pow15: real -> real) returns (acts: seq<Action>)
      requires width >= 1 && height >= 1
      ensures acts == Cursor.Trackpad(args, curve, speed, width, height, pow15)
    {
      acts := [];
      if |args| >= 2 && args[0].Num? && args[1].Num? {
        acts := [Cursor.TrackpadPoint(args[0].num, args[1].num, curve, speed, width, height, pow15)];
      }
    }

    /** /left */
    method HandleLeft(args: seq<Arg>) returns (acts: seq<Action>)
      modifies this`leftHeld
      ensures Click.Press(leftHeld, acts) == Click.PressStep(old(leftHeld), LeftButton, args)
    {
      var p := Click.PressStep(leftHeld, LeftButton, args);
      leftHeld, acts := p.held, p.actions;
    }

    /** /right */
    method HandleRight(args: seq<Arg>) returns (acts: seq<Action>)
      modifies this`rightHeld
      ensures Click.Press(rightHeld, acts) == Click.PressStep(old(rightHeld), RightButton, args)
    {
      var p := Click.PressStep(rightHeld, RightButton, args);
      rightHeld, acts := p.held, p.actions;
    }

    /** /multixy, `dist` being the finger distance of a two-point frame. */
    method HandleMultiXY(args: seq<Arg>, dist: real) returns (acts: seq<Action>)
      requires TwoPoints(args) ==> IsDistance(args, dist)
      modifies this`lastPinchDistance, this`lastScrollY
      ensures Gesture(Session(lastPinchDistance, lastScrollY), acts)
           == GestureStep(Session(old(lastPinchDistance), old(lastScrollY)), args, dist)
    {
      if |args| < 4 {
        lastPinchDistance, lastScrollY := None, None;
        return [];
      }
      if !TwoPoints(args) {
        return [];
      }
      var cy := CenterY(args);
      acts := [];
      if lastScrollY.Some? {
        var delta := cy - lastScrollY.value;
        if Abs(delta) > ScrollThreshold {
          acts := acts + [Scroll(Trunc(delta * ScrollGain))];
        }
      }
      lastScrollY := Some(cy);
      if lastPinchDistance.Some? {
        var pinch := dist - lastPinchDistance.value;
        if Abs(pinch) > PinchThreshold {
          if pinch > 0.0 {
            acts := acts + [ZoomIn];
          } else {
            acts := acts + [ZoomOut];
          }
        }
      }
      lastPinchDistance := Some(dist);
    }
  }
}
