/**
  Mouse buttons of handlerz/click.py (duplicated in osc_trackpad.py): /tap clicks,
  /left and /right hold a button down on 1 and release it on 0, edge-triggered by
  one "held" flag per button.
 */
module Click {
  import opened Host

  /** /tap (and /multixy/tap with `RightClick`): fire when the first argument equals 1. */
  function TapWith(args: seq<Arg>, fire: Action): (r: seq<Action>)
    ensures r == [fire] || r == []
    ensures r != [] <==> |args| >= 1 && Is(args[0], 1.0)
  {
    if |args| >= 1 && Is(args[0], 1.0) then [fire] else []
  }

  /** /tap: one left click. */
  function Tap(args: seq<Arg>): (r: seq<Action>)
    ensures r == [Click] || r == []
    ensures r != [] <==> |args| >= 1 && Is(args[0], 1.0)
  {
    TapWith(args, Click)
  }

  datatype Press = Press(held: bool, actions: seq<Action>)

  /**
    /left or /right for button `b` whose flag is `held`. The flag follows the
    level last sent (1 = down, 0 = up, anything else keeps it), and an event is
    emitted exactly when the flag changes: a mouse-down when it becomes true, a
    mouse-up when it becomes false.
   */
  function PressStep(held: bool, b: Button, args: seq<Arg>): (r: Press)
    ensures r.held == (if |args| >= 1 && Is(args[0], 1.0) then true
                       else if |args| >= 1 && Is(args[0], 0.0) then false
                       else held)
    ensures r.actions == (if r.held == held then []
                          else if r.held then [MouseDown(b)]
                          else [MouseUp(b)])
  {
    if |args| >= 1 then
      if Is(args[0], 1.0) && !held then Press(true, [MouseDown(b)])
      else if Is(args[0], 0.0) && held then Press(false, [MouseUp(b)])
      else Press(held, [])
    else Press(held, [])
  }

  /** The messages `ms` for button `b`, in order, from flag `held`; events are concatenated. */
  function PressRun(held: bool, b: Button, ms: seq<seq<Arg>>): Press
    decreases |ms|
  {
    if ms == [] then Press(held, [])
    else
      var before := PressRun(held, b, ms[..|ms| - 1]);
      var last := PressStep(before.held, b, ms[|ms| - 1]);
      Press(last.held, before.actions + last.actions)
  }

  /** Events for `b` alternate, the first being a mouse-down iff `firstDown`. */
  ghost predicate Alternating(evs: seq<Action>, b: Button, firstDown: bool) {
    forall i :: 0 <= i < |evs| ==>
      evs[i] == (if (i % 2 == 0) == firstDown then MouseDown(b) else MouseUp(b))
  }

  /**
    Over any message sequence the events emitted for one button strictly
    alternate, starting with the one that changes the initial flag, and every
    event flips the flag.
   */
  lemma {:induction false} PressRunAlternates(held: bool, b: Button, ms: seq<seq<Arg>>)
    ensures Alternating(PressRun(held, b, ms).actions, b, !held)
    ensures PressRun(held, b, ms).held == (if |PressRun(held, b, ms).actions| % 2 == 0 then held else !held)
    decreases |ms|
  {
    if ms != [] {
      PressRunAlternates(held, b, ms[..|ms| - 1]);
    }
  }

  /**
    From the released state, the events start with a mouse-down, and the button
    is held afterwards iff the last event emitted was a mouse-down.
   */
  lemma HeldIffLastDown(b: Button, ms: seq<seq<Arg>>)
    ensures Alternating(PressRun(false, b, ms).actions, b, true)
    ensures var r := PressRun(false, b, ms);
      r.held <==> r.actions != [] && r.actions[|r.actions| - 1] == MouseDown(b)
  {
    PressRunAlternates(false, b, ms);
  }

  /** The `_left_held`/`_right_held` flags of handlerz/click.py and the handlers that flip them. */
  class Buttons {
    var leftHeld: bool
    var rightHeld: bool

    constructor ()
      ensures !leftHeld && !rightHeld
    {
      leftHeld, rightHeld := false, false;
    }

    /** /left: never touches the right button's flag. */
    method HandleLeft(args: seq<Arg>) returns (acts: seq<Action>)
      modifies this`leftHeld
      ensures Press(leftHeld, acts) == PressStep(old(leftHeld), LeftButton, args)
    {
      acts := [];
      if |args| >= 1 {
        if Is(args[0], 1.0) && !leftHeld {
          acts := [MouseDown(LeftButton)];
          leftHeld := true;
        } else if Is(args[0], 0.0) && leftHeld {
          acts := [MouseUp(LeftButton)];
          leftHeld := false;
        }
      }
    }

    /** /right: never touches the left button's flag. */
    method HandleRight(args: seq<Arg>) returns (acts: seq<Action>)
      modifies this`rightHeld
      ensures Press(rightHeld, acts) == PressStep(old(rightHeld), RightButton, args)
    {
      acts := [];
      if |args| >= 1 {
        if Is(args[0], 1.0) && !rightHeld {
          acts := [MouseDown(RightButton)];
          rightHeld := true;
        } else if Is(args[0], 0.0) && rightHeld {
          acts := [MouseUp(RightButton)];
          rightHeld := false;
        }
      }
    }
  }
}
