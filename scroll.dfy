/**
  Scroll handlers of handlerz/scroll.py: /scroll with a dead zone, /scroll-wheel
  without one, and the reserved /scroll-pos. The amount posted is Python's
  `int()` of the value, so it is truncated toward zero.
 */
module Scroll {
  import opened Host
  import opened Numeric

  /** Values with magnitude at most this are ignored by /scroll. */
  const DeadZone: real := 0.5

  /** `_do_scroll(amount)`: one line-unit scroll event of `int(amount)` lines. */
  function DoScroll(amount: real): (r: Action)
    ensures r.Scroll? && r.lines == Trunc(amount)
  {
    Scroll(Trunc(amount))
  }

  /** An emitted scroll goes the input's way (or nowhere) and never further than the input. */
  ghost predicate Faithful(r: seq<Action>, v: real) {
    forall k :: 0 <= k < |r| ==>
      r[k].Scroll? && (r[k].lines == 0 || (r[k].lines > 0) == (v > 0.0)) && Abs(r[k].lines as real) <= Abs(v)
  }

  /** /scroll (also osc_trackpad.py's handle_scroll): scroll iff the value leaves the dead zone. */
  function HandleScroll(args: seq<Arg>): (r: seq<Action>)
    ensures |r| <= 1
    ensures r != [] <==> |args| >= 1 && args[0].Num? && Abs(args[0].num) > DeadZone
    ensures r != [] ==> r[0] == Scroll(Trunc(args[0].num)) && Faithful(r, args[0].num)
  {
    if |args| >= 1 then
      match AsFloat(args[0])
      case Some(v) => if Abs(v) > DeadZone then [DoScroll(v)] else []
      case None => []
    else []
  }

  /** /scroll-wheel: every numeric value is posted, truncated, with no dead zone. */
  function HandleScrollWheel(args: seq<Arg>): (r: seq<Action>)
    ensures |r| <= 1
    ensures r != [] <==> |args| >= 1 && args[0].Num?
    ensures r != [] ==> r[0] == Scroll(Trunc(args[0].num)) && Faithful(r, args[0].num)
  {
    if |args| >= 1 && args[0].Num? then [DoScroll(args[0].num)] else []
  }

  /** /scroll-pos: reserved, never does anything. */
  function HandleScrollPos(args: seq<Arg>): (r: seq<Action>)
    ensures r == []
  {
    []
  }

  /** Just outside the dead zone the truncated amount is 0, and a 0-line scroll is still posted. */
  lemma ZeroLineScroll(v: real, rest: seq<Arg>)
    requires 0.5 < Abs(v) < 1.0
    ensures HandleScroll([Num(v)] + rest) == [Scroll(0)]
  {
    var args := [Num(v)] + rest;
    assert args[0] == Num(v);
  }
}
