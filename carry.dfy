/**
  The carry/drop ("pregnant cursor") state machine of handlerz/carry.py: at most one
  text payload is held; /carry loads it, /drop pastes and clears it, /drop-keep
  pastes and keeps it, /carry-status only reads it, and the Escape key cancels it.
  Each operation runs under one lock, so it is modelled as one atomic step.
 */
module Carry {
  import opened Host

  /** How many characters of the payload the notification shows before "...". */
  const PreviewLimit: nat := 40
  const Ellipsis: string := "..."
  const NoticeTitle: string := "Reachz: Carrying"

  /** The body of the "carrying" notification. */
  function Preview(text: string): (r: string)
    ensures |text| <= PreviewLimit ==> r == text
    ensures |text| > PreviewLimit ==> |r| == PreviewLimit + |Ellipsis|
    ensures |text| > PreviewLimit ==> r[..PreviewLimit] == text[..PreviewLimit] && r[PreviewLimit..] == Ellipsis
    ensures |r| <= PreviewLimit + |Ellipsis|
  {
    if |text| > PreviewLimit then text[..PreviewLimit] + Ellipsis else text
  }

  /** Python's `str(arg)`; `show` is its rendering of a number. */
  function ArgText(a: Arg, show: real -> string): (r: string)
    ensures a.Text? ==> r == a.text
    ensures a.Num? ==> r == show(a.num)
  {
    match a
    case Num(v) => show(v)
    case Text(s) => s
  }

  /** The host actions of a paste: put the text on the clipboard, then press command+v. */
  function Paste(text: string): (r: seq<Action>)
    ensures |r| == 2 && r[0] == ClipboardWrite(text) && r[1] == Hotkey("command", "v")
  {
    [ClipboardWrite(text), Hotkey("command", "v")]
  }

  /** The messages that reach the payload: the four addresses and the Escape-key cancel. */
  datatype Msg = Load(args: seq<Arg>) | Drop | DropKeep | Status | Cancel

  datatype Outcome = Outcome(payload: Option<string>, actions: seq<Action>)

  /** One atomic carry operation on payload `p`. */
  function Step(p: Option<string>, m: Msg, show: real -> string): (r: Outcome)
    ensures m.Load? && |m.args| >= 1 ==>
      var t := ArgText(m.args[0], show);
      r.payload == Some(t) && r.actions == [Notify(NoticeTitle, Preview(t))]
    ensures m.Load? && |m.args| == 0 ==> r == Outcome(p, [])
    ensures m.Drop? ==> r.payload == None && r.actions == (if p.Some? then Paste(p.value) else [])
    ensures m.DropKeep? ==> r.payload == p && r.actions == (if p.Some? then Paste(p.value) else [])
    ensures m.Status? ==> r == Outcome(p, [])
    ensures m.Cancel? ==> r == Outcome(None, [])
  {
    match m
    case Load(args) =>
      if |args| >= 1 then
        var t := ArgText(args[0], show);
        Outcome(Some(t), [Notify(NoticeTitle, Preview(t))])
      else Outcome(p, [])
    case Drop =>
      if p.Some? then Outcome(None, Paste(p.value)) else Outcome(p, [])
    case DropKeep =>
      if p.Some? then Outcome(p, Paste(p.value)) else Outcome(p, [])
    case Status => Outcome(p, [])
    case Cancel => Outcome(None, [])
  }

  /** A sequence of operations applied in arrival order; the actions are concatenated. */
  function Run(p: Option<string>, ms: seq<Msg>, show: real -> string): Outcome
    decreases |ms|
  {
    if ms == [] then Outcome(p, [])
    else
      var first := Step(p, ms[0], show);
      var rest := Run(first.payload, ms[1..], show);
      Outcome(rest.payload, first.actions + rest.actions)
  }

  /**
    Reference reading of the payload after `ms`, looking backwards: the text of the
    last /carry that had an argument, unless a /drop or a cancel came after it.
   */
  function Holding(p: Option<string>, ms: seq<Msg>, show: real -> string): Option<string>
    decreases |ms|
  {
    if ms == [] then p
    else
      match ms[|ms| - 1]
      case Load(args) =>
        if |args| >= 1 then Some(ArgText(args[0], show)) else Holding(p, ms[..|ms| - 1], show)
      case Drop => None
      case Cancel => None
      case DropKeep => Holding(p, ms[..|ms| - 1], show)
      case Status => Holding(p, ms[..|ms| - 1], show)
  }

  lemma {:induction false} RunSnoc(p: Option<string>, ms: seq<Msg>, m: Msg, show: real -> string)
    ensures Run(p, ms + [m], show).payload == Step(Run(p, ms, show).payload, m, show).payload
    ensures Run(p, ms + [m], show).actions ==
            Run(p, ms, show).actions + Step(Run(p, ms, show).payload, m, show).actions
    decreases |ms|
  {
    if ms == [] {
      assert [] + [m] == [m];
      assert [m][1..] == [];
    } else {
      var first := Step(p, ms[0], show);
      assert (ms + [m])[0] == ms[0];
      assert (ms + [m])[1..] == ms[1..] + [m];
      RunSnoc(first.payload, ms[1..], m, show);
    }
  }

  /** The payload after any run is the one the backward reading predicts. */
  lemma {:induction false} RunHolds(p: Option<string>, ms: seq<Msg>, show: real -> string)
    ensures Run(p, ms, show).payload == Holding(p, ms, show)
    decreases |ms|
  {
    if ms != [] {
      var init := ms[..|ms| - 1];
      assert ms == init + [ms[|ms| - 1]];
      RunSnoc(p, init, ms[|ms| - 1], show);
      RunHolds(p, init, show);
    }
  }

  /** After a /drop the payload is empty, so a second /drop emits nothing and changes nothing. */
  lemma DropTwiceIsNoop(p: Option<string>, show: real -> string)
    ensures Run(p, [Drop, Drop], show).payload == None
    ensures Run(p, [Drop, Drop], show).actions == Step(p, Drop, show).actions
  {
    assert [Drop, Drop][1..] == [Drop];
    assert [Drop][1..] == [];
  }

  /** A second /carry silently replaces the first: the status afterwards holds the second text. */
  lemma LoadOverwrites(p: Option<string>, t1: Arg, t2: Arg, show: real -> string)
    ensures Run(p, [Load([t1]), Load([t2]), Status], show).payload == Some(ArgText(t2, show))
  {
    RunHolds(p, [Load([t1]), Load([t2]), Status], show);
  }

  /** /drop-keep can be repeated: each one pastes the same text and the payload survives. */
  lemma DropKeepRepeats(t: string, show: real -> string)
    ensures Run(Some(t), [DropKeep, DropKeep], show) == Outcome(Some(t), Paste(t) + Paste(t))
  {
    assert [DropKeep, DropKeep][1..] == [DropKeep];
    assert [DropKeep][1..] == [];
  }

  /**
    The module-level `_payload` of handlerz/carry.py together with the handlers
    that read and reassign it. Every method is one step of `Step`.
   */
  class Carrier {
    var payload: Option<string>

    constructor ()
      ensures payload == None
    {
      payload := None;
    }

    /** /carry: load `str(args[0])`, overwriting any payload, and show a notification. */
    method HandleCarry(args: seq<Arg>, show: real -> string) returns (acts: seq<Action>)
      modifies this
      ensures Outcome(payload, acts) == Step(old(payload), Load(args), show)
    {
      acts := [];
      if |args| >= 1 {
        var text := ArgText(args[0], show);
        payload := Some(text);
        acts := [Notify(NoticeTitle, Preview(text))];
      }
    }

    /** /drop: paste the payload and clear it; nothing happens when empty. */
    method HandleDrop() returns (acts: seq<Action>)
      modifies this
      ensures payload == None
      ensures acts == (if old(payload).Some? then Paste(old(payload).value) else [])
    {
      acts := [];
      if payload.Some? {
        acts := Paste(payload.value);
        payload := None;
      }
    }

    /** /drop-keep: paste the payload and keep it; nothing happens when empty. */
    method HandleDropKeep() returns (acts: seq<Action>)
      ensures acts == (if payload.Some? then Paste(payload.value) else [])
    {
      acts := [];
      if payload.Some? {
        acts := Paste(payload.value);
      }
    }

    /** /carry-status: report the current payload without changing it. */
    method HandleCarryStatus() returns (report: Option<string>)
      ensures report == payload
    {
      report := payload;
    }

    /** clear_payload, called when Escape is pressed: drop the payload without any host action. */
    method ClearPayload()
      modifies this
      ensures payload == None
    {
      payload := None;
    }
  }
}
