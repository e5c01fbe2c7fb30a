/** The cursor with which a review walks through the event log. */
module ReplayCursor {
  datatype Cursor = Cursor(index: nat, total: nat) {
    /** The cursor points at an event, or there is none to point at. */
    predicate InBounds() { index < total || (index == 0 && total == 0) }
  }

  const NO_CURSOR := Cursor(0, 0)

  function Make(total: nat, requested: nat): (c: Cursor)
    ensures c.InBounds() && c.total == total
  {
    if total == 0 then Cursor(0, 0) else Cursor(if requested >= total then total - 1 else requested, total)
  }

  function StepForward(c: Cursor): Cursor {
    if c.total == 0 then c else if c.index + 1 < c.total then c.(index := c.index + 1) else c
  }

  function StepBackward(c: Cursor): Cursor {
    if c.index > 0 then c.(index := c.index - 1) else c
  }

  function JumpTo(c: Cursor, requested: nat): Cursor { Make(c.total, requested) }

  datatype Resolution = Resolution(cursor: Cursor, control: string, requested: nat, clamped: bool)

  /** The cursor a request starts from: the one kept, unless the log has changed its length. */
  function Seed(kept: Cursor, total: nat, requested: nat): Cursor {
    if kept.total == total && total != 0 then kept else Make(total, requested)
  }

  function Resolve(kept: Cursor, total: nat, requested: nat, control: string): Resolution {
    var seed := Seed(kept, total, requested);
    if control == "absolute" then
      Resolution(JumpTo(seed, requested), control, requested, total != 0 && requested >= total)
    else if control == "step_forward" then
      Resolution(StepForward(seed), control, requested, StepForward(seed).index == seed.index)
    else if control == "step_backward" then
      Resolution(StepBackward(seed), control, requested, StepBackward(seed).index == seed.index)
    else
      Resolution(seed, control, requested, true)
  }

  /** A resolved cursor is within the present log, and `clamped` tells exactly whether an absolute
      request was past the end of a log with events, or a step had nowhere to go. Any other control is
      told so, and moves nothing. */
  lemma ResolutionIsInBounds(kept: Cursor, total: nat, requested: nat, control: string)
    requires kept.InBounds()
    ensures var r := Resolve(kept, total, requested, control);
            r.cursor.InBounds() && r.cursor.total == total && (total != 0 ==> r.cursor.index < total)
    ensures var r, seed := Resolve(kept, total, requested, control), Seed(kept, total, requested);
            && (control == "absolute" ==>
                  && (r.clamped <==> 0 < total <= requested)
                  && (!r.clamped && total != 0 ==> r.cursor.index == requested)
                  && (r.clamped ==> r.cursor.index == total - 1))
            && (control == "step_forward" ==>
                  && (r.clamped <==> total == 0 || seed.index == total - 1)
                  && (!r.clamped ==> r.cursor.index == seed.index + 1))
            && (control == "step_backward" ==>
                  && (r.clamped <==> seed.index == 0)
                  && (!r.clamped ==> r.cursor.index == seed.index - 1))
            && (control !in {"absolute", "step_forward", "step_backward"} ==> r.clamped && r.cursor == seed)
            && (kept.total == total != 0 ==> seed == kept)
  {
  }

  /** `k` requests to step forward over an unchanged log. */
  function Forward(c: Cursor, k: nat): Cursor
    decreases k
  {
    if k == 0 then c else Forward(Resolve(c, c.total, 0, "step_forward").cursor, k - 1)
  }

  function Backward(c: Cursor, k: nat): Cursor
    decreases k
  {
    if k == 0 then c else Backward(Resolve(c, c.total, 0, "step_backward").cursor, k - 1)
  }

  /** Stepping moves one event at a time and stops at the ends; as many steps back undo steps
      forward that did not reach the end. */
  lemma {:induction false} ForwardReaches(c: Cursor, k: nat)
    requires c.InBounds() && c.total != 0
    ensures Forward(c, k) == Cursor(if c.index + k < c.total then c.index + k else c.total - 1, c.total)
    decreases k
  {
    if k > 0 { ForwardReaches(StepForward(c), k - 1); }
  }

  lemma {:induction false} BackwardReaches(c: Cursor, k: nat)
    requires c.InBounds() && c.total != 0
    ensures Backward(c, k) == Cursor(if k <= c.index then c.index - k else 0, c.total)
    decreases k
  {
    if k > 0 { BackwardReaches(StepBackward(c), k - 1); }
  }

  lemma StepsUndo(c: Cursor, k: nat)
    requires c.InBounds() && c.index + k < c.total
    ensures Backward(Forward(c, k), k) == c
  {
    ForwardReaches(c, k);
    BackwardReaches(Forward(c, k), k);
  }
}
