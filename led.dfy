/**
 * The LED task (`led_task`): an endless loop of nine statements that drives
 * the red, green and blue lines high and low in turn.  The task is modelled
 * by a program counter over that loop body, so the scheduler may suspend it
 * between any two statements and later resume it at the same place.
 */
module Led {
  import opened Commands

  datatype Line = Red | Green | Blue

  const LedDelayMs: nat := 500

  /** A statement of the loop body: `gpio_put(line, high)` or `vTaskDelay(ms)`. */
  datatype Statement = Put(line: Line, high: bool) | Delay(ms: nat)

  /** The body of the task's `while (true)` loop, in order. */
  const Body: seq<Statement> := [
    Put(Red, true), Delay(LedDelayMs), Put(Red, false),
    Put(Green, true), Delay(LedDelayMs), Put(Green, false),
    Put(Blue, true), Delay(LedDelayMs), Put(Blue, false)
  ]

  /** Position in the loop body: the index of the next statement to run. */
  type Pc = i: nat | i < 9

  /** The output levels of the three LED lines. */
  datatype Levels = Levels(red: bool, green: bool, blue: bool)

  const AllLow := Levels(false, false, false)

  /** The LED task as the scheduler sees it: where it is, what it drives, whether it is suspended. */
  datatype LedState = LedState(pc: Pc, levels: Levels, suspended: bool)

  /** Created running at the top of the loop, with every line low after `leds_init`. */
  const Initial := LedState(0, AllLow, false)

  function Next(pc: Pc): (pc': Pc)
  {
    if pc == |Body| - 1 then 0 else pc + 1
  }

  function Execute(v: Levels, s: Statement): (v': Levels)
  {
    match s
    case Put(Red, h) => v.(red := h)
    case Put(Green, h) => v.(green := h)
    case Put(Blue, h) => v.(blue := h)
    case Delay(_) => v
  }

  /** One statement of the task, or nothing at all while it is suspended. */
  function LedStep(s: LedState): (s': LedState)
  {
    if s.suspended then s else LedState(Next(s.pc), Execute(s.levels, Body[s.pc]), false)
  }

  /** `vTaskSuspend(xLedTaskHandle)`. */
  function SuspendTask(s: LedState): (s': LedState)
  {
    s.(suspended := true)
  }

  /** `vTaskResume(xLedTaskHandle)`. */
  function ResumeTask(s: LedState): (s': LedState)
  {
    s.(suspended := false)
  }

  /** The state after the scheduler gives the task `k` turns. */
  function Run(s: LedState, k: nat): (s': LedState)
    decreases k
  {
    if k == 0 then s else Run(LedStep(s), k - 1)
  }

  /** Reference definition: the line that is high at each point of the loop body. */
  function LevelsAt(pc: Pc): (v: Levels)
  {
    Levels(pc == 1 || pc == 2, pc == 4 || pc == 5, pc == 7 || pc == 8)
  }

  ghost predicate Consistent(s: LedState)
  {
    s.levels == LevelsAt(s.pc)
  }

  /** The level of one line. */
  function Level(v: Levels, l: Line): (high: bool)
  {
    match l
    case Red => v.red
    case Green => v.green
    case Blue => v.blue
  }

  function HighCount(v: Levels): (n: nat)
  {
    (if v.red then 1 else 0) + (if v.green then 1 else 0) + (if v.blue then 1 else 0)
  }

  /** The line the next high write of the loop body drives. */
  function NextHigh(pc: Pc): (l: Line)
  {
    if pc == 0 || pc >= 7 then Red else if pc <= 3 then Green else Blue
  }

  /** The cyclic order R, G, B, R, ... */
  function Succ(l: Line): (l': Line)
  {
    match l
    case Red => Green
    case Green => Blue
    case Blue => Red
  }

  /** The lines driven high by `n` consecutive statements of the body starting at `pc`. */
  function HighWrites(pc: Pc, n: nat): (lines: seq<Line>)
    decreases n
  {
    if n == 0 then []
    else
      var here := match Body[pc] case Put(l, true) => [l] case _ => [];
      here + HighWrites(Next(pc), n - 1)
  }

  /** One statement keeps the levels in line with the program counter, with at most one line high. */
  lemma StepKeepsConsistent(s: LedState)
    requires Consistent(s)
    ensures Consistent(LedStep(s))
    ensures HighCount(LedStep(s).levels) <= 1
  {
  }

  /** Any number of turns keeps the levels consistent, so at most one line is ever high. */
  lemma {:induction false} RunKeepsConsistent(s: LedState, k: nat)
    requires Consistent(s)
    ensures Consistent(Run(s, k))
    ensures HighCount(Run(s, k).levels) <= 1
    decreases k
  {
    StepKeepsConsistent(s);
    if k > 0 {
      RunKeepsConsistent(LedStep(s), k - 1);
    }
  }

  /** A line goes high only when every line is low: the previous one was returned low first. */
  lemma LowBeforeHigh(s: LedState, l: Line)
    requires Consistent(s) && Body[s.pc] == Put(l, true)
    ensures s.levels == AllLow
    ensures !s.suspended ==> Level(LedStep(s).levels, l) && HighCount(LedStep(s).levels) == 1
  {
  }

  /**
   * The lines go high in the cyclic order R, G, B, R, ... with nothing
   * skipped or repeated, starting from the next one due at `pc`.
   */
  lemma {:induction false} HighWritesCycle(pc: Pc, n: nat)
    ensures HighWrites(pc, n) != [] ==> HighWrites(pc, n)[0] == NextHigh(pc)
    ensures forall i :: 0 < i < |HighWrites(pc, n)| ==>
              HighWrites(pc, n)[i] == Succ(HighWrites(pc, n)[i - 1])
    decreases n
  {
    if n > 0 {
      HighWritesCycle(Next(pc), n - 1);
      var rest := HighWrites(Next(pc), n - 1);
      if Body[pc].Put? && Body[pc].high {
        assert HighWrites(pc, n) == [Body[pc].line] + rest;
        assert Body[pc].line == NextHigh(pc);
        assert rest != [] ==> rest[0] == Succ(NextHigh(pc));
      } else {
        assert HighWrites(pc, n) == rest;
        assert NextHigh(Next(pc)) == NextHigh(pc);
      }
    }
  }

  /** One pass through the loop body drives exactly R, then G, then B high. */
  lemma FullCycle()
    ensures HighWrites(0, |Body|) == [Red, Green, Blue]
  {
    HighWritesCycle(0, |Body|);
    assert HighWrites(7, 2) == [];
    assert HighWrites(6, 3) == [Blue];
    assert HighWrites(3, 6) == [Green, Blue];
  }

  /** The lines that are low in `v` and high in `w`, in the order red, green, blue. */
  function NewlyHigh(v: Levels, w: Levels): (lines: seq<Line>)
  {
    (if !v.red && w.red then [Red] else []) +
    (if !v.green && w.green then [Green] else []) +
    (if !v.blue && w.blue then [Blue] else [])
  }

  /** The lines seen going from low to high while the task takes `k` turns from `s`. */
  function ObservedHighs(s: LedState, k: nat): (lines: seq<Line>)
    decreases k
  {
    if k == 0 then [] else NewlyHigh(s.levels, LedStep(s).levels) + ObservedHighs(LedStep(s), k - 1)
  }

  /** One statement makes a line go high exactly when it is a high write of that line. */
  lemma StepObservedHigh(s: LedState)
    requires Consistent(s) && !s.suspended
    ensures NewlyHigh(s.levels, LedStep(s).levels) == HighWrites(s.pc, 1)
  {
    assert HighWrites(Next(s.pc), 0) == [];
  }

  /**
   * The lines a running task actually drives high over `k` turns are the
   * high writes of its loop body from where it stands, so they too follow
   * R, G, B, R, ... (`HighWritesCycle`).
   */
  lemma {:induction false} ObservedHighsFollowBody(s: LedState, k: nat)
    requires Consistent(s) && !s.suspended
    ensures ObservedHighs(s, k) == HighWrites(s.pc, k)
    ensures ObservedHighs(s, k) != [] ==> ObservedHighs(s, k)[0] == NextHigh(s.pc)
    ensures forall i :: 0 < i < |ObservedHighs(s, k)| ==>
              ObservedHighs(s, k)[i] == Succ(ObservedHighs(s, k)[i - 1])
    decreases k
  {
    if k > 0 {
      StepKeepsConsistent(s);
      StepObservedHigh(s);
      ObservedHighsFollowBody(LedStep(s), k - 1);
      assert HighWrites(s.pc, 1) + HighWrites(Next(s.pc), k - 1) == HighWrites(s.pc, k) by {
        assert HighWrites(Next(s.pc), 0) == [];
      }
    }
    HighWritesCycle(s.pc, k);
  }

  /** A suspended task performs no statement, however many turns pass. */
  lemma {:induction false} SuspendedIsFrozen(s: LedState, k: nat)
    requires s.suspended
    ensures Run(s, k) == s
    decreases k
  {
    if k > 0 {
      SuspendedIsFrozen(LedStep(s), k - 1);
    }
  }

  /** Suspending and later resuming continues at the same statement with the same levels. */
  lemma ResumeWherePaused(s: LedState, k: nat)
    requires !s.suspended
    ensures ResumeTask(Run(SuspendTask(s), k)) == s
  {
    SuspendedIsFrozen(SuspendTask(s), k);
  }

  /** The LED task's control block and its three output pins. */
  class LedTask {
    var pc: Pc
    var red: bool
    var green: bool
    var blue: bool
    var suspended: bool

    function State(): (s: LedState)
      reads this
    {
      LedState(pc, Levels(red, green, blue), suspended)
    }

    constructor ()
      ensures State() == Initial
    {
      pc := 0;
      red, green, blue := false, false, false;
      suspended := false;
    }

    /** One scheduler turn: run the next statement of the loop body unless suspended. */
    method Step() returns (executed: Option<Statement>)
      modifies this
      ensures State() == LedStep(old(State()))
      ensures executed == if old(suspended) then None else Some(Body[old(pc)])
    {
      if suspended {
        executed := None;
        return;
      }
      var stmt := Body[pc];
      match stmt {
        case Put(line, high) =>
          match line {
            case Red => red := high;
            case Green => green := high;
            case Blue => blue := high;
          }
        case Delay(_) =>
      }
      pc := if pc == |Body| - 1 then 0 else pc + 1;
      executed := Some(stmt);
    }

    method Suspend()
      modifies this
      ensures State() == SuspendTask(old(State()))
    {
      suspended := true;
    }

    method Resume()
      modifies this
      ensures State() == ResumeTask(old(State()))
    {
      suspended := false;
    }
  }
}
