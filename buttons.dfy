/**
 * The button task (`button_task`): every 100 ms it samples both buttons,
 * acts on a rising edge of each (A: suspend or resume the LED task and mute
 * the buzzer; B: toggle the beeping), and remembers the samples for the next
 * poll.
 */
module Buttons {
  import opened Commands
  import CommandQueue
  import Led

  /** The task's static variables `btn_a_last_state`, `btn_b_last_state`, `is_led_suspended`. */
  datatype ButtonMemory = ButtonMemory(aLast: bool, bLast: bool, ledSuspended: bool)

  const InitialMemory := ButtonMemory(false, false, false)

  /** What a poll does to the LED task through the scheduler. */
  datatype LedControl = KeepLed | SuspendLed | ResumeLed

  /** Everything one poll produces: new memory, LED control and the commands sent, in order. */
  datatype PollResult = PollResult(memory: ButtonMemory, led: LedControl, commands: seq<BuzzerCommand>)

  /** The inputs are pulled up: a pressed button reads low. */
  function Pressed(level: bool): (pressed: bool)
  {
    !level
  }

  predicate RisingEdge(last: bool, now: bool)
  {
    now && !last
  }

  /** One iteration of the poll loop, given the raw levels read from pins A and B. */
  function PollStep(m: ButtonMemory, levelA: bool, levelB: bool): (r: PollResult)
  {
    var a := Pressed(levelA);
    var b := Pressed(levelB);
    var edgeA := RisingEdge(m.aLast, a);
    var suspended := if edgeA then !m.ledSuspended else m.ledSuspended;
    var control := if !edgeA then KeepLed else if suspended then SuspendLed else ResumeLed;
    var fromA := if edgeA then [MuteBeep] else [];
    var fromB := if RisingEdge(m.bLast, b) then [ToggleBeep] else [];
    PollResult(ButtonMemory(a, b, suspended), control, fromA + fromB)
  }

  /** The LED task after the scheduler call a poll makes, if any. */
  function ApplyControl(s: Led.LedState, c: LedControl): (s': Led.LedState)
  {
    match c
    case KeepLed => s
    case SuspendLed => Led.SuspendTask(s)
    case ResumeLed => Led.ResumeTask(s)
  }

  /** The sample memory is overwritten with the current samples on every poll. */
  lemma MemoryFollowsSamples(m: ButtonMemory, levelA: bool, levelB: bool)
    ensures PollStep(m, levelA, levelB).memory.aLast == Pressed(levelA)
    ensures PollStep(m, levelA, levelB).memory.bLast == Pressed(levelB)
  {
  }

  /**
   * A rising edge on A flips the suspend flag once, asks the scheduler for the
   * matching suspend or resume, and sends exactly one mute, ahead of anything
   * B sends.
   */
  lemma ButtonAEdge(m: ButtonMemory, levelA: bool, levelB: bool)
    requires RisingEdge(m.aLast, Pressed(levelA))
    ensures var r := PollStep(m, levelA, levelB);
      r.memory.ledSuspended == !m.ledSuspended &&
      r.led == (if r.memory.ledSuspended then SuspendLed else ResumeLed) &&
      r.commands[0] == MuteBeep &&
      Count(r.commands, MuteBeep) == 1
  {
    var fromB := if RisingEdge(m.bLast, Pressed(levelB)) then [ToggleBeep] else [];
    CountAppend([MuteBeep], fromB, MuteBeep);
    assert [MuteBeep][1..] == [];
    assert fromB != [] ==> fromB[1..] == [];
  }

  /** Without an edge on A, neither the flag nor the LED task changes and no mute is sent. */
  lemma NoButtonAEdge(m: ButtonMemory, levelA: bool, levelB: bool)
    requires !RisingEdge(m.aLast, Pressed(levelA))
    ensures var r := PollStep(m, levelA, levelB);
      r.memory.ledSuspended == m.ledSuspended && r.led == KeepLed && MuteBeep !in r.commands
  {
  }

  /** B sends a toggle exactly when it has a rising edge. */
  lemma ButtonBEdge(m: ButtonMemory, levelA: bool, levelB: bool)
    ensures var r := PollStep(m, levelA, levelB);
      Count(r.commands, ToggleBeep) == (if RisingEdge(m.bLast, Pressed(levelB)) then 1 else 0)
  {
    var r := PollStep(m, levelA, levelB);
    var fromA := if RisingEdge(m.aLast, Pressed(levelA)) then [MuteBeep] else [];
    var fromB := if RisingEdge(m.bLast, Pressed(levelB)) then [ToggleBeep] else [];
    CountAppend(fromA, fromB, ToggleBeep);
    assert Count(fromA, ToggleBeep) == 0 by {
      if fromA != [] { assert fromA[1..] == []; }
    }
    assert fromB != [] ==> fromB[1..] == [];
  }

  /** When both buttons have an edge in the same poll, A's mute goes out before B's toggle. */
  lemma BothEdgesOrder(m: ButtonMemory, levelA: bool, levelB: bool)
    requires RisingEdge(m.aLast, Pressed(levelA)) && RisingEdge(m.bLast, Pressed(levelB))
    ensures PollStep(m, levelA, levelB).commands == [MuteBeep, ToggleBeep]
  {
  }

  /** Sending at most one command, then at most one more, is sending the two in order. */
  lemma SendAllPair(contents: seq<BuzzerCommand>, first: seq<BuzzerCommand>, second: seq<BuzzerCommand>)
    requires |first| <= 1 && |second| <= 1
    ensures CommandQueue.SendAll(contents, first + second) ==
      CommandQueue.SendAll(CommandQueue.SendAll(contents, first), second)
  {
    if first != [] {
      assert (first + second)[1..] == second;
    } else {
      assert first + second == second;
    }
  }

  /** The memory, and the commands sent in order, after a run of polls. */
  function PollRun(m: ButtonMemory, samples: seq<(bool, bool)>): (r: PollResult)
    decreases |samples|
  {
    if samples == [] then PollResult(m, KeepLed, [])
    else
      var first := PollStep(m, samples[0].0, samples[0].1);
      var rest := PollRun(first.memory, samples[1..]);
      PollResult(rest.memory, rest.led, first.commands + rest.commands)
  }

  /** The number of rising edges in the pressed states of B across `samples`, starting from `last`. */
  function EdgesB(last: bool, samples: seq<(bool, bool)>): (edges: nat)
    decreases |samples|
  {
    if samples == [] then 0
    else
      var now := Pressed(samples[0].1);
      (if RisingEdge(last, now) then 1 else 0) + EdgesB(now, samples[1..])
  }

  /** Over any run of polls, B sends one toggle per rising edge and no more. */
  lemma {:induction false} TogglesMatchEdges(m: ButtonMemory, samples: seq<(bool, bool)>)
    ensures Count(PollRun(m, samples).commands, ToggleBeep) == EdgesB(m.bLast, samples)
    decreases |samples|
  {
    if samples != [] {
      var first := PollStep(m, samples[0].0, samples[0].1);
      ButtonBEdge(m, samples[0].0, samples[0].1);
      TogglesMatchEdges(first.memory, samples[1..]);
      CountAppend(first.commands, PollRun(first.memory, samples[1..]).commands, ToggleBeep);
    }
  }

  /** Holding B down keeps producing no edges once it is already pressed. */
  lemma {:induction false} HeldHasNoEdges(samples: seq<(bool, bool)>)
    requires forall i :: 0 <= i < |samples| ==> Pressed(samples[i].1)
    ensures EdgesB(true, samples) == 0
    decreases |samples|
  {
    if samples != [] {
      HeldHasNoEdges(samples[1..]);
    }
  }

  /**
   * Holding B pressed across several polls, starting released, sends exactly
   * one toggle, on the first poll.
   */
  lemma HoldingBSendsOneToggle(m: ButtonMemory, samples: seq<(bool, bool)>)
    requires !m.bLast && samples != []
    requires forall i :: 0 <= i < |samples| ==> Pressed(samples[i].1)
    ensures Count(PollRun(m, samples).commands, ToggleBeep) == 1
    ensures ToggleBeep in PollStep(m, samples[0].0, samples[0].1).commands
  {
    TogglesMatchEdges(m, samples);
    HeldHasNoEdges(samples[1..]);
  }

  /** The button task's static state. */
  class ButtonTask {
    var btnALastState: bool
    var btnBLastState: bool
    var isLedSuspended: bool

    function Memory(): (m: ButtonMemory)
      reads this
    {
      ButtonMemory(btnALastState, btnBLastState, isLedSuspended)
    }

    /** The statics start false. */
    constructor ()
      ensures Memory() == InitialMemory
    {
      btnALastState, btnBLastState, isLedSuspended := false, false, false;
    }

    /**
     * One iteration of the poll loop, given the raw pin levels read by
     * `gpio_get`: button A's logic, then button B's.
     */
    method Poll(levelA: bool, levelB: bool, queue: CommandQueue.BoundedQueue, led: Led.LedTask)
      requires queue.Valid()
      modifies this, queue, queue.storage, led
      ensures queue.Valid()
      ensures var r := PollStep(old(Memory()), levelA, levelB);
        Memory() == r.memory &&
        queue.Contents == CommandQueue.SendAll(old(queue.Contents), r.commands) &&
        led.State() == ApplyControl(old(led.State()), r.led)
    {
      ghost var r := PollStep(Memory(), levelA, levelB);
      ghost var fromA := if RisingEdge(btnALastState, Pressed(levelA)) then [MuteBeep] else [];
      ghost var before := queue.Contents;
      PollA(levelA, queue, led);
      PollB(levelB, queue);
      assert r.commands == fromA + (r.commands[|fromA|..]);
      SendAllPair(before, fromA, r.commands[|fromA|..]);
    }

    /** Button A: on a rising edge flip the flag, suspend or resume the LED task, send a mute. */
    method PollA(levelA: bool, queue: CommandQueue.BoundedQueue, led: Led.LedTask)
      requires queue.Valid()
      modifies this`btnALastState, this`isLedSuspended, queue, queue.storage, led
      ensures queue.Valid()
      ensures var edge := RisingEdge(old(btnALastState), Pressed(levelA));
        btnALastState == Pressed(levelA) &&
        isLedSuspended == (if edge then !old(isLedSuspended) else old(isLedSuspended)) &&
        led.State() == ApplyControl(old(led.State()),
                                    if !edge then KeepLed else if isLedSuspended then SuspendLed else ResumeLed) &&
        queue.Contents == if edge then CommandQueue.Send(old(queue.Contents), MuteBeep) else old(queue.Contents)
    {
      var btnACurrentState := !levelA;
      if btnACurrentState && !btnALastState {
        isLedSuspended := !isLedSuspended;
        if isLedSuspended {
          led.Suspend();
        } else {
          led.Resume();
        }
        var _ := queue.TrySend(MuteBeep);
      }
      btnALastState := btnACurrentState;
    }

    /** Button B: on a rising edge send a toggle. */
    method PollB(levelB: bool, queue: CommandQueue.BoundedQueue)
      requires queue.Valid()
      modifies this`btnBLastState, queue, queue.storage
      ensures queue.Valid()
      ensures btnBLastState == Pressed(levelB)
      ensures queue.Contents ==
        if RisingEdge(old(btnBLastState), Pressed(levelB)) then CommandQueue.Send(old(queue.Contents), ToggleBeep)
        else old(queue.Contents)
    {
      var btnBCurrentState := !levelB;
      if btnBCurrentState && !btnBLastState {
        var _ := queue.TrySend(ToggleBeep);
      }
      btnBLastState := btnBCurrentState;
    }
  }
}
