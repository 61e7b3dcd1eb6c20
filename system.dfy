/**
 * The three tasks and the queue together.  The scheduler's choices are an
 * input: a sequence of events, each giving one task one turn (one iteration
 * of the button or buzzer loop, one statement of the LED loop).  Delays are
 * the points where such turns interleave.
 */
module System {
  import opened Commands
  import CommandQueue
  import Buzzer
  import Buttons
  import Led

  /** Everything the controller remembers between turns. */
  datatype SystemState = SystemState(
    queue: seq<BuzzerCommand>,
    beeping: bool,
    buttons: Buttons.ButtonMemory,
    led: Led.LedState)

  /** A turn the scheduler gives to one task; a button poll carries the raw pin levels it reads. */
  datatype Event = ButtonTurn(levelA: bool, levelB: bool) | BuzzerTurn | LedTurn

  /** After `main` has created the queue and the three tasks. */
  const Initial := SystemState([], false, Buttons.InitialMemory, Led.Initial)

  function Step(s: SystemState, e: Event): (s': SystemState)
  {
    match e
    case ButtonTurn(levelA, levelB) =>
      var r := Buttons.PollStep(s.buttons, levelA, levelB);
      s.(queue := CommandQueue.SendAll(s.queue, r.commands),
         buttons := r.memory,
         led := Buttons.ApplyControl(s.led, r.led))
    case BuzzerTurn =>
      var received := CommandQueue.Receive(s.queue);
      s.(queue := received.rest, beeping := Buzzer.ApplyCommand(s.beeping, received.cmd))
    case LedTurn =>
      s.(led := Led.LedStep(s.led))
  }

  /** The state after the scheduler has given out the turns in `events`, in order. */
  function Run(s: SystemState, events: seq<Event>): (s': SystemState)
    decreases |events|
  {
    if events == [] then s else Step(Run(s, events[..|events| - 1]), events[|events| - 1])
  }

  /**
   * What holds at every turn boundary: the queue is within its capacity, the
   * button task's `is_led_suspended` agrees with the scheduler's view of the
   * LED task, and the LED levels match the LED task's position.
   */
  ghost predicate Inv(s: SystemState)
  {
    |s.queue| <= CommandQueue.Capacity &&
    s.buttons.ledSuspended == s.led.suspended &&
    Led.Consistent(s.led)
  }

  lemma StepPreservesInv(s: SystemState, e: Event)
    requires Inv(s)
    ensures Inv(Step(s, e))
  {
    match e
    case ButtonTurn(levelA, levelB) =>
      var r := Buttons.PollStep(s.buttons, levelA, levelB);
      CommandQueue.SendAllKeepsPrefix(s.queue, r.commands);
    case BuzzerTurn =>
    case LedTurn =>
      Led.StepKeepsConsistent(s.led);
  }

  /**
   * In every reachable state the invariant holds; in particular the queue
   * never holds more than five commands and at most one LED line is high.
   */
  lemma {:induction false} RunPreservesInv(events: seq<Event>)
    ensures Inv(Run(Initial, events))
    ensures |Run(Initial, events).queue| <= CommandQueue.Capacity
    ensures Led.HighCount(Run(Initial, events).led.levels) <= 1
    decreases |events|
  {
    if events != [] {
      RunPreservesInv(events[..|events| - 1]);
      StepPreservesInv(Run(Initial, events[..|events| - 1]), events[|events| - 1]);
    }
    Led.StepKeepsConsistent(Run(Initial, events).led);
  }

  lemma RunSnoc(s: SystemState, events: seq<Event>, e: Event)
    ensures Run(s, events + [e]) == Step(Run(s, events), e)
  {
    assert (events + [e])[..|events|] == events;
  }

  /** Running two batches of turns is running them one after the other. */
  lemma {:induction false} RunAppend(s: SystemState, first: seq<Event>, second: seq<Event>)
    ensures Run(s, first + second) == Run(Run(s, first), second)
    decreases |second|
  {
    if second == [] {
      assert first + second == first;
    } else {
      var init := second[..|second| - 1];
      var last := second[|second| - 1];
      assert second == init + [last];
      assert first + second == (first + init) + [last];
      RunAppend(s, first, init);
      RunSnoc(s, first + init, last);
      RunSnoc(Run(s, first), init, last);
    }
  }

  /** Raw pin levels: a pressed button reads low. */
  const Up := true
  const Down := false

  /** Press B and release it, let the buzzer run, then let the LED light red. */
  const StartBeeping: seq<Event> := [ButtonTurn(Up, Down), ButtonTurn(Up, Up), BuzzerTurn, LedTurn, LedTurn]
  /** Press A while the LED holds red, give the suspended LED a turn, let the buzzer run. */
  const PauseAndMute: seq<Event> := [ButtonTurn(Down, Up), LedTurn, BuzzerTurn]
  /** Release A, press it again, let the buzzer run. */
  const ResumeSilent: seq<Event> := [ButtonTurn(Up, Up), ButtonTurn(Down, Up), BuzzerTurn]

  const Scenario: seq<Event> := StartBeeping + PauseAndMute + ResumeSilent

  /** The LED task with red high, its red delay done, about to drive red low. */
  const HoldingRed := Led.LedState(2, Led.Levels(true, false, false), false)

  /** The buzzer beeps after B's toggle went through the queue. */
  lemma StartBeepingOutcome()
    ensures Step(Initial, StartBeeping[0]).queue == [ToggleBeep]
    ensures Run(Initial, StartBeeping) == SystemState([], true, Buttons.InitialMemory, HoldingRed)
  {
    var s1 := Step(Initial, StartBeeping[0]);
    assert s1 == SystemState([ToggleBeep], false, Buttons.ButtonMemory(false, true, false), Led.Initial) by {
      assert Buttons.PollStep(Buttons.InitialMemory, Up, Down).commands == [ToggleBeep];
    }
    var s2 := Step(s1, StartBeeping[1]);
    assert s2 == SystemState([ToggleBeep], false, Buttons.InitialMemory, Led.Initial);
    var s3 := Step(s2, StartBeeping[2]);
    assert s3 == SystemState([], true, Buttons.InitialMemory, Led.Initial);
    var s4 := Step(s3, StartBeeping[3]);
    assert s4.led == Led.LedState(1, Led.Levels(true, false, false), false);
    var s5 := Step(s4, StartBeeping[4]);
    assert s5 == SystemState([], true, Buttons.InitialMemory, HoldingRed);

    assert StartBeeping[..1] == [] + [StartBeeping[0]];
    RunSnoc(Initial, [], StartBeeping[0]);
    assert StartBeeping[..2] == StartBeeping[..1] + [StartBeeping[1]];
    RunSnoc(Initial, StartBeeping[..1], StartBeeping[1]);
    assert Run(Initial, StartBeeping[..2]) == s2;
    assert StartBeeping[..3] == StartBeeping[..2] + [StartBeeping[2]];
    RunSnoc(Initial, StartBeeping[..2], StartBeeping[2]);
    assert StartBeeping[..4] == StartBeeping[..3] + [StartBeeping[3]];
    RunSnoc(Initial, StartBeeping[..3], StartBeeping[3]);
    assert Run(Initial, StartBeeping[..4]) == s4;
    assert StartBeeping == StartBeeping[..4] + [StartBeeping[4]];
    RunSnoc(Initial, StartBeeping[..4], StartBeeping[4]);
  }

  /** A's edge suspends the LED with red still high, and its mute silences the buzzer. */
  lemma PauseAndMuteOutcome()
    ensures var s := SystemState([], true, Buttons.InitialMemory, HoldingRed);
      Step(s, PauseAndMute[0]).queue == [MuteBeep] &&
      Run(s, PauseAndMute) ==
        SystemState([], false, Buttons.ButtonMemory(true, false, true), Led.SuspendTask(HoldingRed))
  {
    var s0 := SystemState([], true, Buttons.InitialMemory, HoldingRed);
    var s1 := Step(s0, PauseAndMute[0]);
    assert Buttons.PollStep(s0.buttons, Down, Up).commands == [MuteBeep];
    assert s1.queue == [MuteBeep];
    RunSnoc(s0, [], PauseAndMute[0]);
    RunSnoc(s0, PauseAndMute[..1], PauseAndMute[1]);
    RunSnoc(s0, PauseAndMute[..2], PauseAndMute[2]);
    assert PauseAndMute[..1] == [] + [PauseAndMute[0]];
    assert PauseAndMute[..2] == PauseAndMute[..1] + [PauseAndMute[1]];
    assert PauseAndMute == PauseAndMute[..2] + [PauseAndMute[2]];
  }

  /** A's second edge resumes the LED where it stopped; the second mute leaves the buzzer silent. */
  lemma ResumeSilentOutcome()
    ensures var s := SystemState([], false, Buttons.ButtonMemory(true, false, true), Led.SuspendTask(HoldingRed));
      Run(s, ResumeSilent[..2]).queue == [MuteBeep] &&
      Run(s, ResumeSilent) == SystemState([], false, Buttons.ButtonMemory(true, false, false), HoldingRed)
  {
    var s0 := SystemState([], false, Buttons.ButtonMemory(true, false, true), Led.SuspendTask(HoldingRed));
    var s1 := Step(s0, ResumeSilent[0]);
    assert Buttons.PollStep(s1.buttons, Down, Up).commands == [MuteBeep];
    RunSnoc(s0, [], ResumeSilent[0]);
    RunSnoc(s0, ResumeSilent[..1], ResumeSilent[1]);
    RunSnoc(s0, ResumeSilent[..2], ResumeSilent[2]);
    assert ResumeSilent[..1] == [] + [ResumeSilent[0]];
    assert ResumeSilent[..2] == ResumeSilent[..1] + [ResumeSilent[1]];
    assert ResumeSilent == ResumeSilent[..2] + [ResumeSilent[2]];
  }

  /**
   * The whole walk-through: B starts the beeping; A freezes the LED in its
   * red phase and silences the buzzer; a second A resumes the LED at the same
   * statement with the same levels, and the buzzer stays silent.
   */
  lemma ScenarioOutcome()
    ensures Run(Initial, Scenario).led == HoldingRed
    ensures !Run(Initial, Scenario).beeping && Run(Initial, Scenario).queue == []
  {
    StartBeepingOutcome();
    PauseAndMuteOutcome();
    ResumeSilentOutcome();
    RunAppend(Initial, StartBeeping, PauseAndMute);
    RunAppend(Initial, StartBeeping + PauseAndMute, ResumeSilent);
  }

  /** A snapshot of the objects in the terms of `SystemState`. */
  ghost function Snapshot(queue: CommandQueue.BoundedQueue, buzzer: Buzzer.BuzzerTask,
                          buttons: Buttons.ButtonTask, led: Led.LedTask): (s: SystemState)
    reads queue, buzzer, buttons, led
  {
    SystemState(queue.Contents, buzzer.beepingEnabled, buttons.Memory(), led.State())
  }

  /** `main`: create the queue and the three tasks. */
  method Start() returns (queue: CommandQueue.BoundedQueue, buzzer: Buzzer.BuzzerTask,
                          buttons: Buttons.ButtonTask, led: Led.LedTask)
    ensures queue.Valid() && fresh(queue) && fresh(queue.storage)
    ensures fresh(buzzer) && fresh(buttons) && fresh(led)
    ensures Snapshot(queue, buzzer, buttons, led) == Initial
  {
    queue := new CommandQueue.BoundedQueue();
    led := new Led.LedTask();
    buzzer := new Buzzer.BuzzerTask();
    buttons := new Buttons.ButtonTask();
  }

  /** Give one task one turn. */
  method Turn(queue: CommandQueue.BoundedQueue, buzzer: Buzzer.BuzzerTask,
              buttons: Buttons.ButtonTask, led: Led.LedTask, e: Event)
    requires queue.Valid()
    modifies queue, queue.storage, buzzer, buttons, led
    ensures queue.Valid()
    ensures Snapshot(queue, buzzer, buttons, led) == Step(old(Snapshot(queue, buzzer, buttons, led)), e)
  {
    match e {
      case ButtonTurn(levelA, levelB) =>
        buttons.Poll(levelA, levelB, queue, led);
      case BuzzerTurn =>
        var _ := buzzer.Iterate(queue);
      case LedTurn =>
        var _ := led.Step();
    }
  }

  /** Give the tasks turns in the order `events` prescribes. */
  method Schedule(queue: CommandQueue.BoundedQueue, buzzer: Buzzer.BuzzerTask,
                  buttons: Buttons.ButtonTask, led: Led.LedTask, events: seq<Event>)
    requires queue.Valid()
    modifies queue, queue.storage, buzzer, buttons, led
    ensures queue.Valid()
    ensures Snapshot(queue, buzzer, buttons, led) == Run(old(Snapshot(queue, buzzer, buttons, led)), events)
  {
    ghost var s0 := Snapshot(queue, buzzer, buttons, led);
    var i := 0;
    while i < |events|
      invariant 0 <= i <= |events|
      invariant queue.Valid()
      invariant Snapshot(queue, buzzer, buttons, led) == Run(s0, events[..i])
    {
      Turn(queue, buzzer, buttons, led, events[i]);
      RunSnoc(s0, events[..i], events[i]);
      assert events[..i + 1] == events[..i] + [events[i]];
      i := i + 1;
    }
    assert events[..|events|] == events;
  }

  /**
   * `main` as a whole: create the queue and the tasks, then let the scheduler
   * give out the turns in `events`.  Every state it reaches keeps the
   * invariant, as the objects themselves show.
   */
  method StartAndSchedule(events: seq<Event>)
    returns (queue: CommandQueue.BoundedQueue, buzzer: Buzzer.BuzzerTask,
             buttons: Buttons.ButtonTask, led: Led.LedTask)
    ensures queue.Valid()
    ensures Snapshot(queue, buzzer, buttons, led) == Run(Initial, events)
    ensures |queue.Contents| <= CommandQueue.Capacity
    ensures buttons.isLedSuspended == led.suspended
    ensures Led.HighCount(led.State().levels) <= 1
  {
    queue, buzzer, buttons, led := Start();
    Schedule(queue, buzzer, buttons, led, events);
    RunPreservesInv(events);
  }
}
