/**
 * The buzzer task (`buzzer_task`): each iteration polls the command queue
 * once without blocking, applies what it received to `beeping_enabled`, and
 * only then chooses the output for this iteration.
 */
module Buzzer {
  import opened Commands
  import CommandQueue

  const BeepDurationMs: nat := 300
  const BeepPeriodMs: nat := 1000
  /** Idle delay of a silent iteration. */
  const SilentPollMs: nat := 10

  /** One effect on the PWM slice: `pwm_set_enabled`, or a `vTaskDelay` hold. */
  datatype BuzzerAction = SetPwm(enabled: bool) | Hold(ms: nat)

  /** `beeping_enabled` after a (possibly absent) command has been applied. */
  function ApplyCommand(enabled: bool, received: Option<BuzzerCommand>): (enabled': bool)
  {
    match received
    case None => enabled
    case Some(ToggleBeep) => !enabled
    case Some(MuteBeep) => false
  }

  /** The output sequence of one iteration, chosen from the state after the command. */
  function Output(enabled: bool): (actions: seq<BuzzerAction>)
  {
    if enabled then
      [SetPwm(true), Hold(BeepDurationMs), SetPwm(false), Hold(BeepPeriodMs - BeepDurationMs)]
    else
      [SetPwm(false), Hold(SilentPollMs)]
  }

  /** Whether the PWM output is enabled after performing `actions`, starting from `on`. */
  function PwmAfter(on: bool, actions: seq<BuzzerAction>): (on': bool)
    decreases |actions|
  {
    if actions == [] then on
    else PwmAfter(if actions[0].SetPwm? then actions[0].enabled else on, actions[1..])
  }

  /** Total time spent holding while performing `actions`. */
  function HoldTime(actions: seq<BuzzerAction>): (total: nat)
  {
    if actions == [] then 0
    else (if actions[0].Hold? then actions[0].ms else 0) + HoldTime(actions[1..])
  }

  /** Time spent holding with the PWM output enabled, starting from `on`. */
  function SoundingTime(on: bool, actions: seq<BuzzerAction>): (sounding: nat)
    decreases |actions|
  {
    if actions == [] then 0
    else
      var on' := if actions[0].SetPwm? then actions[0].enabled else on;
      (if actions[0].Hold? && on then actions[0].ms else 0) + SoundingTime(on', actions[1..])
  }

  /** `beeping_enabled` after consuming `cmds` in order, one per iteration. */
  function ApplyAll(enabled: bool, cmds: seq<BuzzerCommand>): (enabled': bool)
    decreases |cmds|
  {
    if cmds == [] then enabled else ApplyAll(ApplyCommand(enabled, Some(cmds[0])), cmds[1..])
  }

  predicate Odd(n: nat)
  {
    n % 2 == 1
  }

  /** Two consecutive toggles restore the original state. */
  lemma ToggleInvolution(enabled: bool)
    ensures ApplyCommand(ApplyCommand(enabled, Some(ToggleBeep)), Some(ToggleBeep)) == enabled
    ensures ApplyCommand(enabled, Some(ToggleBeep)) != enabled
  {
  }

  /** Mute always silences, and muting twice is the same as muting once. */
  lemma MuteIdempotent(enabled: bool)
    ensures !ApplyCommand(enabled, Some(MuteBeep))
    ensures ApplyCommand(ApplyCommand(enabled, Some(MuteBeep)), Some(MuteBeep)) == ApplyCommand(enabled, Some(MuteBeep))
    ensures ApplyCommand(false, Some(MuteBeep)) == false
  {
  }

  /** With nothing received the state is unchanged. */
  lemma EmptyQueueKeepsState(enabled: bool)
    ensures ApplyCommand(enabled, None) == enabled
  {
  }

  /** A silent iteration turns the PWM off and never on; it idles for 10 ms. */
  lemma {:induction false} SilentIteration(on: bool)
    ensures SetPwm(true) !in Output(false)
    ensures Output(false)[0] == SetPwm(false)
    ensures !PwmAfter(on, Output(false))
    ensures SoundingTime(false, Output(false)) == 0
    ensures HoldTime(Output(false)) == SilentPollMs
  {
    var out := Output(false);
    assert out[1..] == [Hold(SilentPollMs)];
    assert out[1..][1..] == [];
  }

  /**
   * A beeping iteration enables the PWM before it disables it, sounds for
   * 300 ms of a 1000 ms cycle, and leaves the PWM off.
   */
  lemma {:induction false} BeepingIteration(on: bool)
    ensures forall i, j ::
              0 <= i < |Output(true)| && 0 <= j < |Output(true)| &&
              Output(true)[i] == SetPwm(true) && Output(true)[j] == SetPwm(false)
              ==> i < j
    ensures SetPwm(true) in Output(true) && SetPwm(false) in Output(true)
    ensures !PwmAfter(on, Output(true))
    ensures SoundingTime(false, Output(true)) == BeepDurationMs
    ensures HoldTime(Output(true)) == BeepPeriodMs
  {
    var out := Output(true);
    var t1, t2, t3 := out[1..], out[1..][1..], out[1..][1..][1..];
    assert t1 == [Hold(BeepDurationMs), SetPwm(false), Hold(BeepPeriodMs - BeepDurationMs)];
    assert t2 == [SetPwm(false), Hold(BeepPeriodMs - BeepDurationMs)];
    assert t3 == [Hold(BeepPeriodMs - BeepDurationMs)];
    assert t3[1..] == [];
  }

  /** After a received mute, the iteration produces no enable of the waveform. */
  lemma MuteNeverSounds(enabled: bool)
    ensures SetPwm(true) !in Output(ApplyCommand(enabled, Some(MuteBeep)))
  {
    SilentIteration(false);
  }

  /**
   * Without a mute in between, the state after a run of commands is the
   * initial state flipped once per toggle.
   */
  lemma {:induction false} TogglesFlipParity(enabled: bool, cmds: seq<BuzzerCommand>)
    requires MuteBeep !in cmds
    ensures ApplyAll(enabled, cmds) == (enabled != Odd(Count(cmds, ToggleBeep)))
    decreases |cmds|
  {
    if cmds != [] {
      assert cmds[0] == ToggleBeep;
      assert MuteBeep !in cmds[1..];
      TogglesFlipParity(!enabled, cmds[1..]);
    }
  }

  /** A mute forgets everything before it: the run continues from the silent state. */
  lemma {:induction false} MuteResets(enabled: bool, before: seq<BuzzerCommand>, after: seq<BuzzerCommand>)
    ensures ApplyAll(enabled, before + [MuteBeep] + after) == ApplyAll(false, after)
    decreases |before|
  {
    var cmds := before + [MuteBeep] + after;
    if before == [] {
      assert cmds[0] == MuteBeep && cmds[1..] == after;
    } else {
      assert cmds[0] == before[0];
      assert cmds[1..] == before[1..] + [MuteBeep] + after;
      MuteResets(ApplyCommand(enabled, Some(before[0])), before[1..], after);
    }
  }

  /** The buzzer task's private state. */
  class BuzzerTask {
    var beepingEnabled: bool

    /** The task starts silent (`bool beeping_enabled = false`). */
    constructor ()
      ensures !beepingEnabled
    {
      beepingEnabled := false;
    }

    /**
     * One iteration of the task loop: at most one zero-timeout receive, the
     * command applied, then the PWM actions chosen from the updated state.
     */
    method Iterate(queue: CommandQueue.BoundedQueue) returns (actions: seq<BuzzerAction>)
      requires queue.Valid()
      modifies this, queue, queue.storage
      ensures queue.Valid()
      ensures var received := CommandQueue.Receive(old(queue.Contents));
        queue.Contents == received.rest &&
        beepingEnabled == ApplyCommand(old(beepingEnabled), received.cmd)
      ensures actions == Output(beepingEnabled)
    {
      var received := queue.TryReceive();
      if received.Some? {
        if received.value == ToggleBeep {
          beepingEnabled := !beepingEnabled;
        } else if received.value == MuteBeep {
          beepingEnabled := false;
        }
      }

      if beepingEnabled {
        actions := [SetPwm(true), Hold(BeepDurationMs), SetPwm(false), Hold(BeepPeriodMs - BeepDurationMs)];
      } else {
        actions := [SetPwm(false), Hold(SilentPollMs)];
      }
    }
  }
}
