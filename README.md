# Buzzer, LED and button controller: a Dafny model

This project models the control logic of a small FreeRTOS program for a
Raspberry Pi Pico (`src/main.c`). Three tasks share one command queue:

- **LED task** (`led_task`). It drives the red, green and blue lines high
  and then low, one after another, with a 500 ms hold on each. The button
  task can suspend and resume it.
- **Buzzer task** (`buzzer_task`). Each loop iteration receives at most one
  command without blocking and applies it to `beeping_enabled`. Only then does
  it either beep (PWM on, 300 ms, PWM off, 700 ms) or stay silent (PWM off,
  10 ms).
- **Button task** (`button_task`). It polls two active-low buttons and acts
  on rising edges only. Button A toggles `is_led_suspended`, suspends or
  resumes the LED task and sends `CMD_MUTE_BEEP`. Button B sends
  `CMD_TOGGLE_BEEP`.
- **Command queue** (`xBuzzerQueue`). A FIFO of capacity 5. Both ends use a
  zero timeout, so a send into a full queue is dropped and a receive from an
  empty queue yields nothing.

Modules:

- `Commands` (commands.dfy): the command type.
- `CommandQueue` (command_queue.dfy): the queue as a class over a 5-slot
  storage array, with the index of the oldest message and the count of
  waiting messages; the write slot wraps around the end of the array. The value functions `Send`, `SendAll`, `Receive` and `Drain`
  specify it.
- `Buzzer` (buzzer.dfy): `ApplyCommand` and `Output` specify one iteration.
  The `BuzzerTask` class runs the iteration against the queue object.
- `Led` (led.dfy): the LED loop body is a list of nine statements
  (`gpio_put` and `vTaskDelay`). The task is a program counter over that
  list, so the scheduler may suspend it between any two statements.
  `LedStep` specifies one statement. The `LedTask` class executes it.
- `Buttons` (buttons.dfy): `PollStep` specifies one poll. The `ButtonTask`
  class performs it against the queue and LED objects.
- `System` (system.dfy): the whole controller as a value, with a scheduler
  turn (`Event`) per task iteration or LED statement. It also has an
  invariant kept by every turn and the walk-through of a press sequence.
  `Schedule` drives the objects and is proved to match the value model.

The scheduler's choices and the pin levels read by `gpio_get` are
parameters: the `events` sequence and the `levelA`/`levelB` of each button
turn. The LED task's delays (src/main.c:89, 93, 97) and the buzzer's holds
(src/main.c:119, 121, 124) are recorded as `Delay` and `Hold` values with
their durations. The button poll's 100 ms delay (src/main.c:158) is not
represented: a poll is simply one turn. The LED task's delays are points
where other turns interleave. A button poll is one turn. A buzzer iteration
is one turn too, although the button task and the equal-priority LED task
really run during all three of its holds: the 300 ms and 700 ms holds of a
beeping iteration and the 10 ms hold of a silent one. This is sound: after
its receive, the iteration applies the command to `beeping_enabled`, which
is private to the buzzer task (no other task reads or writes it), and then
only drives the PWM, which the controller state (`SystemState`) does not
include. So no other task can observe where within the iteration it was
interrupted.

While suspended, the LED task may hold one line high. It spends its time
inside `vTaskDelay` (src/main.c:89, 93, 97) with a line high, and
`vTaskSuspend` (src/main.c:141) freezes it there.
`System.PauseAndMuteOutcome` suspends it with red still high.

## Model

| member | source | states |
|---|---|---|
| CommandQueue.BoundedQueue.constructor | src/main.c:175 | The queue is created empty, with room for exactly 5 commands |
| CommandQueue.BoundedQueue.TrySend | src/main.c:146 | A zero-timeout send appends the command when fewer than 5 are queued and reports success; on a full queue it reports failure and changes nothing |
| CommandQueue.BoundedQueue.TryReceive | src/main.c:109 | A zero-timeout receive returns the oldest command and removes it, or returns nothing from an empty queue |
| CommandQueue.SendAllKeepsPrefix | src/main.c:154 | A batch of sends keeps exactly the prefix that fits within capacity 5, in order; the queue never exceeds 5 |
| CommandQueue.SendToFullDrops | src/main.c:146 | Sends into a full queue leave it unchanged: the commands are lost |
| CommandQueue.DrainInOrder | src/main.c:109 | Successive receives deliver the queued commands front first until the queue is empty |
| CommandQueue.DeliveredInOrder | src/main.c:175 | Commands sent into an empty queue come out in the order sent, and only the first 5 survive |
| Buzzer.ToggleInvolution | src/main.c:110-111 | A toggle always changes the state, and two toggles restore it |
| Buzzer.MuteIdempotent | src/main.c:112-113 | A mute always leaves beeping off, and muting twice equals muting once |
| Buzzer.EmptyQueueKeepsState | src/main.c:109 | With nothing received, `beeping_enabled` is unchanged |
| Buzzer.SilentIteration | src/main.c:122-125 | A silent iteration disables the PWM, never enables it, sounds for 0 ms and idles 10 ms |
| Buzzer.BeepingIteration | src/main.c:117-121 | A beeping iteration enables the PWM before disabling it, sounds 300 ms of a 1000 ms cycle and ends with the PWM off |
| Buzzer.MuteNeverSounds | src/main.c:112-124 | An iteration that receives a mute never enables the waveform |
| Buzzer.TogglesFlipParity | src/main.c:108-115 | Over a run of commands with no mute, the final state is the initial one flipped once per toggle |
| Buzzer.MuteResets | src/main.c:108-115 | A mute in a run of commands erases the effect of everything before it |
| Buzzer.BuzzerTask.constructor | src/main.c:106 | The buzzer task starts silent |
| Buzzer.BuzzerTask.Iterate | src/main.c:108-126 | One iteration receives at most one command, applies it, and then emits the output chosen from the updated state |
| Led.StepKeepsConsistent | src/main.c:87-99 | Each statement of the LED loop keeps the line levels matching the loop position, with at most one line high |
| Led.RunKeepsConsistent | src/main.c:87-99 | After any number of turns the levels still match the position, so at most one line is ever high |
| Led.LowBeforeHigh | src/main.c:90-92 | A line is driven high only when all lines are low, and then it is the only one high |
| Led.HighWritesCycle | src/main.c:87-99 | The lines go high in the cyclic order R, G, B, R, ... with none skipped or repeated |
| Led.StepObservedHigh | src/main.c:88-98 | A running LED step makes a line go from low to high exactly when the statement is that line's high write |
| Led.ObservedHighsFollowBody | src/main.c:87-99 | The lines a running LED task actually drives from low to high over any number of turns are the body's high writes from its position, so they follow R, G, B, R, ... with none skipped or repeated |
| Led.FullCycle | src/main.c:88-98 | One pass of the loop body drives exactly red, then green, then blue high |
| Led.SuspendedIsFrozen | src/main.c:141 | A suspended LED task changes nothing, however many turns pass |
| Led.ResumeWherePaused | src/main.c:140-143 | Suspending and then resuming continues at the same statement with the same levels |
| Led.LedTask.constructor | src/main.c:184 | The LED task starts running at the top of its loop with every line low |
| Led.LedTask.Step | src/main.c:86-100 | One turn executes the next loop statement and advances the position, or does nothing while suspended |
| Led.LedTask.Suspend | src/main.c:141 | Suspension changes only the suspended flag |
| Led.LedTask.Resume | src/main.c:143 | Resumption changes only the suspended flag |
| Buttons.MemoryFollowsSamples | src/main.c:148-156 | Both last-state variables are overwritten with the current samples on every poll |
| Buttons.ButtonAEdge | src/main.c:137-147 | A rising edge on A flips the suspend flag, requests the matching suspend or resume, and sends exactly one mute |
| Buttons.NoButtonAEdge | src/main.c:137-148 | Without an edge on A, the flag and the LED task are unchanged and no mute is sent |
| Buttons.ButtonBEdge | src/main.c:151-155 | B sends one toggle when it has a rising edge and none otherwise |
| Buttons.BothEdgesOrder | src/main.c:137-156 | When both buttons have edges in one poll, the mute is sent before the toggle |
| Buttons.TogglesMatchEdges | src/main.c:151-156 | Over any run of polls, the number of toggles sent equals the number of rising edges of B |
| Buttons.HoldingBSendsOneToggle | src/main.c:151-156 | Holding B across several polls from released sends exactly one toggle, on the first poll |
| Buttons.ButtonTask.constructor | src/main.c:131-133 | The task's statics start false |
| Buttons.ButtonTask.Poll | src/main.c:135-159 | One poll updates the memory, the LED task and the queue exactly as the poll specification says, with A's command ahead of B's |
| Buttons.ButtonTask.PollA | src/main.c:137-148 | Button A's logic on its own: edge test, flag flip, suspend or resume, mute send, memory update |
| Buttons.ButtonTask.PollB | src/main.c:151-156 | Button B's logic on its own: edge test, toggle send, memory update |
| System.StepPreservesInv | src/main.c:184-189 | Every task turn keeps the queue within capacity, keeps `is_led_suspended` equal to the LED task's suspension, and keeps the LED levels consistent |
| System.RunPreservesInv | src/main.c:184-189 | In every reachable state the queue holds at most 5 commands and at most one LED line is high |
| System.RunAppend | src/main.c:189 | Running two batches of turns equals running them one after the other |
| System.StartBeepingOutcome | src/main.c:151-155 | From startup, a press of B queues one toggle; the buzzer's next iteration starts the beeping and empties the queue; two LED turns leave red held high |
| System.PauseAndMuteOutcome | src/main.c:137-147 | A press of A while beeping queues one mute and suspends the LED with red still high; the suspended LED's turn changes nothing; the buzzer's next iteration goes silent |
| System.ResumeSilentOutcome | src/main.c:137-147 | Releasing and pressing A again resumes the LED at the same statement with the same levels and queues a second mute, after which the buzzer stays silent |
| System.ScenarioOutcome | src/main.c:103-160 | After the whole walk-through the LED is running again at the statement where it was paused, the buzzer is silent and the queue is empty |
| System.Start | src/main.c:174-186 | Startup creates a fresh empty queue and fresh task objects: a silent buzzer, zeroed button memory and an LED task at the top of its loop |
| System.StartAndSchedule | src/main.c:174-189 | Starting the objects and then running any interleaving reaches `Run(Initial, events)`; the objects then hold at most 5 queued commands, at most one high LED line, and `is_led_suspended` equal to the LED task's suspension |
| System.Turn | src/main.c:184-186 | Giving one task object one turn changes the objects exactly as the value model's step for that task |
| System.Schedule | src/main.c:184-189 | Running the task objects in any interleaving produces exactly the state the value model predicts |

## Left out

- PWM setup (`buzzer_pwm_init`): floating-point clock-divider and duty-level arithmetic and SDK calls. The waveform is only on or off here.
- GPIO pin configuration (`leds_init`, `buttons_init`): SDK plumbing. The model assumes the LED lines start low and the buttons are pulled up.
- `stdio_init_all` and the `printf` diagnostics: console output only.
- Real timing, task priorities, preemption and `xTaskCreate`/`vTaskStartScheduler`. Scheduling is an input sequence of turns. Delays are yield points; the LED and buzzer delay durations are recorded but not enforced, and the button poll delay is not represented.
- Preemption inside a turn: a button poll and a buzzer iteration (including its two PWM holds) are each one turn, and an LED turn is one statement of its loop.
- The halt-forever loops when queue creation fails or the scheduler returns: non-terminating error sinks with no logic. `System.Start` assumes creation succeeds.
- The FreeRTOS queue's internal locking: only its bounded FIFO, non-blocking behaviour is modelled.
