/** The messages the button task sends to the buzzer task over the command queue. */
module Commands {

  /** `buzzer_cmd_t`: CMD_TOGGLE_BEEP or CMD_MUTE_BEEP, with no payload. */
  datatype BuzzerCommand = ToggleBeep | MuteBeep

  /** The outcome of a non-blocking receive: a command, or nothing this iteration. */
  datatype Option<T> = None | Some(value: T)

  /** Number of occurrences of `c` in `cmds`. */
  function Count(cmds: seq<BuzzerCommand>, c: BuzzerCommand): (n: nat)
  {
    if cmds == [] then 0 else (if cmds[0] == c then 1 else 0) + Count(cmds[1..], c)
  }

  /** Counting distributes over concatenation. */
  lemma {:induction false} CountAppend(a: seq<BuzzerCommand>, b: seq<BuzzerCommand>, c: BuzzerCommand)
    ensures Count(a + b, c) == Count(a, c) + Count(b, c)
  {
    if a != [] {
      assert (a + b)[1..] == a[1..] + b;
      CountAppend(a[1..], b, c);
    } else {
      assert a + b == b;
    }
  }
}
