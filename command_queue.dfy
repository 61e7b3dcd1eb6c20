/**
 * The buzzer command queue `xBuzzerQueue`: a FIFO of capacity 5 created by
 * `xQueueCreate(5, ...)`, used only with a zero timeout on both ends.  A send
 * into a full queue fails and the command is lost; a receive from an empty
 * queue yields nothing.
 */
module CommandQueue {
  import opened Commands

  /** Length given to `xQueueCreate` in `main`. */
  const Capacity: nat := 5

  function Min(a: int, b: int): (m: int)
  {
    if a <= b then a else b
  }

  /** Queue contents after `xQueueSend(q, &cmd, 0)`: appended when there is room, dropped when full. */
  function Send(contents: seq<BuzzerCommand>, cmd: BuzzerCommand): (contents': seq<BuzzerCommand>)
  {
    if |contents| < Capacity then contents + [cmd] else contents
  }

  /** Queue contents after sending each of `cmds`, in order, ignoring the results. */
  function SendAll(contents: seq<BuzzerCommand>, cmds: seq<BuzzerCommand>): (contents': seq<BuzzerCommand>)
    decreases |cmds|
  {
    if cmds == [] then contents else SendAll(Send(contents, cmds[0]), cmds[1..])
  }

  /** What a zero-timeout `xQueueReceive` delivers, and what is left in the queue. */
  datatype Received = Received(cmd: Option<BuzzerCommand>, rest: seq<BuzzerCommand>)

  function Receive(contents: seq<BuzzerCommand>): (r: Received)
  {
    if contents == [] then Received(None, []) else Received(Some(contents[0]), contents[1..])
  }

  /** The commands delivered by `n` successive receives, in delivery order. */
  function Drain(contents: seq<BuzzerCommand>, n: nat): (delivered: seq<BuzzerCommand>)
    decreases n
  {
    if n == 0 then []
    else
      match Receive(contents)
      case Received(None, _) => []
      case Received(Some(c), rest) => [c] + Drain(rest, n - 1)
  }

  /**
   * Sending a batch keeps exactly the prefix that fits: commands are appended
   * in order until the queue holds `Capacity` of them, and every later one is
   * dropped.  In particular the queue never exceeds its capacity.
   */
  lemma {:induction false} SendAllKeepsPrefix(contents: seq<BuzzerCommand>, cmds: seq<BuzzerCommand>)
    requires |contents| <= Capacity
    ensures SendAll(contents, cmds) == (contents + cmds)[..Min(|contents| + |cmds|, Capacity)]
    ensures |SendAll(contents, cmds)| <= Capacity
    decreases |cmds|
  {
    if cmds == [] {
      assert contents + cmds == contents;
    } else {
      var next := Send(contents, cmds[0]);
      SendAllKeepsPrefix(next, cmds[1..]);
      if |contents| < Capacity {
        assert next + cmds[1..] == contents + cmds;
      } else {
        assert (next + cmds[1..])[..Capacity] == contents == (contents + cmds)[..Capacity];
      }
    }
  }

  /** A send into a full queue leaves it unchanged. */
  lemma {:induction false} SendToFullDrops(contents: seq<BuzzerCommand>, cmds: seq<BuzzerCommand>)
    requires |contents| == Capacity
    ensures SendAll(contents, cmds) == contents
    decreases |cmds|
  {
    if cmds != [] {
      SendToFullDrops(Send(contents, cmds[0]), cmds[1..]);
    }
  }

  /** Receiving delivers the queued commands front first, until the queue is empty. */
  lemma {:induction false} DrainInOrder(contents: seq<BuzzerCommand>, n: nat)
    ensures Drain(contents, n) == contents[..Min(n, |contents|)]
    decreases n
  {
    if n != 0 && contents != [] {
      DrainInOrder(contents[1..], n - 1);
      assert contents == [contents[0]] + contents[1..];
    }
  }

  /**
   * End to end: commands sent into an empty queue come out in the order they
   * were sent, and only the first `Capacity` of them survive.
   */
  lemma DeliveredInOrder(cmds: seq<BuzzerCommand>, n: nat)
    ensures Drain(SendAll([], cmds), n) == cmds[..Min(n, Min(|cmds|, Capacity))]
  {
    SendAllKeepsPrefix([], cmds);
    assert [] + cmds == cmds;
    var q := SendAll([], cmds);
    DrainInOrder(q, n);
  }

  /**
   * The queue's storage area as FreeRTOS keeps it: a fixed array of
   * `Capacity` slots, the index of the oldest message and the number of
   * messages waiting (`uxMessagesWaiting`).  The slot after the newest
   * message wraps around to the front of the array.  `Contents` is the
   * abstract FIFO, oldest first.
   */
  /** The slot `offset` places after `index`, wrapping around the end of the storage. */
  function Slot(index: nat, offset: nat): (slot: nat)
    requires index < Capacity && offset <= Capacity
    ensures slot < Capacity
    ensures slot == (index + offset) % Capacity
  {
    if index + offset < Capacity then index + offset else index + offset - Capacity
  }

  class BoundedQueue {
    ghost var Contents: seq<BuzzerCommand>

    const storage: array<BuzzerCommand>
    var readIndex: nat
    var waiting: nat

    ghost predicate Valid()
      reads this, storage
    {
      storage.Length == Capacity &&
      readIndex < Capacity && waiting <= Capacity &&
      |Contents| == waiting &&
      forall i :: 0 <= i < waiting ==> Contents[i] == storage[Slot(readIndex, i)]
    }

    /** `xQueueCreate(5, sizeof(buzzer_cmd_t))`: an empty queue. */
    constructor ()
      ensures Valid() && fresh(storage)
      ensures Contents == []
    {
      storage := new BuzzerCommand[Capacity];
      readIndex := 0;
      waiting := 0;
      Contents := [];
    }

    /** `xQueueSend(q, &cmd, 0)`: never blocks; on a full queue the command is dropped. */
    method TrySend(cmd: BuzzerCommand) returns (sent: bool)
      requires Valid()
      modifies this, storage
      ensures Valid()
      ensures sent <==> |old(Contents)| < Capacity
      ensures Contents == Send(old(Contents), cmd)
    {
      if waiting == Capacity {
        return false;
      }
      storage[Slot(readIndex, waiting)] := cmd;
      Contents := Contents + [cmd];
      waiting := waiting + 1;
      sent := true;
    }

    /** `xQueueReceive(q, &cmd, 0)`: never blocks; an empty queue yields `None`. */
    method TryReceive() returns (cmd: Option<BuzzerCommand>)
      requires Valid()
      modifies this
      ensures Valid()
      ensures Received(cmd, Contents) == Receive(old(Contents))
    {
      if waiting == 0 {
        return None;
      }
      cmd := Some(storage[readIndex]);
      Contents := Contents[1..];
      waiting := waiting - 1;
      readIndex := Slot(readIndex, 1);
    }
  }
}
