/** What the loop tells a protocol about its write side, and what the kernel answers to a write: shared by the TCP and
    the pipe transport. */
module Callbacks {
  import opened Prelude

  datatype WriteResult = Wrote(n: nat) | Interrupted | WouldBlock | Failed

  /** How many bytes the kernel took. */
  function Taken(kernel: WriteResult, size: nat): nat {
    if kernel.Wrote? then Min(kernel.n, size) else 0
  }

  /** How much of `data` the kernel's answer takes; an error or an interruption takes nothing. */
  function TakenOf(data: Bytes, kernel: WriteResult): Bytes {
    match kernel
    case Wrote(n) => if n < |data| then data[..n] else data
    case Interrupted => []
    case WouldBlock => []
    case Failed => []
  }

  datatype Callback = DataReceived(data: Bytes) | EofReceived | PauseWriting | ResumeWriting | ConnectionLost

  /** The callbacks made so far, the latest outermost. */
  datatype History = Start | Then(past: History, last: Callback)

  /** The number of times the protocol was told of the loss. */
  function LostCount(log: History): nat {
    match log
    case Start => 0
    case Then(past, last) => LostCount(past) + (if last.ConnectionLost? then 1 else 0)
  }

  /** The number of times the protocol was told to resume. */
  function ResumeCount(log: History): nat {
    match log
    case Start => 0
    case Then(past, last) => ResumeCount(past) + (if last.ResumeWriting? then 1 else 0)
  }

  /** The number of times the protocol was told to pause. */
  function PauseCount(log: History): nat {
    match log
    case Start => 0
    case Then(past, last) => PauseCount(past) + (if last.PauseWriting? then 1 else 0)
  }

  /** What the protocol was told of the read side, in order. */
  function Heard(log: History): seq<Callback> {
    match log
    case Start => []
    case Then(past, last) => Heard(past) + (if last.DataReceived? || last.EofReceived? then [last] else [])
  }

  /** Whether the latest flow-control callback told the protocol to pause. */
  predicate ToldToPause(log: History) {
    match log
    case Start => false
    case Then(past, last) => last.PauseWriting? || (!last.ResumeWriting? && ToldToPause(past))
  }

  /** `pause_writing` and `resume_writing` strictly alternate, starting with a pause. */
  predicate Alternates(log: History) {
    match log
    case Start => true
    case Then(past, last) =>
      && Alternates(past)
      && (last.PauseWriting? ==> !ToldToPause(past))
      && (last.ResumeWriting? ==> ToldToPause(past))
  }
}
