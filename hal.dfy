/** The two services the driver owns: an I2C bus (`write`, `write_read`) and a
    millisecond delay provider. Every request is recorded as an `Event` on one
    timeline, so the order of bus transactions and delays can be specified. */
module Hal {

  import Results

  /** The bus's own error classification, carried opaquely by the driver. */
  datatype ErrorKind = Bus | ArbitrationLoss | NoAcknowledge | Overrun | Other

  datatype Request =
    | Write(dev: bv8, bytes: seq<bv8>)               // one `write` transaction
    | WriteRead(dev: bv8, bytes: seq<bv8>, len: nat) // one `write_read` with a `len`-byte buffer
    | DelayMs(ms: nat)                               // block for `ms` milliseconds

  datatype Outcome = Done(reply: seq<bv8>) | Fault(kind: ErrorKind)

  datatype Event = Event(request: Request, outcome: Outcome)

  /** What a well-behaved transport may answer to a request: a read fills
      exactly the buffer it was given, a write returns nothing, and a delay
      never fails. */
  predicate Fits(q: Request, o: Outcome) {
    match q
    case Write(_, _) => o == Done([]) || o.Fault?
    case WriteRead(_, _, n) => o.Done? ==> |o.reply| == n
    case DelayMs(_) => o == Done([])
  }

  /** The bus error a run ended with, if it was cut short by one. */
  function Stopped(t: seq<Event>): Results.Option<ErrorKind>
  {
    if |t| > 0 && t[|t| - 1].outcome.Fault? then Results.Some(t[|t| - 1].outcome.kind) else Results.None
  }

  /** `t` performed the script `s`: either all of it, or a prefix of it whose
      last transaction failed on the bus, after which nothing else happened. */
  predicate Runs(t: seq<Event>, s: seq<Event>) {
    t == s ||
    (0 < |t| <= |s| && t[..|t| - 1] == s[..|t| - 1]
     && t[|t| - 1].request == s[|t| - 1].request && t[|t| - 1].outcome.Fault?)
  }

  /** The first byte a transaction read, or 0 when it read none. */
  function FirstByte(o: Outcome): bv8 {
    if o.Done? && |o.reply| > 0 then o.reply[0] else 0
  }

  /** The first byte a run's `i`-th transaction read, or 0 when there is none. */
  function ReplyAt(t: seq<Event>, i: nat): bv8 {
    if i < |t| then FirstByte(t[i].outcome) else 0
  }

  /** Appending an event to the trace after `before` appends it to the run. */
  lemma Appended(before: seq<Event>, t: seq<Event>, e: Event)
    ensures before + t + [e] == before + (t + [e])
  {
  }
}
