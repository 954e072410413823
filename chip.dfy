/** A simulated NAU7802 on the other end of the bus: the state the driver's
    I2C and delay handles stand for. The register file answers reads and
    stores writes; what the real chip does on its own (conversions, the
    duration and outcome of a calibration, a failing bus) is fixed in advance
    by the fields `calPolls`, `calFails` and `plan`. */
module Chip {

  import opened Hal
  import opened Registers
  import opened Constants
  import opened Protocol

  /** Which transaction, counted from 0, the bus will fail, and how. */
  datatype FaultPlan = NoFault | FailAt(txn: nat, kind: ErrorKind)

  datatype Bus = Bus(
    regs: seq<bv8>,      // registers 0x00..0x1F
    calPolls: nat,       // polls of CTRL2 that still see CALS set before a calibration finishes
    calFails: bool,      // the CAL_ERR value a finished calibration reports
    plan: FaultPlan,
    txns: nat,           // I2C transactions performed so far
    trace: seq<Event>)   // every request and its outcome, in order
  {
    predicate Valid() {
      |regs| == 32
    }
  }

  function Record(b: Bus, q: Request, o: Outcome): (r: (Bus, Outcome)) {
    (b.(trace := b.trace + [Event(q, o)]), o)
  }

  /** `n` registers from `a` on, as the chip's address pointer advances
      through the 32-byte register file. */
  function Answer(regs: seq<bv8>, a: bv8, n: nat): seq<bv8>
    requires |regs| == 32
  {
    seq(n, i requires 0 <= i < n => regs[(a as int + i) % 32])
  }

  /** CTRL2 once a calibration has finished: CALS clear, CAL_ERR as planned. */
  function Finished(ctrl2: bv8, fails: bool): (r: bv8)
    ensures !Flag(Cals, r) && Flag(CalErr, r) == fails
    ensures r & 0xF3 == ctrl2 & 0xF3
  {
    (ctrl2 & 0xF3) | (if fails then 0x08 else 0x00)
  }

  /** A write of a register address and one value stores the value. */
  function Store(b: Bus, bytes: seq<bv8>): (r: Bus)
    requires b.Valid()
    ensures r.Valid()
    ensures r.calPolls == b.calPolls
  {
    if |bytes| == 2 && bytes[0] < 0x20 then b.(regs := b.regs[bytes[0] as int := bytes[1]]) else b
  }

  /** A read. While a calibration runs, each read of CTRL2 uses up one busy
      poll; the read after the last one finds it finished. */
  function Fetch(b: Bus, a: bv8, n: nat): (r: (Bus, seq<bv8>))
    requires b.Valid()
    ensures r.0.Valid() && |r.1| == n
    ensures r.0.calPolls <= b.calPolls
    ensures a == Address(Ctrl2) && n > 0 && Flag(Cals, r.1[0]) ==> r.0.calPolls < b.calPolls
    ensures r.0.plan == b.plan && r.0.calFails == b.calFails && r.0.txns == b.txns && r.0.trace == b.trace
  {
    if a == Address(Ctrl2) && n > 0 && Flag(Cals, b.regs[2]) then
      if b.calPolls > 0 then (b.(calPolls := b.calPolls - 1), Answer(b.regs, a, n))
      else
        var regs := b.regs[2 := Finished(b.regs[2], b.calFails)];
        (b.(regs := regs), Answer(regs, a, n))
    else (b, Answer(b.regs, a, n))
  }

  /** One request on the bus or the delay provider. A delay is not a
      transaction and cannot fail; a transaction fails when the plan says so,
      and is not acknowledged when it is addressed to another device. */
  function Perform(b: Bus, q: Request): (r: (Bus, Outcome))
    requires b.Valid()
    ensures r.0.Valid() && r.0.trace == b.trace + [Event(q, r.1)] && Fits(q, r.1)
    ensures r.0.plan == b.plan && r.0.calFails == b.calFails
    ensures q.DelayMs? ==> r.0 == b.(trace := r.0.trace)
    ensures q.Write? && r.1.Done? ==> r.0.calPolls == b.calPolls
    ensures r.0.calPolls <= b.calPolls
    ensures q == ReadRequest(Ctrl2) && r.1.Done? && Flag(Cals, FirstByte(r.1)) ==> r.0.calPolls < b.calPolls
  {
    if q.DelayMs? then Record(b, q, Done([]))
    else
      var next := b.(txns := b.txns + 1);
      if b.plan.FailAt? && b.plan.txn == b.txns then Record(next, q, Fault(b.plan.kind))
      else if q.dev != Nau7802Address then Record(next, q, Fault(NoAcknowledge))
      else if q.Write? then Record(Store(next, q.bytes), q, Done([]))
      else if |q.bytes| == 0 then Record(next, q, Done(Answer(b.regs, 0, q.len)))
      else
        var (after, reply) := Fetch(next, q.bytes[0], q.len);
        Record(after, q, Done(reply))
  }

  /** A register the chip does not change on its own reads back as the value
      last stored in it. */
  lemma ReadAfterWrite(b: Bus, reg: Register, v: bv8)
    requires b.Valid() && reg != Ctrl2
    requires b.plan.NoFault?
    ensures var w := Perform(b, Write(Nau7802Address, [Address(reg), v]));
      && w.1 == Done([])
      && Perform(w.0, ReadRequest(reg)).1 == Done([v])
  {
    AddressesDistinct(reg, Ctrl2);
  }
}
