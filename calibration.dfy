/** `calibrate`: what a run that follows its steps looks like on the bus, and
    which CAL_ERR bit decides the result. */
module Calibration {

  import opened Results
  import opened Hal
  import opened Registers
  import opened Constants
  import opened Protocol
  import opened Steps

  /** The polling loop read front to back: CTRL2 is read; while the read
      shows CALS set, a 10 ms delay and another read follow. */
  predicate Polling(s: seq<Event>)
    decreases |s|
  {
    && |s| > 0 && s[0] == RegRead(Ctrl2, ReplyAt(s, 0))
    && if Flag(Cals, ReplyAt(s, 0)) then |s| > 2 && s[1] == Delay(10) && Polling(s[2..])
       else |s| == 1
  }

  /** A complete run requests nothing more, so every prefix that still had a
      request due is a proper prefix. */
  lemma Continues(op: Operation, t: seq<Event>, j: nat)
    requires Follows(op, t) && Stopped(t).None?
    requires j <= |t| && Next(op, t[..j]).Some?
    ensures j < |t|
  {
  }

  /** A calibration that the bus did not cut short read CTRL2, wrote it back
      with CALMOD set to the mode and CALS raised, then polled as the loop
      reads; its last event is the poll that saw CALS clear. */
  lemma CalibrationRun(m: CalibrationMode, t: seq<Event>)
    requires Follows(CalibrateOp(m), t) && Stopped(t).None?
    ensures |t| >= 3
    ensures t[0] == RegRead(Ctrl2, ReplyAt(t, 0))
    ensures t[1] == RegWrite(Ctrl2, CalibrationStart(ReplyAt(t, 0), m))
    ensures Polling(t[2..])
    ensures t[|t| - 1] == RegRead(Ctrl2, ReplyAt(t, |t| - 1)) && !Flag(Cals, ReplyAt(t, |t| - 1))
  {
    var op := CalibrateOp(m);
    Continues(op, t, 0);
    Continues(op, t, 1);
    Continues(op, t, 2);
    StepAt(op, t, 0);
    ReadAnswered(t[0], Ctrl2);
    StepAt(op, t, 1);
    PrefixReplies(t, 1, 0);
    PollingFrom(m, t, 2);
  }

  /** From a position where a poll is due, the rest of a complete run is the
      polling loop, ending with a read that saw CALS clear. */
  lemma {:induction false} PollingFrom(m: CalibrationMode, t: seq<Event>, k: nat)
    requires Follows(CalibrateOp(m), t) && Stopped(t).None?
    requires 2 <= k < |t| && Next(CalibrateOp(m), t[..k]) == Some(ReadRequest(Ctrl2))
    ensures Polling(t[k..])
    ensures t[|t| - 1] == RegRead(Ctrl2, ReplyAt(t, |t| - 1)) && !Flag(Cals, ReplyAt(t, |t| - 1))
    decreases |t| - k
  {
    var op := CalibrateOp(m);
    StepAt(op, t, k);
    ReadAnswered(t[k], Ctrl2);
    PrefixReplies(t, k + 1, k);
    assert t[..k + 1][k] == t[k];
    if Flag(Cals, ReplyAt(t, k)) {
      Continues(op, t, k + 1);
      StepAt(op, t, k + 1);
      assert t[k + 1] == Delay(10);
      assert t[..k + 2][k + 1] == t[k + 1];
      Continues(op, t, k + 2);
      PollingFrom(m, t, k + 2);
      assert t[k..][2..] == t[k + 2..];
    } else {
      if k + 1 < |t| {
        StepAt(op, t, k + 1);
        assert false;
      }
      assert t[k..] == [t[k]];
    }
  }

  /** As written, `calibrate` reports the CAL_ERR bit of the CTRL2 value it
      wrote to start the calibration, which is the bit it read before
      starting; no poll is consulted. */
  lemma CalibrateReportsStartValue(m: CalibrationMode, t: seq<Event>)
    requires Follows(CalibrateOp(m), t) && Stopped(t).None?
    ensures t[1].request == WriteRequest(Ctrl2, CalibrationStart(ReplyAt(t, 0), m))
    ensures CalibrateResult(t) == Err(CalibrationError) <==> Flag(CalErr, CalibrationStart(ReplyAt(t, 0), m))
    ensures CalibrateResult(t) == Ok(()) <==> !Flag(CalErr, CalibrationStart(ReplyAt(t, 0), m))
  {
    CalibrationRun(m, t);
    StartKeepsCalErr(ReplyAt(t, 0), m);
  }

  /** The corrected `calibrate` reports the CAL_ERR bit of the poll that saw
      the calibration finished. */
  lemma CheckedReportsFinishedCalibration(m: CalibrationMode, t: seq<Event>)
    requires Follows(CalibrateOp(m), t) && Stopped(t).None?
    ensures var last := ReplyAt(t, |t| - 1);
      && t[|t| - 1] == RegRead(Ctrl2, last) && !Flag(Cals, last)
      && (CalibrateCheckedResult(t) == Err(CalibrationError) <==> Flag(CalErr, last))
      && (CalibrateCheckedResult(t) == Ok(()) <==> !Flag(CalErr, last))
  {
    CalibrationRun(m, t);
  }

  /** Either way, a run the bus cut short reports the bus error. */
  lemma CalibrateBusFailure(m: CalibrationMode, t: seq<Event>)
    requires Follows(CalibrateOp(m), t) && Stopped(t).Some?
    ensures CalibrateResult(t) == Err(I2CError(Stopped(t).value))
    ensures CalibrateCheckedResult(t) == Err(I2CError(Stopped(t).value))
  {
  }

  /** An internal calibration of a chip whose CTRL2 reads 0x00: the start
      write is 0x04 (CALS), and the one poll reads 0x08 (CALS clear, CAL_ERR
      set). */
  function FailedCalibration(): seq<Event> {
    [RegRead(Ctrl2, 0x00), RegWrite(Ctrl2, 0x04), RegRead(Ctrl2, 0x08)]
  }

  /** An internal calibration started while CAL_ERR still showed an earlier
      failure: CTRL2 reads 0x08, the start write is 0x0C, and the one poll
      reads 0x00 (CALS clear, CAL_ERR clear). */
  function StaleFailure(): seq<Event> {
    [RegRead(Ctrl2, 0x08), RegWrite(Ctrl2, 0x0C), RegRead(Ctrl2, 0x00)]
  }

  /** Both traces are complete runs of an internal calibration. */
  lemma {:induction false} ConcreteRunsFollow(t: seq<Event>, start: bv8, done: bv8)
    requires (start, done) in {(0x00, 0x08), (0x08, 0x00)}
    requires t == [RegRead(Ctrl2, start), RegWrite(Ctrl2, start | 0x04), RegRead(Ctrl2, done)]
    ensures Follows(CalibrateOp(Internal), t) && Stopped(t).None?
  {
    var op := CalibrateOp(Internal);
    assert CalibrationStart(start, Internal) == start | 0x04;
    First(op, t[0]);
    assert t[..1] + [t[1]] == t[..2];
    Step(op, t[..1], t[1]);
    assert t[..2] + [t[2]] == t;
    Step(op, t[..2], t[2]);
  }

  /** As written, a calibration the chip reports as failed is returned as
      `Ok`; the corrected version returns `CalibrationError`. */
  lemma MissedCalibrationError()
    ensures Follows(CalibrateOp(Internal), FailedCalibration()) && Stopped(FailedCalibration()).None?
    ensures Flag(CalErr, ReplyAt(FailedCalibration(), 2))
    ensures CalibrateResult(FailedCalibration()) == Ok(())
    ensures CalibrateCheckedResult(FailedCalibration()) == Err(CalibrationError)
  {
    ConcreteRunsFollow(FailedCalibration(), 0x00, 0x08);
  }

  /** As written, a calibration the chip reports as successful is returned as
      `CalibrationError` when CAL_ERR was left set by an earlier one; the
      corrected version returns `Ok`. */
  lemma StaleCalibrationError()
    ensures Follows(CalibrateOp(Internal), StaleFailure()) && Stopped(StaleFailure()).None?
    ensures !Flag(CalErr, ReplyAt(StaleFailure(), 2))
    ensures CalibrateResult(StaleFailure()) == Err(CalibrationError)
    ensures CalibrateCheckedResult(StaleFailure()) == Ok(())
  {
    ConcreteRunsFollow(StaleFailure(), 0x08, 0x00);
  }
}
