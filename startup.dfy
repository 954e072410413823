/** `new_with_options`: the sequence of operations that brings the chip up, and
    how construction ends. The first seven calls are `unwrap`ped, so a failure
    there panics; the three trims use `?`, so a failure there is returned. */
module Startup {

  import opened Results
  import opened Hal
  import opened Registers
  import opened Constants
  import opened Protocol
  import opened Steps

  /** How construction ended: the device was returned, `Err` was returned, or
      an `unwrap` panicked on the error shown. */
  datatype Status = Started | Refused(error: Error) | Panicked(error: Error)

  /** The runs of the operations construction performs, in order; a phase
      that was never reached is empty. */
  datatype Phases = Phases(
    reset: seq<Event>,     // reset().unwrap()
    power: seq<Event>,     // enable(true).unwrap()
    revision: seq<Event>,  // read_revision_id().unwrap()
    recheck: seq<Event>,   // the second read_revision_id().unwrap() for the error value
    ldo: seq<Event>,       // set_ldo(ldo).unwrap()
    gain: seq<Event>,      // set_gain(gain).unwrap()
    rate: seq<Event>,      // set_sample_rate(sample_rate).unwrap()
    trims: seq<Event>)     // the three read-modify-writes, each with `?`

  /** Everything on the bus after `before`, phase after phase. */
  function Timeline(before: seq<Event>, p: Phases): seq<Event> {
    before + p.reset + p.power + p.revision + p.recheck + p.ldo + p.gain + p.rate + p.trims
  }

  /** The phases from the `k`-th on (counting `reset` as 0) never ran. */
  predicate SilentFrom(p: Phases, k: nat) {
    && (k <= 1 ==> p.power == [])
    && (k <= 2 ==> p.revision == [])
    && (k <= 3 ==> p.recheck == [])
    && (k <= 4 ==> p.ldo == [])
    && (k <= 5 ==> p.gain == [])
    && (k <= 6 ==> p.rate == [])
    && (k <= 7 ==> p.trims == [])
  }

  /** The run of `new_with_options(ldo, gain, sample_rate)` and its outcome. */
  predicate InitRun(p: Phases, l: Ldo, g: Gain, s: SampleRate, st: Status) {
    && Follows(ResetOp, p.reset)
    && match ResetResult(p.reset)
       case Err(e) => st == Panicked(e) && SilentFrom(p, 1)
       case Ok(_) => PoweredUp(p, l, g, s, st)
  }

  predicate PoweredUp(p: Phases, l: Ldo, g: Gain, s: SampleRate, st: Status) {
    && Follows(EnableOp(true), p.power)
    && match EnableResult(p.power, true)
       case Err(e) => st == Panicked(e) && SilentFrom(p, 2)
       case Ok(_) => RevisionChecked(p, l, g, s, st)
  }

  /** A revision other than 0xF is read a second time for the error value. */
  predicate RevisionChecked(p: Phases, l: Ldo, g: Gain, s: SampleRate, st: Status) {
    && Follows(RevisionOp, p.revision)
    && match RevisionResult(p.revision)
       case Err(e) => st == Panicked(e) && SilentFrom(p, 3)
       case Ok(id) =>
         if id != 0xF then
           && Follows(RevisionOp, p.recheck) && SilentFrom(p, 4)
           && st == match RevisionResult(p.recheck)
                    case Err(e) => Panicked(e)
                    case Ok(again) => Refused(InvalidRevisionId(again))
         else p.recheck == [] && Configured(p, l, g, s, st)
  }

  predicate Configured(p: Phases, l: Ldo, g: Gain, s: SampleRate, st: Status) {
    && Follows(SetLdoOp(l), p.ldo)
    && match Stopped(p.ldo)
       case Some(k) => st == Panicked(I2CError(k)) && SilentFrom(p, 5)
       case None =>
         && Follows(SetGainOp(g), p.gain)
         && match Stopped(p.gain)
            case Some(k) => st == Panicked(I2CError(k)) && SilentFrom(p, 6)
            case None =>
              && Follows(SetRateOp(s), p.rate)
              && match Stopped(p.rate)
                 case Some(k) => st == Panicked(I2CError(k)) && SilentFrom(p, 7)
                 case None => Trimmed(p, st)
  }

  predicate Trimmed(p: Phases, st: Status) {
    && Follows(TrimOp, p.trims)
    && st == match Stopped(p.trims)
             case Some(k) => Refused(I2CError(k))
             case None => Started
  }

  /** A device that was returned went through every step in full: the reset
      and the power-up each saw PUR, the revision was 0xF and read once, and
      the configuration and the trims wrote what their scripts say. */
  lemma StartedRuns(p: Phases, l: Ldo, g: Gain, s: SampleRate)
    requires InitRun(p, l, g, s, Started)
    ensures p.reset == ResetScript(ReplyAt(p.reset, 0), ReplyAt(p.reset, 5)) && Flag(Pur, ReplyAt(p.reset, 5))
    ensures p.power == PowerUpScript(ReplyAt(p.power, 0), ReplyAt(p.power, 4)) && Flag(Pur, ReplyAt(p.power, 4))
    ensures p.revision == [RegRead(DeviceRev, ReplyAt(p.revision, 0))] && Get(RevisionId, ReplyAt(p.revision, 0)) == 0xF
    ensures p.recheck == []
    ensures ConfigurationWritten(p, l, g, s)
  {
    ResetFollowsScript(p.reset);
    CompleteRun(p.reset, ResetScript(ReplyAt(p.reset, 0), ReplyAt(p.reset, 5)));
    EnableFollowsScript(p.power, true);
    CompleteRun(p.power, PowerUpScript(ReplyAt(p.power, 0), ReplyAt(p.power, 4)));
    SingleReadFollowsScript(RevisionOp, DeviceRev, p.revision);
    Reached(p, l, g, s, Started);
    ConfiguredWritten(p, l, g, s);
  }

  /** The LDO, gain, rate and trim phases each ran their whole script. */
  predicate ConfigurationWritten(p: Phases, l: Ldo, g: Gain, s: SampleRate) {
    && p.ldo == SetLdoScript(l, ReplyAt(p.ldo, 0), ReplyAt(p.ldo, 2))
    && p.gain == SetGainScript(g, ReplyAt(p.gain, 0))
    && p.rate == SetRateScript(s, ReplyAt(p.rate, 0))
    && p.trims == TrimScript(ReplyAt(p.trims, 0), ReplyAt(p.trims, 2), ReplyAt(p.trims, 4))
  }

  lemma ConfiguredWritten(p: Phases, l: Ldo, g: Gain, s: SampleRate)
    requires Configured(p, l, g, s, Started)
    ensures ConfigurationWritten(p, l, g, s)
  {
    SetLdoFollowsScript(p.ldo, l);
    CompleteRun(p.ldo, SetLdoScript(l, ReplyAt(p.ldo, 0), ReplyAt(p.ldo, 2)));
    SetGainFollowsScript(p.gain, g);
    CompleteRun(p.gain, SetGainScript(g, ReplyAt(p.gain, 0)));
    SetRateFollowsScript(p.rate, s);
    CompleteRun(p.rate, SetRateScript(s, ReplyAt(p.rate, 0)));
    TrimFollowsScript(p.trims);
    CompleteRun(p.trims, TrimScript(ReplyAt(p.trims, 0), ReplyAt(p.trims, 2), ReplyAt(p.trims, 4)));
  }

  /** `InvalidRevisionId` is returned exactly when the first read of
      DEVICE_REV gave a revision other than 0xF; the error carries the second
      read's revision, and nothing is configured. */
  lemma RevisionRefusal(p: Phases, l: Ldo, g: Gain, s: SampleRate, st: Status)
    requires InitRun(p, l, g, s, st)
    ensures st.Refused? && st.error.InvalidRevisionId? <==> p.recheck != [] && Stopped(p.recheck).None?
    ensures p.recheck != [] ==>
      && p.revision == [RegRead(DeviceRev, ReplyAt(p.revision, 0))]
      && Get(RevisionId, ReplyAt(p.revision, 0)) != 0xF
      && SilentFrom(p, 4)
    ensures st.Refused? && st.error.InvalidRevisionId? ==>
      && p.recheck == [RegRead(DeviceRev, ReplyAt(p.recheck, 0))]
      && st.error.id == Get(RevisionId, ReplyAt(p.recheck, 0))
  {
    if ResetResult(p.reset).Ok? && EnableResult(p.power, true).Ok? {
      if RevisionResult(p.revision) == Ok(0xF) {
        AfterRevision(p, l, g, s, st);
        if st.Refused? {
          TrimRefusal(p, l, g, s, st.error);
        }
      } else if RevisionResult(p.revision).Ok? {
        SingleReadFollowsScript(RevisionOp, DeviceRev, p.revision);
        SingleReadFollowsScript(RevisionOp, DeviceRev, p.recheck);
      }
    }
  }

  /** Construction returns `Err` only for a wrong revision or a failed trim;
      in the second case every earlier step completed. */
  lemma RefusalCauses(p: Phases, l: Ldo, g: Gain, s: SampleRate, e: Error)
    requires InitRun(p, l, g, s, Refused(e))
    ensures e.InvalidRevisionId? || e.I2CError?
    ensures e.I2CError? ==>
      && Stopped(p.trims) == Some(e.kind) && p.recheck == []
      && Stopped(p.ldo).None? && Stopped(p.gain).None? && Stopped(p.rate).None?
  {
    PastRevision(p, l, g, s, Refused(e));
    if RevisionResult(p.revision) == Ok(0xF) {
      TrimRefusal(p, l, g, s, e);
    }
  }

  /** A run that did not panic read the revision after a successful reset
      and power-up. */
  lemma PastRevision(p: Phases, l: Ldo, g: Gain, s: SampleRate, st: Status)
    requires InitRun(p, l, g, s, st) && !st.Panicked?
    ensures ResetResult(p.reset).Ok? && EnableResult(p.power, true).Ok? && RevisionResult(p.revision).Ok?
    ensures RevisionChecked(p, l, g, s, st)
  {
  }

  /** After the revision check, `Err` comes only from a failed trim. */
  lemma TrimRefusal(p: Phases, l: Ldo, g: Gain, s: SampleRate, e: Error)
    requires Configured(p, l, g, s, Refused(e))
    ensures e.I2CError? && Stopped(p.trims) == Some(e.kind)
    ensures Stopped(p.ldo).None? && Stopped(p.gain).None? && Stopped(p.rate).None?
  {
  }

  /** A revision of 0xF is read once and leads to the configuration. */
  lemma AfterRevision(p: Phases, l: Ldo, g: Gain, s: SampleRate, st: Status)
    requires InitRun(p, l, g, s, st)
    requires ResetResult(p.reset).Ok? && EnableResult(p.power, true).Ok? && RevisionResult(p.revision) == Ok(0xF)
    ensures p.recheck == [] && Configured(p, l, g, s, st)
  {
  }

  /** A run that ended in `Started` or in a failed trim reached the
      configuration after one revision read of 0xF. */
  lemma Reached(p: Phases, l: Ldo, g: Gain, s: SampleRate, st: Status)
    requires InitRun(p, l, g, s, st)
    requires st.Started? || (st.Refused? && st.error.I2CError?)
    ensures Configured(p, l, g, s, st) && p.recheck == []
    ensures ResetResult(p.reset).Ok? && EnableResult(p.power, true).Ok? && RevisionResult(p.revision) == Ok(0xF)
  {
  }

  /** A panic happens before the trims, and only on a bus failure or on a
      reset or power-up that did not see PUR; a panic is never a wrong
      revision. */
  lemma PanicCauses(p: Phases, l: Ldo, g: Gain, s: SampleRate, e: Error)
    requires InitRun(p, l, g, s, Panicked(e))
    ensures p.trims == []
    ensures e.I2CError? || e.NotReady?
  {
    if ResetResult(p.reset).Ok? && EnableResult(p.power, true).Ok? {
      PanicAfterPowerUp(p, l, g, s, e);
    }
  }

  /** `NotReady` panics come from the reset or the power-up, whose final
      read of PU_CTRL did not see PUR; nothing runs after them. */
  lemma NotReadyPanic(p: Phases, l: Ldo, g: Gain, s: SampleRate)
    requires InitRun(p, l, g, s, Panicked(NotReady))
    ensures
      || (Stopped(p.reset).None? && !Flag(Pur, ReplyAt(p.reset, 5)) && SilentFrom(p, 1))
      || (Stopped(p.power).None? && !Flag(Pur, ReplyAt(p.power, 4)) && SilentFrom(p, 2))
  {
    if ResetResult(p.reset).Ok? && EnableResult(p.power, true).Ok? {
      PanicAfterPowerUp(p, l, g, s, NotReady);
    }
  }

  /** After the power-up only the bus failing panics, before the trims. */
  lemma PanicAfterPowerUp(p: Phases, l: Ldo, g: Gain, s: SampleRate, e: Error)
    requires InitRun(p, l, g, s, Panicked(e))
    requires ResetResult(p.reset).Ok? && EnableResult(p.power, true).Ok?
    ensures e.I2CError? && p.trims == []
  {
    if RevisionResult(p.revision) == Ok(0xF) {
      AfterRevision(p, l, g, s, Panicked(e));
      ConfiguredPanic(p, l, g, s, e);
    }
  }

  /** Only the bus failing panics during configuration, and the trims are
      then never reached. */
  lemma ConfiguredPanic(p: Phases, l: Ldo, g: Gain, s: SampleRate, e: Error)
    requires Configured(p, l, g, s, Panicked(e))
    ensures e.I2CError? && p.trims == []
  {
  }
}
