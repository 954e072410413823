/** What each driver operation puts on the bus, as a function of the bytes the
    chip answers, and the result the operation returns. A run `t` is the list
    of events one call appended; `XRun(t, ..)` says it follows the operation's
    script, cut short at the first failed transaction, and `XResult(t, ..)` is
    the value the call returns. The driver's methods are proved against these;
    the lemmas here state what the scripts mean. */
module Protocol {

  import opened Results
  import opened Hal
  import opened Registers
  import opened Constants

  // ---------------------------------------------------------------------
  // The two primitives: one register read, one register write.

  function ReadRequest(reg: Register): Request {
    WriteRead(Nau7802Address, [Address(reg)], 1)
  }

  function RegRead(reg: Register, v: bv8): Event {
    Event(ReadRequest(reg), Done([v]))
  }

  function WriteRequest(reg: Register, v: bv8): Request {
    Write(Nau7802Address, [Address(reg), v])
  }

  function RegWrite(reg: Register, v: bv8): Event {
    Event(WriteRequest(reg, v), Done([]))
  }

  function Delay(ms: nat): Event {
    Event(DelayMs(ms), Done([]))
  }

  /** Every `?`: a run cut short by the bus returns the bus's error instead
      of what the operation would have returned. */
  function Propagate<T>(t: seq<Event>, r: Result<T, Error>): Result<T, Error>
  {
    match Stopped(t)
    case Some(k) => Err(I2CError(k))
    case None => r
  }

  /** A decoder's failure is `InvalidData`. */
  function Decoded<T>(o: Option<T>): Result<T, Error>
  {
    match o
    case Some(x) => Ok(x)
    case None => Err(InvalidData)
  }

  /** A run that was not cut short is the whole script. */
  lemma CompleteRun(t: seq<Event>, s: seq<Event>)
    requires Runs(t, s) && Stopped(t).None?
    ensures t == s
  {
  }

  // ---------------------------------------------------------------------
  // reset

  function ResetScript(pu: bv8, ready: bv8): seq<Event> {
    var raised := SetFlag(Rr, pu, true);
    var released := SetFlag(Pud, SetFlag(Rr, raised, false), true);
    [RegRead(PuCtrl, pu), RegWrite(PuCtrl, raised), Delay(10),
     RegWrite(PuCtrl, released), Delay(1), RegRead(PuCtrl, ready)]
  }

  predicate ResetRun(t: seq<Event>) {
    Runs(t, ResetScript(ReplyAt(t, 0), ReplyAt(t, 5)))
  }

  function ResetResult(t: seq<Event>): Result<(), Error> {
    Propagate(t, if Flag(Pur, ReplyAt(t, 5)) then Ok(()) else Err(NotReady))
  }

  /** Reset raises RR, waits 10 ms, then in ONE write drops RR and raises PUD,
      waits 1 ms, and fails exactly when PUR (bit 3) of the readback is clear. */
  lemma ResetSequence(t: seq<Event>)
    requires ResetRun(t) && Stopped(t).None?
    ensures var pu := ReplyAt(t, 0);
      && t[1] == RegWrite(PuCtrl, pu | 0x01)
      && t[2] == Delay(10)
      && t[3] == RegWrite(PuCtrl, (pu & 0xFE) | 0x02)
      && t[4] == Delay(1)
      && (ResetResult(t) == Err(NotReady) <==> ReplyAt(t, 5) & 0x08 == 0)
      && (ResetResult(t).Ok? <==> ReplyAt(t, 5) & 0x08 != 0)
  {
    CompleteRun(t, ResetScript(ReplyAt(t, 0), ReplyAt(t, 5)));
  }

  // ---------------------------------------------------------------------
  // enable

  function PowerUpScript(pu: bv8, ready: bv8): seq<Event> {
    var powered := SetFlag(Pua, SetFlag(Pud, pu, true), true);
    [RegRead(PuCtrl, pu), RegWrite(PuCtrl, powered), Delay(600),
     RegWrite(PuCtrl, SetFlag(Cs, powered, true)), RegRead(PuCtrl, ready)]
  }

  function PowerDownScript(pu: bv8): seq<Event> {
    [RegRead(PuCtrl, pu), RegWrite(PuCtrl, SetFlag(Pud, SetFlag(Pua, pu, false), false))]
  }

  predicate EnableRun(t: seq<Event>, on: bool) {
    if on then Runs(t, PowerUpScript(ReplyAt(t, 0), ReplyAt(t, 4)))
    else Runs(t, PowerDownScript(ReplyAt(t, 0)))
  }

  function EnableResult(t: seq<Event>, on: bool): Result<(), Error> {
    Propagate(t, if on && !Flag(Pur, ReplyAt(t, 4)) then Err(NotReady) else Ok(()))
  }

  /** Power-down clears PUA and PUD in one write and never waits; power-up
      sets both, waits 600 ms, then sets CS, and fails exactly when PUR of the
      readback is clear. */
  lemma EnableSequence(t: seq<Event>, on: bool)
    requires EnableRun(t, on) && Stopped(t).None?
    ensures var pu := ReplyAt(t, 0);
      if on then
        && t[1] == RegWrite(PuCtrl, pu | 0x06)
        && t[2] == Delay(600)
        && t[3] == RegWrite(PuCtrl, pu | 0x16)
        && (EnableResult(t, on) == Err(NotReady) <==> ReplyAt(t, 4) & 0x08 == 0)
        && (EnableResult(t, on).Ok? <==> ReplyAt(t, 4) & 0x08 != 0)
      else
        && t == [RegRead(PuCtrl, pu), RegWrite(PuCtrl, pu & 0xF9)]
        && EnableResult(t, on) == Ok(())
  {
    if on {
      CompleteRun(t, PowerUpScript(ReplyAt(t, 0), ReplyAt(t, 4)));
    } else {
      CompleteRun(t, PowerDownScript(ReplyAt(t, 0)));
    }
  }

  // ---------------------------------------------------------------------
  // available

  predicate AvailableRun(t: seq<Event>) {
    Runs(t, [RegRead(PuCtrl, ReplyAt(t, 0))])
  }

  function AvailableResult(t: seq<Event>): Result<bool, Error> {
    Propagate(t, Ok(Flag(Cr, ReplyAt(t, 0))))
  }

  // ---------------------------------------------------------------------
  // read: one three-byte burst from ADCO_B2, sign-extended from 24 bits

  const AdcRequest: Request := WriteRead(Nau7802Address, [Address(AdcOB2)], 3)

  /** The three bytes the burst read, most significant first. */
  function Burst(t: seq<Event>): (b: seq<bv8>)
    ensures |b| == 3
  {
    if |t| > 0 && t[0].outcome.Done? && |t[0].outcome.reply| == 3 then t[0].outcome.reply
    else [0, 0, 0]
  }

  predicate ReadRun(t: seq<Event>) {
    Runs(t, [Event(AdcRequest, Done(Burst(t)))])
  }

  function ReadResult(t: seq<Event>): Result<int, Error> {
    var b := Burst(t);
    Propagate(t, Ok(AdcValue(b[0], b[1], b[2])))
  }

  /** An `i32` reinterpretation of a 32-bit word. */
  function AsI32(x: bv32): int {
    if x < 0x8000_0000 then x as int else x as int - 0x1_0000_0000
  }

  lemma Assemble(b0: bv8, b1: bv8, b2: bv8)
    ensures (((b0 as bv32) << 16) | ((b1 as bv32) << 8) | (b2 as bv32)) as int
         == b0 as int * 0x1_0000 + b1 as int * 0x100 + b2 as int
  {
  }

  lemma Extend(v: bv32)
    requires v < 0x100_0000
    ensures (v | 0xFF00_0000) as int == v as int + 0xFF00_0000
  {
  }

  /** The conversion result: the three bytes, most significant first, read as
      a 24-bit two's-complement number. */
  function AdcValue(b0: bv8, b1: bv8, b2: bv8): (v: int)
    ensures -0x80_0000 <= v < 0x80_0000
  {
    var hi, mid, lo := b0 as int, b1 as int, b2 as int;
    hi * 0x1_0000 + mid * 0x100 + lo - (if hi >= 0x80 then 0x100_0000 else 0)
  }

  /** The 32-bit word `read` assembles and sign-extends from bit 23 is, as an
      `i32`, the conversion result. */
  lemma SignExtended(b0: bv8, b1: bv8, b2: bv8)
    ensures var raw := ((b0 as bv32) << 16) | ((b1 as bv32) << 8) | (b2 as bv32);
      AsI32(if raw & 0x80_0000 != 0 then raw | 0xFF00_0000 else raw) == AdcValue(b0, b1, b2)
  {
    var raw := ((b0 as bv32) << 16) | ((b1 as bv32) << 8) | (b2 as bv32);
    Assemble(b0, b1, b2);
    TopBit(b0, b1, b2);
    if b0 >= 0x80 {
      Extend(raw);
      Wide(raw | 0xFF00_0000);
    } else {
      Wide(raw);
    }
  }

  /** Bit 23 of the assembled word is bit 7 of the first byte, and nothing
      above bit 23 is set. */
  lemma TopBit(b0: bv8, b1: bv8, b2: bv8)
    ensures var raw := ((b0 as bv32) << 16) | ((b1 as bv32) << 8) | (b2 as bv32);
      raw < 0x100_0000 && ((raw & 0x80_0000 != 0) <==> b0 >= 0x80)
    ensures b0 >= 0x80 <==> b0 as int >= 0x80
  {
  }

  /** `AsI32` on the word's value as a number. */
  lemma Wide(x: bv32)
    ensures AsI32(x) == if x as int < 0x8000_0000 then x as int else x as int - 0x1_0000_0000
  {
  }

  lemma AdcValueExamples()
    ensures AdcValue(0x00, 0x00, 0x01) == 1
    ensures AdcValue(0xFF, 0xFF, 0xFF) == -1
    ensures AdcValue(0x80, 0x00, 0x00) == -0x80_0000
    ensures AdcValue(0x7F, 0xFF, 0xFF) == 0x7F_FFFF
  {
  }

  // ---------------------------------------------------------------------
  // set_ldo / get_ldo

  function SetLdoScript(l: Ldo, pu: bv8, ctrl1: bv8): seq<Event> {
    if l == External then
      [RegRead(PuCtrl, pu), RegWrite(PuCtrl, SetFlag(Avdds, pu, false))]
    else
      [RegRead(PuCtrl, pu), RegWrite(PuCtrl, SetFlag(Avdds, pu, true)),
       RegRead(Ctrl1, ctrl1), RegWrite(Ctrl1, Set(Vldo, ctrl1, LdoCode(l)))]
  }

  predicate SetLdoRun(t: seq<Event>, l: Ldo) {
    Runs(t, SetLdoScript(l, ReplyAt(t, 0), ReplyAt(t, 2)))
  }

  function GetLdoScript(pu: bv8, ctrl1: bv8): seq<Event> {
    [RegRead(PuCtrl, pu)] + if Flag(Avdds, pu) then [RegRead(Ctrl1, ctrl1)] else []
  }

  predicate GetLdoRun(t: seq<Event>) {
    Runs(t, GetLdoScript(ReplyAt(t, 0), ReplyAt(t, 1)))
  }

  function GetLdoResult(t: seq<Event>): Result<Ldo, Error> {
    Propagate(t,
      if !Flag(Avdds, ReplyAt(t, 0)) then Ok(External)
      else Decoded(LdoFromCode(Get(Vldo, ReplyAt(t, 1)))))
  }

  /** `set_ldo(External)` only clears AVDDS (bit 7) and never touches CTRL1;
      an internal level sets AVDDS, then rewrites CTRL1 with the level's code
      in VLDO. */
  lemma SetLdoWrites(t: seq<Event>, l: Ldo)
    requires SetLdoRun(t, l) && Stopped(t).None?
    ensures var pu, ctrl1 := ReplyAt(t, 0), ReplyAt(t, 2);
      if l == External then
        t == [RegRead(PuCtrl, pu), RegWrite(PuCtrl, pu & 0x7F)]
      else
        && |t| == 4
        && t[1] == RegWrite(PuCtrl, pu | 0x80)
        && t[2] == RegRead(Ctrl1, ctrl1)
        && t[3] == RegWrite(Ctrl1, Set(Vldo, ctrl1, LdoCode(l)))
  {
    CompleteRun(t, SetLdoScript(l, ReplyAt(t, 0), ReplyAt(t, 2)));
  }

  /** The level's code lands in bits 5..3 of CTRL1 and reads back; the other
      bits are written back as read. */
  lemma VldoWrite(ctrl1: bv8, l: Ldo)
    requires l != External
    ensures Set(Vldo, ctrl1, LdoCode(l)) == (ctrl1 & 0xC7) | (LdoCode(l) << 3)
    ensures Get(Vldo, Set(Vldo, ctrl1, LdoCode(l))) == LdoCode(l)
  {
    GetAfterSet(Vldo, ctrl1, LdoCode(l));
  }

  /** Every internal level decodes, so `get_ldo` never reports `InvalidData`
      although it has a branch for it. */
  lemma GetLdoNeverInvalid(t: seq<Event>)
    ensures GetLdoResult(t) != Err(InvalidData)
  {
    FieldBounds(ReplyAt(t, 1));
  }

  // ---------------------------------------------------------------------
  // set_gain / get_gain

  function SetGainScript(g: Gain, ctrl1: bv8): seq<Event> {
    [RegRead(Ctrl1, ctrl1), RegWrite(Ctrl1, Set(Gains, ctrl1, GainCode(g)))]
  }

  predicate SetGainRun(t: seq<Event>, g: Gain) {
    Runs(t, SetGainScript(g, ReplyAt(t, 0)))
  }

  predicate GetGainRun(t: seq<Event>) {
    Runs(t, [RegRead(Ctrl1, ReplyAt(t, 0))])
  }

  function GetGainResult(t: seq<Event>): Result<Gain, Error> {
    Propagate(t, Decoded(GainFromCode(Get(Gains, ReplyAt(t, 0)))))
  }

  // ---------------------------------------------------------------------
  // set_sample_rate / get_sample_rate

  function SetRateScript(s: SampleRate, ctrl2: bv8): seq<Event> {
    [RegRead(Ctrl2, ctrl2), RegWrite(Ctrl2, Set(Crs, ctrl2, RateCode(s)))]
  }

  predicate SetRateRun(t: seq<Event>, s: SampleRate) {
    Runs(t, SetRateScript(s, ReplyAt(t, 0)))
  }

  predicate GetRateRun(t: seq<Event>) {
    Runs(t, [RegRead(Ctrl2, ReplyAt(t, 0))])
  }

  function GetRateResult(t: seq<Event>): Result<SampleRate, Error> {
    Propagate(t, Decoded(RateFromCode(Get(Crs, ReplyAt(t, 0)))))
  }

  /** The setters write only their own field: gains is bits 2..0 of CTRL1,
      CRS bits 6..4 of CTRL2. */
  lemma SettersTouchOnlyTheirField(g: Gain, s: SampleRate, ctrl1: bv8, ctrl2: bv8)
    ensures Set(Gains, ctrl1, GainCode(g)) & 0xF8 == ctrl1 & 0xF8
    ensures Set(Crs, ctrl2, RateCode(s)) & 0x8F == ctrl2 & 0x8F
  {
  }

  /** CRS codes 4, 5 and 6 are reserved: `get_sample_rate` reports
      `InvalidData` for them and decodes every other code. */
  lemma ReservedRateCodes(t: seq<Event>)
    requires GetRateRun(t) && Stopped(t).None?
    ensures GetRateResult(t) == Err(InvalidData) <==> 4 <= Get(Crs, ReplyAt(t, 0)) <= 6
  {
    FieldBounds(ReplyAt(t, 0));
  }

  // ---------------------------------------------------------------------
  // Round trips on a chip that shows each configuration field, when read, as
  // it was last written. Only that field is constrained: the status bits the
  // chip sets by itself (PUR, CR, CALS, CAL_ERR) may read as anything.

  predicate WritesTo(e: Event, reg: Register) {
    && e.outcome.Done? && e.request.Write? && e.request.dev == Nau7802Address
    && |e.request.bytes| == 2 && e.request.bytes[0] == Address(reg)
  }

  /** The value the run last wrote to the register, if any. */
  function LastWrite(t: seq<Event>, reg: Register): Option<bv8> {
    if |t| == 0 then None
    else if WritesTo(t[|t| - 1], reg) then Some(t[|t| - 1].request.bytes[1])
    else LastWrite(t[..|t| - 1], reg)
  }

  /** Every successful read of the field's register shows the field as it
      was last written. */
  ghost predicate Retains(t: seq<Event>, f: Field) {
    forall i :: 0 <= i < |t| ==> ReadsBack(t[..i], t[i], f)
  }

  predicate ReadsBack(history: seq<Event>, e: Event, f: Field) {
    (e.request == ReadRequest(Layout(f)) && e.outcome.Done? && LastWrite(history, Layout(f)).Some?) ==>
      Get(f, FirstByte(e.outcome)) == Get(f, LastWrite(history, Layout(f)).value)
  }

  lemma GainRoundTrip(t1: seq<Event>, t2: seq<Event>, g: Gain)
    requires SetGainRun(t1, g) && Stopped(t1).None?
    requires GetGainRun(t2) && Stopped(t2).None?
    requires Retains(t1 + t2, Gains)
    ensures GetGainResult(t2) == Ok(g)
  {
    var ctrl1 := ReplyAt(t1, 0);
    CompleteRun(t1, SetGainScript(g, ctrl1));
    CompleteRun(t2, [RegRead(Ctrl1, ReplyAt(t2, 0))]);
    var t := t1 + t2;
    assert t[..2] == t1;
    assert ReadsBack(t[..2], t[2], Gains);
    assert LastWrite(t1, Ctrl1) == Some(Set(Gains, ctrl1, GainCode(g)));
    GetAfterSet(Gains, ctrl1, GainCode(g));
    GainCodes(g);
  }

  lemma RateRoundTrip(t1: seq<Event>, t2: seq<Event>, s: SampleRate)
    requires SetRateRun(t1, s) && Stopped(t1).None?
    requires GetRateRun(t2) && Stopped(t2).None?
    requires Retains(t1 + t2, Crs)
    ensures GetRateResult(t2) == Ok(s)
  {
    var ctrl2 := ReplyAt(t1, 0);
    CompleteRun(t1, SetRateScript(s, ctrl2));
    CompleteRun(t2, [RegRead(Ctrl2, ReplyAt(t2, 0))]);
    var t := t1 + t2;
    assert t[..2] == t1;
    assert ReadsBack(t[..2], t[2], Crs);
    assert LastWrite(t1, Ctrl2) == Some(Set(Crs, ctrl2, RateCode(s)));
    GetAfterSet(Crs, ctrl2, RateCode(s));
    RateCodes(s);
  }

  /** `get_ldo` after `set_ldo(l)` reports `l`, for `External` and for every
      internal level, although `External` is only inferred from AVDDS. */
  lemma LdoRoundTrip(t1: seq<Event>, t2: seq<Event>, l: Ldo)
    requires SetLdoRun(t1, l) && Stopped(t1).None?
    requires GetLdoRun(t2) && Stopped(t2).None?
    requires Retains(t1 + t2, Avdds) && Retains(t1 + t2, Vldo)
    ensures GetLdoResult(t2) == Ok(l)
  {
    var pu, ctrl1, pu2, ctrl1' := ReplyAt(t1, 0), ReplyAt(t1, 2), ReplyAt(t2, 0), ReplyAt(t2, 1);
    CompleteRun(t1, SetLdoScript(l, pu, ctrl1));
    CompleteRun(t2, GetLdoScript(pu2, ctrl1'));
    var t := t1 + t2;
    assert t[..|t1|] == t1 && t[|t1|] == RegRead(PuCtrl, pu2);
    assert ReadsBack(t[..|t1|], t[|t1|], Avdds);
    AvddsReadBack(t1, l, pu, ctrl1, pu2);
    if l != External {
      assert t[..|t1| + 1] == t1 + [t2[0]] && t[|t1| + 1] == RegRead(Ctrl1, ctrl1');
      assert ReadsBack(t[..|t1| + 1], t[|t1| + 1], Vldo);
      VldoReadBack(t1, t2[0], l, pu, ctrl1, ctrl1');
      LdoCodes(l);
    }
  }

  /** The PU_CTRL that `get_ldo` reads holds AVDDS as `set_ldo` left it. */
  lemma AvddsReadBack(t1: seq<Event>, l: Ldo, pu: bv8, ctrl1: bv8, pu2: bv8)
    requires t1 == SetLdoScript(l, pu, ctrl1)
    requires ReadsBack(t1, RegRead(PuCtrl, pu2), Avdds)
    ensures Flag(Avdds, pu2) == (l != External)
  {
    var w := SetFlag(Avdds, pu, l != External);
    if l == External {
      assert LastWrite(t1, PuCtrl) == Some(w);
    } else {
      assert LastWrite(t1[..3], PuCtrl) == Some(w);
    }
    assert Get(Avdds, pu2) == Get(Avdds, w);
    assert Flag(Avdds, pu2) == (Get(Avdds, pu2) == 1) && Flag(Avdds, w) == (Get(Avdds, w) == 1);
    SetFlagSets(Avdds, pu, l != External);
  }

  /** The CTRL1 that `get_ldo` reads holds VLDO as `set_ldo` wrote it. */
  lemma VldoReadBack(t1: seq<Event>, e: Event, l: Ldo, pu: bv8, ctrl1: bv8, ctrl1': bv8)
    requires l != External && e.request == ReadRequest(PuCtrl)
    requires t1 == SetLdoScript(l, pu, ctrl1)
    requires ReadsBack(t1 + [e], RegRead(Ctrl1, ctrl1'), Vldo)
    ensures Get(Vldo, ctrl1') == LdoCode(l)
  {
    assert LastWrite(t1 + [e], Ctrl1) == LastWrite(t1, Ctrl1);
    VldoWrite(ctrl1, l);
  }

  // ---------------------------------------------------------------------
  // calibrate

  /** CTRL2 with the mode's code in CALMOD and CALS raised. */
  function CalibrationStart(ctrl2: bv8, m: CalibrationMode): bv8 {
    SetFlag(Cals, Set(Calmod, ctrl2, CalibrationCode(m)), true)
  }

  /** As written: CAL_ERR is taken from the CTRL2 value the driver wrote to
      start the calibration, which carries the CAL_ERR read before it
      (`StartKeepsCalErr`). */
  function CalibrateResult(t: seq<Event>): Result<(), Error> {
    Propagate(t, if Flag(CalErr, ReplyAt(t, 0)) then Err(CalibrationError) else Ok(()))
  }

  /** As intended: CAL_ERR is taken from the final poll, the read that saw the
      calibration finished. */
  function CalibrateCheckedResult(t: seq<Event>): Result<(), Error> {
    Propagate(t, if |t| > 0 && Flag(CalErr, ReplyAt(t, |t| - 1)) then Err(CalibrationError) else Ok(()))
  }

  /** Starting a calibration leaves CAL_ERR as it was read: the flag the
      driver checks is the one from before the calibration. */
  lemma StartKeepsCalErr(ctrl2: bv8, m: CalibrationMode)
    ensures Flag(CalErr, CalibrationStart(ctrl2, m)) == Flag(CalErr, ctrl2)
    ensures Flag(Cals, CalibrationStart(ctrl2, m)) && Get(Calmod, CalibrationStart(ctrl2, m)) == CalibrationCode(m)
  {
    GetAfterSet(Calmod, ctrl2, CalibrationCode(m));
  }

  // ---------------------------------------------------------------------
  // read_revision_id and new_with_options

  predicate RevisionRun(t: seq<Event>) {
    Runs(t, [RegRead(DeviceRev, ReplyAt(t, 0))])
  }

  function RevisionResult(t: seq<Event>): Result<bv8, Error> {
    Propagate(t, Ok(Get(RevisionId, ReplyAt(t, 0))))
  }

  /** The chopper clock is disabled by setting REG_CHPS (bits 5..4 of
      ADC/OTP_B2) to 0b11, one bit at a time. */
  function ChopperOff(adc: bv8): bv8 {
    SetFlag(RegChps1, SetFlag(RegChps0, adc, true), true)
  }

  function TrimScript(adc: bv8, pga: bv8, power: bv8): seq<Event> {
    [RegRead(AdcOtpB2, adc), RegWrite(AdcOtpB2, ChopperOff(adc)),
     RegRead(Pga, pga), RegWrite(Pga, SetFlag(Ldomode, pga, false)),
     RegRead(PowerCtrl, power), RegWrite(PowerCtrl, SetFlag(PgaCapEn, power, true))]
  }

  predicate TrimRun(t: seq<Event>) {
    Runs(t, TrimScript(ReplyAt(t, 0), ReplyAt(t, 2), ReplyAt(t, 4)))
  }

  /** The three fixed trims: 0x15 bits 5..4 set to 0b11, 0x1B bit 6 cleared,
      0x1C bit 7 set, each other bit written back as read. */
  lemma TrimWrites(adc: bv8, pga: bv8, power: bv8)
    ensures TrimScript(adc, pga, power)[1] == Event(Write(0x2A, [0x15, adc | 0x30]), Done([]))
    ensures TrimScript(adc, pga, power)[3] == Event(Write(0x2A, [0x1B, pga & 0xBF]), Done([]))
    ensures TrimScript(adc, pga, power)[5] == Event(Write(0x2A, [0x1C, power | 0x80]), Done([]))
  {
    ChopperOffWrite(adc, pga, power);
    LdoModeWrite(adc, pga, power);
    CapEnableWrite(adc, pga, power);
  }

  lemma ChopperOffWrite(adc: bv8, pga: bv8, power: bv8)
    ensures TrimScript(adc, pga, power)[1] == Event(Write(0x2A, [0x15, adc | 0x30]), Done([]))
  {
  }

  lemma LdoModeWrite(adc: bv8, pga: bv8, power: bv8)
    ensures TrimScript(adc, pga, power)[3] == Event(Write(0x2A, [0x1B, pga & 0xBF]), Done([]))
  {
  }

  lemma CapEnableWrite(adc: bv8, pga: bv8, power: bv8)
    ensures TrimScript(adc, pga, power)[5] == Event(Write(0x2A, [0x1C, power | 0x80]), Done([]))
  {
  }
}
