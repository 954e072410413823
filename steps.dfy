/** The driver's operations as step-by-step protocols: after the events `t` an
    operation has seen so far, `Next` is the request it makes next, or `None`
    when it has finished. The driver's methods are proved to follow these one
    request at a time; the lemmas here show that a run that follows an
    operation's steps is a run of the operation's script in `Protocol`. */
module Steps {

  import opened Results
  import opened Hal
  import opened Registers
  import opened Constants
  import opened Protocol

  datatype Operation =
    | ResetOp
    | EnableOp(on: bool)
    | AvailableOp
    | ReadOp
    | SetLdoOp(ldo: Ldo)
    | GetLdoOp
    | SetGainOp(gain: Gain)
    | GetGainOp
    | SetRateOp(rate: SampleRate)
    | GetRateOp
    | CalibrateOp(mode: CalibrationMode)
    | RevisionOp
    | TrimOp

  /** The request an operation makes after the events `t`, decided from the
      bytes those events read; `None` once it has nothing more to request. */
  function Next(op: Operation, t: seq<Event>): Option<Request> {
    match op
    case ResetOp => ResetNext(t)
    case EnableOp(on) => if on then PowerUpNext(t) else PowerDownNext(t)
    case AvailableOp => Only(t, ReadRequest(PuCtrl))
    case ReadOp => Only(t, AdcRequest)
    case SetLdoOp(l) => SetLdoNext(l, t)
    case GetLdoOp => GetLdoNext(t)
    case SetGainOp(g) => SetGainNext(g, t)
    case GetGainOp => Only(t, ReadRequest(Ctrl1))
    case SetRateOp(s) => SetRateNext(s, t)
    case GetRateOp => Only(t, ReadRequest(Ctrl2))
    case CalibrateOp(m) => CalibrateNext(m, t)
    case RevisionOp => Only(t, ReadRequest(DeviceRev))
    case TrimOp => TrimNext(t)
  }

  /** An operation of a single request. */
  function Only(t: seq<Event>, q: Request): Option<Request> {
    if |t| == 0 then Some(q) else None
  }

  function ResetNext(t: seq<Event>): Option<Request> {
    var n, raised := |t|, SetFlag(Rr, ReplyAt(t, 0), true);
    if n == 0 || n == 5 then Some(ReadRequest(PuCtrl))
    else if n == 1 then Some(WriteRequest(PuCtrl, raised))
    else if n == 2 then Some(DelayMs(10))
    else if n == 3 then Some(WriteRequest(PuCtrl, SetFlag(Pud, SetFlag(Rr, raised, false), true)))
    else if n == 4 then Some(DelayMs(1))
    else None
  }

  function PowerUpNext(t: seq<Event>): Option<Request> {
    var n, powered := |t|, SetFlag(Pua, SetFlag(Pud, ReplyAt(t, 0), true), true);
    if n == 0 || n == 4 then Some(ReadRequest(PuCtrl))
    else if n == 1 then Some(WriteRequest(PuCtrl, powered))
    else if n == 2 then Some(DelayMs(600))
    else if n == 3 then Some(WriteRequest(PuCtrl, SetFlag(Cs, powered, true)))
    else None
  }

  function PowerDownNext(t: seq<Event>): Option<Request> {
    if |t| == 0 then Some(ReadRequest(PuCtrl))
    else if |t| == 1 then Some(WriteRequest(PuCtrl, SetFlag(Pud, SetFlag(Pua, ReplyAt(t, 0), false), false)))
    else None
  }

  function SetLdoNext(l: Ldo, t: seq<Event>): Option<Request> {
    var n := |t|;
    if n == 0 then Some(ReadRequest(PuCtrl))
    else if n == 1 then Some(WriteRequest(PuCtrl, SetFlag(Avdds, ReplyAt(t, 0), l != External)))
    else if l == External then None
    else if n == 2 then Some(ReadRequest(Ctrl1))
    else if n == 3 then Some(WriteRequest(Ctrl1, Set(Vldo, ReplyAt(t, 2), LdoCode(l))))
    else None
  }

  function GetLdoNext(t: seq<Event>): Option<Request> {
    if |t| == 0 then Some(ReadRequest(PuCtrl))
    else if |t| == 1 && Flag(Avdds, ReplyAt(t, 0)) then Some(ReadRequest(Ctrl1))
    else None
  }

  function SetGainNext(g: Gain, t: seq<Event>): Option<Request> {
    if |t| == 0 then Some(ReadRequest(Ctrl1))
    else if |t| == 1 then Some(WriteRequest(Ctrl1, Set(Gains, ReplyAt(t, 0), GainCode(g))))
    else None
  }

  function SetRateNext(s: SampleRate, t: seq<Event>): Option<Request> {
    if |t| == 0 then Some(ReadRequest(Ctrl2))
    else if |t| == 1 then Some(WriteRequest(Ctrl2, Set(Crs, ReplyAt(t, 0), RateCode(s))))
    else None
  }

  /** Calibration polls CTRL2 after starting it, and after each 10 ms
      delay; a poll that sees CALS set is followed by a delay. */
  function CalibrateNext(m: CalibrationMode, t: seq<Event>): Option<Request> {
    var n := |t|;
    if n == 0 then Some(ReadRequest(Ctrl2))
    else if n == 1 then Some(WriteRequest(Ctrl2, CalibrationStart(ReplyAt(t, 0), m)))
    else if n == 2 || t[n - 1].request.DelayMs? then Some(ReadRequest(Ctrl2))
    else if Flag(Cals, ReplyAt(t, n - 1)) then Some(DelayMs(10))
    else None
  }

  function TrimNext(t: seq<Event>): Option<Request> {
    var n := |t|;
    if n == 0 then Some(ReadRequest(AdcOtpB2))
    else if n == 1 then Some(WriteRequest(AdcOtpB2, ChopperOff(ReplyAt(t, 0))))
    else if n == 2 then Some(ReadRequest(Pga))
    else if n == 3 then Some(WriteRequest(Pga, SetFlag(Ldomode, ReplyAt(t, 2), false)))
    else if n == 4 then Some(ReadRequest(PowerCtrl))
    else if n == 5 then Some(WriteRequest(PowerCtrl, SetFlag(PgaCapEn, ReplyAt(t, 4), true)))
    else None
  }

  /** Every event so far was the operation's next request, answered as the
      transport may answer it, and only the last one may have failed. */
  predicate Partial(op: Operation, t: seq<Event>)
    decreases |t|
  {
    |t| == 0 ||
    (var p, e := t[..|t| - 1], t[|t| - 1];
     && Partial(op, p) && Stopped(p).None?
     && Next(op, p) == Some(e.request) && Fits(e.request, e.outcome))
  }

  /** A whole run: it followed the steps until the bus failed or the
      operation had nothing more to request. */
  predicate Follows(op: Operation, t: seq<Event>) {
    Partial(op, t) && (Stopped(t).Some? || Next(op, t).None?)
  }

  /** Performing the next request extends a partial run. */
  lemma Step(op: Operation, t: seq<Event>, e: Event)
    requires Partial(op, t) && Stopped(t).None?
    requires Next(op, t) == Some(e.request) && Fits(e.request, e.outcome)
    ensures Partial(op, t + [e])
  {
    assert (t + [e])[..|t|] == t;
  }

  /** The first request of an operation, performed, starts a partial run. */
  lemma First(op: Operation, e: Event)
    requires Next(op, []) == Some(e.request) && Fits(e.request, e.outcome)
    ensures Partial(op, [e])
  {
    var p := [e][..0];
    assert p == [] && Partial(op, p) && Stopped(p).None?;
  }

  /** Each event of a partial run was the request due after the events
      before it, and all but the last succeeded. */
  lemma {:induction false} StepAt(op: Operation, t: seq<Event>, i: nat)
    requires Partial(op, t) && i < |t|
    ensures Next(op, t[..i]) == Some(t[i].request) && Fits(t[i].request, t[i].outcome)
    ensures i < |t| - 1 ==> t[i].outcome.Done?
    decreases |t|
  {
    var p := t[..|t| - 1];
    if i < |t| - 1 {
      StepAt(op, p, i);
      assert p[..i] == t[..i];
    }
  }

  /** The replies a prefix has already seen are the run's replies. */
  lemma PrefixReplies(t: seq<Event>, i: nat, j: nat)
    requires j < i <= |t|
    ensures ReplyAt(t[..i], j) == ReplyAt(t, j)
  {
  }

  /** A run that agrees with a script event by event, where every answered
      event is the script's and only the last may have failed, runs the
      script; it is the whole script unless the bus failed. */
  lemma Agrees(t: seq<Event>, s: seq<Event>)
    requires |t| <= |s|
    requires forall i :: 0 <= i < |t| ==> t[i].request == s[i].request
    requires forall i :: 0 <= i < |t| ==> t[i].outcome.Done? ==> t[i] == s[i]
    requires forall i :: 0 <= i < |t| - 1 ==> t[i].outcome.Done?
    requires Stopped(t).None? ==> |t| == |s|
    ensures Runs(t, s)
  {
    if Stopped(t).None? {
      assert t == s;
    } else {
      assert t[..|t| - 1] == s[..|t| - 1];
    }
  }

  /** An answered one-byte register read is the script's read of the byte. */
  lemma ReadAnswered(e: Event, reg: Register)
    requires e.request == ReadRequest(reg) && Fits(e.request, e.outcome) && e.outcome.Done?
    ensures e == RegRead(reg, FirstByte(e.outcome))
  {
    assert e.outcome.reply == [e.outcome.reply[0]];
  }

  // ---------------------------------------------------------------------
  // Each operation's steps perform its script.

  lemma ResetFollowsScript(t: seq<Event>)
    requires Follows(ResetOp, t)
    ensures ResetRun(t)
  {
    var s := ResetScript(ReplyAt(t, 0), ReplyAt(t, 5));
    if |t| > 0 {
      StepAt(ResetOp, t, |t| - 1);
    }
    forall i | 0 <= i < |t|
      ensures t[i].request == s[i].request
      ensures t[i].outcome.Done? ==> t[i] == s[i]
      ensures i < |t| - 1 ==> t[i].outcome.Done?
    {
      ResetStep(t, i);
    }
    Agrees(t, s);
  }

  lemma ResetStep(t: seq<Event>, i: nat)
    requires Partial(ResetOp, t) && i < |t|
    ensures var s := ResetScript(ReplyAt(t, 0), ReplyAt(t, 5));
      && i < |s| && t[i].request == s[i].request
      && (t[i].outcome.Done? ==> t[i] == s[i])
      && (i < |t| - 1 ==> t[i].outcome.Done?)
  {
    StepAt(ResetOp, t, i);
    if i > 0 {
      PrefixReplies(t, i, 0);
    }
    if t[i].outcome.Done? && (i == 0 || i == 5) {
      ReadAnswered(t[i], PuCtrl);
    }
  }

  /** An operation of one register read runs the script of that read. */
  lemma SingleReadFollowsScript(op: Operation, reg: Register, t: seq<Event>)
    requires (op, reg) in {(AvailableOp, PuCtrl), (GetGainOp, Ctrl1), (GetRateOp, Ctrl2), (RevisionOp, DeviceRev)}
    requires Follows(op, t)
    ensures Runs(t, [RegRead(reg, ReplyAt(t, 0))])
  {
    if |t| > 0 {
      StepAt(op, t, |t| - 1);
    }
    assert |t| == 1;
    if t[0].outcome.Done? {
      ReadAnswered(t[0], reg);
    }
  }

  lemma ReadFollowsScript(t: seq<Event>)
    requires Follows(ReadOp, t)
    ensures ReadRun(t)
  {
    if |t| > 0 {
      StepAt(ReadOp, t, |t| - 1);
    }
    assert |t| == 1;
    if t[0].outcome.Done? {
      assert t == [Event(AdcRequest, Done(Burst(t)))];
    }
  }

  lemma EnableFollowsScript(t: seq<Event>, on: bool)
    requires Follows(EnableOp(on), t)
    ensures EnableRun(t, on)
  {
    var s := if on then PowerUpScript(ReplyAt(t, 0), ReplyAt(t, 4)) else PowerDownScript(ReplyAt(t, 0));
    if |t| > 0 {
      StepAt(EnableOp(on), t, |t| - 1);
    }
    forall i | 0 <= i < |t|
      ensures t[i].request == s[i].request
      ensures t[i].outcome.Done? ==> t[i] == s[i]
      ensures i < |t| - 1 ==> t[i].outcome.Done?
    {
      EnableStep(t, on, i);
    }
    Agrees(t, s);
  }

  lemma EnableStep(t: seq<Event>, on: bool, i: nat)
    requires Partial(EnableOp(on), t) && i < |t|
    ensures var s := if on then PowerUpScript(ReplyAt(t, 0), ReplyAt(t, 4)) else PowerDownScript(ReplyAt(t, 0));
      && i < |s| && t[i].request == s[i].request
      && (t[i].outcome.Done? ==> t[i] == s[i])
      && (i < |t| - 1 ==> t[i].outcome.Done?)
  {
    StepAt(EnableOp(on), t, i);
    if i > 0 {
      PrefixReplies(t, i, 0);
    }
    if t[i].outcome.Done? && (i == 0 || i == 4) {
      ReadAnswered(t[i], PuCtrl);
    }
  }

  lemma SetLdoFollowsScript(t: seq<Event>, l: Ldo)
    requires Follows(SetLdoOp(l), t)
    ensures SetLdoRun(t, l)
  {
    var s := SetLdoScript(l, ReplyAt(t, 0), ReplyAt(t, 2));
    if |t| > 0 {
      StepAt(SetLdoOp(l), t, |t| - 1);
    }
    forall i | 0 <= i < |t|
      ensures t[i].request == s[i].request
      ensures t[i].outcome.Done? ==> t[i] == s[i]
      ensures i < |t| - 1 ==> t[i].outcome.Done?
    {
      SetLdoStep(t, l, i);
    }
    Agrees(t, s);
  }

  lemma SetLdoStep(t: seq<Event>, l: Ldo, i: nat)
    requires Partial(SetLdoOp(l), t) && i < |t|
    ensures var s := SetLdoScript(l, ReplyAt(t, 0), ReplyAt(t, 2));
      && i < |s| && t[i].request == s[i].request
      && (t[i].outcome.Done? ==> t[i] == s[i])
      && (i < |t| - 1 ==> t[i].outcome.Done?)
  {
    StepAt(SetLdoOp(l), t, i);
    if i > 0 {
      PrefixReplies(t, i, 0);
    }
    if i > 2 {
      PrefixReplies(t, i, 2);
    }
    if t[i].outcome.Done? && i == 0 {
      ReadAnswered(t[i], PuCtrl);
    }
    if t[i].outcome.Done? && i == 2 {
      ReadAnswered(t[i], Ctrl1);
    }
  }

  lemma GetLdoFollowsScript(t: seq<Event>)
    requires Follows(GetLdoOp, t)
    ensures GetLdoRun(t)
  {
    var s := GetLdoScript(ReplyAt(t, 0), ReplyAt(t, 1));
    if |t| > 0 {
      StepAt(GetLdoOp, t, |t| - 1);
    }
    forall i | 0 <= i < |t|
      ensures t[i].request == s[i].request
      ensures t[i].outcome.Done? ==> t[i] == s[i]
      ensures i < |t| - 1 ==> t[i].outcome.Done?
    {
      GetLdoStep(t, i);
    }
    Agrees(t, s);
  }

  lemma GetLdoStep(t: seq<Event>, i: nat)
    requires Partial(GetLdoOp, t) && i < |t|
    ensures var s := GetLdoScript(ReplyAt(t, 0), ReplyAt(t, 1));
      && i < |s| && t[i].request == s[i].request
      && (t[i].outcome.Done? ==> t[i] == s[i])
      && (i < |t| - 1 ==> t[i].outcome.Done?)
  {
    StepAt(GetLdoOp, t, i);
    if i > 0 {
      PrefixReplies(t, i, 0);
    }
    if t[i].outcome.Done? {
      ReadAnswered(t[i], if i == 0 then PuCtrl else Ctrl1);
    }
  }

  /** `set_gain` and `set_sample_rate` read their control register and write
      it back with the field replaced. */
  lemma SetGainFollowsScript(t: seq<Event>, g: Gain)
    requires Follows(SetGainOp(g), t)
    ensures SetGainRun(t, g)
  {
    var s := SetGainScript(g, ReplyAt(t, 0));
    if |t| > 0 {
      StepAt(SetGainOp(g), t, |t| - 1);
    }
    forall i | 0 <= i < |t|
      ensures t[i].request == s[i].request
      ensures t[i].outcome.Done? ==> t[i] == s[i]
      ensures i < |t| - 1 ==> t[i].outcome.Done?
    {
      StepAt(SetGainOp(g), t, i);
      if i > 0 {
        PrefixReplies(t, i, 0);
      } else if t[i].outcome.Done? {
        ReadAnswered(t[i], Ctrl1);
      }
    }
    Agrees(t, s);
  }

  lemma SetRateFollowsScript(t: seq<Event>, r: SampleRate)
    requires Follows(SetRateOp(r), t)
    ensures SetRateRun(t, r)
  {
    var s := SetRateScript(r, ReplyAt(t, 0));
    if |t| > 0 {
      StepAt(SetRateOp(r), t, |t| - 1);
    }
    forall i | 0 <= i < |t|
      ensures t[i].request == s[i].request
      ensures t[i].outcome.Done? ==> t[i] == s[i]
      ensures i < |t| - 1 ==> t[i].outcome.Done?
    {
      StepAt(SetRateOp(r), t, i);
      if i > 0 {
        PrefixReplies(t, i, 0);
      } else if t[i].outcome.Done? {
        ReadAnswered(t[i], Ctrl2);
      }
    }
    Agrees(t, s);
  }

  lemma TrimFollowsScript(t: seq<Event>)
    requires Follows(TrimOp, t)
    ensures TrimRun(t)
  {
    var s := TrimScript(ReplyAt(t, 0), ReplyAt(t, 2), ReplyAt(t, 4));
    if |t| > 0 {
      StepAt(TrimOp, t, |t| - 1);
    }
    forall i | 0 <= i < |t|
      ensures t[i].request == s[i].request
      ensures t[i].outcome.Done? ==> t[i] == s[i]
      ensures i < |t| - 1 ==> t[i].outcome.Done?
    {
      StepAt(TrimOp, t, i);
      TrimStep(t, i);
    }
    Agrees(t, s);
  }

  lemma TrimStep(t: seq<Event>, i: nat)
    requires i < |t| && Next(TrimOp, t[..i]) == Some(t[i].request) && Fits(t[i].request, t[i].outcome)
    ensures var s := TrimScript(ReplyAt(t, 0), ReplyAt(t, 2), ReplyAt(t, 4));
      && i < |s| && t[i].request == s[i].request
      && (t[i].outcome.Done? ==> t[i] == s[i])
  {
    if i > 0 {
      PrefixReplies(t, i, 0);
    }
    if i == 1 {
      TrimWriteStep(t, i, AdcOtpB2, ChopperOff(ReplyAt(t, 0)));
    } else if i == 3 {
      PrefixReplies(t, i, 2);
      TrimWriteStep(t, i, Pga, SetFlag(Ldomode, ReplyAt(t, 2), false));
    } else if i == 5 {
      PrefixReplies(t, i, 4);
      TrimWriteStep(t, i, PowerCtrl, SetFlag(PgaCapEn, ReplyAt(t, 4), true));
    } else if t[i].outcome.Done? {
      ReadAnswered(t[i], if i == 0 then AdcOtpB2 else if i == 2 then Pga else PowerCtrl);
    }
  }

  lemma TrimWriteStep(t: seq<Event>, i: nat, reg: Register, v: bv8)
    requires i < |t| && t[i].request == WriteRequest(reg, v) && Fits(t[i].request, t[i].outcome)
    ensures t[i].outcome.Done? ==> t[i] == RegWrite(reg, v)
  {
  }
}
