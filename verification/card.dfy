/**
  The HiFi link's init callback and the card's power-management hooks.

  `Init` registers the headphone jack, hooks it either to the "h2w" switch
  notifier (CONFIG_SWITCH) or to the DAPM pin table, attaches the detect
  GPIO, and then sets the codec's pin defaults.  `SuspendPost` and
  `ResumePre` bracket a system sleep: the jack IRQ and the codec clock go
  down in that order and come back in the opposite one, with a re-poll of
  the detect line in between.
 */
module Card {
  import opened DriverTypes
  import opened Jack

  // ---------------------------------------------------------------------------
  // tegra_alc5624_init

  /** The call that hooks the jack to its consumer in this build. */
  function JackConsumer(build: Build): Call
  {
    if build.switchClass then JackNotifierRegister else JackAddPins
  }

  /** Codec endpoints that are not wired on the board. */
  const UnwiredPins: seq<Pin> := [LineL, LineR, PhoneIn, Mic1, Mono]

  /** Endpoints that start enabled. */
  const DefaultOnPins: seq<Pin> := [InternalSpeaker, InternalMic, HeadphoneJack]

  /** The calls that mark the unwired endpoints as not connected. */
  const NcCalls: seq<Call> :=
    [DapmNcPin(LineL), DapmNcPin(LineR), DapmNcPin(PhoneIn), DapmNcPin(Mic1), DapmNcPin(Mono)]

  /** The calls that turn the default endpoints and the mic bias on, then the DAPM sync. */
  const EnableCalls: seq<Call> :=
    [DapmEnablePin(InternalSpeaker), DapmEnablePin(InternalMic), DapmEnablePin(HeadphoneJack),
     DapmForceEnablePin(MicBias2), DapmSync]

  /** The pin-default calls of the init callback, in order, followed by the DAPM sync. */
  const PinDefaultCalls: seq<Call> := NcCalls + EnableCalls

  /** The calls whose failure ends the init callback; the others are not checked. */
  predicate InitChecked(c: Call)
  {
    c == JackNew || c == JackAddGpios || c == DapmSync
  }

  /** tegra_alc5624_init: returns the first failing checked status, or the sync's. */
  function Init(build: Build, hw: Hw): (o: Outcome)
    ensures o.trace != [] && o.trace[0] == JackNew
    ensures InitChecked(o.trace[|o.trace| - 1]) && o.status == hw(o.trace[|o.trace| - 1])
    ensures o.status == 0 <==> hw(JackNew) == 0 && hw(JackAddGpios) == 0 && hw(DapmSync) == 0
    ensures hw(JackNew) != 0 ==> o.trace == [JackNew]
    ensures hw(JackNew) == 0 ==> |o.trace| >= 3 && o.trace[..3] == [JackNew, JackConsumer(build), JackAddGpios]
    ensures DapmSync in o.trace <==> hw(JackNew) == 0 && hw(JackAddGpios) == 0
    ensures hw(JackNew) == 0 && hw(JackAddGpios) != 0 ==>
              o == Outcome(hw(JackAddGpios), [JackNew, JackConsumer(build), JackAddGpios])
  {
    if hw(JackNew) != 0 then Outcome(hw(JackNew), [JackNew])
    else
      var hooked := [JackNew, JackConsumer(build), JackAddGpios];
      if hw(JackAddGpios) != 0 then Outcome(hw(JackAddGpios), hooked)
      else Outcome(hw(DapmSync), hooked + PinDefaultCalls)
  }

  /** What the driver asks of a DAPM pin. */
  datatype PinRequest = NotConnected | Enabled | ForceEnabled

  /** The request a call makes of pin `p`, if any. */
  function RequestOf(c: Call, p: Pin): Option<PinRequest>
  {
    if c.DapmNcPin? && c.pin == p then Some(NotConnected)
    else if c.DapmEnablePin? && c.pin == p then Some(Enabled)
    else if c.DapmForceEnablePin? && c.pin == p then Some(ForceEnabled)
    else None
  }

  /** `later` if it is a request, else `earlier`: a later request overrides an earlier one. */
  function Override(later: Option<PinRequest>, earlier: Option<PinRequest>): Option<PinRequest>
  {
    if later.Some? then later else earlier
  }

  /** The last request a trace makes of pin `p`, if any. */
  function LastRequest(trace: seq<Call>, p: Pin): Option<PinRequest>
  {
    if trace == [] then None else Override(LastRequest(trace[1..], p), RequestOf(trace[0], p))
  }

  /** The default the board wants for each endpoint: unwired endpoints off,
      speaker, mic and headphone on, and the mic bias forced on. */
  function DefaultRequest(p: Pin): PinRequest
  {
    match p
    case LineL => NotConnected
    case LineR => NotConnected
    case PhoneIn => NotConnected
    case Mic1 => NotConnected
    case Mono => NotConnected
    case InternalSpeaker => Enabled
    case InternalMic => Enabled
    case HeadphoneJack => Enabled
    case MicBias2 => ForceEnabled
  }

  /** The last request of a concatenation comes from its second part if that makes one. */
  lemma {:induction false} LastRequestAppend(a: seq<Call>, b: seq<Call>, p: Pin)
    ensures LastRequest(a + b, p) == Override(LastRequest(b, p), LastRequest(a, p))
  {
    if a == [] {
      assert a + b == b;
    } else {
      assert (a + b)[0] == a[0];
      assert (a + b)[1..] == a[1..] + b;
      LastRequestAppend(a[1..], b, p);
    }
  }

  /** One step of `LastRequest`, for a trace that is not empty. */
  lemma LastRequestStep(t: seq<Call>, k: nat, p: Pin)
    requires k < |t|
    ensures LastRequest(t[k..], p) == Override(LastRequest(t[k + 1..], p), RequestOf(t[k], p))
  {
    assert t[k..][0] == t[k];
    assert t[k..][1..] == t[k + 1..];
  }

  /** The last request in a trace of five calls. */
  lemma LastRequestFive(t: seq<Call>, p: Pin)
    requires |t| == 5
    ensures LastRequest(t, p) == Override(RequestOf(t[4], p), Override(RequestOf(t[3], p),
      Override(RequestOf(t[2], p), Override(RequestOf(t[1], p), RequestOf(t[0], p)))))
  {
    assert t[0..] == t;
    assert t[5..] == [];
    LastRequestStep(t, 4, p);
    LastRequestStep(t, 3, p);
    LastRequestStep(t, 2, p);
    LastRequestStep(t, 1, p);
    LastRequestStep(t, 0, p);
  }

  /** The not-connected calls name exactly the unwired endpoints. */
  lemma NcCallsRequest(nc: seq<Call>, p: Pin)
    requires nc == NcCalls
    ensures LastRequest(nc, p) == if DefaultRequest(p) == NotConnected then Some(NotConnected) else None
  {
    LastRequestFive(nc, p);
    match p
    case LineL =>
    case LineR =>
    case PhoneIn =>
    case Mic1 =>
    case Mono =>
    case InternalSpeaker =>
    case InternalMic =>
    case HeadphoneJack =>
    case MicBias2 =>
  }

  /** The enabling calls name exactly the other endpoints, each with its default. */
  lemma EnableCallsRequest(en: seq<Call>, p: Pin)
    requires en == EnableCalls
    ensures LastRequest(en, p) == if DefaultRequest(p) == NotConnected then None else Some(DefaultRequest(p))
  {
    LastRequestFive(en, p);
    match p
    case LineL =>
    case LineR =>
    case PhoneIn =>
    case Mic1 =>
    case Mono =>
    case InternalSpeaker =>
    case InternalMic =>
    case HeadphoneJack =>
    case MicBias2 =>
  }

  /** The pin-default calls leave every endpoint with its board default. */
  lemma PinDefaultCallsRequestDefaults(t: seq<Call>, p: Pin)
    requires t == PinDefaultCalls
    ensures LastRequest(t, p) == Some(DefaultRequest(p))
  {
    LastRequestAppend(NcCalls, EnableCalls, p);
    NcCallsRequest(NcCalls, p);
    EnableCallsRequest(EnableCalls, p);
  }

  /** The jack calls make no pin request. */
  lemma HookRequestsNothing(h: seq<Call>, build: Build, p: Pin)
    requires h == [JackNew, JackConsumer(build), JackAddGpios]
    ensures LastRequest(h, p) == None
  {
    assert h[1..] == [JackConsumer(build), JackAddGpios];
    assert h[1..][1..] == [JackAddGpios];
    assert h[1..][1..][1..] == [];
    assert LastRequest([JackAddGpios], p) == None;
  }

  /** Once the init callback gets past the jack set-up, every endpoint it
      names is left with the board's default, in either build. */
  lemma InitPinDefaults(build: Build, hw: Hw, p: Pin)
    requires hw(JackNew) == 0 && hw(JackAddGpios) == 0
    ensures LastRequest(Init(build, hw).trace, p) == Some(DefaultRequest(p))
  {
    var h := [JackNew, JackConsumer(build), JackAddGpios];
    assert Init(build, hw).trace == h + PinDefaultCalls;
    LastRequestAppend(h, PinDefaultCalls, p);
    HookRequestsNothing(h, build, p);
    PinDefaultCallsRequestDefaults(PinDefaultCalls, p);
  }

  /** Positions of the first three calls of a trace whose first three calls differ. */
  lemma FirstThreeIndices(t: seq<Call>, a: Call, b: Call, c: Call)
    requires |t| >= 3 && t[0] == a && t[1] == b && t[2] == c
    requires a != b && b != c && a != c
    ensures IndexOf(t, a) == 0 && IndexOf(t, b) == 1 && IndexOf(t, c) == 2
  {
  }

  /** The consumer of jack changes is hooked before the detect GPIO can report one. */
  lemma InitHooksConsumerBeforeGpio(build: Build, hw: Hw)
    requires JackAddGpios in Init(build, hw).trace
    ensures JackConsumer(build) in Init(build, hw).trace
    ensures IndexOf(Init(build, hw).trace, JackNew) < IndexOf(Init(build, hw).trace, JackConsumer(build))
    ensures IndexOf(Init(build, hw).trace, JackConsumer(build)) < IndexOf(Init(build, hw).trace, JackAddGpios)
  {
    var t := Init(build, hw).trace;
    assert hw(JackNew) == 0;
    assert t[..3][1] == t[1];
    FirstThreeIndices(t, JackNew, JackConsumer(build), JackAddGpios);
  }

  /** The pin-default calls are all DAPM calls. */
  lemma PinDefaultCallsAreDapm()
    ensures JackAddPins !in PinDefaultCalls && JackNotifierRegister !in PinDefaultCalls
  {
    assert forall c :: c in PinDefaultCalls ==> c in NcCalls || c in EnableCalls;
  }

  /** Exactly one consumer is hooked, chosen by the build. */
  lemma InitHooksOneConsumer(build: Build, hw: Hw)
    requires hw(JackNew) == 0
    ensures JackAddPins in Init(build, hw).trace <==> !build.switchClass
    ensures JackNotifierRegister in Init(build, hw).trace <==> build.switchClass
  {
    var h := [JackNew, JackConsumer(build), JackAddGpios];
    assert Init(build, hw).trace == h || Init(build, hw).trace == h + PinDefaultCalls;
    PinDefaultCallsAreDapm();
  }

  // ---------------------------------------------------------------------------
  // Suspend and resume

  /** The settling delay at the start of resume, in milliseconds. */
  const ResumeDelayMs: nat := 100

  /** tegra_alc5624_suspend_post: mask the jack IRQ (for a valid GPIO), then stop the codec clock. */
  function SuspendPost(g: JackGpio, gpioIsValid: int -> bool): (o: Outcome)
    ensures o.status == 0
    ensures o.trace != [] && o.trace[|o.trace| - 1] == ClkDisable
    ensures DisableIrq(g.gpio) in o.trace <==> gpioIsValid(g.gpio)
    ensures forall c :: c in o.trace ==> c == ClkDisable || c == DisableIrq(g.gpio)
    ensures gpioIsValid(g.gpio) ==> IndexOf(o.trace, DisableIrq(g.gpio)) < IndexOf(o.trace, ClkDisable)
  {
    if gpioIsValid(g.gpio) then Outcome(0, [DisableIrq(g.gpio), ClkDisable])
    else Outcome(0, [ClkDisable])
  }

  /** The value reported for a GPIO level: `!level` for an inverted descriptor. */
  function ReportedValue(level: int, invert: bool): (v: int)
    ensures !invert ==> v == level
    ensures invert ==> (v == 1 <==> level == 0) && (v == 0 <==> level != 0)
  {
    if invert then (if level == 0 then 1 else 0) else level
  }

  /** The re-poll of the detect line, for a valid GPIO. */
  function Repoll(g: JackGpio, hw: Hw): seq<Call>
  {
    [GpioGetValue(g.gpio),
     JackReport(ReportedValue(hw(GpioGetValue(g.gpio)), g.invert), g.report),
     EnableIrq(g.gpio)]
  }

  /** tegra_alc5624_resume_pre: wait, restart the codec clock, then (for a valid
      GPIO) read the detect line, report it and unmask the jack IRQ. */
  function ResumePre(g: JackGpio, gpioIsValid: int -> bool, hw: Hw): (o: Outcome)
    ensures o.status == 0
    ensures |o.trace| >= 2 && o.trace[..2] == [Msleep(ResumeDelayMs), ClkEnable]
    ensures gpioIsValid(g.gpio) ==> o.trace[2..] == Repoll(g, hw)
    ensures !gpioIsValid(g.gpio) ==> |o.trace| == 2
  {
    Outcome(0, [Msleep(ResumeDelayMs), ClkEnable] + (if gpioIsValid(g.gpio) then Repoll(g, hw) else []))
  }

  /** Resume restarts the clock before touching the GPIO, and reports the
      line's state before it unmasks the IRQ. */
  lemma ResumeOrdering(g: JackGpio, gpioIsValid: int -> bool, hw: Hw)
    requires gpioIsValid(g.gpio)
    ensures var t := ResumePre(g, gpioIsValid, hw).trace;
      IndexOf(t, ClkEnable) < IndexOf(t, GpioGetValue(g.gpio)) < IndexOf(t, EnableIrq(g.gpio)) < |t|
      && t[IndexOf(t, EnableIrq(g.gpio)) - 1].JackReport?
  {
    var t := ResumePre(g, gpioIsValid, hw).trace;
    assert t == [Msleep(ResumeDelayMs), ClkEnable] + Repoll(g, hw);
    assert t[1] == ClkEnable && t[2] == GpioGetValue(g.gpio) && t[4] == EnableIrq(g.gpio);
    assert IndexOf(t, ClkEnable) == 1;
    assert IndexOf(t, GpioGetValue(g.gpio)) == 2;
    assert IndexOf(t, EnableIrq(g.gpio)) == 4;
  }

  /** Without a valid GPIO, resume neither reads the line nor reports. */
  lemma ResumeWithoutGpio(g: JackGpio, gpioIsValid: int -> bool, hw: Hw)
    requires !gpioIsValid(g.gpio)
    ensures forall c :: c in ResumePre(g, gpioIsValid, hw).trace ==> c == Msleep(ResumeDelayMs) || c == ClkEnable
  {
    var t := ResumePre(g, gpioIsValid, hw).trace;
    assert t == [Msleep(ResumeDelayMs), ClkEnable];
  }

  /** Suspend masks the jack IRQ once for a valid GPIO, never otherwise, and stops the clock once. */
  lemma SuspendCounts(g: JackGpio, gpioIsValid: int -> bool)
    ensures Count(SuspendPost(g, gpioIsValid).trace, DisableIrq(g.gpio)) == if gpioIsValid(g.gpio) then 1 else 0
    ensures Count(SuspendPost(g, gpioIsValid).trace, ClkDisable) == 1
  {
    if gpioIsValid(g.gpio) {
      CountTwo(DisableIrq(g.gpio), ClkDisable, DisableIrq(g.gpio));
      CountTwo(DisableIrq(g.gpio), ClkDisable, ClkDisable);
    } else {
      assert [ClkDisable][1..] == [];
    }
  }

  /** Resume unmasks the jack IRQ once for a valid GPIO, never otherwise, and restarts the clock once. */
  lemma ResumeCounts(g: JackGpio, gpioIsValid: int -> bool, hw: Hw)
    ensures Count(ResumePre(g, gpioIsValid, hw).trace, EnableIrq(g.gpio)) == if gpioIsValid(g.gpio) then 1 else 0
    ensures Count(ResumePre(g, gpioIsValid, hw).trace, ClkEnable) == 1
  {
    var head := [Msleep(ResumeDelayMs), ClkEnable];
    var tail := if gpioIsValid(g.gpio) then Repoll(g, hw) else [];
    assert ResumePre(g, gpioIsValid, hw).trace == head + tail;
    CountAppend(head, tail, EnableIrq(g.gpio));
    CountAppend(head, tail, ClkEnable);
    CountTwo(head[0], head[1], EnableIrq(g.gpio));
    CountTwo(head[0], head[1], ClkEnable);
    if gpioIsValid(g.gpio) {
      CountThree(tail[0], tail[1], tail[2], EnableIrq(g.gpio));
      CountThree(tail[0], tail[1], tail[2], ClkEnable);
    }
  }

  /** A sleep cycle leaves the jack IRQ and the codec clock as it found them:
      one enable for each disable. */
  lemma SleepCycleBalanced(g: JackGpio, gpioIsValid: int -> bool, hw: Hw)
    ensures Count(SuspendPost(g, gpioIsValid).trace, DisableIrq(g.gpio))
         == Count(ResumePre(g, gpioIsValid, hw).trace, EnableIrq(g.gpio))
    ensures Count(SuspendPost(g, gpioIsValid).trace, ClkDisable)
         == Count(ResumePre(g, gpioIsValid, hw).trace, ClkEnable)
  {
    SuspendCounts(g, gpioIsValid);
    ResumeCounts(g, gpioIsValid, hw);
  }

  /** The status the resume-time report carries, read through the report mask. */
  function ResumeStatus(g: JackGpio, hw: Hw): set<JackType>
  {
    StatusOf(ReportedValue(hw(GpioGetValue(g.gpio)), g.invert), g.report)
  }

  /** For this driver's descriptor and a line reading 0 or 1, resume reports
      the headphone exactly when the line is high, so the pin table puts the
      output on the headphone and the switch says "headset without mic"
      exactly then. */
  lemma ResumeRoutesOutput(gpioHpDet: int, gpioIsValid: int -> bool, hw: Hw)
    requires gpioIsValid(gpioHpDet)
    requires hw(GpioGetValue(gpioHpDet)) == 0 || hw(GpioGetValue(gpioHpDet)) == 1
    ensures var g := HpJackGpio(gpioHpDet);
      JackReport(hw(GpioGetValue(gpioHpDet)), {Headphone}) in ResumePre(g, gpioIsValid, hw).trace
    ensures var s := ResumeStatus(HpJackGpio(gpioHpDet), hw);
      && (s == {Headphone} <==> hw(GpioGetValue(gpioHpDet)) == 1)
      && TableEnables(JackPins, HeadphoneJack, s) == Some(hw(GpioGetValue(gpioHpDet)) == 1)
      && TableEnables(JackPins, InternalSpeaker, s) == Some(hw(GpioGetValue(gpioHpDet)) == 0)
      && (SwitchState(s) == BitHeadsetNoMic <==> hw(GpioGetValue(gpioHpDet)) == 1)
  {
    var g := HpJackGpio(gpioHpDet);
    var level := hw(GpioGetValue(gpioHpDet));
    assert ResumePre(g, gpioIsValid, hw).trace[3] == JackReport(level, {Headphone});
    HeadphoneStatusOf(level);
    var s := ResumeStatus(g, hw);
    assert s == if level == 1 then {Headphone} else {};
    PinTableRoutesOutput(s);
  }

  /** An inverted descriptor reports the headphone exactly when the line is low. */
  lemma InvertedResumeStatus(g: JackGpio, hw: Hw)
    requires g.invert && g.report == {Headphone}
    ensures Headphone in ResumeStatus(g, hw) <==> hw(GpioGetValue(g.gpio)) == 0
  {
    HeadphoneStatusOf(ReportedValue(hw(GpioGetValue(g.gpio)), g.invert));
  }
}
