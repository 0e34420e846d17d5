/**
  The three DAI links of the card (HiFi codec, Bluetooth SCO, SPDIF) and their
  `hw_params` / `hw_free` handlers.

  Each handler is a pure function of the link configuration, the requested
  sample rate, the MCLK the clock utilities currently hold (`set_mclk`) and
  the oracle `hw`; it returns the status code and the calls it made.  The
  clock lock is only recorded (`LockClkRate(true)` / `LockClkRate(false)`):
  what the utilities do with it is not part of this model.
 */
module DaiLinks {
  import opened DriverTypes
  import opened ClockTable

  // ---------------------------------------------------------------------------
  // Clock step: set_rate, the set_mclk fallback, and the lock

  /** The fallback rule: the link gets a clock if set_rate succeeds, or if the
      MCLK already set is a multiple of the link's threshold. */
  predicate ClockAccepted(srate: nat, preferred: int, threshold: int, setMclk: int, hw: Hw)
    requires threshold != 0
  {
    hw(SetRate(srate, preferred)) >= 0 || setMclk % threshold == 0
  }

  /** The clock a link runs from once its clock step is accepted. */
  function AdoptedClock(srate: nat, preferred: int, setMclk: int, hw: Hw): int
  {
    if hw(SetRate(srate, preferred)) >= 0 then preferred else setMclk
  }

  /** Outcome of the clock step: status, adopted MCLK and the calls made. */
  datatype ClockResult = ClockResult(status: int, mclk: int, trace: seq<Call>)

  /** set_rate with the preferred clock; on failure reuse `setMclk` when it is
      a multiple of `threshold`, otherwise give up without locking. */
  function ClockStep(srate: nat, preferred: int, threshold: int, setMclk: int, hw: Hw): (c: ClockResult)
    requires threshold != 0
    ensures c.status == 0 <==> ClockAccepted(srate, preferred, threshold, setMclk, hw)
    ensures c.status == 0 ==>
              && c.trace == [SetRate(srate, preferred), LockClkRate(true)]
              && c.mclk == AdoptedClock(srate, preferred, setMclk, hw)
              && (c.mclk == preferred || c.mclk % threshold == 0)
    ensures c.status != 0 ==>
              && c.status < 0
              && c.status == hw(SetRate(srate, preferred))
              && c.trace == [SetRate(srate, preferred)]
  {
    var err := hw(SetRate(srate, preferred));
    if err < 0 && setMclk % threshold != 0 then ClockResult(err, preferred, [SetRate(srate, preferred)])
    else
      var mclk := if err < 0 then setMclk else preferred;
      ClockResult(0, mclk, [SetRate(srate, preferred), LockClkRate(true)])
  }

  // ---------------------------------------------------------------------------
  // Framing

  /** The DAI format word: the link's data format plus CBM_CFM when the codec
      is master, CBS_CFS otherwise. */
  function DaiWord(base: DataFormat, codecMaster: bool): (w: DaiFormat)
    ensures w.base == base
    ensures w.clocking == CbmCfm <==> codecMaster
    ensures w.clocking == CbsCfs <==> !codecMaster
  {
    DaiFormat(base, if codecMaster then CbmCfm else CbsCfs)
  }

  /** The format applied to the CPU DAI, then to the codec DAI. */
  function FormatSteps(w: DaiFormat): seq<Call>
  {
    [SetFmt(CpuDai, w), SetFmt(CodecDai, w)]
  }

  /** Both DAIs accept the format word. */
  predicate FramingOk(w: DaiFormat, hw: Hw)
  {
    hw(SetFmt(CpuDai, w)) >= 0 && hw(SetFmt(CodecDai, w)) >= 0
  }

  /** tegra20_das_connect_dac_to_dap, then tegra20_das_connect_dap_to_dac, when
      the build has the Tegra20 DAS; the first failure is returned. */
  function DasConnect(build: Build, dac: DasDac, dap: DasDap, hw: Hw): (o: Outcome)
    ensures !build.tegra20Das ==> o == Outcome(0, [])
    ensures build.tegra20Das ==>
              && 1 <= |o.trace| <= 2
              && o.trace[0] == DasDacToDap(dac, dap)
              && (hw(DasDacToDap(dac, dap)) < 0 ==> o == Outcome(hw(DasDacToDap(dac, dap)), [DasDacToDap(dac, dap)]))
              && (hw(DasDacToDap(dac, dap)) >= 0 ==> o.trace == [DasDacToDap(dac, dap), DasDapToDac(dap, dac)])
              && (hw(DasDacToDap(dac, dap)) >= 0 && hw(DasDapToDac(dap, dac)) < 0 ==> o.status == hw(DasDapToDac(dap, dac)))
    ensures o.status <= 0
    ensures o.status == 0 <==> !build.tegra20Das || (hw(DasDacToDap(dac, dap)) >= 0 && hw(DasDapToDac(dap, dac)) >= 0)
  {
    if !build.tegra20Das then Outcome(0, [])
    else if hw(DasDacToDap(dac, dap)) < 0 then Outcome(hw(DasDacToDap(dac, dap)), [DasDacToDap(dac, dap)])
    else if hw(DasDapToDac(dap, dac)) < 0 then
      Outcome(hw(DasDapToDac(dap, dac)), [DasDacToDap(dac, dap), DasDapToDac(dap, dac)])
    else Outcome(0, [DasDacToDap(dac, dap), DasDapToDac(dap, dac)])
  }

  /** Status and trace of `first` followed by `next`, when `first` succeeded. */
  function Then(first: seq<Call>, next: Outcome): (o: Outcome)
  {
    Outcome(next.status, first + next.trace)
  }

  // ---------------------------------------------------------------------------
  // Codec PLL search (HiFi link, codec master)

  /** Index of the first MCLK in `cs` the codec PLL accepts to synthesise from
      `sysClk`, or |cs| when it accepts none. */
  function FirstAccepted(cs: seq<Hz>, sysClk: int, hw: Hw): (k: nat)
    ensures k <= |cs|
    ensures forall j :: 0 <= j < k ==> hw(SetPll(sysClk, cs[j])) < 0
    ensures k < |cs| ==> hw(SetPll(sysClk, cs[k])) >= 0
  {
    if cs == [] then 0
    else if hw(SetPll(sysClk, cs[0])) >= 0 then 0
    else 1 + FirstAccepted(cs[1..], sysClk, hw)
  }

  /** `a` holds exactly the PLL calls for the first `n` MCLKs of `cs`, in order. */
  predicate PllAttempts(a: seq<Call>, sysClk: int, cs: seq<Hz>, n: nat)
  {
    n <= |cs| && |a| == n && forall j :: 0 <= j < n ==> a[j] == SetPll(sysClk, cs[j])
  }

  /** Number of PLL calls the search makes over `cs`. */
  function AttemptCount(cs: seq<Hz>, sysClk: int, hw: Hw): nat
  {
    var k := FirstAccepted(cs, sysClk, hw);
    if k < |cs| then k + 1 else k
  }

  datatype PllSearch = PllSearch(found: Option<Hz>, attempts: seq<Call>)

  /** The table scan over `rows`: rows of another rate are skipped, the PLL is
      tried on each row of rate `srate` and the scan stops at the first success. */
  function PllSearchIn(rows: seq<Entry>, srate: nat, sysClk: int, hw: Hw): (r: PllSearch)
    ensures var cs := Mclks(rows, srate);
            var k := FirstAccepted(cs, sysClk, hw);
            && (k < |cs| ==> r.found == Some(cs[k]))
            && (k == |cs| ==> r.found == None)
            && PllAttempts(r.attempts, sysClk, cs, AttemptCount(cs, sysClk, hw))
  {
    if rows == [] then PllSearch(None, [])
    else if rows[0].srate != srate then
      assert Mclks(rows, srate) == Mclks(rows[1..], srate);
      PllSearchIn(rows[1..], srate, sysClk, hw)
    else
      var cs := Mclks(rows, srate);
      assert cs[0] == rows[0].mclk && cs[1..] == Mclks(rows[1..], srate);
      if hw(SetPll(sysClk, rows[0].mclk)) >= 0 then
        assert FirstAccepted(cs, sysClk, hw) == 0;
        PllSearch(Some(rows[0].mclk), [SetPll(sysClk, rows[0].mclk)])
      else
        var rest := PllSearchIn(rows[1..], srate, sysClk, hw);
        assert FirstAccepted(cs, sysClk, hw) == 1 + FirstAccepted(cs[1..], sysClk, hw);
        PllSearch(rest.found, [SetPll(sysClk, rows[0].mclk)] + rest.attempts)
  }

  /** Outcome of the PLL stage: status, the codec sysclk to program, the calls made. */
  datatype PllResult = PllResult(status: int, sysClk: int, trace: seq<Call>)

  /** Codec master: search the table for a PLL output, -EINVAL when none works.
      Codec slave: disable the PLL and pass its error on. */
  function CodecPll(codecMaster: bool, srate: nat, sysClk: int, hw: Hw): (p: PllResult)
    ensures p.status <= 0
    ensures codecMaster ==>
              var cs := Candidates(srate);
              var k := FirstAccepted(cs, sysClk, hw);
              && PllAttempts(p.trace, sysClk, cs, AttemptCount(cs, sysClk, hw))
              && (k < |cs| ==> p.status == 0 && p.sysClk == cs[k])
              && (k == |cs| ==> p.status == -EINVAL)
    ensures !codecMaster ==>
              && p.trace == [SetPll(0, 0)]
              && p.sysClk == sysClk
              && (p.status < 0 <==> hw(SetPll(0, 0)) < 0)
              && (p.status < 0 ==> p.status == hw(SetPll(0, 0)))
  {
    if codecMaster then
      var s := PllSearchIn(Table, srate, sysClk, hw);
      match s.found
      case Some(m) => PllResult(0, m, s.attempts)
      case None => PllResult(-EINVAL, sysClk, s.attempts)
    else
      var err := hw(SetPll(0, 0));
      if err < 0 then PllResult(err, sysClk, [SetPll(0, 0)])
      else PllResult(0, sysClk, [SetPll(0, 0)])
  }

  // ---------------------------------------------------------------------------
  // HiFi link

  /** The HiFi link's clock step is accepted. */
  predicate HiFiClockAccepted(srate: nat, setMclk: int, hw: Hw)
  {
    ClockAccepted(srate, InitialSysClk(srate), InitialSysClk(srate), setMclk, hw)
  }

  /** The MCLK the HiFi link holds after its clock step. */
  function HiFiClock(srate: nat, setMclk: int, hw: Hw): int
  {
    AdoptedClock(srate, InitialSysClk(srate), setMclk, hw)
  }

  /** Codec sysclk, then the DAS paths DAC1 <-> DAP1. */
  function HiFiTail(build: Build, sysClk: int, hw: Hw): (o: Outcome)
    ensures o.status <= 0
    ensures |o.trace| >= 1 && o.trace[0] == SetSysclk(CodecDai, sysClk)
    ensures hw(SetSysclk(CodecDai, sysClk)) < 0 ==> o == Outcome(hw(SetSysclk(CodecDai, sysClk)), [SetSysclk(CodecDai, sysClk)])
    ensures hw(SetSysclk(CodecDai, sysClk)) >= 0 ==> o == Then([SetSysclk(CodecDai, sysClk)], DasConnect(build, Dac1, Dap1, hw))
  {
    var err := hw(SetSysclk(CodecDai, sysClk));
    if err < 0 then Outcome(err, [SetSysclk(CodecDai, sysClk)])
    else Then([SetSysclk(CodecDai, sysClk)], DasConnect(build, Dac1, Dap1, hw))
  }

  /** The part of tegra_alc5624_hw_params after the clock lock: framing, codec
      PLL, codec sysclk and DAS, starting from the adopted clock `clk`. */
  function HiFiConfigure(m: Machine, build: Build, srate: nat, clk: int, hw: Hw): (o: Outcome)
    ensures o.status <= 0
    ensures var w := DaiWord(m.hifiCodecFormat, m.hifiCodecMaster);
            && |o.trace| >= 1
            && o.trace[0] == SetFmt(CpuDai, w)
            && (hw(SetFmt(CpuDai, w)) < 0 ==> o == Outcome(hw(SetFmt(CpuDai, w)), [SetFmt(CpuDai, w)]))
            && (hw(SetFmt(CpuDai, w)) >= 0 ==> |o.trace| >= 2 && o.trace[1] == SetFmt(CodecDai, w))
            && (hw(SetFmt(CpuDai, w)) >= 0 && hw(SetFmt(CodecDai, w)) < 0 ==>
                  o == Outcome(hw(SetFmt(CodecDai, w)), FormatSteps(w)))
    ensures FramingOk(DaiWord(m.hifiCodecFormat, m.hifiCodecMaster), hw) ==>
              var w := DaiWord(m.hifiCodecFormat, m.hifiCodecMaster);
              var p := CodecPll(m.hifiCodecMaster, srate, clk, hw);
              && (p.status < 0 ==> o == Outcome(p.status, FormatSteps(w) + p.trace))
              && (p.status == 0 ==> o == Then(FormatSteps(w) + p.trace, HiFiTail(build, p.sysClk, hw)))
  {
    var w := DaiWord(m.hifiCodecFormat, m.hifiCodecMaster);
    if hw(SetFmt(CpuDai, w)) < 0 then Outcome(hw(SetFmt(CpuDai, w)), [SetFmt(CpuDai, w)])
    else if hw(SetFmt(CodecDai, w)) < 0 then Outcome(hw(SetFmt(CodecDai, w)), FormatSteps(w))
    else
      var pll := CodecPll(m.hifiCodecMaster, srate, clk, hw);
      if pll.status < 0 then Outcome(pll.status, FormatSteps(w) + pll.trace)
      else Then(FormatSteps(w) + pll.trace, HiFiTail(build, pll.sysClk, hw))
  }

  /** tegra_alc5624_hw_params. */
  function HiFiHwParams(m: Machine, build: Build, srate: nat, setMclk: int, hw: Hw): (o: Outcome)
    ensures o.status <= 0
    // clock choice: first table row for the rate, 12 MHz when there is none
    ensures |o.trace| > 0 && o.trace[0] == SetRate(srate, InitialSysClk(srate))
    // fallback rule: a refused clock step ends the call before the lock
    ensures !HiFiClockAccepted(srate, setMclk, hw) ==>
              o == Outcome(hw(SetRate(srate, InitialSysClk(srate))), [SetRate(srate, InitialSysClk(srate))])
    // everything after the lock is the configuration stage, from the adopted clock
    ensures HiFiClockAccepted(srate, setMclk, hw) ==>
              o == Then([SetRate(srate, InitialSysClk(srate)), LockClkRate(true)],
                        HiFiConfigure(m, build, srate, HiFiClock(srate, setMclk, hw), hw))
  {
    var preferred := InitialSysClk(srate);
    var clk := ClockStep(srate, preferred, preferred, setMclk, hw);
    if clk.status < 0 then Outcome(clk.status, clk.trace)
    else
      var cfg := HiFiConfigure(m, build, srate, clk.mclk, hw);
      Then(clk.trace, cfg)
  }

  // ---------------------------------------------------------------------------
  // Bluetooth SCO link

  /** The rate-class clock of a supported rate. */
  function ClassClock(srate: nat): (c: Hz)
    requires RateClassClock(srate).Some?
    ensures srate > 0
    ensures c == Clock44k1 <==> srate in Family44k1
    ensures c == Clock48k <==> srate in Family48k
  {
    RateClassClock(srate).value
  }

  /** The Bluetooth link gets past its clock step and takes the lock. */
  predicate BtScoLocks(m: Machine, srate: nat, setMclk: int, hw: Hw)
  {
    FramingOk(DaiWord(m.btCodecFormat, m.btCodecMaster), hw) && BtScoClockAccepted(srate, setMclk, hw)
  }

  /** CPU sysclk, codec sysclk, then the DAS paths DAC2 <-> DAP4. */
  function BtScoTail(build: Build, sysClk: int, hw: Hw): (o: Outcome)
    ensures o.status <= 0
    ensures |o.trace| >= 1 && o.trace[0] == SetSysclk(CpuDai, sysClk)
    ensures hw(SetSysclk(CpuDai, sysClk)) < 0 ==>
              o == Outcome(hw(SetSysclk(CpuDai, sysClk)), [SetSysclk(CpuDai, sysClk)])
    ensures hw(SetSysclk(CpuDai, sysClk)) >= 0 && hw(SetSysclk(CodecDai, sysClk)) < 0 ==>
              o == Outcome(hw(SetSysclk(CodecDai, sysClk)), [SetSysclk(CpuDai, sysClk), SetSysclk(CodecDai, sysClk)])
    ensures hw(SetSysclk(CpuDai, sysClk)) >= 0 && hw(SetSysclk(CodecDai, sysClk)) >= 0 ==>
              o == Then([SetSysclk(CpuDai, sysClk), SetSysclk(CodecDai, sysClk)], DasConnect(build, Dac2, Dap4, hw))
  {
    if hw(SetSysclk(CpuDai, sysClk)) < 0 then
      Outcome(hw(SetSysclk(CpuDai, sysClk)), [SetSysclk(CpuDai, sysClk)])
    else if hw(SetSysclk(CodecDai, sysClk)) < 0 then
      Outcome(hw(SetSysclk(CodecDai, sysClk)), [SetSysclk(CpuDai, sysClk), SetSysclk(CodecDai, sysClk)])
    else Then([SetSysclk(CpuDai, sysClk), SetSysclk(CodecDai, sysClk)], DasConnect(build, Dac2, Dap4, hw))
  }

  /** The Bluetooth clock is accepted for a supported rate (threshold 64 * srate). */
  predicate BtScoClockAccepted(srate: nat, setMclk: int, hw: Hw)
  {
    RateClassClock(srate).Some? && ClockAccepted(srate, ClassClock(srate), 64 * srate, setMclk, hw)
  }

  /** The part of tegra_bt_sco_hw_params after framing: rate class, clock step, sysclks, DAS. */
  function BtScoClocking(build: Build, srate: nat, setMclk: int, hw: Hw): (o: Outcome)
    ensures o.status <= 0
    // a rate outside both classes is -EINVAL, with no clock call at all
    ensures RateClassClock(srate).None? ==> o == Outcome(-EINVAL, [])
    // set_rate with the class clock; fallback threshold 64 * srate
    ensures RateClassClock(srate).Some? ==>
              var rate := SetRate(srate, ClassClock(srate));
              && (!BtScoClockAccepted(srate, setMclk, hw) ==> o == Outcome(hw(rate), [rate]))
              && (BtScoClockAccepted(srate, setMclk, hw) ==>
                    o == Then([rate, LockClkRate(true)],
                              BtScoTail(build, AdoptedClock(srate, ClassClock(srate), setMclk, hw), hw)))
  {
    match RateClassClock(srate)
    case None => Outcome(-EINVAL, [])
    case Some(sysClk) =>
      var clk := ClockStep(srate, sysClk, 64 * srate, setMclk, hw);
      if clk.status < 0 then Outcome(clk.status, clk.trace)
      else
        var tail := BtScoTail(build, clk.mclk, hw);
        Then(clk.trace, tail)
  }

  /** tegra_bt_sco_hw_params. */
  function BtScoHwParams(m: Machine, build: Build, srate: nat, setMclk: int, hw: Hw): (o: Outcome)
    ensures o.status <= 0
    // the format word goes to the CPU DAI, then the codec DAI, before the rate is looked at
    ensures var w := DaiWord(m.btCodecFormat, m.btCodecMaster);
            && |o.trace| >= 1
            && o.trace[0] == SetFmt(CpuDai, w)
            && (hw(SetFmt(CpuDai, w)) < 0 ==> o == Outcome(hw(SetFmt(CpuDai, w)), [SetFmt(CpuDai, w)]))
            && (hw(SetFmt(CpuDai, w)) >= 0 && hw(SetFmt(CodecDai, w)) < 0 ==>
                  o == Outcome(hw(SetFmt(CodecDai, w)), FormatSteps(w)))
            && (FramingOk(w, hw) ==> o == Then(FormatSteps(w), BtScoClocking(build, srate, setMclk, hw)))
  {
    var w := DaiWord(m.btCodecFormat, m.btCodecMaster);
    if hw(SetFmt(CpuDai, w)) < 0 then Outcome(hw(SetFmt(CpuDai, w)), [SetFmt(CpuDai, w)])
    else if hw(SetFmt(CodecDai, w)) < 0 then Outcome(hw(SetFmt(CodecDai, w)), FormatSteps(w))
    else Then(FormatSteps(w), BtScoClocking(build, srate, setMclk, hw))
  }

  // ---------------------------------------------------------------------------
  // SPDIF link

  /** The SPDIF link gets past its clock step and takes the lock. */
  predicate SpdifLocks(srate: nat, setMclk: int, hw: Hw)
  {
    RateClassClock(srate).Some? && ClockAccepted(srate, ClassClock(srate), 128 * srate, setMclk, hw)
  }

  /** tegra_spdif_hw_params. */
  function SpdifHwParams(srate: nat, setMclk: int, hw: Hw): (o: Outcome)
    ensures o.status <= 0
    // only clock calls: SPDIF never sets a DAI format, PLL or sysclk
    ensures forall c :: c in o.trace ==> c.SetRate? || c.LockClkRate?
    ensures o.status == 0 <==> SpdifLocks(srate, setMclk, hw)
    ensures RateClassClock(srate).None? ==> o == Outcome(-EINVAL, [])
    ensures RateClassClock(srate).Some? ==>
              && |o.trace| >= 1
              && o.trace[0] == SetRate(srate, ClassClock(srate))
              && (!SpdifLocks(srate, setMclk, hw) ==> o.status == hw(SetRate(srate, ClassClock(srate))))
    // the exact calls: set_rate, then the lock only when the clock step is accepted
    ensures RateClassClock(srate).Some? ==>
              var rate := SetRate(srate, ClassClock(srate));
              && (SpdifLocks(srate, setMclk, hw) ==> o.trace == [rate, LockClkRate(true)])
              && (!SpdifLocks(srate, setMclk, hw) ==> o == Outcome(hw(rate), [rate]))
  {
    match RateClassClock(srate)
    case None => Outcome(-EINVAL, [])
    case Some(mclk) =>
      var clk := ClockStep(srate, mclk, 128 * srate, setMclk, hw);
      Outcome(clk.status, clk.trace)
  }

  // ---------------------------------------------------------------------------
  // hw_free and the per-link ops tables

  /** tegra_hw_free, shared by the three links: always unlocks, always 0. */
  function HwFree(): (o: Outcome)
    ensures o.status == 0
    ensures forall c :: c in o.trace ==> c == LockClkRate(false)
    ensures Count(o.trace, LockClkRate(false)) == 1
  {
    Outcome(0, [LockClkRate(false)])
  }

  /** The three DAI links of the card. */
  datatype Link = HiFiLink | BtScoLink | SpdifLink

  /** The hw_params entry of each link's snd_soc_ops. */
  function HwParams(link: Link, m: Machine, build: Build, srate: nat, setMclk: int, hw: Hw): Outcome
  {
    match link
    case HiFiLink => HiFiHwParams(m, build, srate, setMclk, hw)
    case BtScoLink => BtScoHwParams(m, build, srate, setMclk, hw)
    case SpdifLink => SpdifHwParams(srate, setMclk, hw)
  }

  /** The link gets past its clock step (and so takes the clock lock). */
  predicate LocksClock(link: Link, m: Machine, srate: nat, setMclk: int, hw: Hw)
  {
    match link
    case HiFiLink => HiFiClockAccepted(srate, setMclk, hw)
    case BtScoLink => BtScoLocks(m, srate, setMclk, hw)
    case SpdifLink => SpdifLocks(srate, setMclk, hw)
  }

  // ---------------------------------------------------------------------------
  // Whole-call traces of hw_params, one lemma per way the call can go

  /** HiFi, PLL stage failed: the clock calls, the two formats, then the PLL calls. */
  lemma HiFiPllFailTrace(m: Machine, build: Build, srate: nat, setMclk: int, hw: Hw)
    requires HiFiClockAccepted(srate, setMclk, hw)
    requires FramingOk(DaiWord(m.hifiCodecFormat, m.hifiCodecMaster), hw)
    requires CodecPll(m.hifiCodecMaster, srate, HiFiClock(srate, setMclk, hw), hw).status < 0
    ensures var p := CodecPll(m.hifiCodecMaster, srate, HiFiClock(srate, setMclk, hw), hw);
            HiFiHwParams(m, build, srate, setMclk, hw) ==
              Outcome(p.status, [SetRate(srate, InitialSysClk(srate)), LockClkRate(true)]
                                + FormatSteps(DaiWord(m.hifiCodecFormat, m.hifiCodecMaster)) + p.trace)
  {
  }

  /** HiFi, PLL stage passed: the clock calls, the two formats, the PLL calls, then the tail. */
  lemma HiFiPllOkTrace(m: Machine, build: Build, srate: nat, setMclk: int, hw: Hw)
    requires HiFiClockAccepted(srate, setMclk, hw)
    requires FramingOk(DaiWord(m.hifiCodecFormat, m.hifiCodecMaster), hw)
    requires CodecPll(m.hifiCodecMaster, srate, HiFiClock(srate, setMclk, hw), hw).status == 0
    ensures var p := CodecPll(m.hifiCodecMaster, srate, HiFiClock(srate, setMclk, hw), hw);
            var t := HiFiTail(build, p.sysClk, hw);
            HiFiHwParams(m, build, srate, setMclk, hw) ==
              Outcome(t.status, [SetRate(srate, InitialSysClk(srate)), LockClkRate(true)]
                                + FormatSteps(DaiWord(m.hifiCodecFormat, m.hifiCodecMaster)) + p.trace + t.trace)
  {
  }

  /** Bluetooth, clock step accepted: the two formats, the clock calls, then the tail. */
  lemma BtScoLockedTrace(m: Machine, build: Build, srate: nat, setMclk: int, hw: Hw)
    requires BtScoLocks(m, srate, setMclk, hw)
    ensures var t := BtScoTail(build, AdoptedClock(srate, ClassClock(srate), setMclk, hw), hw);
            BtScoHwParams(m, build, srate, setMclk, hw) ==
              Outcome(t.status, FormatSteps(DaiWord(m.btCodecFormat, m.btCodecMaster))
                                + [SetRate(srate, ClassClock(srate)), LockClkRate(true)] + t.trace)
  {
  }

  /** Bluetooth, framing passed but the clock step refused: the two formats, then set_rate. */
  lemma BtScoRefusedTrace(m: Machine, build: Build, srate: nat, setMclk: int, hw: Hw)
    requires FramingOk(DaiWord(m.btCodecFormat, m.btCodecMaster), hw)
    requires RateClassClock(srate).Some?
    requires !BtScoClockAccepted(srate, setMclk, hw)
    ensures BtScoHwParams(m, build, srate, setMclk, hw) ==
              Outcome(hw(SetRate(srate, ClassClock(srate))),
                      FormatSteps(DaiWord(m.btCodecFormat, m.btCodecMaster)) + [SetRate(srate, ClassClock(srate))])
  {
  }
}
