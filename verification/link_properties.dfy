/**
  Properties of the three hw_params handlers and of hw_free, stated over the
  status and call trace each handler returns.
 */
module LinkProperties {
  import opened DriverTypes
  import opened ClockTable
  import opened DaiLinks

  /** The last call of a non-empty trace. */
  function Last(trace: seq<Call>): Call
    requires |trace| > 0
  {
    trace[|trace| - 1]
  }

  /** Calls whose failure a handler tolerates: set_rate (the set_mclk fallback
      follows), a PLL candidate (the search moves on), and the void lock call. */
  predicate Tolerated(c: Call)
  {
    c.SetRate? || c.SetPll? || c.LockClkRate?
  }

  /** The -EINVAL the driver produces by itself: a rate outside both classes
      (Bluetooth, SPDIF) or a codec-master PLL search that found nothing (HiFi). */
  predicate DriverRejects(link: Link, m: Machine, srate: nat, setMclk: int, hw: Hw)
  {
    match link
    case HiFiLink =>
      && m.hifiCodecMaster
      && HiFiClockAccepted(srate, setMclk, hw)
      && FramingOk(DaiWord(m.hifiCodecFormat, m.hifiCodecMaster), hw)
      && FirstAccepted(Candidates(srate), HiFiClock(srate, setMclk, hw), hw) == |Candidates(srate)|
    case BtScoLink =>
      FramingOk(DaiWord(m.btCodecFormat, m.btCodecMaster), hw) && RateClassClock(srate).None?
    case SpdifLink =>
      RateClassClock(srate).None?
  }

  /** The trace holds no lock call. */
  predicate NoLock(s: seq<Call>)
  {
    LockClkRate(true) !in s && LockClkRate(false) !in s
  }

  /** The codec PLL stage makes PLL calls only. */
  lemma CodecPllCallsArePll(codecMaster: bool, srate: nat, sysClk: int, hw: Hw)
    ensures forall c :: c in CodecPll(codecMaster, srate, sysClk, hw).trace ==> c.SetPll?
  {
    var p := CodecPll(codecMaster, srate, sysClk, hw);
    forall c | c in p.trace
      ensures c.SetPll?
    {
      var j :| 0 <= j < |p.trace| && p.trace[j] == c;
    }
  }

  lemma DasConnectNoLock(build: Build, dac: DasDac, dap: DasDap, hw: Hw)
    ensures NoLock(DasConnect(build, dac, dap, hw).trace)
  {
  }

  /** After the lock, the HiFi link makes no further lock call. */
  lemma HiFiConfigureNoLock(m: Machine, build: Build, srate: nat, clk: int, hw: Hw)
    ensures NoLock(HiFiConfigure(m, build, srate, clk, hw).trace)
  {
    var w := DaiWord(m.hifiCodecFormat, m.hifiCodecMaster);
    if FramingOk(w, hw) {
      var p := CodecPll(m.hifiCodecMaster, srate, clk, hw);
      CodecPllCallsArePll(m.hifiCodecMaster, srate, clk, hw);
      assert NoLock(FormatSteps(w) + p.trace);
      if p.status == 0 {
        var t := HiFiTail(build, p.sysClk, hw);
        DasConnectNoLock(build, Dac1, Dap1, hw);
        assert NoLock(t.trace);
        assert NoLock(FormatSteps(w) + p.trace + t.trace);
      }
    }
  }

  /** After the lock, the Bluetooth link makes no further lock call. */
  lemma BtScoTailNoLock(build: Build, sysClk: int, hw: Hw)
    ensures NoLock(BtScoTail(build, sysClk, hw).trace)
  {
    DasConnectNoLock(build, Dac2, Dap4, hw);
  }

  /** The lock calls of a trace that is a clock step followed by lock-free calls. */
  lemma LocksOfClockStep(t: seq<Call>, rate: Call, locked: bool, rest: seq<Call>)
    requires !rate.LockClkRate?
    requires t == (if locked then [rate, LockClkRate(true)] else [rate]) + rest
    requires NoLock(rest)
    ensures Count(t, LockClkRate(false)) == 0
    ensures Count(t, LockClkRate(true)) == if locked then 1 else 0
  {
    var head := if locked then [rate, LockClkRate(true)] else [rate];
    CountAppend(head, rest, LockClkRate(false));
    CountAppend(head, rest, LockClkRate(true));
    CountAbsent(rest, LockClkRate(false));
    CountAbsent(rest, LockClkRate(true));
    assert head[1..] == if locked then [LockClkRate(true)] else [];
    if locked {
      assert head[1..][1..] == [];
    }
  }

  /** tegra_alc5624_hw_params locks once when its clock step is accepted and never unlocks. */
  lemma HiFiLockCount(m: Machine, build: Build, srate: nat, setMclk: int, hw: Hw)
    ensures var o := HiFiHwParams(m, build, srate, setMclk, hw);
            && Count(o.trace, LockClkRate(false)) == 0
            && Count(o.trace, LockClkRate(true)) == if HiFiClockAccepted(srate, setMclk, hw) then 1 else 0
  {
    var o := HiFiHwParams(m, build, srate, setMclk, hw);
    var rate := SetRate(srate, InitialSysClk(srate));
    if HiFiClockAccepted(srate, setMclk, hw) {
      var cfg := HiFiConfigure(m, build, srate, HiFiClock(srate, setMclk, hw), hw);
      HiFiConfigureNoLock(m, build, srate, HiFiClock(srate, setMclk, hw), hw);
      LocksOfClockStep(o.trace, rate, true, cfg.trace);
    } else {
      LocksOfClockStep(o.trace, rate, false, []);
    }
  }

  /** The Bluetooth clock stage locks once when its clock step is accepted and never unlocks. */
  lemma BtScoClockingLockCount(build: Build, srate: nat, setMclk: int, hw: Hw)
    ensures var c := BtScoClocking(build, srate, setMclk, hw);
            && Count(c.trace, LockClkRate(false)) == 0
            && Count(c.trace, LockClkRate(true)) == if BtScoClockAccepted(srate, setMclk, hw) then 1 else 0
  {
    var c := BtScoClocking(build, srate, setMclk, hw);
    if RateClassClock(srate).Some? {
      var clk := AdoptedClock(srate, ClassClock(srate), setMclk, hw);
      var locked := BtScoClockAccepted(srate, setMclk, hw);
      BtScoTailNoLock(build, clk, hw);
      LocksOfClockStep(c.trace, SetRate(srate, ClassClock(srate)), locked,
                       if locked then BtScoTail(build, clk, hw).trace else []);
    } else {
      CountAbsent(c.trace, LockClkRate(false));
      CountAbsent(c.trace, LockClkRate(true));
    }
  }

  /** A lock-free prefix does not change the lock counts. */
  lemma LocksAfterPrefix(t: seq<Call>, pre: seq<Call>, rest: seq<Call>)
    requires t == pre + rest && NoLock(pre)
    ensures Count(t, LockClkRate(false)) == Count(rest, LockClkRate(false))
    ensures Count(t, LockClkRate(true)) == Count(rest, LockClkRate(true))
  {
    CountAppend(pre, rest, LockClkRate(false));
    CountAppend(pre, rest, LockClkRate(true));
    CountAbsent(pre, LockClkRate(false));
    CountAbsent(pre, LockClkRate(true));
  }

  /** tegra_bt_sco_hw_params locks once when framing and its clock step pass and never unlocks. */
  lemma BtScoLockCount(m: Machine, build: Build, srate: nat, setMclk: int, hw: Hw)
    ensures var o := BtScoHwParams(m, build, srate, setMclk, hw);
            && Count(o.trace, LockClkRate(false)) == 0
            && Count(o.trace, LockClkRate(true)) == if BtScoLocks(m, srate, setMclk, hw) then 1 else 0
  {
    var o := BtScoHwParams(m, build, srate, setMclk, hw);
    var w := DaiWord(m.btCodecFormat, m.btCodecMaster);
    if FramingOk(w, hw) {
      BtScoClockingLockCount(build, srate, setMclk, hw);
      LocksAfterPrefix(o.trace, FormatSteps(w), BtScoClocking(build, srate, setMclk, hw).trace);
    } else {
      CountAbsent(o.trace, LockClkRate(false));
      CountAbsent(o.trace, LockClkRate(true));
    }
  }

  /** tegra_spdif_hw_params locks once when its clock step is accepted and never unlocks. */
  lemma SpdifLockCount(srate: nat, setMclk: int, hw: Hw)
    ensures var o := SpdifHwParams(srate, setMclk, hw);
            && Count(o.trace, LockClkRate(false)) == 0
            && Count(o.trace, LockClkRate(true)) == if SpdifLocks(srate, setMclk, hw) then 1 else 0
  {
    var o := SpdifHwParams(srate, setMclk, hw);
    if RateClassClock(srate).Some? {
      LocksOfClockStep(o.trace, SetRate(srate, ClassClock(srate)), SpdifLocks(srate, setMclk, hw), []);
    } else {
      CountAbsent(o.trace, LockClkRate(false));
      CountAbsent(o.trace, LockClkRate(true));
    }
  }

  /** hw_params never unlocks, locks exactly when the clock step is accepted,
      and cannot succeed without the lock. */
  lemma HwParamsLockDiscipline(link: Link, m: Machine, build: Build, srate: nat, setMclk: int, hw: Hw)
    ensures var o := HwParams(link, m, build, srate, setMclk, hw);
            && Count(o.trace, LockClkRate(false)) == 0
            && Count(o.trace, LockClkRate(true)) == (if LocksClock(link, m, srate, setMclk, hw) then 1 else 0)
            && (o.status == 0 ==> LocksClock(link, m, srate, setMclk, hw))
  {
    match link
    case HiFiLink => HiFiLockCount(m, build, srate, setMclk, hw);
    case BtScoLink =>
      BtScoLockCount(m, build, srate, setMclk, hw);
      if FramingOk(DaiWord(m.btCodecFormat, m.btCodecMaster), hw) && RateClassClock(srate).Some?
         && !BtScoClockAccepted(srate, setMclk, hw) {
        BtScoRefusedTrace(m, build, srate, setMclk, hw);
      }
    case SpdifLink => SpdifLockCount(srate, setMclk, hw);
  }

  /** A stream's hw_params followed by the shared hw_free: one unlock always, one
      lock only when hw_params got past its clock step. */
  lemma StreamSessionLockBalance(link: Link, m: Machine, build: Build, srate: nat, setMclk: int, hw: Hw)
    ensures var t := HwParams(link, m, build, srate, setMclk, hw).trace + HwFree().trace;
            && Count(t, LockClkRate(false)) == 1
            && Count(t, LockClkRate(true)) == (if LocksClock(link, m, srate, setMclk, hw) then 1 else 0)
  {
    var o := HwParams(link, m, build, srate, setMclk, hw);
    HwParamsLockDiscipline(link, m, build, srate, setMclk, hw);
    CountAppend(o.trace, HwFree().trace, LockClkRate(false));
    CountAppend(o.trace, HwFree().trace, LockClkRate(true));
    assert HwFree().trace[1..] == [];
  }

  /** A handler's trace ends at a failed call: the status is the last call's
      code and every earlier call succeeded. */
  predicate FailsAtLast(o: Outcome, hw: Hw)
  {
    && |o.trace| > 0
    && hw(Last(o.trace)) == o.status
    && forall j :: 0 <= j < |o.trace| - 1 ==> hw(o.trace[j]) >= 0
  }

  /** Every call of `s` succeeded or is one whose failure is tolerated. */
  predicate AllPassed(s: seq<Call>, hw: Hw)
  {
    forall j :: 0 <= j < |s| ==> Tolerated(s[j]) || hw(s[j]) >= 0
  }

  /** Every call but the last of `s` succeeded or is tolerated. */
  predicate EarlierPassed(s: seq<Call>, hw: Hw)
  {
    forall j :: 0 <= j < |s| - 1 ==> Tolerated(s[j]) || hw(s[j]) >= 0
  }

  lemma AllPassedAppend(a: seq<Call>, b: seq<Call>, hw: Hw)
    requires AllPassed(a, hw) && AllPassed(b, hw)
    ensures AllPassed(a + b, hw)
  {
    forall j | 0 <= j < |a + b|
      ensures Tolerated((a + b)[j]) || hw((a + b)[j]) >= 0
    {
      if j >= |a| {
        assert (a + b)[j] == b[j - |a|];
      }
    }
  }

  /** A prefix of passed calls followed by a trace that fails at its last call. */
  lemma EarlierPassedAppend(a: seq<Call>, o: Outcome, hw: Hw)
    requires AllPassed(a, hw) && FailsAtLast(o, hw)
    ensures |a + o.trace| > 0 && Last(a + o.trace) == Last(o.trace)
    ensures EarlierPassed(a + o.trace, hw)
  {
    forall j | 0 <= j < |a + o.trace| - 1
      ensures Tolerated((a + o.trace)[j]) || hw((a + o.trace)[j]) >= 0
    {
      if j >= |a| {
        assert (a + o.trace)[j] == o.trace[j - |a|];
      }
    }
  }

  lemma DasConnectFailsAtLast(build: Build, dac: DasDac, dap: DasDap, hw: Hw)
    requires DasConnect(build, dac, dap, hw).status < 0
    ensures FailsAtLast(DasConnect(build, dac, dap, hw), hw)
  {
  }

  lemma HiFiTailFailsAtLast(build: Build, sysClk: int, hw: Hw)
    requires HiFiTail(build, sysClk, hw).status < 0
    ensures FailsAtLast(HiFiTail(build, sysClk, hw), hw)
  {
    if hw(SetSysclk(CodecDai, sysClk)) >= 0 {
      DasConnectFailsAtLast(build, Dac1, Dap1, hw);
      EarlierPassedAppend([SetSysclk(CodecDai, sysClk)], DasConnect(build, Dac1, Dap1, hw), hw);
    }
  }

  lemma BtScoTailFailsAtLast(build: Build, sysClk: int, hw: Hw)
    requires BtScoTail(build, sysClk, hw).status < 0
    ensures FailsAtLast(BtScoTail(build, sysClk, hw), hw)
  {
    if hw(SetSysclk(CpuDai, sysClk)) >= 0 && hw(SetSysclk(CodecDai, sysClk)) >= 0 {
      DasConnectFailsAtLast(build, Dac2, Dap4, hw);
      EarlierPassedAppend([SetSysclk(CpuDai, sysClk), SetSysclk(CodecDai, sysClk)], DasConnect(build, Dac2, Dap4, hw), hw);
    }
  }

  /** A failing hw_params stops at the call that failed: its status is that
      call's code unless the driver rejected the request itself, and every
      earlier call either succeeded or is one whose failure is tolerated. */
  lemma HwParamsStopsAtFirstFailure(link: Link, m: Machine, build: Build, srate: nat, setMclk: int, hw: Hw)
    ensures var o := HwParams(link, m, build, srate, setMclk, hw);
            o.status < 0 ==>
              && (DriverRejects(link, m, srate, setMclk, hw) ==> o.status == -EINVAL)
              && (!DriverRejects(link, m, srate, setMclk, hw) ==> |o.trace| > 0 && hw(Last(o.trace)) == o.status)
              && EarlierPassed(o.trace, hw)
  {
    var o := HwParams(link, m, build, srate, setMclk, hw);
    if o.status < 0 {
      match link
      case HiFiLink => HiFiStopsAtFirstFailure(m, build, srate, setMclk, hw);
      case BtScoLink => BtScoStopsAtFirstFailure(m, build, srate, setMclk, hw);
      case SpdifLink =>
    }
  }

  lemma HiFiStopsAtFirstFailure(m: Machine, build: Build, srate: nat, setMclk: int, hw: Hw)
    requires HiFiHwParams(m, build, srate, setMclk, hw).status < 0
    ensures var o := HiFiHwParams(m, build, srate, setMclk, hw);
            && (DriverRejects(HiFiLink, m, srate, setMclk, hw) ==> o.status == -EINVAL)
            && (!DriverRejects(HiFiLink, m, srate, setMclk, hw) ==> |o.trace| > 0 && hw(Last(o.trace)) == o.status)
            && EarlierPassed(o.trace, hw)
  {
    var w := DaiWord(m.hifiCodecFormat, m.hifiCodecMaster);
    var clk := HiFiClock(srate, setMclk, hw);
    if !HiFiClockAccepted(srate, setMclk, hw) {
      StopsAtLastOf(HiFiHwParams(m, build, srate, setMclk, hw), [], SetRate(srate, InitialSysClk(srate)), hw);
    } else if !FramingOk(w, hw) {
      HiFiStopsAtFraming(m, build, srate, setMclk, hw);
    } else if CodecPll(m.hifiCodecMaster, srate, clk, hw).status == 0 {
      HiFiStopsInTail(m, build, srate, setMclk, hw);
    } else {
      HiFiStopsInPll(m, build, srate, setMclk, hw);
    }
  }

  /** The call stopped at its last call, which failed; everything before it passed. */
  predicate StopsAt(o: Outcome, hw: Hw)
  {
    |o.trace| > 0 && hw(Last(o.trace)) == o.status && EarlierPassed(o.trace, hw)
  }

  lemma StopsAtLastOf(o: Outcome, a: seq<Call>, c: Call, hw: Hw)
    requires o.trace == a + [c] && o.status == hw(c)
    requires AllPassed(a, hw)
    ensures StopsAt(o, hw)
  {
    forall j | 0 <= j < |o.trace| - 1
      ensures Tolerated(o.trace[j]) || hw(o.trace[j]) >= 0
    {
      assert o.trace[j] == a[j];
    }
  }

  lemma StopsInTail(o: Outcome, a: seq<Call>, t: Outcome, hw: Hw)
    requires o == Outcome(t.status, a + t.trace)
    requires AllPassed(a, hw) && FailsAtLast(t, hw)
    ensures StopsAt(o, hw)
  {
    EarlierPassedAppend(a, t, hw);
  }

  lemma HiFiStopsAtFraming(m: Machine, build: Build, srate: nat, setMclk: int, hw: Hw)
    requires HiFiClockAccepted(srate, setMclk, hw)
    requires !FramingOk(DaiWord(m.hifiCodecFormat, m.hifiCodecMaster), hw)
    ensures StopsAt(HiFiHwParams(m, build, srate, setMclk, hw), hw)
  {
    var w := DaiWord(m.hifiCodecFormat, m.hifiCodecMaster);
    var rate := SetRate(srate, InitialSysClk(srate));
    HiFiFramingFailTrace(m, build, srate, setMclk, hw);
    if hw(SetFmt(CpuDai, w)) < 0 {
      StopsAtLastOf(HiFiHwParams(m, build, srate, setMclk, hw), [rate, LockClkRate(true)], SetFmt(CpuDai, w), hw);
    } else {
      assert AllPassed([rate, LockClkRate(true), SetFmt(CpuDai, w)], hw);
      StopsAtLastOf(HiFiHwParams(m, build, srate, setMclk, hw), [rate, LockClkRate(true), SetFmt(CpuDai, w)], SetFmt(CodecDai, w), hw);
    }
  }

  /** The clock calls, the two format calls and the PLL calls all passed. */
  lemma HiFiPrefixPassed(m: Machine, srate: nat, setMclk: int, hw: Hw)
    requires FramingOk(DaiWord(m.hifiCodecFormat, m.hifiCodecMaster), hw)
    ensures AllPassed([SetRate(srate, InitialSysClk(srate)), LockClkRate(true)]
                      + FormatSteps(DaiWord(m.hifiCodecFormat, m.hifiCodecMaster))
                      + CodecPll(m.hifiCodecMaster, srate, HiFiClock(srate, setMclk, hw), hw).trace, hw)
  {
    var w := DaiWord(m.hifiCodecFormat, m.hifiCodecMaster);
    var p := CodecPll(m.hifiCodecMaster, srate, HiFiClock(srate, setMclk, hw), hw);
    var pre := [SetRate(srate, InitialSysClk(srate)), LockClkRate(true)] + FormatSteps(w);
    assert AllPassed(pre, hw);
    assert AllPassed(p.trace, hw);
    AllPassedAppend(pre, p.trace, hw);
  }

  lemma HiFiStopsInTail(m: Machine, build: Build, srate: nat, setMclk: int, hw: Hw)
    requires HiFiClockAccepted(srate, setMclk, hw)
    requires FramingOk(DaiWord(m.hifiCodecFormat, m.hifiCodecMaster), hw)
    requires CodecPll(m.hifiCodecMaster, srate, HiFiClock(srate, setMclk, hw), hw).status == 0
    requires HiFiHwParams(m, build, srate, setMclk, hw).status < 0
    ensures StopsAt(HiFiHwParams(m, build, srate, setMclk, hw), hw)
  {
    var w := DaiWord(m.hifiCodecFormat, m.hifiCodecMaster);
    var p := CodecPll(m.hifiCodecMaster, srate, HiFiClock(srate, setMclk, hw), hw);
    var t := HiFiTail(build, p.sysClk, hw);
    HiFiPllOkTrace(m, build, srate, setMclk, hw);
    HiFiPrefixPassed(m, srate, setMclk, hw);
    HiFiTailFailsAtLast(build, p.sysClk, hw);
    StopsInTail(HiFiHwParams(m, build, srate, setMclk, hw),
                [SetRate(srate, InitialSysClk(srate)), LockClkRate(true)] + FormatSteps(w) + p.trace, t, hw);
  }

  lemma HiFiStopsInPll(m: Machine, build: Build, srate: nat, setMclk: int, hw: Hw)
    requires HiFiClockAccepted(srate, setMclk, hw)
    requires FramingOk(DaiWord(m.hifiCodecFormat, m.hifiCodecMaster), hw)
    requires CodecPll(m.hifiCodecMaster, srate, HiFiClock(srate, setMclk, hw), hw).status < 0
    ensures var o := HiFiHwParams(m, build, srate, setMclk, hw);
            && EarlierPassed(o.trace, hw)
            && (m.hifiCodecMaster ==> DriverRejects(HiFiLink, m, srate, setMclk, hw) && o.status == -EINVAL)
            && (!m.hifiCodecMaster ==> StopsAt(o, hw))
  {
    var w := DaiWord(m.hifiCodecFormat, m.hifiCodecMaster);
    var clk := HiFiClock(srate, setMclk, hw);
    var p := CodecPll(m.hifiCodecMaster, srate, clk, hw);
    var pre := [SetRate(srate, InitialSysClk(srate)), LockClkRate(true)] + FormatSteps(w);
    HiFiPllFailTrace(m, build, srate, setMclk, hw);
    HiFiPllStatus(m.hifiCodecMaster, srate, clk, hw);
    HiFiPrefixPassed(m, srate, setMclk, hw);
    PassedThroughout(HiFiHwParams(m, build, srate, setMclk, hw), hw);
    if !m.hifiCodecMaster {
      assert AllPassed(pre, hw);
      StopsAtLastOf(HiFiHwParams(m, build, srate, setMclk, hw), pre, SetPll(0, 0), hw);
    }
  }

  lemma PassedThroughout(o: Outcome, hw: Hw)
    requires AllPassed(o.trace, hw)
    ensures EarlierPassed(o.trace, hw)
  {
  }

  /** HiFi, clock step accepted but a DAI refused the format: the clock calls,
      then the format calls up to the one that failed. */
  lemma HiFiFramingFailTrace(m: Machine, build: Build, srate: nat, setMclk: int, hw: Hw)
    requires HiFiClockAccepted(srate, setMclk, hw)
    requires !FramingOk(DaiWord(m.hifiCodecFormat, m.hifiCodecMaster), hw)
    ensures var o := HiFiHwParams(m, build, srate, setMclk, hw);
            var w := DaiWord(m.hifiCodecFormat, m.hifiCodecMaster);
            && (hw(SetFmt(CpuDai, w)) < 0 ==>
                  o == Outcome(hw(SetFmt(CpuDai, w)), [SetRate(srate, InitialSysClk(srate)), LockClkRate(true)] + [SetFmt(CpuDai, w)]))
            && (hw(SetFmt(CpuDai, w)) >= 0 ==>
                  o == Outcome(hw(SetFmt(CodecDai, w)), [SetRate(srate, InitialSysClk(srate)), LockClkRate(true), SetFmt(CpuDai, w)] + [SetFmt(CodecDai, w)]))
  {
    var w := DaiWord(m.hifiCodecFormat, m.hifiCodecMaster);
    var rate := SetRate(srate, InitialSysClk(srate));
    if hw(SetFmt(CpuDai, w)) >= 0 {
      Regroup(HiFiHwParams(m, build, srate, setMclk, hw), rate, LockClkRate(true), SetFmt(CpuDai, w), SetFmt(CodecDai, w));
    }
  }

  lemma Regroup(o: Outcome, a: Call, b: Call, c: Call, d: Call)
    requires o.trace == [a, b] + [c, d]
    ensures o.trace == [a, b, c] + [d]
  {
  }

  /** How the PLL stage's status follows from its search (a helper for the HiFi lemmas). */
  lemma HiFiPllStatus(codecMaster: bool, srate: nat, sysClk: int, hw: Hw)
    requires CodecPll(codecMaster, srate, sysClk, hw).status < 0
    ensures var p := CodecPll(codecMaster, srate, sysClk, hw);
            && (codecMaster ==> FirstAccepted(Candidates(srate), sysClk, hw) == |Candidates(srate)| && p.status == -EINVAL)
            && (!codecMaster ==> p.trace == [SetPll(0, 0)] && hw(SetPll(0, 0)) == p.status)
  {
  }

  lemma BtScoStopsAtFirstFailure(m: Machine, build: Build, srate: nat, setMclk: int, hw: Hw)
    requires BtScoHwParams(m, build, srate, setMclk, hw).status < 0
    ensures var o := BtScoHwParams(m, build, srate, setMclk, hw);
            && (DriverRejects(BtScoLink, m, srate, setMclk, hw) ==> o.status == -EINVAL)
            && (!DriverRejects(BtScoLink, m, srate, setMclk, hw) ==> |o.trace| > 0 && hw(Last(o.trace)) == o.status)
            && EarlierPassed(o.trace, hw)
  {
    var w := DaiWord(m.btCodecFormat, m.btCodecMaster);
    if BtScoLocks(m, srate, setMclk, hw) {
      var clk := AdoptedClock(srate, ClassClock(srate), setMclk, hw);
      var pre := FormatSteps(w) + [SetRate(srate, ClassClock(srate)), LockClkRate(true)];
      assert AllPassed(pre, hw);
      BtScoLockedTrace(m, build, srate, setMclk, hw);
      BtScoTailFailsAtLast(build, clk, hw);
      EarlierPassedAppend(pre, BtScoTail(build, clk, hw), hw);
    } else if FramingOk(w, hw) && RateClassClock(srate).Some? {
      BtScoRefusedTrace(m, build, srate, setMclk, hw);
    }
  }

  /** HiFi PLL stage, codec master: the PLL is tried on the table's candidates for
      the rate, in order, up to the first it accepts; that one becomes the codec
      sysclk, and when there is none the call ends with -EINVAL. */
  lemma HiFiMasterPllSearch(m: Machine, build: Build, srate: nat, setMclk: int, hw: Hw)
    requires m.hifiCodecMaster
    requires HiFiClockAccepted(srate, setMclk, hw)
    requires FramingOk(DaiWord(m.hifiCodecFormat, m.hifiCodecMaster), hw)
    ensures var o := HiFiHwParams(m, build, srate, setMclk, hw);
            var clk := HiFiClock(srate, setMclk, hw);
            var cs := Candidates(srate);
            var k := FirstAccepted(cs, clk, hw);
            var n := AttemptCount(cs, clk, hw);
            && |o.trace| >= 4 + n
            && PllAttempts(o.trace[4..4 + n], clk, cs, n)
            && (k == |cs| ==> o.status == -EINVAL && |o.trace| == 4 + |cs|)
            && (k < |cs| ==> |o.trace| > 4 + n && o.trace[4 + n] == SetSysclk(CodecDai, cs[k]))
  {
    var w := DaiWord(m.hifiCodecFormat, m.hifiCodecMaster);
    var clk := HiFiClock(srate, setMclk, hw);
    var p := CodecPll(m.hifiCodecMaster, srate, clk, hw);
    var pre := [SetRate(srate, InitialSysClk(srate)), LockClkRate(true)] + FormatSteps(w);
    if p.status == 0 {
      HiFiPllOkTrace(m, build, srate, setMclk, hw);
      PrefixSlice(pre, p.trace, HiFiTail(build, p.sysClk, hw).trace);
    } else {
      HiFiPllFailTrace(m, build, srate, setMclk, hw);
      PrefixSlice(pre, p.trace, []);
    }
  }

  /** The middle part of a three-part trace, and the call right after it. */
  lemma PrefixSlice(a: seq<Call>, b: seq<Call>, c: seq<Call>)
    ensures (a + b + c)[|a|..|a| + |b|] == b
    ensures |c| > 0 ==> (a + b + c)[|a| + |b|] == c[0]
    ensures a + b + [] == a + b
  {
  }

  /** HiFi PLL stage, codec slave: the PLL is disabled with set_pll(0, 0), its
      error is passed on, and otherwise the codec sysclk is the adopted clock. */
  lemma HiFiSlavePllDisable(m: Machine, build: Build, srate: nat, setMclk: int, hw: Hw)
    requires !m.hifiCodecMaster
    requires HiFiClockAccepted(srate, setMclk, hw)
    requires FramingOk(DaiWord(m.hifiCodecFormat, m.hifiCodecMaster), hw)
    ensures var o := HiFiHwParams(m, build, srate, setMclk, hw);
            && |o.trace| >= 5
            && o.trace[4] == SetPll(0, 0)
            && (hw(SetPll(0, 0)) < 0 ==> o.status == hw(SetPll(0, 0)) && |o.trace| == 5)
            && (hw(SetPll(0, 0)) >= 0 ==> |o.trace| >= 6 && o.trace[5] == SetSysclk(CodecDai, HiFiClock(srate, setMclk, hw)))
  {
    var w := DaiWord(m.hifiCodecFormat, m.hifiCodecMaster);
    var clk := HiFiClock(srate, setMclk, hw);
    var pre := [SetRate(srate, InitialSysClk(srate)), LockClkRate(true)] + FormatSteps(w);
    if hw(SetPll(0, 0)) >= 0 {
      HiFiPllOkTrace(m, build, srate, setMclk, hw);
      PrefixSlice(pre, [SetPll(0, 0)], HiFiTail(build, clk, hw).trace);
    } else {
      HiFiPllFailTrace(m, build, srate, setMclk, hw);
    }
  }

  /** Every Bluetooth clock the DAIs are programmed with is a multiple of 64 fs:
      the class clock always is, and the fallback only adopts such a clock. */
  lemma BtScoSysClkIsMultipleOf64fs(m: Machine, build: Build, srate: nat, setMclk: int, hw: Hw)
    requires BtScoHwParams(m, build, srate, setMclk, hw).status == 0
    ensures var o := BtScoHwParams(m, build, srate, setMclk, hw);
            && RateClassClock(srate).Some?
            && |o.trace| >= 6
            && o.trace[4].SetSysclk? && o.trace[4].dai == CpuDai
            && o.trace[5] == SetSysclk(CodecDai, o.trace[4].freq)
            && o.trace[4].freq % (64 * srate) == 0
  {
    var o := BtScoHwParams(m, build, srate, setMclk, hw);
    var w := DaiWord(m.btCodecFormat, m.btCodecMaster);
    assert FramingOk(w, hw);
    assert RateClassClock(srate).Some?;
    assert BtScoClockAccepted(srate, setMclk, hw);
    ClassClockMultipleOf64(srate);
    var clk := AdoptedClock(srate, ClassClock(srate), setMclk, hw);
    var tail := BtScoTail(build, clk, hw);
    assert o.trace == FormatSteps(w) + [SetRate(srate, ClassClock(srate)), LockClkRate(true)] + tail.trace;
    assert o.trace[4] == SetSysclk(CpuDai, clk);
  }

  // ---------------------------------------------------------------------------
  // Scenarios

  /** A clock locked at 24.576 MHz is reused by a 16 kHz Bluetooth stream whose
      own set_rate fails, since 24576000 is a multiple of 64 * 16000. */
  lemma BtScoReusesLockedClock(m: Machine, build: Build, hw: Hw)
    requires FramingOk(DaiWord(m.btCodecFormat, m.btCodecMaster), hw)
    requires hw(SetRate(16000, 12288000)) < 0
    ensures var o := BtScoHwParams(m, build, 16000, 24576000, hw);
            && o.trace[2..4] == [SetRate(16000, 12288000), LockClkRate(true)]
            && o.trace[4] == SetSysclk(CpuDai, 24576000)
  {
    var o := BtScoHwParams(m, build, 16000, 24576000, hw);
    var w := DaiWord(m.btCodecFormat, m.btCodecMaster);
    var tail := BtScoTail(build, 24576000, hw);
    assert o.trace == FormatSteps(w) + [SetRate(16000, 12288000), LockClkRate(true)] + tail.trace;
  }

  /** A 64 kHz Bluetooth stream asks for 12.288 MHz and, when that fails, accepts
      the current MCLK exactly when it is a multiple of 4.096 MHz. */
  lemma BtSco64kClock(m: Machine, build: Build, setMclk: int, hw: Hw)
    requires FramingOk(DaiWord(m.btCodecFormat, m.btCodecMaster), hw)
    requires hw(SetRate(64000, 12288000)) < 0
    ensures var o := BtScoHwParams(m, build, 64000, setMclk, hw);
            && o.trace[2] == SetRate(64000, 12288000)
            && (LockClkRate(true) in o.trace <==> setMclk % 4096000 == 0)
  {
    var o := BtScoHwParams(m, build, 64000, setMclk, hw);
    var w := DaiWord(m.btCodecFormat, m.btCodecMaster);
    if setMclk % 4096000 == 0 {
      var tail := BtScoTail(build, setMclk, hw);
      assert o.trace == FormatSteps(w) + [SetRate(64000, 12288000), LockClkRate(true)] + tail.trace;
    } else {
      assert o.trace == FormatSteps(w) + [SetRate(64000, 12288000)];
    }
  }

  /** A 44.1 kHz SPDIF stream asks for 11.2896 MHz and, when that fails, accepts
      the current MCLK exactly when it is a multiple of 5.6448 MHz. */
  lemma Spdif44k1Clock(setMclk: int, hw: Hw)
    requires hw(SetRate(44100, 11289600)) < 0
    ensures var o := SpdifHwParams(44100, setMclk, hw);
            && o.trace[0] == SetRate(44100, 11289600)
            && (o.status == 0 <==> setMclk % 5644800 == 0)
  {
  }

  /** At 64 kHz SPDIF asks for 12.288 MHz, which is not a multiple of its own
      threshold 128 * 64000: if set_rate fails while that very clock is set, the
      fallback still refuses it. */
  lemma Spdif64kRefusesItsOwnClock(hw: Hw)
    requires hw(SetRate(64000, 12288000)) < 0
    ensures SpdifHwParams(64000, 12288000, hw) == Outcome(hw(SetRate(64000, 12288000)), [SetRate(64000, 12288000)])
  {
  }

  /** The fallback accepts any clock when the current MCLK reads 0, since 0 is a
      multiple of every threshold. */
  lemma FallbackAcceptsZeroMclk(srate: nat, preferred: int, threshold: int, hw: Hw)
    requires threshold != 0
    ensures ClockAccepted(srate, preferred, threshold, 0, hw)
    ensures AdoptedClock(srate, preferred, 0, hw) == (if hw(SetRate(srate, preferred)) >= 0 then preferred else 0)
  {
  }

  /** HiFi with the codec as slave: when set_rate fails while the current MCLK
      reads 0, the fallback adopts 0 and the codec sysclk is programmed to 0 Hz. */
  lemma HiFiSlaveZeroSysclk(m: Machine, build: Build, srate: nat, hw: Hw)
    requires !m.hifiCodecMaster
    requires hw(SetRate(srate, InitialSysClk(srate))) < 0
    requires FramingOk(DaiWord(m.hifiCodecFormat, m.hifiCodecMaster), hw)
    requires hw(SetPll(0, 0)) >= 0
    ensures SetSysclk(CodecDai, 0) in HiFiHwParams(m, build, srate, 0, hw).trace
  {
    assert HiFiClock(srate, 0, hw) == 0;
    HiFiSlavePllDisable(m, build, srate, 0, hw);
  }

  /** Bluetooth: when set_rate fails for a supported rate while the current MCLK
      reads 0, both DAIs are asked for a 0 Hz sysclk. */
  lemma BtScoZeroSysclk(m: Machine, build: Build, srate: nat, hw: Hw)
    requires FramingOk(DaiWord(m.btCodecFormat, m.btCodecMaster), hw)
    requires RateClassClock(srate).Some?
    requires hw(SetRate(srate, ClassClock(srate))) < 0
    ensures SetSysclk(CpuDai, 0) in BtScoHwParams(m, build, srate, 0, hw).trace
    ensures hw(SetSysclk(CpuDai, 0)) >= 0 ==> SetSysclk(CodecDai, 0) in BtScoHwParams(m, build, srate, 0, hw).trace
  {
    var w := DaiWord(m.btCodecFormat, m.btCodecMaster);
    assert AdoptedClock(srate, ClassClock(srate), 0, hw) == 0;
    BtScoLockedTrace(m, build, srate, 0, hw);
    var t := BtScoTail(build, 0, hw);
    var o := BtScoHwParams(m, build, srate, 0, hw);
    assert o.trace == FormatSteps(w) + [SetRate(srate, ClassClock(srate)), LockClkRate(true)] + t.trace;
    assert o.trace[4] == SetSysclk(CpuDai, 0);
    if hw(SetSysclk(CpuDai, 0)) >= 0 {
      assert o.trace[5] == t.trace[1] == SetSysclk(CodecDai, 0);
    }
  }

  /** HiFi, codec master, 44.1 kHz: 11.2896 MHz is tried first and 22.5792 MHz
      only after it; when the codec rejects both, hw_params returns -EINVAL. */
  lemma HiFiMaster44k1(m: Machine, build: Build, setMclk: int, hw: Hw)
    requires m.hifiCodecMaster
    requires HiFiClockAccepted(44100, setMclk, hw)
    requires FramingOk(DaiWord(m.hifiCodecFormat, m.hifiCodecMaster), hw)
    ensures var o := HiFiHwParams(m, build, 44100, setMclk, hw);
            var clk := HiFiClock(44100, setMclk, hw);
            && o.trace[0] == SetRate(44100, 11289600)
            && |o.trace| >= 6
            && o.trace[4] == SetPll(clk, 11289600)
            && (hw(SetPll(clk, 11289600)) >= 0 ==> o.trace[5] == SetSysclk(CodecDai, 11289600))
            && (hw(SetPll(clk, 11289600)) < 0 ==> o.trace[5] == SetPll(clk, 22579200))
            && (hw(SetPll(clk, 11289600)) < 0 && hw(SetPll(clk, 22579200)) < 0 ==>
                  o.status == -EINVAL && |o.trace| == 6)
  {
    var w := DaiWord(m.hifiCodecFormat, m.hifiCodecMaster);
    var clk := HiFiClock(44100, setMclk, hw);
    var pre := [SetRate(44100, InitialSysClk(44100)), LockClkRate(true)] + FormatSteps(w);
    var p := CodecPll(true, 44100, clk, hw);
    CodecPll44k1(clk, hw);
    Candidates44k1();
    if p.status == 0 {
      HiFiPllOkTrace(m, build, 44100, setMclk, hw);
      PrefixSlice(pre, p.trace, HiFiTail(build, p.sysClk, hw).trace);
    } else {
      HiFiPllFailTrace(m, build, 44100, setMclk, hw);
    }
  }

  /** The codec-master PLL stage at 44.1 kHz, spelled out. */
  lemma CodecPll44k1(sysClk: int, hw: Hw)
    ensures CodecPll(true, 44100, sysClk, hw) ==
              if hw(SetPll(sysClk, 11289600)) >= 0 then PllResult(0, 11289600, [SetPll(sysClk, 11289600)])
              else if hw(SetPll(sysClk, 22579200)) >= 0 then
                PllResult(0, 22579200, [SetPll(sysClk, 11289600), SetPll(sysClk, 22579200)])
              else PllResult(-EINVAL, sysClk, [SetPll(sysClk, 11289600), SetPll(sysClk, 22579200)])
  {
    Candidates44k1();
    CodecPllTwoCandidates(44100, 11289600, 22579200, sysClk, hw);
  }

  /** The codec-master PLL stage for a rate with exactly two candidates. */
  lemma CodecPllTwoCandidates(srate: nat, a: Hz, b: Hz, sysClk: int, hw: Hw)
    requires Candidates(srate) == [a, b]
    ensures CodecPll(true, srate, sysClk, hw) ==
              if hw(SetPll(sysClk, a)) >= 0 then PllResult(0, a, [SetPll(sysClk, a)])
              else if hw(SetPll(sysClk, b)) >= 0 then PllResult(0, b, [SetPll(sysClk, a), SetPll(sysClk, b)])
              else PllResult(-EINVAL, sysClk, [SetPll(sysClk, a), SetPll(sysClk, b)])
  {
    var cs := Candidates(srate);
    assert cs[1..] == [b] && cs[1..][1..] == [];
    assert FirstAccepted(cs, sysClk, hw) ==
             if hw(SetPll(sysClk, a)) >= 0 then 0
             else if hw(SetPll(sysClk, b)) >= 0 then 1
             else 2;
  }

  /** HiFi, codec master, at a rate with no table row (64, 88.2 and 96 kHz are such
      rates): set_rate is asked for 12 MHz, no PLL is tried, and the result is -EINVAL. */
  lemma HiFiMasterUnlistedRate(m: Machine, build: Build, srate: nat, setMclk: int, hw: Hw)
    requires Candidates(srate) == []
    requires m.hifiCodecMaster
    requires HiFiClockAccepted(srate, setMclk, hw)
    requires FramingOk(DaiWord(m.hifiCodecFormat, m.hifiCodecMaster), hw)
    ensures var w := DaiWord(m.hifiCodecFormat, m.hifiCodecMaster);
            HiFiHwParams(m, build, srate, setMclk, hw)
              == Outcome(-EINVAL, [SetRate(srate, 12000000), LockClkRate(true), SetFmt(CpuDai, w), SetFmt(CodecDai, w)])
  {
    CodecPllWithoutCandidates(srate, HiFiClock(srate, setMclk, hw), hw);
    HiFiPllFailTrace(m, build, srate, setMclk, hw);
    FourCalls(HiFiHwParams(m, build, srate, setMclk, hw), srate, DaiWord(m.hifiCodecFormat, m.hifiCodecMaster));
  }

  lemma FourCalls(o: Outcome, srate: nat, w: DaiFormat)
    requires o.status == -EINVAL
    requires o.trace == [SetRate(srate, InitialSysClk(srate)), LockClkRate(true)] + FormatSteps(w) + []
    requires Candidates(srate) == []
    ensures o == Outcome(-EINVAL, [SetRate(srate, 12000000), LockClkRate(true), SetFmt(CpuDai, w), SetFmt(CodecDai, w)])
  {
  }

  /** Codec master with no candidate MCLK: no PLL call, and -EINVAL. */
  lemma CodecPllWithoutCandidates(srate: nat, sysClk: int, hw: Hw)
    requires Candidates(srate) == []
    ensures CodecPll(true, srate, sysClk, hw) == PllResult(-EINVAL, sysClk, [])
  {
    assert FirstAccepted(Candidates(srate), sysClk, hw) == 0;
  }

  /** The Shuttle board's platform data: HiFi I2S with the codec as slave, Bluetooth
      DSP_A with the codec as master. */
  function ShuttleMachine(gpioHpDet: int): Machine
  {
    Machine(gpioHpDet, I2S, false, DspA, true)
  }

  /** On the Shuttle board the HiFi word is I2S | CBS_CFS and the codec PLL is
      disabled right after the two format calls. */
  lemma ShuttleHiFiFraming(gpioHpDet: int, build: Build, srate: nat, setMclk: int, hw: Hw)
    requires HiFiClockAccepted(srate, setMclk, hw)
    requires FramingOk(DaiFormat(I2S, CbsCfs), hw)
    ensures var o := HiFiHwParams(ShuttleMachine(gpioHpDet), build, srate, setMclk, hw);
            && |o.trace| >= 5
            && o.trace[2..5] == [SetFmt(CpuDai, DaiFormat(I2S, CbsCfs)), SetFmt(CodecDai, DaiFormat(I2S, CbsCfs)), SetPll(0, 0)]
  {
    var m := ShuttleMachine(gpioHpDet);
    var w := DaiWord(m.hifiCodecFormat, m.hifiCodecMaster);
    assert w == DaiFormat(I2S, CbsCfs);
    var x := [SetRate(srate, InitialSysClk(srate)), LockClkRate(true)] + FormatSteps(w) + [SetPll(0, 0)];
    assert x[2..5] == [SetFmt(CpuDai, w), SetFmt(CodecDai, w), SetPll(0, 0)];
    if hw(SetPll(0, 0)) >= 0 {
      HiFiPllOkTrace(m, build, srate, setMclk, hw);
      SliceOfPrefix(x, HiFiTail(build, HiFiClock(srate, setMclk, hw), hw).trace, 2, 5);
    } else {
      HiFiPllFailTrace(m, build, srate, setMclk, hw);
    }
  }

  /** The Shuttle board's Bluetooth word is DSP_A | CBM_CFM, sent to the CPU DAI first. */
  lemma ShuttleBtFraming(gpioHpDet: int, build: Build, srate: nat, setMclk: int, hw: Hw)
    ensures BtScoHwParams(ShuttleMachine(gpioHpDet), build, srate, setMclk, hw).trace[0]
              == SetFmt(CpuDai, DaiFormat(DspA, CbmCfm))
  {
    assert DaiWord(DspA, true) == DaiFormat(DspA, CbmCfm);
  }

  /** A slice inside the first part of a concatenation. */
  lemma SliceOfPrefix(x: seq<Call>, t: seq<Call>, i: nat, j: nat)
    requires i <= j <= |x|
    ensures (x + t)[i..j] == x[i..j]
  {
  }
}
