/**
  Platform-driver probe and remove.

  Probe acquires, in order, the private context, the Tegra clock utilities,
  the "h2w" headset switch (CONFIG_SWITCH only) and the sound card, and
  unwinds through a ladder of fall-through labels when a step fails.
  Remove releases the same resources in the opposite order.
 */
module Lifecycle {
  import opened DriverTypes

  /** Whether the answer to acquiring `r` means the resource is now held:
      kzalloc returns non-NULL, tegra_asoc_utils_init and snd_soc_register_card
      return 0, switch_dev_register returns a non-negative value. */
  predicate Held(r: Resource, answer: int)
  {
    match r
    case MachineData => answer != 0
    case AsocUtils => answer == 0
    case HeadsetSwitch => answer >= 0
    case SoundCard => answer == 0
  }

  /** The resources the probe routine uses in this build, in acquisition order. */
  function Resources(build: Build): seq<Resource>
  {
    [MachineData, AsocUtils] + (if build.switchClass then [HeadsetSwitch] else []) + [SoundCard]
  }

  /** The error labels of the probe routine, top to bottom. */
  datatype Label = ErrUnregisterCard | ErrUnregisterSwitch | ErrFiniUtils | ErrFreeMachine

  /** How many labels lie below `at`. */
  function Depth(at: Label): nat
  {
    match at
    case ErrUnregisterCard => 3
    case ErrUnregisterSwitch => 2
    case ErrFiniUtils => 1
    case ErrFreeMachine => 0
  }

  /** The releases executed from `at` to the end of the ladder (each label falls through). */
  function Unwind(at: Label, build: Build): seq<Call>
    decreases Depth(at)
  {
    match at
    case ErrUnregisterCard => [Release(SoundCard)] + Unwind(ErrUnregisterSwitch, build)
    case ErrUnregisterSwitch => (if build.switchClass then [Release(HeadsetSwitch)] else []) + Unwind(ErrFiniUtils, build)
    case ErrFiniUtils => [Release(AsocUtils)] + Unwind(ErrFreeMachine, build)
    case ErrFreeMachine => [Release(MachineData)]
  }

  /** What probe hands back: its status, its calls and, on success, the machine context. */
  datatype ProbeResult = ProbeResult(outcome: Outcome, machine: Option<Machine>)

  /** The private context filled in from the platform data. */
  function MachineOf(pdata: PlatformData): Machine
  {
    Machine(pdata.gpioHpDet, pdata.hifiCodecFormat, pdata.hifiCodecMaster, pdata.btCodecFormat, pdata.btCodecMaster)
  }

  /** Probe has the private context and the clock utilities. */
  predicate HoldsUtils(pdata: Option<PlatformData>, hw: Hw)
  {
    pdata.Some? && Held(MachineData, hw(Acquire(MachineData))) && Held(AsocUtils, hw(Acquire(AsocUtils)))
  }

  /** Probe gets as far as registering the card. */
  predicate ReachesCard(pdata: Option<PlatformData>, build: Build, hw: Hw)
  {
    HoldsUtils(pdata, hw) && (build.switchClass ==> Held(HeadsetSwitch, hw(Acquire(HeadsetSwitch))))
  }

  /** tegra_snd_shuttle_probe.  `instantiated` is the card's state after a
      successful snd_soc_register_card. */
  function Probe(pdata: Option<PlatformData>, build: Build, instantiated: bool, hw: Hw): (r: ProbeResult)
    ensures r.outcome.status == 0 <==> r.machine.Some?
    ensures r.machine.Some? ==> pdata.Some? && r.machine.value == MachineOf(pdata.value)
    ensures pdata.None? ==> r.outcome == Outcome(-EINVAL, [])
    ensures pdata.Some? && !Held(MachineData, hw(Acquire(MachineData))) ==> r.outcome == Outcome(-ENOMEM, [Acquire(MachineData)])
    // a failed tegra_asoc_utils_init, switch_dev_register or snd_soc_register_card passes its code on
    ensures pdata.Some? && Held(MachineData, hw(Acquire(MachineData))) && !Held(AsocUtils, hw(Acquire(AsocUtils))) ==>
              r.outcome.status == hw(Acquire(AsocUtils))
    ensures HoldsUtils(pdata, hw) && build.switchClass && !Held(HeadsetSwitch, hw(Acquire(HeadsetSwitch))) ==>
              r.outcome.status == hw(Acquire(HeadsetSwitch))
    ensures ReachesCard(pdata, build, hw) && !Held(SoundCard, hw(Acquire(SoundCard))) ==>
              r.outcome.status == hw(Acquire(SoundCard))
    // a registered card that did not instantiate is -ENODEV; an instantiated one is success
    ensures ReachesCard(pdata, build, hw) && Held(SoundCard, hw(Acquire(SoundCard))) ==>
              r.outcome.status == if instantiated then 0 else -ENODEV
  {
    if pdata.None? then ProbeResult(Outcome(-EINVAL, []), None)
    else
      var alloc := [Acquire(MachineData)];
      if !Held(MachineData, hw(Acquire(MachineData))) then ProbeResult(Outcome(-ENOMEM, alloc), None)
      else
        var utils := alloc + [Acquire(AsocUtils)];
        var u := hw(Acquire(AsocUtils));
        if u != 0 then ProbeResult(Outcome(u, utils + Unwind(ErrFreeMachine, build)), None)
        else
          var switch := utils + (if build.switchClass then [Acquire(HeadsetSwitch)] else []);
          var sw := hw(Acquire(HeadsetSwitch));
          if build.switchClass && sw < 0 then ProbeResult(Outcome(sw, switch + Unwind(ErrFiniUtils, build)), None)
          else
            var card := switch + [Acquire(SoundCard)];
            var c := hw(Acquire(SoundCard));
            if c != 0 then ProbeResult(Outcome(c, card + Unwind(ErrUnregisterSwitch, build)), None)
            else if !instantiated then ProbeResult(Outcome(-ENODEV, card + Unwind(ErrUnregisterCard, build)), None)
            else ProbeResult(Outcome(0, card), Some(MachineOf(pdata.value)))
  }

  /** tegra_snd_shuttle_remove. */
  function Remove(build: Build): (o: Outcome)
    ensures o.status == 0
  {
    Outcome(0, [Release(SoundCard)] + (if build.switchClass then [Release(HeadsetSwitch)] else [])
      + [Release(AsocUtils), Release(MachineData)])
  }

  // ---------------------------------------------------------------------------
  // Reading a trace

  /** The resources a trace acquires successfully, in order. */
  function Acquired(trace: seq<Call>, hw: Hw): seq<Resource>
  {
    if trace == [] then [] else AcquiredBy(trace[0], hw) + Acquired(trace[1..], hw)
  }

  /** The resource one call acquires successfully, if any. */
  function AcquiredBy(c: Call, hw: Hw): seq<Resource>
  {
    match c
    case Acquire(r) => if Held(r, hw(c)) then [r] else []
    case _ => []
  }

  /** The resource one call releases, if any. */
  function ReleasedBy(c: Call): seq<Resource>
  {
    match c
    case Release(r) => [r]
    case _ => []
  }

  /** The resources a trace releases, in order. */
  function Released(trace: seq<Call>): seq<Resource>
  {
    if trace == [] then [] else ReleasedBy(trace[0]) + Released(trace[1..])
  }

  function Reverse<T>(s: seq<T>): (r: seq<T>)
    ensures |r| == |s|
  {
    if s == [] then [] else Reverse(s[1..]) + [s[0]]
  }

  /** Every acquisition precedes every release. */
  predicate AcquireThenRelease(trace: seq<Call>)
  {
    forall i, j :: 0 <= i < j < |trace| && trace[i].Release? ==> trace[j].Release?
  }

  lemma {:induction false} AcquiredAppend(a: seq<Call>, b: seq<Call>, hw: Hw)
    ensures Acquired(a + b, hw) == Acquired(a, hw) + Acquired(b, hw)
  {
    if a == [] {
      assert a + b == b;
    } else {
      assert (a + b)[0] == a[0];
      assert (a + b)[1..] == a[1..] + b;
      AcquiredAppend(a[1..], b, hw);
    }
  }

  lemma {:induction false} ReleasedAppend(a: seq<Call>, b: seq<Call>)
    ensures Released(a + b) == Released(a) + Released(b)
  {
    if a == [] {
      assert a + b == b;
    } else {
      assert (a + b)[0] == a[0];
      assert (a + b)[1..] == a[1..] + b;
      ReleasedAppend(a[1..], b);
    }
  }

  lemma {:induction false} ReverseAppend<T>(a: seq<T>, b: seq<T>)
    ensures Reverse(a + b) == Reverse(b) + Reverse(a)
  {
    if a == [] {
      assert a + b == b;
    } else {
      assert (a + b)[0] == a[0];
      assert (a + b)[1..] == a[1..] + b;
      ReverseAppend(a[1..], b);
    }
  }

  lemma ReverseSingle<T>(x: T)
    ensures Reverse([x]) == [x]
  {
    assert [x][1..] == [];
  }

  /** Reading one more call off the end of a trace. */
  lemma {:induction false} AcquiredSnoc(pre: seq<Call>, c: Call, hw: Hw)
    ensures Acquired(pre + [c], hw) == Acquired(pre, hw) + Acquired([c], hw)
    ensures Released(pre + [c]) == Released(pre) + Released([c])
  {
    AcquiredAppend(pre, [c], hw);
    ReleasedAppend(pre, [c]);
  }

  lemma ReadAcquire(r: Resource, hw: Hw)
    ensures Acquired([Acquire(r)], hw) == if Held(r, hw(Acquire(r))) then [r] else []
    ensures Released([Acquire(r)]) == []
  {
    assert [Acquire(r)][1..] == [];
  }

  lemma ReadRelease(r: Resource, hw: Hw)
    ensures Acquired([Release(r)], hw) == []
    ensures Released([Release(r)]) == [r]
  {
    assert [Release(r)][1..] == [];
  }

  // ---------------------------------------------------------------------------
  // The unwinding ladder

  /** The resources held when the probe routine jumps to `at`. */
  function HeldAt(at: Label, build: Build): seq<Resource>
  {
    match at
    case ErrFreeMachine => [MachineData]
    case ErrFiniUtils => [MachineData, AsocUtils]
    case ErrUnregisterSwitch => [MachineData, AsocUtils] + (if build.switchClass then [HeadsetSwitch] else [])
    case ErrUnregisterCard => Resources(build)
  }

  predicate AllAcquires(t: seq<Call>)
  {
    forall i :: 0 <= i < |t| ==> t[i].Acquire?
  }

  predicate AllReleases(t: seq<Call>)
  {
    forall i :: 0 <= i < |t| ==> t[i].Release?
  }

  /** Releases of `hs` in reverse, then releases of `below` in reverse: `below + hs` in reverse. */
  lemma ReleasesBefore(head: seq<Call>, hs: seq<Resource>, rest: seq<Call>, below: seq<Resource>, hw: Hw)
    requires Released(head) == Reverse(hs) && Acquired(head, hw) == [] && AllReleases(head)
    requires Released(rest) == Reverse(below) && Acquired(rest, hw) == [] && AllReleases(rest)
    ensures Released(head + rest) == Reverse(below + hs)
    ensures Acquired(head + rest, hw) == [] && AllReleases(head + rest)
  {
    AcquiredAppend(head, rest, hw);
    ReleasedAppend(head, rest);
    ReverseAppend(below, hs);
    assert forall i :: |head| <= i < |head + rest| ==> (head + rest)[i] == rest[i - |head|];
  }

  /** Releasing a single resource. */
  lemma ReleaseOne(r: Resource, hw: Hw)
    ensures Released([Release(r)]) == Reverse([r]) && Acquired([Release(r)], hw) == [] && AllReleases([Release(r)])
  {
    ReadRelease(r, hw);
    ReverseSingle(r);
  }

  /** Each label releases, in reverse, exactly what is held when it is reached. */
  lemma UnwindReleasesHeld(at: Label, build: Build, hw: Hw)
    ensures Released(Unwind(at, build)) == Reverse(HeldAt(at, build))
    ensures Acquired(Unwind(at, build), hw) == []
    ensures AllReleases(Unwind(at, build))
    decreases Depth(at)
  {
    match at
    case ErrFreeMachine =>
      ReleaseOne(MachineData, hw);
    case ErrFiniUtils =>
      UnwindReleasesHeld(ErrFreeMachine, build, hw);
      ReleaseOne(AsocUtils, hw);
      ReleasesBefore([Release(AsocUtils)], [AsocUtils], Unwind(ErrFreeMachine, build), [MachineData], hw);
    case ErrUnregisterSwitch =>
      UnwindReleasesHeld(ErrFiniUtils, build, hw);
      if build.switchClass {
        ReleaseOne(HeadsetSwitch, hw);
        ReleasesBefore([Release(HeadsetSwitch)], [HeadsetSwitch], Unwind(ErrFiniUtils, build), [MachineData, AsocUtils], hw);
      } else {
        assert Unwind(ErrUnregisterSwitch, build) == Unwind(ErrFiniUtils, build);
        assert HeldAt(ErrUnregisterSwitch, build) == HeldAt(ErrFiniUtils, build);
      }
    case ErrUnregisterCard =>
      UnwindReleasesHeld(ErrUnregisterSwitch, build, hw);
      ReleaseOne(SoundCard, hw);
      ReleasesBefore([Release(SoundCard)], [SoundCard], Unwind(ErrUnregisterSwitch, build), HeldAt(ErrUnregisterSwitch, build), hw);
  }

  /** A run of acquisitions holding what `at` expects, followed by that label's unwinding. */
  lemma LadderUnwinds(pre: seq<Call>, at: Label, build: Build, hw: Hw)
    requires AllAcquires(pre)
    requires Acquired(pre, hw) == HeldAt(at, build) && Released(pre) == []
    ensures Released(pre + Unwind(at, build)) == Reverse(Acquired(pre + Unwind(at, build), hw))
    ensures AcquireThenRelease(pre + Unwind(at, build))
  {
    var u := Unwind(at, build);
    UnwindReleasesHeld(at, build, hw);
    AcquiredAppend(pre, u, hw);
    ReleasedAppend(pre, u);
    assert Released(pre + u) == Reverse(HeldAt(at, build)) by {
      assert [] + Reverse(HeldAt(at, build)) == Reverse(HeldAt(at, build));
    }
    assert Acquired(pre + u, hw) == HeldAt(at, build) by {
      assert HeldAt(at, build) + [] == HeldAt(at, build);
    }
    var t := pre + u;
    forall i, j | 0 <= i < j < |t| && t[i].Release?
      ensures t[j].Release?
    {
      if j >= |pre| {
        assert t[j] == u[j - |pre|];
      }
    }
  }

  // ---------------------------------------------------------------------------
  // Probe and remove, read back

  /** Appending an acquisition to a run of acquisitions. */
  lemma AcquireMore(pre: seq<Call>, r: Resource, hw: Hw)
    requires AllAcquires(pre) && Released(pre) == []
    ensures AllAcquires(pre + [Acquire(r)]) && Released(pre + [Acquire(r)]) == []
    ensures Acquired(pre + [Acquire(r)], hw) == Acquired(pre, hw) + if Held(r, hw(Acquire(r))) then [r] else []
  {
    AcquiredSnoc(pre, Acquire(r), hw);
    ReadAcquire(r, hw);
  }

  /** The optional switch acquisition. */
  lemma AcquireSwitch(pre: seq<Call>, build: Build, hw: Hw)
    requires AllAcquires(pre) && Released(pre) == []
    requires build.switchClass ==> Held(HeadsetSwitch, hw(Acquire(HeadsetSwitch)))
    ensures var t := pre + (if build.switchClass then [Acquire(HeadsetSwitch)] else []);
      AllAcquires(t) && Released(t) == []
      && Acquired(t, hw) == Acquired(pre, hw) + (if build.switchClass then [HeadsetSwitch] else [])
  {
    if build.switchClass {
      AcquireMore(pre, HeadsetSwitch, hw);
    } else {
      assert pre + [] == pre;
      assert Acquired(pre, hw) + [] == Acquired(pre, hw);
    }
  }

  /** The first acquisition, when the allocation succeeds. */
  lemma AcquireMachine(hw: Hw)
    requires Held(MachineData, hw(Acquire(MachineData)))
    ensures AllAcquires([Acquire(MachineData)]) && Released([Acquire(MachineData)]) == []
    ensures Acquired([Acquire(MachineData)], hw) == [MachineData]
  {
    ReadAcquire(MachineData, hw);
  }

  /** The acquisitions of a probe that gets past the clock utilities. */
  lemma ProbeHoldsUtils(hw: Hw)
    requires Held(MachineData, hw(Acquire(MachineData))) && hw(Acquire(AsocUtils)) == 0
    ensures var t := [Acquire(MachineData)] + [Acquire(AsocUtils)];
      AllAcquires(t) && Released(t) == [] && Acquired(t, hw) == [MachineData, AsocUtils]
  {
    AcquireMachine(hw);
    AcquireMore([Acquire(MachineData)], AsocUtils, hw);
  }

  /** A failed probe releases exactly what it acquired, in reverse order,
      and acquires nothing after its first release. */
  lemma ProbeFailureUnwinds(pdata: Option<PlatformData>, build: Build, instantiated: bool, hw: Hw)
    requires Probe(pdata, build, instantiated, hw).outcome.status != 0
    ensures var t := Probe(pdata, build, instantiated, hw).outcome.trace;
      Released(t) == Reverse(Acquired(t, hw))
    ensures AcquireThenRelease(Probe(pdata, build, instantiated, hw).outcome.trace)
  {
    var t := Probe(pdata, build, instantiated, hw).outcome.trace;
    var alloc := [Acquire(MachineData)];
    var utils := alloc + [Acquire(AsocUtils)];
    var switch := utils + (if build.switchClass then [Acquire(HeadsetSwitch)] else []);
    var card := switch + [Acquire(SoundCard)];
    if pdata.None? {
      assert t == [];
    } else if !Held(MachineData, hw(Acquire(MachineData))) {
      assert t == alloc;
      ReadAcquire(MachineData, hw);
    } else if hw(Acquire(AsocUtils)) != 0 {
      AcquireMachine(hw);
      AcquireMore(alloc, AsocUtils, hw);
      LadderUnwinds(utils, ErrFreeMachine, build, hw);
    } else if build.switchClass && hw(Acquire(HeadsetSwitch)) < 0 {
      ProbeHoldsUtils(hw);
      AcquireMore(utils, HeadsetSwitch, hw);
      LadderUnwinds(switch, ErrFiniUtils, build, hw);
    } else {
      ProbeHoldsUtils(hw);
      AcquireSwitch(utils, build, hw);
      AcquireMore(switch, SoundCard, hw);
      if hw(Acquire(SoundCard)) != 0 {
        assert Acquired(card, hw) == HeldAt(ErrUnregisterSwitch, build);
        LadderUnwinds(card, ErrUnregisterSwitch, build, hw);
      } else {
        assert Acquired(card, hw) == HeldAt(ErrUnregisterCard, build);
        LadderUnwinds(card, ErrUnregisterCard, build, hw);
      }
    }
  }

  /** A successful probe holds every resource of the build, acquired in
      order, and releases none. */
  lemma ProbeSuccessHoldsAll(pdata: Option<PlatformData>, build: Build, instantiated: bool, hw: Hw)
    requires Probe(pdata, build, instantiated, hw).outcome.status == 0
    ensures var t := Probe(pdata, build, instantiated, hw).outcome.trace;
      Acquired(t, hw) == Resources(build) && Released(t) == [] && AllAcquires(t)
    ensures instantiated && pdata.Some?
  {
    var utils := [Acquire(MachineData)] + [Acquire(AsocUtils)];
    var switch := utils + (if build.switchClass then [Acquire(HeadsetSwitch)] else []);
    ProbeHoldsUtils(hw);
    AcquireSwitch(utils, build, hw);
    AcquireMore(switch, SoundCard, hw);
  }

  /** Remove releases every resource of the build in reverse acquisition order. */
  lemma RemoveReleasesInReverse(build: Build, hw: Hw)
    ensures Released(Remove(build).trace) == Reverse(Resources(build))
    ensures Acquired(Remove(build).trace, hw) == []
  {
    var sw := if build.switchClass then [Release(HeadsetSwitch)] else [];
    assert Remove(build).trace == [Release(SoundCard)] + Unwind(ErrUnregisterSwitch, build);
    UnwindReleasesHeld(ErrUnregisterCard, build, hw);
  }

  /** Probe followed by remove leaves nothing held: remove releases, in
      reverse, exactly what a successful probe acquired. */
  lemma ProbeRemoveBalanced(pdata: Option<PlatformData>, build: Build, instantiated: bool, hw: Hw)
    requires Probe(pdata, build, instantiated, hw).outcome.status == 0
    ensures Released(Remove(build).trace) == Reverse(Acquired(Probe(pdata, build, instantiated, hw).outcome.trace, hw))
  {
    ProbeSuccessHoldsAll(pdata, build, instantiated, hw);
    RemoveReleasesInReverse(build, hw);
  }
}
