/**
  Headphone-jack reporting: the jack GPIO descriptor, the "h2w" switch
  notifier used with CONFIG_SWITCH, and the DAPM pin table used without it.

  A jack status is the set of SND_JACK_* types currently reported.  The raw
  value handed to snd_soc_jack_report is an integer bit mask; `StatusOf`
  reads it through the report mask the way the jack core does
  (`status & mask`).
 */
module Jack {
  import opened DriverTypes

  // ---------------------------------------------------------------------------
  // Status bits

  /** Bit number of each SND_JACK_* type (SND_JACK_HEADPHONE = 0x0001, ...). */
  function BitOf(t: JackType): nat
  {
    match t
    case Headphone => 0
    case Microphone => 1
    case LineOut => 2
    case Mechanical => 3
    case VideoOut => 4
    case LineIn => 5
  }

  function Pow2(n: nat): (p: nat)
    ensures p >= 1
  {
    if n == 0 then 1 else 2 * Pow2(n - 1)
  }

  /** Bit `b` of the two's-complement value `v` (floor division, so negative values work too). */
  predicate BitSet(v: int, b: nat)
  {
    (v / Pow2(b)) % 2 == 1
  }

  /** The jack types of `mask` whose bit is set in the raw report value `v`. */
  function StatusOf(v: int, mask: set<JackType>): (s: set<JackType>)
    ensures s <= mask
    ensures forall t :: t in s <==> t in mask && BitSet(v, BitOf(t))
  {
    set t | t in mask && BitSet(v, BitOf(t))
  }

  /** Through the headphone mask, a raw value reports the headphone exactly when it is odd. */
  lemma HeadphoneStatusOf(v: int)
    ensures StatusOf(v, {Headphone}) == if v % 2 == 1 then {Headphone} else {}
  {
    assert Pow2(0) == 1;
    if v % 2 == 1 {
      assert Headphone in StatusOf(v, {Headphone});
    } else {
      assert Headphone !in StatusOf(v, {Headphone});
    }
  }

  // ---------------------------------------------------------------------------
  // The headphone-detect GPIO

  /** A snd_soc_jack_gpio descriptor (the fields the driver fills in or reads). */
  datatype JackGpio = JackGpio(
    name: string,
    report: set<JackType>,
    debounceMs: nat,
    gpio: int,
    invert: bool
  )

  /** tegra_alc5624_hp_jack_gpio with its `.gpio` set from the machine's
      headphone-detect line, as tegra_alc5624_init does; `.invert` is never set. */
  function HpJackGpio(gpioHpDet: int): (g: JackGpio)
    ensures g.report == {Headphone} && g.debounceMs == 150
    ensures g.gpio == gpioHpDet && !g.invert
  {
    JackGpio("headphone detect", {Headphone}, 150, gpioHpDet, false)
  }

  // ---------------------------------------------------------------------------
  // CONFIG_SWITCH: the "h2w" switch notifier

  /** headset_state values, copied by the driver from Android's WiredAccessoryObserver. */
  const BitNoHeadset: int := 0
  const BitHeadset: int := 1
  const BitHeadsetNoMic: int := 2

  /** NOTIFY_OK. */
  const NotifyOk: int := 1

  /** tegra_alc5624_jack_notifier: the switch state for a jack action. */
  function SwitchState(action: set<JackType>): (state: int)
    ensures state == BitHeadsetNoMic <==> action == {Headphone}
    ensures state == BitNoHeadset <==> action != {Headphone}
  {
    if action == {Headphone} then BitHeadsetNoMic else BitNoHeadset
  }

  /** tegra_alc5624_jack_notifier: sets the switch state and returns NOTIFY_OK. */
  function JackNotifier(action: set<JackType>): (o: Outcome)
    ensures o.status == NotifyOk
    ensures o.trace == [SwitchSetState(SwitchState(action))]
  {
    Outcome(NotifyOk, [SwitchSetState(SwitchState(action))])
  }

  // ---------------------------------------------------------------------------
  // Without CONFIG_SWITCH: the DAPM pin table

  /** A snd_soc_jack_pin entry. */
  datatype JackPin = JackPin(pin: Pin, mask: set<JackType>, invert: bool)

  /** tegra_jack_pins. */
  const JackPins: seq<JackPin> := [
    JackPin(InternalSpeaker, {Headphone}, true),
    JackPin(HeadphoneJack, {Headphone}, false)
  ]

  /** The meaning of a pin entry: the pin is enabled when the status meets its
      mask, or, for an inverted entry, when it does not. */
  predicate PinEnabled(p: JackPin, status: set<JackType>)
  {
    (status * p.mask != {}) != p.invert
  }

  /** The first entry of `pins` for the pin named `name`. */
  function FindPin(pins: seq<JackPin>, name: Pin): (r: Option<JackPin>)
    ensures r.None? <==> forall i :: 0 <= i < |pins| ==> pins[i].pin != name
    ensures r.Some? ==> r.value in pins && r.value.pin == name
    ensures r.Some? ==> exists k :: 0 <= k < |pins| && pins[k] == r.value && forall i :: 0 <= i < k ==> pins[i].pin != name
  {
    if pins == [] then None
    else if pins[0].pin == name then Some(pins[0])
    else
      var r := FindPin(pins[1..], name);
      assert forall i :: 1 <= i < |pins| ==> pins[1..][i - 1] == pins[i];
      r
  }

  /** Whether the table turns the pin named `name` on for `status` (None: the table does not name it).
      The jack core applies every entry in turn, so for a pin named twice the last
      entry would win; this reads the first one, which agrees with the core only
      for a table naming each pin once, as `JackPinsNameEachPinOnce` shows of
      `JackPins`. */
  function TableEnables(pins: seq<JackPin>, name: Pin, status: set<JackType>): Option<bool>
  {
    match FindPin(pins, name)
    case None => None
    case Some(p) => Some(PinEnabled(p, status))
  }

  /** No two entries of the pin table name the same pin. */
  lemma JackPinsNameEachPinOnce()
    ensures forall i, j :: 0 <= i < j < |JackPins| ==> JackPins[i].pin != JackPins[j].pin
  {
  }

  /** The pin table enables the speaker exactly when the headphone is not
      reported and the headphone jack exactly when it is. */
  lemma PinTableRoutesOutput(status: set<JackType>)
    ensures TableEnables(JackPins, InternalSpeaker, status) == Some(Headphone !in status)
    ensures TableEnables(JackPins, HeadphoneJack, status) == Some(Headphone in status)
  {
    assert JackPins[0].pin == InternalSpeaker;
    assert JackPins[1].pin == HeadphoneJack;
    assert JackPins[1..][0] == JackPins[1];
    assert HeadphoneJack != InternalSpeaker;
    MeetsHeadphone(status);
  }

  /** A status meets the headphone mask exactly when it holds the headphone. */
  lemma MeetsHeadphone(status: set<JackType>)
    ensures status * {Headphone} != {} <==> Headphone in status
  {
    if Headphone in status {
      assert Headphone in status * {Headphone};
    } else {
      assert forall t :: t in status * {Headphone} ==> t == Headphone;
    }
  }

  /** The table names no other pin. */
  lemma PinTableNamesOnlyOutputs(name: Pin)
    requires name != InternalSpeaker && name != HeadphoneJack
    ensures TableEnables(JackPins, name, {}).None?
  {
  }

  /** Exactly one of the two outputs is on, whatever the status. */
  lemma ExactlyOneOutput(status: set<JackType>)
    ensures PinEnabled(JackPins[0], status) != PinEnabled(JackPins[1], status)
  {
    MeetsHeadphone(status);
  }

  /** For the statuses the headphone GPIO can produce (a subset of its report
      mask), the switch says "headset without mic" exactly when the pin table
      turns the headphone jack on: both builds route the same way. */
  lemma SwitchAgreesWithPins(status: set<JackType>)
    requires status <= {Headphone}
    ensures SwitchState(status) == BitHeadsetNoMic <==> TableEnables(JackPins, HeadphoneJack, status) == Some(true)
    ensures SwitchState(status) == BitNoHeadset <==> TableEnables(JackPins, InternalSpeaker, status) == Some(true)
  {
    PinTableRoutesOutput(status);
    if Headphone in status {
      assert status == {Headphone};
    } else {
      assert status == {};
    }
  }

  /** Outside the report mask the two styles part: a status with another bit
      beside the headphone still enables the headphone pin, but the switch
      reports no headset, since the notifier compares the whole action. */
  lemma SwitchComparesWholeAction()
    ensures SwitchState({Headphone, Microphone}) == BitNoHeadset
    ensures TableEnables(JackPins, HeadphoneJack, {Headphone, Microphone}) == Some(true)
  {
    PinTableRoutesOutput({Headphone, Microphone});
    assert {Headphone, Microphone} != {Headphone} by {
      assert Microphone in {Headphone, Microphone};
    }
  }
}
