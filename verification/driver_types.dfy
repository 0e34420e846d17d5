/**
  Shared vocabulary of the Shuttle (Tegra + ALC5624) ASoC machine driver model.

  Every call the driver makes into the clock utilities, the ASoC core, the
  codec/CPU DAI drivers, the GPIO layer or the Tegra20 DAS is a `Call` value.
  A handler is a pure function that returns the status it hands back to its
  caller together with the ordered trace of calls it made.  The answers the
  outside world gives to those calls are an oracle `Hw`, so a single handler
  covers every possible behaviour of the hardware and of the framework.
 */
module DriverTypes {

  datatype Option<+T> = None | Some(value: T)

  /** Linux error numbers used by the driver (returned negated). */
  const EINVAL: int := 22
  const ENOMEM: int := 12
  const ENODEV: int := 19

  /** Data-format part of a DAI format word (SND_SOC_DAIFMT_I2S, _DSP_A, ...). */
  datatype DataFormat = I2S | RightJ | LeftJ | DspA | DspB

  /** Clock-master part of a DAI format word, seen from the codec. */
  datatype Clocking =
    | CbmCfm   // codec drives bit clock and frame sync
    | CbsCfs   // codec is slave for both

  /** A DAI format word: base data format OR'ed with the master/slave bits. */
  datatype DaiFormat = DaiFormat(base: DataFormat, clocking: Clocking)

  /** The two ends of a DAI link. */
  datatype Dai = CpuDai | CodecDai

  /** Tegra20 DAS endpoints used by the driver. */
  datatype DasDac = Dac1 | Dac2
  datatype DasDap = Dap1 | Dap4

  /** Jack status bits (SND_JACK_*); a jack status is a set of them. */
  datatype JackType = Headphone | Microphone | LineOut | Mechanical | VideoOut | LineIn

  /** The DAPM endpoints the driver names. */
  datatype Pin =
    | LineL | LineR | PhoneIn | Mic1 | Mono          // codec inputs and outputs not wired on the board
    | InternalSpeaker | InternalMic | HeadphoneJack  // the machine's own widgets
    | MicBias2                                      // the codec's second microphone bias

  /** The widget name of each endpoint. */
  function PinName(p: Pin): string
  {
    match p
    case LineL => "LINEL"
    case LineR => "LINER"
    case PhoneIn => "PHONEIN"
    case Mic1 => "MIC1"
    case Mono => "MONO"
    case InternalSpeaker => "Internal Speaker"
    case InternalMic => "Internal Mic"
    case HeadphoneJack => "Headphone Jack"
    case MicBias2 => "Mic Bias2"
  }

  /** Resources the probe routine acquires, in acquisition order. */
  datatype Resource =
    | MachineData   // kzalloc of the private context / kfree
    | AsocUtils     // tegra_asoc_utils_init / tegra_asoc_utils_fini
    | HeadsetSwitch // switch_dev_register / switch_dev_unregister ("h2w")
    | SoundCard     // snd_soc_register_card / snd_soc_unregister_card

  /** Every externally visible call the driver makes. */
  datatype Call =
    | SetRate(srate: int, mclk: int)           // tegra_asoc_utils_set_rate
    | LockClkRate(lock: bool)                  // tegra_asoc_utils_lock_clk_rate(.., 1 / 0)
    | SetFmt(dai: Dai, fmt: DaiFormat)         // snd_soc_dai_set_fmt
    | SetPll(freqIn: int, freqOut: int)        // snd_soc_dai_set_pll(codec_dai, 0, 0, in, out)
    | SetSysclk(dai: Dai, freq: int)           // snd_soc_dai_set_sysclk(dai, 0, freq, SND_SOC_CLOCK_IN)
    | DasDacToDap(dac: DasDac, dap: DasDap)    // tegra20_das_connect_dac_to_dap
    | DasDapToDac(dap: DasDap, dac: DasDac)    // tegra20_das_connect_dap_to_dac
    | ClkEnable                                // tegra_asoc_utils_clk_enable
    | ClkDisable                               // tegra_asoc_utils_clk_disable
    | DisableIrq(gpio: int)                    // disable_irq(gpio_to_irq(gpio))
    | EnableIrq(gpio: int)                     // enable_irq(gpio_to_irq(gpio))
    | Msleep(ms: nat)                          // msleep
    | GpioGetValue(gpio: int)                  // gpio_get_value
    | JackReport(value: int, mask: set<JackType>)  // snd_soc_jack_report
    | SwitchSetState(state: int)               // switch_set_state on the "h2w" switch
    | Acquire(res: Resource)                   // the acquiring call for `res`
    | Release(res: Resource)                   // the releasing call for `res`
    | JackNew                                  // snd_soc_jack_new("Headphone Jack")
    | JackAddPins                              // snd_soc_jack_add_pins(tegra_jack_pins)
    | JackNotifierRegister                     // snd_soc_jack_notifier_register
    | JackAddGpios                             // snd_soc_jack_add_gpios
    | DapmNcPin(pin: Pin)                      // snd_soc_dapm_nc_pin
    | DapmEnablePin(pin: Pin)                  // snd_soc_dapm_enable_pin
    | DapmForceEnablePin(pin: Pin)             // snd_soc_dapm_force_enable_pin
    | DapmSync                                 // snd_soc_dapm_sync

  /** The outside world: the value each call returns (ignored for void calls). */
  type Hw = Call -> int

  /** What a handler returns to its caller, and the calls it made on the way. */
  datatype Outcome = Outcome(status: int, trace: seq<Call>)

  /** Compile-time configuration of the driver. */
  datatype Build = Build(
    switchClass: bool,  // CONFIG_SWITCH: jack changes go to the "h2w" switch instead of DAPM pins
    tegra20Das: bool    // CONFIG_ARCH_TEGRA_2x_SOC: hw_params also connects the DAS paths
  )

  /** Board configuration handed over in the platform data. */
  datatype PlatformData = PlatformData(
    gpioHpDet: int,
    hifiCodecFormat: DataFormat,
    hifiCodecMaster: bool,
    btCodecFormat: DataFormat,
    btCodecMaster: bool
  )

  /** The driver's private context (the fields that steer decisions). */
  datatype Machine = Machine(
    gpioHpDet: int,
    hifiCodecFormat: DataFormat,
    hifiCodecMaster: bool,
    btCodecFormat: DataFormat,
    btCodecMaster: bool
  )

  /** Number of occurrences of `c` in a trace. */
  function Count(trace: seq<Call>, c: Call): nat
  {
    if trace == [] then 0 else (if trace[0] == c then 1 else 0) + Count(trace[1..], c)
  }

  /** Counting distributes over concatenation. */
  lemma {:induction false} CountAppend(a: seq<Call>, b: seq<Call>, c: Call)
    ensures Count(a + b, c) == Count(a, c) + Count(b, c)
  {
    if a == [] {
      assert a + b == b;
    } else {
      assert (a + b)[0] == a[0];
      assert (a + b)[1..] == a[1..] + b;
      assert Count(a + b, c) == (if a[0] == c then 1 else 0) + Count(a[1..] + b, c);
      CountAppend(a[1..], b, c);
    }
  }

  /** Counting in a trace of two calls. */
  lemma CountTwo(a: Call, b: Call, c: Call)
    ensures Count([a, b], c) == (if a == c then 1 else 0) + (if b == c then 1 else 0)
  {
    assert [a, b][1..] == [b];
    assert [b][1..] == [];
    assert Count([b], c) == (if b == c then 1 else 0) + Count([], c);
  }

  /** Counting in a trace of three calls. */
  lemma CountThree(a: Call, b: Call, d: Call, c: Call)
    ensures Count([a, b, d], c) == (if a == c then 1 else 0) + (if b == c then 1 else 0) + (if d == c then 1 else 0)
  {
    assert [a, b, d][1..] == [b, d];
    CountTwo(b, d, c);
  }

  /** A call that does not occur has count 0. */
  lemma {:induction false} CountAbsent(trace: seq<Call>, c: Call)
    requires c !in trace
    ensures Count(trace, c) == 0
  {
    if trace != [] {
      assert c !in trace[1..];
      CountAbsent(trace[1..], c);
    }
  }

  /** Index of the first occurrence of `c` in `trace`, or |trace| if absent. */
  function IndexOf(trace: seq<Call>, c: Call): (k: nat)
    ensures k <= |trace|
    ensures k < |trace| ==> trace[k] == c
    ensures forall j :: 0 <= j < k ==> trace[j] != c
  {
    if trace == [] then 0
    else if trace[0] == c then 0
    else 1 + IndexOf(trace[1..], c)
  }
}
