# tegra_alc5624: a Dafny model of the Tegra/ALC5624 ASoC machine driver

This project models the machine driver `sound/soc/tegra/tegra_alc5624.c`. The
driver sets up the sound card of the Shuttle board: a Tegra 2 SoC with an
ALC5624 codec on the HiFi link, plus Bluetooth SCO and SPDIF links. The model
covers:

- the MCLK table (`clocktab`);
- how each link picks a master clock for a sample rate;
- the `set_mclk` fallback taken when `tegra_asoc_utils_set_rate` fails, and the
  clock-rate lock taken after it;
- HiFi DAI negotiation: the format word, the codec PLL search in codec-master
  mode, PLL disable in slave mode, and the codec sysclk;
- the shared `hw_free`;
- headphone-jack reporting: the "h2w" switch notifier under CONFIG_SWITCH, the
  DAPM pin table without it;
- the init callback's jack set-up and pin defaults;
- the suspend_post / resume_pre hooks;
- platform probe, with its goto-ladder rollback, and remove.

Every framework or hardware call the driver makes is a value of the datatype
`Call`. The answer it returns comes from an oracle `hw: Call -> int`. Each
driver routine is then a pure function from:

- its configuration (platform data, build flags);
- the request (sample rate);
- the oracle, and the MCLK the clock utilities currently hold;

to an `Outcome`: the status code it returns and the calls it made, in order.
Two build options are explicit fields of `Build`: CONFIG_SWITCH (`switchClass`)
and CONFIG_ARCH_TEGRA_2x_SOC (`tegra20Das`, the DAS connect calls).

Modules:

- `DriverTypes` (driver_types.dfy): shared datatypes, error codes, the `Call`
  vocabulary, and counting over traces.
- `ClockTable` (clock_table.dfy): `clocktab`, the HiFi first-match lookup, and
  the rate-class switch of the SCO and SPDIF links.
- `DaiLinks` (dai_links.dfy): the three `hw_params` handlers and `hw_free`.
- `LinkProperties` (link_properties.dfy): lemmas about those handlers.
- `Jack` (jack.dfy): the jack GPIO descriptor, the switch notifier, the pin
  table.
- `Card` (card.dfy): the init callback, suspend and resume.
- `Lifecycle` (lifecycle.dfy): probe and remove.

Two consequences of the code as written are proved as scenarios. They are not
claimed as defects, because the behaviour of the clock utilities lies outside this model:

- `LinkProperties.Spdif64kRefusesItsOwnClock`: at 64 kHz, SPDIF asks for
  12.288 MHz. That clock is not a multiple of its own threshold 128 × 64000. So
  if `set_rate` fails while exactly that clock is set, the fallback still
  refuses it.
- `LinkProperties.FallbackAcceptsZeroMclk`: a `set_mclk` of 0 passes every
  fallback test, so a failed `set_rate` leaves the link running from 0 Hz. The
  Bluetooth link (`LinkProperties.BtScoZeroSysclk`) and the HiFi link with the
  codec as slave (`LinkProperties.HiFiSlaveZeroSysclk`) then program a 0 Hz
  sysclk. SPDIF never sets a sysclk, and a HiFi codec master programs the PLL
  output instead.

## Model

| member | source | states |
|---|---|---|
| ClockTable.InitialSysClk | sound/soc/tegra/tegra_alc5624.c:120-135 | The HiFi sys_clk is the first candidate MCLK of the table for the rate, in declaration order. When no row has the rate it is 12000000. |
| ClockTable.RateClassClock | sound/soc/tegra/tegra_alc5624.c:292-309 | 11289600 exactly for {11025, 22050, 44100, 88200}. 12288000 exactly for {8000, 16000, 32000, 48000, 64000, 96000}. No clock (the -EINVAL path) exactly for every other rate. |
| ClockTable.FirstMclk | sound/soc/tegra/tegra_alc5624.c:130-135 | The first-match scan finds nothing exactly when no row has the rate. Otherwise it returns the first candidate. |
| ClockTable.MclksSound | sound/soc/tegra/tegra_alc5624.c:69-105 | Every candidate MCLK for a rate is the MCLK of a table row with that rate. |
| ClockTable.CandidatesByGroup | sound/soc/tegra/tegra_alc5624.c:69-105 | The candidate list of any rate, spelled out per rate group in table order. |
| ClockTable.TableOversampling | sound/soc/tegra/tegra_alc5624.c:69-105 | Every row's MCLK is at least 256 fs and a multiple of 128 fs. |
| ClockTable.TableRatesHaveClassClock | sound/soc/tegra/tegra_alc5624.c:69-105 | Every rate in the table is also a class rate, and its class clock is one of its table candidates. |
| ClockTable.ClassRatesMissingFromTable | sound/soc/tegra/tegra_alc5624.c:120-135 | 64, 88.2 and 96 kHz are class rates with no table row, so the HiFi link falls back to 12 MHz for them. |
| ClockTable.Candidates44k1 | sound/soc/tegra/tegra_alc5624.c:98-100 | The 44.1 kHz candidates are 11289600 and then 22579200. |
| DaiLinks.ClockStep | sound/soc/tegra/tegra_alc5624.c:138-148 | Succeeds exactly when set_rate succeeds or set_mclk is a multiple of the threshold. On success it calls set_rate and then lock(1), and adopts the preferred clock or set_mclk. On failure it returns set_rate's error with no lock call. |
| DaiLinks.DaiWord | sound/soc/tegra/tegra_alc5624.c:152-170 | The format word keeps the configured data format, with CBM_CFM exactly when the codec is master and CBS_CFS exactly when it is not. |
| DaiLinks.DasConnect | sound/soc/tegra/tegra_alc5624.c:230-244 | Without the Tegra20 DAS build it makes no call and returns 0. With it, it connects DAC to DAP and then DAP to DAC. It succeeds exactly when both succeed, and stops at the first failure. |
| DaiLinks.FirstAccepted | sound/soc/tegra/tegra_alc5624.c:195-205 | The index of the first candidate the codec PLL accepts. Every earlier candidate was refused. |
| DaiLinks.PllSearchIn | sound/soc/tegra/tegra_alc5624.c:195-205 | The scan skips rows of other rates and tries the PLL on each matching row in order. It stops at the first success, whose MCLK it returns. It finds nothing when every matching row is refused. |
| DaiLinks.CodecPll | sound/soc/tegra/tegra_alc5624.c:188-221 | Codec master: the PLL attempts are the candidates up to the first accepted one, which becomes sys_clk; when none is accepted the result is -EINVAL. Codec slave: one set_pll(0,0) call, whose error is passed on; sys_clk is unchanged. |
| DaiLinks.HiFiTail | sound/soc/tegra/tegra_alc5624.c:223-244 | Sets the codec sysclk, then the DAC1/DAP1 paths. A sysclk failure ends the call with its error. |
| DaiLinks.HiFiConfigure | sound/soc/tegra/tegra_alc5624.c:150-244 | The format goes to the CPU DAI, then the codec DAI; the first failure ends the call with its error. After both succeed comes the PLL stage, and then the sysclk/DAS tail from the PLL's sys_clk. |
| DaiLinks.HiFiHwParams | sound/soc/tegra/tegra_alc5624.c:110-247 | The first call is set_rate with the table clock. A refused clock step ends the call with set_rate's error and no lock. Otherwise lock(1) follows, then the configuration from the adopted clock. |
| DaiLinks.ClassClock | sound/soc/tegra/tegra_alc5624.c:370-387 | For a supported rate, the clock the SPDIF switch picks is 11289600 exactly for the 44.1 kHz family and 12288000 exactly for the 48 kHz family (the Bluetooth switch is the same). |
| DaiLinks.BtScoTail | sound/soc/tegra/tegra_alc5624.c:324-352 | CPU sysclk, then codec sysclk, then the DAC2/DAP4 paths; each failure ends the call with its error. |
| DaiLinks.BtScoClocking | sound/soc/tegra/tegra_alc5624.c:290-352 | A rate outside both classes gives -EINVAL with no clock call. Otherwise set_rate is called with the class clock and the fallback threshold is 64 × srate. A refusal returns set_rate's error. Acceptance takes the lock, then programs the adopted clock. |
| DaiLinks.BtScoHwParams | sound/soc/tegra/tegra_alc5624.c:249-355 | The format word goes to the CPU DAI and then the codec DAI before the rate is looked at; each failure ends the call. After both succeed comes the clocking stage. |
| DaiLinks.SpdifHwParams | sound/soc/tegra/tegra_alc5624.c:357-403 | Only set_rate and lock calls, never a DAI format, PLL or sysclk. A rate outside both classes gives -EINVAL with no call. Success holds exactly when the class clock passes the clock step with threshold 128 × srate, and the calls are then set_rate followed by lock(1). A refusal makes only the set_rate call and returns its error. |
| DaiLinks.HwFree | sound/soc/tegra/tegra_alc5624.c:405-428 | The shared hw_free returns 0 and makes exactly one call, lock(0). |
| LinkProperties.HiFiLockCount | sound/soc/tegra/tegra_alc5624.c:138-148 | The HiFi handler calls lock(1) once when its clock step is accepted, and never otherwise. It never calls lock(0). |
| LinkProperties.BtScoClockingLockCount | sound/soc/tegra/tegra_alc5624.c:310-322 | The Bluetooth clock stage calls lock(1) once exactly when its clock step is accepted, and never calls lock(0). |
| LinkProperties.BtScoLockCount | sound/soc/tegra/tegra_alc5624.c:249-355 | The Bluetooth handler calls lock(1) once exactly when framing and the clock step pass, and never calls lock(0). |
| LinkProperties.SpdifLockCount | sound/soc/tegra/tegra_alc5624.c:388-400 | The SPDIF handler calls lock(1) once exactly when its clock step is accepted, and never calls lock(0). |
| LinkProperties.HwParamsLockDiscipline | sound/soc/tegra/tegra_alc5624.c:415-428 | For every link, hw_params never calls lock(0), even when a later step fails. It calls lock(1) once exactly when it gets past its clock step. It cannot return 0 without the lock. |
| LinkProperties.StreamSessionLockBalance | sound/soc/tegra/tegra_alc5624.c:405-428 | hw_params followed by hw_free makes exactly one lock(0), and one lock(1) exactly when hw_params took the lock. |
| LinkProperties.CodecPllCallsArePll | sound/soc/tegra/tegra_alc5624.c:188-221 | The PLL stage makes only set_pll calls. |
| LinkProperties.HiFiConfigureNoLock | sound/soc/tegra/tegra_alc5624.c:150-244 | Nothing after the HiFi clock step touches the lock. |
| LinkProperties.HwParamsStopsAtFirstFailure | sound/soc/tegra/tegra_alc5624.c:110-403 | A failing hw_params returns -EINVAL when the driver itself rejected the request (unknown rate, no PLL output). Otherwise it returns the code of its last call. Every earlier call succeeded or was a tolerated failure: a set_rate the fallback absorbed, or a refused PLL candidate. |
| LinkProperties.HiFiStopsAtFirstFailure | sound/soc/tegra/tegra_alc5624.c:110-247 | The HiFi instance of the first-failure rule. |
| LinkProperties.BtScoStopsAtFirstFailure | sound/soc/tegra/tegra_alc5624.c:249-355 | The Bluetooth instance of the first-failure rule. |
| LinkProperties.HiFiStopsInPll | sound/soc/tegra/tegra_alc5624.c:188-221 | When the PLL stage fails, the HiFi trace ends with its attempts, and every call before them succeeded. |
| LinkProperties.HiFiFramingFailTrace | sound/soc/tegra/tegra_alc5624.c:176-186 | A framing failure ends the HiFi call right after the failed set_fmt, with that error and no PLL or sysclk call. |
| LinkProperties.HiFiPllStatus | sound/soc/tegra/tegra_alc5624.c:188-221 | A failed PLL stage means, for a master codec, that no candidate was accepted (-EINVAL). For a slave codec it means that set_pll(0,0) failed with the returned code. |
| LinkProperties.HiFiMasterPllSearch | sound/soc/tegra/tegra_alc5624.c:188-228 | Codec master: after the four clock and framing calls, the PLL is tried on the rate's candidates in table order, up to the first success. The codec sysclk is then set to that candidate. With none, the result is -EINVAL right after the attempts. |
| LinkProperties.HiFiSlavePllDisable | sound/soc/tegra/tegra_alc5624.c:212-228 | Codec slave: the fifth call is set_pll(0,0). Its error ends the call. Otherwise the codec sysclk is set to the adopted clock. |
| LinkProperties.BtScoSysClkIsMultipleOf64fs | sound/soc/tegra/tegra_alc5624.c:290-336 | A successful Bluetooth call programs the same clock into the CPU and codec DAIs, and that clock is a multiple of 64 fs. |
| LinkProperties.BtScoReusesLockedClock | sound/soc/tegra/tegra_alc5624.c:310-325 | A 24.576 MHz clock already set is adopted by a 16 kHz Bluetooth stream whose own set_rate fails. |
| LinkProperties.BtSco64kClock | sound/soc/tegra/tegra_alc5624.c:299-322 | At 64 kHz, after a failed set_rate, Bluetooth takes the lock exactly when set_mclk is a multiple of 4.096 MHz. |
| LinkProperties.Spdif44k1Clock | sound/soc/tegra/tegra_alc5624.c:370-400 | At 44.1 kHz, after a failed set_rate, SPDIF succeeds exactly when set_mclk is a multiple of 5.6448 MHz. |
| LinkProperties.Spdif64kRefusesItsOwnClock | sound/soc/tegra/tegra_alc5624.c:381-398 | At 64 kHz SPDIF refuses its own preferred 12.288 MHz as a fallback. |
| LinkProperties.FallbackAcceptsZeroMclk | sound/soc/tegra/tegra_alc5624.c:140-141 | A set_mclk of 0 passes every fallback threshold and is the clock adopted when set_rate fails. |
| LinkProperties.HiFiSlaveZeroSysclk | sound/soc/tegra/tegra_alc5624.c:138-146 | HiFi, codec slave: when set_rate fails while set_mclk reads 0 and the PLL disable succeeds, the codec sysclk is set to 0 Hz. |
| LinkProperties.BtScoZeroSysclk | sound/soc/tegra/tegra_alc5624.c:310-336 | Bluetooth, at a supported rate: when set_rate fails while set_mclk reads 0, the CPU DAI sysclk is set to 0 Hz, and so is the codec DAI's once the CPU call succeeds. |
| LinkProperties.HiFiMaster44k1 | sound/soc/tegra/tegra_alc5624.c:195-210 | HiFi codec master at 44.1 kHz: 11.2896 MHz is tried first and 22.5792 MHz only after it fails. When both fail the call returns -EINVAL after six calls. |
| LinkProperties.CodecPll44k1 | sound/soc/tegra/tegra_alc5624.c:195-210 | The PLL stage at 44.1 kHz, case by case. |
| LinkProperties.CodecPllTwoCandidates | sound/soc/tegra/tegra_alc5624.c:195-210 | The PLL stage for a rate with two candidates: the first if accepted, else the second, else -EINVAL. |
| LinkProperties.HiFiMasterUnlistedRate | sound/soc/tegra/tegra_alc5624.c:120-210 | HiFi codec master at a rate with no table row: set_rate is asked for 12 MHz, no PLL is tried, and the call returns -EINVAL after the two format calls. |
| LinkProperties.CodecPllWithoutCandidates | sound/soc/tegra/tegra_alc5624.c:195-210 | With no candidate, the PLL stage makes no call and returns -EINVAL. |
| LinkProperties.ShuttleHiFiFraming | arch/arm/mach-tegra/board-shuttle-audio.c:89-99 | With the Shuttle platform data (codec slave), the HiFi word is I2S with CBS_CFS, and the PLL is disabled right after the two format calls. |
| LinkProperties.ShuttleBtFraming | arch/arm/mach-tegra/board-shuttle-audio.c:97-98 | With the Shuttle platform data, the Bluetooth word is DSP_A with CBM_CFM, sent to the CPU DAI first. |
| Jack.StatusOf | sound/soc/tegra/tegra_alc5624.c:643-646 | The status reported for a raw value is the set of mask types whose bit is set in it. |
| Jack.HeadphoneStatusOf | sound/soc/tegra/tegra_alc5624.c:431-436 | Through the headphone report mask, a value reports the headphone exactly when it is odd. |
| Jack.HpJackGpio | sound/soc/tegra/tegra_alc5624.c:431-436 | The detect descriptor reports the headphone type, debounces for 150 ms, takes its GPIO from the platform data, and is not inverted. |
| Jack.SwitchState | sound/soc/tegra/tegra_alc5624.c:440-466 | The switch state is BIT_HEADSET_NO_MIC (2) exactly for the action SND_JACK_HEADPHONE, and BIT_NO_HEADSET (0) exactly for every other action. |
| Jack.JackNotifier | sound/soc/tegra/tegra_alc5624.c:450-471 | The notifier makes one switch_set_state call, with the state for the action, and returns NOTIFY_OK. |
| Jack.FindPin | sound/soc/tegra/tegra_alc5624.c:480-493 | The lookup finds nothing exactly when no entry names the pin; otherwise it returns the first table entry for that pin. |
| Jack.JackPinsNameEachPinOnce | sound/soc/tegra/tegra_alc5624.c:480-493 | Each pin appears in the table at most once, so reading the first entry for a pin gives the same result as the jack core, which applies every entry in turn. |
| Jack.PinTableRoutesOutput | sound/soc/tegra/tegra_alc5624.c:480-493 | The pin table enables "Internal Speaker" exactly when the headphone is not reported, and "Headphone Jack" exactly when it is. |
| Jack.MeetsHeadphone | sound/soc/tegra/tegra_alc5624.c:484-491 | A status meets the headphone mask exactly when it contains the headphone. |
| Jack.SwitchAgreesWithPins | sound/soc/tegra/tegra_alc5624.c:440-493 | For statuses the detect GPIO can produce, the switch reports a headset exactly when the pin table enables the headphone jack, and no headset exactly when it enables the speaker. |
| Jack.SwitchComparesWholeAction | sound/soc/tegra/tegra_alc5624.c:460-466 | A status with the microphone beside the headphone enables the headphone pin, yet gives switch state 0, because the notifier compares the whole action. |
| Card.Init | sound/soc/tegra/tegra_alc5624.c:522-581 | The first call is snd_soc_jack_new; its failure ends init with its code. Next come the build's jack consumer and add_gpios. When add_gpios fails, init returns its code right after the first three calls, with no pin-default call. The pin defaults and the DAPM sync run exactly when both checked calls succeeded. Init returns 0 exactly when jack_new, add_gpios and sync all return 0; otherwise it returns the code of the checked call it stopped at. |
| Card.InitPinDefaults | sound/soc/tegra/tegra_alc5624.c:560-572 | After init gets past the jack set-up, in either build, the last request for each pin is its default. LINEL, LINER, PHONEIN, MIC1 and MONO are not connected. The speaker, internal mic and headphone jack are enabled. Mic Bias2 is force-enabled. |
| Card.LastRequestAppend | sound/soc/tegra/tegra_alc5624.c:560-572 | A later request for a pin overrides an earlier one. |
| Card.InitHooksConsumerBeforeGpio | sound/soc/tegra/tegra_alc5624.c:536-556 | When the detect GPIO is attached, the jack was created first and its consumer was hooked before the GPIO. |
| Card.InitHooksOneConsumer | sound/soc/tegra/tegra_alc5624.c:543-552 | Init hooks the pin table exactly without CONFIG_SWITCH, and the switch notifier exactly with it. |
| Card.SuspendPost | sound/soc/tegra/tegra_alc5624.c:614-625 | Suspend returns 0 and ends by disabling the codec clock. It masks the jack IRQ exactly when the GPIO is valid, and then before the clock. It makes no other call. |
| Card.ReportedValue | sound/soc/tegra/tegra_alc5624.c:644-645 | The reported value is the GPIO level, or its logical negation for an inverted descriptor. |
| Card.ResumePre | sound/soc/tegra/tegra_alc5624.c:627-651 | Resume returns 0. It starts with the 100 ms delay and the clock enable. For a valid GPIO it then reads the line, reports the value with the report mask, and unmasks the IRQ. Otherwise it makes no further call. |
| Card.ResumeOrdering | sound/soc/tegra/tegra_alc5624.c:638-648 | Resume enables the clock before reading the GPIO and reads it before unmasking the IRQ. The call right before the unmask is the jack report. |
| Card.ResumeWithoutGpio | sound/soc/tegra/tegra_alc5624.c:643 | Without a valid GPIO, resume only waits and enables the clock. |
| Card.SuspendCounts | sound/soc/tegra/tegra_alc5624.c:619-623 | Suspend masks the IRQ once for a valid GPIO and never otherwise, and disables the clock once. |
| Card.ResumeCounts | sound/soc/tegra/tegra_alc5624.c:641-647 | Resume unmasks the IRQ once for a valid GPIO and never otherwise, and enables the clock once. |
| Card.SleepCycleBalanced | sound/soc/tegra/tegra_alc5624.c:614-651 | Over a suspend/resume cycle, the IRQ disables match the enables and the clock disables match the enables. |
| Card.ResumeRoutesOutput | sound/soc/tegra/tegra_alc5624.c:643-647 | For this driver's descriptor and a line reading 0 or 1, resume reports the headphone exactly when the line is high. The pin table and the switch then route the output to the headphone exactly then. |
| Card.InvertedResumeStatus | sound/soc/tegra/tegra_alc5624.c:644-646 | An inverted headphone descriptor reports the headphone exactly when the line reads 0. |
| Lifecycle.Probe | sound/soc/tegra/tegra_alc5624.c:668-749 | Probe returns 0 exactly when it hands back a machine context, which is then filled in from the platform data. Missing platform data gives -EINVAL with no call. A failed allocation gives -ENOMEM with only the allocation attempted. A failed tegra_asoc_utils_init, switch_dev_register (CONFIG_SWITCH) or snd_soc_register_card returns that call's code. A registered card that is not instantiated gives -ENODEV, and an instantiated one gives 0. |
| Lifecycle.Remove | sound/soc/tegra/tegra_alc5624.c:751-767 | Remove returns 0. |
| Lifecycle.UnwindReleasesHeld | sound/soc/tegra/tegra_alc5624.c:737-747 | Each error label, falling through the labels below it, releases in reverse exactly the resources held when it is reached, and acquires nothing. |
| Lifecycle.LadderUnwinds | sound/soc/tegra/tegra_alc5624.c:691-747 | A run of successful acquisitions followed by the matching label's unwinding releases what it acquired, in reverse, and never acquires after releasing. |
| Lifecycle.ProbeFailureUnwinds | sound/soc/tegra/tegra_alc5624.c:678-747 | Every failing probe releases exactly the resources it acquired, in reverse order, and acquires nothing after its first release. |
| Lifecycle.ProbeSuccessHoldsAll | sound/soc/tegra/tegra_alc5624.c:678-735 | A successful probe found platform data and an instantiated card. It acquired every resource of the build in order: machine, utils, switch under CONFIG_SWITCH, card. It released none. |
| Lifecycle.RemoveReleasesInReverse | sound/soc/tegra/tegra_alc5624.c:751-767 | Remove releases the card, the switch under CONFIG_SWITCH, the utils and the machine: the reverse of the acquisition order. It acquires nothing. |
| Lifecycle.ProbeRemoveBalanced | sound/soc/tegra/tegra_alc5624.c:668-767 | Remove after a successful probe releases, in reverse, exactly what probe acquired. |

## Left out

- The internals of `tegra_asoc_utils_*` are not part of this model. `set_rate`'s answer is an oracle and `set_mclk` is an input. The clock-rate lock, clk_enable and clk_disable are only recorded as calls; their refcounting or busy semantics are not modelled.
- ASoC framework internals: DAPM widget evaluation, route resolution, `snd_soc_dapm_sync` beyond its return code, and the 150 ms GPIO debounce. For the jack core's pin update, the model assumes that a pin entry is enabled when the status meets its mask, with `invert` flipping that (`Jack.PinEnabled`).
- The widget, route and control tables (sound/soc/tegra/tegra_alc5624.c:497-520), the DAI link descriptors (583-612) and the card descriptor (653-665) are static data. They appear only through the pins and links the modelled code names.
- The DAPM pins are an enumeration, `Pin`; `PinName` gives the widget names the driver uses.
- `gpio_is_valid` is a parameter. `card->instantiated` after a successful registration is a boolean input. `gpio_get_value` and every framework return code come from the oracle.
- Jack statuses are sets of jack types. The numeric SND_JACK_* bit values appear only in `Jack.BitOf`, and the DAI format flags are abstract (base format, clocking).
- `msleep(100)` is recorded as a call, not as elapsed time. IRQ context, debounce timing and concurrency are left out; the driver takes no locks of its own.
- Logging (`dev_dbg`, `dev_err`, `dev_info`), module init/exit, `bias_level`, and the plumbing of `card->dev` and drvdata are left out.
- The commented-out channel-based format choice (sound/soc/tegra/tegra_alc5624.c:160-162) is dead code and is left out.
- `Lifecycle.Probe`: the ensures states the status of every exit, not the calls made; the rollback trace is stated by `Lifecycle.ProbeFailureUnwinds` and `Lifecycle.ProbeSuccessHoldsAll`.
- The board files arch/arm/mach-tegra/board-shuttle-usb.c and board-shuttle-sdhci.c hold static USB and SDHCI data. They are not part of this model. From board-shuttle-audio.c, only the audio platform data values are used (`LinkProperties.ShuttleMachine`).
