/**
  The MCLK table of the machine driver and the two ways the links choose a
  master clock from a sample rate: the HiFi link's first-match table lookup
  and the rate-class switch used by the Bluetooth SCO and SPDIF links.
 */
module ClockTable {
  import opened DriverTypes

  /** A frequency in Hz; every frequency in the table is positive. */
  type Hz = n: nat | n > 0 witness 1

  /** One row of `clocktab`: an MCLK that can produce sample rate `srate`. */
  datatype Entry = Entry(mclk: Hz, srate: Hz)

  /** The rows of `clocktab`, one constant per sample rate, in declaration order. */
  const Rows8000: seq<Entry> := [Entry(8192000, 8000), Entry(12288000, 8000), Entry(24576000, 8000)]
  const Rows11025: seq<Entry> := [Entry(11289600, 11025), Entry(16934400, 11025), Entry(22579200, 11025)]
  const Rows16000: seq<Entry> := [Entry(12288000, 16000), Entry(16384000, 16000), Entry(24576000, 16000)]
  const Rows22050: seq<Entry> := [Entry(11289600, 22050), Entry(16934400, 22050), Entry(22579200, 22050)]
  const Rows32000: seq<Entry> := [Entry(12288000, 32000), Entry(16384000, 32000), Entry(24576000, 32000)]
  const Rows44100: seq<Entry> := [Entry(11289600, 44100), Entry(22579200, 44100)]
  const Rows48000: seq<Entry> := [Entry(12288000, 48000), Entry(24576000, 48000)]

  /** `clocktab`: 19 rows, in declaration order (the order is the priority). */
  const Table: seq<Entry> := Rows8000 + Rows11025 + Rows16000 + Rows22050 + Rows32000 + Rows44100 + Rows48000

  /** The HiFi link's `sys_clk` when no table row has the requested rate. */
  const FallbackSysClk: Hz := 12000000

  /** The two rate-class clocks of the Bluetooth SCO and SPDIF links. */
  const Clock44k1: nat := 11289600
  const Clock48k: nat := 12288000

  /** Rates served from the 44.1 kHz family clock. */
  const Family44k1: set<nat> := {11025, 22050, 44100, 88200}

  /** Rates served from the 48 kHz family clock. */
  const Family48k: set<nat> := {8000, 16000, 32000, 48000, 64000, 96000}

  /** MCLKs of the rows of `rows` whose rate is `srate`, in row order. */
  function Mclks(rows: seq<Entry>, srate: nat): seq<Hz>
  {
    if rows == [] then []
    else (if rows[0].srate == srate then [rows[0].mclk] else []) + Mclks(rows[1..], srate)
  }

  /** The candidate MCLKs for `srate`, in table order. */
  function Candidates(srate: nat): seq<Hz>
  {
    Mclks(Table, srate)
  }

  /** The first-match scan of `rows`. */
  function FirstMclk(rows: seq<Entry>, srate: nat): (r: Option<Hz>)
    ensures r.None? <==> Mclks(rows, srate) == []
    ensures r.Some? ==> r.value == Mclks(rows, srate)[0]
  {
    if rows == [] then None
    else if rows[0].srate == srate then Some(rows[0].mclk)
    else FirstMclk(rows[1..], srate)
  }

  /** The HiFi link's initial `sys_clk` for `srate`. */
  function InitialSysClk(srate: nat): (r: Hz)
    ensures Candidates(srate) != [] ==> r == Candidates(srate)[0]
    ensures Candidates(srate) == [] ==> r == FallbackSysClk
  {
    match FirstMclk(Table, srate)
    case Some(m) => m
    case None => FallbackSysClk
  }

  /** The rate-class switch of the Bluetooth SCO and SPDIF links. */
  function RateClassClock(srate: nat): (r: Option<nat>)
    ensures r == Some(Clock44k1) <==> srate in Family44k1
    ensures r == Some(Clock48k) <==> srate in Family48k
    ensures r.None? <==> srate !in Family44k1 + Family48k
  {
    match srate
    case 11025 => Some(Clock44k1)
    case 22050 => Some(Clock44k1)
    case 44100 => Some(Clock44k1)
    case 88200 => Some(Clock44k1)
    case 8000 => Some(Clock48k)
    case 16000 => Some(Clock48k)
    case 32000 => Some(Clock48k)
    case 48000 => Some(Clock48k)
    case 64000 => Some(Clock48k)
    case 96000 => Some(Clock48k)
    case _ => None
  }

  /** Every candidate for `srate` is the MCLK of a row with that rate. */
  lemma {:induction false} MclksSound(rows: seq<Entry>, srate: Hz, m: Hz)
    requires m in Mclks(rows, srate)
    ensures Entry(m, srate) in rows
  {
    if rows[0].srate == srate && m == rows[0].mclk {
    } else {
      MclksSound(rows[1..], srate, m);
    }
  }

  /** Filtering distributes over concatenation. */
  lemma {:induction false} MclksAppend(a: seq<Entry>, b: seq<Entry>, srate: nat)
    ensures Mclks(a + b, srate) == Mclks(a, srate) + Mclks(b, srate)
  {
    if a == [] {
      assert a + b == b;
    } else {
      var head := if a[0].srate == srate then [a[0].mclk] else [];
      assert (a + b)[0] == a[0];
      assert (a + b)[1..] == a[1..] + b;
      assert Mclks(a + b, srate) == head + Mclks(a[1..] + b, srate);
      MclksAppend(a[1..], b, srate);
      assert head + (Mclks(a[1..], srate) + Mclks(b, srate)) == (head + Mclks(a[1..], srate)) + Mclks(b, srate);
    }
  }

  /** `ms` when `s` is the group's rate `r`, else nothing. */
  function Group(r: nat, ms: seq<Hz>, s: nat): seq<Hz>
  {
    if s == r then ms else []
  }

  /** The MCLKs of three rows of one rate. */
  lemma ThreeRows(rows: seq<Entry>, r: Hz, m0: Hz, m1: Hz, m2: Hz, s: nat)
    requires rows == [Entry(m0, r), Entry(m1, r), Entry(m2, r)]
    ensures Mclks(rows, s) == Group(r, [m0, m1, m2], s)
  {
    assert rows[1..] == [Entry(m1, r), Entry(m2, r)];
    TwoRows(rows[1..], r, m1, m2, s);
  }

  /** The MCLKs of two rows of one rate. */
  lemma TwoRows(rows: seq<Entry>, r: Hz, m0: Hz, m1: Hz, s: nat)
    requires rows == [Entry(m0, r), Entry(m1, r)]
    ensures Mclks(rows, s) == Group(r, [m0, m1], s)
  {
    assert rows[1..] == [Entry(m1, r)];
    assert rows[1..][1..] == [];
    assert Mclks(rows[1..], s) == Group(r, [m1], s);
  }

  /** The candidate lists of the table, rate group by rate group. */
  lemma CandidatesByGroup(s: nat)
    ensures Candidates(s) ==
        Group(8000, [8192000, 12288000, 24576000], s)
      + Group(11025, [11289600, 16934400, 22579200], s)
      + Group(16000, [12288000, 16384000, 24576000], s)
      + Group(22050, [11289600, 16934400, 22579200], s)
      + Group(32000, [12288000, 16384000, 24576000], s)
      + Group(44100, [11289600, 22579200], s)
      + Group(48000, [12288000, 24576000], s)
  {
    ThreeRows(Rows8000, 8000, 8192000, 12288000, 24576000, s);
    ThreeRows(Rows11025, 11025, 11289600, 16934400, 22579200, s);
    ThreeRows(Rows16000, 16000, 12288000, 16384000, 24576000, s);
    ThreeRows(Rows22050, 22050, 11289600, 16934400, 22579200, s);
    ThreeRows(Rows32000, 32000, 12288000, 16384000, 24576000, s);
    TwoRows(Rows44100, 44100, 11289600, 22579200, s);
    TwoRows(Rows48000, 48000, 12288000, 24576000, s);
    var t1 := Rows8000 + Rows11025;
    var t2 := t1 + Rows16000;
    var t3 := t2 + Rows22050;
    var t4 := t3 + Rows32000;
    var t5 := t4 + Rows44100;
    MclksAppend(Rows8000, Rows11025, s);
    MclksAppend(t1, Rows16000, s);
    MclksAppend(t2, Rows22050, s);
    MclksAppend(t3, Rows32000, s);
    MclksAppend(t4, Rows44100, s);
    MclksAppend(t5, Rows48000, s);
  }

  /** A row's MCLK is at least 256 times its rate and a multiple of 128 times it. */
  predicate Oversampled(e: Entry)
  {
    e.mclk >= 256 * e.srate && e.mclk % (128 * e.srate) == 0
  }

  /** Every row of the table is oversampled. */
  lemma TableOversampling()
    ensures forall e :: e in Table ==> Oversampled(e)
  {
    assert forall e :: e in Rows8000 ==> Oversampled(e);
    assert forall e :: e in Rows11025 ==> Oversampled(e);
    assert forall e :: e in Rows16000 ==> Oversampled(e);
    assert forall e :: e in Rows22050 ==> Oversampled(e);
    assert forall e :: e in Rows32000 ==> Oversampled(e);
    assert forall e :: e in Rows44100 ==> Oversampled(e);
    assert forall e :: e in Rows48000 ==> Oversampled(e);
  }

  /** Every rate in the table is a class rate whose class clock is a candidate for it. */
  lemma TableRatesHaveClassClock(e: Entry)
    requires e in Table
    ensures RateClassClock(e.srate).Some?
    ensures RateClassClock(e.srate).value in Candidates(e.srate)
  {
    assert e in Rows8000 || e in Rows11025 || e in Rows16000 || e in Rows22050
        || e in Rows32000 || e in Rows44100 || e in Rows48000;
    assert e.srate in {8000, 11025, 16000, 22050, 32000, 44100, 48000};
    CandidatesByGroup(e.srate);
  }

  /** 64, 88.2 and 96 kHz are class rates with no table row. */
  lemma ClassRatesMissingFromTable(srate: nat)
    requires srate in {64000, 88200, 96000}
    ensures RateClassClock(srate).Some?
    ensures Candidates(srate) == []
    ensures InitialSysClk(srate) == FallbackSysClk
  {
    CandidatesByGroup(srate);
  }

  /** The class clock is always a multiple of 64 times the rate (the SCO fallback threshold). */
  lemma ClassClockMultipleOf64(srate: nat)
    requires RateClassClock(srate).Some?
    ensures RateClassClock(srate).value % (64 * srate) == 0
  {
  }

  /** The class clock is a multiple of 128 times the rate (the SPDIF threshold) except at 64 kHz. */
  lemma ClassClockMultipleOf128(srate: nat)
    requires RateClassClock(srate).Some?
    ensures RateClassClock(srate).value % (128 * srate) == 0 <==> srate != 64000
  {
  }

  /** The 44.1 kHz candidates of the table, in order. */
  lemma Candidates44k1()
    ensures Candidates(44100) == [11289600, 22579200]
  {
    CandidatesByGroup(44100);
  }
}
