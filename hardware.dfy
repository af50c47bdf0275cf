/**
 * The hardware record of `get_hardware_info`: SoC family from the version
 * register, DRAM size from the a10-meminfo settings, and the one-line summary
 * used as the title of every dialog.
 */
module Hardware {
  import opened Wrappers
  import opened Text
  import opened Devmem
  import opened Cpuinfo
  import opened Meminfo

  /** SoC family tag (`sun4i`, ...) and marketing name; either may be unknown. */
  datatype Soc = Soc(socType: Option<string>, socName: Option<string>)

  /** The Ruby exceptions the probe can raise; nothing in the script rescues them. */
  datatype ProbeFailure =
    | NilRegister   // a register read that failed (`nil`) is shifted: NoMethodError
    | ZeroDivision  // `dram_io_width` missing or zero: ZeroDivisionError

  /** `val >> 16`. */
  function FamilyCode(val: nat): nat {
    val / 0x10000
  }

  /** `(sid >> 12) & 0xF`. */
  function Sun5iVariant(sid: nat): nat {
    (sid / 0x1000) % 16
  }

  function Sun5iName(variant: nat): Option<string> {
    if variant == 0 then Some("Allwinner A12")
    else if variant == 3 then Some("Allwinner A13")
    else if variant == 7 then Some("Allwinner A10s")
    else None
  }

  /**
   * The `case val >> 16` of the script. Only the sun5i branch reads SID_KEY2,
   * and a failed read there is shifted, which raises.
   */
  function DecodeSoc(val: nat, sidKey2: Option<nat>): Result<Soc, ProbeFailure> {
    var code := FamilyCode(val);
    if code == 0x1623 then Success(Soc(Some("sun4i"), Some("Allwinner A10")))
    else if code == 0x1625 then
      match sidKey2
      case None => Failure(NilRegister)
      case Some(sid) => Success(Soc(Some("sun5i"), Sun5iName(Sun5iVariant(sid))))
    else if code == 0x1633 then Success(Soc(Some("sun6i"), Some("Allwinner A31(s)")))
    else if code == 0x1650 then Success(Soc(Some("sun8i"), Some("Allwinner A23")))
    else if code == 0x1651 then Success(Soc(Some("sun7i"), Some("Allwinner A20")))
    else Success(Soc(None, None))
  }

  /** The family codes of the version register and the family each one names. */
  const FAMILIES: seq<(nat, string)> :=
    [(0x1623, "sun4i"), (0x1625, "sun5i"), (0x1633, "sun6i"), (0x1650, "sun8i"), (0x1651, "sun7i")]

  /** The sun5i variants by the SID_KEY2 nibble. */
  const SUN5I_VARIANTS: seq<(nat, string)> :=
    [(0, "Allwinner A12"), (3, "Allwinner A13"), (7, "Allwinner A10s")]

  /** The decode fails only for a sun5i whose SID_KEY2 read failed. */
  lemma DecodeSocFails(val: nat, sidKey2: Option<nat>)
    ensures DecodeSoc(val, sidKey2).Failure? <==> FamilyCode(val) == 0x1625 && sidKey2.None?
  {
  }

  /**
   * The family is the one the table gives for bits 31..16, and there is none
   * for a code missing from the table; a name is only ever given with a family.
   */
  lemma DecodeSocFamily(val: nat, sidKey2: Option<nat>, family: string)
    requires DecodeSoc(val, sidKey2).Success?
    ensures DecodeSoc(val, sidKey2).value.socType == Some(family) <==> (FamilyCode(val), family) in FAMILIES
    ensures DecodeSoc(val, sidKey2).value.socType.None? <==> forall i :: 0 <= i < |FAMILIES| ==> FAMILIES[i].0 != FamilyCode(val)
    ensures DecodeSoc(val, sidKey2).value.socType.None? ==> DecodeSoc(val, sidKey2).value.socName.None?
  {
    var code := FamilyCode(val);
    if (code, family) in FAMILIES {
      var i :| 0 <= i < |FAMILIES| && FAMILIES[i] == (code, family);
      assert i == 0 || i == 1 || i == 2 || i == 3 || i == 4;
    }
    assert FAMILIES[0].0 == 0x1623 && FAMILIES[1].0 == 0x1625 && FAMILIES[2].0 == 0x1633;
    assert FAMILIES[3].0 == 0x1650 && FAMILIES[4].0 == 0x1651;
  }

  /** A sun5i is named after the SID_KEY2 nibble by the variant table, and left unnamed for other nibbles. */
  lemma DecodeSun5iName(val: nat, sid: nat, name: string)
    requires FamilyCode(val) == 0x1625
    ensures DecodeSoc(val, Some(sid)).value.socType == Some("sun5i")
    ensures DecodeSoc(val, Some(sid)).value.socName == Some(name) <==> (Sun5iVariant(sid), name) in SUN5I_VARIANTS
  {
    var variant := Sun5iVariant(sid);
    if (variant, name) in SUN5I_VARIANTS {
      var i :| 0 <= i < |SUN5I_VARIANTS| && SUN5I_VARIANTS[i] == (variant, name);
      assert i == 0 || i == 1 || i == 2;
    }
  }

  /** No SoC name the decode gives contains a comma. */
  lemma DecodedNamesHaveNoComma(val: nat, sidKey2: Option<nat>)
    requires DecodeSoc(val, sidKey2).Success?
    ensures NoComma(DecodeSoc(val, sidKey2).value.socName.GetOr("unknown"))
  {
  }

  /** `bus_width * chip_density / (io_width * 8)`, which raises when the io width is 0. */
  function DramSize(busWidth: nat, chipDensity: nat, ioWidth: nat): (r: Result<nat, ProbeFailure>)
    ensures r.Failure? <==> ioWidth == 0
    ensures r.Failure? ==> r.error == ZeroDivision
  {
    if ioWidth == 0 then Failure(ZeroDivision)
    else Success(busWidth * chipDensity / (ioWidth * 8))
  }

  /** The DRAM size is the number of whole `io_width * 8` units in `bus_width * chip_density`. */
  lemma DramSizeRoundsDown(busWidth: nat, chipDensity: nat, ioWidth: nat)
    requires ioWidth > 0
    ensures var size := DramSize(busWidth, chipDensity, ioWidth).value;
      size * (ioWidth * 8) <= busWidth * chipDensity < (size + 1) * (ioWidth * 8)
  {
    var total, unit := busWidth * chipDensity, ioWidth * 8;
    var q, r := total / unit, total % unit;
    assert total == q * unit + r && r < unit;
    assert (q + 1) * unit == q * unit + unit;
  }

  // ---------------------------------------------------------------------------
  // The summary string

  predicate NoComma(s: string) {
    forall i :: 0 <= i < |s| ==> s[i] != ','
  }

  function SocPart(socName: Option<string>): string {
    "SoC: " + socName.GetOr("unknown")
  }

  /** `sprintf(", DRAM: %d MiB, %d-bit, %d MHz", ...)`. */
  function DramPart(size: nat, busWidth: nat, clock: nat): string {
    (", DRAM: " + Decimal(size) + " MiB") + (", " + Decimal(busWidth) + "-bit") + (", " + Decimal(clock) + " MHz")
  }

  /** `sprintf(", MBUS: %d MHz", ...)`. */
  function MbusPart(clock: nat): string {
    ", MBUS: " + Decimal(clock) + " MHz"
  }

  /** The summary: the SoC, then the DRAM only if its clock was found, then the MBUS clock only if found and not 0. */
  function Summary(socName: Option<string>, size: nat, busWidth: nat, dramClock: Option<nat>, mbusClock: Option<nat>): string {
    SocPart(socName)
    + (if dramClock.Some? then DramPart(size, busWidth, dramClock.value) else "")
    + (if mbusClock.Some? && mbusClock.value != 0 then MbusPart(mbusClock.value) else "")
  }

  /** Every comma in `s` is followed, two places on, by something other than `c`. */
  predicate CommaNotFollowedBy(s: string, c: char) {
    forall k :: 0 <= k < |s| - 2 && s[k] == ',' ==> s[k + 2] != c
  }

  /** Neither of the last two characters is a comma. */
  predicate NoTrailingComma(s: string) {
    forall k :: 0 <= k < |s| && |s| - 2 <= k ==> s[k] != ','
  }

  /** A text in which `, ` + `c` never occurs cannot contain a piece that starts that way. */
  lemma NotContained(s: string, piece: string, c: char)
    requires |piece| >= 3 && piece[0] == ',' && piece[2] == c && CommaNotFollowedBy(s, c)
    ensures !Contains(s, piece)
  {
  }

  /** Two texts in which `, ` + `c` never occurs, the first not ending in a comma, joined. */
  lemma NotContainedJoined(a: string, b: string, piece: string, c: char)
    requires CommaNotFollowedBy(a, c) && NoTrailingComma(a) && CommaNotFollowedBy(b, c)
    requires |piece| >= 3 && piece[0] == ',' && piece[2] == c
    ensures !Contains(a + b, piece)
  {
    Glue(a, b, c);
    NotContained(a + b, piece, c);
  }

  lemma Glue(a: string, b: string, c: char)
    requires CommaNotFollowedBy(a, c) && NoTrailingComma(a) && CommaNotFollowedBy(b, c)
    ensures CommaNotFollowedBy(a + b, c)
  {
    var s := a + b;
    forall k | 0 <= k < |s| - 2 && s[k] == ',' ensures s[k + 2] != c {
      if k >= |a| {
        assert s[k] == b[k - |a|] && s[k + 2] == b[k - |a| + 2];
      } else {
        assert k < |a| - 2;
        assert s[k] == a[k] && s[k + 2] == a[k + 2];
      }
    }
  }

  /** A piece `, x...` with no other comma: the one comma is followed by `x`. */
  lemma Segment(s: string, c: char)
    requires |s| >= 3 && s[0] == ',' && NoComma(s[1..]) && s[2] != c
    ensures CommaNotFollowedBy(s, c) && NoTrailingComma(s)
  {
    forall k | 0 < k < |s| ensures s[k] != ',' {
      assert s[k] == s[1..][k - 1];
    }
  }

  lemma DecimalNoComma(n: nat)
    ensures NoComma(Decimal(n)) && IsDigit(Decimal(n)[0])
  {
    var d := Decimal(n);
    forall i | 0 <= i < |d| ensures d[i] != ',' {
      assert IsDigit(d[i]);
    }
  }

  lemma SocPartShape(socName: Option<string>, c: char)
    requires NoComma(socName.GetOr("unknown"))
    ensures CommaNotFollowedBy(SocPart(socName), c) && NoTrailingComma(SocPart(socName))
  {
    var s := SocPart(socName);
    forall k | 0 <= k < |s| ensures s[k] != ',' {
      if k >= 5 { assert s[k] == socName.GetOr("unknown")[k - 5]; }
    }
  }

  lemma DramPartShape(size: nat, busWidth: nat, clock: nat)
    ensures CommaNotFollowedBy(DramPart(size, busWidth, clock), 'M') && NoTrailingComma(DramPart(size, busWidth, clock))
  {
    DecimalNoComma(size);
    DecimalNoComma(busWidth);
    DecimalNoComma(clock);
    var s1 := ", DRAM: " + Decimal(size) + " MiB";
    var s2 := ", " + Decimal(busWidth) + "-bit";
    var s3 := ", " + Decimal(clock) + " MHz";
    assert s1[1..] == " DRAM: " + Decimal(size) + " MiB";
    assert s2[1..] == " " + Decimal(busWidth) + "-bit";
    assert s3[1..] == " " + Decimal(clock) + " MHz";
    Segment(s1, 'M');
    assert s2[2] == Decimal(busWidth)[0];
    Segment(s2, 'M');
    assert s3[2] == Decimal(clock)[0];
    Segment(s3, 'M');
    Glue(s1, s2, 'M');
    Glue(s1 + s2, s3, 'M');
    assert NoTrailingComma(s1 + s2 + s3) by {
      assert (s1 + s2 + s3)[|s1 + s2 + s3| - 2..] == s3[|s3| - 2..];
    }
  }

  lemma MbusPartShape(clock: nat)
    ensures CommaNotFollowedBy(MbusPart(clock), 'D') && NoTrailingComma(MbusPart(clock))
  {
    DecimalNoComma(clock);
    var s := MbusPart(clock);
    assert s[1..] == " MBUS: " + Decimal(clock) + " MHz";
    Segment(s, 'D');
  }

  /** The summary always opens with the SoC name, or `unknown`. */
  lemma SummaryStartsWithSoc(socName: Option<string>, size: nat, busWidth: nat, dramClock: Option<nat>, mbusClock: Option<nat>)
    ensures StartsWith(Summary(socName, size, busWidth, dramClock, mbusClock), "SoC: " + socName.GetOr("unknown"))
  {
    var head := SocPart(socName);
    var s := Summary(socName, size, busWidth, dramClock, mbusClock);
    assert s[..|head|] == head;
  }

  /** A literal at the front of `b` occurs in `a + b` where `b` begins. */
  lemma FoundAfter(a: string, b: string, lit: string)
    requires StartsWith(b, lit)
    ensures Contains(a + b, lit)
  {
    assert (a + b)[|a|..|a| + |lit|] == b[..|lit|];
    assert HasAt(a + b, |a|, lit);
  }

  lemma DramShown(socName: Option<string>, size: nat, busWidth: nat, clock: nat, mbus: string)
    ensures Contains(SocPart(socName) + DramPart(size, busWidth, clock) + mbus, ", DRAM: ")
  {
    var dram := DramPart(size, busWidth, clock);
    assert StartsWith(dram + mbus, ", DRAM: ") by {
      assert (dram + mbus)[..8] == dram[..8];
    }
    FoundAfter(SocPart(socName), dram + mbus, ", DRAM: ");
    assert SocPart(socName) + dram + mbus == SocPart(socName) + (dram + mbus);
  }

  lemma DramHidden(socName: Option<string>, mbusClock: Option<nat>)
    requires NoComma(socName.GetOr("unknown"))
    ensures !Contains(SocPart(socName) + (if mbusClock.Some? && mbusClock.value != 0 then MbusPart(mbusClock.value) else ""), ", DRAM: ")
  {
    SocPartShape(socName, 'D');
    assert ", DRAM: "[2] == 'D';
    if mbusClock.Some? && mbusClock.value != 0 {
      MbusPartShape(mbusClock.value);
      NotContainedJoined(SocPart(socName), MbusPart(mbusClock.value), ", DRAM: ", 'D');
    } else {
      NotContainedJoined(SocPart(socName), "", ", DRAM: ", 'D');
    }
  }

  /** The DRAM description appears in the summary exactly when the DRAM clock was found. */
  lemma SummaryMentionsDram(socName: Option<string>, size: nat, busWidth: nat, dramClock: Option<nat>, mbusClock: Option<nat>)
    requires NoComma(socName.GetOr("unknown"))
    ensures Contains(Summary(socName, size, busWidth, dramClock, mbusClock), ", DRAM: ") <==> dramClock.Some?
  {
    var mbus := if mbusClock.Some? && mbusClock.value != 0 then MbusPart(mbusClock.value) else "";
    if dramClock.Some? {
      DramShown(socName, size, busWidth, dramClock.value, mbus);
    } else {
      DramHidden(socName, mbusClock);
      assert Summary(socName, size, busWidth, dramClock, mbusClock) == SocPart(socName) + mbus;
    }
  }

  lemma MbusShown(socName: Option<string>, dram: string, clock: nat)
    ensures Contains(SocPart(socName) + dram + MbusPart(clock), ", MBUS: ")
  {
    assert StartsWith(MbusPart(clock), ", MBUS: ");
    FoundAfter(SocPart(socName) + dram, MbusPart(clock), ", MBUS: ");
  }

  lemma MbusHidden(socName: Option<string>, size: nat, busWidth: nat, dramClock: Option<nat>)
    requires NoComma(socName.GetOr("unknown"))
    ensures !Contains(SocPart(socName) + (if dramClock.Some? then DramPart(size, busWidth, dramClock.value) else ""), ", MBUS: ")
  {
    SocPartShape(socName, 'M');
    assert ", MBUS: "[2] == 'M';
    if dramClock.Some? {
      DramPartShape(size, busWidth, dramClock.value);
      NotContainedJoined(SocPart(socName), DramPart(size, busWidth, dramClock.value), ", MBUS: ", 'M');
    } else {
      NotContainedJoined(SocPart(socName), "", ", MBUS: ", 'M');
    }
  }

  /** The MBUS clock appears in the summary exactly when it was found and is not 0. */
  lemma SummaryMentionsMbus(socName: Option<string>, size: nat, busWidth: nat, dramClock: Option<nat>, mbusClock: Option<nat>)
    requires NoComma(socName.GetOr("unknown"))
    ensures Contains(Summary(socName, size, busWidth, dramClock, mbusClock), ", MBUS: ") <==> mbusClock.Some? && mbusClock.value != 0
  {
    var dram := if dramClock.Some? then DramPart(size, busWidth, dramClock.value) else "";
    if mbusClock.Some? && mbusClock.value != 0 {
      MbusShown(socName, dram, mbusClock.value);
    } else {
      MbusHidden(socName, size, busWidth, dramClock);
      assert Summary(socName, size, busWidth, dramClock, mbusClock) == SocPart(socName) + dram;
    }
  }

  // ---------------------------------------------------------------------------
  // The probe

  /** The `results` hash; `None` is a key the script never set. */
  datatype HardwareInfo = HardwareInfo(
    socType: Option<string>, socName: Option<string>,
    dramClock: Option<nat>, mbusClock: Option<nat>,
    dramSize: Option<nat>, dramBusWidth: Option<nat>,
    summary: string)

  /** What the probe returns for hardware it does not recognise. */
  const UNKNOWN_HARDWARE := HardwareInfo(None, None, None, None, None, None, "Unknown hardware")

  /** A `devmem2` write the probe issues. */
  datatype RegisterWrite = RegisterWrite(address: nat, value: nat)

  /**
   * What the outside world says during one probe: /proc/cpuinfo, devmem2's
   * replies to the first and second reads of VER_REG and to the read of
   * SID_KEY2, and the output of a10-meminfo.
   */
  datatype Observations = Observations(
    cpuinfo: string, verReply: string, verRereadReply: string,
    sidKey2Reply: string, meminfo: string)

  /** The probe's result, or the exception it raises, and the register writes it issued. */
  datatype Probe = Probe(info: Result<HardwareInfo, ProbeFailure>, writes: seq<RegisterWrite>)

  /** The record for a version-register value that could be read (or `nil`), given the SID_KEY2 read and the meminfo settings. */
  function Derive(val: Option<nat>, sidKey2: Option<nat>, mem: MemInfo): Result<HardwareInfo, ProbeFailure> {
    if val.None? then Failure(NilRegister)
    else match DecodeSoc(val.value, sidKey2)
      case Failure(f) => Failure(f)
      case Success(soc) =>
        match DramSize(mem.busWidth, mem.chipDensity, mem.ioWidth)
        case Failure(f) => Failure(f)
        case Success(size) =>
          Success(HardwareInfo(soc.socType, soc.socName, mem.dramClock, mem.mbusClock, Some(size), Some(mem.busWidth),
                               Summary(soc.socName, size, mem.busWidth, mem.dramClock, mem.mbusClock)))
  }

  /**
   * `get_hardware_info` as a function of what it observes: unknown hardware
   * when the CPU is not an Allwinner one or VER_REG cannot be read; otherwise
   * VER_R_EN is set (and VER_REG re-read) if it was clear, and the record is
   * derived from the value read last.
   */
  function ProbeHardware(obs: Observations): Probe {
    ProbeFrom(RunsOnSunxi(obs.cpuinfo), ReadWord(obs.verReply, VER_REG), ReadWord(obs.verRereadReply, VER_REG),
              ReadWord(obs.sidKey2Reply, SID_KEY2), ParseMemInfo(obs.meminfo))
  }

  /** The probe in terms of what each observation yields once parsed. */
  function ProbeFrom(sunxi: bool, first: Option<nat>, reread: Option<nat>, sidKey2: Option<nat>, mem: MemInfo): Probe {
    if !sunxi || first.None? then Probe(Success(UNKNOWN_HARDWARE), [])
    else if VersionReadEnabled(first.value) then Probe(Derive(first, sidKey2, mem), [])
    else Probe(Derive(reread, sidKey2, mem), [RegisterWrite(VER_REG, EnableVersionRead(first.value))])
  }

  /** `get_hardware_info`: fills in the record step by step, as the script does. */
  method GetHardwareInfo(obs: Observations) returns (info: Result<HardwareInfo, ProbeFailure>, writes: seq<RegisterWrite>)
    ensures Probe(info, writes) == ProbeHardware(obs)
  {
    var sunxi := IsSunxiHardware(obs.cpuinfo);
    if !sunxi {
      return Success(UNKNOWN_HARDWARE), [];
    }
    var val := ReadWord(obs.verReply, VER_REG);
    if val.None? {
      return Success(UNKNOWN_HARDWARE), [];
    }
    val, writes := EnableVersionRegister(val.value, obs);
    if val.None? {
      return Failure(NilRegister), writes;
    }
    info := DescribeHardware(val.value, obs);
  }

  /** Sets VER_R_EN when the first read found it clear, and then reads VER_REG again. */
  method EnableVersionRegister(first: nat, obs: Observations) returns (val: Option<nat>, writes: seq<RegisterWrite>)
    ensures VersionReadEnabled(first) ==> val == Some(first) && writes == []
    ensures !VersionReadEnabled(first) ==>
      val == ReadWord(obs.verRereadReply, VER_REG) && writes == [RegisterWrite(VER_REG, EnableVersionRead(first))]
  {
    val, writes := Some(first), [];
    if !VersionReadEnabled(first) {
      writes := writes + [RegisterWrite(VER_REG, EnableVersionRead(first))];
      val := ReadWord(obs.verRereadReply, VER_REG);
    }
  }

  /** The part of `get_hardware_info` after VER_REG has been read: the SoC case, the meminfo scans and the summary. */
  method DescribeHardware(val: nat, obs: Observations) returns (info: Result<HardwareInfo, ProbeFailure>)
    ensures info == Derive(Some(val), ReadWord(obs.sidKey2Reply, SID_KEY2), ParseMemInfo(obs.meminfo))
  {
    var soc := DecodeSoc(val, ReadWord(obs.sidKey2Reply, SID_KEY2));
    if soc.Failure? {
      return Failure(soc.error);
    }
    var mem := ReadMemInfo(obs.meminfo);
    var dramSize := DramSize(mem.busWidth, mem.chipDensity, mem.ioWidth);
    if dramSize.Failure? {
      return Failure(dramSize.error);
    }
    var summary := SummaryString(soc.value.socName, dramSize.value, mem.busWidth, mem.dramClock, mem.mbusClock);
    info := Success(HardwareInfo(soc.value.socType, soc.value.socName, mem.dramClock, mem.mbusClock,
                                 Some(dramSize.value), Some(mem.busWidth), summary));
  }

  /** The a10-meminfo part of `get_hardware_info`: five scans, three of them into variables that start at 0. */
  method ReadMemInfo(data: string) returns (mem: MemInfo)
    ensures mem == ParseMemInfo(data)
  {
    var chipDensity, busWidth, ioWidth := 0, 0, 0;
    var dramClock := Setting(data, "dram_clk");
    var mbusClock := Setting(data, "mbus_clk");
    var found := Setting(data, "dram_chip_density");
    if found.Some? {
      chipDensity := found.value;
    }
    found := Setting(data, "dram_bus_width");
    if found.Some? {
      busWidth := found.value;
    }
    found := Setting(data, "dram_io_width");
    if found.Some? {
      ioWidth := found.value;
    }
    mem := MemInfo(dramClock, mbusClock, chipDensity, busWidth, ioWidth);
  }

  /** The summary as the script builds it: the SoC part, then `+=` of each optional part. */
  method SummaryString(socName: Option<string>, size: nat, busWidth: nat, dramClock: Option<nat>, mbusClock: Option<nat>)
    returns (summary: string)
    ensures summary == Summary(socName, size, busWidth, dramClock, mbusClock)
  {
    summary := "SoC: " + socName.GetOr("unknown");
    if dramClock.Some? {
      summary := summary + DramPart(size, busWidth, dramClock.value);
    }
    if mbusClock.Some? && mbusClock.value != 0 {
      summary := summary + MbusPart(mbusClock.value);
    }
  }

  /** Hardware that is not an Allwinner SoC is reported as unknown without touching any register, whatever else is observed. */
  lemma NotSunxiIsUnknown(obs: Observations)
    requires !RunsOnSunxi(obs.cpuinfo)
    ensures ProbeHardware(obs) == Probe(Success(UNKNOWN_HARDWARE), [])
  {
  }

  /**
   * The probe writes at most once, and only to VER_REG: exactly when the first
   * read succeeded with VER_R_EN clear, and then the value read with that bit
   * set and every other bit kept.
   */
  lemma OnlyWriteSetsVersionRead(sunxi: bool, first: Option<nat>, reread: Option<nat>, sidKey2: Option<nat>, mem: MemInfo)
    ensures var writes := ProbeFrom(sunxi, first, reread, sidKey2, mem).writes;
      && |writes| <= 1
      && (|writes| == 1 <==> sunxi && first.Some? && !VersionReadEnabled(first.value))
      && forall w :: w in writes ==>
           w.address == VER_REG && VersionReadEnabled(w.value) && w.value == first.value + VER_R_EN
  {
  }

  /**
   * Once VER_REG has been read, the probe fails exactly when the value decoded
   * is missing, when a sun5i's SID_KEY2 read fails, or when the io width is 0.
   */
  lemma DeriveFails(val: Option<nat>, sidKey2: Option<nat>, mem: MemInfo)
    ensures Derive(val, sidKey2, mem).Failure? <==>
      val.None? || (FamilyCode(val.value) == 0x1625 && sidKey2.None?) || mem.ioWidth == 0
  {
    if val.Some? {
      DecodeSocFails(val.value, sidKey2);
    }
  }

  /**
   * A record that was derived carries the decoded SoC, the meminfo clocks and
   * bus width, the DRAM size `bus * density / (io * 8)` rounded down, and a
   * summary that names the SoC and mentions the DRAM and MBUS exactly when
   * their clocks say so.
   */
  lemma DerivedRecord(val: nat, sidKey2: Option<nat>, mem: MemInfo)
    requires Derive(Some(val), sidKey2, mem).Success?
    ensures var h := Derive(Some(val), sidKey2, mem).value;
      && Soc(h.socType, h.socName) == DecodeSoc(val, sidKey2).value
      && h.dramClock == mem.dramClock && h.mbusClock == mem.mbusClock
      && h.dramBusWidth == Some(mem.busWidth)
      && h.dramSize.Some? && mem.ioWidth > 0
      && h.dramSize.value * (mem.ioWidth * 8) <= mem.busWidth * mem.chipDensity < (h.dramSize.value + 1) * (mem.ioWidth * 8)
      && StartsWith(h.summary, "SoC: " + h.socName.GetOr("unknown"))
      && (Contains(h.summary, ", DRAM: ") <==> h.dramClock.Some?)
      && (Contains(h.summary, ", MBUS: ") <==> h.mbusClock.Some? && h.mbusClock.value != 0)
  {
    var soc := DecodeSoc(val, sidKey2).value;
    var size := DramSize(mem.busWidth, mem.chipDensity, mem.ioWidth).value;
    DecodedNamesHaveNoComma(val, sidKey2);
    DramSizeRoundsDown(mem.busWidth, mem.chipDensity, mem.ioWidth);
    SummaryStartsWithSoc(soc.socName, size, mem.busWidth, mem.dramClock, mem.mbusClock);
    SummaryMentionsDram(soc.socName, size, mem.busWidth, mem.dramClock, mem.mbusClock);
    SummaryMentionsMbus(soc.socName, size, mem.busWidth, mem.dramClock, mem.mbusClock);
  }

  /** When VER_R_EN was already set, the first read is decoded and nothing is written. */
  lemma EnabledReadIsDecoded(obs: Observations, first: nat)
    requires RunsOnSunxi(obs.cpuinfo) && ReadWord(obs.verReply, VER_REG) == Some(first) && VersionReadEnabled(first)
    ensures ProbeHardware(obs) == Probe(Derive(Some(first), ReadWord(obs.sidKey2Reply, SID_KEY2), ParseMemInfo(obs.meminfo)), [])
  {
  }
}
