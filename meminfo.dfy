/** The DRAM settings the script scrapes from the output of `a10-meminfo`. */
module Meminfo {
  import opened Wrappers
  import opened Text

  /** `<key>\s*\=\s*(\d+)` anchored at the front of `s`. */
  function SettingFrom(s: string, key: string): Option<nat> {
    match After(s, key)
    case None => None
    case Some(afterKey) =>
      var gap := TakeWhile(afterKey, IsSpace);
      match After(gap.1, "=")
      case None => None
      case Some(afterEquals) =>
        var gap' := TakeWhile(afterEquals, IsSpace);
        var digits := TakeWhile(gap'.1, IsDigit);
        if digits.0 == [] then None else Some(DecimalValue(digits.0))
  }

  function SettingAt(data: string, key: string, k: nat): Option<nat> {
    if k <= |data| then SettingFrom(data[k..], key) else None
  }

  /** `data =~ /<key>\s*\=\s*(\d+)/`: the number in the leftmost `key = N` of the text. */
  function Setting(data: string, key: string): Option<nat> {
    FirstMatch(data, 0, (s, k) => SettingAt(s, key, k))
  }

  /** The five settings; the three used in arithmetic default to 0 when absent. */
  datatype MemInfo = MemInfo(dramClock: Option<nat>, mbusClock: Option<nat>,
                             chipDensity: nat, busWidth: nat, ioWidth: nat)

  function ParseMemInfo(data: string): (m: MemInfo)
    ensures Setting(data, "dram_chip_density").None? ==> m.chipDensity == 0
    ensures Setting(data, "dram_bus_width").None? ==> m.busWidth == 0
    ensures Setting(data, "dram_io_width").None? ==> m.ioWidth == 0
  {
    MemInfo(Setting(data, "dram_clk"),
            Setting(data, "mbus_clk"),
            Setting(data, "dram_chip_density").GetOr(0),
            Setting(data, "dram_bus_width").GetOr(0),
            Setting(data, "dram_io_width").GetOr(0))
  }

  /** A line `key = N` in a10-meminfo's layout, padded with any white space around `=`. */
  function SettingText(key: string, before: string, after: string, n: nat, rest: string): string {
    key + (before + ("=" + (after + (Decimal(n) + rest))))
  }

  /** Anchored at its start, the scan reads `key = N` back, with any spacing around `=`. */
  lemma SettingFromText(key: string, before: string, after: string, n: nat, rest: string)
    requires AllSpace(before) && AllSpace(after)
    requires rest != [] ==> !IsDigit(rest[0])
    ensures SettingFrom(SettingText(key, before, after, n, rest), key) == Some(n)
  {
    var t3 := Decimal(n) + rest;
    var t2 := after + t3;
    var t1 := "=" + t2;
    AfterLiteral(key, before + t1);
    TakeWhileSplits(before, t1, IsSpace);
    AfterLiteral("=", t2);
    TakeWhileSplits(after, t3, IsSpace);
    TakeWhileSplits(Decimal(n), rest, IsDigit);
    DecimalRoundTrip(n);
  }

  /** The first place the scan matches decides the setting. */
  lemma SettingFirstMatch(data: string, key: string, k: nat)
    requires k <= |data| && SettingAt(data, key, k).Some?
    requires forall j :: 0 <= j < k ==> SettingAt(data, key, j).None?
    ensures Setting(data, key) == SettingAt(data, key, k)
  {
    var matchAt := (s: string, i: nat) => SettingAt(s, key, i);
    var first := FirstMatch(data, 0, matchAt);
    assert matchAt(data, k).Some?;
    assert first.Some?;
    var m :| 0 <= m <= |data| && matchAt(data, m) == first && forall j :: 0 <= j < m ==> matchAt(data, j).None?;
    assert m == k;
  }

  /** No match starts inside whole lines that never mention the key. */
  lemma NoSettingBefore(pre: string, line: string, key: string)
    requires pre == [] || pre[|pre| - 1] == '\n'
    requires !Contains(pre, key)
    requires key != [] && forall i :: 0 <= i < |key| ==> key[i] != '\n'
    ensures forall j :: 0 <= j < |pre| ==> SettingAt(pre + line, key, j).None?
  {
    var text := pre + line;
    forall j | 0 <= j < |pre| ensures SettingAt(text, key, j).None? {
      SettingNeedsKey(text, key, j);
      if HasAt(text, j, key) {
        if j + |key| <= |pre| {
          assert pre[j..j + |key|] == text[j..j + |key|];
          assert HasAt(pre, j, key);
        } else {
          assert text[|pre| - 1] == key[|pre| - 1 - j];
        }
      }
    }
  }

  /**
   * A text whose line `key = N` follows whole lines that never mention the key
   * (a10-meminfo prints the settings one per line, in its own order) yields N.
   */
  lemma SettingRoundTrip(pre: string, key: string, before: string, after: string, n: nat, rest: string)
    requires pre == [] || pre[|pre| - 1] == '\n'
    requires !Contains(pre, key)
    requires key != [] && forall i :: 0 <= i < |key| ==> key[i] != '\n'
    requires AllSpace(before) && AllSpace(after)
    requires rest != [] ==> !IsDigit(rest[0])
    ensures Setting(pre + SettingText(key, before, after, n, rest), key) == Some(n)
  {
    var line := SettingText(key, before, after, n, rest);
    var text := pre + line;
    SettingFromText(key, before, after, n, rest);
    assert text[|pre|..] == line;
    NoSettingBefore(pre, line, key);
    SettingFirstMatch(text, key, |pre|);
  }

  /** A text that never mentions the key yields no value, so the setting keeps its default. */
  lemma MissingSetting(data: string, key: string)
    requires !Contains(data, key)
    ensures Setting(data, key).None?
  {
    forall k | 0 <= k <= |data| ensures SettingAt(data, key, k).None? {
      SettingNeedsKey(data, key, k);
    }
  }

  /** A text that never mentions a setting's key leaves that setting at its default: 0, or not found for the clocks. */
  lemma MissingSettingsDefault(data: string)
    ensures !Contains(data, "dram_chip_density") ==> ParseMemInfo(data).chipDensity == 0
    ensures !Contains(data, "dram_bus_width") ==> ParseMemInfo(data).busWidth == 0
    ensures !Contains(data, "dram_io_width") ==> ParseMemInfo(data).ioWidth == 0
    ensures !Contains(data, "dram_clk") ==> ParseMemInfo(data).dramClock.None?
    ensures !Contains(data, "mbus_clk") ==> ParseMemInfo(data).mbusClock.None?
  {
    if !Contains(data, "dram_chip_density") { MissingSetting(data, "dram_chip_density"); }
    if !Contains(data, "dram_bus_width") { MissingSetting(data, "dram_bus_width"); }
    if !Contains(data, "dram_io_width") { MissingSetting(data, "dram_io_width"); }
    if !Contains(data, "dram_clk") { MissingSetting(data, "dram_clk"); }
    if !Contains(data, "mbus_clk") { MissingSetting(data, "mbus_clk"); }
  }

  /** A line `key = N` after whole lines that never mention the key sets the record's field for that key to N. */
  lemma ReportedSetting(pre: string, key: string, before: string, after: string, n: nat, rest: string)
    requires pre == [] || pre[|pre| - 1] == '\n'
    requires !Contains(pre, key)
    requires key != [] && forall i :: 0 <= i < |key| ==> key[i] != '\n'
    requires AllSpace(before) && AllSpace(after)
    requires rest != [] ==> !IsDigit(rest[0])
    ensures var m := ParseMemInfo(pre + SettingText(key, before, after, n, rest));
            && (key == "dram_chip_density" ==> m.chipDensity == n)
            && (key == "dram_bus_width" ==> m.busWidth == n)
            && (key == "dram_io_width" ==> m.ioWidth == n)
            && (key == "dram_clk" ==> m.dramClock == Some(n))
            && (key == "mbus_clk" ==> m.mbusClock == Some(n))
  {
    SettingRoundTrip(pre, key, before, after, n, rest);
  }

  lemma SettingNeedsKey(data: string, key: string, k: nat)
    requires k <= |data|
    ensures SettingAt(data, key, k).Some? ==> HasAt(data, k, key)
  {
    if SettingAt(data, key, k).Some? {
      assert After(data[k..], key).Some?;
      assert data[k..][..|key|] == data[k..k + |key|];
    }
  }
}
