/**
 * Register access through the `devmem2` tool (`mem_read_word`, `mem_write_word`):
 * the checks the script applies to the tool's report, and the VER_R_EN fix-up
 * it writes to the version register.
 */
module Devmem {
  import opened Wrappers
  import opened Text

  /** The SoC version register; bits 31..16 name the SoC family. */
  const VER_REG: nat := 0x1C00024
  /** The third word of the security ID block, which tells the sun5i variants apart. */
  const SID_KEY2: nat := 0x01c23800 + 8
  /** Bit 15 of the version register (VER_R_EN), which must be set before the family bits are read. */
  const VER_R_EN: nat := 0x8000

  /** The two numbers the script takes from a read report: the address and the value. */
  datatype ReadReport = ReadReport(address: nat, value: nat)

  /** `Value at address 0x(\h+) \(0x\h+\): 0x(\h+)` anchored at the front of `s`. */
  function ReadReportFrom(s: string): Option<ReadReport> {
    match After(s, "Value at address 0x")
    case None => None
    case Some(atAddress) =>
      var address := TakeWhile(atAddress, IsHexDigit);
      if address.0 == [] then None
      else match MappedValueFrom(address.1)
        case None => None
        case Some(value) => Some(ReadReport(HexValue(address.0), value))
  }

  /** The part ` \(0x\h+\): 0x(\h+)` anchored at the front of `s`: the value. */
  function MappedValueFrom(s: string): Option<nat> {
    match After(s, " (0x")
    case None => None
    case Some(atMapped) =>
      var mapped := TakeWhile(atMapped, IsHexDigit);
      if mapped.0 == [] then None
      else match After(mapped.1, "): 0x")
        case None => None
        case Some(atValue) =>
          var value := TakeWhile(atValue, IsHexDigit);
          if value.0 == [] then None else Some(HexValue(value.0))
  }

  function ReadReportAt(reply: string, k: nat): Option<ReadReport> {
    if k <= |reply| then ReadReportFrom(reply[k..]) else None
  }

  /**
   * `mem_read_word`: the value in devmem2's reply, provided the reply has the
   * expected shape and names the address that was asked for; `nil` otherwise.
   */
  function ReadWord(reply: string, addr: nat): (r: Option<nat>)
    ensures r.Some? ==> exists k :: 0 <= k <= |reply| && ReadReportAt(reply, k) == Some(ReadReport(addr, r.value))
                                    && forall j :: 0 <= j < k ==> ReadReportAt(reply, j).None?
    ensures (forall k :: 0 <= k <= |reply| ==> ReadReportAt(reply, k).None?) ==> r.None?
  {
    match FirstMatch(reply, 0, ReadReportAt)
    case Some(report) => if report.address == addr then Some(report.value) else None
    case None => None
  }

  /** `Written 0x(\h+)` anchored at the front of `s`. */
  function WrittenFrom(s: string): Option<nat> {
    match After(s, "Written 0x")
    case None => None
    case Some(atValue) =>
      var value := TakeWhile(atValue, IsHexDigit);
      if value.0 == [] then None else Some(HexValue(value.0))
  }

  function WrittenAt(reply: string, k: nat): Option<nat> {
    if k <= |reply| then WrittenFrom(reply[k..]) else None
  }

  /** `mem_write_word`: true exactly when devmem2 reports having written `val`. */
  function WriteConfirmed(reply: string, val: nat): (ok: bool)
    ensures ok ==> exists k :: 0 <= k <= |reply| && WrittenAt(reply, k) == Some(val)
                              && forall j :: 0 <= j < k ==> WrittenAt(reply, j).None?
    ensures (forall k :: 0 <= k <= |reply| ==> WrittenAt(reply, k).None?) ==> !ok
  {
    FirstMatch(reply, 0, WrittenAt) == Some(val)
  }

  /** The first read report in the reply decides: its value if it names `addr`, `nil` if it names another address. */
  lemma ReadWordFirstReport(reply: string, addr: nat, k: nat)
    requires k <= |reply| && ReadReportAt(reply, k).Some?
    requires forall j :: 0 <= j < k ==> ReadReportAt(reply, j).None?
    ensures ReadWord(reply, addr) ==
            if ReadReportAt(reply, k).value.address == addr then Some(ReadReportAt(reply, k).value.value) else None
  {
    var first := FirstMatch(reply, 0, ReadReportAt);
    var m :| 0 <= m <= |reply| && ReadReportAt(reply, m) == first && forall j :: 0 <= j < m ==> ReadReportAt(reply, j).None?;
    assert m == k;
  }

  /** The first write report in the reply decides: confirmed exactly when it names `val`. */
  lemma WriteConfirmedFirstReport(reply: string, val: nat, k: nat)
    requires k <= |reply| && WrittenAt(reply, k).Some?
    requires forall j :: 0 <= j < k ==> WrittenAt(reply, j).None?
    ensures WriteConfirmed(reply, val) <==> WrittenAt(reply, k) == Some(val)
  {
    var first := FirstMatch(reply, 0, WrittenAt);
    var m :| 0 <= m <= |reply| && WrittenAt(reply, m) == first && forall j :: 0 <= j < m ==> WrittenAt(reply, j).None?;
    assert m == k;
  }

  /** devmem2's report of a read: `Value at address 0x<addr> (0x<mapped>): 0x<value>` and the rest of its output. */
  function ReadReportText(addr: nat, mapped: string, value: nat, rest: string): string {
    "Value at address 0x" + (Hex(addr) + (" (0x" + (mapped + ("): 0x" + (Hex(value) + rest)))))
  }

  lemma MappedValueParses(mapped: string, value: nat, rest: string)
    requires |mapped| > 0 && AllHexDigits(mapped)
    requires rest != [] ==> !IsHexDigit(rest[0])
    ensures MappedValueFrom(" (0x" + (mapped + ("): 0x" + (Hex(value) + rest)))) == Some(value)
  {
    var t4 := Hex(value) + rest;
    var t3 := "): 0x" + t4;
    AfterLiteral(" (0x", mapped + t3);
    TakeWhileSplits(mapped, t3, IsHexDigit);
    AfterLiteral("): 0x", t4);
    TakeWhileSplits(Hex(value), rest, IsHexDigit);
    HexRoundTrip(value);
  }

  /** Anchored at its start, the pattern reads a well-formed report's address and value back. */
  lemma ReadReportParses(addr: nat, mapped: string, value: nat, rest: string)
    requires |mapped| > 0 && AllHexDigits(mapped)
    requires rest != [] ==> !IsHexDigit(rest[0])
    ensures ReadReportFrom(ReadReportText(addr, mapped, value, rest)) == Some(ReadReport(addr, value))
  {
    var t1 := " (0x" + (mapped + ("): 0x" + (Hex(value) + rest)));
    AfterLiteral("Value at address 0x", Hex(addr) + t1);
    TakeWhileSplits(Hex(addr), t1, IsHexDigit);
    HexRoundTrip(addr);
    MappedValueParses(mapped, value, rest);
  }

  /** The character `c` does not occur in `s`. */
  predicate Lacks(s: string, c: char) {
    forall i :: 0 <= i < |s| ==> s[i] != c
  }

  /** No read report starts inside text without a `V`. */
  lemma NoReportBefore(pre: string, report: string)
    requires Lacks(pre, 'V')
    ensures forall j :: 0 <= j < |pre| ==> ReadReportAt(pre + report, j).None?
  {
    forall j | 0 <= j < |pre| ensures ReadReportAt(pre + report, j).None? {
      assert (pre + report)[j..][0] == pre[j];
    }
  }

  /** No write report starts inside text without a `W`. */
  lemma NoWrittenBefore(pre: string, report: string)
    requires Lacks(pre, 'W')
    ensures forall j :: 0 <= j < |pre| ==> WrittenAt(pre + report, j).None?
  {
    forall j | 0 <= j < |pre| ensures WrittenAt(pre + report, j).None? {
      assert (pre + report)[j..][0] == pre[j];
    }
  }

  /**
   * A reply that holds a well-formed read report after lines without a `V`
   * (devmem2 first says `/dev/mem opened.` and `Memory mapped at address 0x...`)
   * gives the report's value for its own address, and nothing for any other address.
   */
  lemma ReadReportRoundTrip(pre: string, addr: nat, mapped: string, value: nat, rest: string, asked: nat)
    requires Lacks(pre, 'V')
    requires |mapped| > 0 && AllHexDigits(mapped)
    requires rest != [] ==> !IsHexDigit(rest[0])
    ensures ReadWord(pre + ReadReportText(addr, mapped, value, rest), asked) == if asked == addr then Some(value) else None
  {
    var report := ReadReportText(addr, mapped, value, rest);
    var text := pre + report;
    ReadReportParses(addr, mapped, value, rest);
    assert text[|pre|..] == report;
    NoReportBefore(pre, report);
    ReadWordFirstReport(text, asked, |pre|);
  }

  /**
   * A reply whose first `Written 0x...` report follows lines without a `W`
   * (devmem2 first reports the open, the mapping and the old value) confirms
   * exactly the value that report names, whatever follows it (`; readback 0x...`).
   */
  lemma WriteReportRoundTrip(pre: string, written: nat, rest: string, val: nat)
    requires Lacks(pre, 'W')
    requires rest != [] ==> !IsHexDigit(rest[0])
    ensures WriteConfirmed(pre + ("Written 0x" + (Hex(written) + rest)), val) <==> val == written
  {
    var report := "Written 0x" + (Hex(written) + rest);
    var text := pre + report;
    AfterLiteral("Written 0x", Hex(written) + rest);
    TakeWhileSplits(Hex(written), rest, IsHexDigit);
    HexRoundTrip(written);
    assert text[|pre|..] == report;
    assert WrittenAt(text, |pre|) == Some(written);
    NoWrittenBefore(pre, report);
    WriteConfirmedFirstReport(text, val, |pre|);
  }

  /** What devmem2 prints before its report: the device opened and the page mapped. */
  const DEVMEM_OPENED := "/dev/mem opened.\n"
  const DEVMEM_MAPPED := "Memory mapped at address 0xb6f7e000.\n"
  const DEVMEM_PREAMBLE := DEVMEM_OPENED + DEVMEM_MAPPED

  lemma LacksJoined(a: string, b: string, c: char)
    requires Lacks(a, c) && Lacks(b, c)
    ensures Lacks(a + b, c)
  {
  }

  lemma HexLacks(s: string)
    requires AllHexDigits(s)
    ensures Lacks(s, 'V') && Lacks(s, 'W')
  {
  }

  lemma PreambleLacks()
    ensures Lacks(DEVMEM_PREAMBLE, 'V') && Lacks(DEVMEM_PREAMBLE, 'W')
  {
    LacksJoined(DEVMEM_OPENED, DEVMEM_MAPPED, 'V');
    LacksJoined(DEVMEM_OPENED, DEVMEM_MAPPED, 'W');
  }

  /** devmem2's whole reply to a read of VER_REG gives the register's value. */
  lemma VersionRegisterReply(value: nat)
    ensures ReadWord(DEVMEM_PREAMBLE + ReadReportText(VER_REG, "b6f7e024", value, "\n"), VER_REG) == Some(value)
  {
    PreambleLacks();
    ReadReportRoundTrip(DEVMEM_PREAMBLE, VER_REG, "b6f7e024", value, "\n", VER_REG);
  }

  /**
   * devmem2's whole reply to a write of VER_REG, which reports the old value
   * before `Written 0x...; readback 0x...`, confirms exactly the value written.
   */
  lemma VersionRegisterWriteReply(previous: nat, written: nat, val: nat)
    ensures WriteConfirmed(DEVMEM_PREAMBLE + ReadReportText(VER_REG, "b6f7e024", previous, "\n")
                           + ("Written 0x" + (Hex(written) + "; readback 0x" + Hex(written) + "\n")), val)
            <==> val == written
  {
    var pre := DEVMEM_PREAMBLE + ReadReportText(VER_REG, "b6f7e024", previous, "\n");
    assert Lacks(pre, 'W') by {
      var r1 := ReadReportText(VER_REG, "b6f7e024", previous, "\n");
      PreambleLacks();
      HexLacks(Hex(VER_REG));
      HexLacks(Hex(previous));
      LacksJoined("Value at address 0x" + Hex(VER_REG), " (0x" + ("b6f7e024" + ("): 0x" + (Hex(previous) + "\n"))), 'W');
      assert r1 == ("Value at address 0x" + Hex(VER_REG)) + (" (0x" + ("b6f7e024" + ("): 0x" + (Hex(previous) + "\n"))));
      LacksJoined(DEVMEM_PREAMBLE, r1, 'W');
    }
    var rest := "; readback 0x" + Hex(written) + "\n";
    assert "Written 0x" + (Hex(written) + "; readback 0x" + Hex(written) + "\n") == "Written 0x" + (Hex(written) + rest);
    WriteReportRoundTrip(pre, written, rest, val);
  }

  /** Bit 15 of a register value. */
  predicate VersionReadEnabled(val: nat) {
    (val / VER_R_EN) % 2 == 1
  }

  /** `val | (1 << 15)`: the value written back when VER_R_EN is found clear. */
  function EnableVersionRead(val: nat): (r: nat)
    ensures VersionReadEnabled(r)
    ensures r / 0x10000 == val / 0x10000
    ensures r % VER_R_EN == val % VER_R_EN
    ensures VersionReadEnabled(val) ==> r == val
  {
    if VersionReadEnabled(val) then val else val + VER_R_EN
  }
}
