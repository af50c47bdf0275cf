/** Recognising Allwinner hardware from `/proc/cpuinfo` (`is_sunxi_hardware`). */
module Cpuinfo {
  import opened Text

  /** `sun<digit>i` at position `k`. */
  predicate SunFamilyAt(line: string, k: nat) {
    HasAt(line, k, "sun") && k + 4 < |line| && IsDigit(line[k + 3]) && line[k + 4] == 'i'
  }

  /** `l =~ /^Hardware/ and l =~ /(Allwinner)|(sun\di)/`. */
  predicate IsSunxiLine(line: string) {
    && StartsWith(line, "Hardware")
    && (Contains(line, "Allwinner") || exists k :: 0 <= k < |line| && SunFamilyAt(line, k))
  }

  /** Some line of the cpuinfo text identifies the hardware as Allwinner. */
  predicate RunsOnSunxi(cpuinfo: string) {
    var lines := Lines(cpuinfo);
    exists i :: 0 <= i < |lines| && IsSunxiLine(lines[i])
  }

  /** `is_sunxi_hardware`: reads the lines in order and stops at the first one that identifies the hardware. */
  method IsSunxiHardware(cpuinfo: string) returns (found: bool)
    ensures found == RunsOnSunxi(cpuinfo)
  {
    var lines := Lines(cpuinfo);
    var i := 0;
    while i < |lines|
      invariant 0 <= i <= |lines|
      invariant forall j :: 0 <= j < i ==> !IsSunxiLine(lines[j])
    {
      if IsSunxiLine(lines[i]) {
        return true;
      }
      i := i + 1;
    }
    return false;
  }

  /** A `Hardware` line naming a `sun<digit>i` family identifies the hardware, whatever else it says. */
  lemma FamilyHardwareLine(digit: char, rest: string)
    requires IsDigit(digit)
    ensures IsSunxiLine("Hardware\t: sun" + [digit] + "i" + rest)
  {
    var line := "Hardware\t: sun" + [digit] + "i" + rest;
    assert line[..8] == "Hardware";
    assert line[11..14] == "sun";
    assert SunFamilyAt(line, 11);
  }

  /** A `Hardware` line naming Allwinner identifies the hardware, whatever follows. */
  lemma AllwinnerHardwareLine(rest: string)
    ensures IsSunxiLine("Hardware\t: Allwinner" + rest)
  {
    var line := "Hardware\t: Allwinner" + rest;
    assert line[..8] == "Hardware";
    assert HasAt(line, 11, "Allwinner") by { assert line[11..20] == "Allwinner"; }
  }

  /** Only `Hardware` lines count: the same words on any other line do not. */
  lemma OtherLinesIgnored(line: string)
    requires !StartsWith(line, "Hardware")
    ensures !IsSunxiLine(line)
  {
  }

  /**
   * A cpuinfo text whose `Hardware` line names a sun7i, after any lines that do
   * not identify the hardware, is recognised.
   */
  lemma RecognisedAfterOtherLines(before: seq<string>, after: seq<string>)
    requires forall i :: 0 <= i < |before| ==> IsLine(before[i]) && before[i][|before[i]| - 1] == '\n'
    requires forall i :: 0 <= i < |after| ==> IsLine(after[i]) && after[i][|after[i]| - 1] == '\n'
    ensures RunsOnSunxi(Concat(before + ["Hardware\t: sun7i\n"] + after))
  {
    var hardware := "Hardware\t: sun7i\n";
    var ls := before + [hardware] + after;
    FamilyHardwareLine('7', "\n");
    assert hardware == "Hardware\t: sun" + ['7'] + "i" + "\n";
    assert IsLine(hardware);
    forall i | 0 <= i < |ls| ensures IsLine(ls[i]) && ls[i][|ls[i]| - 1] == '\n' {
      if i > |before| { assert ls[i] == after[i - |before| - 1]; }
    }
    LinesOfConcat(ls);
    assert ls[|before|] == hardware;
  }
}
