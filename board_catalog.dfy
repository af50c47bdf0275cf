/**
 * The board catalog `sunxi-boards.cfg` and the lookup of the boards that agree
 * with the detected hardware (`find_similar_sunxi_devices`).
 */
module BoardCatalog {
  import opened Wrappers
  import opened Text

  /** One data line: board name, SoC family, DRAM size in MiB and DRAM bus width in bits. */
  datatype Entry = Entry(name: string, soc: string, sizeMiB: nat, busWidth: nat)

  /** The three hardware facts a board is compared with; `None` is Ruby's `nil`, which accepts anything. */
  datatype Query = Query(soc: Option<string>, sizeMiB: Option<int>, busWidth: Option<int>)

  /** The query that accepts every board. */
  const ANY_BOARD := Query(None, None, None)

  /** `/^\s*#/`: the first character that is not white space is `#`. */
  predicate IsComment(line: string) {
    var i := Span(line, 0, IsSpace);
    i < |line| && line[i] == '#'
  }

  /**
   * The pattern `(\S+)\s+(\S+)\s+(\d+)\s*MiB\s*\((\d+)\-bit\)` anchored at the
   * front of `s`. Every repetition in it is greedy and is followed by a
   * character its class excludes, so backtracking never finds a second way to
   * match: the match is the one the longest runs give.
   */
  function EntryFrom(s: string): Option<Entry> {
    match FieldsFrom(s)
    case None => None
    case Some(fields) =>
      match DramFrom(fields.2)
      case None => None
      case Some(dram) => Some(Entry(fields.0, fields.1, dram.0, dram.1))
  }

  /** The part `(\S+)\s+(\S+)\s+` anchored at the front of `s`: the two words and what follows. */
  function FieldsFrom(s: string): Option<(string, string, string)> {
    var name := TakeWhile(s, IsNonSpace);
    var gap1 := TakeWhile(name.1, IsSpace);
    var soc := TakeWhile(gap1.1, IsNonSpace);
    var gap2 := TakeWhile(soc.1, IsSpace);
    if name.0 == [] || gap1.0 == [] || soc.0 == [] || gap2.0 == [] then None
    else Some((name.0, soc.0, gap2.1))
  }

  /** The part `(\d+)\s*MiB\s*\((\d+)\-bit\)` anchored at the front of `s`: size and bus width. */
  function DramFrom(s: string): Option<(nat, nat)> {
    match SizeFrom(s)
    case None => None
    case Some(size) =>
      match WidthFrom(size.1)
      case None => None
      case Some(width) => Some((size.0, width))
  }

  /** The part `(\d+)\s*MiB\s*` anchored at the front of `s`: the size and what follows. */
  function SizeFrom(s: string): Option<(nat, string)> {
    var size := TakeWhile(s, IsDigit);
    var gap := TakeWhile(size.1, IsSpace);
    if size.0 == [] then None
    else match After(gap.1, "MiB")
      case None => None
      case Some(afterUnit) => Some((DecimalValue(size.0), TakeWhile(afterUnit, IsSpace).1))
  }

  /** The part `\((\d+)\-bit\)` anchored at the front of `s`: the bus width. */
  function WidthFrom(s: string): Option<nat> {
    match After(s, "(")
    case None => None
    case Some(afterParen) =>
      var width := TakeWhile(afterParen, IsDigit);
      if width.0 == [] || After(width.1, "-bit)").None? then None
      else Some(DecimalValue(width.0))
  }

  function EntryAt(line: string, k: nat): Option<Entry> {
    if k <= |line| then EntryFrom(line[k..]) else None
  }

  /** The entry that the unanchored pattern finds in a line, if any (the leftmost match). */
  function ParseLine(line: string): Option<Entry> {
    FirstMatch(line, 0, EntryAt)
  }

  /** `nil` accepts any value of a field; a given value must be equal. */
  predicate Accepts(q: Query, e: Entry) {
    && (q.soc.None? || q.soc.value == e.soc)
    && (q.sizeMiB.None? || q.sizeMiB.value == e.sizeMiB)
    && (q.busWidth.None? || q.busWidth.value == e.busWidth)
  }

  /** The board name one line adds to the result: none for a comment, a line without an entry, or a rejected entry. */
  function Contribution(line: string, q: Query): (r: Option<string>)
    ensures r.Some? <==> !IsComment(line) && ParseLine(line).Some? && Accepts(q, ParseLine(line).value)
    ensures r.Some? ==> r.value == ParseLine(line).value.name
  {
    if IsComment(line) then None
    else match ParseLine(line)
      case None => None
      case Some(e) => if Accepts(q, e) then Some(e.name) else None
  }

  /**
   * The hash `results` after `lines` have been read in order, each line adding
   * the name `contribution` gives it, mapped to "".
   */
  function Collect(lines: seq<string>, contribution: string -> Option<string>): map<string, string>
    decreases |lines|
  {
    if lines == [] then map[]
    else Add(Collect(lines[..|lines| - 1], contribution), contribution(lines[|lines| - 1]))
  }

  /** `results[name] = ""` when a line gives a name. */
  function Add(results: map<string, string>, name: Option<string>): map<string, string> {
    match name
    case Some(n) => results[n := ""]
    case None => results
  }

  /** The board names the catalog lines offer for the query. */
  function SimilarDevices(lines: seq<string>, q: Query): map<string, string> {
    Collect(lines, line => Contribution(line, q))
  }

  /** The whole lookup: no result at all when the catalog file does not exist. */
  function SimilarDevicesIn(files: map<string, string>, cfgfile: string, q: Query): Option<map<string, string>> {
    if cfgfile in files then Some(SimilarDevices(Lines(files[cfgfile]), q)) else None
  }

  /** `find_similar_sunxi_devices`: reads the catalog line by line and collects the accepted board names. */
  method FindSimilarDevices(files: map<string, string>, cfgfile: string,
                            socType: Option<string>, dramSize: Option<int>, dramBusWidth: Option<int>)
    returns (r: Option<map<string, string>>)
    ensures cfgfile !in files ==> r.None?
    ensures cfgfile in files ==> r == Some(SimilarDevices(Lines(files[cfgfile]), Query(socType, dramSize, dramBusWidth)))
  {
    if cfgfile !in files {
      return None;
    }
    var q := Query(socType, dramSize, dramBusWidth);
    var lines := Lines(files[cfgfile]);
    var results: map<string, string> := map[];
    var i := 0;
    while i < |lines|
      invariant 0 <= i <= |lines|
      invariant results == SimilarDevices(lines[..i], q)
    {
      var line := lines[i];
      SimilarDevicesStep(lines, i, q);
      if !IsComment(line) {
        var parsed := ParseLine(line);
        if parsed.Some? && Accepts(q, parsed.value) {
          results := results[parsed.value.name := ""];
        }
      }
      i := i + 1;
    }
    assert lines[..i] == lines;
    return Some(results);
  }

  /** One more line read adds that line's contribution. */
  lemma SimilarDevicesStep(lines: seq<string>, i: nat, q: Query)
    requires i < |lines|
    ensures SimilarDevices(lines[..i + 1], q) == Add(SimilarDevices(lines[..i], q), Contribution(lines[i], q))
  {
    assert lines[..i + 1] == lines[..i] + [lines[i]];
    CollectAppend(lines[..i], lines[i], line => Contribution(line, q));
  }

  // ---------------------------------------------------------------------------
  // What the result holds

  /** A name is collected exactly when some line contributes it, and it is always mapped to "". */
  lemma {:induction false} CollectKeys(lines: seq<string>, contribution: string -> Option<string>, name: string)
    ensures name in Collect(lines, contribution) <==> exists i :: 0 <= i < |lines| && contribution(lines[i]) == Some(name)
    ensures name in Collect(lines, contribution) ==> Collect(lines, contribution)[name] == ""
    decreases |lines|
  {
    if lines != [] {
      var init := lines[..|lines| - 1];
      CollectKeys(init, contribution, name);
      if exists i :: 0 <= i < |lines| && contribution(lines[i]) == Some(name) {
        var i :| 0 <= i < |lines| && contribution(lines[i]) == Some(name);
        if i < |lines| - 1 {
          assert contribution(init[i]) == Some(name);
        }
      }
      if exists i :: 0 <= i < |init| && contribution(init[i]) == Some(name) {
        var i :| 0 <= i < |init| && contribution(init[i]) == Some(name);
        assert contribution(lines[i]) == Some(name);
      }
    }
  }

  /** A line that contributes nothing can be dropped, wherever it stands. */
  lemma {:induction false} CollectSkips(before: seq<string>, line: string, after: seq<string>,
                                        contribution: string -> Option<string>)
    requires contribution(line).None?
    ensures Collect(before + [line] + after, contribution) == Collect(before + after, contribution)
    decreases |after|
  {
    var with := before + [line] + after;
    var without := before + after;
    if after == [] {
      assert with[..|with| - 1] == before;
      assert without == before;
    } else {
      var init, last := after[..|after| - 1], after[|after| - 1];
      CollectSkips(before, line, init, contribution);
      assert with == (before + [line] + init) + [last];
      assert without == (before + init) + [last];
      CollectAppend(before + [line] + init, last, contribution);
      CollectAppend(before + init, last, contribution);
    }
  }

  /** Collecting one more line adds that line's contribution. */
  lemma CollectAppend(lines: seq<string>, line: string, contribution: string -> Option<string>)
    ensures Collect(lines + [line], contribution) == Add(Collect(lines, contribution), contribution(line))
  {
    assert (lines + [line])[..|lines|] == lines;
  }

  /** Lines that all contribute nothing collect the empty hash. */
  lemma {:induction false} CollectNothing(lines: seq<string>, contribution: string -> Option<string>)
    requires forall i :: 0 <= i < |lines| ==> contribution(lines[i]).None?
    ensures Collect(lines, contribution) == map[]
    decreases |lines|
  {
    if lines != [] {
      CollectNothing(lines[..|lines| - 1], contribution);
    }
  }

  /**
   * Every board in the result is named by a line that is not a comment, that
   * the catalog pattern matches, and whose entry the query accepts; every such
   * line puts its board in the result; and each board is mapped to "".
   */
  lemma MatchedBoards(lines: seq<string>, q: Query, name: string)
    ensures name in SimilarDevices(lines, q) <==>
      exists i :: 0 <= i < |lines| && !IsComment(lines[i]) && ParseLine(lines[i]).Some?
                  && ParseLine(lines[i]).value.name == name && Accepts(q, ParseLine(lines[i]).value)
    ensures name in SimilarDevices(lines, q) ==> SimilarDevices(lines, q)[name] == ""
  {
    var contribution := line => Contribution(line, q);
    assert SimilarDevices(lines, q) == Collect(lines, contribution);
    CollectKeys(lines, contribution, name);
    if name in SimilarDevices(lines, q) {
      var i :| 0 <= i < |lines| && contribution(lines[i]) == Some(name);
      assert !IsComment(lines[i]) && ParseLine(lines[i]).Some?;
    } else {
      forall i | 0 <= i < |lines| && !IsComment(lines[i]) && ParseLine(lines[i]).Some?
                 && Accepts(q, ParseLine(lines[i]).value)
        ensures ParseLine(lines[i]).value.name != name
      {
        assert contribution(lines[i]) == Some(ParseLine(lines[i]).value.name);
      }
    }
  }

  /** A comment line changes nothing, wherever it stands in the catalog. */
  lemma CommentLineIgnored(before: seq<string>, comment: string, after: seq<string>, q: Query)
    requires IsComment(comment)
    ensures SimilarDevices(before + [comment] + after, q) == SimilarDevices(before + after, q)
  {
    CollectSkips(before, comment, after, line => Contribution(line, q));
  }

  /** A catalog made only of comment lines yields an empty result, which is not the same as no catalog. */
  lemma OnlyCommentsNoBoards(lines: seq<string>, q: Query)
    requires forall i :: 0 <= i < |lines| ==> IsComment(lines[i])
    ensures SimilarDevices(lines, q) == map[]
  {
    CollectNothing(lines, line => Contribution(line, q));
  }

  /** `wider` has `nil` wherever it differs from `q`. */
  predicate Wider(wider: Query, q: Query) {
    && (wider.soc.None? || wider.soc == q.soc)
    && (wider.sizeMiB.None? || wider.sizeMiB == q.sizeMiB)
    && (wider.busWidth.None? || wider.busWidth == q.busWidth)
  }

  /** Turning query fields into `nil` can only add boards: unknown hardware facts widen the result. */
  lemma WiderQueryMoreBoards(lines: seq<string>, q: Query, wider: Query)
    requires Wider(wider, q)
    ensures SimilarDevices(lines, q).Keys <= SimilarDevices(lines, wider).Keys
  {
    forall name | name in SimilarDevices(lines, q) ensures name in SimilarDevices(lines, wider) {
      MatchedBoards(lines, q, name);
      MatchedBoards(lines, wider, name);
    }
  }

  /** With all three fields `nil`, every board named by a well-formed non-comment line is offered. */
  lemma AnyBoardQuery(lines: seq<string>, name: string)
    ensures name in SimilarDevices(lines, ANY_BOARD) <==>
      exists i :: 0 <= i < |lines| && !IsComment(lines[i]) && ParseLine(lines[i]).Some?
                  && ParseLine(lines[i]).value.name == name
  {
    MatchedBoards(lines, ANY_BOARD, name);
    if exists i :: 0 <= i < |lines| && !IsComment(lines[i]) && ParseLine(lines[i]).Some?
                  && ParseLine(lines[i]).value.name == name {
      var i :| 0 <= i < |lines| && !IsComment(lines[i]) && ParseLine(lines[i]).Some?
               && ParseLine(lines[i]).value.name == name;
      assert Accepts(ANY_BOARD, ParseLine(lines[i]).value);
    }
  }

  // ---------------------------------------------------------------------------
  // Writing an entry and reading it back

  /** Board and SoC names are single words: non-empty and free of white space. */
  predicate IsWord(s: string) {
    |s| > 0 && forall i :: 0 <= i < |s| ==> IsNonSpace(s[i])
  }

  predicate WellFormed(e: Entry) {
    IsWord(e.name) && IsWord(e.soc)
  }

  /**
   * The white space a catalog line puts between its fields: the `\s+` after
   * the name and after the SoC, and the `\s*` before and after `MiB`.
   */
  datatype Spacing = Spacing(afterName: string, afterSoc: string, beforeUnit: string, afterUnit: string)

  predicate ValidSpacing(sp: Spacing) {
    && sp.afterName != [] && AllSpace(sp.afterName)
    && sp.afterSoc != [] && AllSpace(sp.afterSoc)
    && AllSpace(sp.beforeUnit) && AllSpace(sp.afterUnit)
  }

  /** The layout `Cubieboard sun4i 1024MiB (32-bit)`. */
  const SINGLE_SPACED := Spacing(" ", " ", "", " ")

  /** A catalog line with the fields of `e` laid out by `sp`, followed by `rest` (its line feed, say). */
  function FormatLine(e: Entry, sp: Spacing, rest: string): string {
    e.name + (sp.afterName + (e.soc + (sp.afterSoc + DramText(e.sizeMiB, e.busWidth, sp, rest))))
  }

  /** The part `<size>MiB (<width>-bit)` of a formatted line, with its own spacing. */
  function DramText(size: nat, width: nat, sp: Spacing, rest: string): string {
    Decimal(size) + (sp.beforeUnit + ("MiB" + (sp.afterUnit + ("(" + (Decimal(width) + ("-bit)" + rest))))))
  }

  lemma SizeFromFormatted(size: nat, before: string, after: string, rest: string)
    requires AllSpace(before) && AllSpace(after)
    requires rest != [] ==> !IsSpace(rest[0])
    ensures SizeFrom(Decimal(size) + (before + ("MiB" + (after + rest)))) == Some((size, rest))
  {
    var t := "MiB" + (after + rest);
    assert (before + t)[0] == if before == [] then 'M' else before[0];
    TakeWhileSplits(Decimal(size), before + t, IsDigit);
    TakeWhileSplits(before, t, IsSpace);
    AfterLiteral("MiB", after + rest);
    TakeWhileSplits(after, rest, IsSpace);
    DecimalRoundTrip(size);
  }

  lemma WidthFromFormatted(width: nat, rest: string)
    ensures WidthFrom("(" + (Decimal(width) + ("-bit)" + rest))) == Some(width)
  {
    AfterLiteral("(", Decimal(width) + ("-bit)" + rest));
    TakeWhileSplits(Decimal(width), "-bit)" + rest, IsDigit);
    AfterLiteral("-bit)", rest);
    DecimalRoundTrip(width);
  }

  lemma DramFromParts(s: string, size: nat, rest: string, width: nat)
    requires SizeFrom(s) == Some((size, rest)) && WidthFrom(rest) == Some(width)
    ensures DramFrom(s) == Some((size, width))
  {
  }

  /** The size and width part of a formatted line reads back as the numbers written, whatever the spacing around `MiB`. */
  lemma ParseFormattedDram(size: nat, width: nat, sp: Spacing, rest: string)
    requires ValidSpacing(sp)
    ensures DramFrom(DramText(size, width, sp, rest)) == Some((size, width))
  {
    var paren := "(" + (Decimal(width) + ("-bit)" + rest));
    SizeFromFormatted(size, sp.beforeUnit, sp.afterUnit, paren);
    WidthFromFormatted(width, rest);
    DramFromParts(DramText(size, width, sp, rest), size, paren, width);
  }

  /** Two words, each followed by a non-empty run of white space, then something that does not start with white space. */
  lemma FieldsFromWords(name: string, gap1: string, soc: string, gap2: string, tail: string)
    requires IsWord(name) && IsWord(soc) && tail != [] && !IsSpace(tail[0])
    requires gap1 != [] && AllSpace(gap1) && gap2 != [] && AllSpace(gap2)
    ensures FieldsFrom(name + (gap1 + (soc + (gap2 + tail)))) == Some((name, soc, tail))
  {
    assert (gap1 + (soc + (gap2 + tail)))[0] == gap1[0];
    TakeWhileSplits(name, gap1 + (soc + (gap2 + tail)), IsNonSpace);
    assert (soc + (gap2 + tail))[0] == soc[0];
    TakeWhileSplits(gap1, soc + (gap2 + tail), IsSpace);
    assert (gap2 + tail)[0] == gap2[0];
    TakeWhileSplits(soc, gap2 + tail, IsNonSpace);
    TakeWhileSplits(gap2, tail, IsSpace);
  }

  lemma EntryFromParts(s: string, fields: (string, string, string), dram: (nat, nat))
    requires FieldsFrom(s) == Some(fields) && DramFrom(fields.2) == Some(dram)
    ensures EntryFrom(s) == Some(Entry(fields.0, fields.1, dram.0, dram.1))
  {
  }

  /** Anchored at the start of a formatted line, the pattern reads the entry back, whatever the spacing. */
  lemma EntryFromFormatted(e: Entry, sp: Spacing, rest: string)
    requires WellFormed(e) && ValidSpacing(sp)
    ensures EntryFrom(FormatLine(e, sp, rest)) == Some(e)
  {
    var tail := DramText(e.sizeMiB, e.busWidth, sp, rest);
    ParseFormattedDram(e.sizeMiB, e.busWidth, sp, rest);
    DecimalHead(e.sizeMiB, sp.beforeUnit + ("MiB" + (sp.afterUnit + ("(" + (Decimal(e.busWidth) + ("-bit)" + rest))))));
    FieldsFromWords(e.name, sp.afterName, e.soc, sp.afterSoc, tail);
    EntryFromParts(FormatLine(e, sp, rest), (e.name, e.soc, tail), (e.sizeMiB, e.busWidth));
  }

  lemma DecimalHead(n: nat, rest: string)
    ensures Decimal(n) + rest != [] && !IsSpace((Decimal(n) + rest)[0])
  {
    assert (Decimal(n) + rest)[0] == Decimal(n)[0];
  }

  lemma FieldsAreWords(s: string)
    requires FieldsFrom(s).Some?
    ensures IsWord(FieldsFrom(s).value.0) && IsWord(FieldsFrom(s).value.1)
  {
  }

  /** What the pattern reads from a line has a board name and a SoC that are single words. */
  lemma ParsedEntryWellFormed(line: string)
    requires ParseLine(line).Some?
    ensures WellFormed(ParseLine(line).value)
  {
    var k :| 0 <= k <= |line| && EntryAt(line, k) == ParseLine(line);
    FieldsAreWords(line[k..]);
  }

  /** Whatever the spacing and whatever follows a formatted entry on its line, the pattern reads the entry back. */
  lemma ParseFormattedLine(e: Entry, sp: Spacing, rest: string)
    requires WellFormed(e) && ValidSpacing(sp)
    ensures ParseLine(FormatLine(e, sp, rest)) == Some(e)
  {
    var line := FormatLine(e, sp, rest);
    EntryFromFormatted(e, sp, rest);
    assert line[0..] == line;
    assert EntryAt(line, 0) == Some(e);
  }

  /** A formatted entry whose name does not begin with `#` is not a comment. */
  lemma FormattedLineIsData(e: Entry, sp: Spacing, rest: string)
    requires WellFormed(e) && e.name[0] != '#'
    ensures !IsComment(FormatLine(e, sp, rest))
  {
    var line := FormatLine(e, sp, rest);
    assert line[0] == e.name[0];
    SpanIs(line, 0, 0, IsSpace);
  }

  /** A commented-out entry still has the entry's shape, yet contributes nothing. */
  lemma CommentedOutEntry(e: Entry, sp: Spacing, rest: string, q: Query)
    requires WellFormed(e) && ValidSpacing(sp)
    ensures ParseLine("#" + FormatLine(e, sp, rest)) == Some(e.(name := "#" + e.name))
    ensures Contribution("#" + FormatLine(e, sp, rest), q) == None
  {
    var commented := e.(name := "#" + e.name);
    var line := FormatLine(commented, sp, rest);
    assert "#" + FormatLine(e, sp, rest) == line;
    assert IsWord(commented.name) by {
      forall i | 0 <= i < |commented.name| ensures IsNonSpace(commented.name[i]) {
        if i > 0 { assert commented.name[i] == e.name[i - 1]; }
      }
    }
    ParseFormattedLine(commented, sp, rest);
    assert IsComment(line) by {
      assert line[0] == '#';
      SpanIs(line, 0, 0, IsSpace);
    }
  }

  /** A formatted data line offers its board exactly when the query accepts the entry. */
  lemma FormattedLineContribution(e: Entry, sp: Spacing, rest: string, q: Query)
    requires WellFormed(e) && ValidSpacing(sp) && e.name[0] != '#'
    ensures Contribution(FormatLine(e, sp, rest), q) == if Accepts(q, e) then Some(e.name) else None
  {
    ParseFormattedLine(e, sp, rest);
    FormattedLineIsData(e, sp, rest);
  }

  /** What a two-line catalog offers, line by line. */
  lemma TwoLines(first: string, second: string, q: Query)
    ensures SimilarDevices([first, second], q) == Add(Add(map[], Contribution(first, q)), Contribution(second, q))
  {
    var lines := [first, second];
    var contribution := line => Contribution(line, q);
    assert lines[..1] == [first] && lines[..1][..0] == [];
    assert Collect(lines, contribution) == Add(Collect(lines[..1], contribution), contribution(second));
    assert Collect(lines[..1], contribution) == Add(Collect(lines[..1][..0], contribution), contribution(first));
  }

  const BOARD_A := Entry("board-a", "sun4i", 512, 16)
  const BOARD_B := Entry("board-b", "sun5i", 1024, 32)
  /** A board whose line is commented out, although it agrees with board-a on every field. */
  const BOARD_C := Entry("board-c", "sun4i", 512, 16)

  /** A layout with a tab, two spaces and no space after `MiB`: `board-b\tsun5i  1024 MiB(32-bit)`. */
  const LOOSELY_SPACED := Spacing("\t", "  ", " ", "")

  const LINE_A := FormatLine(BOARD_A, SINGLE_SPACED, "\n")
  const LINE_B := FormatLine(BOARD_B, LOOSELY_SPACED, "\n")
  /** A commented-out data line. */
  const COMMENTED_C := "#" + FormatLine(BOARD_C, SINGLE_SPACED, "\n")

  /**
   * The catalog `board-a sun4i 512MiB (16-bit)`, `#board-c sun4i 512MiB (16-bit)`,
   * `board-b\tsun5i  1024 MiB(32-bit)`: two boards and a comment between them.
   */
  const TWO_BOARDS := [LINE_A, COMMENTED_C, LINE_B]

  /** A line whose first character is `#` is a comment, whatever follows. */
  lemma HashIsComment(rest: string)
    ensures IsComment("#" + rest)
  {
    assert ("#" + rest)[0] == '#';
  }

  /** The commented-out line of the sample catalog is skipped. */
  lemma SampleCommentSkipped(q: Query)
    ensures SimilarDevices(TWO_BOARDS, q) == SimilarDevices([LINE_A, LINE_B], q)
  {
    HashIsComment(FormatLine(BOARD_C, SINGLE_SPACED, "\n"));
    assert TWO_BOARDS == [LINE_A] + [COMMENTED_C] + [LINE_B];
    CommentLineIgnored([LINE_A], COMMENTED_C, [LINE_B], q);
    assert [LINE_A] + [LINE_B] == [LINE_A, LINE_B];
  }

  /** What the two data lines of the sample catalog offer. */
  lemma SampleDataLines(q: Query)
    ensures SimilarDevices([LINE_A, LINE_B], q) ==
            Add(Add(map[], if Accepts(q, BOARD_A) then Some("board-a") else None),
                if Accepts(q, BOARD_B) then Some("board-b") else None)
  {
    assert IsWord("board-a") && IsWord("board-b") && IsWord("sun4i") && IsWord("sun5i");
    assert ValidSpacing(SINGLE_SPACED) && ValidSpacing(LOOSELY_SPACED);
    TwoLines(LINE_A, LINE_B, q);
    FormattedLineContribution(BOARD_A, SINGLE_SPACED, "\n", q);
    FormattedLineContribution(BOARD_B, LOOSELY_SPACED, "\n", q);
  }

  lemma TwoBoardsLines(q: Query)
    ensures SimilarDevices(TWO_BOARDS, q) ==
            Add(Add(map[], if Accepts(q, BOARD_A) then Some("board-a") else None),
                if Accepts(q, BOARD_B) then Some("board-b") else None)
  {
    SampleCommentSkipped(q);
    SampleDataLines(q);
  }

  /**
   * In the sample catalog the query (sun4i, 512, 16) finds board-a alone: not
   * board-b, whose fields differ, and not board-c, whose line is a comment.
   */
  lemma TwoBoardsExactQuery()
    ensures SimilarDevices(TWO_BOARDS, Query(Some("sun4i"), Some(512), Some(16))) == map["board-a" := ""]
  {
    var exact := Query(Some("sun4i"), Some(512), Some(16));
    TwoBoardsLines(exact);
    assert !Accepts(exact, BOARD_B) by { assert BOARD_B.soc[3] != "sun4i"[3]; }
  }

  /** In the sample catalog the all-`nil` query finds both boards, and still not the commented-out one. */
  lemma TwoBoardsAnyQuery()
    ensures SimilarDevices(TWO_BOARDS, ANY_BOARD) == map["board-a" := "", "board-b" := ""]
  {
    TwoBoardsLines(ANY_BOARD);
  }
}
