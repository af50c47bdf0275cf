# sunxi-bootsetup: the decision logic of the Allwinner u-boot installer

`sunxi-bootsetup-common.rb` is the wizard that a setup SD card boots into on an
Allwinner (sunxi) board. It does four things:

1. It finds out what hardware it runs on. It reads `/proc/cpuinfo`, reads the
   version register through `devmem2` and sets its VER_R_EN bit if needed, and
   scrapes the DRAM settings that `a10-meminfo` prints.
2. It looks up the boards in `sunxi-boards.cfg` whose SoC family, DRAM size and
   DRAM bus width agree with that hardware.
3. It lets the user choose one of those boards, then asks for confirmation.
4. It writes the chosen board's u-boot binary to the SD card and reboots.

This project models the decision logic in Dafny, and leaves the processes the
script runs outside the model. The outside world is passed in as values:

- the file system is a map from path to contents;
- the outputs of `devmem2`, `a10-meminfo` and `/proc/cpuinfo` are strings;
- what `dialog` reports back is a string.

Every regular expression the script uses is modelled exactly. Anchored at a
position, the match Ruby returns is unique. Most greedy runs in these patterns
are followed by a character that the run's class excludes, so backtracking never
finds a second way to match. The last group of the `devmem2` and `key = N`
patterns (`0x(\h+)`, `(\d+)`) is followed by nothing. Any shorter run would also
match there, but Ruby's greedy run takes the longest run of hex digits (or
digits), as `Text.TakeWhile` does. So the match Ruby returns at a position is a
function, and Ruby's unanchored `=~` is the
match that starts leftmost (`Text.FirstMatch`). `each_line` is `Text.Lines`.

Modules:

- `Wrappers`: `Option` and `Result`.
- `Text`: character classes, numerals, greedy runs, the leftmost match, and lines.
- `BoardCatalog`: the catalog parser and `find_similar_sunxi_devices`.
- `Devmem`: the checks on `devmem2`'s replies, and the VER_R_EN bit.
- `Cpuinfo`: `is_sunxi_hardware`.
- `Meminfo`: the `key = N` scans over `a10-meminfo`'s output.
- `Hardware`: `get_hardware_info`, meaning the SoC decode, the DRAM size, the summary line and the one register write.
- `Dialog`: `dialog_menu`, meaning its argument list in sorted key order and the rule that a reply counts only if it is an item key.
- `Installer`: `read_file`, `do_install_uboot` and the main menu of `do_main_menu`.

What the script does in the cases its callers might not expect:

- When `a10-meminfo` does not report `dram_chip_density`, `dram_bus_width` or `dram_io_width`, the setting is 0 (lines 177-179). `dram_size` and `dram_bus_width` are always assigned (lines 195-197).
  - With `dram_bus_width` missing and a non-zero `dram_io_width`, the catalog query asks for a 0 MiB, 0-bit board.
  - With only `dram_chip_density` missing, it asks for a 0 MiB board of the reported width.
  - With `dram_io_width` missing, no query is made (next item).
- A `dram_io_width` of 0, or a missing one, divides by zero at line 195. Ruby raises ZeroDivisionError, and nothing rescues it. The model returns `Failure(ZeroDivision)`.
- When the re-read of VER_REG at line 146 fails, or the read of SID_KEY2 at line 156 on a sun5i fails, the read returns `nil`. Shifting `nil` raises NoMethodError. The model returns `Failure(NilRegister)`.
- The confirmation menu's keys are `"1"` (cancel) and `"2"` (install).
- The DRAM part of the summary appears whenever `dram_clk` was found, even when it is 0, because 0 is true in Ruby.

## Model

| member | source | states |
|---|---|---|
| `BoardCatalog.FindSimilarDevices` | sunxi-bootsetup-common.rb:67-87 | No catalog file gives `nil`. Otherwise the result is the map collected over the file's lines, one line at a time, for the query (the loop invariant: the map for the lines read so far). |
| `BoardCatalog.Contribution` | sunxi-bootsetup-common.rb:74-81 | A line adds a board exactly when it is not a comment, the catalog pattern matches it, and the query accepts the entry. The name it adds is the first field of the match. |
| `BoardCatalog.MatchedBoards` | sunxi-bootsetup-common.rb:72-84 | A name is in the result iff some non-comment line matches the pattern with that name and meets all three criteria. Every value is `""`. |
| `BoardCatalog.CollectKeys` | sunxi-bootsetup-common.rb:72-84 | Collecting over lines gives exactly the names some line contributes, each mapped to `""`. |
| `BoardCatalog.CollectSkips` | sunxi-bootsetup-common.rb:72-84 | A line that contributes nothing can be removed without changing the result. |
| `BoardCatalog.CollectAppend` | sunxi-bootsetup-common.rb:72-84 | Reading one more line adds that line's contribution to the result so far. |
| `BoardCatalog.CollectNothing` | sunxi-bootsetup-common.rb:71-86 | Lines that contribute nothing give the empty map. |
| `BoardCatalog.CommentLineIgnored` | sunxi-bootsetup-common.rb:74 | Inserting a comment line anywhere does not change the result. |
| `BoardCatalog.OnlyCommentsNoBoards` | sunxi-bootsetup-common.rb:74 | A catalog made only of comments gives the empty map (which is not `nil`). |
| `BoardCatalog.CommentedOutEntry` | sunxi-bootsetup-common.rb:74-76 | `#` in front of a well-formed data line still matches the pattern, but the line contributes nothing. |
| `BoardCatalog.WiderQueryMoreBoards` | sunxi-bootsetup-common.rb:77-79 | Replacing query fields by `nil` can only add boards. |
| `BoardCatalog.AnyBoardQuery` | sunxi-bootsetup-common.rb:77-79 | The all-`nil` query accepts every non-comment line that matches the pattern. |
| `BoardCatalog.FormattedLineContribution` | sunxi-bootsetup-common.rb:76-81 | A line in the catalog's own layout contributes its board exactly when the query accepts all three fields: string equality for the SoC, integer equality for size and width. |
| `BoardCatalog.ParseFormattedLine` | sunxi-bootsetup-common.rb:76 | The pattern reads every field of a formatted line back (a round trip), for any spacing the pattern allows between the fields and whatever follows on the line. |
| `BoardCatalog.EntryFromFormatted` | sunxi-bootsetup-common.rb:76 | The anchored pattern reads a formatted entry back, for any spacing the pattern allows. |
| `BoardCatalog.ParseFormattedDram` | sunxi-bootsetup-common.rb:76 | `NNN MiB (WW-bit)`, with any white space or none around `MiB`, gives back size NNN and width WW. |
| `BoardCatalog.SizeFromFormatted` | sunxi-bootsetup-common.rb:76 | `(\d+)\s*MiB\s*` reads the size back, with any white space (or none) before and after `MiB`, and stops at the next character that is not white space. |
| `BoardCatalog.WidthFromFormatted` | sunxi-bootsetup-common.rb:76 | `\((\d+)\-bit\)` reads the width back. |
| `BoardCatalog.FieldsFromWords` | sunxi-bootsetup-common.rb:76 | `(\S+)\s+(\S+)\s+` reads back two words, each followed by any non-empty run of white space (spaces, tabs). |
| `BoardCatalog.ParsedEntryWellFormed` | sunxi-bootsetup-common.rb:76 | Any match has a non-empty, space-free board name and SoC. |
| `BoardCatalog.FormattedLineIsData` | sunxi-bootsetup-common.rb:74 | A formatted line whose name does not start with `#` is not a comment. |
| `BoardCatalog.TwoBoardsExactQuery` | sunxi-bootsetup-common.rb:67-87 | The sample catalog has two boards, one single-spaced and one laid out with a tab and extra spaces. Between them is a commented-out line whose fields equal the query's. On it, the exact query keeps only the board that agrees on every field; the commented-out board is not kept. |
| `BoardCatalog.SampleCommentSkipped` | sunxi-bootsetup-common.rb:74 | The commented-out line of the sample catalog changes nothing. |
| `BoardCatalog.HashIsComment` | sunxi-bootsetup-common.rb:74 | A line whose first character is `#` is a comment. |
| `BoardCatalog.TwoBoardsAnyQuery` | sunxi-bootsetup-common.rb:67-87 | On the same catalog, the all-`nil` query keeps both boards, and not the commented-out one. |
| `BoardCatalog.IsComment` | sunxi-bootsetup-common.rb:74 | Defines `/^\s*#/`: the first character that is not white space is `#`. |
| `BoardCatalog.EntryFrom` | sunxi-bootsetup-common.rb:76 | Defines the pattern `(\S+)\s+(\S+)\s+(\d+)\s*MiB\s*\((\d+)\-bit\)` anchored at the front of a text. `EntryFromFormatted` and `ParsedEntryWellFormed` state its properties. |
| `BoardCatalog.ParseLine` | sunxi-bootsetup-common.rb:76 | Defines the unanchored `=~` on a catalog line: the match that starts leftmost. `ParseFormattedLine` and `CommentedOutEntry` state its properties. |
| `BoardCatalog.Accepts` | sunxi-bootsetup-common.rb:77-79 | Defines the three tests: each query field is `nil` or equal to the entry's field. |
| `BoardCatalog.SimilarDevices` | sunxi-bootsetup-common.rb:71-86 | Defines the hash collected over the catalog's lines. `MatchedBoards` characterises its keys and values. |
| `BoardCatalog.SimilarDevicesIn` | sunxi-bootsetup-common.rb:67-70 | Defines the whole lookup: `nil` when the catalog file does not exist, the collected hash otherwise. |
| `BoardCatalog.SimilarDevicesStep` | sunxi-bootsetup-common.rb:72-84 | Reading line i adds that line's contribution to the hash for the lines before it. |
| `Cpuinfo.IsSunxiLine` | sunxi-bootsetup-common.rb:97 | Defines the line test: the line starts with `Hardware` and contains `Allwinner` or `sun<digit>i`. |
| `Cpuinfo.RunsOnSunxi` | sunxi-bootsetup-common.rb:96-101 | Defines the answer of `is_sunxi_hardware`: some line of `/proc/cpuinfo` passes the line test. |
| `Cpuinfo.IsSunxiHardware` | sunxi-bootsetup-common.rb:93-102 | The early-return line loop answers true exactly when some line of the text starts with `Hardware` and mentions `Allwinner` or `sun<digit>i`. |
| `Cpuinfo.FamilyHardwareLine` | sunxi-bootsetup-common.rb:97 | A `Hardware : sun<digit>i` line is recognised. |
| `Cpuinfo.AllwinnerHardwareLine` | sunxi-bootsetup-common.rb:97 | A `Hardware : Allwinner` line is recognised. |
| `Cpuinfo.OtherLinesIgnored` | sunxi-bootsetup-common.rb:97 | A line that does not start with `Hardware` is never recognised. |
| `Cpuinfo.RecognisedAfterOtherLines` | sunxi-bootsetup-common.rb:96-100 | A sun7i `Hardware` line is found whatever lines surround it. |
| `Devmem.ReadReportFrom` | sunxi-bootsetup-common.rb:116 | Defines the pattern `Value at address 0x(\h+) \(0x\h+\): 0x(\h+)` anchored at the front of a text: the address and the value. `ReadReportParses` reads a report back through it. |
| `Devmem.WrittenFrom` | sunxi-bootsetup-common.rb:125 | Defines the pattern `Written 0x(\h+)` anchored at the front of a text: the value written. `WriteReportRoundTrip` reads a report back through it. |
| `Devmem.VersionReadEnabled` | sunxi-bootsetup-common.rb:144 | Defines the test `(val & (1 << 15)) != 0`: bit 15 of the value is set. |
| `Devmem.ReadWord` | sunxi-bootsetup-common.rb:114-121 | A value is returned only if the first read report in the reply names the address asked for and holds that value. A reply with no report gives `nil`. |
| `Devmem.ReadWordFirstReport` | sunxi-bootsetup-common.rb:116-120 | The first report in the reply decides: its value when it names the address asked for, `nil` when it names another address. |
| `Devmem.ReadReportRoundTrip` | sunxi-bootsetup-common.rb:116-118 | A reply with a well-formed report after lines without a `V`, as devmem2 prints them, yields the report's value exactly when its address equals the address asked for, and `nil` otherwise. |
| `Devmem.VersionRegisterReply` | sunxi-bootsetup-common.rb:114-121 | devmem2's whole reply to a read of VER_REG (the open and mapping lines, then the report) gives the value read. |
| `Devmem.NoReportBefore` | sunxi-bootsetup-common.rb:116 | No read report starts inside text without a `V`. |
| `Devmem.MappedValueParses` | sunxi-bootsetup-common.rb:116 | The tail ` (0x<mapped>): 0x<value>` of the pattern reads the value back. |
| `Devmem.ReadReportParses` | sunxi-bootsetup-common.rb:116 | The anchored pattern reads a report's address and value back. |
| `Devmem.WriteConfirmed` | sunxi-bootsetup-common.rb:123-130 | Confirmation needs the first `Written 0x…` report in the reply to name the value itself. A reply with no such report does not confirm. |
| `Devmem.WriteConfirmedFirstReport` | sunxi-bootsetup-common.rb:125-129 | The first write report decides: the write is confirmed exactly when it names the value written. |
| `Devmem.NoWrittenBefore` | sunxi-bootsetup-common.rb:125 | No write report starts inside text without a `W`. |
| `Devmem.WriteReportRoundTrip` | sunxi-bootsetup-common.rb:125-127 | A reply whose write report follows lines without a `W` confirms `val` iff the report names exactly `val`, whatever follows it. |
| `Devmem.VersionRegisterWriteReply` | sunxi-bootsetup-common.rb:123-130 | devmem2's whole reply to a write of VER_REG (the open and mapping lines, the old value, then `Written 0x…; readback 0x…`) confirms exactly the value written. |
| `Devmem.EnableVersionRead` | sunxi-bootsetup-common.rb:144-145 | `val \| (1 << 15)` sets VER_R_EN, keeps every other bit, and changes nothing when the bit is already set. |
| `Meminfo.SettingFrom` | sunxi-bootsetup-common.rb:180-194 | Defines the pattern `<key>\s*\=\s*(\d+)` anchored at the front of a text: the number. `SettingFromText` reads a setting back through it. |
| `Meminfo.Setting` | sunxi-bootsetup-common.rb:180-194 | Defines `data =~ /<key>\s*\=\s*(\d+)/`: the number in the leftmost match. |
| `Meminfo.SettingRoundTrip` | sunxi-bootsetup-common.rb:180-194 | A line `key = N`, with any spacing around `=`, yields N when the whole lines before it never mention the key, as in a10-meminfo's output. |
| `Meminfo.SettingFromText` | sunxi-bootsetup-common.rb:180-194 | Anchored at its start, the scan reads `key = N` back. |
| `Meminfo.SettingFirstMatch` | sunxi-bootsetup-common.rb:180-194 | The leftmost match decides the setting. |
| `Meminfo.NoSettingBefore` | sunxi-bootsetup-common.rb:180-194 | No match starts inside whole lines that never mention the key. |
| `Meminfo.MissingSetting` | sunxi-bootsetup-common.rb:177-194 | A text that never mentions the key yields nothing, so the setting keeps its default. |
| `Meminfo.SettingNeedsKey` | sunxi-bootsetup-common.rb:180-194 | A match at a position needs the key at that position. |
| `Meminfo.ParseMemInfo` | sunxi-bootsetup-common.rb:177-194 | When the scan finds no `dram_chip_density`, `dram_bus_width` or `dram_io_width`, that field is 0. |
| `Meminfo.MissingSettingsDefault` | sunxi-bootsetup-common.rb:176-192 | A text that never mentions `dram_chip_density`, `dram_bus_width` or `dram_io_width` gives that field 0. A text that never mentions `dram_clk` or `mbus_clk` leaves that clock not found. |
| `Meminfo.ReportedSetting` | sunxi-bootsetup-common.rb:180-192 | A line `key = N` after whole lines that never mention the key sets the record's field for that key to N (`Some(N)` for the clocks), with any spacing around `=`. |
| `Hardware.Sun5iName` | sunxi-bootsetup-common.rb:156-163 | Defines the inner `case`: variant 0 is A12, 3 is A13, 7 is A10s, and any other variant leaves the name unset. |
| `Hardware.DecodeSoc` | sunxi-bootsetup-common.rb:150-173 | Defines the `case val >> 16` table, and the sun5i name from `(SID_KEY2 >> 12) & 0xF`. A `nil` SID_KEY2 read on a sun5i raises. |
| `Hardware.DecodeSocFamily` | sunxi-bootsetup-common.rb:150-173 | The family is the one the table gives for `val >> 16` (0x1623 sun4i, 0x1625 sun5i, 0x1633 sun6i, 0x1650 sun8i, 0x1651 sun7i). Any other code leaves family and name unset. |
| `Hardware.DecodeSun5iName` | sunxi-bootsetup-common.rb:154-163 | For a sun5i, the name is A12, A13 or A10s exactly when `(SID_KEY2 >> 12) & 0xF` is 0, 3 or 7, and is unset otherwise. |
| `Hardware.DecodeSocFails` | sunxi-bootsetup-common.rb:154-156 | The decode fails iff the code is sun5i and SID_KEY2 could not be read. |
| `Hardware.DecodedNamesHaveNoComma` | sunxi-bootsetup-common.rb:150-200 | No name from the table contains a comma. |
| `Hardware.DramSize` | sunxi-bootsetup-common.rb:195-196 | The size fails (ZeroDivisionError) iff the io width is 0. |
| `Hardware.DramSizeRoundsDown` | sunxi-bootsetup-common.rb:195-196 | The size is `bus * density / (io * 8)`, rounded down. |
| `Hardware.DramPart` | sunxi-bootsetup-common.rb:203-206 | Defines `sprintf(", DRAM: %d MiB, %d-bit, %d MHz", size, width, clock)`. |
| `Hardware.MbusPart` | sunxi-bootsetup-common.rb:210-211 | Defines `sprintf(", MBUS: %d MHz", clock)`. |
| `Hardware.Summary` | sunxi-bootsetup-common.rb:199-212 | Defines the summary: `SoC: <name>`, then the DRAM part when `dram_clk` was found, then the MBUS part when `mbus_clk` was found and is non-zero. |
| `Hardware.SummaryStartsWithSoc` | sunxi-bootsetup-common.rb:199-200 | The summary starts with `SoC: ` and the name, or `unknown`. |
| `Hardware.SummaryMentionsDram` | sunxi-bootsetup-common.rb:202-207 | The summary contains `, DRAM: ` iff `dram_clk` was found. |
| `Hardware.SummaryMentionsMbus` | sunxi-bootsetup-common.rb:209-212 | The summary contains `, MBUS: ` iff `mbus_clk` was found and is non-zero. |
| `Hardware.SummaryString` | sunxi-bootsetup-common.rb:199-212 | The `+=` steps build the summary line. |
| `Hardware.ReadMemInfo` | sunxi-bootsetup-common.rb:176-194 | The five `if` scans give the settings, with their defaults of 0. |
| `Hardware.EnableVersionRegister` | sunxi-bootsetup-common.rb:143-147 | If VER_R_EN is set, the value read is kept and nothing is written. Otherwise one write of the value with the bit set is issued, followed by a re-read. |
| `Hardware.DescribeHardware` | sunxi-bootsetup-common.rb:149-212 | The record is derived from the version value, the SID_KEY2 read and the meminfo settings. |
| `Hardware.Derive` | sunxi-bootsetup-common.rb:149-212 | Defines the record for a version value: the decoded SoC, the meminfo clocks, the DRAM size and bus width, and the summary. A `nil` value, a failed sun5i SID_KEY2 read or a zero io width raise. |
| `Hardware.ProbeFrom` | sunxi-bootsetup-common.rb:136-215 | Defines the probe's record and register writes in terms of the parsed observations. |
| `Hardware.ProbeHardware` | sunxi-bootsetup-common.rb:136-215 | Defines the probe's record and register writes in terms of the raw outputs of `/proc/cpuinfo`, devmem2 and a10-meminfo. |
| `Hardware.GetHardwareInfo` | sunxi-bootsetup-common.rb:136-215 | The step-by-step probe gives the same record (or exception) and the same register writes as the probe function of its observations. |
| `Hardware.NotSunxiIsUnknown` | sunxi-bootsetup-common.rb:137-138 | On non-Allwinner hardware the record is `Unknown hardware` and nothing is written. |
| `Hardware.OnlyWriteSetsVersionRead` | sunxi-bootsetup-common.rb:140-147 | At most one write happens, to VER_REG. It happens exactly when the first read succeeded with VER_R_EN clear, and the value written is that read plus bit 15. |
| `Hardware.EnabledReadIsDecoded` | sunxi-bootsetup-common.rb:140-147 | If VER_R_EN was set, the first read is decoded and nothing is written. |
| `Hardware.DeriveFails` | sunxi-bootsetup-common.rb:146-196 | After the first read, the probe raises exactly when: the value is `nil`, or a sun5i's SID_KEY2 read fails, or the io width is 0. |
| `Hardware.DerivedRecord` | sunxi-bootsetup-common.rb:149-212 | A derived record contains: the decoded SoC; the meminfo clocks and bus width; the rounded-down DRAM size; and the summary properties above. |
| `Dialog.Before` | sunxi-bootsetup-common.rb:35 | Defines the order `sort` uses: `String#<=>` answering -1, meaning a proper prefix, or smaller at the first difference. |
| `Dialog.MenuHead` | sunxi-bootsetup-common.rb:27-34 | Defines the arguments before the items: `--default-item` and the key when one is given, then the fixed options, the title and the text after a line feed. |
| `Dialog.SortedKeys` | sunxi-bootsetup-common.rb:35 | Defines the keys in the order `items.sort` gives. It has as many entries as the menu has keys, each one of them, and `SortedKeysSorted` proves them strictly ascending. |
| `Dialog.PushItems` | sunxi-bootsetup-common.rb:35 | `items.sort.each { push(key, label) }`: appends each key and its label in sorted key order. |
| `Dialog.MenuArgs` | sunxi-bootsetup-common.rb:25-35 | The arguments are the optional `--default-item`, then the fixed options, title and text, then each key and label in sorted key order. |
| `Dialog.SortKeys` | sunxi-bootsetup-common.rb:35 | The keys are sorted by Ruby's string order. |
| `Dialog.LeastKey` | sunxi-bootsetup-common.rb:35 | Returns the key that precedes every other key. |
| `Dialog.PushKeys` | sunxi-bootsetup-common.rb:35 | The `push` loop appends each key, then its label. |
| `Dialog.ItemArgsAt` | sunxi-bootsetup-common.rb:35 | Item i is at positions 2i and 2i+1. |
| `Dialog.SortedKeysSorted` | sunxi-bootsetup-common.rb:35 | The sorted keys strictly ascend and are exactly the menu's keys. |
| `Dialog.BeforeTransitive` | sunxi-bootsetup-common.rb:35 | The string order used by `sort` is transitive. |
| `Dialog.BeforeTotal` | sunxi-bootsetup-common.rb:35 | Any two different keys are ordered. |
| `Dialog.BeforeAsymmetric` | sunxi-bootsetup-common.rb:35 | The string order is asymmetric. |
| `Dialog.LeastExists` | sunxi-bootsetup-common.rb:35 | A non-empty key set has a least key. |
| `Dialog.MenuChoice` | sunxi-bootsetup-common.rb:42-44 | The reply is returned iff it is one of the item keys. Otherwise the result is `nil`. |
| `Installer.ReadFile` | sunxi-bootsetup-common.rb:219-226 | The contents are returned iff the file exists. |
| `Installer.BinaryName` | sunxi-bootsetup-common.rb:270 | Defines `u-boot-sunxi-with-spl-<board>.bin`. |
| `Installer.BinaryNameRoundTrip` | sunxi-bootsetup-common.rb:270 | The board is read back from `u-boot-sunxi-with-spl-<board>.bin`. |
| `Installer.BinaryNameInjective` | sunxi-bootsetup-common.rb:270 | Different boards have different binaries. |
| `Installer.BoardOfBinaryRoundTrip` | sunxi-bootsetup-common.rb:270 | Every name of the binaries' shape is the binary of the board read from it. |
| `Installer.ConfirmationMenu` | sunxi-bootsetup-common.rb:297-299 | The confirmation menu has exactly the keys "1" (cancel) and "2" (install). |
| `Installer.ConfirmationNamesBoard` | sunxi-bootsetup-common.rb:299 | The install label ends with the board name in quotes. |
| `Installer.MainMenu` | sunxi-bootsetup-common.rb:369-380 | Item "1" (install) exists iff `description.txt` was read. Item "2" is the login. |
| `Installer.MainMenuAction` | sunxi-bootsetup-common.rb:384-391 | Defines one round of the main menu: "1" runs the wizard, "2" the login, and any other reply shows the menu again. |
| `Installer.WizardNeedsDescription` | sunxi-bootsetup-common.rb:371-390 | The wizard runs iff the reply is "1" and `description.txt` exists. The login runs iff the reply is "2". |
| `Installer.HardwareQuery` | sunxi-bootsetup-common.rb:233-237 | Defines the catalog query from the hardware record's SoC type, DRAM size and bus width. An unknown field is `nil`. |
| `Installer.InstallUboot` | sunxi-bootsetup-common.rb:230-311 | Defines `do_install_uboot`, given the files and the two menu replies: the dialogs it shows and whether it writes u-boot. |
| `Installer.AfterLookup` | sunxi-bootsetup-common.rb:239-311 | Defines the wizard after the catalog lookup. |
| `Installer.InstallCommands` | sunxi-bootsetup-common.rb:305-306 | Defines the two commands: `dd if=<binary> of=/dev/mmcblk0 bs=1024 seek=8`, then `sync && reboot`. |
| `Installer.MissingCatalogIsReported` | sunxi-bootsetup-common.rb:231-243 | A catalog that cannot be read ends the wizard with one error naming it. |
| `Installer.NoFittingBoardIsReported` | sunxi-bootsetup-common.rb:245-250 | An empty match ends the wizard with the other message. |
| `Installer.BoardMenuOffersFittingBoards` | sunxi-bootsetup-common.rb:233-266 | Otherwise the first dialog offers exactly the boards that fit the hardware. |
| `Installer.ConfirmationShown` | sunxi-bootsetup-common.rb:270-301 | Once the binary is found, the second dialog asks for confirmation. It names the board and the binary, and notes whether the SD card lacks `boot.scr`. |
| `Installer.InstallsOnlyConfirmedBoard` | sunxi-bootsetup-common.rb:230-311 | u-boot is written exactly when the catalog lists the chosen board for this hardware, its binary exists, and the user answers "2". It is written with `dd` of that binary, followed by `sync && reboot`. |
| `Installer.InstalledBoardIsListed` | sunxi-bootsetup-common.rb:233-268 | The installed board is named by a data line of the catalog that fits the hardware. |
| `Installer.AfterLookupInstall` | sunxi-bootsetup-common.rb:239-311 | Given the lookup result, the wizard installs exactly when: the reply is a listed board, its binary exists, and the confirmation is "2". |
| `Installer.AfterLookupMenu` | sunxi-bootsetup-common.rb:245-266 | A non-empty lookup shows the board menu first. |
| `Installer.AfterLookupConfirm` | sunxi-bootsetup-common.rb:268-301 | A listed board with a binary leads to the confirmation menu as the second dialog. |

## Left out

- Running `dialog`, the temporary file and `Shellwords`: the reply is a parameter. The `--default-item` argument is modelled; `dialog_msgbox`'s own argument list is not, and a message box is a `MessageBox` screen.
- Running `devmem2` and `a10-meminfo`, and opening `/proc/cpuinfo`: their outputs are parameters. A failure to open `/proc/cpuinfo` is not modelled.
- `Hardware.OnlyWriteSetsVersionRead`: the register write is recorded, not performed. The reply of `mem_write_word` is ignored by the script, and also here. The bit-or `val | (1 << 15)` is stated arithmetically: value plus 0x8000 when bit 15 is clear.
- `dd`, `sync && reboot`, the `sleep` loop and `exec("login -f root")`: the commands are returned as strings, and the login is an action value.
- The `do_main_menu` loop, the intro text and the wording of every prompt, including the `\Z` colour escapes: one round of the main menu is modelled, and prompts are tags.
- `Installer.ReadFile`: `File.join` is modelled as `dir + "/" + name`. Ruby's collapsing of doubled separators is not modelled. The binary read mode is not modelled either. Nor is the `dir = nil` default, where the name is used as the path (line 220): the only caller passes a directory.
- `Dialog.SortKeys`: Ruby compares strings byte by byte. The model compares Unicode scalar values. For valid UTF-8 keys this is the same order as Ruby's byte comparison.
- `BoardCatalog.FindSimilarDevices`: `File.open` failing on a file that exists is not modelled. Nor is a catalog that is not valid text.
- Mutation of the `results` hash in place is modelled as reassignment of a map value. Nothing else holds a reference to it.
