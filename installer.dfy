/**
 * `do_install_uboot` and the main menu of `do_main_menu`: which dialogs the
 * wizard shows, with which items, and when it goes on to write u-boot to the
 * SD card. The file system is a map from path to contents, and the user's
 * answers are the texts `dialog` reports back.
 */
module Installer {
  import opened Wrappers
  import opened Text
  import opened BoardCatalog
  import opened Hardware
  import opened Dialog

  /** Where the setup partition keeps the u-boot binaries, the catalog and `description.txt`. */
  const UBOOT_DIRECTORY := "/mnt/mmcblk0p1/boot/setup/u-boot-binaries"
  const CATALOG_NAME := "sunxi-boards.cfg"
  const DESCRIPTION_NAME := "description.txt"
  /** The boot script a complete system on the SD card would have. */
  const BOOT_SCRIPT := "/mnt/mmcblk0p1/boot/boot.scr"

  const BINARY_PREFIX := "u-boot-sunxi-with-spl-"
  const BINARY_SUFFIX := ".bin"

  const CANCEL_LABEL := "Cancel and return to the main menu"
  const LOGIN_LABEL := "Login as 'root' to the initramfs busybox shell"

  /** `File.join(dir, name)` for a directory without a trailing `/` and a name without a leading one. */
  function JoinPath(dir: string, name: string): string {
    dir + "/" + name
  }

  /** `read_file(dir, name)`: the contents, or `nil` when the file does not exist. */
  function ReadFile(files: map<string, string>, dir: string, name: string): (r: Option<string>)
    ensures r.Some? <==> JoinPath(dir, name) in files
    ensures r.Some? ==> r.value == files[JoinPath(dir, name)]
  {
    var path := JoinPath(dir, name);
    if path in files then Some(files[path]) else None
  }

  // ---------------------------------------------------------------------------
  // Binary names

  /** `"u-boot-sunxi-with-spl-#{board_name}.bin"`. */
  function BinaryName(board: string): string {
    BINARY_PREFIX + board + BINARY_SUFFIX
  }

  /** The board a binary name is for, if the name has the binaries' shape. */
  function BoardOfBinary(name: string): Option<string> {
    if |name| >= |BINARY_PREFIX| + |BINARY_SUFFIX|
       && name[..|BINARY_PREFIX|] == BINARY_PREFIX && name[|name| - |BINARY_SUFFIX|..] == BINARY_SUFFIX
    then Some(name[|BINARY_PREFIX|..|name| - |BINARY_SUFFIX|])
    else None
  }

  /** The board is read back from the name of its binary. */
  lemma BinaryNameRoundTrip(board: string)
    ensures BoardOfBinary(BinaryName(board)) == Some(board)
  {
    var name := BinaryName(board);
    assert name[..|BINARY_PREFIX|] == BINARY_PREFIX;
    assert name[|name| - |BINARY_SUFFIX|..] == BINARY_SUFFIX;
    assert name[|BINARY_PREFIX|..|name| - |BINARY_SUFFIX|] == board;
  }

  /** Every name of the binaries' shape is the binary name of the board it is read as. */
  lemma BoardOfBinaryRoundTrip(name: string)
    requires BoardOfBinary(name).Some?
    ensures BinaryName(BoardOfBinary(name).value) == name
  {
    var board := BoardOfBinary(name).value;
    assert name == name[..|BINARY_PREFIX|] + board + name[|name| - |BINARY_SUFFIX|..];
  }

  /** Different boards never share a binary. */
  lemma BinaryNameInjective(a: string, b: string)
    requires BinaryName(a) == BinaryName(b)
    ensures a == b
  {
    BinaryNameRoundTrip(a);
    BinaryNameRoundTrip(b);
  }

  // ---------------------------------------------------------------------------
  // Menus

  function ConfirmationLabel(board: string): string {
    "Yes, please do it. I'm sure that my hardware is '" + board + "'"
  }

  /** The confirmation menu: "1" cancels, "2" installs for the board named in its label. */
  function ConfirmationMenu(board: string): (m: map<string, string>)
    ensures m.Keys == {"1", "2"}
    ensures m["1"] == CANCEL_LABEL && m["2"] == ConfirmationLabel(board)
  {
    map["1" := CANCEL_LABEL, "2" := ConfirmationLabel(board)]
  }

  /** The label that confirms the installation ends with the board name in quotes. */
  lemma ConfirmationNamesBoard(board: string)
    ensures var caption := ConfirmationMenu(board)["2"];
      |caption| >= |board| + 2 && caption[|caption| - |board| - 2..] == "'" + board + "'"
  {
    var caption := ConfirmationLabel(board);
    var head := "Yes, please do it. I'm sure that my hardware is ";
    assert caption == head + ("'" + board + "'");
    assert caption[|head|..] == "'" + board + "'";
  }

  /** The main menu: "1" installs the binaries `description.txt` describes, and exists only when it was read. */
  function MainMenu(description: Option<string>): (m: map<string, string>)
    ensures "1" in m <==> description.Some?
    ensures description.Some? ==> m["1"] == "Install " + description.value
    ensures "2" in m && m["2"] == LOGIN_LABEL
    ensures m.Keys <= {"1", "2"}
  {
    var login := map["2" := LOGIN_LABEL];
    if description.Some? then login["1" := "Install " + description.value] else login
  }

  /** What the main menu leads to. */
  datatype MainAction = InstallWizard | Login | ShowAgain

  /** One round of the main menu loop: "1" runs the wizard, "2" the login shell, anything else shows the menu again. */
  function MainMenuAction(files: map<string, string>, reply: string): MainAction {
    match MenuChoice(MainMenu(ReadFile(files, UBOOT_DIRECTORY, DESCRIPTION_NAME)), reply)
    case Some("1") => InstallWizard
    case Some("2") => Login
    case _ => ShowAgain
  }

  /** The installation wizard is reachable only when `description.txt` exists. */
  lemma WizardNeedsDescription(files: map<string, string>, reply: string)
    ensures MainMenuAction(files, reply) == InstallWizard <==>
      reply == "1" && JoinPath(UBOOT_DIRECTORY, DESCRIPTION_NAME) in files
    ensures MainMenuAction(files, reply) == Login <==> reply == "2"
  {
    var description := ReadFile(files, UBOOT_DIRECTORY, DESCRIPTION_NAME);
    var menu := MainMenu(description);
    assert reply == "1" ==> ("1" in menu <==> description.Some?);
  }

  // ---------------------------------------------------------------------------
  // The installation wizard

  /** What a dialog asks or says; the wording itself is not modelled. */
  datatype Prompt =
    | CantLoad(cfgfile: string)        // the catalog cannot be read
    | NoMatchingDevice                 // no board in the catalog fits the hardware
    | SelectDevice                     // pick the board
    | ConfirmInstall(board: string, binaryPath: string, bootScriptMissing: bool)

  datatype Screen =
    | MessageBox(title: string, prompt: Prompt)
    | Menu(title: string, prompt: Prompt, items: map<string, string>)

  datatype Outcome =
    | BackToMainMenu
    | Install(commands: seq<string>)   // written to the SD card, then reboot

  /** The dialogs shown, in order, and how the wizard ends. */
  datatype Wizard = Wizard(screens: seq<Screen>, outcome: Outcome)

  /** The two shell commands that write the binary to the SD card and reboot. */
  function InstallCommands(binaryPath: string): seq<string> {
    ["dd if=" + binaryPath + " of=/dev/mmcblk0 bs=1024 seek=8", "sync && reboot"]
  }

  /** The catalog query for the detected hardware: unknown fields accept any board. */
  function HardwareQuery(hw: HardwareInfo): Query {
    Query(hw.socType,
          if hw.dramSize.Some? then Some(hw.dramSize.value as int) else None,
          if hw.dramBusWidth.Some? then Some(hw.dramBusWidth.value as int) else None)
  }

  /**
   * `do_install_uboot`, given the files and the user's two answers: the board
   * menu and then the confirmation menu.
   */
  function InstallUboot(dir: string, hw: HardwareInfo, files: map<string, string>,
                        boardReply: string, confirmReply: string): Wizard
  {
    var cfgfile := JoinPath(dir, CATALOG_NAME);
    AfterLookup(dir, hw.summary, cfgfile, SimilarDevicesIn(files, cfgfile, HardwareQuery(hw)), files, boardReply, confirmReply)
  }

  /** The wizard once the catalog lookup has given `found` (`nil` for a catalog that cannot be read). */
  function AfterLookup(dir: string, title: string, cfgfile: string, found: Option<map<string, string>>,
                       files: map<string, string>, boardReply: string, confirmReply: string): Wizard
  {
    match found
    case None => Wizard([MessageBox(title, CantLoad(cfgfile))], BackToMainMenu)
    case Some(devices) =>
      if |devices| == 0 then Wizard([MessageBox(title, NoMatchingDevice)], BackToMainMenu)
      else
        var boardMenu := Menu(title, SelectDevice, devices);
        match MenuChoice(devices, boardReply)
        case None => Wizard([boardMenu], BackToMainMenu)
        case Some(board) =>
          var binaryPath := JoinPath(dir, BinaryName(board));
          if binaryPath !in files then Wizard([boardMenu], BackToMainMenu)
          else
            var confirm := ConfirmationMenu(board);
            var confirmMenu := Menu(title, ConfirmInstall(board, binaryPath, BOOT_SCRIPT !in files), confirm);
            if MenuChoice(confirm, confirmReply) == Some("2")
            then Wizard([boardMenu, confirmMenu], Install(InstallCommands(binaryPath)))
            else Wizard([boardMenu, confirmMenu], BackToMainMenu)
  }

  lemma AfterLookupMenu(dir: string, title: string, cfgfile: string, devices: map<string, string>,
                        files: map<string, string>, boardReply: string, confirmReply: string)
    requires devices != map[]
    ensures var w := AfterLookup(dir, title, cfgfile, Some(devices), files, boardReply, confirmReply);
      |w.screens| >= 1 && w.screens[0] == Menu(title, SelectDevice, devices)
  {
    NonEmptyHasSize(devices);
  }

  lemma AfterLookupInstall(dir: string, title: string, cfgfile: string, found: Option<map<string, string>>,
                           files: map<string, string>, boardReply: string, confirmReply: string)
    ensures var w := AfterLookup(dir, title, cfgfile, found, files, boardReply, confirmReply);
      && (w.outcome.Install? <==>
           found.Some? && boardReply in found.value && JoinPath(dir, BinaryName(boardReply)) in files && confirmReply == "2")
      && (w.outcome.Install? ==> w.outcome.commands == InstallCommands(JoinPath(dir, BinaryName(boardReply))))
  {
    if found.Some? && boardReply in found.value {
      NonEmptyHasSize(found.value);
    }
  }

  lemma AfterLookupConfirm(dir: string, title: string, cfgfile: string, devices: map<string, string>,
                           files: map<string, string>, boardReply: string, confirmReply: string)
    requires boardReply in devices && JoinPath(dir, BinaryName(boardReply)) in files
    ensures var w := AfterLookup(dir, title, cfgfile, Some(devices), files, boardReply, confirmReply);
      && |w.screens| == 2
      && w.screens[1] == Menu(title, ConfirmInstall(boardReply, JoinPath(dir, BinaryName(boardReply)), BOOT_SCRIPT !in files),
                              ConfirmationMenu(boardReply))
  {
    NonEmptyHasSize(devices);
  }

  /** A catalog that cannot be read ends the wizard with one error message naming it, whatever the answers. */
  lemma MissingCatalogIsReported(dir: string, hw: HardwareInfo, files: map<string, string>, boardReply: string, confirmReply: string)
    requires JoinPath(dir, CATALOG_NAME) !in files
    ensures InstallUboot(dir, hw, files, boardReply, confirmReply)
         == Wizard([MessageBox(hw.summary, CantLoad(JoinPath(dir, CATALOG_NAME)))], BackToMainMenu)
  {
  }

  /** A readable catalog with no fitting board ends the wizard with a different message, whatever the answers. */
  lemma NoFittingBoardIsReported(dir: string, hw: HardwareInfo, files: map<string, string>, boardReply: string, confirmReply: string)
    requires JoinPath(dir, CATALOG_NAME) in files
    requires SimilarDevices(Lines(files[JoinPath(dir, CATALOG_NAME)]), HardwareQuery(hw)) == map[]
    ensures InstallUboot(dir, hw, files, boardReply, confirmReply) == Wizard([MessageBox(hw.summary, NoMatchingDevice)], BackToMainMenu)
  {
  }

  /** Otherwise the first dialog is the board menu, offering exactly the boards that fit. */
  lemma BoardMenuOffersFittingBoards(dir: string, hw: HardwareInfo, files: map<string, string>, boardReply: string, confirmReply: string)
    requires JoinPath(dir, CATALOG_NAME) in files
    requires SimilarDevices(Lines(files[JoinPath(dir, CATALOG_NAME)]), HardwareQuery(hw)) != map[]
    ensures var w := InstallUboot(dir, hw, files, boardReply, confirmReply);
      && |w.screens| >= 1
      && w.screens[0] == Menu(hw.summary, SelectDevice, SimilarDevices(Lines(files[JoinPath(dir, CATALOG_NAME)]), HardwareQuery(hw)))
  {
    var cfgfile := JoinPath(dir, CATALOG_NAME);
    AfterLookupMenu(dir, hw.summary, cfgfile, SimilarDevices(Lines(files[cfgfile]), HardwareQuery(hw)), files, boardReply, confirmReply);
  }

  lemma NonEmptyHasSize(m: map<string, string>)
    requires m != map[]
    ensures |m| != 0
  {
    var k :| k in m;
    assert k in m.Keys;
  }

  /**
   * The wizard writes u-boot exactly when the catalog lists the chosen board
   * for this hardware, that board's binary exists, and the user confirms with
   * "2"; it then runs `dd` with that binary and reboots.
   */
  lemma InstallsOnlyConfirmedBoard(dir: string, hw: HardwareInfo, files: map<string, string>, boardReply: string, confirmReply: string)
    ensures var cfgfile := JoinPath(dir, CATALOG_NAME);
      InstallUboot(dir, hw, files, boardReply, confirmReply).outcome.Install? <==>
        && cfgfile in files
        && boardReply in SimilarDevices(Lines(files[cfgfile]), HardwareQuery(hw))
        && JoinPath(dir, BinaryName(boardReply)) in files
        && confirmReply == "2"
    ensures InstallUboot(dir, hw, files, boardReply, confirmReply).outcome.Install? ==>
      InstallUboot(dir, hw, files, boardReply, confirmReply).outcome.commands
        == InstallCommands(JoinPath(dir, BinaryName(boardReply)))
  {
    var cfgfile := JoinPath(dir, CATALOG_NAME);
    AfterLookupInstall(dir, hw.summary, cfgfile, SimilarDevicesIn(files, cfgfile, HardwareQuery(hw)), files, boardReply, confirmReply);
  }

  /** The board that gets installed is named by a data line of the catalog whose fields fit the hardware. */
  lemma InstalledBoardIsListed(dir: string, hw: HardwareInfo, files: map<string, string>, boardReply: string, confirmReply: string)
    requires InstallUboot(dir, hw, files, boardReply, confirmReply).outcome.Install?
    ensures var lines := Lines(files[JoinPath(dir, CATALOG_NAME)]);
      exists i :: 0 <= i < |lines| && !IsComment(lines[i]) && ParseLine(lines[i]).Some?
        && ParseLine(lines[i]).value.name == boardReply && Accepts(HardwareQuery(hw), ParseLine(lines[i]).value)
  {
    InstallsOnlyConfirmedBoard(dir, hw, files, boardReply, confirmReply);
    MatchedBoards(Lines(files[JoinPath(dir, CATALOG_NAME)]), HardwareQuery(hw), boardReply);
  }

  /**
   * The confirmation dialog is shown once the board's binary is found; it
   * names the board and the binary and says whether the SD card lacks a boot script.
   */
  lemma ConfirmationShown(dir: string, hw: HardwareInfo, files: map<string, string>, boardReply: string, confirmReply: string)
    requires JoinPath(dir, CATALOG_NAME) in files
    requires boardReply in SimilarDevices(Lines(files[JoinPath(dir, CATALOG_NAME)]), HardwareQuery(hw))
    requires JoinPath(dir, BinaryName(boardReply)) in files
    ensures var w := InstallUboot(dir, hw, files, boardReply, confirmReply);
      && |w.screens| == 2
      && w.screens[1] == Menu(hw.summary,
                              ConfirmInstall(boardReply, JoinPath(dir, BinaryName(boardReply)), BOOT_SCRIPT !in files),
                              ConfirmationMenu(boardReply))
  {
    var cfgfile := JoinPath(dir, CATALOG_NAME);
    AfterLookupConfirm(dir, hw.summary, cfgfile, SimilarDevices(Lines(files[cfgfile]), HardwareQuery(hw)), files, boardReply, confirmReply);
  }
}
