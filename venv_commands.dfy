/**
 * The command builders of python_virtualenv.py: the argument vector that
 * creates a virtual environment, the two argument vectors that install
 * packages into it, and the text of the pip.conf that points it at package
 * indexes. Commands are token lists, never one shell string.
 */
module VenvCommands {
  import opened Strings

  /** A Python value that may be `None`. */
  datatype Option<+T> = None | Some(value: T)

  const SystemSitePackagesFlag: string := "--system-site-packages"

  /** `python_bin`, or the running interpreter (`sys.executable`) when it is `None`. */
  function ResolvePythonBin(pythonBin: Option<string>, sysExecutable: string): string
  {
    match pythonBin
    case None => sysExecutable
    case Some(p) => p
  }

  // ---------------------------------------------------------------------------
  // Creating the environment

  /** The venv command `_generate_venv_cmd` produces, as one value. */
  function VenvCmd(tmpDir: string, pythonBin: Option<string>, systemSitePackages: bool,
                   sysExecutable: string): seq<string>
  {
    [ResolvePythonBin(pythonBin, sysExecutable), "-m", "venv", tmpDir]
    + (if systemSitePackages then [SystemSitePackagesFlag] else [])
  }

  /** `_generate_venv_cmd`: builds the four fixed tokens, then appends the
      system-site-packages flag when it is asked for. */
  method GenerateVenvCmd(tmpDir: string, pythonBin: Option<string>, systemSitePackages: bool,
                         sysExecutable: string) returns (cmd: seq<string>)
    ensures cmd == VenvCmd(tmpDir, pythonBin, systemSitePackages, sysExecutable)
    ensures |cmd| == (if systemSitePackages then 5 else 4)
    ensures cmd[..4] == [ResolvePythonBin(pythonBin, sysExecutable), "-m", "venv", tmpDir]
    ensures systemSitePackages ==> cmd[4] == SystemSitePackagesFlag
  {
    var python := sysExecutable;
    if pythonBin.Some? {
      python := pythonBin.value;
    }
    cmd := [python, "-m", "venv", tmpDir];
    if systemSitePackages {
      cmd := cmd + [SystemSitePackagesFlag];
    }
  }

  /** Reads a venv command back into its interpreter, directory and flag;
      `None` for anything that is not a venv command. */
  function ParseVenvCmd(cmd: seq<string>): Option<(string, string, bool)>
  {
    if |cmd| == 4 && cmd[1] == "-m" && cmd[2] == "venv" then
      Some((cmd[0], cmd[3], false))
    else if |cmd| == 5 && cmd[1] == "-m" && cmd[2] == "venv" && cmd[4] == SystemSitePackagesFlag then
      Some((cmd[0], cmd[3], true))
    else
      None
  }

  /** The venv command determines the interpreter, the directory and the flag. */
  lemma VenvCmdRoundTrip(tmpDir: string, pythonBin: Option<string>, systemSitePackages: bool,
                         sysExecutable: string)
    ensures ParseVenvCmd(VenvCmd(tmpDir, pythonBin, systemSitePackages, sysExecutable))
            == Some((ResolvePythonBin(pythonBin, sysExecutable), tmpDir, systemSitePackages))
  {
  }

  /** A missing interpreter means exactly the running one. */
  lemma VenvCmdDefaultsToRunningInterpreter(tmpDir: string, systemSitePackages: bool,
                                            sysExecutable: string)
    ensures VenvCmd(tmpDir, None, systemSitePackages, sysExecutable)
            == VenvCmd(tmpDir, Some(sysExecutable), systemSitePackages, sysExecutable)
  {
  }

  // ---------------------------------------------------------------------------
  // Installing packages

  /** The installer's executable inside the environment and the words that
      start an install: `uv pip install` for "uv", `pip install` for any other
      installer string. */
  function InstallerPrefix(venvDirectory: string, installer: string): seq<string>
  {
    if installer == "uv" then [venvDirectory + "/bin/uv", "pip", "install"]
    else [venvDirectory + "/bin/pip", "install"]
  }

  /** `_generate_install_cmd_from_list`. */
  function InstallCmdFromList(venvDirectory: string, requirements: seq<string>,
                              installOptions: seq<string>, installer: string): (cmd: seq<string>)
    ensures var n := |InstallerPrefix(venvDirectory, installer)|;
      && |cmd| == n + |installOptions| + |requirements|
      && cmd[..n] == InstallerPrefix(venvDirectory, installer)
      && cmd[n..n + |installOptions|] == installOptions
      && cmd[n + |installOptions|..] == requirements
  {
    InstallerPrefix(venvDirectory, installer) + installOptions + requirements
  }

  /** `_generate_install_cmd_from_file`. */
  function InstallCmdFromFile(venvDirectory: string, requirementsFilePath: string,
                              installOptions: seq<string>, installer: string): (cmd: seq<string>)
    ensures var n := |InstallerPrefix(venvDirectory, installer)|;
      && |cmd| == n + |installOptions| + 2
      && cmd[..n] == InstallerPrefix(venvDirectory, installer)
      && cmd[n..n + |installOptions|] == installOptions
      && cmd[|cmd| - 2..] == ["-r", requirementsFilePath]
  {
    InstallerPrefix(venvDirectory, installer) + installOptions + ["-r", requirementsFilePath]
  }

  /** The first token names uv exactly when the installer is "uv", and pip otherwise;
      uv is driven through its pip interface. */
  lemma InstallerSelectsExecutable(venvDirectory: string, installer: string)
    ensures var p := InstallerPrefix(venvDirectory, installer);
      && (p[0] == venvDirectory + "/bin/uv" <==> installer == "uv")
      && (p[0] == venvDirectory + "/bin/pip" <==> installer != "uv")
      && (installer == "uv" ==> p[1..] == ["pip", "install"])
      && (installer != "uv" ==> p[1..] == ["install"])
  {
  }

  /** Every installer string other than "uv" gives the same commands as "pip". */
  lemma UnknownInstallerFallsBackToPip(venvDirectory: string, requirements: seq<string>,
                                       requirementsFilePath: string, installOptions: seq<string>,
                                       installer: string)
    requires installer != "uv"
    ensures InstallCmdFromList(venvDirectory, requirements, installOptions, installer)
            == InstallCmdFromList(venvDirectory, requirements, installOptions, "pip")
    ensures InstallCmdFromFile(venvDirectory, requirementsFilePath, installOptions, installer)
            == InstallCmdFromFile(venvDirectory, requirementsFilePath, installOptions, "pip")
  {
  }

  /** Installing from a file is installing the two tokens `-r <file>` as requirements. */
  lemma FileFormIsListFormOfDashR(venvDirectory: string, requirementsFilePath: string,
                                  installOptions: seq<string>, installer: string)
    ensures InstallCmdFromFile(venvDirectory, requirementsFilePath, installOptions, installer)
            == InstallCmdFromList(venvDirectory, ["-r", requirementsFilePath], installOptions, installer)
  {
  }

  // ---------------------------------------------------------------------------
  // pip.conf

  const PipConfHeader: string := "[global]\n"
  const NoIndexOption: string := "no-index = true"
  const IndexUrlKey: string := "index-url = "
  const ExtraIndexUrlKey: string := "\nextra-index-url = "

  /** The text `_generate_pip_conf` writes: the first URL is the index, the
      others, space separated and in order, the extra indexes; no URL at all
      switches the index off. */
  function PipConfContent(indexUrls: seq<string>): (content: string)
    ensures |indexUrls| == 0 ==> content == "[global]\nno-index = true"
    ensures |indexUrls| == 1 ==> content == "[global]\nindex-url = " + indexUrls[0]
    ensures |indexUrls| > 1 ==>
      content == "[global]\nindex-url = " + indexUrls[0]
                 + "\nextra-index-url = " + Join(indexUrls[1..], " ")
  {
    if |indexUrls| == 0 then PipConfHeader + NoIndexOption
    else if |indexUrls| == 1 then PipConfHeader + IndexUrlKey + indexUrls[0]
    else PipConfHeader + IndexUrlKey + indexUrls[0] + ExtraIndexUrlKey + Join(indexUrls[1..], " ")
  }

  /** A URL that survives the space-separated, line-oriented format. */
  predicate PlainUrl(u: string)
  {
    ' ' !in u && '\n' !in u
  }

  /** Reads the index URLs back out of a pip.conf in the format above. */
  function ParsePipConf(content: string): Option<seq<string>>
  {
    if PipConfHeader <= content then ParseOptions(content[|PipConfHeader|..]) else None
  }

  /** The part after the `[global]` line. */
  function ParseOptions(body: string): Option<seq<string>>
  {
    if body == NoIndexOption then Some([])
    else if IndexUrlKey <= body then ParseIndexUrls(body[|IndexUrlKey|..])
    else None
  }

  /** The part after `index-url = `: the first URL up to the line end, then
      optionally the extra-index line. */
  function ParseIndexUrls(rest: string): Option<seq<string>>
  {
    var eol := IndexOf(rest, '\n');
    if eol == |rest| then Some([rest])
    else if ExtraIndexUrlKey <= rest[eol..] then
      Some([rest[..eol]] + Split(rest[eol + |ExtraIndexUrlKey|..], ' '))
    else None
  }

  lemma ParseAfterHeader(body: string)
    ensures ParsePipConf(PipConfHeader + body) == ParseOptions(body)
  {
  }

  lemma ParseAfterIndexUrlKey(rest: string)
    ensures ParseOptions(IndexUrlKey + rest) == ParseIndexUrls(rest)
  {
    var body := IndexUrlKey + rest;
    assert body[0] != NoIndexOption[0];
    assert body[..|IndexUrlKey|] == IndexUrlKey;
    assert body[|IndexUrlKey|..] == rest;
  }

  lemma ParseExtraIndexUrls(first: string, joined: string)
    requires '\n' !in first
    ensures ParseIndexUrls(first + ExtraIndexUrlKey + joined) == Some([first] + Split(joined, ' '))
  {
    var rest := first + ExtraIndexUrlKey + joined;
    assert rest == first + (ExtraIndexUrlKey + joined);
    IndexOfAfterPrefix(first, ExtraIndexUrlKey + joined, '\n');
    assert rest[|first|..] == ExtraIndexUrlKey + joined;
    assert (ExtraIndexUrlKey + joined)[..|ExtraIndexUrlKey|] == ExtraIndexUrlKey;
    assert rest[|first| + |ExtraIndexUrlKey|..] == joined;
    assert rest[..|first|] == first;
  }

  lemma RoundTripNoIndex()
    ensures ParsePipConf(PipConfContent([])) == Some([])
  {
  }

  lemma RoundTripOneIndex(first: string)
    requires PlainUrl(first)
    ensures ParsePipConf(PipConfContent([first])) == Some([first])
  {
    assert PipConfContent([first]) == PipConfHeader + (IndexUrlKey + first);
    ParseAfterHeader(IndexUrlKey + first);
    ParseAfterIndexUrlKey(first);
  }

  lemma RoundTripExtraIndexes(first: string, others: seq<string>)
    requires PlainUrl(first) && |others| > 0
    requires forall i :: 0 <= i < |others| ==> PlainUrl(others[i])
    ensures ParsePipConf(PipConfContent([first] + others)) == Some([first] + others)
  {
    var rest := first + ExtraIndexUrlKey + Join(others, " ");
    assert ([first] + others)[1..] == others;
    assert PipConfContent([first] + others) == PipConfHeader + (IndexUrlKey + rest);
    ParseAfterHeader(IndexUrlKey + rest);
    ParseAfterIndexUrlKey(rest);
    ParseExtraIndexUrls(first, Join(others, " "));
    SplitJoin(others, ' ');
  }

  /** pip.conf loses no URL and no order: reading it back gives the list it was written from. */
  lemma PipConfRoundTrip(indexUrls: seq<string>)
    requires forall i :: 0 <= i < |indexUrls| ==> PlainUrl(indexUrls[i])
    ensures ParsePipConf(PipConfContent(indexUrls)) == Some(indexUrls)
  {
    if |indexUrls| == 0 {
      RoundTripNoIndex();
    } else if |indexUrls| == 1 {
      assert indexUrls == [indexUrls[0]];
      RoundTripOneIndex(indexUrls[0]);
    } else {
      var others := indexUrls[1..];
      assert forall i :: 0 <= i < |others| ==> PlainUrl(others[i]);
      assert [indexUrls[0]] + others == indexUrls;
      RoundTripExtraIndexes(indexUrls[0], others);
    }
  }

  /** An empty list ("no index") and a non-empty one never give the same file. */
  lemma NoIndexIsDistinguishable(indexUrls: seq<string>)
    requires |indexUrls| > 0
    ensures PipConfContent(indexUrls) != PipConfContent([])
  {
    assert PipConfContent(indexUrls)[|PipConfHeader|] == 'i';
    assert PipConfContent([])[|PipConfHeader|] == 'n';
  }
}
