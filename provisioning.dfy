/**
 * `prepare_virtualenv`: writes the index configuration, creates the virtual
 * environment, rejects a request that names two requirement sources, installs
 * what was asked for and returns the environment's interpreter.
 *
 * What the function does to the world is recorded as a trace of effects: a
 * file write or a subprocess run. Whether a subprocess exits with status zero
 * is not something this code decides, so it is a parameter, `exitsZero`,
 * giving the executor's verdict on each command.
 */
module Provisioning {
  import opened VenvCommands

  /** One thing `prepare_virtualenv` does outside its own variables. */
  datatype Effect =
    | WriteFile(path: string, content: string)
    | Exec(cmd: seq<string>)

  /** The keyword arguments of `prepare_virtualenv`; `None` is Python's `None`. */
  datatype Request = Request(
    venvDirectory: string,
    pythonBin: Option<string>,
    systemSitePackages: bool,
    requirements: Option<seq<string>>,
    requirementsFilePath: Option<string>,
    pipInstallOptions: Option<seq<string>>,
    indexUrls: Option<seq<string>>,
    installer: string)

  /** A call with every optional argument left at its default. */
  function DefaultRequest(venvDirectory: string, pythonBin: Option<string>,
                          systemSitePackages: bool): (req: Request)
    ensures req.venvDirectory == venvDirectory && req.pythonBin == pythonBin
    ensures req.systemSitePackages == systemSitePackages
    ensures req.requirements.None? && req.requirementsFilePath.None?
    ensures req.pipInstallOptions.None? && req.indexUrls.None? && req.installer == "pip"
  {
    Request(venvDirectory, pythonBin, systemSitePackages, None, None, None, None, "pip")
  }

  /** How a call ends: it returns the interpreter path, or raises. */
  datatype Outcome =
    | Returned(pythonPath: string)
    | ValueError(message: string)          // both requirement sources were given
    | SubprocessFailed(cmd: seq<string>)   // a command exited with a non-zero status
    | NameError(name: string)              // only in the as-written model below

  /** The effects of one call, in order, and how it ended. */
  datatype Run = Run(trace: seq<Effect>, outcome: Outcome)

  const ConflictMessage: string :=
    "Either requirements OR requirements_file_path has to be passed, but not both"

  function PipConfPath(venvDirectory: string): string { venvDirectory + "/pip.conf" }

  function VenvPython(venvDirectory: string): string { venvDirectory + "/bin/python" }

  /** The request names a requirements list and a requirements file, empty or not. */
  predicate ConflictingSources(req: Request)
  {
    req.requirements.Some? && req.requirementsFilePath.Some?
  }

  /** `pip_install_options`, with `None` read as no options. */
  function InstallOptions(req: Request): seq<string>
  {
    match req.pipInstallOptions
    case None => []
    case Some(options) => options
  }

  /** The install command a request calls for, if any: a non-empty
      requirements file, else a non-empty requirements list. */
  function InstallCmd(req: Request): Option<seq<string>>
  {
    if req.requirementsFilePath.Some? && |req.requirementsFilePath.value| > 0 then
      Some(InstallCmdFromFile(req.venvDirectory, req.requirementsFilePath.value,
                              InstallOptions(req), req.installer))
    else if req.requirements.Some? && |req.requirements.value| > 0 then
      Some(InstallCmdFromList(req.venvDirectory, req.requirements.value,
                              InstallOptions(req), req.installer))
    else
      None
  }

  function RequestVenvCmd(req: Request, sysExecutable: string): seq<string>
  {
    VenvCmd(req.venvDirectory, req.pythonBin, req.systemSitePackages, sysExecutable)
  }

  /** The first two stages, which every call goes through: the pip.conf write
      when index URLs were given (even an empty list), then the venv command. */
  function ConfigureAndCreate(req: Request, sysExecutable: string): seq<Effect>
  {
    (if req.indexUrls.Some? then [WriteFile(PipConfPath(req.venvDirectory), PipConfContent(req.indexUrls.value))]
     else [])
    + [Exec(RequestVenvCmd(req, sysExecutable))]
  }

  /** What `prepare_virtualenv` does, as its authors evidently meant it: after
      creating the environment it rejects two requirement sources, and otherwise
      runs at most one install command built by the defined builders. */
  function Provision(req: Request, sysExecutable: string, exitsZero: seq<string> -> bool): Run
  {
    var created := ConfigureAndCreate(req, sysExecutable);
    var venvCmd := RequestVenvCmd(req, sysExecutable);
    if !exitsZero(venvCmd) then Run(created, SubprocessFailed(venvCmd))
    else if ConflictingSources(req) then Run(created, ValueError(ConflictMessage))
    else match InstallCmd(req)
      case None => Run(created, Returned(VenvPython(req.venvDirectory)))
      case Some(pipCmd) =>
        Run(created + [Exec(pipCmd)],
            if exitsZero(pipCmd) then Returned(VenvPython(req.venvDirectory))
            else SubprocessFailed(pipCmd))
  }

  /** What `prepare_virtualenv` does as written. Lines 127 and 129 call
      `_generate_pip_install_cmd_from_list` and `_generate_pip_install_cmd_from_file`,
      names the module never defines (the builders are `_generate_install_cmd_from_list`
      and `_generate_install_cmd_from_file`), and pass three arguments where the builders
      take four (`installer` is dropped). Looking the name up raises NameError, after the
      environment has been created and before anything is installed. */
  function ProvisionAsWritten(req: Request, sysExecutable: string,
                              exitsZero: seq<string> -> bool): Run
  {
    var created := ConfigureAndCreate(req, sysExecutable);
    var venvCmd := RequestVenvCmd(req, sysExecutable);
    if !exitsZero(venvCmd) then Run(created, SubprocessFailed(venvCmd))
    else if ConflictingSources(req) then Run(created, ValueError(ConflictMessage))
    else if req.requirements.Some? && |req.requirements.value| > 0 then
      Run(created, NameError("_generate_pip_install_cmd_from_list"))
    else if req.requirementsFilePath.Some? && |req.requirementsFilePath.value| > 0 then
      Run(created, NameError("_generate_pip_install_cmd_from_file"))
    else Run(created, Returned(VenvPython(req.venvDirectory)))
  }

  /** The process that calls `prepare_virtualenv`: the interpreter it runs on
      (`sys.executable`), the executor's verdict on each command, and the log
      of effects so far. */
  class Provisioner {
    const sysExecutable: string
    const exitsZero: seq<string> -> bool
    var effects: seq<Effect>

    constructor (sysExecutable: string, exitsZero: seq<string> -> bool)
      ensures this.sysExecutable == sysExecutable && this.exitsZero == exitsZero
      ensures effects == []
    {
      this.sysExecutable := sysExecutable;
      this.exitsZero := exitsZero;
      effects := [];
    }

    /** `execute_in_subprocess`: runs the command; `ok` is false when it
        exits with a non-zero status (where the source raises). */
    method ExecuteInSubprocess(cmd: seq<string>) returns (ok: bool)
      modifies this
      ensures effects == old(effects) + [Exec(cmd)]
      ensures ok == exitsZero(cmd)
    {
      effects := effects + [Exec(cmd)];
      ok := exitsZero(cmd);
    }

    /** `_generate_pip_conf`: builds the options line by line and writes the file. */
    method GeneratePipConf(confFile: string, indexUrls: seq<string>)
      modifies this
      ensures effects == old(effects) + [WriteFile(confFile, PipConfContent(indexUrls))]
    {
      var options: string;
      if |indexUrls| > 0 {
        options := IndexUrlKey + indexUrls[0];
        if |indexUrls| > 1 {
          options := options + ExtraIndexUrlKey + Strings.Join(indexUrls[1..], " ");
        }
        assert PipConfHeader + options == PipConfContent(indexUrls);
      } else {
        options := NoIndexOption;
      }
      effects := effects + [WriteFile(confFile, PipConfHeader + options)];
    }

    /** `prepare_virtualenv`, with the install step calling the defined
        builders and forwarding `installer` (see ProvisionAsWritten). */
    method PrepareVirtualenv(req: Request) returns (outcome: Outcome)
      modifies this
      ensures effects == old(effects) + Provision(req, sysExecutable, exitsZero).trace
      ensures outcome == Provision(req, sysExecutable, exitsZero).outcome
    {
      var pipInstallOptions := [];
      if req.pipInstallOptions.Some? {
        pipInstallOptions := req.pipInstallOptions.value;
      }

      if req.indexUrls.Some? {
        GeneratePipConf(PipConfPath(req.venvDirectory), req.indexUrls.value);
      }

      var venvCmd := GenerateVenvCmd(req.venvDirectory, req.pythonBin, req.systemSitePackages,
                                     sysExecutable);
      var ok := ExecuteInSubprocess(venvCmd);
      assert effects == old(effects) + ConfigureAndCreate(req, sysExecutable);
      if !ok {
        return SubprocessFailed(venvCmd);
      }

      if req.requirements.Some? && req.requirementsFilePath.Some? {
        return ValueError(ConflictMessage);
      }

      var pipCmd: Option<seq<string>> := None;
      if req.requirements.Some? && |req.requirements.value| != 0 {
        pipCmd := Some(InstallCmdFromList(req.venvDirectory, req.requirements.value,
                                          pipInstallOptions, req.installer));
      }
      if req.requirementsFilePath.Some? && |req.requirementsFilePath.value| > 0 {
        pipCmd := Some(InstallCmdFromFile(req.venvDirectory, req.requirementsFilePath.value,
                                          pipInstallOptions, req.installer));
      }
      assert pipCmd == InstallCmd(req);

      if pipCmd.Some? {
        ok := ExecuteInSubprocess(pipCmd.value);
        if !ok {
          return SubprocessFailed(pipCmd.value);
        }
      }

      return Returned(VenvPython(req.venvDirectory));
    }
  }
}
