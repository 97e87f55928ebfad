/**
 * What a call of `prepare_virtualenv` promises about its effects: which
 * commands run, in which order, what is written where, and what it returns.
 */
module ProvisioningProperties {
  import opened VenvCommands
  import opened Provisioning

  /** The commands a trace runs, in order. */
  function Execs(trace: seq<Effect>): seq<seq<string>>
  {
    if |trace| == 0 then []
    else (if trace[0].Exec? then [trace[0].cmd] else []) + Execs(trace[1..])
  }

  /** The files a trace writes, with their contents, in order. */
  function Writes(trace: seq<Effect>): seq<(string, string)>
  {
    if |trace| == 0 then []
    else (if trace[0].WriteFile? then [(trace[0].path, trace[0].content)] else []) + Writes(trace[1..])
  }

  /** Every effect is one of the writes or one of the commands: a trace holds
      nothing else. */
  lemma {:induction false} EveryEffectIsWriteOrExec(trace: seq<Effect>)
    ensures |Writes(trace)| + |Execs(trace)| == |trace|
  {
    if |trace| > 0 {
      EveryEffectIsWriteOrExec(trace[1..]);
    }
  }

  lemma {:induction false} ExecsAppend(a: seq<Effect>, b: seq<Effect>)
    ensures Execs(a + b) == Execs(a) + Execs(b)
  {
    if |a| == 0 {
      assert a + b == b;
    } else {
      assert (a + b)[0] == a[0];
      assert (a + b)[1..] == a[1..] + b;
      ExecsAppend(a[1..], b);
    }
  }

  lemma {:induction false} WritesAppend(a: seq<Effect>, b: seq<Effect>)
    ensures Writes(a + b) == Writes(a) + Writes(b)
  {
    if |a| == 0 {
      assert a + b == b;
    } else {
      assert (a + b)[0] == a[0];
      assert (a + b)[1..] == a[1..] + b;
      WritesAppend(a[1..], b);
    }
  }

  /** The first two stages run exactly the venv command and write exactly the
      pip.conf asked for, the write first. */
  lemma ConfigureAndCreateEffects(req: Request, sysExecutable: string)
    ensures var created := ConfigureAndCreate(req, sysExecutable);
      && Execs(created) == [RequestVenvCmd(req, sysExecutable)]
      && Writes(created) == (if req.indexUrls.Some?
                             then [(PipConfPath(req.venvDirectory), PipConfContent(req.indexUrls.value))]
                             else [])
  {
    var write: seq<Effect> :=
      if req.indexUrls.Some? then [WriteFile(PipConfPath(req.venvDirectory), PipConfContent(req.indexUrls.value))]
      else [];
    var exec := [Exec(RequestVenvCmd(req, sysExecutable))];
    ExecsAppend(write, exec);
    WritesAppend(write, exec);
  }

  /** The effects of a whole call: those of the first two stages, then the
      install command when one runs. */
  lemma ProvisionEffects(req: Request, sysExecutable: string, exitsZero: seq<string> -> bool)
    ensures var run := Provision(req, sysExecutable, exitsZero);
      var installs := exitsZero(RequestVenvCmd(req, sysExecutable)) && !ConflictingSources(req)
                      && InstallCmd(req).Some?;
      && Writes(run.trace) == Writes(ConfigureAndCreate(req, sysExecutable))
      && Execs(run.trace) == [RequestVenvCmd(req, sysExecutable)]
                             + (if installs then [InstallCmd(req).value] else [])
  {
    var created := ConfigureAndCreate(req, sysExecutable);
    ConfigureAndCreateEffects(req, sysExecutable);
    var run := Provision(req, sysExecutable, exitsZero);
    if run.trace != created {
      var pipCmd := InstallCmd(req).value;
      assert run.trace == created + [Exec(pipCmd)];
      ExecsAppend(created, [Exec(pipCmd)]);
      WritesAppend(created, [Exec(pipCmd)]);
    }
  }

  /** pip.conf is written exactly when `index_urls` is not `None` (so `[]`
      writes a no-index file), to `<venv>/pip.conf`, before the venv command. */
  lemma IndexConfigWrittenIffUrlsGiven(req: Request, sysExecutable: string,
                                       exitsZero: seq<string> -> bool)
    ensures var run := Provision(req, sysExecutable, exitsZero);
      && (|Writes(run.trace)| > 0 <==> req.indexUrls.Some?)
      && (req.indexUrls.Some? ==>
            && Writes(run.trace) == [(req.venvDirectory + "/pip.conf", PipConfContent(req.indexUrls.value))]
            && run.trace[0] == WriteFile(req.venvDirectory + "/pip.conf", PipConfContent(req.indexUrls.value))
            && run.trace[1] == Exec(RequestVenvCmd(req, sysExecutable)))
      && (req.indexUrls.None? ==> run.trace[0] == Exec(RequestVenvCmd(req, sysExecutable)))
  {
    ProvisionEffects(req, sysExecutable, exitsZero);
    ConfigureAndCreateEffects(req, sysExecutable);
    var run := Provision(req, sysExecutable, exitsZero);
    var created := ConfigureAndCreate(req, sysExecutable);
    assert run.trace[..|created|] == created;
  }

  /** The venv command always runs, first; at most one further command runs. */
  lemma VenvCreatedFirstAndAtMostOneInstall(req: Request, sysExecutable: string,
                                            exitsZero: seq<string> -> bool)
    ensures var cmds := Execs(Provision(req, sysExecutable, exitsZero).trace);
      && 1 <= |cmds| <= 2
      && cmds[0] == VenvCmd(req.venvDirectory, req.pythonBin, req.systemSitePackages, sysExecutable)
  {
    ProvisionEffects(req, sysExecutable, exitsZero);
  }

  /** Naming both requirement sources is rejected with ValueError once the
      environment exists, before any install command is built or run. */
  lemma ConflictRejectedAfterCreate(req: Request, sysExecutable: string,
                                    exitsZero: seq<string> -> bool)
    requires req.requirements.Some? && req.requirementsFilePath.Some?
    requires exitsZero(RequestVenvCmd(req, sysExecutable))
    ensures var run := Provision(req, sysExecutable, exitsZero);
      && run.outcome == ValueError(ConflictMessage)
      && Execs(run.trace) == [RequestVenvCmd(req, sysExecutable)]
      && run.trace[|run.trace| - 1] == Exec(RequestVenvCmd(req, sysExecutable))
  {
    ProvisionEffects(req, sysExecutable, exitsZero);
  }

  /** An install command runs exactly when the environment was created, the
      sources do not conflict, and there is a non-empty list or a non-empty
      file path; it is the file form for a file and the list form for a list,
      with the installer and the options (`None` read as none) forwarded. */
  lemma InstallRunsIffSomethingToInstall(req: Request, sysExecutable: string,
                                         exitsZero: seq<string> -> bool)
    ensures var cmds := Execs(Provision(req, sysExecutable, exitsZero).trace);
      var hasList := req.requirements.Some? && |req.requirements.value| > 0;
      var hasFile := req.requirementsFilePath.Some? && |req.requirementsFilePath.value| > 0;
      && (|cmds| == 2 <==> exitsZero(RequestVenvCmd(req, sysExecutable)) && !ConflictingSources(req)
                           && (hasList || hasFile))
      && (|cmds| == 2 && hasList ==>
            cmds[1] == InstallCmdFromList(req.venvDirectory, req.requirements.value,
                                          InstallOptions(req), req.installer))
      && (|cmds| == 2 && hasFile ==>
            cmds[1] == InstallCmdFromFile(req.venvDirectory, req.requirementsFilePath.value,
                                          InstallOptions(req), req.installer))
  {
    ProvisionEffects(req, sysExecutable, exitsZero);
  }

  /** An empty requirements list and an empty file path install nothing: the
      venv command is the only one. */
  lemma EmptySourcesInstallNothing(req: Request, sysExecutable: string,
                                   exitsZero: seq<string> -> bool)
    requires req.requirements == None || req.requirements == Some([])
    requires req.requirementsFilePath == None || req.requirementsFilePath == Some("")
    ensures Execs(Provision(req, sysExecutable, exitsZero).trace) == [RequestVenvCmd(req, sysExecutable)]
  {
    ProvisionEffects(req, sysExecutable, exitsZero);
  }

  /** `pip_install_options=None` behaves exactly as `[]`. */
  lemma NoOptionsIsEmptyOptions(req: Request, sysExecutable: string, exitsZero: seq<string> -> bool)
    requires req.pipInstallOptions == None
    ensures Provision(req, sysExecutable, exitsZero)
            == Provision(req.(pipInstallOptions := Some([])), sysExecutable, exitsZero)
  {
  }

  /** A call returns exactly when no command failed and the sources do not
      conflict, and what it returns is always `<venv>/bin/python`, whatever the
      interpreter or the installer. */
  lemma ReturnsVenvPython(req: Request, sysExecutable: string, exitsZero: seq<string> -> bool)
    ensures var run := Provision(req, sysExecutable, exitsZero);
      && (run.outcome.Returned? <==>
            !ConflictingSources(req) && forall c :: c in Execs(run.trace) ==> exitsZero(c))
      && (run.outcome.Returned? ==> run.outcome.pythonPath == req.venvDirectory + "/bin/python")
  {
    ProvisionEffects(req, sysExecutable, exitsZero);
  }

  /** A failing command ends the call: it is the last effect, and every
      command before it succeeded; nothing is undone. */
  lemma FailedCommandIsLast(req: Request, sysExecutable: string, exitsZero: seq<string> -> bool)
    ensures var run := Provision(req, sysExecutable, exitsZero);
      run.outcome.SubprocessFailed? ==>
        var cmds := Execs(run.trace);
        && !exitsZero(run.outcome.cmd)
        && run.trace[|run.trace| - 1] == Exec(run.outcome.cmd)
        && |cmds| >= 1
        && cmds[|cmds| - 1] == run.outcome.cmd
        && forall i :: 0 <= i < |cmds| - 1 ==> exitsZero(cmds[i])
  {
    ProvisionEffects(req, sysExecutable, exitsZero);
  }

  /** How a call ends tells why: it never raises NameError; it raises ValueError
      exactly when the environment was created and both sources were given; it
      fails on a subprocess exactly when a command it ran exited non-zero; and a
      failing venv command always ends it, whatever sources were given. */
  lemma OutcomeClassifiesFailure(req: Request, sysExecutable: string,
                                 exitsZero: seq<string> -> bool)
    ensures var run := Provision(req, sysExecutable, exitsZero);
      var venvCmd := RequestVenvCmd(req, sysExecutable);
      && !run.outcome.NameError?
      && (run.outcome.ValueError? <==> exitsZero(venvCmd) && ConflictingSources(req))
      && (run.outcome.SubprocessFailed? <==> exists c :: c in Execs(run.trace) && !exitsZero(c))
      && (!exitsZero(venvCmd) ==> run.outcome == SubprocessFailed(venvCmd))
  {
    ProvisionEffects(req, sysExecutable, exitsZero);
    var run := Provision(req, sysExecutable, exitsZero);
    var venvCmd := RequestVenvCmd(req, sysExecutable);
    if !exitsZero(venvCmd) {
      assert venvCmd in Execs(run.trace);
    } else if InstallCmd(req).Some? && !ConflictingSources(req) && !exitsZero(InstallCmd(req).value) {
      assert InstallCmd(req).value in Execs(run.trace);
    }
  }

  /** Directory "/tmp/x", every argument at its default except requirements
      ["a", "b"], every command succeeding: the venv command, then the pip
      install of a and b, and the interpreter path is returned. */
  lemma DefaultsWithTwoRequirements(sysExecutable: string)
    ensures var req := DefaultRequest("/tmp/x", None, false).(requirements := Some(["a", "b"]));
      var run := Provision(req, sysExecutable, _ => true);
      && run.trace == [Exec([sysExecutable, "-m", "venv", "/tmp/x"]),
                       Exec(["/tmp/x/bin/pip", "install", "a", "b"])]
      && run.outcome == Returned("/tmp/x/bin/python")
  {
    var req := DefaultRequest("/tmp/x", None, false).(requirements := Some(["a", "b"]));
    assert "/tmp/x" + "/bin/pip" == "/tmp/x/bin/pip";
    assert "/tmp/x" + "/bin/python" == "/tmp/x/bin/python";
    assert InstallOptions(req) == [];
    assert InstallerPrefix("/tmp/x", "pip") == ["/tmp/x/bin/pip", "install"];
    assert InstallCmdFromList("/tmp/x", ["a", "b"], [], "pip") == ["/tmp/x/bin/pip", "install"] + [] + ["a", "b"];
    assert ["/tmp/x/bin/pip", "install"] + [] + ["a", "b"] == ["/tmp/x/bin/pip", "install", "a", "b"];
    assert req.requirements == Some(["a", "b"]) && req.requirementsFilePath == None;
    assert InstallCmd(req) == Some(["/tmp/x/bin/pip", "install", "a", "b"]);
    assert RequestVenvCmd(req, sysExecutable) == [sysExecutable, "-m", "venv", "/tmp/x"];
  }

  // ---------------------------------------------------------------------------
  // The install step as written

  /** As written, no call installs anything: the venv command is the only one
      run, and where the intended function installs, the written one raises
      NameError instead. */
  lemma AsWrittenNeverInstalls(req: Request, sysExecutable: string, exitsZero: seq<string> -> bool)
    ensures var written := ProvisionAsWritten(req, sysExecutable, exitsZero);
      var intended := Provision(req, sysExecutable, exitsZero);
      && Execs(written.trace) == [RequestVenvCmd(req, sysExecutable)]
      && (|Execs(intended.trace)| == 2 ==> written.outcome.NameError?)
      && (|Execs(intended.trace)| == 1 ==> written == intended)
  {
    ConfigureAndCreateEffects(req, sysExecutable);
    ProvisionEffects(req, sysExecutable, exitsZero);
  }

  /** Directory "/tmp/x", every argument at its default except requirements
      ["a", "b"], every command succeeding, run through the code as written: it
      creates the environment and then raises NameError instead of installing a and b. */
  lemma AsWrittenTwoRequirementsRaises(sysExecutable: string)
    ensures var req := DefaultRequest("/tmp/x", None, false).(requirements := Some(["a", "b"]));
      var run := ProvisionAsWritten(req, sysExecutable, _ => true);
      && run.trace == [Exec([sysExecutable, "-m", "venv", "/tmp/x"])]
      && run.outcome == NameError("_generate_pip_install_cmd_from_list")
  {
    var req := DefaultRequest("/tmp/x", None, false).(requirements := Some(["a", "b"]));
    assert RequestVenvCmd(req, sysExecutable) == [sysExecutable, "-m", "venv", "/tmp/x"];
  }
}
