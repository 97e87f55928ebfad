# Virtual-environment provisioning (Airflow standard provider)

A Dafny model of `python_virtualenv.py`, the module Airflow's standard provider uses to
provision the virtual environments that Python-virtualenv tasks run in. It covers:

- the command builders, `_generate_venv_cmd`, `_generate_install_cmd_from_list` and
  `_generate_install_cmd_from_file`. Each one returns an argument vector (`seq<string>`) with a
  fixed token order.
- `_generate_pip_conf`, which writes the text of the `pip.conf` file.
- `prepare_virtualenv`. It writes the index configuration, creates the environment, rejects a
  call that names two requirement sources, installs at most one batch of packages and returns
  the environment's interpreter.

Files:

- `strings.dfy` (module `Strings`) holds `Join`, Python's `str.join`, and `Split`, the partner
  used to read text back.
- `venv_commands.dfy` (module `VenvCommands`) holds the builders and the pip.conf text. Each one
  has a partner: a parser that reads the output back, or a lemma that relates two builders.
- `provisioning.dfy` (module `Provisioning`) holds the call's arguments as a `Request` record and
  `Provision`, the spec function for one call. It gives the ordered effects (`WriteFile`, `Exec`)
  and how the call ends. It also holds the `Provisioner` class. That class's `effects` log is
  extended by three methods. `ExecuteInSubprocess` appends one `Exec(cmd)`. `GeneratePipConf`
  appends one write of `PipConfContent`. `PrepareVirtualenv` appends exactly the effects of
  `Provision` and ends as `Provision` ends.
- `provisioning_properties.dfy` (module `ProvisioningProperties`) holds the lemmas about
  `Provision`. They cover what is written and where, which commands run and in what order,
  rejection, return value and abort on failure.

Inputs outside the code are parameters:

- `sys.executable` is the `sysExecutable` string.
- Whether a subprocess exits with status zero is the function `exitsZero`, the executor's
  verdict on each command.
- `None` is `Option.None`, so an absent list and an empty list are different values.

Points where the code may surprise:

- The code checks for conflicting requirement sources after it has created the environment
  (python_virtualenv.py:119-123), not before any process is spawned.
- `installer` can be any string. Only `"uv"` is special; every other value builds the pip
  command (:53-56, :70-73).
- The returned path is always `<venv>/bin/python` (:136).
- If both sources were non-empty, the file command would replace the list command (:126-131).
  That case cannot happen after the conflict check. `InstallCmd` states the same choice as
  "file first".

The install step in the source cannot run as written; see "## Findings". The class method
`Provisioning.Provisioner.PrepareVirtualenv` and `Provisioning.Provision` model the intended
behaviour: the defined builders are called and `installer` is forwarded. The as-written
behaviour is `Provisioning.ProvisionAsWritten`. The annotation `List` on lines 43 and 60 is
never imported. It is harmless only because `from __future__ import annotations` (line 20)
keeps annotations from being evaluated, so nothing is modelled for it.

## Model

| member | source | states |
|---|---|---|
| `VenvCommands.GenerateVenvCmd` | providers/src/airflow/providers/standard/utils/python_virtualenv.py:32-39 | the command is `[python, "-m", "venv", dir]`, where python is `python_bin`, or `sys.executable` when that is None; `--system-site-packages` is appended as a fifth token exactly when asked for |
| `VenvCommands.VenvCmdRoundTrip` | providers/src/airflow/providers/standard/utils/python_virtualenv.py:32-39 | reading a venv command back gives the resolved interpreter, the directory and the flag, so the command determines those three values |
| `VenvCommands.VenvCmdDefaultsToRunningInterpreter` | providers/src/airflow/providers/standard/utils/python_virtualenv.py:34-35 | a None interpreter gives the same command as passing the running interpreter explicitly |
| `VenvCommands.InstallCmdFromList` | providers/src/airflow/providers/standard/utils/python_virtualenv.py:42-56 | the command is the installer prefix, then the options, then the requirements; both lists keep their order; length = prefix + options + requirements |
| `VenvCommands.InstallCmdFromFile` | providers/src/airflow/providers/standard/utils/python_virtualenv.py:59-73 | the same prefix and options as the list form, and the last two tokens are exactly `-r` and the file path |
| `VenvCommands.InstallerSelectsExecutable` | providers/src/airflow/providers/standard/utils/python_virtualenv.py:53-56 | the first token is `<venv>/bin/uv` if and only if the installer is "uv", and it is then followed by `pip install`; otherwise the first token is `<venv>/bin/pip`, followed by `install` |
| `VenvCommands.UnknownInstallerFallsBackToPip` | providers/src/airflow/providers/standard/utils/python_virtualenv.py:53-73 | any installer string other than "uv" gives the same list and file commands as "pip" |
| `VenvCommands.FileFormIsListFormOfDashR` | providers/src/airflow/providers/standard/utils/python_virtualenv.py:54-73 | the file command is the list command with the requirements `["-r", path]` |
| `VenvCommands.PipConfContent` | providers/src/airflow/providers/standard/utils/python_virtualenv.py:76-83 | no URLs gives exactly `[global]\nno-index = true`; one URL gives `[global]\nindex-url = u1`; more add `\nextra-index-url = ` and the rest joined by single spaces, in order |
| `VenvCommands.PipConfRoundTrip` | providers/src/airflow/providers/standard/utils/python_virtualenv.py:76-83 | for URLs without spaces or newlines, reading the written pip.conf back gives exactly the URL list: none lost, none added, order kept |
| `VenvCommands.NoIndexIsDistinguishable` | providers/src/airflow/providers/standard/utils/python_virtualenv.py:77-82 | the no-index file differs from the file written for any non-empty URL list |
| `Strings.SplitJoin` | providers/src/airflow/providers/standard/utils/python_virtualenv.py:80 | joining the extra index URLs with a space is undone by splitting on it when no URL contains a space |
| `Provisioning.DefaultRequest` | providers/src/airflow/providers/standard/utils/python_virtualenv.py:86-95 | the directory, interpreter and system-site-packages flag are passed through; the defaults are: no requirements, no requirements file, no install options, no index URLs, installer "pip" |
| `Provisioning.Provisioner.ExecuteInSubprocess` | providers/src/airflow/providers/standard/utils/python_virtualenv.py:120 | running a command appends exactly one `Exec(cmd)` to the log and reports the executor's verdict |
| `Provisioning.Provisioner.GeneratePipConf` | providers/src/airflow/providers/standard/utils/python_virtualenv.py:76-83 | building the options step by step and writing them appends exactly one write of `PipConfContent(urls)` to the given path |
| `Provisioning.Provisioner.PrepareVirtualenv` | providers/src/airflow/providers/standard/utils/python_virtualenv.py:86-136 | the step-by-step method appends exactly the effects of `Provision` to the log and ends as `Provision` ends |
| `ProvisioningProperties.IndexConfigWrittenIffUrlsGiven` | providers/src/airflow/providers/standard/utils/python_virtualenv.py:116-120 | a file is written if and only if `index_urls` is not None, so `[]` still writes the no-index file; it is the only write, goes to `<venv>/pip.conf`, and is the first effect, just before the venv command |
| `ProvisioningProperties.VenvCreatedFirstAndAtMostOneInstall` | providers/src/airflow/providers/standard/utils/python_virtualenv.py:119-134 | the venv command always runs and runs first; at most one more command runs |
| `ProvisioningProperties.ConflictRejectedAfterCreate` | providers/src/airflow/providers/standard/utils/python_virtualenv.py:119-123 | when both sources are given (empty or not) and the venv command succeeded, the call raises ValueError with the source's message; the venv command is the only command and the last effect |
| `ProvisioningProperties.InstallRunsIffSomethingToInstall` | providers/src/airflow/providers/standard/utils/python_virtualenv.py:125-134 | a second command runs if and only if the environment was created, the sources do not conflict, and there is a non-empty list or a non-empty path; it is the list or file command, with the options and installer forwarded |
| `ProvisioningProperties.EmptySourcesInstallNothing` | providers/src/airflow/providers/standard/utils/python_virtualenv.py:125-134 | an empty list and an empty path (or None) leave the venv command as the only command |
| `ProvisioningProperties.NoOptionsIsEmptyOptions` | providers/src/airflow/providers/standard/utils/python_virtualenv.py:113-114 | `pip_install_options=None` gives the same effects and outcome as `[]` |
| `ProvisioningProperties.ReturnsVenvPython` | providers/src/airflow/providers/standard/utils/python_virtualenv.py:119-136 | the call returns if and only if the sources do not conflict and every command it ran succeeded; the value is `<venv>/bin/python` whatever the interpreter or installer |
| `ProvisioningProperties.FailedCommandIsLast` | providers/src/airflow/providers/standard/utils/python_virtualenv.py:119-134 | a failing command ends the call: it is the last effect and the last command, every earlier command succeeded, and nothing is undone |
| `ProvisioningProperties.OutcomeClassifiesFailure` | providers/src/airflow/providers/standard/utils/python_virtualenv.py:119-134 | the outcome tells the cause apart: never NameError; ValueError if and only if the venv command succeeded and both sources were given; SubprocessFailed if and only if some command that ran exited non-zero; a failing venv command always ends the call with SubprocessFailed of that command, even when both sources were given |
| `ProvisioningProperties.DefaultsWithTwoRequirements` | providers/src/airflow/providers/standard/utils/python_virtualenv.py:86-136 | with defaults, requirements `["a","b"]` and every command succeeding, the effects are exactly the venv command and `[/tmp/x/bin/pip, install, a, b]`, and the call returns `/tmp/x/bin/python` |
| `ProvisioningProperties.AsWrittenNeverInstalls` | providers/src/airflow/providers/standard/utils/python_virtualenv.py:125-131 | as written, the venv command is the only command ever run; where the intended function installs, the written one raises NameError, and it agrees with the intended one everywhere else |
| `ProvisioningProperties.AsWrittenTwoRequirementsRaises` | providers/src/airflow/providers/standard/utils/python_virtualenv.py:126-127 | as written, directory "/tmp/x" with defaults except requirements `["a","b"]` creates the environment and then raises NameError instead of installing |

## Left out

- `write_python_script` (python_virtualenv.py:139-166) is left out. It only configures jinja2 and streams a template to a file. All of its behaviour lives in the template engine and the template file, which are not part of this model.
- `execute_in_subprocess` is modelled only as an `Exec(cmd)` effect and a success verdict. The exit code, the captured output and the exception object are not modelled.
- `Path(venv_directory) / "pip.conf"` is modelled as string concatenation, `venv + "/pip.conf"`. pathlib's normalisation is not modelled, for example a trailing slash or `.` components.
- A failing `write_text` of pip.conf is not modelled. The model's write always succeeds.
- Concurrent calls that share a `venv_directory` are not modelled. The code does nothing about them.

## Findings

| source | as written | input that shows it | evidently intended | confidence | as-written member | corrected member |
|---|---|---|---|---|---|---|
| providers/src/airflow/providers/standard/utils/python_virtualenv.py:127-131 | Calls `_generate_pip_install_cmd_from_list` and `_generate_pip_install_cmd_from_file`, which the module does not define. Each call also passes three arguments where the builders take four, so `installer` is dropped. Any call that has something to install creates the environment and then raises NameError. | `venv_directory="/tmp/x"`, `requirements=["a","b"]`, other arguments at their defaults | Call `_generate_install_cmd_from_list` / `_generate_install_cmd_from_file` with `installer` forwarded. The list or file command then runs. | high (not executed) | `Provisioning.ProvisionAsWritten` (shown by `ProvisioningProperties.AsWrittenTwoRequirementsRaises` and `ProvisioningProperties.AsWrittenNeverInstalls`) | `Provisioning.Provisioner.PrepareVirtualenv` and `Provisioning.Provision` (shown by `ProvisioningProperties.DefaultsWithTwoRequirements` and `ProvisioningProperties.InstallRunsIffSomethingToInstall`) |
