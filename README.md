# debian-quick-setup, modelled in Dafny

debian-quick-setup bootstraps a Linux workstation. main.py detects the distribution and normalises it to a family ("debian", "fedora" or "arch"). It refreshes the system with that family's package manager, then walks a fixed registry of named tasks (`TASKS_DICT`). Each task runs its prerequisites depth-first and in declaration order before its own action. Completed tasks are remembered in an `executed` set. Outcomes are appended to `results["Completado"]` and `results["Errores"]`. A second, object-oriented variant (`InstallationContext` with the four installation methods: package manager, `.deb` download, Flatpak and Homebrew) picks a method by name. It runs the method's setup if the method needs one, issues the install command, and records the package id as completed or failed.

The model has these parts:

- `Text` (text.dfy): Python's substring test and the `{pkg}` substitution of `str.format`.
- `Distro` (distro.dfy): the family lists, `set_distro_based`, `get_distro_based`, and `PKG_MANAGERS` with the commands `install_pkg` and `update_system` select.
- `TaskRunner` (task_runner.dfy): `run_task`, its prerequisite loop and the sweep of `setup`, as functions over an explicit run state. The lemmas prove the bookkeeping invariant and the individual cases.
- `RunnerScenarios` (scenarios.dfy): end-to-end runs on small registries.
- `Tasks` (tasks.dfy): the real `TASKS_DICT`. Its names, prerequisites and kinds are given, plus a rank map that proves it acyclic.
- `MainScript` (script.dfy): main.py's mutable state as a class (`DISTRO`, `executed`, both result lists and the log of commands and calls). Its methods run `run_task` and `setup` in place and are proved equal to the `TaskRunner` functions.
- `Installation` (installation.dfy): the commands each installation method issues, its `setup`, `add_to_path` and `install_package`, as functions over a value of the context's state.
- `Context` (context.dfy): `InstallationContext` as a class whose methods are proved equal to those functions.

Every shell command, and every call of a task's Python function, is an oracle. The oracle is a parameter that says whether the event succeeds, given every event issued before it. So an outcome may differ on a retry. Each module also keeps an append-only log of what it issued.

Two consequences of the code are worth stating:

- A task that fails is not added to `executed`. Every later task that needs it runs it again, and its name can appear in `Errores` several times (`RunnerScenarios.FailedTaskRetried`, `TaskRunner.NotExecutedIsAttempted`).
- A `python` task succeeds whenever its function returns without raising, whatever it returns. So an `install_pkg` lambda that returns False still completes its task.

## Model

| member | source | states |
|---|---|---|
| `Text.Contains` | dqs/core/context.py:62 | Python's `sub in s`: the empty string is in every string, and a string is only found in one at least as long |
| `Text.ContainsAt` | dqs/core/context.py:62 | The recursive substring test used for Python's `new_path not in current_path` holds exactly when the text occurs at some position |
| `Text.PrefixContained` | dqs/core/context.py:62-63 | A string is found in any string it begins, so after a prepend the new path is in PATH |
| `Text.FillNoPlaceholder` | main.py:60 | Filling a text that does not contain the placeholder's first character leaves it unchanged |
| `Text.FillAfterPrefix` | dqs/core/installation_methods.py:69 | Filling a brace-free prefix followed by the placeholder gives the prefix, then the value, then the filled rest |
| `Text.FillTemplate` | main.py:60 | Formatting a template `prefix{pkg}` whose prefix has no brace yields the prefix followed by the value |
| `Distro.ListsDisjoint` | main.py:28-30 | No distribution ID is in two family lists |
| `Distro.Normalize` | main.py:34-41 | `set_distro_based` yields the ID itself or a family name; a family name exactly for IDs some list holds, and then the family whose list holds the ID |
| `Distro.NormalizeIdempotent` | main.py:34-41 | Normalising twice equals normalising once |
| `Distro.NormalizeFamily` | main.py:28-41 | An ID normalises to a family exactly when that family's list holds it |
| `Distro.DistroBased` | dqs/core/context.py:46-56 | `get_distro_based` returns (rather than raises) exactly for listed IDs, and what it returns is a family whose list holds the ID |
| `Distro.DistroBasedAgrees` | dqs/core/context.py:46-56 | Where `get_distro_based` returns, it agrees with `set_distro_based`; where it raises, `set_distro_based` leaves the ID unchanged |
| `Distro.InstallPkgCommand` | main.py:58-64 | `install_pkg` has a command exactly when `DISTRO` is one of the three family keys of `PKG_MANAGERS` |
| `Distro.InstallPkgCommandShape` | main.py:43-60 | The command is the family's install template with `{pkg}` replaced by the package name (apt, dnf or pacman) |
| `Distro.UpdateCommand` | main.py:66-68 | `update_system` runs a command exactly for the three family keys and otherwise returns None |
| `Distro.UpdateGuard` | main.py:352-360 | After normalisation, the update runs (so the sweep can start) exactly for IDs some family list holds |
| `TaskRunner.Run` | main.py:290-342 | `run_task` only grows the state; it returns True iff the name is in `executed` afterwards; on True `Errores` is unchanged; on False `Errores` ends with the name; newly executed tasks are registry tasks no higher in the dependency order |
| `TaskRunner.RunReqs` | main.py:305-309 | The prerequisite loop only grows the state; on success every prerequisite is in `executed` and nothing was added to `Errores`; it executes only tasks strictly below the owner |
| `TaskRunner.Sweep` | main.py:363-364 | The sweep only grows the state, and afterwards every swept name is in `executed` or in `Errores`: a failure does not stop the sweep |
| `TaskRunner.RunConsistent` | main.py:290-342 | `run_task` preserves the invariant: `Completado` has no repetition and holds exactly the `executed` set, and each completed task comes after all its prerequisites |
| `TaskRunner.CompleteConsistent` | main.py:334-338 | Adding a task whose prerequisites are all executed to `executed` and the end of `Completado` keeps the invariant |
| `TaskRunner.RunReqsConsistent` | main.py:305-309 | The prerequisite loop preserves the same invariant |
| `TaskRunner.SweepConsistent` | main.py:363-364 | The sweep preserves the same invariant |
| `TaskRunner.SetupConsistent` | main.py:344-364 | After `setup`'s sweep from empty results, no task is completed twice and prerequisites precede dependents in `Completado` |
| `TaskRunner.AlreadyExecuted` | main.py:293-294 | A name already in `executed` returns True and changes nothing |
| `TaskRunner.UnknownTask` | main.py:296-301 | A name outside the registry returns False, is appended to `Errores`, and nothing else changes or runs |
| `TaskRunner.RunReqsFailFast` | main.py:305-309 | When the prerequisites before position i succeed and the one at i fails, the loop's result is that failure: later prerequisites are not attempted |
| `TaskRunner.PrerequisiteFailure` | main.py:305-309 | A task whose prerequisite fails returns False with its own name appended to `Errores` after the prerequisite's, and its own action never runs |
| `TaskRunner.RunReqsAllDone` | main.py:305-306 | Prerequisites that are all executed already return True without changing the state |
| `TaskRunner.ActionSucceeds` | main.py:312-338 | With its prerequisites done and its action succeeding, a task issues exactly its own event and joins `executed` and the end of `Completado` |
| `TaskRunner.ActionFails` | main.py:313-342 | With its prerequisites done and its action issued but failing (a non-zero exit, or a function that raises), a task issues exactly its own event and only `Errores` grows, by its name |
| `TaskRunner.NoActionFails` | main.py:313-332 | A task whose prerequisites are done but whose function is not callable, or whose type is unknown, fails with its name appended to `Errores` and issues nothing |
| `TaskRunner.NotExecutedIsAttempted` | main.py:339-342 | A name not in `executed` is always recorded anew, in `Completado` or in `Errores`, so a failed task is re-attempted on every later reference |
| `RunnerScenarios.ChainSucceeds` | main.py:290-342 | "b" needing "a", both succeeding: executed {a, b}, Completado [a, b], no errors |
| `RunnerScenarios.PrerequisiteFails` | main.py:305-309 | "y" needing a failing "x": Errores [x, y], nothing completed, the command of "y" never run |
| `RunnerScenarios.MissingTask` | main.py:296-301 | An absent name: Errores [z], nothing run |
| `RunnerScenarios.FailedTaskRetried` | main.py:339-342 | Sweeping [x, y] where "x" fails and "y" needs it runs "x" twice and reports Errores [x, x, y] |
| `RunnerScenarios.PythonTasks` | main.py:318-325 | A callable function that does not raise succeeds; a non-callable one fails without any call |
| `Tasks.RanksCoverRegistry` | main.py:74-284 | Every registry task has a rank |
| `Tasks.RanksDecrease` | main.py:74-284 | Every prerequisite ranks strictly below its dependent |
| `Tasks.RegistryAcyclic` | main.py:74-284 | `TASKS_DICT` has no prerequisite cycle, so `run_task` terminates on it |
| `Tasks.PrerequisitesExist` | main.py:74-284 | Every prerequisite named in `TASKS_DICT` is a registry key |
| `Tasks.OrderIsKeys` | main.py:363 | The sweep order lists every registry key exactly once |
| `Tasks.FastfetchEntry` | main.py:93-97 | `install_fastfetch` has no prerequisites and a `func` that is a bool, not a callable |
| `Tasks.OrderDistinct` | main.py:363 | No name occurs twice in the sweep order |
| `Tasks.OrderInRegistry` | main.py:363 | Every name of the sweep order is a registry key |
| `Tasks.RegistryInOrder` | main.py:363 | Every registry key is in the sweep order |
| `Tasks.FastfetchAlwaysFails` | main.py:93-97 | `install_fastfetch`, whose `func` is a bool, fails whenever it is run and issues nothing |
| `MainScript.Script.constructor` | main.py:32-97 | Loading main.py sets `DISTRO` to the raw ID, builds the registry, and issues the fastfetch install command once, and only if the raw ID is itself a family name |
| `MainScript.Script.RunCmd` | main.py:14-22 | A command is logged and its result is the oracle's |
| `MainScript.Script.CallTaskFunction` | main.py:318-322 | A task function call is logged and succeeds iff it does not raise |
| `MainScript.Script.SetDistroBased` | main.py:34-41 | The global `DISTRO` becomes its normalisation |
| `MainScript.Script.InstallPkg` | main.py:58-64 | Exactly one command (the filled template) when `DISTRO` has an entry, returning its result; otherwise False and no command |
| `MainScript.Script.UpdateSystem` | main.py:66-68 | The update command's result for a known family; otherwise None and no command |
| `MainScript.Script.RunTask` | main.py:290-342 | The in-place `run_task` returns, and leaves `executed`, both result lists and the log, exactly as `TaskRunner.Run` specifies |
| `MainScript.Script.Setup` | main.py:344-364 | `setup` normalises `DISTRO`, resets the results, runs no task unless the update returns True, and otherwise ends in the state of `TaskRunner.Sweep` over the declaration order |
| `Installation.RequiresSetup` | dqs/core/installation_methods.py:56-113 | `requires_setup` is False for the package manager and `.deb`, True for Flatpak and Homebrew |
| `Installation.RequiresSetupIffSetupActs` | dqs/core/installation_methods.py:39-124 | A method requires setup exactly when its `setup` does something: the inherited base `setup` returns True and changes nothing, while Flatpak and Homebrew always issue at least their probe |
| `Installation.PkgManagerName` | dqs/core/installation_methods.py:61 | The package manager's name is `name` when that key is present, else `id`; it is missing only when both keys are absent, and is otherwise a value of `pkg_data` |
| `Installation.DebName` | dqs/core/installation_methods.py:79 | The `.deb` file name is `id`, defaulting to "package" |
| `Installation.PackageRef` | dqs/core/installation_methods.py:104-127 | A truthy `flatpak_id`, else `id`, else "None"; the reference is empty only when `flatpak_id` is falsy and `id` is the empty string |
| `Installation.InstallCommand` | dqs/core/installation_methods.py:60-129 | `install` issues no command exactly for the package manager without a template and for `.deb` without a truthy `url`; otherwise exactly one |
| `Installation.PkgManagerCommandShape` | dqs/core/installation_methods.py:49-69 | The package-manager command is the family's template filled with `name` when that key is present and with `id` otherwise |
| `Installation.FlatpakHomebrewSameRef` | dqs/core/installation_methods.py:103-129 | Flatpak and Homebrew commands both end with the same package reference: a truthy `flatpak_id`, else `id` |
| `Installation.WithPath` | dqs/core/context.py:59-63 | `add_to_path` leaves PATH containing the new path; it only prepends `new_path:`, and only when the path is absent (else the env is unchanged); no other key changes |
| `Installation.WithPathIdempotent` | dqs/core/context.py:59-63 | A second identical `add_to_path` changes nothing |
| `Installation.Install` | dqs/core/installation_methods.py:60-129 | `install` issues at most its one command and returns that command's result, or False with nothing issued; env and results are untouched |
| `Installation.Setup` | dqs/core/installation_methods.py:39-124 | The base setup returns True and issues nothing; Flatpak and Homebrew setups first probe for their tool; only Homebrew may change the env, and then only by `add_to_path` of the linuxbrew bin directory |
| `Installation.FlatpakSetupOutcomes` | dqs/core/installation_methods.py:94-101 | Available flatpak: True after the probe alone. Otherwise the package-manager install of flatpak is issued (result ignored) and the result is that of the remote-add command, issued last |
| `Installation.HomebrewSetupOutcomes` | dqs/core/installation_methods.py:115-124 | Available brew: True after the probe alone. Failed installer: False, PATH untouched, gcc not installed. Otherwise PATH gains the linuxbrew bin directory and the result is that of `brew install gcc`, issued last |
| `Installation.PkgId` | dqs/core/context.py:82 | The recorded package id is `id`, defaulting to "unknown" |
| `Installation.InstallPackage` | dqs/core/context.py:65-92 | An unknown method returns False with nothing changed; no install (unknown method or failed setup) leaves results unchanged; once `install` runs, exactly one of completed and failed grows, by the package id, matching the return value; setup starts with a fresh probe each call |
| `Installation.InstallPackageReturnsInstallResult` | dqs/core/context.py:73-92 | Failed setup returns False with `install` never called; otherwise the result is `install`'s |
| `Installation.SetupNotMemoised` | dqs/core/context.py:73-77 | Two consecutive `install_package` calls with Flatpak or Homebrew both begin by probing for the tool |
| `Context.InstallationContext.constructor` | dqs/core/context.py:25-37 | The context starts with the family of a listed ID, a copy of the environment, empty results and the four-method table |
| `Context.InstallationContext.RunCommand` | dqs/utils/terminal_utils.py:20-28 | A command is logged and its result is the oracle's |
| `Context.InstallationContext.IsCommandAvailable` | dqs/core/context.py:94-96 | Availability is the result of the `command -v` probe, which is logged |
| `Context.InstallationContext.AddToPath` | dqs/core/context.py:59-63 | `self.env` becomes `WithPath` of its old value |
| `Context.InstallationContext.Install` | dqs/core/installation_methods.py:60-129 | The in-place `install` matches `Installation.Install` |
| `Context.InstallationContext.Setup` | dqs/core/installation_methods.py:39-124 | The in-place `setup` matches `Installation.Setup`, including the `add_to_path` call of Homebrew |
| `Context.InstallationContext.InstallPackage` | dqs/core/context.py:65-92 | The in-place `install_package` matches `Installation.InstallPackage` |
| `Context.TemplateAlwaysFound` | dqs/core/context.py:46-56 | Every family `get_distro_based` returns has a package-manager template and is not "redhat", so the no-template branch never fires for a constructed context |

## Left out

- Printing (`log`, `ok`, `fail`, `error`) and the final summary of `setup`: output only.
- The processes themselves (`subprocess.run`, `run_cmd`, `run_command`). Their outcomes are the oracle parameter, which only says success or failure.
- Exceptions as outcomes. The model has no exceptional outcome. Only inside the `try` of `run_task` (main.py:315-332) does an exception count as a failure.
  - `run_cmd` catches nothing. An exception from `update_system()` in `setup`, or from the import-time `install_pkg("fastfetch")`, stops the script.
  - `run_command` catches only `CalledProcessError`. Any other exception, including a decoding error of the captured stderr, escapes `install_package`, and neither results list grows. `Installation.InstallPackage` always records the id once `install` runs.
- Reading the OS release (`platform.freedesktop_os_release()` and `.lower()`). The ID is an input, assumed already lower-cased.
- The shell text of most command tasks in `TASKS_DICT`. It is abstract (`Tasks.ShellOf`); only which task issues it matters.
- What task functions do inside, including the PATH change of `add_homebrew_to_path` on the real `os.environ`. A call is one event whose only observable result is whether it raises.
- Cyclic registries. The source recurses without cycle detection, so the runner functions require a rank map under which every prerequisite ranks below its dependent.
- A registry entry that is an empty dict, which `if not task` would treat as missing. No entry of `TASKS_DICT` is empty.
- `str.format` beyond the single `{pkg}` field (escaped braces, other fields). The templates use none.
- Non-string values in `pkg_data`: values are strings, and a missing one prints as "None".
- `Context.InstallationContext.constructor`: requires a listed distribution ID, because `get_distro_based` raises for any other and no context object exists then.
- `self.env` is never passed to `run_command` in the source. So the oracle does not depend on the env, and `add_to_path` affects no later command outcome in the model either.
- Python's ABC machinery, and the circular import between context.py and installation_methods.py. The method classes become the tag `Installation.Method`, and their shared `self.context` becomes the state the context's methods change.
