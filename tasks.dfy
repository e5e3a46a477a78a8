/** The fixed registry `TASKS_DICT` of main.py: every task's name, its
    prerequisites and its kind. Command texts are kept abstract (`ShellOf`)
    except where the text is the whole point (`brew install …`). */
module Tasks {
  import opened TaskRunner

  /** The shell text of a command task, kept abstract. */
  function ShellOf(task: string): string
  {
    "#" + task
  }

  /** A task whose `func` is a lambda wrapping `install_pkg`. */
  function PkgTask(): Task
  {
    Task([], Python(true))
  }

  /** The registry, in declaration order in `Order` below. */
  const Registry: map<string, Task> := map[
    "install_curl" := PkgTask(),
    "install_extrepo" := PkgTask(),
    "install_git" := PkgTask(),
    // `func` is the bool `install_pkg("fastfetch")` returned at import time.
    "install_fastfetch" := Task([], Python(false)),
    "install_btop" := PkgTask(),
    "install_ffmpeg" := PkgTask(),
    "install_tmux" := PkgTask(),
    "install_cpu_checker" := PkgTask(),
    "install_build_essential" := PkgTask(),
    "install_homebrew" := Task(["install_curl", "install_git"], Command(ShellOf("install_homebrew"))),
    // A lambda that extends os.environ["PATH"].
    "add_homebrew_to_path" := Task(["install_homebrew"], Python(true)),
    "brew_install_gcc" := Task(["add_homebrew_to_path"], Command("brew install gcc")),
    "brew_install_dysk" := Task(["add_homebrew_to_path"], Command("brew install dysk")),
    "brew_install_neovim" := Task(["add_homebrew_to_path"], Command("brew install neovim")),
    "install_&_configure_flatpak" := Task([], Command(ShellOf("install_&_configure_flatpak"))),
    "install_rclone" := Task(["install_curl"], Command(ShellOf("install_rclone"))),
    "install_obsidian" := Task(["install_curl"], Command(ShellOf("install_obsidian"))),
    "install_vscode" := Task(["install_curl"], Command(ShellOf("install_vscode"))),
    "install_jb_tool_box" := Task(["install_curl"], Command(ShellOf("install_jb_tool_box"))),
    "install_qtcreator_qtdesigner" := Task(["install_&_configure_flatpak"], Command(ShellOf("install_qtcreator_qtdesigner"))),
    "install_plantuml" := PkgTask(),
    "setup_apt_for_docker" := Task(["install_curl"], Command(ShellOf("setup_apt_for_docker"))),
    "install_docker" := Task(["setup_apt_for_docker"], Command(ShellOf("install_docker"))),
    "install-drawio" := Task(["install_curl"], Command(ShellOf("install-drawio"))),
    "install_onlyoffice" := Task(["install_curl"], Command(ShellOf("install_onlyoffice"))),
    "install_spotify" := Task(["install_curl"], Command(ShellOf("install_spotify")))
  ]

  /** `TASKS_DICT.keys()`: the declaration order `setup` sweeps in. */
  const Order: seq<string> := [
    "install_curl", "install_extrepo", "install_git", "install_fastfetch", "install_btop",
    "install_ffmpeg", "install_tmux", "install_cpu_checker", "install_build_essential",
    "install_homebrew", "add_homebrew_to_path", "brew_install_gcc", "brew_install_dysk",
    "brew_install_neovim", "install_&_configure_flatpak", "install_rclone", "install_obsidian",
    "install_vscode", "install_jb_tool_box", "install_qtcreator_qtdesigner", "install_plantuml",
    "setup_apt_for_docker", "install_docker", "install-drawio", "install_onlyoffice", "install_spotify"
  ]

  /** The depth of each task in the prerequisite graph. */
  const Ranks: map<string, nat> := map[
    "install_curl" := 0, "install_extrepo" := 0, "install_git" := 0, "install_fastfetch" := 0,
    "install_btop" := 0, "install_ffmpeg" := 0, "install_tmux" := 0, "install_cpu_checker" := 0,
    "install_build_essential" := 0, "install_homebrew" := 1, "add_homebrew_to_path" := 2,
    "brew_install_gcc" := 3, "brew_install_dysk" := 3, "brew_install_neovim" := 3,
    "install_&_configure_flatpak" := 0, "install_rclone" := 1, "install_obsidian" := 1,
    "install_vscode" := 1, "install_jb_tool_box" := 1, "install_qtcreator_qtdesigner" := 1,
    "install_plantuml" := 0, "setup_apt_for_docker" := 1, "install_docker" := 2,
    "install-drawio" := 1, "install_onlyoffice" := 1, "install_spotify" := 1
  ]

  /** The registry has no prerequisite cycle, so `run_task` terminates on it. */
  lemma RegistryAcyclic()
    ensures Acyclic(Registry, Ranks)
  {
    RanksCoverRegistry();
    RanksDecrease();
  }

  lemma RanksCoverRegistry()
    ensures forall n :: n in Registry ==> n in Ranks
  {
  }

  lemma RanksDecrease()
    requires forall n :: n in Registry ==> n in Ranks
    ensures forall n, r :: n in Registry && r in Registry && r in Registry[n].req ==> Ranks[r] < Ranks[n]
  {
  }

  /** Every prerequisite names a registry task, so no task of the sweep fails
      as an unknown name. */
  lemma PrerequisitesExist()
    ensures forall n, q :: n in Registry && q in Registry[n].req ==> q in Registry
  {
  }

  /** The sweep order lists every registry key exactly once. */
  lemma OrderIsKeys()
    ensures forall n :: n in Order <==> n in Registry
    ensures NoDuplicates(Order)
  {
    OrderInRegistry();
    RegistryInOrder();
    OrderDistinct();
  }

  lemma OrderInRegistry()
    ensures forall n :: n in Order ==> n in Registry
  {
  }

  lemma RegistryInOrder()
    ensures forall n :: n in Registry ==> n in Order
  {
  }

  /** No name occurs twice in the sweep order; the pairs are split into
      bands of rows to keep each proof small. */
  lemma OrderDistinct()
    ensures NoDuplicates(Order)
  {
    OrderDistinct0To3();
    OrderDistinct3To6();
    OrderDistinct6To10();
    OrderDistinct10To14();
    OrderDistinct14To19();
    OrderDistinct19To26();
  }

  lemma OrderDistinct0To3()
    ensures forall i, j :: 0 <= i < 3 && i < j < |Order| ==> Order[i] != Order[j]
  {
  }

  lemma OrderDistinct3To6()
    ensures forall i, j :: 3 <= i < 6 && i < j < |Order| ==> Order[i] != Order[j]
  {
  }

  lemma OrderDistinct6To10()
    ensures forall i, j :: 6 <= i < 10 && i < j < |Order| ==> Order[i] != Order[j]
  {
  }

  lemma OrderDistinct10To14()
    ensures forall i, j :: 10 <= i < 14 && i < j < |Order| ==> Order[i] != Order[j]
  {
  }

  lemma OrderDistinct14To19()
    ensures forall i, j :: 14 <= i < 19 && i < j < |Order| ==> Order[i] != Order[j]
  {
  }

  lemma OrderDistinct19To26()
    ensures forall i, j :: 19 <= i < 26 && i < j < |Order| ==> Order[i] != Order[j]
  {
  }

  /** `install_fastfetch` can never succeed: its `func` is not callable, so
      whenever it is not yet executed it is appended to `Errores` and
      nothing runs. */
  lemma FastfetchAlwaysFails(oracle: Oracle, st: RunState)
    requires "install_fastfetch" !in st.executed
    ensures Acyclic(Registry, Ranks) && Run(Registry, Ranks, oracle, "install_fastfetch", st)
         == Step(false, st.(failed := st.failed + ["install_fastfetch"]))
  {
    RegistryAcyclic();
    FastfetchEntry();
    NoActionFails(Registry, Ranks, oracle, "install_fastfetch", st);
  }

  /** The registry entry of `install_fastfetch`: no prerequisites, and a
      `func` that is a bool rather than a callable. */
  lemma FastfetchEntry()
    ensures "install_fastfetch" in Registry && Registry["install_fastfetch"] == Task([], Python(false))
  {
  }
}
