/** `InstallationContext` (dqs/core/context.py) with the installation
    methods it dispatches to (dqs/core/installation_methods.py) acting on
    it. The object's fields change in place; every method is proved to do
    exactly what the matching function of `Installation` specifies. */
module Context {
  import opened Text
  import opened Installation
  import Distro

  class InstallationContext {
    /** `self.distro`: the OS release ID (taken as given, lower-cased). */
    const distro: string
    /** `self.distro_based`. */
    const distroBased: string
    /** `self.env`, a copy of the process environment. */
    var env: map<string, string>
    /** Every command issued through `run_command`, in order. */
    var issued: seq<string>
    /** `self.results["completed"]`. */
    var completed: seq<string>
    /** `self.results["failed"]`. */
    var failed: seq<string>
    /** `self.methods`. */
    const methods: map<string, Method>
    /** Whether a command succeeds, given every command issued before it. */
    const shell: CommandOracle

    function State(): Ctx
      reads this
    {
      Ctx(env, issued, completed, failed)
    }

    /** `__init__`. `get_distro_based` raises for an ID no family lists, so
        a context only exists for a known ID. */
    constructor (osId: string, environ: map<string, string>, shell: CommandOracle)
      requires Distro.DistroBased(osId).Some?
      ensures distro == osId && distroBased == Distro.DistroBased(osId).value
      ensures env == environ && issued == [] && completed == [] && failed == []
      ensures methods == MethodTable && this.shell == shell
    {
      distro := osId;
      distroBased := Distro.DistroBased(osId).value;
      env := environ;
      issued, completed, failed := [], [], [];
      methods := MethodTable;
      this.shell := shell;
    }

    /** `run_command(cmd)` (dqs/utils/terminal_utils.py), issued on behalf of
        this context. */
    method RunCommand(cmd: string) returns (ok: bool)
      modifies this`issued
      ensures Outcome(ok, State()) == Issue(old(State()), cmd, shell)
    {
      ok := shell(issued, cmd);
      issued := issued + [cmd];
    }

    /** `is_command_available(command)`. */
    method IsCommandAvailable(command: string) returns (ok: bool)
      modifies this`issued
      ensures Outcome(ok, State()) == Issue(old(State()), Probe(command), shell)
    {
      ok := RunCommand("command -v " + command);
    }

    /** `add_to_path(new_path)`. */
    method AddToPath(newPath: string)
      modifies this`env
      ensures env == WithPath(old(env), newPath)
    {
      var current := if "PATH" in env then env["PATH"] else "";
      if !Contains(current, newPath) {
        env := env["PATH" := newPath + ":" + current];
      }
    }

    /** `install(pkg_data)` of the method object `m`. */
    method Install(m: Method, pkg: PkgData) returns (ok: bool)
      modifies this`issued
      ensures Outcome(ok, State()) == Installation.Install(m, distroBased, pkg, old(State()), shell)
    {
      var cmd := InstallCommand(m, distroBased, pkg);
      if cmd.None? {
        ok := false;
      } else {
        ok := RunCommand(cmd.value);
      }
    }

    /** `setup()` of the method object `m`. */
    method Setup(m: Method) returns (ok: bool)
      modifies this`env, this`issued
      ensures Outcome(ok, State()) == Installation.Setup(m, distroBased, old(State()), shell)
    {
      match m {
        case PkgManager =>
          ok := true;
        case Deb =>
          ok := true;
        case Flatpak =>
          var available := IsCommandAvailable("flatpak");
          if available {
            return true;
          }
          var _ := Install(PkgManager, map["id" := "flatpak"]);
          ok := RunCommand(FlatpakRemote);
        case Homebrew =>
          var available := IsCommandAvailable("brew");
          if available {
            return true;
          }
          var installed := RunCommand(BrewInstaller);
          if !installed {
            return false;
          }
          AddToPath(LinuxbrewBin);
          ok := RunCommand(BrewGcc);
      }
    }

    /** `install_package(pkg_data, method_name)`. */
    method InstallPackage(pkg: PkgData, methodName: string) returns (ok: bool)
      modifies this`env, this`issued, this`completed, this`failed
      ensures Outcome(ok, State()) == Installation.InstallPackage(methods, pkg, methodName, distroBased, old(State()), shell)
    {
      if methodName !in methods {
        return false;
      }
      var m := methods[methodName];
      if RequiresSetup(m) {
        var ready := Setup(m);
        if !ready {
          return false;
        }
      }
      var pkgId := if "id" in pkg then pkg["id"] else "unknown";
      var success := Install(m, pkg);
      if success {
        completed := completed + [pkgId];
      } else {
        failed := failed + [pkgId];
        return false;
      }
      ok := success;
    }
  }

  /** Every family `get_distro_based` can return has a template in
      `INSTALLATION_COMMANDS`, so for a constructed context the package
      manager always issues a command; the "redhat" entry is never chosen. */
  lemma TemplateAlwaysFound(osId: string, pkg: PkgData)
    requires Distro.DistroBased(osId).Some?
    ensures Distro.DistroBased(osId).value in InstallationCommands
    ensures Distro.DistroBased(osId).value != "redhat"
    ensures InstallCommand(PkgManager, Distro.DistroBased(osId).value, pkg).Some?
  {
    var f := Distro.DistroBased(osId).value;
    assert f == "debian" || f == "fedora" || f == "arch";
  }
}
