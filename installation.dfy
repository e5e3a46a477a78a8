/** The installation methods of dqs/core/installation_methods.py and the
    pure part of `InstallationContext` (dqs/core/context.py): which command
    each method issues, what `setup` does, how `add_to_path` rewrites PATH
    and how `install_package` records its result. Everything is stated over
    a value `Ctx` of the context's state; the `Context` module runs the
    same steps on a mutable object. */
module Installation {
  import opened Text

  /** The four `InstallationMethod` subclasses. */
  datatype Method = PkgManager | Deb | Flatpak | Homebrew

  /** `self.methods`: the method table built by the context's constructor. */
  const MethodTable: map<string, Method> := map[
    "pkg_manager" := PkgManager, "deb" := Deb, "flatpak" := Flatpak, "homebrew" := Homebrew
  ]

  /** `requires_setup()` of each subclass: False for the package manager
      and `.deb` downloads, True for Flatpak and Homebrew. */
  function RequiresSetup(m: Method): (r: bool)
    ensures m == PkgManager || m == Deb ==> !r
    ensures m == Flatpak || m == Homebrew ==> r
  {
    m == Flatpak || m == Homebrew
  }

  /** `PKGManager.INSTALLATION_COMMANDS`. */
  const InstallationCommands: map<string, string> := map[
    "debian" := "sudo apt install -y {pkg}",
    "fedora" := "sudo dnf install -y {pkg}",
    "arch" := "sudo pacman -S --noconfirm {pkg}",
    "redhat" := "sudo yum install -y {pkg}"
  ]

  // ---------------------------------------------------------------------
  // Package data

  /** A package description (`pkg_data`); its values are strings. */
  type PkgData = map<string, string>

  /** `pkg_data.get(key)`. */
  function Get(pkg: PkgData, key: string): Option<string>
  {
    if key in pkg then Some(pkg[key]) else None
  }

  /** How a looked-up value prints inside an f-string or `format`: a missing
      value is Python's `None`. */
  function Show(v: Option<string>): string
  {
    match v
    case Some(s) => s
    case None => "None"
  }

  /** Python truthiness of a looked-up string: present and non-empty. */
  predicate Truthy(v: Option<string>)
  {
    v.Some? && v.value != ""
  }

  /** `PKGManager.install`'s package name: `name` when the key is present, else `id`. */
  function PkgManagerName(pkg: PkgData): (r: Option<string>)
    ensures "name" in pkg ==> r == Some(pkg["name"])
    ensures r.None? <==> "name" !in pkg && "id" !in pkg
    ensures r.Some? ==> r.value in pkg.Values
  {
    if "name" in pkg then Some(pkg["name"]) else Get(pkg, "id")
  }

  /** `pkg_data.get("flatpak_id") or pkg_data.get("id")`, as Flatpak and
      Homebrew print it. */
  function PackageRef(pkg: PkgData): (r: string)
    ensures Truthy(Get(pkg, "flatpak_id")) ==> r == pkg["flatpak_id"]
    ensures !Truthy(Get(pkg, "flatpak_id")) && "id" in pkg ==> r == pkg["id"]
    ensures !Truthy(Get(pkg, "flatpak_id")) && "id" !in pkg ==> r == "None"
    ensures r == "" ==> "id" in pkg && pkg["id"] == ""
  {
    if Truthy(Get(pkg, "flatpak_id")) then pkg["flatpak_id"] else Show(Get(pkg, "id"))
  }

  /** `DebMethod.install`'s file name: `id`, defaulting to "package". */
  function DebName(pkg: PkgData): (r: string)
    ensures "id" in pkg ==> r == pkg["id"]
    ensures "id" !in pkg ==> r == "package"
  {
    if "id" in pkg then pkg["id"] else "package"
  }

  /** The single command `install(pkg_data)` of method `m` issues, or `None`
      when it returns False without issuing one. */
  function InstallCommand(m: Method, distroBased: string, pkg: PkgData): (r: Option<string>)
    ensures r.None? <==> (m == PkgManager && distroBased !in InstallationCommands)
                         || (m == Deb && !Truthy(Get(pkg, "url")))
  {
    match m
    case PkgManager =>
      if distroBased in InstallationCommands
      then Some(Fill(InstallationCommands[distroBased], "{pkg}", Show(PkgManagerName(pkg))))
      else None
    case Deb =>
      var url := Get(pkg, "url");
      if !Truthy(url) then None
      else
        var name := DebName(pkg);
        Some("curl -L '" + url.value + "' -o " + name + ".deb && sudo apt install -y ./" + name
             + ".deb && rm " + name + ".deb")
    case Flatpak => Some("flatpak install -y flathub " + PackageRef(pkg))
    case Homebrew => Some("brew install " + PackageRef(pkg))
  }

  /** `PKGManager.install` fills the family's template with `name` when the
      key is present (even if `id` is too) and with `id` otherwise. */
  lemma PkgManagerCommandShape(distroBased: string, pkg: PkgData)
    ensures distroBased == "debian" ==> InstallCommand(PkgManager, distroBased, pkg) == Some("sudo apt install -y " + Show(PkgManagerName(pkg)))
    ensures distroBased == "fedora" ==> InstallCommand(PkgManager, distroBased, pkg) == Some("sudo dnf install -y " + Show(PkgManagerName(pkg)))
    ensures distroBased == "arch" ==> InstallCommand(PkgManager, distroBased, pkg) == Some("sudo pacman -S --noconfirm " + Show(PkgManagerName(pkg)))
    ensures distroBased == "redhat" ==> InstallCommand(PkgManager, distroBased, pkg) == Some("sudo yum install -y " + Show(PkgManagerName(pkg)))
    ensures "name" in pkg ==> PkgManagerName(pkg) == Some(pkg["name"])
    ensures "name" !in pkg ==> PkgManagerName(pkg) == Get(pkg, "id")
  {
    var v := Show(PkgManagerName(pkg));
    if distroBased == "debian" {
      assert InstallationCommands[distroBased] == "sudo apt install -y " + "{pkg}";
      FillTemplate("sudo apt install -y ", v);
    } else if distroBased == "fedora" {
      assert InstallationCommands[distroBased] == "sudo dnf install -y " + "{pkg}";
      FillTemplate("sudo dnf install -y ", v);
    } else if distroBased == "arch" {
      assert InstallationCommands[distroBased] == "sudo pacman -S --noconfirm " + "{pkg}";
      FillTemplate("sudo pacman -S --noconfirm ", v);
    } else if distroBased == "redhat" {
      assert InstallationCommands[distroBased] == "sudo yum install -y " + "{pkg}";
      FillTemplate("sudo yum install -y ", v);
    }
  }

  /** Flatpak and Homebrew name the same package: a truthy `flatpak_id`,
      else `id`; both commands end with it. */
  lemma FlatpakHomebrewSameRef(pkg: PkgData, distroBased: string)
    ensures var f := InstallCommand(Flatpak, distroBased, pkg);
            var h := InstallCommand(Homebrew, distroBased, pkg);
            f.Some? && h.Some? &&
            f.value[|f.value| - |PackageRef(pkg)|..] == PackageRef(pkg) &&
            h.value[|h.value| - |PackageRef(pkg)|..] == PackageRef(pkg)
    ensures Truthy(Get(pkg, "flatpak_id")) ==> PackageRef(pkg) == pkg["flatpak_id"]
    ensures !Truthy(Get(pkg, "flatpak_id")) ==> PackageRef(pkg) == Show(Get(pkg, "id"))
  {
    var x := PackageRef(pkg);
    var f := "flatpak install -y flathub " + x;
    var h := "brew install " + x;
    assert f[|f| - |x|..] == x;
    assert h[|h| - |x|..] == x;
  }

  // ---------------------------------------------------------------------
  // The context's state

  /** The state of an `InstallationContext` that its operations change:
      `self.env`, the commands issued so far, `results["completed"]` and
      `results["failed"]`. */
  datatype Ctx = Ctx(env: map<string, string>, issued: seq<string>, completed: seq<string>, failed: seq<string>)

  /** Whether a command succeeds, given every command issued before it. */
  type CommandOracle = (seq<string>, string) -> bool

  /** A return value and the state after the call. */
  datatype Outcome = Outcome(ok: bool, ctx: Ctx)

  /** `run_command(cmd)`: issues the command and returns whether it succeeded. */
  function Issue(c: Ctx, cmd: string, shell: CommandOracle): Outcome
  {
    Outcome(shell(c.issued, cmd), c.(issued := c.issued + [cmd]))
  }

  /** `env.get("PATH", "")`. */
  function CurrentPath(env: map<string, string>): string
  {
    if "PATH" in env then env["PATH"] else ""
  }

  /** `add_to_path(new_path)` on `self.env`: prepend `new_path` and the
      path separator unless `new_path` already occurs in PATH. */
  function WithPath(env: map<string, string>, newPath: string): (r: map<string, string>)
    ensures Contains(CurrentPath(r), newPath)
    ensures CurrentPath(r) == CurrentPath(env) || CurrentPath(r) == newPath + ":" + CurrentPath(env)
    ensures Contains(CurrentPath(env), newPath) ==> r == env
    ensures !Contains(CurrentPath(env), newPath) ==> "PATH" in r && r["PATH"] == newPath + ":" + CurrentPath(env)
    ensures forall k :: k != "PATH" ==> (k in r <==> k in env) && (k in r ==> r[k] == env[k])
  {
    var current := CurrentPath(env);
    if Contains(current, newPath) then env
    else
      PrefixContained(newPath, ":" + current);
      assert newPath + (":" + current) == newPath + ":" + current;
      env["PATH" := newPath + ":" + current]
  }

  /** A second identical `add_to_path` changes nothing. */
  lemma WithPathIdempotent(env: map<string, string>, newPath: string)
    ensures WithPath(WithPath(env, newPath), newPath) == WithPath(env, newPath)
  {
  }

  // ---------------------------------------------------------------------
  // Setup

  const FlatpakRemote := "sudo flatpak remote-add --if-not-exists flathub https://dl.flathub.org/repo/flathub.flatpakrepo"
  const BrewInstaller := "NONINTERACTIVE=1 /bin/bash -c \"$(curl -fsSL https://raw.githubusercontent.com/Homebrew/install/HEAD/install.sh)\""
  const LinuxbrewBin := "/home/linuxbrew/.linuxbrew/bin"
  const BrewGcc := "brew install gcc"

  /** `is_command_available(command)` runs this probe. */
  function Probe(command: string): string
  {
    "command -v " + command
  }

  /** The tool whose availability a method's setup probes first. */
  function SetupTool(m: Method): string
  {
    if m == Flatpak then "flatpak" else "brew"
  }

  /** `install(pkg_data)` of method `m`: at most one command, whose result
      it returns. */
  function Install(m: Method, distroBased: string, pkg: PkgData, c: Ctx, shell: CommandOracle): (r: Outcome)
    ensures r.ctx.env == c.env && r.ctx.completed == c.completed && r.ctx.failed == c.failed
    ensures InstallCommand(m, distroBased, pkg).None? ==> r == Outcome(false, c)
    ensures InstallCommand(m, distroBased, pkg).Some? ==>
              r.ctx.issued == c.issued + [InstallCommand(m, distroBased, pkg).value]
              && r.ok == shell(c.issued, InstallCommand(m, distroBased, pkg).value)
  {
    match InstallCommand(m, distroBased, pkg)
    case None => Outcome(false, c)
    case Some(cmd) => Issue(c, cmd, shell)
  }

  /** `setup()` of method `m`: the base class's (return True) for the
      package manager and `.deb`, the subclasses' own for Flatpak and
      Homebrew. */
  function Setup(m: Method, distroBased: string, c: Ctx, shell: CommandOracle): (r: Outcome)
    ensures !RequiresSetup(m) ==> r == Outcome(true, c)
    ensures r.ctx.completed == c.completed && r.ctx.failed == c.failed && c.issued <= r.ctx.issued
    ensures RequiresSetup(m) ==> |r.ctx.issued| > |c.issued| && r.ctx.issued[|c.issued|] == Probe(SetupTool(m))
    ensures m != Homebrew ==> r.ctx.env == c.env
    ensures m == Homebrew ==> r.ctx.env == c.env || r.ctx.env == WithPath(c.env, LinuxbrewBin)
  {
    match m
    case PkgManager => Outcome(true, c)
    case Deb => Outcome(true, c)
    case Flatpak =>
      var probe := Issue(c, Probe("flatpak"), shell);
      if probe.ok then Outcome(true, probe.ctx)
      else
        var pm := Install(PkgManager, distroBased, map["id" := "flatpak"], probe.ctx, shell);
        Issue(pm.ctx, FlatpakRemote, shell)
    case Homebrew =>
      var probe := Issue(c, Probe("brew"), shell);
      if probe.ok then Outcome(true, probe.ctx)
      else
        var installer := Issue(probe.ctx, BrewInstaller, shell);
        if !installer.ok then Outcome(false, installer.ctx)
        else Issue(installer.ctx.(env := WithPath(installer.ctx.env, LinuxbrewBin)), BrewGcc, shell)
  }

  /** A method requires setup exactly when its `setup` does something:
      the base `setup` changes nothing, while an overriding one always
      issues at least its probe. */
  lemma RequiresSetupIffSetupActs(m: Method, distroBased: string, c: Ctx, shell: CommandOracle)
    ensures RequiresSetup(m) <==> Setup(m, distroBased, c, shell) != Outcome(true, c)
  {
    if RequiresSetup(m) {
      assert |Setup(m, distroBased, c, shell).ctx.issued| > |c.issued|;
    }
  }

  /** `FlatpakMethod.setup`: when flatpak is available nothing else runs;
      otherwise the package manager's install of flatpak is attempted (its
      result ignored) and the result is that of the remote-add command,
      the last one issued. */
  lemma FlatpakSetupOutcomes(distroBased: string, c: Ctx, shell: CommandOracle)
    ensures var r := Setup(Flatpak, distroBased, c, shell);
            var probed := c.issued + [Probe("flatpak")];
            if shell(c.issued, Probe("flatpak")) then r == Outcome(true, c.(issued := probed))
            else
              var n := |r.ctx.issued|;
              && r.ctx.issued[n - 1] == FlatpakRemote
              && r.ok == shell(r.ctx.issued[..n - 1], FlatpakRemote)
              && r.ctx.issued[..n - 1] == probed + (if distroBased in InstallationCommands then [InstallCommand(PkgManager, distroBased, map["id" := "flatpak"]).value] else [])
  {
    var r := Setup(Flatpak, distroBased, c, shell);
    if !shell(c.issued, Probe("flatpak")) {
      var n := |r.ctx.issued|;
      assert r.ctx.issued[..n - 1] + [FlatpakRemote] == r.ctx.issued;
    }
  }

  /** `HomebrewMethod.setup` has three outcomes: brew available (True,
      nothing else runs); installer failed (False, PATH untouched,
      `brew install gcc` not run); otherwise PATH holds the linuxbrew bin
      directory and the result is that of `brew install gcc`, run last. */
  lemma HomebrewSetupOutcomes(distroBased: string, c: Ctx, shell: CommandOracle)
    ensures var r := Setup(Homebrew, distroBased, c, shell);
            var probed := c.issued + [Probe("brew")];
            if shell(c.issued, Probe("brew")) then r == Outcome(true, c.(issued := probed))
            else if !shell(probed, BrewInstaller) then
              !r.ok && r.ctx.env == c.env && r.ctx.issued == probed + [BrewInstaller]
            else
              && Contains(CurrentPath(r.ctx.env), LinuxbrewBin)
              && r.ctx.env == WithPath(c.env, LinuxbrewBin)
              && r.ctx.issued == probed + [BrewInstaller, BrewGcc]
              && r.ok == shell(probed + [BrewInstaller], BrewGcc)
  {
    var probed := c.issued + [Probe("brew")];
    assert probed + [BrewInstaller] + [BrewGcc] == probed + [BrewInstaller, BrewGcc];
  }

  // ---------------------------------------------------------------------
  // install_package

  /** `pkg_data.get("id", "unknown")`, the name recorded in the results. */
  function PkgId(pkg: PkgData): (r: string)
    ensures "id" in pkg ==> r == pkg["id"]
    ensures "id" !in pkg ==> r == "unknown"
  {
    if "id" in pkg then pkg["id"] else "unknown"
  }

  /** Whether `install_package` gets as far as calling `install`: the method
      name is known and, if the method requires setup, setup succeeded. */
  predicate ReachesInstall(methods: map<string, Method>, methodName: string, distroBased: string, c: Ctx, shell: CommandOracle)
  {
    methodName in methods &&
    (RequiresSetup(methods[methodName]) ==> Setup(methods[methodName], distroBased, c, shell).ok)
  }

  /** `install_package(pkg_data, method_name)`. */
  function InstallPackage(methods: map<string, Method>, pkg: PkgData, methodName: string, distroBased: string,
                          c: Ctx, shell: CommandOracle): (r: Outcome)
    ensures methodName !in methods ==> r == Outcome(false, c)
    ensures !ReachesInstall(methods, methodName, distroBased, c, shell) ==>
              !r.ok && r.ctx.completed == c.completed && r.ctx.failed == c.failed
    ensures ReachesInstall(methods, methodName, distroBased, c, shell) ==>
              if r.ok then r.ctx.completed == c.completed + [PkgId(pkg)] && r.ctx.failed == c.failed
              else r.ctx.completed == c.completed && r.ctx.failed == c.failed + [PkgId(pkg)]
    ensures methodName in methods && RequiresSetup(methods[methodName]) ==>
              |r.ctx.issued| > |c.issued| && r.ctx.issued[|c.issued|] == Probe(SetupTool(methods[methodName]))
  {
    if methodName !in methods then Outcome(false, c)
    else
      var m := methods[methodName];
      var prepared := if RequiresSetup(m) then Setup(m, distroBased, c, shell) else Outcome(true, c);
      if !prepared.ok then Outcome(false, prepared.ctx)
      else
        var installed := Install(m, distroBased, pkg, prepared.ctx, shell);
        var id := PkgId(pkg);
        if installed.ok then Outcome(true, installed.ctx.(completed := installed.ctx.completed + [id]))
        else Outcome(false, installed.ctx.(failed := installed.ctx.failed + [id]))
  }

  /** Once `install` is called, `install_package` returns exactly its result,
      and a failed setup means `install` is never called: the install
      command is not issued. */
  lemma InstallPackageReturnsInstallResult(pkg: PkgData, methodName: string, distroBased: string, c: Ctx, shell: CommandOracle)
    requires methodName in MethodTable
    ensures var m := MethodTable[methodName];
            var prepared := if RequiresSetup(m) then Setup(m, distroBased, c, shell) else Outcome(true, c);
            var r := InstallPackage(MethodTable, pkg, methodName, distroBased, c, shell);
            if prepared.ok then r.ok == Install(m, distroBased, pkg, prepared.ctx, shell).ok
                                && r.ctx.issued == Install(m, distroBased, pkg, prepared.ctx, shell).ctx.issued
            else r == Outcome(false, prepared.ctx)
  {
  }

  /** Setup is not remembered: two consecutive `install_package` calls with
      a method that requires setup both start by probing for its tool. */
  lemma SetupNotMemoised(pkg1: PkgData, pkg2: PkgData, methodName: string, distroBased: string, c: Ctx, shell: CommandOracle)
    requires methodName in MethodTable && RequiresSetup(MethodTable[methodName])
    ensures var first := InstallPackage(MethodTable, pkg1, methodName, distroBased, c, shell);
            var second := InstallPackage(MethodTable, pkg2, methodName, distroBased, first.ctx, shell);
            second.ctx.issued[|first.ctx.issued|] == Probe(SetupTool(MethodTable[methodName]))
  {
  }
}
