/** Distribution families and the package-manager command templates chosen
    from them: `set_distro_based`, `PKG_MANAGERS`, `install_pkg`'s and
    `update_system`'s command selection (main.py) and
    `InstallationContext.get_distro_based` (dqs/core/context.py). */
module Distro {
  import opened Text

  /** The ID lists of each family (identical in main.py and context.py). */
  const DebianBased: seq<string> := ["debian", "ubuntu", "linuxmint", "pop", "elementary", "kali", "mx", "zorin"]
  const FedoraBased: seq<string> := ["fedora", "centos", "rhel"]
  const ArchBased: seq<string> := ["arch", "manjaro", "endeavouros"]

  /** Every ID some family list names. */
  const Known: seq<string> := DebianBased + FedoraBased + ArchBased

  /** The three normalised family names. */
  const Families: seq<string> := ["debian", "fedora", "arch"]

  /** The ID list of a family name; empty for anything that is not one. */
  function FamilyList(f: string): seq<string>
  {
    if f == "debian" then DebianBased
    else if f == "fedora" then FedoraBased
    else if f == "arch" then ArchBased
    else []
  }

  /** No ID belongs to two families. */
  lemma ListsDisjoint(d: string)
    ensures d in DebianBased ==> d !in FedoraBased && d !in ArchBased
    ensures d in FedoraBased ==> d !in ArchBased
  {
  }

  /** `set_distro_based`: an ID of a family list becomes the family's name;
      any other ID is left as it is. */
  function Normalize(d: string): (r: string)
    ensures r == d || r in Families
    ensures r in Families <==> d in Known
    ensures r in Families ==> d in FamilyList(r)
  {
    if d in DebianBased then "debian"
    else if d in FedoraBased then "fedora"
    else if d in ArchBased then "arch"
    else d
  }

  /** Normalising twice is normalising once: each family name is in its own list. */
  lemma NormalizeIdempotent(d: string)
    ensures Normalize(Normalize(d)) == Normalize(d)
  {
    var r := Normalize(d);
    if r in Families {
      assert r == "debian" || r == "fedora" || r == "arch";
    }
  }

  /** The family of an ID is the one whose list holds it (the lists are disjoint). */
  lemma NormalizeFamily(d: string, f: string)
    requires f in Families
    ensures Normalize(d) == f <==> d in FamilyList(f)
  {
    ListsDisjoint(d);
  }

  /** `get_distro_based`: the family name of a known ID; `None` stands for the
      bare `raise` the source executes for every other ID. */
  function DistroBased(d: string): (r: Option<string>)
    ensures r.Some? <==> d in Known
    ensures r.Some? ==> r.value in Families && d in FamilyList(r.value)
  {
    if d in DebianBased then Some("debian")
    else if d in FedoraBased then Some("fedora")
    else if d in ArchBased then Some("arch")
    else None
  }

  /** The two normalisations agree: where `get_distro_based` returns, it
      returns what `set_distro_based` assigns; where it raises, the other
      leaves the ID unchanged. */
  lemma DistroBasedAgrees(d: string)
    ensures DistroBased(d).Some? ==> DistroBased(d).value == Normalize(d)
    ensures DistroBased(d).None? ==> Normalize(d) == d
  {
  }

  /** One entry of `PKG_MANAGERS`. */
  datatype Commands = Commands(install: string, update: string)

  /** `PKG_MANAGERS` (main.py): one install template and one update command per family. */
  const PkgManagers: map<string, Commands> := map[
    "debian" := Commands("sudo apt install -y {pkg}", "sudo apt update && sudo apt upgrade -y"),
    "fedora" := Commands("sudo dnf install -y {pkg}", "sudo dnf upgrade -y"),
    "arch" := Commands("sudo pacman -S --noconfirm {pkg}", "sudo pacman -Syu --noconfirm")
  ]

  /** The command `install_pkg(pkg)` runs for the current `DISTRO`, or `None`
      when `DISTRO` has no entry (it then fails without running anything). */
  function InstallPkgCommand(distro: string, pkg: string): (r: Option<string>)
    ensures r.Some? <==> distro in Families
  {
    if distro in PkgManagers then Some(Fill(PkgManagers[distro].install, "{pkg}", pkg)) else None
  }

  /** The command is the family's install template with `{pkg}` replaced by
      the package name. */
  lemma InstallPkgCommandShape(distro: string, pkg: string)
    ensures distro == "debian" ==> InstallPkgCommand(distro, pkg) == Some("sudo apt install -y " + pkg)
    ensures distro == "fedora" ==> InstallPkgCommand(distro, pkg) == Some("sudo dnf install -y " + pkg)
    ensures distro == "arch" ==> InstallPkgCommand(distro, pkg) == Some("sudo pacman -S --noconfirm " + pkg)
  {
    if distro == "debian" {
      assert PkgManagers[distro].install == "sudo apt install -y " + "{pkg}";
      FillTemplate("sudo apt install -y ", pkg);
    } else if distro == "fedora" {
      assert PkgManagers[distro].install == "sudo dnf install -y " + "{pkg}";
      FillTemplate("sudo dnf install -y ", pkg);
    } else if distro == "arch" {
      assert PkgManagers[distro].install == "sudo pacman -S --noconfirm " + "{pkg}";
      FillTemplate("sudo pacman -S --noconfirm ", pkg);
    }
  }

  /** The command `update_system()` runs, or `None` when it returns `None`
      without running anything. */
  function UpdateCommand(distro: string): (r: Option<string>)
    ensures r.Some? <==> distro in Families
  {
    if distro in PkgManagers then Some(PkgManagers[distro].update) else None
  }

  /** After `set_distro_based`, `update_system` runs a command exactly for the
      IDs some family list names; for all others `setup` stops at its guard. */
  lemma UpdateGuard(d: string)
    ensures UpdateCommand(Normalize(d)).Some? <==> d in Known
  {
  }
}
