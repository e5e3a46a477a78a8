/** The state main.py keeps while it runs — the global `DISTRO`, the
    `executed` set and `results` lists of `setup` — and the procedures
    that update it in place. Each method is proved to do exactly what the
    corresponding function of `Distro` or `TaskRunner` specifies. */
module MainScript {
  import opened Text
  import opened Distro
  import opened TaskRunner
  import Tasks

  class Script {
    const registry: Registry
    const rank: Rank
    /** `TASKS_DICT.keys()`, the order of the sweep. */
    const order: seq<string>
    /** The outcome of every command and call, given those before it. */
    const oracle: Oracle

    /** The global `DISTRO`. */
    var distro: string
    var executed: set<string>
    /** `results["Completado"]`. */
    var completed: seq<string>
    /** `results["Errores"]`. */
    var failed: seq<string>
    /** Every command run and every task function called, in order. */
    var log: seq<Event>

    ghost predicate Valid()
      reads this
    {
      Acyclic(registry, rank)
    }

    function State(): RunState
      reads this
    {
      RunState(executed, completed, failed, log)
    }

    /** Loading main.py: `DISTRO` is the OS release ID (taken here as given,
        already lower-cased), and building `TASKS_DICT` calls
        `install_pkg("fastfetch")` once, with `DISTRO` not yet normalised. */
    constructor (osId: string, oracle: Oracle)
      ensures Valid()
      ensures registry == Tasks.Registry && rank == Tasks.Ranks && order == Tasks.Order && this.oracle == oracle
      ensures distro == osId && executed == {} && completed == [] && failed == []
      ensures log == match InstallPkgCommand(osId, "fastfetch")
                     case None => []
                     case Some(c) => [Shell(c)]
    {
      registry := Tasks.Registry;
      rank := Tasks.Ranks;
      order := Tasks.Order;
      this.oracle := oracle;
      distro := osId;
      executed, completed, failed, log := {}, [], [], [];
      new;
      Tasks.RegistryAcyclic();
      var _ := InstallPkg("fastfetch");
    }

    /** `run_cmd`: runs a shell command and reports whether it exited with 0. */
    method RunCmd(cmd: string) returns (ok: bool)
      modifies this`log
      ensures ok == oracle(old(log), Shell(cmd))
      ensures log == old(log) + [Shell(cmd)]
    {
      ok := oracle(log, Shell(cmd));
      log := log + [Shell(cmd)];
    }

    /** Calling a task's Python function; true when the call does not raise. */
    method CallTaskFunction(name: string) returns (ok: bool)
      modifies this`log
      ensures ok == oracle(old(log), Call(name))
      ensures log == old(log) + [Call(name)]
    {
      ok := oracle(log, Call(name));
      log := log + [Call(name)];
    }

    /** `set_distro_based`. */
    method SetDistroBased()
      modifies this`distro
      ensures distro == Normalize(old(distro))
    {
      if distro in DebianBased {
        distro := "debian";
      } else if distro in FedoraBased {
        distro := "fedora";
      } else if distro in ArchBased {
        distro := "arch";
      }
    }

    /** `install_pkg(pkg)`: one command when `DISTRO` has a template, none otherwise. */
    method InstallPkg(pkg: string) returns (ok: bool)
      modifies this`log
      ensures match InstallPkgCommand(distro, pkg)
              case None => !ok && log == old(log)
              case Some(c) => ok == oracle(old(log), Shell(c)) && log == old(log) + [Shell(c)]
    {
      if distro in PkgManagers {
        var cmd := Fill(PkgManagers[distro].install, "{pkg}", pkg);
        ok := RunCmd(cmd);
      } else {
        ok := false;
      }
    }

    /** `update_system()`: `None` (Python's `None`) when `DISTRO` has no entry. */
    method UpdateSystem() returns (r: Option<bool>)
      modifies this`log
      ensures match UpdateCommand(distro)
              case None => r == None && log == old(log)
              case Some(c) => r == Some(oracle(old(log), Shell(c))) && log == old(log) + [Shell(c)]
    {
      if distro in PkgManagers {
        var ok := RunCmd(PkgManagers[distro].update);
        r := Some(ok);
      } else {
        r := None;
      }
    }

    /** `run_task(name, executed, results)`. */
    method RunTask(name: string) returns (ok: bool)
      requires Valid()
      modifies this`executed, this`completed, this`failed, this`log
      ensures Step(ok, State()) == Run(registry, rank, oracle, name, old(State()))
      decreases Measure(registry, rank, name)
    {
      if name in executed {
        return true;
      }
      if name !in registry {
        failed := failed + [name];
        return false;
      }
      var task := registry[name];
      ghost var s0 := State();
      var i := 0;
      while i < |task.req|
        invariant 0 <= i <= |task.req|
        invariant Grows(s0, State()) && name !in executed
        invariant RunReqs(registry, rank, oracle, name, task.req, s0)
               == RunReqs(registry, rank, oracle, name, task.req[i..], State())
      {
        assert task.req[i..][0] == task.req[i] && task.req[i..][1..] == task.req[i + 1..];
        var reqOk := RunTask(task.req[i]);
        if !reqOk {
          failed := failed + [name];
          return false;
        }
        i := i + 1;
      }
      var actionOk;
      match task.kind {
        case Command(cmd) =>
          actionOk := RunCmd(cmd);
        case Python(callable) =>
          if callable {
            actionOk := CallTaskFunction(name);
          } else {
            actionOk := false;
          }
        case Other(_) =>
          actionOk := false;
      }
      if actionOk {
        executed := executed + {name};
        completed := completed + [name];
        ok := true;
      } else {
        failed := failed + [name];
        ok := false;
      }
    }

    /** `setup()`: fresh results, normalise `DISTRO`, stop unless the system
        update returns True, then `run_task` on every registry key in order. */
    method Setup()
      requires Valid()
      modifies this`distro, this`executed, this`completed, this`failed, this`log
      ensures distro == Normalize(old(distro))
      ensures var u := UpdateCommand(distro);
              var start := Fresh(if u.Some? then old(log) + [Shell(u.value)] else old(log));
              State() == if u.Some? && oracle(old(log), Shell(u.value))
                         then Sweep(registry, rank, oracle, order, start)
                         else start
    {
      executed, completed, failed := {}, [], [];
      SetDistroBased();
      var updated := UpdateSystem();
      if updated != Some(true) {
        return;
      }
      ghost var start := State();
      var i := 0;
      while i < |order|
        invariant 0 <= i <= |order|
        invariant distro == Normalize(old(distro))
        invariant Sweep(registry, rank, oracle, order, start) == Sweep(registry, rank, oracle, order[i..], State())
      {
        assert order[i..][0] == order[i] && order[i..][1..] == order[i + 1..];
        var _ := RunTask(order[i]);
        i := i + 1;
      }
    }
  }
}
