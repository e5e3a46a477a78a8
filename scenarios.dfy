/** End-to-end runs of the task runner on small registries. */
module RunnerScenarios {
  import opened TaskRunner

  /** "b" needs "a"; both commands succeed. */
  lemma ChainSucceeds()
    ensures var reg := map["a" := Task([], Command("cmd-a")), "b" := Task(["a"], Command("cmd-b"))];
            var rank := map["a" := 0, "b" := 1];
            Acyclic(reg, rank) &&
            Run(reg, rank, (h: seq<Event>, e: Event) => true, "b", Fresh([]))
              == Step(true, RunState({"a", "b"}, ["a", "b"], [], [Shell("cmd-a"), Shell("cmd-b")]))
  {
  }

  /** "y" needs "x", whose command fails: both are in `Errores`, nothing
      completes, and the command of "y" never runs. */
  lemma PrerequisiteFails()
    ensures var reg := map["x" := Task([], Command("cmd-x")), "y" := Task(["x"], Command("cmd-y"))];
            var rank := map["x" := 0, "y" := 1];
            Acyclic(reg, rank) &&
            Run(reg, rank, (h: seq<Event>, e: Event) => e != Shell("cmd-x"), "y", Fresh([]))
              == Step(false, RunState({}, [], ["x", "y"], [Shell("cmd-x")]))
  {
  }

  /** A name absent from the registry fails and runs nothing. */
  lemma MissingTask()
    ensures var reg: Registry := map[];
            var rank: Rank := map[];
            Acyclic(reg, rank) &&
            Run(reg, rank, (h: seq<Event>, e: Event) => true, "z", Fresh([]))
              == Step(false, RunState({}, [], ["z"], []))
  {
  }

  /** The sweep re-attempts a failed task when a later task needs it: "x"
      runs twice and is reported twice. */
  lemma FailedTaskRetried()
    ensures var reg := map["x" := Task([], Command("cmd-x")), "y" := Task(["x"], Command("cmd-y"))];
            var rank := map["x" := 0, "y" := 1];
            Acyclic(reg, rank) &&
            Sweep(reg, rank, (h: seq<Event>, e: Event) => e != Shell("cmd-x"), ["x", "y"], Fresh([]))
              == RunState({}, [], ["x", "x", "y"], [Shell("cmd-x"), Shell("cmd-x")])
  {
  }

  /** A Python task succeeds whatever its function returns: only raising
      fails it, and a non-callable value fails without any call. */
  lemma PythonTasks()
    ensures var reg := map["f" := Task([], Python(true)), "g" := Task([], Python(false))];
            var rank := map["f" := 0, "g" := 0];
            Acyclic(reg, rank) &&
            Run(reg, rank, (h: seq<Event>, e: Event) => true, "f", Fresh([]))
              == Step(true, RunState({"f"}, ["f"], [], [Call("f")])) &&
            Run(reg, rank, (h: seq<Event>, e: Event) => true, "g", Fresh([]))
              == Step(false, RunState({}, [], ["g"], []))
  {
  }
}
