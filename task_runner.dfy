/** The dependency-ordered task runner of main.py (`run_task` and the sweep in
    `setup`), as functions over an explicit run state. The `Script` class
    runs the same steps in place and is proved equal to these functions. */
module TaskRunner {
  import opened Text

  /** What a registry entry's `type` selects: a shell command, a Python
      value that may or may not be callable, or any other type name. */
  datatype Kind = Command(cmd: string) | Python(callable: bool) | Other(typeName: string)

  /** A registry entry: its `req` list and its kind with payload. */
  datatype Task = Task(req: seq<string>, kind: Kind)

  type Registry = map<string, Task>

  /** A rank per task; an acyclic registry ranks every prerequisite below its dependent. */
  type Rank = map<string, nat>

  /** Something the runner does to the outside world: a shell command it
      runs, or the Python function of a task it calls. */
  datatype Event = Shell(cmd: string) | Call(task: string)

  /** The outside world: whether an event succeeds (the command exits with
      status 0, the call returns without raising), given every event before it. */
  type Oracle = (seq<Event>, Event) -> bool

  /** The run state: the `executed` set, `results["Completado"]`,
      `results["Errores"]`, and the events issued so far. */
  datatype RunState = RunState(executed: set<string>, completed: seq<string>, failed: seq<string>, log: seq<Event>)

  /** The result of a call: its return value and the state after it. */
  datatype Step = Step(ok: bool, state: RunState)

  /** The empty run state `setup` starts from, after the events in `log`. */
  function Fresh(log: seq<Event>): RunState
  {
    RunState({}, [], [], log)
  }

  ghost predicate Acyclic(reg: Registry, rank: Rank)
  {
    && (forall n :: n in reg ==> n in rank)
    && (forall n, r :: n in reg && r in reg && r in reg[n].req ==> rank[r] < rank[n])
  }

  /** The termination measure: names outside the registry fail at once. */
  function Measure(reg: Registry, rank: Rank, n: string): nat
  {
    if n in reg && n in rank then rank[n] + 1 else 0
  }

  /** The event a task's own action issues: a command task runs its
      command, a task with a callable function calls it, and a task whose
      function is not callable or whose type is unknown does nothing. */
  function ActionEvent(name: string, kind: Kind): Option<Event>
  {
    match kind
    case Command(cmd) => Some(Shell(cmd))
    case Python(callable) => if callable then Some(Call(name)) else None
    case Other(_) => None
  }

  /** Every part of the state only grows: the set by inclusion, the lists and
      the log by extension at the end. */
  ghost predicate Grows(a: RunState, b: RunState)
  {
    a.executed <= b.executed && a.completed <= b.completed && a.failed <= b.failed && a.log <= b.log
  }

  /** `run_task(name, executed, results)`. */
  function Run(reg: Registry, rank: Rank, oracle: Oracle, name: string, st: RunState): (r: Step)
    requires Acyclic(reg, rank)
    ensures Grows(st, r.state)
    ensures r.ok <==> name in r.state.executed
    ensures r.ok ==> r.state.failed == st.failed
    ensures !r.ok ==> r.state.failed != [] && r.state.failed[|r.state.failed| - 1] == name
    ensures forall m :: m in r.state.executed && m !in st.executed ==> m in reg && Measure(reg, rank, m) <= Measure(reg, rank, name)
    decreases Measure(reg, rank, name), 1
  {
    if name in st.executed then Step(true, st)
    else if name !in reg then Step(false, st.(failed := st.failed + [name]))
    else
      var pre := RunReqs(reg, rank, oracle, name, reg[name].req, st);
      var s1 := pre.state;
      if !pre.ok then Step(false, s1.(failed := s1.failed + [name]))
      else
        var ev := ActionEvent(name, reg[name].kind);
        var log := if ev.Some? then s1.log + [ev.value] else s1.log;
        if ev.Some? && oracle(s1.log, ev.value) then
          Step(true, s1.(executed := s1.executed + {name}, completed := s1.completed + [name], log := log))
        else
          Step(false, s1.(failed := s1.failed + [name], log := log))
  }

  /** The loop over `task["req"]` of task `owner`: runs `reqs` in order and
      stops at the first one that fails. */
  function RunReqs(reg: Registry, rank: Rank, oracle: Oracle, owner: string, reqs: seq<string>, st: RunState): (r: Step)
    requires Acyclic(reg, rank) && owner in reg
    requires forall q :: q in reqs ==> q in reg[owner].req
    ensures Grows(st, r.state)
    ensures r.ok ==> r.state.failed == st.failed && forall q :: q in reqs ==> q in r.state.executed
    ensures forall m :: m in r.state.executed && m !in st.executed ==> m in reg && Measure(reg, rank, m) < Measure(reg, rank, owner)
    decreases Measure(reg, rank, owner), 0, |reqs|
  {
    if reqs == [] then Step(true, st)
    else
      var first := Run(reg, rank, oracle, reqs[0], st);
      if !first.ok then first
      else RunReqs(reg, rank, oracle, owner, reqs[1..], first.state)
  }

  /** The sweep of `setup`: `run_task` on every name of `names` in order,
      whatever the earlier ones returned. */
  function Sweep(reg: Registry, rank: Rank, oracle: Oracle, names: seq<string>, st: RunState): (r: RunState)
    requires Acyclic(reg, rank)
    ensures Grows(st, r)
    ensures forall n :: n in names ==> n in r.executed || n in r.failed
    decreases |names|
  {
    if names == [] then st
    else Sweep(reg, rank, oracle, names[1..], Run(reg, rank, oracle, names[0], st).state)
  }

  // ---------------------------------------------------------------------
  // The bookkeeping invariant

  ghost predicate NoDuplicates(s: seq<string>)
  {
    forall i, j :: 0 <= i < j < |s| ==> s[i] != s[j]
  }

  /** What a run state keeps true: `Completado` lists the `executed` set
      without repetition, every completed task is a registry task, and each
      of its prerequisites was completed before it. */
  ghost predicate Consistent(reg: Registry, st: RunState)
  {
    && NoDuplicates(st.completed)
    && (forall x :: x in st.completed <==> x in st.executed)
    && (forall i :: 0 <= i < |st.completed| ==> st.completed[i] in reg)
    && (forall i, q :: 0 <= i < |st.completed| && st.completed[i] in reg && q in reg[st.completed[i]].req ==> q in st.completed[..i])
  }

  lemma {:induction false} RunConsistent(reg: Registry, rank: Rank, oracle: Oracle, name: string, st: RunState)
    requires Acyclic(reg, rank) && Consistent(reg, st)
    ensures Consistent(reg, Run(reg, rank, oracle, name, st).state)
    decreases Measure(reg, rank, name), 1
  {
    if name !in st.executed && name in reg {
      var pre := RunReqs(reg, rank, oracle, name, reg[name].req, st);
      RunReqsConsistent(reg, rank, oracle, name, reg[name].req, st);
      var s1 := pre.state;
      var r := Run(reg, rank, oracle, name, st);
      if pre.ok && r.ok {
        assert name !in s1.executed;
        CompleteConsistent(reg, s1, name, r.state.log);
        assert r.state == s1.(executed := s1.executed + {name}, completed := s1.completed + [name], log := r.state.log);
      }
    }
  }

  /** Completing a registry task whose prerequisites are all executed keeps
      the invariant. */
  lemma CompleteConsistent(reg: Registry, st: RunState, name: string, log: seq<Event>)
    requires Consistent(reg, st) && name in reg && name !in st.executed
    requires forall q :: q in reg[name].req ==> q in st.executed
    ensures Consistent(reg, st.(executed := st.executed + {name}, completed := st.completed + [name], log := log))
  {
    var c := st.completed + [name];
    assert c[..|st.completed|] == st.completed;
    forall i, q | 0 <= i < |c| && c[i] in reg && q in reg[c[i]].req
      ensures q in c[..i]
    {
      if i < |st.completed| {
        assert c[..i] == st.completed[..i];
      } else {
        assert q in st.executed;
      }
    }
  }

  lemma {:induction false} RunReqsConsistent(reg: Registry, rank: Rank, oracle: Oracle, owner: string, reqs: seq<string>, st: RunState)
    requires Acyclic(reg, rank) && owner in reg && Consistent(reg, st)
    requires forall q :: q in reqs ==> q in reg[owner].req
    ensures Consistent(reg, RunReqs(reg, rank, oracle, owner, reqs, st).state)
    decreases Measure(reg, rank, owner), 0, |reqs|
  {
    if reqs != [] {
      RunConsistent(reg, rank, oracle, reqs[0], st);
      var first := Run(reg, rank, oracle, reqs[0], st);
      if first.ok {
        RunReqsConsistent(reg, rank, oracle, owner, reqs[1..], first.state);
      }
    }
  }

  lemma {:induction false} SweepConsistent(reg: Registry, rank: Rank, oracle: Oracle, names: seq<string>, st: RunState)
    requires Acyclic(reg, rank) && Consistent(reg, st)
    ensures Consistent(reg, Sweep(reg, rank, oracle, names, st))
    decreases |names|
  {
    if names != [] {
      RunConsistent(reg, rank, oracle, names[0], st);
      SweepConsistent(reg, rank, oracle, names[1..], Run(reg, rank, oracle, names[0], st).state);
    }
  }

  /** The sweep starts consistent, so after `setup` no task is in
      `Completado` twice and every completed task follows its prerequisites. */
  lemma SetupConsistent(reg: Registry, rank: Rank, oracle: Oracle, names: seq<string>, log: seq<Event>)
    requires Acyclic(reg, rank)
    ensures Consistent(reg, Sweep(reg, rank, oracle, names, Fresh(log)))
  {
    SweepConsistent(reg, rank, oracle, names, Fresh(log));
  }

  // ---------------------------------------------------------------------
  // The individual cases of run_task

  /** A name already in `executed` returns True and changes nothing. */
  lemma AlreadyExecuted(reg: Registry, rank: Rank, oracle: Oracle, name: string, st: RunState)
    requires Acyclic(reg, rank) && name in st.executed
    ensures Run(reg, rank, oracle, name, st) == Step(true, st)
  {
  }

  /** A name missing from the registry returns False, is appended to
      `Errores`, and runs nothing. */
  lemma UnknownTask(reg: Registry, rank: Rank, oracle: Oracle, name: string, st: RunState)
    requires Acyclic(reg, rank) && name !in st.executed && name !in reg
    ensures Run(reg, rank, oracle, name, st) == Step(false, st.(failed := st.failed + [name]))
  {
  }

  /** Fail-fast over the prerequisites: when every prerequisite before
      position `i` succeeded and the one at `i` fails, the loop stops there,
      and later prerequisites are not attempted. */
  lemma {:induction false} RunReqsFailFast(reg: Registry, rank: Rank, oracle: Oracle, owner: string, reqs: seq<string>, i: nat, st: RunState)
    requires Acyclic(reg, rank) && owner in reg
    requires forall q :: q in reqs ==> q in reg[owner].req
    requires i < |reqs|
    requires RunReqs(reg, rank, oracle, owner, reqs[..i], st).ok
    requires !Run(reg, rank, oracle, reqs[i], RunReqs(reg, rank, oracle, owner, reqs[..i], st).state).ok
    ensures RunReqs(reg, rank, oracle, owner, reqs, st)
         == Run(reg, rank, oracle, reqs[i], RunReqs(reg, rank, oracle, owner, reqs[..i], st).state)
    decreases i
  {
    if i > 0 {
      var first := Run(reg, rank, oracle, reqs[0], st);
      assert reqs[..i][0] == reqs[0];
      assert reqs[..i][1..] == reqs[1..][..i - 1];
      RunReqsFailFast(reg, rank, oracle, owner, reqs[1..], i - 1, first.state);
    }
  }

  /** A failing prerequisite fails its dependent: the dependent's name is
      appended to `Errores` after the prerequisite's failures, and its own
      action never runs (the log is the one the prerequisites left). */
  lemma PrerequisiteFailure(reg: Registry, rank: Rank, oracle: Oracle, name: string, i: nat, st: RunState)
    requires Acyclic(reg, rank) && name in reg && name !in st.executed
    requires i < |reg[name].req|
    requires RunReqs(reg, rank, oracle, name, reg[name].req[..i], st).ok
    requires !Run(reg, rank, oracle, reg[name].req[i], RunReqs(reg, rank, oracle, name, reg[name].req[..i], st).state).ok
    ensures var failing := Run(reg, rank, oracle, reg[name].req[i], RunReqs(reg, rank, oracle, name, reg[name].req[..i], st).state).state;
            Run(reg, rank, oracle, name, st) == Step(false, failing.(failed := failing.failed + [name]))
  {
    RunReqsFailFast(reg, rank, oracle, name, reg[name].req, i, st);
  }

  /** A task whose prerequisites are all done and whose own action
      succeeds enters `executed` and `Completado` exactly once, at the end. */
  lemma ActionSucceeds(reg: Registry, rank: Rank, oracle: Oracle, name: string, st: RunState)
    requires Acyclic(reg, rank) && name in reg && name !in st.executed
    requires forall q :: q in reg[name].req ==> q in st.executed
    requires ActionEvent(name, reg[name].kind).Some? && oracle(st.log, ActionEvent(name, reg[name].kind).value)
    ensures Run(reg, rank, oracle, name, st)
         == Step(true, st.(executed := st.executed + {name}, completed := st.completed + [name],
                           log := st.log + [ActionEvent(name, reg[name].kind).value]))
  {
    RunReqsAllDone(reg, rank, oracle, name, reg[name].req, st);
  }

  /** A task whose prerequisites are all done and whose own action is
      issued but fails (the command exits non-zero, or the function raises)
      issues exactly that event and only `Errores` grows, by its name. */
  lemma ActionFails(reg: Registry, rank: Rank, oracle: Oracle, name: string, st: RunState)
    requires Acyclic(reg, rank) && name in reg && name !in st.executed
    requires forall q :: q in reg[name].req ==> q in st.executed
    requires ActionEvent(name, reg[name].kind).Some? && !oracle(st.log, ActionEvent(name, reg[name].kind).value)
    ensures Run(reg, rank, oracle, name, st)
         == Step(false, st.(failed := st.failed + [name], log := st.log + [ActionEvent(name, reg[name].kind).value]))
  {
    RunReqsAllDone(reg, rank, oracle, name, reg[name].req, st);
  }

  /** A task whose prerequisites are all done but which has no action to
      take (its function is not callable, or its type is unknown) fails
      without issuing anything. */
  lemma NoActionFails(reg: Registry, rank: Rank, oracle: Oracle, name: string, st: RunState)
    requires Acyclic(reg, rank) && name in reg && name !in st.executed
    requires forall q :: q in reg[name].req ==> q in st.executed
    requires ActionEvent(name, reg[name].kind).None?
    ensures Run(reg, rank, oracle, name, st) == Step(false, st.(failed := st.failed + [name]))
  {
    RunReqsAllDone(reg, rank, oracle, name, reg[name].req, st);
  }

  /** Prerequisites that are all in `executed` short-circuit: the loop
      returns True and changes nothing. */
  lemma {:induction false} RunReqsAllDone(reg: Registry, rank: Rank, oracle: Oracle, owner: string, reqs: seq<string>, st: RunState)
    requires Acyclic(reg, rank) && owner in reg
    requires forall q :: q in reqs ==> q in reg[owner].req && q in st.executed
    ensures RunReqs(reg, rank, oracle, owner, reqs, st) == Step(true, st)
    decreases |reqs|
  {
    if reqs != [] {
      RunReqsAllDone(reg, rank, oracle, owner, reqs[1..], st);
    }
  }

  /** A task that is not in `executed` is never short-circuited: every call
      records it, in `Completado` or in `Errores`. So a task that failed
      earlier is attempted again when referenced again, and can appear in
      `Errores` several times. */
  lemma {:induction false} NotExecutedIsAttempted(reg: Registry, rank: Rank, oracle: Oracle, name: string, st: RunState)
    requires Acyclic(reg, rank) && name !in st.executed
    ensures var r := Run(reg, rank, oracle, name, st);
            if r.ok then r.state.completed != st.completed && r.state.completed[|r.state.completed| - 1] == name
            else |r.state.failed| > |st.failed|
  {
    var r := Run(reg, rank, oracle, name, st);
    if r.ok {
      assert name in reg;
      var pre := RunReqs(reg, rank, oracle, name, reg[name].req, st);
      assert r.state.completed == pre.state.completed + [name];
      assert |r.state.completed| > |st.completed|;
    } else {
      assert r.state.failed == r.state.failed[..|r.state.failed| - 1] + [name];
      assert st.failed <= r.state.failed[..|r.state.failed| - 1];
    }
  }
}
