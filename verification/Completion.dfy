/**
 * Which events are handled to the end: those in which every search among ancestors that is made
 * succeeds or comes to the end of its walk.
 */
module Completion {
  import opened Basics
  import opened Scheduler
  import opened ProcessTable
  import opened TableOperations
  import opened Classification
  import opened Worklist
  import opened Cycles
  import opened Searches
  import opened Engine
  import opened EngineInvariants
  import opened Halting

  // ---------------------------------------------------------------------------------------
  // Events
  // ---------------------------------------------------------------------------------------

  ghost predicate HolderSearchHalts(t: Table, p: Process, pids: seq<Pid>) {
    PipewireAncestor(t, Ancestors(t, p), pids).Some? || Ends(t, p.parent)
  }

  ghost predicate RecordingHalts(t: Table, p: Process, pids: seq<Pid>) {
    var u, r := Insert(t, p), InsertRef(t, p);
    r in u.cells ==> HolderSearchHalts(u, u.cells[r], pids)
  }

  /** The search for a pipewire ancestor halts, and then the decision. */
  ghost predicate NewHalts(s: State, env: Env, pid: Pid, parentPid: Pid, name: string, cmdline: string) {
    var p := CreatedProcess(s.table, env, pid, parentPid, name, cmdline);
    var t, r := Recorded(s.table, p, s.pipewireProcesses), InsertRef(s.table, p);
    && RecordingHalts(s.table, p, s.pipewireProcesses)
    && (r in t.cells ==> DecisionHalts(s.config, t, t.cells[r]))
  }

  ghost predicate TaskHalts(s: State, env: Env, pid: Pid) {
    pid !in s.table.byPid && env.parentId(pid).Some? && env.cmdline(pid).Some? ==>
      NewHalts(s, env, pid, env.parentId(pid).value, BaseName(env.cmdline(pid).value), env.cmdline(pid).value)
  }

  ghost predicate TasksHalt(s: State, env: Env, tasks: seq<Pid>) {
    forall i :: 0 <= i < |tasks| ==> TaskHalts(AssignTasks(s, env, tasks[..i]), env, tasks[i])
  }

  ghost predicate ChildrenHalt(s: State, env: Env, pid: Pid) {
    TasksHalt(s, env, Tasks(env.children, pid))
  }

  ghost predicate DecisionsHalt(s: State) {
    forall r :: r in s.table.cells ==> DecisionHalts(s.config, s.table, s.table.cells[r])
  }

  /** The descent of every assignable process but the root itself is searched. */
  ghost predicate DescentAtHalts(t: Table, r: Ref, pid: Pid)
    requires r in t.cells
  {
    Assignment(t, t.cells[r].id) == Assignable && t.cells[r].id != pid ==> DescentHalts(t, t.cells[r], pid)
  }

  ghost predicate DescentsHalt(t: Table, pid: Pid) {
    forall r :: r in t.cells ==> DescentAtHalts(t, r, pid)
  }

  ghost predicate SetForegroundHalts(s: State, env: Env, pid: Pid) {
    ChildrenHalt(s, env, pid) && (s.config.foreground.Some? ==> DescentsHalt(AssignChildren(s, env, pid).table, pid))
  }

  ghost predicate SetPipewireHalts(s: State, env: Env, pid: Pid) {
    var t := AssignChildren(s, env, pid).table;
    && ChildrenHalt(s, env, pid)
    && (s.config.pipewire.Some? && (pid in s.pipewireProcesses || pid !in t.byPid || Assignment(t, pid) == Assignable) ==>
          DescentsHalt(t, pid))
  }

  /** The decisions of the swept table halt, and then the new partition. */
  ghost predicate RefreshHalts(s: State, env: Env) {
    env.listing.Some? ==>
      var pids := env.listing.value;
      && DecisionsHalt(s.(table := Refreshed(s.table, Listed(env, pids, false), ListedParents(env, pids))))
      && var s1 := BeforeForeground(s, env);
         (s1.foreground.Some? ==> SetForegroundHalts(s1.(foreground := None), env, s1.foreground.value))
  }

  ghost predicate Halts(s: State, input: Input) {
    var env := input.env;
    && ValidEnv(env)
    && match input.event
       case ExecCreate(pid, parentPid, name, cmdline) =>
         NewHalts(s, env, pid, parentPid, name, cmdline) && ChildrenHalt(AssignNew(s, env, pid, parentPid, name, cmdline), env, pid)
       case RefreshProcessMap => RefreshHalts(s, env)
       case SetForegroundProcess(pid) => SetForegroundHalts(s, env, pid)
       case PipewireAdd(pid) => SetPipewireHalts(s, env, pid)
       case PipewireRemove(_) => true
       case ReloadConfiguration(_) => true
  }

  ghost predicate HaltingRun(s: State, inputs: seq<Input>) {
    forall i :: 0 <= i < |inputs| ==> Halts(Run(s, inputs[..i]), inputs[i])
  }

  // ---------------------------------------------------------------------------------------
  // Halting in the course of a loop
  // ---------------------------------------------------------------------------------------

  lemma SameDecisionHalts(c: SchedulerConfig, t: Table, u: Table, p: Process, q: Process)
    requires SameNames(t, u) && SameEvidence(t, p, u, q) && p.assignedPriority == q.assignedPriority
    ensures DecisionHalts(c, t, p) <==> DecisionHalts(c, u, q)
  {
    hide SameNames, ConditionHalts, ExceptionHalts, ConditionMet, ExceptionMet, IsException;
    SameSearches(c, t, u, p, q);
    SameConditions(c, t, u, p, q);
    SameProfilesHalt(c, t, u, p, q, c.order);
    hide ProfilesHalt;
  }

  lemma {:induction false} HolderAt(t: Table, walk: seq<Ref>, pids: seq<Pid>, k: nat)
    requires k < |walk| && walk[k] in t.cells && FirstNamed(t.cells[walk[k]], pids).Some?
    requires forall r :: r in walk[..k] && r in t.cells ==> FirstNamed(t.cells[r], pids).None?
    ensures PipewireAncestor(t, walk, pids) == FirstNamed(t.cells[walk[k]], pids)
  {
    hide FirstNamed;
    if k > 0 {
      assert walk[..k] == [walk[0]] + walk[1..][..k - 1];
      HolderAt(t, walk[1..], pids, k - 1);
    }
  }

  lemma {:induction false} NoHolder(t: Table, walk: seq<Ref>, pids: seq<Pid>)
    requires forall r :: r in walk && r in t.cells ==> FirstNamed(t.cells[r], pids).None?
    ensures PipewireAncestor(t, walk, pids) == None
  {
    hide FirstNamed;
    if walk != [] {
      NoHolder(t, walk[1..], pids);
    }
  }

  // ---------------------------------------------------------------------------------------
  // Where every walk ends, everything halts
  // ---------------------------------------------------------------------------------------

  lemma {:induction false} AcyclicProfilesHalt(c: SchedulerConfig, t: Table, p: Process, order: seq<string>)
    requires Ends(t, p.parent)
    ensures ProfilesHalt(c, t, p, order)
  {
    if order != [] {
      AcyclicProfilesHalt(c, t, p, order[1..]);
    }
    hide Ends, ConditionMet, QualifiesByName, Named;
  }

  lemma AcyclicDecides(c: SchedulerConfig, t: Table, p: Process)
    requires Acyclic(t)
    ensures DecisionHalts(c, t, p)
  {
    AcyclicEnds(t, p.parent);
    AcyclicProfilesHalt(c, t, p, c.order);
    hide Ends, Acyclic, ProfilesHalt, Named, ReachesConditions, ExceptionMet;
  }

  lemma AcyclicDescends(t: Table, pid: Pid)
    requires Acyclic(t)
    ensures DescentsHalt(t, pid)
  {
    hide Ends, DescendedFrom, Assignment;
    forall r | r in t.cells
      ensures Ends(t, t.cells[r].parent)
    {
      AcyclicEnds(t, t.cells[r].parent);
    }
  }

  lemma SafeNewHalts(s: State, env: Env, pid: Pid, parentPid: Pid, name: string, cmdline: string)
    requires Walkable(s) && SafeNew(s, env, pid, parentPid, name, cmdline)
    ensures NewHalts(s, env, pid, parentPid, name, cmdline)
  {
    hide Insert, InsertRef, CreatedProcess, SafeInsert, Acyclic, Recorded, Linked, PipewireSound, SameShape,
         DecisionHalts, Ends;
    var p := CreatedProcess(s.table, env, pid, parentPid, name, cmdline);
    var u, t, r := Insert(s.table, p), Recorded(s.table, p, s.pipewireProcesses), InsertRef(s.table, p);
    CreatedLinksTrue(s.table, env, pid, parentPid, name, cmdline);
    InsertKeepsAcyclicExactly(s.table, p);
    CreatedUnheld(s.table, env, pid, parentPid, name, cmdline);
    RecordedIs(s.table, p, s.pipewireProcesses);
    ShapeKeepsAcyclic(u, t);
    hide Sound;
    if r in u.cells {
      AcyclicEnds(u, u.cells[r].parent);
    }
    if r in t.cells {
      AcyclicDecides(s.config, t, t.cells[r]);
    }
  }

  lemma CreatedUnheld(t: Table, env: Env, pid: Pid, parentPid: Pid, name: string, cmdline: string)
    ensures CreatedProcess(t, env, pid, parentPid, name, cmdline).pipewireAncestor == None
  {
  }

  lemma TasksHaltMore(s: State, env: Env, tasks: seq<Pid>)
    requires tasks != [] && TasksHalt(s, env, tasks[..|tasks| - 1])
    requires TaskHalts(AssignTasks(s, env, tasks[..|tasks| - 1]), env, tasks[|tasks| - 1])
    ensures TasksHalt(s, env, tasks)
  {
    hide TaskHalts, AssignTasks;
    var init := tasks[..|tasks| - 1];
    assert forall i :: 0 <= i < |init| ==> init[..i] == tasks[..i] && init[i] == tasks[i];
  }

  lemma {:induction false} SafeTasksHalt(s: State, env: Env, tasks: seq<Pid>)
    requires Walkable(s) && SafeTasks(s, env, tasks)
    ensures TasksHalt(s, env, tasks)
  {
    if tasks != [] {
      hide Walkable, AssignTasks, SafeNew, NewHalts, TasksHalt;
      var init, pid := tasks[..|tasks| - 1], tasks[|tasks| - 1];
      SafeTasksHalt(s, env, init);
      TasksWalkable(s, env, init);
      var b := AssignTasks(s, env, init);
      if pid !in b.table.byPid && env.parentId(pid).Some? && env.cmdline(pid).Some? {
        SafeNewHalts(b, env, pid, env.parentId(pid).value, BaseName(env.cmdline(pid).value), env.cmdline(pid).value);
      }
      TasksHaltMore(s, env, tasks);
    }
  }

  lemma SafeChildrenHalt(s: State, env: Env, pid: Pid)
    requires Walkable(s) && SafeChildren(s, env, pid)
    ensures ChildrenHalt(s, env, pid) && DescentsHalt(AssignChildren(s, env, pid).table, pid)
  {
    hide TasksHalt, SafeTasks, Tasks, AssignTasks, Acyclic, WellFormed, DescentsHalt;
    SafeTasksHalt(s, env, Tasks(env.children, pid));
    ChildrenWalkable(s, env, pid);
    AcyclicDescends(AssignChildren(s, env, pid).table, pid);
  }

  lemma SafeRefreshHalts(s: State, env: Env)
    requires Walkable(s) && ValidEnv(env) && SafeRefresh(s, env)
    ensures RefreshHalts(s, env)
  {
    hide Refreshed, Listed, ListedParents, WellFormed, Acyclic, Circle, ChildrenHalt, DescentsHalt, SafeChildren,
         DecisionHalts, AssignAndApplyAll, AssignChildren;
    if env.listing.Some? {
      var pids := env.listing.value;
      var s0 := s.(table := Refreshed(s.table, Listed(env, pids, false), ListedParents(env, pids)));
      RefreshingWalksExactly(s, env);
      forall r | r in s0.table.cells
        ensures DecisionHalts(s0.config, s0.table, s0.table.cells[r])
      {
        AcyclicDecides(s0.config, s0.table, s0.table.cells[r]);
      }
      DecidingWalkable(s0, env);
      var s1 := BeforeForeground(s, env);
      if s1.foreground.Some? {
        ForgettingWalkable(s1);
        SafeChildrenHalt(s1.(foreground := None), env, s1.foreground.value);
      }
    }
  }

  /** A safe event is handled to the end, whatever its searches find. */
  lemma SafeHalts(s: State, input: Input)
    requires Walkable(s) && Safe(s, input)
    ensures Halts(s, input)
  {
    hide Walkable, ValidEnv, AssignNew, AssignChildren, SafeNew, SafeChildren, SafeRefresh, NewHalts,
         ChildrenHalt, RefreshHalts, DescentsHalt, Assignment;
    var env := input.env;
    match input.event
    case ExecCreate(pid, parentPid, name, cmdline) =>
      SafeNewHalts(s, env, pid, parentPid, name, cmdline);
      RecordingWalksExactly(s, env, pid, parentPid, name, cmdline);
      SafeChildrenHalt(AssignNew(s, env, pid, parentPid, name, cmdline), env, pid);
    case RefreshProcessMap =>
      SafeRefreshHalts(s, env);
    case SetForegroundProcess(pid) =>
      SafeChildrenHalt(s, env, pid);
    case PipewireAdd(pid) =>
      SafeChildrenHalt(s, env, pid);
    case PipewireRemove(_) =>
    case ReloadConfiguration(_) =>
  }

  lemma SafeRunHalts(s: State, inputs: seq<Input>)
    requires Walkable(s) && SafeRun(s, inputs)
    ensures HaltingRun(s, inputs)
  {
    hide Walkable, Safe, Halts, Run;
    forall i | 0 <= i < |inputs|
      ensures Halts(Run(s, inputs[..i]), inputs[i])
    {
      SafePrefix(s, inputs, i);
      RunWalkable(s, inputs[..i]);
      SafeHalts(Run(s, inputs[..i]), inputs[i]);
    }
  }

  lemma SafePrefix(s: State, inputs: seq<Input>, n: nat)
    requires n <= |inputs| && SafeRun(s, inputs)
    ensures SafeRun(s, inputs[..n])
  {
    hide Safe, Run;
    var before := inputs[..n];
    forall i | 0 <= i < n
      ensures Safe(Run(s, before[..i]), before[i])
    {
      assert before[..i] == inputs[..i];
    }
  }
}
