/** As long as the kernel's parent pids run in no circle, every event is safe. */
module Ranks {
  import opened Basics
  import opened ProcessTable
  import opened TableOperations
  import opened Cycles
  import opened Refresh
  import opened Worklist
  import opened Engine
  import opened EngineInvariants
  import opened Halting

  /** The parents read in this world respect the rank; an unreadable parent counts as pid 0. */
  ghost predicate RankedEnv(env: Env, rank: Pid -> nat) {
    && (forall pid :: env.parentId(pid).Some? ==> rank(env.parentId(pid).value) < rank(pid))
    && (forall pid :: env.cmdline(pid).Some? && env.parentId(pid).None? ==> rank(0) < rank(pid))
  }

  /** The world respects the rank, and so does the parent a new process is announced with. */
  ghost predicate RankedInput(input: Input, rank: Pid -> nat) {
    && ValidEnv(input.env) && RankedEnv(input.env, rank)
    && (input.event.ExecCreate? ==> rank(input.event.parentPid) < rank(input.event.pid))
  }

  ghost predicate WellRanked(s: State, rank: Pid -> nat) {
    WellFormed(s) && Ranked(s.table, rank)
  }

  lemma WellRankedIsWalkable(s: State, rank: Pid -> nat)
    requires WellRanked(s, rank)
    ensures Walkable(s)
  {
    RankedIsAcyclic(s.table, rank);
  }

  /** A record cannot go over a cell above its parent: that cell would have to rank lower than itself. */
  lemma NewIsSafe(s: State, env: Env, pid: Pid, parentPid: Pid, name: string, cmdline: string, rank: Pid -> nat)
    requires WellRanked(s, rank) && rank(parentPid) < rank(pid)
    ensures SafeNew(s, env, pid, parentPid, name, cmdline)
  {
    var t, p := s.table, CreatedProcess(s.table, env, pid, parentPid, name, cmdline);
    assert p.HashId() == Key(pid, parentPid);
    CreatedLinksTrue(t, env, pid, parentPid, name, cmdline);
    hide CreatedProcess;
    WalkDistinct(t, p.parent, |t.cells|, rank);
    if p.HashId() in t.byKey {
      assert t.cells[InsertRef(t, p)].id == pid;
    }
    hide PipewireSound, Linked, Ranked, PidIndexed, Allocated;
  }

  lemma NewRanked(s: State, env: Env, pid: Pid, parentPid: Pid, name: string, cmdline: string, rank: Pid -> nat)
    requires WellRanked(s, rank) && rank(parentPid) < rank(pid)
    ensures WellRanked(AssignNew(s, env, pid, parentPid, name, cmdline), rank)
  {
    var p := CreatedProcess(s.table, env, pid, parentPid, name, cmdline);
    assert p.id == pid && p.parentId == parentPid;
    AssignNewKeepsWellFormed(s, env, pid, parentPid, name, cmdline);
    AssignNewRecordsOne(s, env, pid, parentPid, name, cmdline);
    hide AssignNew, Insert, CreatedProcess, Sound, Linked, PipewireSound, SameShape;
    InsertKeepsRanked(s.table, p, rank);
    ShapeKeepsRanked(Insert(s.table, p), AssignNew(s, env, pid, parentPid, name, cmdline).table, rank);
  }

  lemma {:induction false} TasksRanked(s: State, env: Env, tasks: seq<Pid>, rank: Pid -> nat)
    requires WellRanked(s, rank) && RankedEnv(env, rank)
    ensures WellRanked(AssignTasks(s, env, tasks), rank) && SafeTasks(s, env, tasks)
  {
    hide WellRanked, AssignNew, SafeNew;
    if tasks != [] {
      var before, pid := AssignTasks(s, env, tasks[..|tasks| - 1]), tasks[|tasks| - 1];
      TasksRanked(s, env, tasks[..|tasks| - 1], rank);
      if env.parentId(pid).Some? && env.cmdline(pid).Some? {
        var cmdline := env.cmdline(pid).value;
        NewIsSafe(before, env, pid, env.parentId(pid).value, BaseName(cmdline), cmdline, rank);
        NewRanked(before, env, pid, env.parentId(pid).value, BaseName(cmdline), cmdline, rank);
      }
    }
  }

  lemma ChildrenRanked(s: State, env: Env, pid: Pid, rank: Pid -> nat)
    requires WellRanked(s, rank) && RankedEnv(env, rank)
    ensures WellRanked(AssignChildren(s, env, pid), rank) && SafeChildren(s, env, pid)
  {
    hide WellRanked, Tasks, AssignTasks;
    TasksRanked(s, env, Tasks(env.children, pid), rank);
  }

  lemma SweepRanked(s: State, env: Env, bare: bool, parents: map<Pid, Pid>, rank: Pid -> nat)
    requires WellRanked(s, rank) && ValidEnv(env) && RankedEnv(env, rank) && env.listing.Some?
    requires parents == if bare then map[] else ListedParents(env, env.listing.value)
    ensures WellRanked(s.(table := Refreshed(s.table, Listed(env, env.listing.value, bare), parents)), rank)
  {
    var ps := Listed(env, env.listing.value, bare);
    RefreshKeepsTable(s, env, bare, parents);
    ListedIsListing(env, env.listing.value, bare);
    ListedIs(env, env.listing.value, bare);
    hide Listed, ListedParents, Refreshed, IsListing, Linked, PipewireSound;
    RefreshKeepsRanked(s.table, ps, parents, rank);
  }

  lemma CleanRanked(s: State, env: Env, rank: Pid -> nat)
    requires WellRanked(s, rank) && ValidEnv(env) && RankedEnv(env, rank)
    ensures WellRanked(GarbageClean(s, env), rank)
  {
    GarbageCleanKeepsWellFormed(s, env);
    if s.gcCounter >= GC_INTERVAL && env.listing.Some? {
      SweepIsRefresh(s.table, Listed(env, env.listing.value, true));
      SweepRanked(s, env, true, map[], rank);
      hide Swept, Refreshed, Listed, WellFormed;
    }
  }

  lemma DecidingRanked(s: State, env: Env, rank: Pid -> nat)
    requires WellRanked(s, rank)
    ensures WellRanked(AssignAndApplyAll(s, env), rank)
  {
    AssignAndApplyAllKeepsWellFormed(s, env);
    DecideKeepsShape(s.config, s.table, s.table.byKey.Values);
    ShapeKeepsRanked(s.table, AssignAndApplyAll(s, env).table, rank);
  }

  lemma SetForegroundRanked(s: State, env: Env, pid: Pid, rank: Pid -> nat)
    requires WellRanked(s, rank) && RankedEnv(env, rank)
    ensures WellRanked(SetForeground(s, env, pid), rank) && SafeChildren(s, env, pid)
  {
    SetForegroundKeepsWellFormed(s, env, pid);
    ChildrenRanked(s, env, pid, rank);
    hide AssignChildren, WellFormed;
  }

  lemma SetPipewireRanked(s: State, env: Env, pid: Pid, rank: Pid -> nat)
    requires WellRanked(s, rank) && RankedEnv(env, rank)
    ensures WellRanked(SetPipewire(s, env, pid), rank) && SafeChildren(s, env, pid)
  {
    hide AssignChildren, WellFormed, HoldSome, HoldWrites, Ranked, Assignment;
    SetPipewireKeepsWellFormed(s, env, pid);
    ChildrenRanked(s, env, pid, rank);
    var t := AssignChildren(s, env, pid).table;
    HoldKeepsShape(t, pid, t.byKey.Values);
    ShapeKeepsRanked(t, HoldSome(t, pid, t.byKey.Values), rank);
  }

  lemma ReleaseRanked(s: State, env: Env, pid: Pid, rank: Pid -> nat)
    requires WellRanked(s, rank)
    ensures WellRanked(RemovePipewire(s, env, pid), rank)
  {
    RemovePipewireKeepsWellFormed(s, env, pid);
    ReleaseKeepsShape(s.table, pid, s.table.byKey.Values);
    ShapeKeepsRanked(s.table, ReleaseSome(s.table, pid, s.table.byKey.Values), rank);
    hide WellFormed, ReleaseSome, ReleaseWrites, Ranked;
  }

  /** A refresh up to the point where the foreground is set again. */
  lemma BeforeForegroundRanked(s: State, env: Env, rank: Pid -> nat)
    requires WellRanked(s, rank) && ValidEnv(env) && RankedEnv(env, rank) && env.listing.Some?
    ensures WellRanked(BeforeForeground(s, env), rank)
    ensures forall c :: !Circle(s.table, ListedParents(env, env.listing.value), c)
  {
    hide Listed, ListedParents, Refreshed, WellFormed, Ranked, ValidEnv, Acyclic, Circle, AssignAndApplyAll, RankedEnv;
    var parents := ListedParents(env, env.listing.value);
    var s0 := s.(table := Refreshed(s.table, Listed(env, env.listing.value, false), parents));
    SweepRanked(s, env, false, parents, rank);
    WellRankedIsWalkable(s0, rank);
    RefreshingWalksExactly(s, env);
    DecidingRanked(s0, env, rank);
  }

  lemma MapRefreshRanked(s: State, env: Env, rank: Pid -> nat)
    requires WellRanked(s, rank) && ValidEnv(env) && RankedEnv(env, rank)
    ensures WellRanked(ProcessMapRefresh(s, env), rank) && SafeRefresh(s, env)
  {
    if env.listing.None? {
      ProcessMapRefreshKeepsWellFormed(s, env);
    } else {
      hide BeforeForeground, ProcessMapRefresh, WellRanked, SetForeground, ValidEnv, Circle, RankedEnv, SafeChildren;
      RefreshFromBefore(s, env);
      BeforeForegroundRanked(s, env, rank);
      var s1 := BeforeForeground(s, env);
      if s1.foreground.Some? {
        ForgettingRanked(s1, rank);
        SetForegroundRanked(s1.(foreground := None), env, s1.foreground.value, rank);
      }
    }
  }

  lemma ForgettingRanked(s: State, rank: Pid -> nat)
    requires WellRanked(s, rank)
    ensures WellRanked(s.(foreground := None), rank)
  {
  }

  lemma StepRanked(s: State, input: Input, rank: Pid -> nat)
    requires WellRanked(s, rank) && RankedInput(input, rank)
    ensures WellRanked(Step(s, input), rank) && Safe(s, input)
  {
    hide Ranked, RankedEnv, ValidEnv, AssignNew, AssignChildren, GarbageClean, ProcessMapRefresh, SetForeground,
         SetPipewire, RemovePipewire, Sound, Linked, PipewireSound, SafeNew, SafeChildren, SafeRefresh;
    var env := input.env;
    match input.event
    case ExecCreate(pid, parentPid, name, cmdline) =>
      var s1 := AssignNew(s, env, pid, parentPid, name, cmdline);
      NewIsSafe(s, env, pid, parentPid, name, cmdline, rank);
      NewRanked(s, env, pid, parentPid, name, cmdline, rank);
      ChildrenRanked(s1, env, pid, rank);
      CleanRanked(AssignChildren(s1, env, pid), env, rank);
    case RefreshProcessMap =>
      MapRefreshRanked(s, env, rank);
    case SetForegroundProcess(pid) =>
      SetForegroundRanked(s, env, pid, rank);
      CleanRanked(SetForeground(s, env, pid), env, rank);
    case PipewireAdd(pid) =>
      SetPipewireRanked(s, env, pid, rank);
      CleanRanked(SetPipewire(s, env, pid), env, rank);
    case PipewireRemove(pid) =>
      ReleaseRanked(s, env, pid, rank);
    case ReloadConfiguration(config) =>
      assert WellFormed(s.(config := config)) by { ReloadKeepsWellFormed(s, config); }
  }

  /** If one rank orders all the parents that are read in a run, every event of the run is safe. */
  lemma {:induction false} RankedRunsAreSafe(s: State, inputs: seq<Input>, rank: Pid -> nat)
    requires WellRanked(s, rank)
    requires forall i :: 0 <= i < |inputs| ==> RankedInput(inputs[i], rank)
    ensures WellRanked(Run(s, inputs), rank) && SafeRun(s, inputs)
  {
    hide Step, RankedInput, WellRanked, Safe;
    if inputs != [] {
      var init := inputs[..|inputs| - 1];
      RankedRunsAreSafe(s, init, rank);
      StepRanked(Run(s, init), inputs[|inputs| - 1], rank);
      forall i | 0 <= i < |inputs|
        ensures Safe(Run(s, inputs[..i]), inputs[i])
      {
        assert i < |init| ==> inputs[..i] == init[..i];
      }
    }
  }
}
