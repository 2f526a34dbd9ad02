/** Which events lead only through tables in which every ancestor walk ends. */
module Halting {
  import opened Basics
  import opened Scheduler
  import opened ProcessTable
  import opened TableOperations
  import opened Cycles
  import opened Refresh
  import opened Worklist
  import opened Engine
  import opened EngineInvariants

  /** Well-formed, and every ancestor walk ends. */
  ghost predicate Walkable(s: State) {
    WellFormed(s) && Acyclic(s.table)
  }

  // ---------------------------------------------------------------------------------------
  // Safe events
  // ---------------------------------------------------------------------------------------

  ghost predicate SafeNew(s: State, env: Env, pid: Pid, parentPid: Pid, name: string, cmdline: string) {
    SafeInsert(s.table, CreatedProcess(s.table, env, pid, parentPid, name, cmdline))
  }

  ghost predicate SafeTask(s: State, env: Env, pid: Pid) {
    pid !in s.table.byPid && env.parentId(pid).Some? && env.cmdline(pid).Some? ==>
      SafeNew(s, env, pid, env.parentId(pid).value, BaseName(env.cmdline(pid).value), env.cmdline(pid).value)
  }

  ghost predicate SafeTasks(s: State, env: Env, tasks: seq<Pid>) {
    tasks != [] ==>
      var init := tasks[..|tasks| - 1];
      SafeTasks(s, env, init) && SafeTask(AssignTasks(s, env, init), env, tasks[|tasks| - 1])
  }

  ghost predicate SafeChildren(s: State, env: Env, pid: Pid) {
    SafeTasks(s, env, Tasks(env.children, pid))
  }

  /** No circle of parents will be linked, and the scan below the foreground is safe. */
  ghost predicate SafeRefresh(s: State, env: Env) {
    env.listing.Some? ==>
      && (forall c :: !Circle(s.table, ListedParents(env, env.listing.value), c))
      && var s1 := BeforeForeground(s, env);
         (s1.foreground.Some? ==> SafeChildren(s1.(foreground := None), env, s1.foreground.value))
  }

  /** No record that the event inserts goes over its own parent or a cell above that, and no circle is listed. */
  ghost predicate Safe(s: State, input: Input) {
    var env := input.env;
    && ValidEnv(env)
    && match input.event
       case ExecCreate(pid, parentPid, name, cmdline) =>
         SafeNew(s, env, pid, parentPid, name, cmdline) && SafeChildren(AssignNew(s, env, pid, parentPid, name, cmdline), env, pid)
       case RefreshProcessMap => SafeRefresh(s, env)
       case SetForegroundProcess(pid) => SafeChildren(s, env, pid)
       case PipewireAdd(pid) => SafeChildren(s, env, pid)
       case PipewireRemove(_) => true
       case ReloadConfiguration(_) => true
  }

  // ---------------------------------------------------------------------------------------
  // What safe events keep
  // ---------------------------------------------------------------------------------------

  lemma ShapeKeepsAcyclic(t: Table, u: Table)
    requires SameShape(t, u)
    ensures Acyclic(t) <==> Acyclic(u)
  {
    ShapeKeepsNames(t, u);
    hide SameShape, Acyclic;
    if Acyclic(t) {
      SameLinksAcyclic(t, u);
    }
    if Acyclic(u) {
      SameLinksAcyclic(u, t);
    }
  }

  /** Recording a process keeps all walks finite exactly when its insertion is safe. */
  lemma RecordingWalksExactly(s: State, env: Env, pid: Pid, parentPid: Pid, name: string, cmdline: string)
    requires Walkable(s)
    ensures Walkable(AssignNew(s, env, pid, parentPid, name, cmdline)) <==> SafeNew(s, env, pid, parentPid, name, cmdline)
  {
    var p := CreatedProcess(s.table, env, pid, parentPid, name, cmdline);
    AssignNewKeepsWellFormed(s, env, pid, parentPid, name, cmdline);
    AssignNewRecordsOne(s, env, pid, parentPid, name, cmdline);
    CreatedLinksTrue(s.table, env, pid, parentPid, name, cmdline);
    hide AssignNew, Insert, CreatedProcess, Linked, PipewireSound, SameShape, SafeInsert, Acyclic;
    InsertKeepsAcyclicExactly(s.table, p);
    hide Sound;
    ShapeKeepsAcyclic(Insert(s.table, p), AssignNew(s, env, pid, parentPid, name, cmdline).table);
  }

  lemma TaskWalksExactly(s: State, env: Env, pid: Pid)
    requires Walkable(s)
    ensures Walkable(AssignTask(s, env, pid)) <==> SafeTask(s, env, pid)
  {
    if env.parentId(pid).Some? && env.cmdline(pid).Some? {
      var cmdline := env.cmdline(pid).value;
      RecordingWalksExactly(s, env, pid, env.parentId(pid).value, BaseName(cmdline), cmdline);
      hide AssignNew, Walkable, SafeNew;
    }
  }

  /** A scan meets only tables in which every walk ends exactly when each of its insertions is safe. */
  lemma {:induction false} TasksWalkExactly(s: State, env: Env, tasks: seq<Pid>)
    requires Walkable(s)
    ensures SafeTasks(s, env, tasks) <==> forall n :: 0 <= n <= |tasks| ==> Walkable(AssignTasks(s, env, tasks[..n]))
  {
    hide Walkable, AssignTask, SafeTask;
    assert tasks[..|tasks|] == tasks;
    if tasks != [] {
      var init, pid := tasks[..|tasks| - 1], tasks[|tasks| - 1];
      TasksWalkExactly(s, env, init);
      assert forall n :: 0 <= n <= |init| ==> init[..n] == tasks[..n];
      assert init[..|init|] == init;
      if Walkable(AssignTasks(s, env, init)) {
        TaskWalksExactly(AssignTasks(s, env, init), env, pid);
      }
    }
  }

  lemma TasksWalkable(s: State, env: Env, tasks: seq<Pid>)
    requires Walkable(s) && SafeTasks(s, env, tasks)
    ensures Walkable(AssignTasks(s, env, tasks))
  {
    TasksWalkExactly(s, env, tasks);
    assert tasks[..|tasks|] == tasks;
  }

  lemma ChildrenWalkable(s: State, env: Env, pid: Pid)
    requires Walkable(s) && SafeChildren(s, env, pid)
    ensures Walkable(AssignChildren(s, env, pid))
  {
    hide Walkable, Tasks, AssignTasks;
    TasksWalkable(s, env, Tasks(env.children, pid));
  }

  /** A sweep leaves records without links. */
  lemma SweptIsAcyclic(t: Table, ps: seq<Process>)
    requires Sound(t) && IsListing(ps)
    ensures Acyclic(Refreshed(t, ps, map[]))
  {
    var u := Refreshed(t, ps, map[]);
    RefreshedUnlinked(t, ps);
    hide Refreshed;
    forall r | r in u.cells
      ensures Ends(u, Some(r))
    {
      assert Walk(u, u.cells[r].parent, |u.cells| + 1) == [];
      EndsBefore(u, r);
    }
  }

  lemma RefreshedUnlinked(t: Table, ps: seq<Process>)
    requires Sound(t) && IsListing(ps)
    ensures forall r :: r in Refreshed(t, ps, map[]).cells ==> Refreshed(t, ps, map[]).cells[r].parent == None
  {
    var a, u := Absorb(Prepare(t), ps), Refreshed(t, ps, map[]);
    forall r | r in u.cells
      ensures u.cells[r].parent == None
    {
      RefreshedFromMarked(t, ps, map[]);
      AbsorbedUnlinked(t, ps, r);
      hide Absorb, Refreshed, IsListing, Sound;
    }
  }

  lemma GarbageCleanWalkable(s: State, env: Env)
    requires Walkable(s) && ValidEnv(env)
    ensures Walkable(GarbageClean(s, env))
  {
    GarbageCleanKeepsWellFormed(s, env);
    if s.gcCounter >= GC_INTERVAL && env.listing.Some? {
      var ps := Listed(env, env.listing.value, true);
      SweepIsRefresh(s.table, ps);
      ListedIsListing(env, env.listing.value, true);
      hide Swept, Refreshed, Listed, IsListing, Acyclic, Sound;
      SweptIsAcyclic(s.table, ps);
    }
  }

  lemma DecidingWalkable(s: State, env: Env)
    requires Walkable(s)
    ensures Walkable(AssignAndApplyAll(s, env))
  {
    AssignAndApplyAllKeepsWellFormed(s, env);
    DecideKeepsShape(s.config, s.table, s.table.byKey.Values);
    ShapeKeepsAcyclic(s.table, AssignAndApplyAll(s, env).table);
  }

  lemma SetForegroundWalkable(s: State, env: Env, pid: Pid)
    requires Walkable(s) && SafeChildren(s, env, pid)
    ensures Walkable(SetForeground(s, env, pid))
  {
    SetForegroundKeepsWellFormed(s, env, pid);
    ChildrenWalkable(s, env, pid);
    hide AssignChildren, WellFormed, Acyclic;
  }

  lemma SetPipewireWalkable(s: State, env: Env, pid: Pid)
    requires Walkable(s) && SafeChildren(s, env, pid)
    ensures Walkable(SetPipewire(s, env, pid))
  {
    hide AssignChildren, WellFormed, HoldSome, HoldWrites, Acyclic, Assignment;
    SetPipewireKeepsWellFormed(s, env, pid);
    ChildrenWalkable(s, env, pid);
    var t := AssignChildren(s, env, pid).table;
    HoldKeepsShape(t, pid, t.byKey.Values);
    ShapeKeepsAcyclic(t, HoldSome(t, pid, t.byKey.Values));
  }

  lemma RemovePipewireWalkable(s: State, env: Env, pid: Pid)
    requires Walkable(s)
    ensures Walkable(RemovePipewire(s, env, pid))
  {
    RemovePipewireKeepsWellFormed(s, env, pid);
    ReleaseKeepsShape(s.table, pid, s.table.byKey.Values);
    ShapeKeepsAcyclic(s.table, ReleaseSome(s.table, pid, s.table.byKey.Values));
    hide WellFormed, ReleaseSome, ReleaseWrites, Acyclic;
  }

  lemma DrainWalkable(t: Table, drain: set<Key>)
    requires Sound(t) && Linked(t) && Acyclic(t)
    ensures Sound(t.(drain := drain)) && Linked(t.(drain := drain)) && Acyclic(t.(drain := drain))
  {
    DrainKeepsSound(t, drain);
    assert forall r :: r in t.cells ==> LinkedAt(t, r);
    hide Sound;
    SameLinksAcyclic(t, t.(drain := drain));
  }

  lemma ForgettingWalkable(s: State)
    requires Walkable(s)
    ensures Walkable(s.(foreground := None))
  {
  }

  lemma ReloadWalkable(s: State, config: SchedulerConfig)
    requires Walkable(s)
    ensures Walkable(s.(config := config))
  {
  }

  /** A refresh leaves only finite walks exactly when it links no circle of parents. */
  lemma RefreshingWalksExactly(s: State, env: Env)
    requires WellFormed(s) && ValidEnv(env) && env.listing.Some?
    ensures var pids := env.listing.value;
            Walkable(s.(table := Refreshed(s.table, Listed(env, pids, false), ListedParents(env, pids)))) <==>
              forall c :: !Circle(s.table, ListedParents(env, pids), c)
  {
    var pids := env.listing.value;
    RefreshKeepsTable(s, env, false, ListedParents(env, pids));
    ListedIsListing(env, pids, false);
    ListedParentsFit(env, pids);
    hide Refreshed, Listed, ListedParents, IsListing, Records, Linked, ValidEnv, Acyclic, Circle, PipewireSound;
    RefreshIsAcyclicExactly(s.table, Listed(env, pids, false), ListedParents(env, pids));
    hide Sound;
  }

  lemma ProcessMapRefreshWalkable(s: State, env: Env)
    requires Walkable(s) && ValidEnv(env) && SafeRefresh(s, env)
    ensures Walkable(ProcessMapRefresh(s, env))
  {
    if env.listing.None? {
      DrainWalkable(s.table, s.table.byKey.Keys);
    } else {
      var parents := ListedParents(env, env.listing.value);
      RefreshingWalksExactly(s, env);
      var s0 := s.(table := Refreshed(s.table, Listed(env, env.listing.value, false), parents));
      hide Refreshed, Listed, ListedParents, Walkable, SetForeground, ValidEnv, Acyclic, Circle;
      DecidingWalkable(s0, env);
      var s1 := AssignAndApplyAll(s0, env);
      hide AssignAndApplyAll, SafeChildren;
      if s1.foreground.Some? {
        ForgettingWalkable(s1);
        SetForegroundWalkable(s1.(foreground := None), env, s1.foreground.value);
      }
    }
  }

  /** A safe event ends in a state in which every walk ends. */
  lemma StepWalkable(s: State, input: Input)
    requires Walkable(s) && Safe(s, input)
    ensures Walkable(Step(s, input))
  {
    hide Walkable, ValidEnv, AssignNew, AssignChildren, GarbageClean, ProcessMapRefresh, SetForeground, SetPipewire,
         RemovePipewire, SafeNew, SafeChildren, SafeRefresh;
    var env := input.env;
    match input.event
    case ExecCreate(pid, parentPid, name, cmdline) =>
      var s1 := AssignNew(s, env, pid, parentPid, name, cmdline);
      RecordingWalksExactly(s, env, pid, parentPid, name, cmdline);
      ChildrenWalkable(s1, env, pid);
      GarbageCleanWalkable(AssignChildren(s1, env, pid), env);
    case RefreshProcessMap =>
      ProcessMapRefreshWalkable(s, env);
    case SetForegroundProcess(pid) =>
      SetForegroundWalkable(s, env, pid);
      GarbageCleanWalkable(SetForeground(s, env, pid), env);
    case PipewireAdd(pid) =>
      SetPipewireWalkable(s, env, pid);
      GarbageCleanWalkable(SetPipewire(s, env, pid), env);
    case PipewireRemove(pid) =>
      RemovePipewireWalkable(s, env, pid);
    case ReloadConfiguration(config) =>
      ReloadWalkable(s, config);
  }

  // ---------------------------------------------------------------------------------------
  // Runs
  // ---------------------------------------------------------------------------------------

  /** Each input is safe in the state in which it arrives. */
  ghost predicate SafeRun(s: State, inputs: seq<Input>) {
    forall i :: 0 <= i < |inputs| ==> Safe(Run(s, inputs[..i]), inputs[i])
  }

  lemma SafeBefore(s: State, inputs: seq<Input>)
    requires inputs != [] && SafeRun(s, inputs)
    ensures SafeRun(s, inputs[..|inputs| - 1])
  {
    hide Safe, Run;
    var init := inputs[..|inputs| - 1];
    forall i | 0 <= i < |init|
      ensures Safe(Run(s, init[..i]), init[i])
    {
      assert init[..i] == inputs[..i];
    }
  }

  lemma {:induction false} RunWalkable(s: State, inputs: seq<Input>)
    requires Walkable(s) && SafeRun(s, inputs)
    ensures Walkable(Run(s, inputs))
  {
    hide Step, Safe, Walkable;
    if inputs != [] {
      var init := inputs[..|inputs| - 1];
      SafeBefore(s, inputs);
      RunWalkable(s, init);
      StepWalkable(Run(s, init), inputs[|inputs| - 1]);
    }
  }

  /** Walks of a record end, yield the closure of live links, and decide descent by parent pids. */
  ghost predicate WalksWell(t: Table, p: Process, a: Ref, pid: Pid) {
    && Walk(t, p.parent, |t.cells| + 1) == Ancestors(t, p) && NoDuplicates(Ancestors(t, p))
    && (a in Ancestors(t, p) <==> exists chain :: IsChain(t, p.parent, chain) && chain[|chain| - 1] == a)
    && (DescendedFrom(t, p, pid) <==>
          p.parentId == pid || exists q :: q in Ancestors(t, p) && q in t.cells && t.cells[q].parentId == pid)
  }

  lemma AcyclicWalksWell(t: Table, r: Ref, a: Ref, pid: Pid)
    requires Linked(t) && Acyclic(t) && r in t.cells
    ensures WalksWell(t, t.cells[r], a, pid)
  {
    AcyclicEnds(t, t.cells[r].parent);
    WalkEnds(t, t.cells[r].parent, |t.cells|);
    WalkEnds(t, t.cells[r].parent, |t.cells| + 1);
    AncestorsAreClosure(t, t.cells[r], a);
    assert LinkedAt(t, r);
    DescentByParentIds(t, t.cells[r], pid);
    hide Linked, Acyclic, DescendedFrom, IsChain, Ancestors;
  }

  /**
   * In every run of safe events, whatever pids change their parent: the ancestor walk of each
   * tracked process ends, without repetition, and yields exactly the cells that chains of live
   * links lead to; and the process descends from a pid exactly if it or one of these cells
   * names that pid as its parent.
   */
  lemma WalksInRuns(config: SchedulerConfig, inputs: seq<Input>, r: Ref, a: Ref, pid: Pid)
    requires SafeRun(Initial(config), inputs)
    ensures var t := Run(Initial(config), inputs).table;
            r in t.cells ==> WalksWell(t, t.cells[r], a, pid)
  {
    hide Run, SafeRun, Walkable, WalksWell, Initial;
    InitialIsWalkable(config);
    RunWalkable(Initial(config), inputs);
    var s := Run(Initial(config), inputs);
    if r in s.table.cells {
      WalkableWalksWell(s, r, a, pid);
    }
  }

  lemma InitialIsWalkable(config: SchedulerConfig)
    ensures Walkable(Initial(config))
  {
  }

  lemma WalkableWalksWell(s: State, r: Ref, a: Ref, pid: Pid)
    requires Walkable(s) && r in s.table.cells
    ensures WalksWell(s.table, s.table.cells[r], a, pid)
  {
    hide WalksWell, Acyclic;
    AcyclicWalksWell(s.table, r, a, pid);
  }
}
