/**
 * Runs in a world in which no process changes its parent. What the theorems on whole runs ask
 * of the states in between is derived here from the inputs alone.
 */
module StableWorld {
  import opened Basics
  import opened Scheduler
  import opened ProcessTable
  import opened TableOperations
  import opened Refresh
  import opened Classification
  import opened Worklist
  import opened Engine
  import opened EngineInvariants
  import opened Agreement
  import opened WholeRuns
  import Pipeline = PipewirePipeline
  import opened PipewireDelivery

  // ---------------------------------------------------------------------------------------
  // The process tree of the world
  // ---------------------------------------------------------------------------------------

  /** The pid reached from `pid` by `n` steps to a parent. */
  ghost function Up(parentOf: Pid -> Pid, pid: Pid, n: nat): Pid
    decreases n
  {
    if n == 0 then pid else Up(parentOf, parentOf(pid), n - 1)
  }

  ghost predicate Above(parentOf: Pid -> Pid, a: Pid, pid: Pid) {
    exists n: nat :: 0 < n && Up(parentOf, pid, n) == a
  }

  lemma ParentAbove(parentOf: Pid -> Pid, pid: Pid)
    ensures Above(parentOf, parentOf(pid), pid)
  {
    assert Up(parentOf, pid, 1) == Up(parentOf, parentOf(pid), 0) == parentOf(pid);
  }

  lemma AboveParent(parentOf: Pid -> Pid, a: Pid, pid: Pid)
    requires Above(parentOf, a, parentOf(pid))
    ensures Above(parentOf, a, pid)
  {
    var n: nat :| 0 < n && Up(parentOf, parentOf(pid), n) == a;
    assert Up(parentOf, pid, n + 1) == a;
  }

  /** A record that has the parent of the world, and is held only for a process above it. */
  ghost predicate TrueTo(p: Process, parentOf: Pid -> Pid) {
    && p.parentId == parentOf(p.id)
    && (p.pipewireAncestor.Some? ==> Above(parentOf, p.pipewireAncestor.value, p.id))
  }

  ghost predicate Faithful(t: Table, parentOf: Pid -> Pid) {
    forall r :: r in t.cells ==> TrueTo(t.cells[r], parentOf)
  }

  // ---------------------------------------------------------------------------------------
  // Links of the table lead up in the world
  // ---------------------------------------------------------------------------------------

  lemma {:induction false} WalkLeadsUp(t: Table, w: Option<Ref>, n: nat, parentOf: Pid -> Pid, pid: Pid, q: Ref)
    requires Linked(t) && Faithful(t, parentOf) && q in Walk(t, w, n)
    requires w.Some? && w.value in t.cells ==> t.cells[w.value].id == parentOf(pid)
    ensures q in t.cells
    ensures Above(parentOf, t.cells[q].id, pid) && Above(parentOf, t.cells[q].parentId, pid)
    decreases n
  {
    var r := w.value;
    assert LinkedAt(t, r) && TrueTo(t.cells[r], parentOf);
    hide Above, Linked, Faithful;
    ParentAbove(parentOf, pid);
    ParentAbove(parentOf, parentOf(pid));
    AboveParent(parentOf, t.cells[r].parentId, pid);
    if q != r {
      WalkLeadsUp(t, t.cells[r].parent, n - 1, parentOf, parentOf(pid), q);
      AboveParent(parentOf, t.cells[q].id, pid);
      AboveParent(parentOf, t.cells[q].parentId, pid);
    }
  }

  lemma DescentLeadsUp(t: Table, r: Ref, parentOf: Pid -> Pid, a: Pid)
    requires Linked(t) && Faithful(t, parentOf) && r in t.cells && DescendedFrom(t, t.cells[r], a)
    ensures Above(parentOf, a, t.cells[r].id)
  {
    var p := t.cells[r];
    assert LinkedAt(t, r) && TrueTo(p, parentOf);
    if p.parentId == a {
      ParentAbove(parentOf, p.id);
    } else {
      var q :| q in Ancestors(t, p) && q in t.cells && (t.cells[q].id == a || t.cells[q].parentId == a);
      WalkLeadsUp(t, p.parent, |t.cells|, parentOf, p.id, q);
    }
  }

  lemma {:induction false} HolderIsAbove(t: Table, walk: seq<Ref>, pids: seq<Pid>, parentOf: Pid -> Pid, pid: Pid)
    requires forall q :: q in walk ==>
                           q in t.cells && Above(parentOf, t.cells[q].id, pid) && Above(parentOf, t.cells[q].parentId, pid)
    ensures var holder := PipewireAncestor(t, walk, pids);
            holder.Some? ==> Above(parentOf, holder.value, pid)
  {
    hide Above;
    if walk != [] {
      assert walk[0] in walk;
      FirstNamedIsListed(t.cells[walk[0]], pids);
      HolderIsAbove(t, walk[1..], pids, parentOf, pid);
    }
  }

  // ---------------------------------------------------------------------------------------
  // What each operation records is true to the world
  // ---------------------------------------------------------------------------------------

  lemma RecordedFaithful(t: Table, p: Process, pids: seq<Pid>, parentOf: Pid -> Pid)
    requires Sound(t) && Linked(t) && Faithful(t, parentOf) && LinksTrue(t, p)
    requires p.pipewireAncestor == None && p.parentId == parentOf(p.id)
    ensures Faithful(Recorded(t, p, pids), parentOf)
  {
    var u, r := Insert(t, p), InsertRef(t, p);
    InsertKeepsSound(t, p);
    InsertKeepsLinked(t, p);
    InsertFaithful(t, p, parentOf);
    hide Insert, InsertRef, Sound;
    var q := u.cells[r];
    assert LinkedAt(u, r) && TrueTo(q, parentOf);
    forall a | a in Ancestors(u, q)
      ensures a in u.cells && Above(parentOf, u.cells[a].id, q.id) && Above(parentOf, u.cells[a].parentId, q.id)
    {
      WalkLeadsUp(u, q.parent, |u.cells|, parentOf, q.id, a);
    }
    hide Above, Ancestors, Linked;
    HolderIsAbove(u, Ancestors(u, q), pids, parentOf, q.id);
  }

  lemma InsertFaithful(t: Table, p: Process, parentOf: Pid -> Pid)
    requires Sound(t) && Faithful(t, parentOf)
    requires p.pipewireAncestor == None && p.parentId == parentOf(p.id)
    ensures Faithful(Insert(t, p), parentOf)
  {
    assert p.HashId() in t.byKey ==> TrueTo(t.cells[t.byKey[p.HashId()]], parentOf);
  }

  lemma NewFaithful(s: State, env: Env, pid: Pid, parentPid: Pid, name: string, cmdline: string, parentOf: Pid -> Pid)
    requires WellFormed(s) && Faithful(s.table, parentOf) && parentPid == parentOf(pid)
    ensures Faithful(AssignNew(s, env, pid, parentPid, name, cmdline).table, parentOf)
  {
    var p := CreatedProcess(s.table, env, pid, parentPid, name, cmdline);
    CreatedLinksTrue(s.table, env, pid, parentPid, name, cmdline);
    assert p.id == pid && p.parentId == parentPid && p.pipewireAncestor == None;
    RecordedFaithful(s.table, p, s.pipewireProcesses, parentOf);
    hide WellFormed, CreatedProcess, Recorded, InsertRef, LinksTrue, Faithful, Decided, SetCell, ApplyPriority;
    var r, s1 := InsertRef(s.table, p), s.(table := Recorded(s.table, p, s.pipewireProcesses));
    if r in s1.table.cells {
      DecidedFaithful(s.config, s1.table, r, parentOf);
      ApplyPriorityIs(AssignPriority(s1, r), r);
    }
  }

  lemma DecidedFaithful(c: SchedulerConfig, t: Table, r: Ref, parentOf: Pid -> Pid)
    requires r in t.cells && Faithful(t, parentOf)
    ensures r in SetCell(t, r, Decided(c, t, t.cells[r])).cells
    ensures Faithful(SetCell(t, r, Decided(c, t, t.cells[r])), parentOf)
  {
    hide Classify, Above;
  }

  lemma {:induction false} TasksFaithful(s: State, env: Env, tasks: seq<Pid>, parentOf: Pid -> Pid)
    requires WellFormed(s) && Faithful(s.table, parentOf) && StableEnv(env, parentOf)
    ensures Faithful(AssignTasks(s, env, tasks).table, parentOf)
  {
    hide WellFormed, Faithful, AssignNew;
    if tasks != [] {
      var before, pid := AssignTasks(s, env, tasks[..|tasks| - 1]), tasks[|tasks| - 1];
      TasksFaithful(s, env, tasks[..|tasks| - 1], parentOf);
      AssignTasksKeepsWellFormed(s, env, tasks[..|tasks| - 1]);
      if env.parentId(pid).Some? && env.cmdline(pid).Some? {
        var cmdline := env.cmdline(pid).value;
        NewFaithful(before, env, pid, env.parentId(pid).value, BaseName(cmdline), cmdline, parentOf);
      }
    }
  }

  lemma ListedTrue(env: Env, pids: seq<Pid>, bare: bool, parentOf: Pid -> Pid)
    requires StableEnv(env, parentOf)
    ensures forall p :: p in Listed(env, pids, bare) ==> p.pipewireAncestor == None && p.parentId == parentOf(p.id)
  {
    ListedIs(env, pids, bare);
    hide Listed;
  }

  lemma SweepFaithful(t: Table, ps: seq<Process>, parents: map<Pid, Pid>, parentOf: Pid -> Pid)
    requires Sound(t) && Faithful(t, parentOf) && IsListing(ps)
    requires forall p :: p in ps ==> p.pipewireAncestor == None && p.parentId == parentOf(p.id)
    ensures Faithful(Refreshed(t, ps, parents), parentOf)
  {
    var u := Refreshed(t, ps, parents);
    RefreshIsExact(t, ps, parents);
    hide Refreshed, IsListing, TrueTo, RefreshedAs, PidIndexed, Allocated;
    forall r | r in u.cells
      ensures TrueTo(u.cells[r], parentOf)
    {
      var p :| p in ps && p.HashId() == u.cells[r].HashId();
      SurvivorIsTrue(t, u, p, parentOf);
    }
  }

  lemma RefreshedFaithful(t: Table, env: Env, bare: bool, parents: map<Pid, Pid>, parentOf: Pid -> Pid)
    requires Sound(t) && Faithful(t, parentOf) && ValidEnv(env) && StableEnv(env, parentOf) && env.listing.Some?
    ensures Faithful(Refreshed(t, Listed(env, env.listing.value, bare), parents), parentOf)
  {
    ListedIsListing(env, env.listing.value, bare);
    ListedTrue(env, env.listing.value, bare, parentOf);
    hide Refreshed, Listed, IsListing, Faithful, Sound;
    SweepFaithful(t, Listed(env, env.listing.value, bare), parents, parentOf);
  }

  lemma SurvivorIsTrue(t: Table, u: Table, p: Process, parentOf: Pid -> Pid)
    requires Keyed(t) && Faithful(t, parentOf) && Keyed(u) && RefreshedAs(t, u, p)
    requires p.pipewireAncestor == None && p.parentId == parentOf(p.id)
    ensures TrueTo(u.cells[u.byKey[p.HashId()]], parentOf)
  {
    hide Above;
    assert p.HashId() in t.byKey ==> TrueTo(t.cells[t.byKey[p.HashId()]], parentOf);
  }

  lemma CleanFaithful(s: State, env: Env, parentOf: Pid -> Pid)
    requires Sound(s.table) && Faithful(s.table, parentOf) && ValidEnv(env) && StableEnv(env, parentOf)
    ensures Faithful(GarbageClean(s, env).table, parentOf)
  {
    if s.gcCounter >= GC_INTERVAL && env.listing.Some? {
      RefreshedFaithful(s.table, env, true, map[], parentOf);
      SweepIsRefresh(s.table, Listed(env, env.listing.value, true));
      hide Swept, Refreshed, Listed, Sound, Faithful;
    }
  }

  lemma SetForegroundFaithful(s: State, env: Env, pid: Pid, parentOf: Pid -> Pid)
    requires WellFormed(s) && Faithful(s.table, parentOf) && StableEnv(env, parentOf)
    ensures Faithful(SetForeground(s, env, pid).table, parentOf)
  {
    hide WellFormed, Faithful, AssignTasks, Tasks, ApplyAll;
    TasksFaithful(s, env, Tasks(env.children, pid), parentOf);
  }

  lemma DecidingFaithful(s: State, env: Env, parentOf: Pid -> Pid)
    requires Faithful(s.table, parentOf)
    ensures Faithful(AssignAndApplyAll(s, env).table, parentOf)
  {
    hide Classify, Above, ApplyAll;
  }

  lemma MapRefreshFaithful(s: State, env: Env, parentOf: Pid -> Pid)
    requires WellFormed(s) && Faithful(s.table, parentOf) && ValidEnv(env) && StableEnv(env, parentOf)
    ensures Faithful(ProcessMapRefresh(s, env).table, parentOf)
  {
    hide Sound, Linked, PipewireSound, Faithful, Refreshed, Listed, ListedParents, ValidEnv, AssignAndApplyAll,
         SetForeground;
    if env.listing.None? {
      DrainKeepsFaithful(s.table, s.table.byKey.Keys, parentOf);
    } else {
      var parents := ListedParents(env, env.listing.value);
      RefreshKeepsTable(s, env, false, parents);
      RefreshedFaithful(s.table, env, false, parents, parentOf);
      hide WellFormed;
      var s0 := s.(table := Refreshed(s.table, Listed(env, env.listing.value, false), parents));
      AssignAndApplyAllKeepsWellFormed(s0, env);
      DecidingFaithful(s0, env, parentOf);
      var s1 := AssignAndApplyAll(s0, env);
      if s1.foreground.Some? {
        assert WellFormed(s1.(foreground := None)) by { ForgettingIsWellFormed(s1); }
        SetForegroundFaithful(s1.(foreground := None), env, s1.foreground.value, parentOf);
      }
    }
  }

  lemma DrainKeepsFaithful(t: Table, drain: set<Key>, parentOf: Pid -> Pid)
    requires Faithful(t, parentOf)
    ensures Faithful(t.(drain := drain), parentOf)
  {
  }

  lemma HoldFaithful(t: Table, pid: Pid, done: set<Ref>, parentOf: Pid -> Pid)
    requires Linked(t) && Faithful(t, parentOf)
    ensures Faithful(HoldSome(t, pid, done), parentOf)
  {
    forall r | r in t.cells
      ensures TrueTo(HoldSome(t, pid, done).cells[r], parentOf)
    {
      assert TrueTo(t.cells[r], parentOf);
      hide Faithful, Above, Linked, DescendedFrom;
      if HeldBelow(t, r, pid) {
        DescentLeadsUp(t, r, parentOf, pid);
      }
    }
  }

  lemma SetPipewireFaithful(s: State, env: Env, pid: Pid, parentOf: Pid -> Pid)
    requires WellFormed(s) && Faithful(s.table, parentOf) && StableEnv(env, parentOf)
    ensures Faithful(SetPipewire(s, env, pid).table, parentOf)
  {
    hide Faithful, AssignTasks, Tasks, Sound, Linked, HoldSome, HoldWrites, Assignment;
    TasksFaithful(s, env, Tasks(env.children, pid), parentOf);
    AssignTasksKeepsWellFormed(s, env, Tasks(env.children, pid));
    var t := AssignChildren(s, env, pid).table;
    HoldFaithful(t, pid, t.byKey.Values, parentOf);
  }

  lemma ReleaseFaithful(s: State, env: Env, pid: Pid, parentOf: Pid -> Pid)
    requires Faithful(s.table, parentOf)
    ensures Faithful(RemovePipewire(s, env, pid).table, parentOf)
  {
    hide Above, ApplyAll;
  }

  // ---------------------------------------------------------------------------------------
  // Runs
  // ---------------------------------------------------------------------------------------

  /** Whatever is read of a process's parent is what `parentOf` says; an unreadable parent counts as pid 0. */
  ghost predicate StableEnv(env: Env, parentOf: Pid -> Pid) {
    && (forall pid :: env.parentId(pid).Some? ==> env.parentId(pid).value == parentOf(pid))
    && (forall pid :: env.cmdline(pid).Some? && env.parentId(pid).None? ==> parentOf(pid) == 0)
  }

  ghost predicate StableInput(input: Input, parentOf: Pid -> Pid) {
    && ValidEnv(input.env) && StableEnv(input.env, parentOf)
    && (input.event.ExecCreate? ==> input.event.parentPid == parentOf(input.event.pid))
  }

  lemma StepFaithful(s: State, input: Input, parentOf: Pid -> Pid)
    requires WellFormed(s) && Faithful(s.table, parentOf) && StableInput(input, parentOf)
    ensures Faithful(Step(s, input).table, parentOf)
  {
    hide Faithful, StableEnv, ValidEnv, AssignNew, AssignChildren, GarbageClean, ProcessMapRefresh, SetForeground,
         SetPipewire, RemovePipewire, Linked, Sound;
    var env := input.env;
    match input.event
    case ExecCreate(pid, parentPid, name, cmdline) =>
      var s1 := AssignNew(s, env, pid, parentPid, name, cmdline);
      NewFaithful(s, env, pid, parentPid, name, cmdline, parentOf);
      AssignNewKeepsWellFormed(s, env, pid, parentPid, name, cmdline);
      AssignChildrenKeepsWellFormed(s1, env, pid);
      ChildrenFaithful(s1, env, pid, parentOf);
      CleanFaithful(AssignChildren(s1, env, pid), env, parentOf);
    case RefreshProcessMap =>
      MapRefreshFaithful(s, env, parentOf);
    case SetForegroundProcess(pid) =>
      SetForegroundFaithful(s, env, pid, parentOf);
      SetForegroundKeepsWellFormed(s, env, pid);
      CleanFaithful(SetForeground(s, env, pid), env, parentOf);
    case PipewireAdd(pid) =>
      SetPipewireFaithful(s, env, pid, parentOf);
      SetPipewireKeepsWellFormed(s, env, pid);
      CleanFaithful(SetPipewire(s, env, pid), env, parentOf);
    case PipewireRemove(pid) =>
      ReleaseFaithful(s, env, pid, parentOf);
    case ReloadConfiguration(config) =>
  }

  lemma ChildrenFaithful(s: State, env: Env, pid: Pid, parentOf: Pid -> Pid)
    requires WellFormed(s) && Faithful(s.table, parentOf) && StableEnv(env, parentOf)
    ensures Faithful(AssignChildren(s, env, pid).table, parentOf)
  {
    hide WellFormed, Faithful, AssignTasks, Tasks;
    TasksFaithful(s, env, Tasks(env.children, pid), parentOf);
  }

  /**
   * In every run in a stable world, reloads included, each record has the parent pid of the
   * world, and a record is held for pipewire only on account of a process above it.
   */
  lemma {:induction false} RunFaithful(config: SchedulerConfig, inputs: seq<Input>, parentOf: Pid -> Pid)
    requires forall i :: 0 <= i < |inputs| ==> StableInput(inputs[i], parentOf)
    ensures Faithful(Run(Initial(config), inputs).table, parentOf)
  {
    hide Step, StableEnv, WellFormed;
    if inputs != [] {
      var init := inputs[..|inputs| - 1];
      RunFaithful(config, init, parentOf);
      RunKeepsWellFormed(config, init);
      hide Faithful;
      StepFaithful(Run(Initial(config), init), inputs[|inputs| - 1], parentOf);
    }
  }

  lemma FaithfulIsStable(s: State, input: Input, parentOf: Pid -> Pid)
    requires WellFormed(s) && Faithful(s.table, parentOf) && StableInput(input, parentOf)
    ensures Stable(s, input)
  {
    hide Keyed, Allocated, Linked, Above, PipewireSound;
    assert forall pid :: SameParent(s.table, pid, parentOf(pid));
  }

  /** In a stable world, whatever else happens, the pid index finds exactly the tracked processes. */
  lemma IndexesAgreeInStableWorld(config: SchedulerConfig, inputs: seq<Input>, parentOf: Pid -> Pid, pid: Pid, r: Ref)
    requires forall i :: 0 <= i < |inputs| ==> StableInput(inputs[i], parentOf)
    ensures var t := Run(Initial(config), inputs).table;
            pid in t.byPid && t.byPid[pid] == r <==> r in t.cells && t.cells[r].id == pid
  {
    hide Stable, StableInput, Step;
    forall i | 0 <= i < |inputs|
      ensures Stable(Run(Initial(config), inputs[..i]), inputs[i])
    {
      PrefixFaithful(config, inputs, parentOf, i);
      FaithfulIsStable(Run(Initial(config), inputs[..i]), inputs[i], parentOf);
    }
    IndexesAgree(config, inputs);
  }

  lemma PrefixFaithful(config: SchedulerConfig, inputs: seq<Input>, parentOf: Pid -> Pid, i: nat)
    requires forall j :: 0 <= j < |inputs| ==> StableInput(inputs[j], parentOf)
    requires i <= |inputs|
    ensures var s := Run(Initial(config), inputs[..i]);
            WellFormed(s) && Faithful(s.table, parentOf)
  {
    var before := inputs[..i];
    assert forall j :: 0 <= j < i ==> StableInput(before[j], parentOf) && ValidEnv(before[j].env);
    hide WellFormed, Faithful, Run, StableEnv, ValidEnv;
    RunFaithful(config, before, parentOf);
    RunKeepsWellFormed(config, before);
  }

  // ---------------------------------------------------------------------------------------
  // Agreement
  // ---------------------------------------------------------------------------------------

  /** The pids whose last pipewire event so far is an addition. */
  ghost function Playing(inputs: seq<Input>): set<Pid> {
    Pipeline.Managed({}, Trace(inputs))
  }

  ghost predicate ForegroundWasSet(inputs: seq<Input>) {
    exists i :: 0 <= i < |inputs| && inputs[i].event.SetForegroundProcess?
  }

  /**
   * The configuration stays, and if it has a pipewire profile, a pipewire process that goes away does
   * so with a foreground process set and managed, and with no other pipewire process below it.
   */
  ghost predicate Undisturbed(config: SchedulerConfig, inputs: seq<Input>, parentOf: Pid -> Pid, i: nat)
    requires i < |inputs|
  {
    match inputs[i].event
    case ReloadConfiguration(c) => c == config
    case PipewireRemove(a) =>
      config.pipewire.Some? && a in Playing(inputs[..i]) ==>
        && config.foreground.Some? && ForegroundWasSet(inputs[..i])
        && forall b :: b in Playing(inputs[..i]) && b != a ==> !Above(parentOf, a, b)
    case _ => true
  }

  lemma StepForeground(s: State, input: Input)
    requires WellFormed(s) && s.config.foreground.Some?
    requires s.foreground.Some? || input.event.SetForegroundProcess?
    ensures Step(s, input).foreground.Some?
  {
    hide WellFormed, AssignNew, AssignChildren, Hold, Assignment;
    var env := input.env;
    match input.event
    case ExecCreate(pid, parentPid, name, cmdline) =>
      var s1 := AssignNew(s, env, pid, parentPid, name, cmdline);
      AssignNewKeepsWellFormed(s, env, pid, parentPid, name, cmdline);
      AssignNewKeepsLists(s, env, pid, parentPid, name, cmdline);
      AssignChildrenKeepsWellFormed(s1, env, pid);
      CleanKeepsForeground(AssignChildren(s1, env, pid), env);
    case RefreshProcessMap =>
      RefreshKeepsForeground(s, env);
    case SetForegroundProcess(pid) =>
      AssignChildrenKeepsWellFormed(s, env, pid);
      CleanKeepsForeground(SetForeground(s, env, pid), env);
    case PipewireAdd(pid) =>
      AssignChildrenKeepsWellFormed(s, env, pid);
      PipewireKeepsForeground(s, env, pid);
      CleanKeepsForeground(SetPipewire(s, env, pid), env);
    case PipewireRemove(pid) =>
    case ReloadConfiguration(config) =>
  }

  lemma CleanKeepsForeground(s: State, env: Env)
    ensures GarbageClean(s, env).foreground == s.foreground
  {
  }

  lemma PipewireKeepsForeground(s: State, env: Env, pid: Pid)
    requires SameLists(s, AssignChildren(s, env, pid))
    ensures SetPipewire(s, env, pid).foreground == s.foreground
  {
    hide AssignChildren, HoldSome, HoldWrites, Assignment;
  }

  lemma RefreshKeepsForeground(s: State, env: Env)
    requires s.foreground.Some? && s.config.foreground.Some?
    ensures ProcessMapRefresh(s, env).foreground == s.foreground
  {
    hide Refreshed, Listed, ListedParents, DecideSome, ApplyAll, PickWrites, AssignChildren, Worklist.Tasks;
    if env.listing.Some? {
      var t := Refreshed(s.table, Listed(env, env.listing.value, false), ListedParents(env, env.listing.value));
      var s1 := AssignAndApplyAll(s.(table := t), env).(foreground := None);
      TasksKeepConfig(s1, env, Tasks(env.children, s.foreground.value));
      assert AssignChildren(s1, env, s.foreground.value).config == s.config by {
        ChildrenAreTasks(s1, env, s.foreground.value);
      }
    }
  }

  lemma ChildrenAreTasks(s: State, env: Env, pid: Pid)
    ensures AssignChildren(s, env, pid) == AssignTasks(s, env, Tasks(env.children, pid))
  {
  }

  lemma {:induction false} TasksKeepConfig(s: State, env: Env, tasks: seq<Pid>)
    ensures AssignTasks(s, env, tasks).config == s.config
  {
    hide Recorded, CreatedProcess, Decided, Pick;
    if tasks != [] {
      TasksKeepConfig(s, env, tasks[..|tasks| - 1]);
    }
  }

  lemma RemovalIsClean(config: SchedulerConfig, inputs: seq<Input>, parentOf: Pid -> Pid, i: nat, a: Pid)
    requires i < |inputs| && inputs[i].event == PipewireRemove(a) && Undisturbed(config, inputs, parentOf, i)
    requires forall j :: 0 <= j < |inputs| ==> StableInput(inputs[j], parentOf)
    requires var s := Run(Initial(config), inputs[..i]);
             && Covered(s.table) && a in s.pipewireProcesses && config.pipewire.Some? && s.config == config
             && (config.foreground.Some? && ForegroundWasSet(inputs[..i]) ==> s.foreground.Some?)
    ensures CleanRemoval(Run(Initial(config), inputs[..i]), a)
  {
    hide Run, StableEnv, ValidEnv, WellFormed, ForegroundWasSet, Pipeline.Managed, Trace, Above;
    var before := inputs[..i];
    var s := Run(Initial(config), before);
    PrefixFaithful(config, inputs, parentOf, i);
    assert forall j :: 0 <= j < i ==> StableInput(inputs[j], parentOf) && ValidEnv(before[j].env);
    ListWithinTrace(config, before);
    forall r | r in s.table.cells && LetGo(s.table.cells[r], a)
      ensures s.table.cells[r].id == a || s.table.cells[r].id !in s.pipewireProcesses
    {
      assert TrueTo(s.table.cells[r], parentOf);
    }
  }

  /**
   * In a stable world and with a fixed configuration, a run whose pipewire removals happen with a
   * foreground process set and strand no other pipewire process is orderly. This asks nothing of
   * the states in between, and ends with every applied profile as the state calls for.
   */
  lemma {:induction false} UndisturbedRunAgrees(config: SchedulerConfig, inputs: seq<Input>, parentOf: Pid -> Pid)
    requires forall i :: 0 <= i < |inputs| ==> StableInput(inputs[i], parentOf) && Undisturbed(config, inputs, parentOf, i)
    ensures var s := Run(Initial(config), inputs);
            && OrderlyRun(Initial(config), inputs) && Agrees(s)
            && (config.foreground.Some? && ForegroundWasSet(inputs) ==> s.foreground.Some?)
  {
    hide Step, StableInput, Settled, Agrees, Orderly, Undisturbed, ListCounts;
    InitialAgrees(config);
    if inputs != [] {
      var n := |inputs| - 1;
      var init := inputs[..n];
      forall i | 0 <= i < n
        ensures Undisturbed(config, init, parentOf, i)
      {
        UndisturbedBefore(config, inputs, parentOf, n, i);
      }
      UndisturbedRunAgrees(config, init, parentOf);
      UndisturbedIsOrderly(config, inputs, parentOf);
      var s := Run(Initial(config), init);
      forall i | 0 <= i < |inputs|
        ensures Orderly(Run(Initial(config), inputs[..i]), inputs[i])
      {
        assert i < n ==> inputs[..i] == init[..i];
      }
      OrderlyRunAgrees(Initial(config), inputs);
      OrderlyRunAgrees(Initial(config), init);
      PrefixFaithful(config, inputs, parentOf, n);
      hide OrderlyRun, Faithful, WellFormed;
      LastSetsForeground(config, inputs);
    }
  }

  lemma LastSetsForeground(config: SchedulerConfig, inputs: seq<Input>)
    requires inputs != []
    requires var s := Run(Initial(config), inputs[..|inputs| - 1]);
             && WellFormed(s) && s.config == config
             && (config.foreground.Some? && ForegroundWasSet(inputs[..|inputs| - 1]) ==> s.foreground.Some?)
    ensures config.foreground.Some? && ForegroundWasSet(inputs) ==> Run(Initial(config), inputs).foreground.Some?
  {
    hide Step, WellFormed;
    if i :| config.foreground.Some? && 0 <= i < |inputs| && inputs[i].event.SetForegroundProcess? {
      assert i < |inputs| - 1 ==> inputs[..|inputs| - 1][i].event.SetForegroundProcess?;
      hide Run;
      StepForeground(Run(Initial(config), inputs[..|inputs| - 1]), inputs[|inputs| - 1]);
      assert Run(Initial(config), inputs) == Step(Run(Initial(config), inputs[..|inputs| - 1]), inputs[|inputs| - 1]) by {
        RunEnds(Initial(config), inputs);
      }
    }
  }

  lemma RunEnds(s: State, inputs: seq<Input>)
    requires inputs != []
    ensures Run(s, inputs) == Step(Run(s, inputs[..|inputs| - 1]), inputs[|inputs| - 1])
  {
  }

  lemma UndisturbedBefore(config: SchedulerConfig, inputs: seq<Input>, parentOf: Pid -> Pid, n: nat, i: nat)
    requires i < n <= |inputs| && Undisturbed(config, inputs, parentOf, i)
    ensures Undisturbed(config, inputs[..n], parentOf, i)
  {
    assert inputs[..n][..i] == inputs[..i];
  }

  lemma ListedNeedsProfile(s: State)
    requires Settled(s) && ListCounts(s) && s.pipewireProcesses != []
    ensures s.config.pipewire.Some? && Covered(s.table)
  {
  }

  lemma StableIsOrderly(s: State, input: Input)
    requires Stable(s, input)
    requires input.event.PipewireRemove? && input.event.pid in s.pipewireProcesses ==> CleanRemoval(s, input.event.pid)
    requires input.event.ReloadConfiguration? ==> input.event.config == s.config
    ensures Orderly(s, input)
  {
    hide CleanRemoval, TrueParents, SameParent, ValidEnv;
  }

  /** The last input of an undisturbed run is orderly if those before it are. */
  lemma UndisturbedIsOrderly(config: SchedulerConfig, inputs: seq<Input>, parentOf: Pid -> Pid)
    requires inputs != []
    requires forall i :: 0 <= i < |inputs| ==> StableInput(inputs[i], parentOf)
    requires Undisturbed(config, inputs, parentOf, |inputs| - 1)
    requires var init := inputs[..|inputs| - 1];
             && OrderlyRun(Initial(config), init)
             && (config.foreground.Some? && ForegroundWasSet(init) ==> Run(Initial(config), init).foreground.Some?)
    ensures Orderly(Run(Initial(config), inputs[..|inputs| - 1]), inputs[|inputs| - 1])
  {
    hide Run, Settled, Agrees, WellFormed, Faithful, StableInput, OrderlyRun, CleanRemoval, ForegroundWasSet,
         Stable, Orderly, ListCounts, Covered;
    var n := |inputs| - 1;
    var init, last := inputs[..n], inputs[n];
    var s := Run(Initial(config), init);
    PrefixFaithful(config, inputs, parentOf, n);
    FaithfulIsStable(s, last, parentOf);
    InitialAgrees(config);
    OrderlyRunAgrees(Initial(config), init);
    if last.event.PipewireRemove? && last.event.pid in s.pipewireProcesses {
      ListedNeedsProfile(s);
      RemovalIsClean(config, inputs, parentOf, n, last.event.pid);
    }
    StableIsOrderly(s, last);
  }

  // ---------------------------------------------------------------------------------------
  // Such worlds exist
  // ---------------------------------------------------------------------------------------

  ghost function SomeOrder(refs: set<Ref>): (order: seq<Ref>)
    ensures Enumerates(order, refs)
  {
    if refs == {} then []
    else
      var r :| r in refs;
      var rest := SomeOrder(refs - {r});
      assert forall q :: q in [r] + rest <==> q == r || q in rest;
      [r] + rest
  }

  /** Any listing of distinct pids, whatever is read of them, belongs to a valid world. */
  lemma AnyListingIsValid(env: Env)
    requires env.listing.Some? ==> NoDuplicates(env.listing.value)
    ensures ValidEnv(env.(order := refs => SomeOrder(refs)))
  {
  }
}
