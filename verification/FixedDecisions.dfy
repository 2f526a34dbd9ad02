/** Processes about which every configuration decides the same, whatever state they are in. */
module FixedDecisions {
  import opened Basics
  import opened Scheduler
  import opened ProcessTable
  import opened TableOperations
  import opened Refresh
  import opened Classification
  import opened Worklist
  import opened Engine
  import opened EngineInvariants
  import opened Agreement
  import opened Effects

  /** Under any of these names, whatever else is known of the process, only `d` is ever decided. */
  ghost predicate Decides(c: SchedulerConfig, names: set<string>, x: Pid, d: Priority) {
    && d != Assignable
    && forall t: Table, p: Process :: p.id == x && p.name in names ==> Classify(c, t, p) == d || Classify(c, t, p) == NotAssignable
  }

  /** All that is announced and read of the process gives it one of these names, and reloads change nothing about it. */
  ghost predicate NamedAmong(input: Input, names: set<string>, x: Pid, d: Priority) {
    && (input.event.ExecCreate? && input.event.pid == x ==> input.event.name in names)
    && (input.event.ReloadConfiguration? ==> Decides(input.event.config, names, x, d))
    && ReadAmong(input.env, names, x)
  }

  ghost predicate ReadAmong(env: Env, names: set<string>, x: Pid) {
    ValidEnv(env) && (env.cmdline(x).Some? ==> BaseName(env.cmdline(x).value) in names)
  }

  /** No record of the process has another decision. */
  ghost predicate Undisputed(t: Table, x: Pid, d: Priority) {
    forall r :: r in t.cells && t.cells[r].id == x ==>
                  t.cells[r].assignedPriority == d || t.cells[r].assignedPriority == NotAssignable
  }

  /** The kernel was given nothing else: the profile that was decided, or nothing if that is none. */
  ghost predicate OnlyGiven(applied: map<Pid, Profile>, x: Pid, d: Priority) {
    x in applied ==> d == Config(applied[x])
  }

  ghost predicate Keeps(s: State, names: set<string>, x: Pid, d: Priority) {
    WellFormed(s) && Decides(s.config, names, x, d) && Undisputed(s.table, x, d) && OnlyGiven(s.applied, x, d)
  }

  // ---------------------------------------------------------------------------------------
  // Recording
  // ---------------------------------------------------------------------------------------

  lemma RecordedUndisputed(t: Table, p: Process, pids: seq<Pid>, x: Pid, d: Priority)
    requires Sound(t) && LinksTrue(t, p) && p.assignedPriority == NotAssignable && Undisputed(t, x, d)
    ensures var u, r := Recorded(t, p, pids), InsertRef(t, p);
            Undisputed(u, x, d) && r in u.cells && u.cells[r].id == p.id && u.cells[r].name == p.name
  {
    hide PipewireAncestor, Ancestors;
    InsertKeepsSound(t, p);
  }

  lemma NewKeeps(s: State, env: Env, pid: Pid, parentPid: Pid, name: string, cmdline: string,
                 names: set<string>, x: Pid, d: Priority)
    requires Keeps(s, names, x, d) && (pid == x ==> name in names)
    ensures Keeps(AssignNew(s, env, pid, parentPid, name, cmdline), names, x, d)
  {
    hide Classify, Recorded, InsertRef, LinksTrue, Linked, PipewireSound, Sound;
    var p := CreatedProcess(s.table, env, pid, parentPid, name, cmdline);
    CreatedLinksTrue(s.table, env, pid, parentPid, name, cmdline);
    RecordedUndisputed(s.table, p, s.pipewireProcesses, x, d);
    AssignNewKeepsWellFormed(s, env, pid, parentPid, name, cmdline);
    hide WellFormed;
    var r, s1 := InsertRef(s.table, p), s.(table := Recorded(s.table, p, s.pipewireProcesses));
    DecidingKeeps(s1, r, names, x, d);
    ApplyingKeeps(AssignPriority(s1, r), r, x, d);
  }

  lemma DecidingKeeps(s: State, r: Ref, names: set<string>, x: Pid, d: Priority)
    requires r in s.table.cells && Decides(s.config, names, x, d) && Undisputed(s.table, x, d)
    requires s.table.cells[r].id == x ==> s.table.cells[r].name in names
    ensures r in AssignPriority(s, r).table.cells && Undisputed(AssignPriority(s, r).table, x, d)
  {
    hide Classify;
  }

  lemma ApplyingKeeps(s: State, r: Ref, x: Pid, d: Priority)
    requires r in s.table.cells && Undisputed(s.table, x, d) && d != Assignable && OnlyGiven(s.applied, x, d)
    ensures OnlyGiven(ApplyPriority(s, r).applied, x, d)
  {
  }

  lemma {:induction false} TasksKeep(s: State, env: Env, tasks: seq<Pid>, names: set<string>, x: Pid, d: Priority)
    requires Keeps(s, names, x, d) && ReadAmong(env, names, x)
    ensures Keeps(AssignTasks(s, env, tasks), names, x, d)
  {
    hide Keeps, AssignNew;
    if tasks != [] {
      var before, pid := AssignTasks(s, env, tasks[..|tasks| - 1]), tasks[|tasks| - 1];
      TasksKeep(s, env, tasks[..|tasks| - 1], names, x, d);
      if env.parentId(pid).Some? && env.cmdline(pid).Some? {
        var cmdline := env.cmdline(pid).value;
        NewKeeps(before, env, pid, env.parentId(pid).value, BaseName(cmdline), cmdline, names, x, d);
      }
    }
  }

  lemma ChildrenKeep(s: State, env: Env, pid: Pid, names: set<string>, x: Pid, d: Priority)
    requires Keeps(s, names, x, d) && ReadAmong(env, names, x)
    ensures Keeps(AssignChildren(s, env, pid), names, x, d)
  {
    hide Keeps, AssignTasks, Tasks;
    TasksKeep(s, env, Tasks(env.children, pid), names, x, d);
  }

  // ---------------------------------------------------------------------------------------
  // Loops that pass over processes that are not assignable
  // ---------------------------------------------------------------------------------------

  lemma NotAssigned(t: Table, x: Pid, d: Priority)
    requires Sound(t) && Undisputed(t, x, d) && d != Assignable
    ensures Assignment(t, x) != Assignable
  {
  }

  lemma ForegroundKeeps(s: State, env: Env, pid: Pid, names: set<string>, x: Pid, d: Priority)
    requires Keeps(s, names, x, d) && ReadAmong(env, names, x)
    ensures Keeps(SetForeground(s, env, pid), names, x, d)
  {
    ChildrenKeep(s, env, pid, names, x, d);
    SetForegroundKeepsWellFormed(s, env, pid);
    var s1 := AssignChildren(s, env, pid);
    WellFormedIsSound(s1);
    NotAssigned(s1.table, x, d);
    hide WellFormed, Sound, AssignChildren, Assignment, Decides, ReadAmong, PidsOf, ForegroundCells, InForeground;
    if s1.config.foreground.Some? {
      ApplyAllElsewhere(s1.table.cells, env.order(s1.table.byKey.Values),
                        ForegroundWrites(s1, s1.config.foreground.value, pid), s1.applied, x);
    }
  }

  lemma HoldingGivesNothing(s: State, env: Env, profile: Profile, pid: Pid, x: Pid, d: Priority)
    requires Undisputed(s.table, x, d) && OnlyGiven(s.applied, x, d) && Assignment(s.table, x) != Assignable
    ensures Undisputed(Hold(s, env, profile, pid).table, x, d) && OnlyGiven(Hold(s, env, profile, pid).applied, x, d)
    ensures Hold(s, env, profile, pid).config == s.config
  {
    hide Assignment, HeldBelow;
    ApplyAllElsewhere(s.table.cells, env.order(s.table.byKey.Values), HoldWrites(s.table, pid, profile), s.applied, x);
  }

  lemma HoldKeeps(s: State, env: Env, pid: Pid, names: set<string>, x: Pid, d: Priority)
    requires Keeps(s, names, x, d) && ReadAmong(env, names, x)
    ensures Keeps(SetPipewire(s, env, pid), names, x, d)
  {
    hide WellFormed, AssignChildren, Assignment, Classify, ReadAmong, Undisputed, OnlyGiven, Hold;
    ChildrenKeep(s, env, pid, names, x, d);
    SetPipewireKeepsWellFormed(s, env, pid);
    var s1 := AssignChildren(s, env, pid);
    WellFormedIsSound(s1);
    NotAssigned(s1.table, x, d);
    if s1.config.pipewire.Some? {
      HoldingGivesNothing(s1, env, s1.config.pipewire.value, pid, x, d);
      HoldingGivesNothing(s1.(pipewireProcesses := s1.pipewireProcesses + [pid]), env, s1.config.pipewire.value, pid, x, d);
    }
  }

  lemma ReleasingGivesNothing(s: State, env: Env, pid: Pid, x: Pid, d: Priority)
    requires Undisputed(s.table, x, d) && OnlyGiven(s.applied, x, d) && Assignment(s.table, x) != Assignable
    ensures Undisputed(RemovePipewire(s, env, pid).table, x, d) && OnlyGiven(RemovePipewire(s, env, pid).applied, x, d)
  {
    hide Assignment, LetGo, Without;
    ApplyAllElsewhere(s.table.cells, env.order(s.table.byKey.Values), ReleaseWrites(s, pid), s.applied, x);
  }

  lemma ReleaseKeeps(s: State, env: Env, pid: Pid, names: set<string>, x: Pid, d: Priority)
    requires Keeps(s, names, x, d)
    ensures Keeps(RemovePipewire(s, env, pid), names, x, d)
  {
    RemovePipewireKeepsWellFormed(s, env, pid);
    hide WellFormed, Assignment, Classify, Undisputed, OnlyGiven;
    WellFormedIsSound(s);
    NotAssigned(s.table, x, d);
    ReleasingGivesNothing(s, env, pid, x, d);
  }

  // ---------------------------------------------------------------------------------------
  // Sweeping
  // ---------------------------------------------------------------------------------------

  lemma SweepUndisputed(t: Table, env: Env, bare: bool, parents: map<Pid, Pid>, x: Pid, d: Priority)
    requires Sound(t) && ValidEnv(env) && env.listing.Some? && Undisputed(t, x, d)
    ensures var u := Refreshed(t, Listed(env, env.listing.value, bare), parents);
            && Undisputed(u, x, d)
            && (!bare ==> forall r :: r in u.cells ==> env.cmdline(u.cells[r].id).Some?
                                                       && u.cells[r].name == BaseName(env.cmdline(u.cells[r].id).value))
  {
    hide Refreshed, Listed, ValidEnv, IsListedKey, PidIndexed, Allocated;
    var u := Refreshed(t, Listed(env, env.listing.value, bare), parents);
    forall r | r in u.cells
      ensures u.cells[r].id == x ==> u.cells[r].assignedPriority == d || u.cells[r].assignedPriority == NotAssignable
      ensures !bare ==> env.cmdline(u.cells[r].id).Some? && u.cells[r].name == BaseName(env.cmdline(u.cells[r].id).value)
    {
      RefreshReflectsListing(t, env, bare, parents, r, u.cells[r].HashId());
    }
  }

  lemma CleanKeeps(s: State, env: Env, names: set<string>, x: Pid, d: Priority)
    requires Keeps(s, names, x, d) && ReadAmong(env, names, x)
    ensures Keeps(GarbageClean(s, env), names, x, d)
  {
    GarbageCleanKeepsWellFormed(s, env);
    WellFormedIsSound(s);
    hide WellFormed, Sound, Decides, ValidEnv, Listed, Swept, Refreshed, Undisputed;
    if s.gcCounter >= GC_INTERVAL && env.listing.Some? {
      SweepUndisputed(s.table, env, true, map[], x, d);
      SweepIsRefresh(s.table, Listed(env, env.listing.value, true));
    }
  }

  lemma DecidingAllKeeps(s: State, env: Env, names: set<string>, x: Pid, d: Priority)
    requires Keeps(s, names, x, d)
    requires forall r :: r in s.table.cells && s.table.cells[r].id == x ==> s.table.cells[r].name in names
    ensures Keeps(AssignAndApplyAll(s, env), names, x, d)
  {
    AssignAndApplyAllKeepsWellFormed(s, env);
    hide WellFormed, Classify;
    var values := s.table.byKey.Values;
    var s1 := s.(table := DecideSome(s.config, s.table, values));
    assert Undisputed(s1.table, x, d);
    hide Decides, DecideSome;
    AppliedAllKeeps(s1, env.order(values), x, d);
  }

  lemma {:induction false} AppliedAllKeeps(s: State, order: seq<Ref>, x: Pid, d: Priority)
    requires Undisputed(s.table, x, d) && d != Assignable && OnlyGiven(s.applied, x, d)
    ensures OnlyGiven(ApplyAll(s.table.cells, order, PickWrites(s), s.applied), x, d)
  {
    if order != [] {
      AppliedAllKeeps(s, order[..|order| - 1], x, d);
    }
  }

  lemma RefreshKeeps(s: State, env: Env, names: set<string>, x: Pid, d: Priority)
    requires Keeps(s, names, x, d) && ReadAmong(env, names, x)
    ensures Keeps(ProcessMapRefresh(s, env), names, x, d)
  {
    ProcessMapRefreshKeepsWellFormed(s, env);
    if env.listing.Some? {
      var parents := ListedParents(env, env.listing.value);
      RefreshKeepsTable(s, env, false, parents);
      WellFormedIsSound(s);
      SweepUndisputed(s.table, env, false, parents, x, d);
      hide WellFormed, Sound, Decides, ValidEnv, Listed, ListedParents, Refreshed, Undisputed, AssignAndApplyAll, SetForeground;
      var s0 := s.(table := Refreshed(s.table, Listed(env, env.listing.value, false), parents));
      DecidingAllKeeps(s0, env, names, x, d);
      var s1 := AssignAndApplyAll(s0, env);
      if s1.foreground.Some? {
        ForgettingIsWellFormed(s1);
        ForegroundKeeps(s1.(foreground := None), env, s1.foreground.value, names, x, d);
      }
    }
  }

  // ---------------------------------------------------------------------------------------
  // Runs
  // ---------------------------------------------------------------------------------------

  lemma StepKeeps(s: State, input: Input, names: set<string>, x: Pid, d: Priority)
    requires Keeps(s, names, x, d) && NamedAmong(input, names, x, d)
    ensures Keeps(Step(s, input), names, x, d)
  {
    var env := input.env;
    StepKeepsWellFormed(s, input);
    hide WellFormed, Decides, ReadAmong, Undisputed, OnlyGiven, AssignNew, AssignChildren, GarbageClean, ProcessMapRefresh,
         SetForeground, SetPipewire, RemovePipewire;
    match input.event
    case ExecCreate(pid, parentPid, name, cmdline) =>
      var s1 := AssignNew(s, env, pid, parentPid, name, cmdline);
      NewKeeps(s, env, pid, parentPid, name, cmdline, names, x, d);
      ChildrenKeep(s1, env, pid, names, x, d);
      CleanKeeps(AssignChildren(s1, env, pid), env, names, x, d);
    case RefreshProcessMap =>
      RefreshKeeps(s, env, names, x, d);
    case SetForegroundProcess(pid) =>
      ForegroundKeeps(s, env, pid, names, x, d);
      CleanKeeps(SetForeground(s, env, pid), env, names, x, d);
    case PipewireAdd(pid) =>
      HoldKeeps(s, env, pid, names, x, d);
      CleanKeeps(SetPipewire(s, env, pid), env, names, x, d);
    case PipewireRemove(pid) =>
      ReleaseKeeps(s, env, pid, names, x, d);
    case ReloadConfiguration(config) =>
  }

  /** What is decided alone of a process is all that its records and the kernel ever hold for it. */
  lemma {:induction false} RunKeeps(config: SchedulerConfig, inputs: seq<Input>, names: set<string>, x: Pid, d: Priority)
    requires Decides(config, names, x, d) && forall i :: 0 <= i < |inputs| ==> NamedAmong(inputs[i], names, x, d)
    ensures Keeps(Run(Initial(config), inputs), names, x, d)
  {
    if inputs != [] {
      hide Decides, NamedAmong, Step, Keeps;
      RunKeeps(config, inputs[..|inputs| - 1], names, x, d);
      StepKeeps(Run(Initial(config), inputs[..|inputs| - 1]), inputs[|inputs| - 1], names, x, d);
    }
  }

  /**
   * A process that has excepted names only is left alone: over every run from start-up, reloads that
   * keep its exception included, the kernel is given no profile for it, whether it is in the
   * foreground, a pipewire process or below one.
   */
  lemma ExceptedAreLeftAlone(config: SchedulerConfig, inputs: seq<Input>, names: set<string>, x: Pid)
    requires names <= config.assignments.exceptionsByName
    requires forall i :: 0 <= i < |inputs| ==>
                           && ReadAmong(inputs[i].env, names, x)
                           && (inputs[i].event.ExecCreate? && inputs[i].event.pid == x ==> inputs[i].event.name in names)
                           && (inputs[i].event.ReloadConfiguration? ==>
                                 names <= inputs[i].event.config.assignments.exceptionsByName)
    ensures x !in Run(Initial(config), inputs).applied
    ensures Undisputed(Run(Initial(config), inputs).table, x, Priority.Exception)
  {
    forall c: SchedulerConfig | names <= c.assignments.exceptionsByName
      ensures Decides(c, names, x, Priority.Exception)
    {
      hide ExceptionMet;
    }
    hide ReadAmong, Decides, Run;
    RunKeeps(config, inputs, names, x, Priority.Exception);
  }

  /** Names that assign a profile outright, with nothing to overrule them. */
  ghost predicate AssignsOutright(c: SchedulerConfig, names: set<string>, profile: Profile) {
    var a := c.assignments;
    && a.exceptionsByName !! names && a.exceptionsByCmdline == {} && a.exceptionsConditions == [] && a.profileByCmdline == map[]
    && forall name :: name in names ==> name in a.profileByName && a.profileByName[name] == profile
  }

  /**
   * A process whose names all assign it one profile never gets another one from the kernel, wherever
   * the foreground is and whatever pipewire does.
   */
  lemma AssignedKeepProfile(config: SchedulerConfig, inputs: seq<Input>, names: set<string>, x: Pid, profile: Profile)
    requires AssignsOutright(config, names, profile)
    requires forall i :: 0 <= i < |inputs| ==>
                           && ReadAmong(inputs[i].env, names, x)
                           && (inputs[i].event.ExecCreate? && inputs[i].event.pid == x ==> inputs[i].event.name in names)
                           && (inputs[i].event.ReloadConfiguration? ==>
                                 AssignsOutright(inputs[i].event.config, names, profile))
    ensures var applied := Run(Initial(config), inputs).applied;
            x in applied ==> applied[x] == profile
  {
    forall c | AssignsOutright(c, names, profile)
      ensures Decides(c, names, x, Config(profile))
    {
    }
    hide ReadAmong, Decides, AssignsOutright, Run;
    RunKeeps(config, inputs, names, x, Config(profile));
  }
}
