/** Runs from start-up in which the daemon ends in a state that its documentation does not lead one to expect. */
module Failures {
  import opened Basics
  import opened Scheduler
  import opened ProcessTable
  import opened TableOperations
  import opened Cycles
  import opened Refresh
  import opened Classification
  import opened Worklist
  import opened Engine
  import opened EngineInvariants
  import opened Halting
  import opened Searches
  import opened Completion
  import opened Agreement
  import opened Descendants
  import opened Effects
  import opened WholeRuns
  import opened Scans
  import opened RefreshAgreement
  import opened StableWorld

  // ---------------------------------------------------------------------------------------
  // A world of childless processes, and a configuration without assignments
  // ---------------------------------------------------------------------------------------

  /** Every process can be read, has a control group and lists no children. */
  ghost function World(listing: seq<Pid>, parentOf: Pid -> Pid): Env {
    Env(refs => SomeOrder(refs), Some(listing), pid => Some("app"), pid => Some("user"), pid => Some(parentOf(pid)),
        pid => true, pid => [])
  }

  /** No exceptions and no assignments: a process with a control group stays assignable. */
  ghost predicate Plain(c: SchedulerConfig) {
    c.assignments == Assignments(map[], {}, {}, [], map[], map[], map[]) && c.order == []
  }

  lemma WorldIsValid(listing: seq<Pid>, parentOf: Pid -> Pid)
    requires NoDuplicates(listing)
    ensures ValidEnv(World(listing, parentOf))
  {
  }

  lemma PlainClassifies(c: SchedulerConfig, t: Table, p: Process)
    requires Plain(c) && p.cgroup != ""
    ensures Classify(c, t, p) == Assignable
  {
  }

  lemma RunMore(s: State, inputs: seq<Input>, input: Input)
    ensures Run(s, inputs + [input]) == Step(Run(s, inputs), input)
  {
    assert (inputs + [input])[..|inputs|] == inputs;
  }

  /** Without children, the scan looks at the root only. */
  lemma LoneTask(children: Children, root: Pid)
    requires children(root) == []
    ensures Tasks(children, root) == [root]
  {
    PoppedMoves([root], []);
    assert Tasks(children, root) == Scan(children, PushNew([root][..0], [] + [root], children(root)), [] + [root]);
    assert [root][..0] == [];
    assert PushNew([], [root], []) == [];
  }

  lemma LoneChildren(s: State, listing: seq<Pid>, parentOf: Pid -> Pid, pid: Pid)
    ensures var env := World(listing, parentOf);
            AssignChildren(s, env, pid) ==
            if pid in s.table.byPid then s else AssignNew(s, env, pid, parentOf(pid), BaseName("app"), "app")
  {
    var env := World(listing, parentOf);
    LoneTask(env.children, pid);
    assert [pid][..0] == [];
    hide AssignNew, Tasks;
    assert AssignTasks(s, env, []) == s;
  }

  // ---------------------------------------------------------------------------------------
  // In such a world every process is assignable
  // ---------------------------------------------------------------------------------------

  ghost predicate AllAssignable(t: Table) {
    forall r :: r in t.cells ==> t.cells[r].assignedPriority == Assignable
  }

  lemma NewAssignable(s: State, env: Env, pid: Pid, parentPid: Pid, name: string, cmdline: string)
    requires Sound(s.table) && AllAssignable(s.table) && Plain(s.config)
    requires env.alive(pid) && env.cgroup(pid) == Some("user")
    ensures AllAssignable(AssignNew(s, env, pid, parentPid, name, cmdline).table)
  {
    var p := CreatedProcess(s.table, env, pid, parentPid, name, cmdline);
    assert p.cgroup == "user" && p.assignedPriority == NotAssignable;
    hide CreatedProcess, Recorded, InsertRef, Plain, Classify, Sound;
    var t, r := Recorded(s.table, p, s.pipewireProcesses), InsertRef(s.table, p);
    RecordedAssignable(s.table, p, s.pipewireProcesses);
    PlainClassifies(s.config, t, t.cells[r]);
    assert AssignNew(s, env, pid, parentPid, name, cmdline).table == SetCell(t, r, Decided(s.config, t, t.cells[r]));
  }

  lemma RecordedAssignable(t: Table, p: Process, pids: seq<Pid>)
    requires Sound(t) && AllAssignable(t) && p.cgroup == "user" && p.assignedPriority == NotAssignable
    ensures var u, r := Recorded(t, p, pids), InsertRef(t, p);
            && r in u.cells && u.cells[r].cgroup == "user" && (u.cells[r].assignedPriority in {NotAssignable, Assignable})
            && forall q :: q in u.cells && q != r ==> u.cells[q].assignedPriority == Assignable
  {
    hide PipewireAncestor, Ancestors, PidIndexed;
  }

  lemma RefreshAssignable(s: State, listing: seq<Pid>, parentOf: Pid -> Pid)
    requires WellFormed(s) && AllAssignable(s.table) && Plain(s.config) && NoDuplicates(listing)
    ensures AllAssignable(BeforeForeground(s, World(listing, parentOf)).table)
  {
    hide Refreshed, Listed, ListedParents, ValidEnv, PipewireSound, Linked;
    var env := World(listing, parentOf);
    WorldIsValid(listing, parentOf);
    var s0 := s.(table := Refreshed(s.table, Listed(env, listing, false), ListedParents(env, listing)));
    RefreshKeepsTable(s, env, false, ListedParents(env, listing));
    var values := s0.table.byKey.Values;
    ValuesAreCells(s0.table);
    forall r | r in s0.table.cells
      ensures DecideSome(s.config, s0.table, values).cells[r].assignedPriority == Assignable
    {
      var p := s0.table.cells[r];
      RefreshReflectsListing(s.table, env, false, ListedParents(env, listing), r, p.HashId());
      hide Sound, SurvivesAs;
      PlainClassifies(s.config, s0.table, p);
      hide Classify, Plain;
    }
    hide DecideSome;
    assert BeforeForeground(s, env).table == DecideSome(s.config, s0.table, values);
  }

  // ---------------------------------------------------------------------------------------
  // The first foreground process
  // ---------------------------------------------------------------------------------------

  ghost predicate Started(s: State, c: SchedulerConfig, f: Pid, parent: Pid) {
    && Settled(s) && Agrees(s) && AllAssignable(s.table) && s.config == c && s.gcCounter == 1
    && s.foreground == Some(f) && s.pipewireProcesses == [] && (forall q :: q in s.foregroundProcesses <==> q == f)
    && s.table.byKey.Keys == {Key(f, parent)} && s.table.byPid.Keys == {f}
  }

  lemma FirstRecord(s: State, env: Env, pid: Pid, parentPid: Pid, name: string, cmdline: string)
    requires s.table == EMPTY
    ensures var u := AssignNew(s, env, pid, parentPid, name, cmdline);
            u.table.byKey.Keys == {Key(pid, parentPid)} && u.table.byPid.Keys == {pid} && SameLists(s, u)
  {
    hide AssignNew, Pick, OthersKept, SameButFate;
    var p := CreatedProcess(EMPTY, env, pid, parentPid, name, cmdline);
    assert p.HashId() == Key(pid, parentPid) && p.id == pid;
    hide CreatedProcess;
    AssignNewRecordsOne(s, env, pid, parentPid, name, cmdline);
    assert Insert(EMPTY, p).byKey == map[p.HashId() := 0];
  }

  lemma FirstScan(c: SchedulerConfig, listing: seq<Pid>, parentOf: Pid -> Pid, f: Pid)
    requires Plain(c)
    ensures var a := AssignChildren(Initial(c), World(listing, parentOf), f);
            && AllAssignable(a.table) && SameLists(Initial(c), a)
            && a.table.byKey.Keys == {Key(f, parentOf(f))} && a.table.byPid.Keys == {f}
  {
    hide AssignNew, AssignChildren, AllAssignable, Plain, BaseName;
    var env, s0 := World(listing, parentOf), Initial(c);
    LoneChildren(s0, listing, parentOf, f);
    assert AllAssignable(EMPTY) by { EmptyIsAssignable(); }
    FirstRecord(s0, env, f, parentOf(f), BaseName("app"), "app");
    NewAssignable(s0, env, f, parentOf(f), BaseName("app"), "app");
  }

  lemma EmptyIsAssignable()
    ensures AllAssignable(EMPTY)
  {
  }

  lemma StartsForeground(c: SchedulerConfig, listing: seq<Pid>, parentOf: Pid -> Pid, f: Pid)
    requires Plain(c) && c.foreground.Some? && NoDuplicates(listing)
    ensures Started(Step(Initial(c), Input(SetForegroundProcess(f), World(listing, parentOf))), c, f, parentOf(f))
  {
    hide ValidEnv, AssignChildren, Agrees, FixedAgree, World, Plain, WellFormed, Covered, AllAssignable;
    var env, s0 := World(listing, parentOf), Initial(c);
    WorldIsValid(listing, parentOf);
    InitialAgrees(c);
    AgreesFixed(s0);
    FirstScan(c, listing, parentOf, f);
    AssignChildrenKeepAgreement(s0, env, f);
    SetForegroundAgrees(s0, env, f);
    SetForegroundIs(s0, env, f);
    var a, u := AssignChildren(s0, env, f), SetForeground(s0, env, f);
    hide SetForeground;
    SettledParts(a);
    hide Settled;
    FirstPartition(a, env, c.foreground.value, f);
    hide Partition;
    CounterKeepsSettled(u, 1);
    SameCellsAgree(u, u.(gcCounter := 1));
  }

  lemma FirstPartition(a: State, env: Env, fa: ForegroundAssignments, f: Pid)
    requires Sound(a.table) && Covered(a.table) && ValidEnv(env) && a.table.byPid.Keys == {f}
    ensures var u := Partition(a, env, fa, f);
            && u.table == a.table && u.foreground == Some(f) && u.config == a.config && u.gcCounter == a.gcCounter
            && u.pipewireProcesses == a.pipewireProcesses
            && forall q :: q in u.foregroundProcesses <==> q == f
  {
    forall q
      ensures q in Partition(a, env, fa, f).foregroundProcesses <==> q == f
    {
      PartitionCache(a, env, fa, f, q);
      OnlyForeground(a.table, f, q);
    }
  }

  lemma SetForegroundIs(s: State, env: Env, pid: Pid)
    requires s.config.foreground.Some? && SameLists(s, AssignChildren(s, env, pid))
    ensures SetForeground(s, env, pid) == Partition(AssignChildren(s, env, pid), env, s.config.foreground.value, pid)
  {
    hide AssignChildren;
  }

  lemma OnlyForeground(t: Table, f: Pid, q: Pid)
    requires Covered(t) && t.byPid.Keys == {f}
    ensures OfForeground(t, f, q) <==> q == f
  {
    hide DescendedFrom;
    assert forall r :: r in t.cells ==> t.cells[r].id in t.byPid.Keys;
  }

  // ---------------------------------------------------------------------------------------
  // A pid that comes back under another parent
  // ---------------------------------------------------------------------------------------

  lemma UnheldWithoutList(s: State, p: Process, r: Ref)
    requires PipewireSound(s) && s.pipewireProcesses == [] && r in s.table.cells && p == s.table.cells[r]
    ensures !PipewireAssigned(s, p)
  {
  }

  lemma LosesForeground(s: State, c: SchedulerConfig, env: Env, f: Pid, a: Pid)
    requires Started(s, c, f, a) && c.foreground.Some? && c.foreground.value.foreground != NewProfile("default")
    requires ValidEnv(env) && IsListed(env, f) && Readable(env, f) && env.parentId(f) != Some(a)
    requires AllAssignable(BeforeForeground(s, env).table)
    ensures !Agrees(ProcessMapRefresh(s, env))
  {
    hide Sound, Linked, Covered, Agrees, ValidEnv, AsRead, HeldUnder, ProcessMapRefresh, BeforeForeground,
         AssignableWhenRead, HeldWhenRead, PipewireSound, PipewireAssigned;
    var r := ListedIsTracked(s, env, f);
    var p := RecordOf(env, f, false);
    BeforeForegroundDecides(s, env, r);
    assert !Findable(s.table, p) by {
      assert Key(f, a) in s.table.byKey && p.HashId() != Key(f, a);
    }
    hide Findable, RecordOf;
    NobodyHolds(s, env);
    assert IsPathTo(env.children, f, [f], f);
    assert AssignableWhenRead(s, env, p);
    assert Stranded(s, env, f);
    hide Stranded, StrandedUnlisted;
    RefreshAgreesExactly(s, env);
  }

  /**
   * If the foreground process itself is seen under another parent, for instance because its
   * parent has exited, the next refresh leaves a profile that the state does not call for.
   */
  lemma ReparentedForegroundIsStranded(c: SchedulerConfig, f: Pid, a: Pid, b: Pid)
    requires Plain(c) && c.foreground.Some? && c.foreground.value.foreground != NewProfile("default") && a != b
    ensures var inputs := [Input(SetForegroundProcess(f), World([f], pid => a)), Input(RefreshProcessMap, World([f], pid => b))];
            !Agrees(Run(Initial(c), inputs))
  {
    var env := World([f], pid => b);
    var first, second := Input(SetForegroundProcess(f), World([f], pid => a)), Input(RefreshProcessMap, env);
    var s := Step(Initial(c), first);
    StartsForeground(c, [f], pid => a, f);
    WorldIsValid([f], pid => b);
    TwoSteps(Initial(c), first, second);
    assert f in env.listing.value && IsListed(env, f) && Readable(env, f) && env.parentId(f) == Some(b);
    RefreshStep(s, env);
    hide Step, Run, World, AllAssignable, Plain, ProcessMapRefresh, Covered, ValidEnv, Agrees;
    RefreshAssignable(s, [f], pid => b);
    LosesForeground(s, c, env, f, a);
  }

  lemma RefreshStep(s: State, env: Env)
    ensures Step(s, Input(RefreshProcessMap, env)) == ProcessMapRefresh(s, env)
  {
  }

  lemma TwoSteps(s: State, a: Input, b: Input)
    ensures Run(s, [a, b]) == Step(Step(s, a), b)
  {
    RunMore(s, [], a);
    RunMore(s, [a], b);
    assert [] + [a] == [a] && [a] + [b] == [a, b];
    assert Run(s, []) == s;
  }

  // ---------------------------------------------------------------------------------------
  // A pid that is created again under another parent
  // ---------------------------------------------------------------------------------------

  /** The processes called `tool` have a profile, and nothing else is assigned. */
  ghost predicate AssignsTool(c: SchedulerConfig, profile: Profile) {
    c.assignments == Assignments(map[], {}, {}, [], map[], map["tool" := profile], map[]) && c.order == []
  }

  lemma ToolClassifies(c: SchedulerConfig, profile: Profile, t: Table, p: Process)
    requires AssignsTool(c, profile) && p.cgroup != ""
    ensures Classify(c, t, p) == if p.name == "tool" then Config(profile) else Assignable
  {
  }

  /** A process under a key that is not tracked has a new record, decided for what it is. */
  lemma NewRecordDecides(s: State, listing: seq<Pid>, parentOf: Pid -> Pid, pid: Pid, name: string, profile: Profile)
    requires Sound(s.table) && AssignsTool(s.config, profile) && s.pipewireProcesses == []
    requires Key(pid, parentOf(pid)) !in s.table.byKey
    ensures var u, k := AssignNew(s, World(listing, parentOf), pid, parentOf(pid), name, name), Key(pid, parentOf(pid));
            && k in u.table.byKey && u.table.byKey[k] in u.table.cells && pid in u.table.byPid
            && var p := u.table.cells[u.table.byKey[k]];
               && p.HashId() == k && p.pipewireAncestor == None
               && p.assignedPriority == if name == "tool" then Config(profile) else Assignable
  {
    var env := World(listing, parentOf);
    var p := CreatedProcess(s.table, env, pid, parentOf(pid), name, name);
    var t, r := Recorded(s.table, p, []), InsertRef(s.table, p);
    assert p.HashId() == Key(pid, parentOf(pid)) && p.cgroup == "user" && p.name == name && p.assignedPriority == NotAssignable;
    assert p.pipewireAncestor == None;
    hide CreatedProcess, Recorded, Insert, InsertRef, Sound, AssignsTool, Classify, World, SetCell;
    NewRecordIs(s.table, p);
    ToolClassifies(s.config, profile, t, p);
    DecidedInPlace(s.config, t, r);
    assert AssignNew(s, env, pid, parentOf(pid), name, name).table == SetCell(t, r, Decided(s.config, t, p));
  }

  lemma DecidedInPlace(c: SchedulerConfig, t: Table, r: Ref)
    requires r in t.cells
    ensures var u := SetCell(t, r, Decided(c, t, t.cells[r]));
            u.byKey == t.byKey && u.byPid == t.byPid && r in u.cells && u.cells[r] == Decided(c, t, t.cells[r])
  {
    hide Classify;
  }

  /** With nobody on the list, a process under a key that is not tracked is recorded as it is. */
  lemma NewRecordIs(t: Table, p: Process)
    requires Sound(t) && p.HashId() !in t.byKey
    ensures var u, r := Recorded(t, p, []), InsertRef(t, p);
            r in u.cells && u.cells[r] == p && p.HashId() in u.byKey && u.byKey[p.HashId()] == r && p.id in u.byPid
  {
    var i, r := Insert(t, p), InsertRef(t, p);
    assert r in i.cells && i.cells[r] == p && i.byKey[p.HashId()] == r && p.id in i.byPid;
    hide Insert, InsertRef, Sound, AncestorListed, Ancestors, PipewireAncestor;
    SearchIsExact(i, p, []);
    assert !AncestorListed(i, p, []) by { NobodyAbove(i, p); }
  }

  lemma NobodyAbove(t: Table, p: Process)
    ensures !AncestorListed(t, p, [])
  {
  }

  ghost function CreationAs(parentOf: Pid -> Pid, pid: Pid, name: string): Input {
    Input(ExecCreate(pid, parentOf(pid), name, name), World([], parentOf))
  }

  lemma CreationAsIs(s: State, parentOf: Pid -> Pid, pid: Pid, name: string)
    requires Sound(s.table) && s.gcCounter < GC_INTERVAL
    requires pid in AssignNew(s, World([], parentOf), pid, parentOf(pid), name, name).table.byPid
    ensures var u := AssignNew(s, World([], parentOf), pid, parentOf(pid), name, name);
            Step(s, CreationAs(parentOf, pid, name)) == u.(gcCounter := s.gcCounter + 1) && SameLists(s, u)
  {
    var u := AssignNew(s, World([], parentOf), pid, parentOf(pid), name, name);
    SoundIsKeyed(s.table);
    hide AssignNew, AssignChildren, Sound, RecordsOne;
    AssignNewRecordsOne(s, World([], parentOf), pid, parentOf(pid), name, name);
    LoneChildren(u, [], parentOf, pid);
  }

  lemma PickWithoutForeground(s: State, p: Process)
    requires s.foreground == None && s.pipewireProcesses == [] && p.pipewireAncestor == None
    ensures Pick(s, p) == match p.assignedPriority
                          case Assignable => Some(NewProfile("default"))
                          case Config(profile) => Some(profile)
                          case _ => None
  {
  }

  /**
   * A pid that is used again under another parent, before any refresh, and with another name: the
   * old record stays in the table, and the profile applied last is not the one it calls for.
   */
  lemma CreatedAgainDisagrees(c: SchedulerConfig, profile: Profile, pid: Pid, a: Pid, b: Pid)
    requires AssignsTool(c, profile) && a != b && profile != NewProfile("default")
    ensures !Agrees(Run(Initial(c), [CreationAs(_ => a, pid, "app"), CreationAs(_ => b, pid, "tool")]))
  {
    hide AssignsTool, Step, Run, Agrees, AssignNew, Covered, Linked, PipewireSound, Sound, CreationAs, World, Pick;
    var s0, first, second := Initial(c), CreationAs(_ => a, pid, "app"), CreationAs(_ => b, pid, "tool");
    var u := AssignNew(s0, World([], _ => a), pid, a, "app", "app");
    InitialAgrees(c);
    NewRecordDecides(s0, [], _ => a, pid, "app", profile);
    CreationAsIs(s0, _ => a, pid, "app");
    FirstRecord(s0, World([], _ => a), pid, a, "app", "app");
    AssignNewKeepsWellFormed(s0, World([], _ => a), pid, a, "app", "app");
    AssignNewKeepsAgreement(s0, World([], _ => a), pid, a, "app", "app");
    var s1 := u.(gcCounter := 1);
    assert Step(s0, first) == s1;
    SameCellsAgree(u, s1);
    var v := AssignNew(s1, World([], _ => b), pid, b, "tool", "tool");
    NewRecordDecides(s1, [], _ => b, pid, "tool", profile);
    CreationAsIs(s1, _ => b, pid, "tool");
    AssignNewAgreesExactly(s1, World([], _ => b), pid, b, "tool", "tool");
    PickWithoutForeground(s1, s1.table.cells[s1.table.byKey[Key(pid, a)]]);
    PickWithoutForeground(v, v.table.cells[v.table.byKey[Key(pid, b)]]);
    SameCellsAgree(Step(s1, second), v);
    TwoSteps(s0, first, second);
    assert s1.table.cells[s1.table.byKey[Key(pid, a)]].parentId == a;
  }

  // ---------------------------------------------------------------------------------------
  // A configuration that is reloaded
  // ---------------------------------------------------------------------------------------

  /** After a reload the foreground process still has the foreground profile of the old configuration. */
  lemma ReloadKeepsOldProfile(c: SchedulerConfig, d: SchedulerConfig, f: Pid, parent: Pid)
    requires Plain(c) && c.foreground.Some? && d.foreground.Some?
    requires c.foreground.value.foreground != d.foreground.value.foreground
    ensures var env := World([f], pid => parent);
            !Agrees(Run(Initial(c), [Input(SetForegroundProcess(f), env), Input(ReloadConfiguration(d), env)]))
  {
    var env := World([f], pid => parent);
    var first, second := Input(SetForegroundProcess(f), env), Input(ReloadConfiguration(d), env);
    var s := Step(Initial(c), first);
    StartsForeground(c, [f], pid => parent, f);
    TwoSteps(Initial(c), first, second);
    ReloadStep(s, d, env);
    hide Step, Run, World, Plain, Agrees, Covered;
    ReloadAgreesExactly(s, d);
    SettledParts(s);
    var r := s.table.byPid[f];
    UnheldWithoutList(s, s.table.cells[r], r);
  }

  lemma ReloadStep(s: State, c: SchedulerConfig, env: Env)
    ensures Step(s, Input(ReloadConfiguration(c), env)) == s.(config := c)
  {
  }

  // ---------------------------------------------------------------------------------------
  // A child of the foreground process
  // ---------------------------------------------------------------------------------------

  /** Settled and in agreement, with assignable processes only and garbage collection far off. */
  ghost predicate Running(s: State, c: SchedulerConfig, events: nat) {
    && Settled(s) && Agrees(s) && AllAssignable(s.table) && s.config == c && s.foreground.Some?
    && s.gcCounter == events && events < GC_INTERVAL
  }

  ghost function Creation(parentOf: Pid -> Pid, pid: Pid): Input {
    Input(ExecCreate(pid, parentOf(pid), "app", "app"), World([], parentOf))
  }

  lemma CreationIs(s: State, parentOf: Pid -> Pid, pid: Pid)
    requires Settled(s) && SameParent(s.table, pid, parentOf(pid)) && s.gcCounter < GC_INTERVAL
    ensures var u := AssignNew(s, World([], parentOf), pid, parentOf(pid), "app", "app");
            Step(s, Creation(parentOf, pid)) == u.(gcCounter := s.gcCounter + 1) && SameLists(s, u)
  {
    var env := World([], parentOf);
    var u := AssignNew(s, env, pid, parentOf(pid), "app", "app");
    SettledParts(s);
    hide Settled;
    AssignNewKeepsCovered(s, env, pid, parentOf(pid), "app", "app");
    SoundIsKeyed(s.table);
    AssignNewRecordsOne(s, env, pid, parentOf(pid), "app", "app");
    LoneChildren(u, [], parentOf, pid);
    hide AssignNew, AssignChildren, Sound, Covered, RecordsOne;
  }

  lemma CreationRuns(s: State, c: SchedulerConfig, events: nat, parentOf: Pid -> Pid, pid: Pid)
    requires Running(s, c, events) && events + 1 < GC_INTERVAL && Plain(c) && pid !in s.table.byPid
    ensures var u := Step(s, Creation(parentOf, pid));
            Running(u, c, events + 1) && u.pipewireProcesses == s.pipewireProcesses && u.foreground == s.foreground
  {
    hide Settled, Agrees, AllAssignable, Plain, Step, World, Creation, AssignNew;
    CreationIs(s, parentOf, pid);
    NewRuns(s, parentOf, pid);
    CountedRuns(AssignNew(s, World([], parentOf), pid, parentOf(pid), "app", "app"), c, events + 1);
  }

  lemma CountedRuns(s: State, c: SchedulerConfig, events: nat)
    requires Settled(s) && Agrees(s) && AllAssignable(s.table) && s.config == c && s.foreground.Some? && events < GC_INTERVAL
    ensures Running(s.(gcCounter := events), c, events)
  {
    hide Settled, Agrees;
    CounterKeepsSettled(s, events);
    SameCellsAgree(s, s.(gcCounter := events));
  }

  lemma NewRuns(s: State, parentOf: Pid -> Pid, pid: Pid)
    requires Settled(s) && Agrees(s) && AllAssignable(s.table) && Plain(s.config) && pid !in s.table.byPid
    ensures var u := AssignNew(s, World([], parentOf), pid, parentOf(pid), "app", "app");
            SameLists(s, u) && Settled(u) && Agrees(u) && AllAssignable(u.table)
  {
    var env := World([], parentOf);
    assert env.alive(pid) && env.cgroup(pid) == Some("user");
    hide World, Plain, AllAssignable, AssignNew, Agrees, RecordsOne;
    SettledParts(s);
    SoundIsKeyed(s.table);
    AssignNewKeepsWellFormed(s, env, pid, parentOf(pid), "app", "app");
    hide WellFormed;
    NewAssignable(s, env, pid, parentOf(pid), "app", "app");
    AssignNewKeepsCovered(s, env, pid, parentOf(pid), "app", "app");
    AssignNewKeepsAgreement(s, env, pid, parentOf(pid), "app", "app");
    hide Covered, Sound;
    AssignNewRecordsOne(s, env, pid, parentOf(pid), "app", "app");
  }

  lemma CreationTracks(s: State, parentOf: Pid -> Pid, pid: Pid)
    requires Settled(s) && pid !in s.table.byPid && s.gcCounter < GC_INTERVAL
    ensures var t := Step(s, Creation(parentOf, pid)).table;
            && pid in t.byPid && t.byPid[pid] in t.cells && t.cells[t.byPid[pid]].parentId == parentOf(pid)
            && forall q :: q in s.table.byPid ==> q in t.byPid
  {
    CreationIs(s, parentOf, pid);
    NewOnIndex(s, World([], parentOf), pid, parentOf(pid), "app", "app");
    hide AssignNew, Step, Settled, World;
  }

  lemma StartedRuns(s: State, c: SchedulerConfig, f: Pid, parent: Pid)
    requires Started(s, c, f, parent)
    ensures Running(s, c, 1) && f in s.table.byPid && s.foreground == Some(f) && s.pipewireProcesses == []
    ensures forall q :: q in s.table.byPid <==> q == f
    ensures forall q :: q in s.foregroundProcesses <==> q == f
  {
    assert f in s.table.byPid.Keys;
  }

  /** A process started by the foreground process is assignable, descends from it and runs in the background. */
  lemma ForegroundChildRunsInBackground(c: SchedulerConfig, f: Pid, child: Pid, parent: Pid)
    requires Plain(c) && c.foreground.Some? && c.foreground.value.foreground != c.foreground.value.background && child != f
    ensures var parentOf := (pid: Pid) => if pid == child then f else parent;
            var s := Run(Initial(c), [Input(SetForegroundProcess(f), World([], parentOf)), Creation(parentOf, child)]);
            && child in s.table.byPid && s.table.byPid[child] in s.table.cells
            && var p := s.table.cells[s.table.byPid[child]];
               && p.assignedPriority == Assignable && !PipewireAssigned(s, p)
               && s.foreground == Some(f) && DescendedFrom(s.table, p, f)
               && child in s.applied && s.applied[child] == c.foreground.value.background
  {
    var parentOf := (pid: Pid) => if pid == child then f else parent;
    var env := World([], parentOf);
    var first, second := Input(SetForegroundProcess(f), env), Creation(parentOf, child);
    var s := Step(Initial(c), first);
    StartsForeground(c, [], parentOf, f);
    StartedRuns(s, c, f, parentOf(f));
    hide Started;
    TwoSteps(Initial(c), first, second);
    CreationRuns(s, c, 1, parentOf, child);
    CreationTracks(s, parentOf, child);
    CreationIs(s, parentOf, child);
    var u := Step(s, second);
    SettledParts(u);
    var r := u.table.byPid[child];
    UnheldWithoutList(u, u.table.cells[r], r);
    SettledParts(s);
    hide Step, Run, World, Plain, Agrees, Settled, WellFormed, AssignNew;
    CoveredKey(u.table, child, f);
    NewProcessProfileIsExact(s, env, child, f, "app", "app");
  }

  lemma CoveredKey(t: Table, pid: Pid, parent: Pid)
    requires Sound(t) && Covered(t) && pid in t.byPid && t.cells[t.byPid[pid]].parentId == parent
    ensures Key(pid, parent) in t.byKey && t.byKey[Key(pid, parent)] == t.byPid[pid]
  {
    assert t.cells[t.byPid[pid]].HashId() == Key(pid, parent);
  }

  // ---------------------------------------------------------------------------------------
  // A pipewire process below another
  // ---------------------------------------------------------------------------------------

  ghost function Addition(parentOf: Pid -> Pid, pid: Pid): Input {
    Input(PipewireAdd(pid), World([], parentOf))
  }

  lemma AdditionIs(s: State, parentOf: Pid -> Pid, pid: Pid)
    requires pid in s.table.byPid && s.gcCounter < GC_INTERVAL && s.config.pipewire.Some?
    ensures var u := SetPipewire(s, World([], parentOf), pid);
            && Step(s, Addition(parentOf, pid)) == u.(gcCounter := s.gcCounter + 1)
            && u.gcCounter == s.gcCounter && u.foreground == s.foreground && u.config == s.config
            && u.foregroundProcesses == s.foregroundProcesses
            && u.table.byPid == s.table.byPid && u.table.cells.Keys == s.table.cells.Keys
  {
    LoneChildren(s, [], parentOf, pid);
    hide AssignChildren, Assignment;
    HoldKeepsShape(s.table, pid, s.table.byKey.Values);
    hide HoldSome, ApplyAll, HoldWrites;
  }

  /** What an addition does to a record: those of the children are held on account of the new process. */
  ghost predicate HeldBy(p: Process, q: Process, pid: Pid) {
    && q.(pipewireAncestor := None) == p.(pipewireAncestor := None)
    && (p.id == pid ==> q == p)
    && (p.id != pid && p.parentId == pid ==> q.pipewireAncestor == Some(pid))
  }

  lemma AdditionAt(s: State, env: Env, pid: Pid, r: Ref)
    requires Settled(s) && ValidEnv(env) && s.config.pipewire.Some? && AssignChildren(s, env, pid) == s
    requires Assignment(s.table, pid) == Assignable && r in s.table.cells && s.table.cells[r].assignedPriority == Assignable
    ensures r in SetPipewire(s, env, pid).table.cells && HeldBy(s.table.cells[r], SetPipewire(s, env, pid).table.cells[r], pid)
    ensures pid in SetPipewire(s, env, pid).pipewireProcesses
  {
    hide Settled, AssignChildren, SetPipewire, Assignment, ValidEnv, Ancestors, SameAt;
    PipewireHolds(s, env, pid, r);
  }

  lemma AdditionHolds(s: State, env: Env, pid: Pid)
    requires Settled(s) && ValidEnv(env) && s.config.pipewire.Some? && AssignChildren(s, env, pid) == s
    requires Assignment(s.table, pid) == Assignable && AllAssignable(s.table)
    requires SetPipewire(s, env, pid).table.cells.Keys == s.table.cells.Keys
    ensures var u := SetPipewire(s, env, pid);
            && AllAssignable(u.table)
            && (forall r :: r in s.table.cells ==> r in u.table.cells && HeldBy(s.table.cells[r], u.table.cells[r], pid))
  {
    hide Settled, AssignChildren, SetPipewire, Assignment, ValidEnv, HeldBy, AllAssignable;
    var u := SetPipewire(s, env, pid);
    forall r | r in s.table.cells
      ensures HeldBy(s.table.cells[r], u.table.cells[r], pid)
    {
      AssignableAt(s.table, r);
      AdditionAt(s, env, pid, r);
    }
    HeldStayAssignable(s.table, u.table, pid);
  }

  lemma AdditionRuns(s: State, c: SchedulerConfig, events: nat, parentOf: Pid -> Pid, pid: Pid)
    requires Running(s, c, events) && events + 1 < GC_INTERVAL && Configured(c) && pid in s.table.byPid
    ensures var u := Step(s, Addition(parentOf, pid));
            && Running(u, c, events + 1) && pid in u.pipewireProcesses && u.table.byPid == s.table.byPid
            && (forall q :: q in s.pipewireProcesses ==> q in u.pipewireProcesses)
            && (forall r :: r in s.table.cells ==> r in u.table.cells && HeldBy(s.table.cells[r], u.table.cells[r], pid))
  {
    hide Agrees, Step, Addition, World, AssignChildren, AllAssignable, SetPipewire, Assignment, HeldBy, ValidEnv,
         WellFormed, Covered;
    var env := World([], parentOf);
    WorldIsValid([], parentOf);
    LoneChildren(s, [], parentOf, pid);
    AdditionIs(s, parentOf, pid);
    SettledIsAssigned(s, pid);
    hide Settled;
    AdditionHolds(s, env, pid);
    PipewireJoins(s, env, pid);
    SetPipewireKeepsList(s, env, pid);
    SetPipewireAgrees(s, env, pid);
    CountedRuns(SetPipewire(s, env, pid), c, events + 1);
  }

  lemma SettledIsAssigned(s: State, pid: Pid)
    requires Settled(s) && AllAssignable(s.table) && pid in s.table.byPid
    ensures Assignment(s.table, pid) == Assignable
  {
  }

  lemma SetPipewireKeepsList(s: State, env: Env, pid: Pid)
    requires AssignChildren(s, env, pid) == s
    ensures forall q :: q in s.pipewireProcesses ==> q in SetPipewire(s, env, pid).pipewireProcesses
  {
    hide HoldSome, HoldWrites, Assignment, AssignChildren;
  }

  lemma PipewireJoins(s: State, env: Env, pid: Pid)
    requires AssignChildren(s, env, pid) == s && s.config.pipewire.Some? && Assignment(s.table, pid) == Assignable
    ensures pid in SetPipewire(s, env, pid).pipewireProcesses
  {
    hide HoldSome, HoldWrites, Assignment, AssignChildren;
  }

  lemma AssignableAt(t: Table, r: Ref)
    requires AllAssignable(t) && r in t.cells
    ensures t.cells[r].assignedPriority == Assignable
  {
  }

  lemma HeldStayAssignable(t: Table, u: Table, pid: Pid)
    requires AllAssignable(t) && t.cells.Keys == u.cells.Keys
    requires forall r :: r in t.cells ==> HeldBy(t.cells[r], u.cells[r], pid)
    ensures AllAssignable(u)
  {
    forall r | r in u.cells
      ensures u.cells[r].assignedPriority == Assignable
    {
      assert u.cells[r].(pipewireAncestor := None).assignedPriority == t.cells[r].(pipewireAncestor := None).assignedPriority;
    }
  }

  ghost function FamilyOf(a: Pid, b: Pid, parent: Pid): Pid -> Pid {
    pid => if pid == b then a else parent
  }

  /** The foreground is set, a process and a child of it start, and both turn to pipewire. */
  ghost function NestedRun(f: Pid, a: Pid, b: Pid, parentOf: Pid -> Pid): seq<Input> {
    [Input(SetForegroundProcess(f), World([], parentOf)), Creation(parentOf, a), Creation(parentOf, b),
     Addition(parentOf, a), Addition(parentOf, b)]
  }

  lemma FiveSteps(s: State, a: Input, b: Input, c: Input, d: Input, e: Input)
    ensures Run(s, [a, b, c, d, e]) == Step(Step(Step(Step(Step(s, a), b), c), d), e)
  {
    hide Step;
    TwoSteps(s, a, b);
    RunMore(s, [a, b], c);
    RunMore(s, [a, b, c], d);
    RunMore(s, [a, b, c, d], e);
    assert [a, b] + [c] == [a, b, c] && [a, b, c] + [d] == [a, b, c, d] && [a, b, c, d] + [e] == [a, b, c, d, e];
  }

  /** Both processes are on the list, and the child is held on account of its parent. */
  lemma NestedRunHolds(c: SchedulerConfig, f: Pid, a: Pid, b: Pid, parentOf: Pid -> Pid) returns (r: Ref)
    requires Plain(c) && Configured(c) && f != a && f != b && a != b && parentOf(b) == a
    ensures var s := Run(Initial(c), NestedRun(f, a, b, parentOf));
            && Running(s, c, 5) && a in s.pipewireProcesses && b in s.pipewireProcesses
            && r in s.table.cells && s.table.cells[r].id == b && s.table.cells[r].pipewireAncestor == Some(a)
  {
    hide Step, Run, World, Creation, Addition, Plain, Settled, Agrees;
    var s1 := Step(Initial(c), Input(SetForegroundProcess(f), World([], parentOf)));
    StartsForeground(c, [], parentOf, f);
    StartedRuns(s1, c, f, parentOf(f));
    hide Started;
    var s2 := Step(s1, Creation(parentOf, a));
    CreationRuns(s1, c, 1, parentOf, a);
    CreationTracks(s1, parentOf, a);
    CreationAddsOne(s1, parentOf, a, b);
    var s3 := Step(s2, Creation(parentOf, b));
    CreationRuns(s2, c, 2, parentOf, b);
    CreationTracks(s2, parentOf, b);
    SettledParts(s3);
    r := s3.table.byPid[b];
    var s4 := Step(s3, Addition(parentOf, a));
    AdditionRuns(s3, c, 3, parentOf, a);
    var s5 := Step(s4, Addition(parentOf, b));
    AdditionRuns(s4, c, 4, parentOf, b);
    assert s4.table.cells[r].(pipewireAncestor := None).id == s3.table.cells[r].(pipewireAncestor := None).id;
    FiveSteps(Initial(c), Input(SetForegroundProcess(f), World([], parentOf)), Creation(parentOf, a), Creation(parentOf, b),
              Addition(parentOf, a), Addition(parentOf, b));
  }

  lemma CreationAddsOne(s: State, parentOf: Pid -> Pid, pid: Pid, q: Pid)
    requires Settled(s) && pid !in s.table.byPid && s.gcCounter < GC_INTERVAL && q != pid && q !in s.table.byPid
    ensures q !in Step(s, Creation(parentOf, pid)).table.byPid
  {
    CreationIs(s, parentOf, pid);
    NewOnIndex(s, World([], parentOf), pid, parentOf(pid), "app", "app");
    hide AssignNew, Step, Settled, World;
  }

  /**
   * When the parent stops playing while its child goes on, the child is released although it is on
   * the list itself: it loses the pipewire profile that its state calls for.
   */
  lemma NestedRemovalDisagrees(c: SchedulerConfig, f: Pid, a: Pid, b: Pid, parent: Pid)
    requires Plain(c) && Configured(c) && DistinctProfiles(c) && f != a && f != b && a != b
    ensures var parentOf := FamilyOf(a, b, parent);
            var inputs := NestedRun(f, a, b, parentOf) + [Input(PipewireRemove(a), World([], parentOf))];
            !Agrees(Run(Initial(c), inputs))
  {
    var parentOf := FamilyOf(a, b, parent);
    var env := World([], parentOf);
    WorldIsValid([], parentOf);
    var s := Run(Initial(c), NestedRun(f, a, b, parentOf));
    var r := NestedRunHolds(c, f, a, b, parentOf);
    RunMore(Initial(c), NestedRun(f, a, b, parentOf), Input(PipewireRemove(a), env));
    RemovalStep(s, env, a);
    SettledParts(s);
    CoveredMeansUnique(s.table);
    assert s.table.cells[r].id in s.table.byPid && ForegroundListed(s) && WellFormed(s);
    hide Run, Step, NestedRun, WellFormed, Covered, ForegroundListed, Agrees, World, Plain, UniquePids;
    AssignableAt(s.table, r);
    assert LetGo(s.table.cells[r], a) && !CleanlyLetGo(s, a, s.table.cells[r]);
    RemovalIsCleanExactly(s, env, a);
  }

  lemma RemovalStep(s: State, env: Env, pid: Pid)
    ensures Step(s, Input(PipewireRemove(pid), env)) == RemovePipewire(s, env, pid)
  {
  }

  // ---------------------------------------------------------------------------------------
  // A pipewire profile that a reload drops
  // ---------------------------------------------------------------------------------------

  /** A process with a live parent link has its parent among its ancestors. */
  lemma ParentIsAncestor(t: Table, p: Process, pids: seq<Pid>)
    requires p.parent.Some? && p.parent.value in t.cells && t.cells[p.parent.value].id in pids
    ensures AncestorListed(t, p, pids)
  {
    var w := p.parent.value;
    assert |t.cells| > 0 by {
      SubsetCardinality({w}, t.cells.Keys);
      assert |t.cells.Keys| == |t.cells|;
    }
    assert Walk(t, p.parent, |t.cells|) == [w] + Walk(t, t.cells[w].parent, |t.cells| - 1);
    assert w in Ancestors(t, p);
  }

  /** A child that starts below a process on the list is held, whether or not there is a pipewire profile. */
  lemma ChildIsHeld(s: State, env: Env, b: Pid, f: Pid)
    requires Settled(s) && b !in s.table.byPid && f in s.table.byPid && f in s.pipewireProcesses
    ensures HeldUnder(AssignNew(s, env, b, f, "app", "app").table, Key(b, f))
  {
    hide AssignNew, WellFormed, Covered, AncestorListed, HeldUnder, IndexKept;
    var t := AssignNew(s, env, b, f, "app", "app").table;
    SettledParts(s);
    SoundIsKeyed(s.table);
    NewOnIndex(s, env, b, f, "app", "app");
    RecordingHoldsExactly(s, env, b, f, "app", "app");
    AssignNewKeepsTable(s, env, b, f, "app", "app") by { SettledIsLinked(s); }
    AssignNewKeepsCovered(s, env, b, f, "app", "app");
    CoveredKey(t, b, f);
    ParentKept(s.table, t, f);
    hide Sound, Keyed;
    ParentIsAncestor(t, t.cells[t.byPid[b]], s.pipewireProcesses);
  }

  lemma SettledIsLinked(s: State)
    requires Settled(s)
    ensures Linked(s.table)
  {
  }

  lemma ParentKept(t: Table, u: Table, f: Pid)
    requires PidIndexed(t) && IndexKept(t, u) && f in t.byPid
    ensures t.byPid[f] in u.cells && u.cells[t.byPid[f]].id == f
  {
  }

  lemma ChildStarts(s: State, parentOf: Pid -> Pid, b: Pid)
    requires Settled(s) && b !in s.table.byPid && parentOf(b) in s.table.byPid && parentOf(b) in s.pipewireProcesses
    requires s.gcCounter < GC_INTERVAL && AllAssignable(s.table) && Plain(s.config)
    ensures var u := Step(s, Creation(parentOf, b));
            && Settled(u) && AllAssignable(u.table) && u.config == s.config && u.foreground == s.foreground
            && u.foregroundProcesses == s.foregroundProcesses
            && b in u.table.byPid && u.table.cells[u.table.byPid[b]].parentId == parentOf(b)
            && HeldUnder(u.table, Key(b, parentOf(b)))
  {
    hide Step, AssignNew, WellFormed, Covered, AllAssignable, Plain, HeldUnder, Creation, IndexKept;
    var env, f := World([], parentOf), parentOf(b);
    assert env.alive(b) && env.cgroup(b) == Some("user");
    CreationIs(s, parentOf, b);
    ChildIsHeld(s, env, b, f);
    NewOnIndex(s, env, b, f, "app", "app");
    NewAssignable(s, env, b, f, "app", "app") by { SettledParts(s); }
    hide World;
    AssignNewKeepsSettled(s, env, b, f, "app", "app");
    CounterKeepsSettled(AssignNew(s, env, b, f, "app", "app"), s.gcCounter + 1);
    SettledParts(Step(s, Creation(parentOf, b)));
  }

  lemma AssignNewKeepsSettled(s: State, env: Env, pid: Pid, parentPid: Pid, name: string, cmdline: string)
    requires Settled(s) && SameParent(s.table, pid, parentPid) && SameLists(s, AssignNew(s, env, pid, parentPid, name, cmdline))
    ensures Settled(AssignNew(s, env, pid, parentPid, name, cmdline))
  {
    hide AssignNew, Sound, Linked, Covered, PipewireSound, SameParent;
    AssignNewKeepsCovered(s, env, pid, parentPid, name, cmdline);
    AssignNewKeepsWellFormed(s, env, pid, parentPid, name, cmdline);
  }

  /** It descends from the foreground process by the parent it names. */
  lemma HeldChildDescends(s: State, env: Env, r: Ref, p: Process, f: Pid)
    requires WellFormed(s) && ValidEnv(env) && env.listing.Some? && s.foreground.Some? && s.config.foreground.Some?
    requires r in BeforeForeground(s, env).table.cells && p == RecordOf(env, BeforeForeground(s, env).table.cells[r].id, false)
    requires p.parentId == f
    ensures DescendsUnder(Scanned(s, env).table, p.HashId(), f)
  {
    hide Scanned, BeforeForeground, ProcessMapRefresh, ValidEnv, RecordOf, AssignableWhenRead, HeldWhenRead,
         Findable, IsListed, Ancestors, Agrees, Steady, FixedAgree, Grown;
    ScannedDecides(s, env, r);
    ScanReady(s, env);
    SoundFinds(Scanned(s, env).table, r);
    assert Scanned(s, env).table.cells[r].parentId == f;
  }

  /** What is read of the child, wherever it is listed. */
  lemma HeldChildReads(s: State, env: Env, f: Pid, b: Pid)
    requires Settled(s) && ValidEnv(env) && IsListed(env, b) && AllAssignable(BeforeForeground(s, env).table)
    requires s.foreground.Some? && s.config.foreground.Some? && env.parentId(b) == Some(f)
    requires b in s.table.byPid && s.table.cells[s.table.byPid[b]].parentId == f && HeldUnder(s.table, Key(b, f))
    ensures var p := RecordOf(env, b, false);
            && Findable(s.table, p) && AssignableWhenRead(s, env, p) && HeldWhenRead(s, env, p)
            && DescendsUnder(Scanned(s, env).table, p.HashId(), f)
  {
    hide AsRead, HeldUnder, BeforeForeground, AssignableWhenRead, Scanned, ValidEnv, Linked, Covered,
         PipewireSound, Findable, DescendsUnder, HeldWhenLost;
    var p := RecordOf(env, b, false);
    assert p.id == b && p.HashId() == Key(b, f) && p.parentId == f;
    hide RecordOf;
    FindableWhenStable(s.table, p) by { SettledParts(s); }
    hide Sound;
    var r := ListedIsTracked(s, env, b);
    BeforeForegroundDecides(s, env, r);
    HeldChildDescends(s, env, r, p, f);
  }

  /** A held child of the foreground process that is not yet on the cached list keeps the background profile. */
  lemma HeldChildIsStranded(s: State, listing: seq<Pid>, parentOf: Pid -> Pid, f: Pid, b: Pid)
    requires Settled(s) && AllAssignable(s.table) && Plain(s.config) && NoDuplicates(listing) && b in listing
    requires s.foreground == Some(f) && b != f && b !in s.foregroundProcesses && parentOf(b) == f
    requires s.config.pipewire.None? && s.config.foreground.Some?
    requires s.config.foreground.value.foreground != s.config.foreground.value.background
    requires b in s.table.byPid && s.table.cells[s.table.byPid[b]].parentId == f && HeldUnder(s.table, Key(b, f))
    ensures !Agrees(ProcessMapRefresh(s, World(listing, parentOf)))
  {
    hide Agrees, HeldUnder, ProcessMapRefresh, BeforeForeground, AssignableWhenRead, Plain, AllAssignable,
         Scanned, ValidEnv, HeldWhenRead, World, WellFormed, Covered, Findable, DescendsUnder, RecordOf,
         StrandedUnlisted;
    var env := World(listing, parentOf);
    WorldIsValid(listing, parentOf);
    WorldLists(listing, parentOf);
    assert Readable(env, b) && IsListed(env, b);
    hide IsListed;
    RefreshAssignable(s, listing, parentOf);
    HeldChildReads(s, env, f, b);
    assert RecordOf(env, b, false).id == b by { RecordIsOf(env, b); }
    assert Stranded(s, env, b);
    hide Stranded;
    RefreshAgreesExactly(s, env);
  }

  lemma RecordIsOf(env: Env, pid: Pid)
    ensures RecordOf(env, pid, false).id == pid
  {
  }

  /**
   * The foreground process plays, a reload drops the pipewire profile, and a child of the foreground
   * process starts: it is still held for its parent. The next refresh puts it on the foreground
   * list but passes it over, so that it keeps the background profile.
   */
  lemma HeldChildKeepsOldSide(c: SchedulerConfig, d: SchedulerConfig, f: Pid, b: Pid, parent: Pid)
    requires Plain(c) && Configured(c) && Plain(d) && d.pipewire.None? && d.foreground.Some? && f != b
    requires d.foreground.value.foreground != d.foreground.value.background
    ensures var parentOf := FamilyOf(f, b, parent);
            var env := World([], parentOf);
            !Agrees(Run(Initial(c), [Input(SetForegroundProcess(f), env), Addition(parentOf, f), Input(ReloadConfiguration(d), env),
                                     Creation(parentOf, b), Input(RefreshProcessMap, World([f, b], parentOf))]))
  {
    hide Step, Run, World, Creation, Addition, Plain, Agrees, AllAssignable, WellFormed, Covered, HeldUnder;
    var parentOf := FamilyOf(f, b, parent);
    var env := World([], parentOf);
    var s1 := Step(Initial(c), Input(SetForegroundProcess(f), env));
    StartsForeground(c, [], parentOf, f);
    StartedRuns(s1, c, f, parentOf(f));
    hide Started;
    var s2 := Step(s1, Addition(parentOf, f));
    AdditionRuns(s1, c, 1, parentOf, f);
    AdditionIs(s1, parentOf, f);
    var s3 := Step(s2, Input(ReloadConfiguration(d), env));
    ReloadStep(s2, d, env);
    ReloadSettled(s2, d);
    var s4 := Step(s3, Creation(parentOf, b));
    ChildStarts(s3, parentOf, b);
    HeldChildIsStranded(s4, [f, b], parentOf, f, b);
    RefreshStep(s4, World([f, b], parentOf));
    FiveSteps(Initial(c), Input(SetForegroundProcess(f), env), Addition(parentOf, f), Input(ReloadConfiguration(d), env),
              Creation(parentOf, b), Input(RefreshProcessMap, World([f, b], parentOf)));
  }

  // ---------------------------------------------------------------------------------------
  // Pids that are used again
  // ---------------------------------------------------------------------------------------

  /** A created process under an unknown pid is linked to its parent, and the others stay as they are. */
  lemma CreationLinks(s: State, parentOf: Pid -> Pid, pid: Pid)
    requires Settled(s) && pid !in s.table.byPid && s.gcCounter < GC_INTERVAL
    ensures var t, u := s.table, Step(s, Creation(parentOf, pid)).table;
            && IndexKept(t, u)
            && pid in u.byPid && u.byPid[pid] in u.cells && u.cells[u.byPid[pid]].parentId == parentOf(pid)
            && u.cells[u.byPid[pid]].parent == (if parentOf(pid) in t.byPid then Some(t.byPid[parentOf(pid)]) else None)
  {
    CreationIs(s, parentOf, pid);
    NewOnIndex(s, World([], parentOf), pid, parentOf(pid), "app", "app");
    hide AssignNew, Step, Settled, World;
  }

  /** A process under an unknown pid closes no circle. */
  lemma CreationIsSafe(s: State, parentOf: Pid -> Pid, pid: Pid)
    requires Settled(s) && Walkable(s) && pid !in s.table.byPid && s.gcCounter < GC_INTERVAL
    ensures var u := Step(s, Creation(parentOf, pid));
            Settled(u) && Walkable(u) && u.gcCounter == s.gcCounter + 1 && u.pipewireProcesses == s.pipewireProcesses
  {
    hide Step, AssignNew, Acyclic, SafeInsert, WellFormed, Covered, CreatedProcess;
    var env := World([], parentOf);
    var u, p := AssignNew(s, env, pid, parentOf(pid), "app", "app"), CreatedProcess(s.table, env, pid, parentOf(pid), "app", "app");
    CreationIs(s, parentOf, pid);
    hide World, Creation;
    SettledParts(s);
    SoundIsKeyed(s.table);
    AssignNewKeepsCovered(s, env, pid, parentOf(pid), "app", "app");
    CreatedIs(s.table, env, pid, parentOf(pid), "app", "app");
    hide Sound;
    VacantIsSafe(s.table, p);
    RecordingWalksExactly(s, env, pid, parentOf(pid), "app", "app");
    CounterKeepsSettled(u, s.gcCounter + 1);
    CounterKeepsWalkable(u, s.gcCounter + 1);
  }

  lemma CreatedIs(t: Table, env: Env, pid: Pid, parentPid: Pid, name: string, cmdline: string)
    ensures var p := CreatedProcess(t, env, pid, parentPid, name, cmdline);
            && p.HashId() == Key(pid, parentPid) && p.id == pid
            && p.parent == if parentPid in t.byPid then Some(t.byPid[parentPid]) else None
  {
  }

  lemma VacantIsSafe(t: Table, p: Process)
    requires Keyed(t) && Covered(t) && p.id !in t.byPid
    ensures SafeInsert(t, p)
  {
    UnknownPidIsVacant(t, p);
  }

  lemma CounterKeepsWalkable(s: State, counter: nat)
    requires Walkable(s)
    ensures Walkable(s.(gcCounter := counter))
  {
  }

  /** Inserting over a cell that the new parent links to makes the walk from that cell endless. */
  lemma CircleOfTwo(s: State, env: Env, p: Pid, q: Pid, n: nat)
    requires Settled(s) && p != q && p in s.table.byPid && q in s.table.byPid
    requires var t := s.table;
             && t.cells[t.byPid[p]].parentId == q && t.cells[t.byPid[q]].parent == Some(t.byPid[p])
    ensures var u := AssignNew(s, env, p, q, "app", "app");
            && !SafeNew(s, env, p, q, "app", "app") && (s.pipewireProcesses == [] ==> !NewHalts(s, env, p, q, "app", "app"))
            && p in u.table.byPid && |Walk(u.table, Some(u.table.byPid[p]), n)| == n
  {
    hide AssignNew, CreatedProcess, OthersKept, Insert, InsertRef, Walk, SameShape, Covered, PidIndexed, Allocated;
    var t, u := s.table, AssignNew(s, env, p, q, "app", "app").table;
    var x, r, w := CreatedProcess(t, env, p, q, "app", "app"), t.byPid[p], t.byPid[q];
    SettledParts(s);
    SoundIsKeyed(t);
    CoveredKey(t, p, q);
    CreatedIs(t, env, p, q, "app", "app");
    AssignNewRecordsOne(s, env, p, q, "app", "app");
    assert r in t.cells && w in t.cells && r != w by { SoundEntries(t, p, q); }
    TwoCells(t, r, w);
    OverwritingIs(t, x, r);
    hide Sound, Keyed;
    OverwritingClosesCircle(t, Insert(t, x), r);
    EndlessWalk(Insert(t, x), Some(r), n);
    if s.pipewireProcesses == [] {
      EndlessRecording(t, x, r);
    }
    ShapeKeepsNames(Insert(t, x), u);
    assert u.byPid == t.byPid by { ShapeKeepsPids(Insert(t, x), u); }
    SameWalk(Insert(t, x), u, Some(r), Some(r), n);
  }

  /** With nobody on the pipewire list, the search for a holder goes all the way. */
  lemma EndlessRecording(t: Table, p: Process, r: Ref)
    requires r == InsertRef(t, p) && r in Insert(t, p).cells && !Ends(Insert(t, p), Some(r))
    ensures !RecordingHalts(t, p, [])
  {
    hide Insert, InsertRef, Ends, Ancestors, PipewireAncestor;
    var u := Insert(t, p);
    NoHolder(u, Ancestors(u, u.cells[r]), []);
    if Ends(u, u.cells[r].parent) {
      EndsBefore(u, r);
    }
  }

  lemma SoundEntries(t: Table, p: Pid, q: Pid)
    requires Sound(t) && p in t.byPid && q in t.byPid && p != q
    ensures t.byPid[p] in t.cells && t.byPid[q] in t.cells && t.byPid[p] != t.byPid[q]
  {
  }

  lemma ShapeKeepsPids(t: Table, u: Table)
    requires SameShape(t, u)
    ensures t.byPid == u.byPid
  {
  }

  lemma OverwritingIs(t: Table, p: Process, r: Ref)
    requires Keyed(t) && p.HashId() in t.byKey && t.byKey[p.HashId()] == r
    ensures var u := Insert(t, p);
            && InsertRef(t, p) == r && r in t.cells && r in u.cells && u.cells[r].parent == p.parent
            && u.byPid == t.byPid && AgreeBeyond(t, u, r)
  {
  }

  lemma TwoCells(t: Table, r: Ref, w: Ref)
    requires r in t.cells && w in t.cells && r != w && t.cells[w].parent == Some(r)
    ensures r in Walk(t, Some(w), |t.cells|)
  {
    assert {r, w} <= t.cells.Keys;
    SubsetCardinality({r, w}, t.cells.Keys);
    assert |t.cells.Keys| == |t.cells|;
    WalkPrefix(t, Some(w), 2, |t.cells|);
    assert Walk(t, Some(r), 1) == [r] + Walk(t, t.cells[r].parent, 0);
    assert Walk(t, Some(w), 2) == [w] + Walk(t, Some(r), 1);
    assert Walk(t, Some(w), 2)[1] == r;
  }

  /** Two processes that start each other in turn, the second time under a pid that was used before. */
  ghost function ReuseRun(p: Pid, q: Pid): seq<Input> {
    [Creation(pid => q, p), Creation(pid => p, q)]
  }

  /**
   * A pid that is used again between two refreshes may close a circle of parent links: from the
   * third event on, the walk from the process is endless. No walk was before it. The event is not a
   * safe one, and it is not handled to the end, since nobody on the pipewire list cuts the walk short.
   */
  lemma ReusedPidClosesCircle(c: SchedulerConfig, p: Pid, q: Pid, n: nat)
    requires p != q
    ensures var s := Run(Initial(c), ReuseRun(p, q));
            var again := Creation(pid => q, p);
            && Walkable(s) && !Safe(s, again) && !Halts(s, again)
            && var t := Step(s, again).table;
               p in t.byPid && |Walk(t, Some(t.byPid[p]), n)| == n
  {
    hide Run, Step, Creation, World, Settled, Agrees, Walkable, Walk, SafeNew, SafeChildren, NewHalts, Safe, Halts;
    var s0 := Initial(c);
    InitialAgrees(c);
    InitialIsWalkable(c);
    var first, second, again := Creation(pid => q, p), Creation(pid => p, q), Creation(pid => q, p);
    var s1, s2 := Step(s0, first), Step(Step(s0, first), second);
    TwoSteps(s0, first, second);
    CreationIsSafe(s0, pid => q, p);
    CreationLinks(s0, pid => q, p);
    CreationAddsOne(s0, pid => q, p, q);
    CreationIsSafe(s1, pid => p, q);
    CreationLinks(s1, pid => p, q);
    assert s2.table.byPid[p] == s1.table.byPid[p] && s2.table.cells[s2.table.byPid[p]] == s1.table.cells[s1.table.byPid[p]];
    CircleOfTwo(s2, World([], pid => q), p, q, n);
    CreationIs(s2, pid => q, p);
    UnsafeCreation(s2, pid => q, p);
  }

  lemma UnsafeCreation(s: State, parentOf: Pid -> Pid, pid: Pid)
    requires !SafeNew(s, World([], parentOf), pid, parentOf(pid), "app", "app")
    requires !NewHalts(s, World([], parentOf), pid, parentOf(pid), "app", "app")
    ensures !Safe(s, Creation(parentOf, pid)) && !Halts(s, Creation(parentOf, pid))
  {
    hide SafeNew, SafeChildren, NewHalts, ChildrenHalt;
  }

  // ---------------------------------------------------------------------------------------
  // A listing with a circle of parents
  // ---------------------------------------------------------------------------------------

  /** Two processes that are read as each other's parents, and others. */
  ghost function Crossed(p: Pid, q: Pid): Pid -> Pid {
    pid => if pid == p then q else if pid == q then p else 0
  }

  lemma CrossedCircle(p: Pid, q: Pid, f: Pid)
    ensures Circle(EMPTY, ListedParents(World([p, q, f], Crossed(p, q)), [p, q, f]), [p, q])
  {
    ListedParentsAre(World([p, q, f], Crossed(p, q)), [p, q, f]);
    assert p in [p, q, f] && q in [p, q, f];
    hide ListedParents;
  }

  lemma PlainHalts(c: SchedulerConfig, t: Table, p: Process)
    requires Plain(c)
    ensures DecisionHalts(c, t, p)
  {
  }

  lemma FromEmpty(c: SchedulerConfig, env: Env)
    requires ValidEnv(env) && env.listing.Some?
    ensures var u := Step(Initial(c), Input(RefreshProcessMap, env));
            && u == BeforeForeground(Initial(c), env) && WellFormed(u) && SameLists(Initial(c), u)
  {
    InitialAgrees(c);
    BeforeForegroundIs(Initial(c), env);
    hide BeforeForeground, WellFormed, Agrees, Current, Findable;
    RefreshStep(Initial(c), env);
    RefreshFromBefore(Initial(c), env);
  }

  /** With no assignments, the first refresh searches no ancestors. */
  lemma FirstRefreshHalts(c: SchedulerConfig, env: Env)
    requires Plain(c) && ValidEnv(env) && env.listing.Some?
    ensures Halts(Initial(c), Input(RefreshProcessMap, env))
  {
    hide Plain, DecisionHalts, WellFormed, Refreshed, Listed, ListedParents;
    FromEmpty(c, env);
    hide ValidEnv, BeforeForeground;
    var t := Refreshed(EMPTY, Listed(env, env.listing.value, false), ListedParents(env, env.listing.value));
    forall r | r in t.cells
      ensures DecisionHalts(c, t, t.cells[r])
    {
      PlainHalts(c, t, t.cells[r]);
    }
  }

  /** A circle among the listed parents is not safe: the first refresh leaves a walk without end. */
  lemma FirstRefreshLinks(c: SchedulerConfig, env: Env, circle: seq<Pid>)
    requires ValidEnv(env) && env.listing.Some? && Circle(EMPTY, ListedParents(env, env.listing.value), circle)
    ensures var input := Input(RefreshProcessMap, env);
            !Safe(Initial(c), input) && !Acyclic(Step(Initial(c), input).table)
  {
    hide Listed, ListedParents, Refreshed, Circle, Acyclic, DecideSome, SameShape, Step, WellFormed;
    var s0 := Initial(c);
    var t := Refreshed(EMPTY, Listed(env, env.listing.value, false), ListedParents(env, env.listing.value));
    FromEmpty(c, env);
    InitialIsWalkable(c);
    RefreshingWalksExactly(s0, env);
    RefreshKeepsTable(s0, env, false, ListedParents(env, env.listing.value));
    DecideKeepsShape(c, t, t.byKey.Values);
    ShapeKeepsAcyclic(t, BeforeForeground(s0, env).table);
  }

  lemma EndlessParent(t: Table, r: Ref) returns (w: Ref)
    requires Linked(t) && r in t.cells && !Ends(t, Some(r))
    ensures w in t.cells && t.cells[w].id == t.cells[r].parentId && !Ends(t, Some(w)) && t.cells[r].parent == Some(w)
  {
    var link := t.cells[r].parent;
    if Ends(t, link) {
      EndsBefore(t, r);
    }
    EndlessWalk(t, link, 1);
    w := link.value;
    assert LinkedAt(t, r);
  }

  ghost predicate CrossedRecord(t: Table, p: Pid, q: Pid, f: Pid, r: Ref)
    requires r in t.cells
  {
    t.cells[r].id in t.byPid && t.cells[r].id in [p, q, f] && t.cells[r].parentId == Crossed(p, q)(t.cells[r].id)
  }

  /** No record names `f` as its parent, so no search for `f` succeeds; those that start on the circle do not end. */
  lemma CircleStopsSearch(t: Table, p: Pid, q: Pid, f: Pid)
    requires Linked(t) && !Acyclic(t) && AllAssignable(t) && PidIndexed(t) && f != 0 && f != p && f != q
    requires forall r :: r in t.cells ==> CrossedRecord(t, p, q, f, r)
    ensures !DescentsHalt(t, f)
  {
    var r :| r in t.cells && !Ends(t, Some(r));
    if t.cells[r].id == f {
      r := EndlessParent(t, r);
    }
    assert t.cells[r].id != f;
    var w := EndlessParent(t, r);
    assert forall v :: v in t.cells ==> t.cells[v].parentId != f;
    assert LinkedAt(t, r);
    DescentByParentIds(t, t.cells[r], f);
    hide Ends, DescendedFrom, Linked, Acyclic;
    assert Assignment(t, t.cells[r].id) == Assignable;
    hide Assignment;
    assert !DescentAtHalts(t, r, f);
  }

  /**
   * Two processes that are listed as each other's parents: the refresh over the listing ends, since the
   * configuration makes it walk no ancestors, but it is not a safe event. It leaves a walk without
   * end, and the next event that sets a foreground process is not handled to the end.
   */
  lemma ListedCircleIsLinked(c: SchedulerConfig, p: Pid, q: Pid, f: Pid)
    requires Plain(c) && c.foreground.Some? && p != q && f != 0 && f != p && f != q
    ensures var env := World([p, q, f], Crossed(p, q));
            var refresh, set_ := Input(RefreshProcessMap, env), Input(SetForegroundProcess(f), env);
            var s := Step(Initial(c), refresh);
            && Halts(Initial(c), refresh) && !Safe(Initial(c), refresh) && !Acyclic(s.table) && !Halts(s, set_)
  {
    hide World, Plain, WellFormed, Acyclic, Halts, Safe, Step, AllAssignable, DescentsHalt, AssignChildren, CrossedRecord,
         Circle, ValidEnv, ListedParents;
    var env := World([p, q, f], Crossed(p, q));
    var s := Step(Initial(c), Input(RefreshProcessMap, env));
    WorldLists([p, q, f], Crossed(p, q));
    WorldIsValid([p, q, f], Crossed(p, q));
    CrossedCircle(p, q, f);
    FirstRefreshHalts(c, env);
    FirstRefreshLinks(c, env, [p, q]);
    CrossedRecords(c, p, q, f);
    WellFormedIsSound(s);
    hide Sound, Linked;
    assert PidIndexed(s.table) by { WellFormedIsSound(s); SoundIsKeyed(s.table); }
    CircleStopsSearch(s.table, p, q, f) by { WellFormedIsSound(s); }
    LoneChildren(s, [p, q, f], Crossed(p, q), f);
    SettingStops(s, env, f);
  }

  /** The records of the listing, all of which the pid index finds. */
  lemma CrossedRecords(c: SchedulerConfig, p: Pid, q: Pid, f: Pid)
    requires Plain(c) && p != q && f != p && f != q
    ensures var s := Step(Initial(c), Input(RefreshProcessMap, World([p, q, f], Crossed(p, q))));
            && WellFormed(s) && AllAssignable(s.table) && s.config == c && f in s.table.byPid
            && forall r :: r in s.table.cells ==> CrossedRecord(s.table, p, q, f, r)
  {
    hide World, Plain, WellFormed, Step, AllAssignable, Findable, BeforeForeground, ValidEnv, Agrees, Current;
    var listing, parentOf := [p, q, f], Crossed(p, q);
    var env, s0 := World(listing, parentOf), Initial(c);
    WorldIsValid(listing, parentOf);
    WorldLists(listing, parentOf);
    InitialAgrees(c);
    FromEmpty(c, env);
    RefreshAssignable(s0, listing, parentOf) by { EmptyIsAssignable(); }
    assert IsListed(env, f) by { assert Readable(env, f) && f in listing; }
    AllFindable();
    ListedRecords(s0, env);
    var r := ListedIsTracked(s0, env, f);
  }

  /** With an empty table before, every record of a listed process is read of the world, and can be found. */
  lemma ListedRecords(s: State, env: Env)
    requires WellFormed(s) && ValidEnv(env) && env.listing.Some? && forall p: Process :: Findable(s.table, p)
    ensures var t := BeforeForeground(s, env).table;
            forall r :: r in t.cells ==>
                          && t.cells[r].id in t.byPid && t.cells[r].id in env.listing.value
                          && t.cells[r].parentId == env.parentId(t.cells[r].id).GetOr(0)
  {
    hide BeforeForeground, ValidEnv, Findable, WellFormed, Agrees, SameLists;
    BeforeForegroundIs(s, env);
  }

  lemma AllFindable()
    ensures forall p: Process :: Findable(EMPTY, p)
  {
  }

  lemma SettingStops(s: State, env: Env, f: Pid)
    requires s.config.foreground.Some? && AssignChildren(s, env, f) == s && !DescentsHalt(s.table, f)
    ensures !Halts(s, Input(SetForegroundProcess(f), env))
  {
    hide DescentsHalt, ChildrenHalt, AssignChildren;
  }

  lemma WorldLists(listing: seq<Pid>, parentOf: Pid -> Pid)
    ensures World(listing, parentOf).listing == Some(listing)
    ensures forall pid :: Readable(World(listing, parentOf), pid) && World(listing, parentOf).parentId(pid) == Some(parentOf(pid))
    ensures StableEnv(World(listing, parentOf), parentOf)
  {
  }
}
