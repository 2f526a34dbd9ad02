/** Invariants that every event keeps, whatever the configuration and the world do. */
module EngineInvariants {
  import opened Basics
  import opened Scheduler
  import opened ProcessTable
  import opened TableOperations
  import opened Refresh
  import opened Classification
  import opened Worklist
  import opened Engine

  // ---------------------------------------------------------------------------------------
  // Changes that leave the structure of the table alone
  // ---------------------------------------------------------------------------------------

  /** Records that differ at most in what the engine decided about them. */
  ghost predicate SameButFate(p: Process, q: Process) {
    p.(assignedPriority := NotAssignable, pipewireAncestor := None) ==
    q.(assignedPriority := NotAssignable, pipewireAncestor := None)
  }

  ghost predicate SameShape(t: Table, u: Table) {
    && t.byKey == u.byKey && t.byPid == u.byPid && t.next == u.next
    && t.cells.Keys == u.cells.Keys
    && (forall r {:trigger u.cells[r]} :: r in t.cells ==> SameButFate(t.cells[r], u.cells[r]))
  }

  lemma ShapeKeepsSound(t: Table, u: Table)
    requires SameShape(t, u) && Sound(t)
    ensures Sound(u)
  {
    assert forall r {:trigger u.cells[r]} :: r in u.cells ==>
        u.cells[r].HashId() == t.cells[r].HashId() && u.cells[r].parent == t.cells[r].parent;
    hide SameShape, SameButFate;
    assert Keyed(u) by { hide PidIndexed, Allocated; }
    assert PidIndexed(u) by { hide Keyed, Allocated; }
    assert Allocated(u) by { hide Keyed, PidIndexed; }
  }

  lemma ShapeKeepsLinked(t: Table, u: Table)
    requires SameShape(t, u) && Linked(t)
    ensures Linked(u)
  {
    forall r | r in u.cells
      ensures LinkedAt(u, r)
    {
      assert LinkedAt(t, r);
    }
  }

  lemma ShapeKeepsCovered(t: Table, u: Table)
    requires SameShape(t, u) && Covered(t)
    ensures Covered(u)
  {
  }

  lemma ShapeKeepsRanked(t: Table, u: Table, rank: Pid -> nat)
    requires SameShape(t, u) && Ranked(t, rank)
    ensures Ranked(u, rank)
  {
  }

  lemma ShapeKeepsNames(t: Table, u: Table)
    requires SameShape(t, u)
    ensures SameNames(t, u)
    ensures forall r :: r in t.cells ==> SameEvidence(t, t.cells[r], u, u.cells[r])
  {
    assert forall r :: r in t.cells ==> SameButFate(t.cells[r], u.cells[r]);
  }

  /** The values of the key index are the cells of the table. */
  lemma ValuesAreCells(t: Table)
    requires Keyed(t)
    ensures t.byKey.Values == t.cells.Keys
  {
    forall r | r in t.cells
      ensures r in t.byKey.Values
    {
      assert t.cells[r].HashId() in t.byKey;
      assert t.byKey[t.cells[r].HashId()] == r;
    }
  }

  lemma DecideKeepsShape(c: SchedulerConfig, t: Table, done: set<Ref>)
    ensures SameShape(t, DecideSome(c, t, done))
    ensures forall r {:trigger DecideSome(c, t, done).cells[r]} ::
              r in t.cells ==> DecideSome(c, t, done).cells[r].pipewireAncestor == t.cells[r].pipewireAncestor
  {
  }

  lemma HoldKeepsShape(t: Table, pid: Pid, done: set<Ref>)
    ensures SameShape(t, HoldSome(t, pid, done))
  {
  }

  lemma ReleaseKeepsShape(t: Table, pid: Pid, done: set<Ref>)
    ensures SameShape(t, ReleaseSome(t, pid, done))
  {
  }

  // ---------------------------------------------------------------------------------------
  // Recording a process
  // ---------------------------------------------------------------------------------------

  lemma {:induction false} FirstNamedIsListed(p: Process, pids: seq<Pid>)
    ensures match FirstNamed(p, pids)
            case Some(a) => a in pids && (p.id == a || p.parentId == a)
            case None => forall a :: a in pids ==> p.id != a && p.parentId != a
  {
    if pids != [] && p.id != pids[0] && p.parentId != pids[0] {
      FirstNamedIsListed(p, pids[1..]);
      assert forall a :: a in pids <==> a == pids[0] || a in pids[1..];
    }
  }

  lemma {:induction false} PipewireAncestorIsListed(t: Table, walk: seq<Ref>, pids: seq<Pid>)
    ensures PipewireAncestor(t, walk, pids).Some? ==> PipewireAncestor(t, walk, pids).value in pids
  {
    if walk != [] {
      if walk[0] in t.cells {
        FirstNamedIsListed(t.cells[walk[0]], pids);
      }
      PipewireAncestorIsListed(t, walk[1..], pids);
    }
  }

  lemma CreatedLinksTrue(t: Table, env: Env, pid: Pid, parentPid: Pid, name: string, cmdline: string)
    requires Sound(t)
    ensures LinksTrue(t, CreatedProcess(t, env, pid, parentPid, name, cmdline))
  {
  }

  lemma SetCellKeepsShape(t: Table, r: Ref, p: Process)
    requires r in t.cells && SameButFate(t.cells[r], p)
    ensures SameShape(t, SetCell(t, r, p))
  {
  }

  lemma ShapeTransitive(t: Table, u: Table, v: Table)
    requires SameShape(t, u) && SameShape(u, v)
    ensures SameShape(t, v)
  {
    forall r | r in t.cells
      ensures SameButFate(t.cells[r], v.cells[r])
    {
      assert SameButFate(t.cells[r], u.cells[r]) && SameButFate(u.cells[r], v.cells[r]);
    }
  }

  /** Apart from the cell `r`, the cells of `u` are those of `t`. */
  ghost predicate OthersKept(t: Table, u: Table, r: Ref) {
    forall q {:trigger u.cells[q]} :: q in u.cells && q != r ==> q in t.cells && u.cells[q] == t.cells[q]
  }

  lemma InsertKeepsOthers(t: Table, p: Process)
    requires Keyed(t) && p.pipewireAncestor == None
    ensures OthersKept(t, Insert(t, p), InsertRef(t, p))
    ensures InsertRef(t, p) in Insert(t, p).cells
    ensures Insert(t, p).cells[InsertRef(t, p)].pipewireAncestor ==
              if p.HashId() in t.byKey then t.cells[InsertRef(t, p)].pipewireAncestor else None
  {
  }

  /** The table after recording `p` and deciding about it. */
  ghost predicate RecordsOne(t: Table, u: Table, p: Process, pipewire: seq<Pid>) {
    var r := InsertRef(t, p);
    && SameShape(Insert(t, p), u)
    && OthersKept(t, u, r)
    && r in u.cells
    && (u.cells[r].pipewireAncestor.Some? ==>
          || u.cells[r].pipewireAncestor.value in pipewire
          || (r in t.cells && u.cells[r].pipewireAncestor == t.cells[r].pipewireAncestor))
  }

  lemma RecordedIs(t: Table, p: Process, pipewire: seq<Pid>)
    requires Keyed(t) && p.pipewireAncestor == None
    ensures RecordsOne(t, Recorded(t, p, pipewire), p, pipewire)
  {
    hide Insert, InsertRef, Ancestors, PipewireAncestor, Keyed, SameShape;
    var i, r := Insert(t, p), InsertRef(t, p);
    InsertKeepsOthers(t, p);
    var ancestor := PipewireAncestor(i, Ancestors(i, i.cells[r]), pipewire);
    PipewireAncestorIsListed(i, Ancestors(i, i.cells[r]), pipewire);
    InsertKeepsAncestor(t, p);
    SetCellKeepsShape(i, r, WithPipewireAncestor(i.cells[r], ancestor));
  }

  lemma InsertKeepsAncestor(t: Table, p: Process)
    requires Keyed(t) && p.pipewireAncestor == None
    ensures var r := InsertRef(t, p);
            r in Insert(t, p).cells && Insert(t, p).cells[r].pipewireAncestor.Some? ==>
              r in t.cells && Insert(t, p).cells[r].pipewireAncestor == t.cells[r].pipewireAncestor
  {
  }

  lemma DecidedIs(t: Table, u: Table, p: Process, pipewire: seq<Pid>, c: SchedulerConfig)
    requires RecordsOne(t, u, p, pipewire)
    ensures var r := InsertRef(t, p);
            RecordsOne(t, SetCell(u, r, Decided(c, u, u.cells[r])), p, pipewire)
  {
    hide Classify, Insert;
    var r := InsertRef(t, p);
    var v := SetCell(u, r, Decided(c, u, u.cells[r]));
    SetCellKeepsShape(u, r, Decided(c, u, u.cells[r]));
    ShapeTransitive(Insert(t, p), u, v);
    hide SameShape;
  }

  /** Everything but the table and the applied profiles. */
  ghost predicate SameLists(s: State, u: State) {
    && s.config == u.config && s.foreground == u.foreground && s.foregroundProcesses == u.foregroundProcesses
    && s.pipewireProcesses == u.pipewireProcesses && s.gcCounter == u.gcCounter
  }

  lemma AssignNewRecordsOne(s: State, env: Env, pid: Pid, parentPid: Pid, name: string, cmdline: string)
    requires Keyed(s.table)
    ensures var u, p := AssignNew(s, env, pid, parentPid, name, cmdline), CreatedProcess(s.table, env, pid, parentPid, name, cmdline);
            && RecordsOne(s.table, u.table, p, s.pipewireProcesses)
            && SameLists(s, u)
            && var choice := Pick(u, u.table.cells[InsertRef(s.table, p)]);
               u.applied == if choice.Some? then s.applied[pid := choice.value] else s.applied
  {
    var p := CreatedProcess(s.table, env, pid, parentPid, name, cmdline);
    assert p.id == pid && p.pipewireAncestor == None;
    hide Keyed, CreatedProcess, Recorded, Decided, Pick, SameShape, OthersKept, InsertRef;
    var r := InsertRef(s.table, p);
    var t := Recorded(s.table, p, s.pipewireProcesses);
    RecordedIs(s.table, p, s.pipewireProcesses);
    var u := SetCell(t, r, Decided(s.config, t, t.cells[r]));
    DecidedIs(s.table, t, p, s.pipewireProcesses, s.config);
    RecordedCell(s.table, u, p, s.pipewireProcesses);
    ApplyPriorityIs(s.(table := u), r);
    hide RecordsOne, SetCell;
    assert AssignNew(s, env, pid, parentPid, name, cmdline) == ApplyPriority(s.(table := u), r);
  }

  lemma ApplyPriorityIs(s: State, r: Ref)
    requires r in s.table.cells
    ensures var u, choice := ApplyPriority(s, r), Pick(s, s.table.cells[r]);
            && u.table == s.table && SameLists(s, u)
            && u.applied == (if choice.Some? then s.applied[s.table.cells[r].id := choice.value] else s.applied)
            && Pick(u, u.table.cells[r]) == choice
  {
  }

  lemma RecordedCell(t: Table, u: Table, p: Process, pipewire: seq<Pid>)
    requires Keyed(t) && RecordsOne(t, u, p, pipewire)
    ensures InsertRef(t, p) in u.cells && u.cells[InsertRef(t, p)].HashId() == p.HashId()
  {
    var r := InsertRef(t, p);
    assert SameButFate(Insert(t, p).cells[r], u.cells[r]);
  }

  // ---------------------------------------------------------------------------------------
  // The listing
  // ---------------------------------------------------------------------------------------

  lemma {:induction false} ListedIs(env: Env, pids: seq<Pid>, bare: bool)
    ensures var ps := Listed(env, pids, bare);
            && (forall p :: p in ps ==> p.id in pids && env.cmdline(p.id).Some? && p == RecordOf(env, p.id, bare))
            && (forall pid :: pid in pids && env.cmdline(pid).Some? ==> RecordOf(env, pid, bare) in ps)
  {
    if pids != [] {
      var init := pids[..|pids| - 1];
      ListedIs(env, init, bare);
      assert forall pid :: pid in pids <==> pid in init || pid == pids[|pids| - 1];
    }
  }

  lemma {:induction false} ListedIsListing(env: Env, pids: seq<Pid>, bare: bool)
    requires NoDuplicates(pids)
    ensures IsListing(Listed(env, pids, bare))
  {
    if pids != [] {
      var init, pid := pids[..|pids| - 1], pids[|pids| - 1];
      ListedIsListing(env, init, bare);
      ListedIs(env, init, bare);
      ListedIs(env, pids, bare);
      var ps := Listed(env, init, bare);
      assert pid !in init;
      forall i | 0 <= i < |ps|
        ensures ps[i].id != pid
      {
        assert ps[i] in ps;
      }
    }
  }

  lemma {:induction false} ListedParentsAre(env: Env, pids: seq<Pid>)
    ensures forall pid :: pid in ListedParents(env, pids) <==>
                            pid in pids && env.cmdline(pid).Some? && env.parentId(pid).Some?
    ensures forall pid :: pid in ListedParents(env, pids) ==> ListedParents(env, pids)[pid] == env.parentId(pid).value
  {
    if pids != [] {
      var init := pids[..|pids| - 1];
      ListedParentsAre(env, init);
      assert forall pid :: pid in pids <==> pid in init || pid == pids[|pids| - 1];
    }
  }

  lemma ListedParentsFit(env: Env, pids: seq<Pid>)
    ensures ParentsOf(Records(Listed(env, pids, false)), ListedParents(env, pids))
    ensures ParentsOf(Records(Listed(env, pids, true)), map[])
  {
    ListedParentsAre(env, pids);
    ListedIs(env, pids, false);
    var parents := ListedParents(env, pids);
    forall pid | pid in parents
      ensures Key(pid, parents[pid]) in Records(Listed(env, pids, false))
    {
      assert RecordOf(env, pid, false).HashId() == Key(pid, parents[pid]);
    }
  }

  // ---------------------------------------------------------------------------------------
  // Well-formed states
  // ---------------------------------------------------------------------------------------

  /** A recorded pipewire ancestor is a current pipewire process, and none is listed twice. */
  ghost predicate PipewireSound(s: State) {
    && NoDuplicates(s.pipewireProcesses)
    && (forall r :: r in s.table.cells && s.table.cells[r].pipewireAncestor.Some? ==>
                      s.table.cells[r].pipewireAncestor.value in s.pipewireProcesses)
  }

  ghost predicate WellFormed(s: State) {
    Sound(s.table) && Linked(s.table) && PipewireSound(s)
  }

  lemma WellFormedIsSound(s: State)
    requires WellFormed(s)
    ensures Sound(s.table) && Linked(s.table)
  {
  }

  lemma AssignNewKeepsTable(s: State, env: Env, pid: Pid, parentPid: Pid, name: string, cmdline: string)
    requires Sound(s.table) && Linked(s.table)
    ensures Sound(AssignNew(s, env, pid, parentPid, name, cmdline).table)
    ensures Linked(AssignNew(s, env, pid, parentPid, name, cmdline).table)
  {
    var p := CreatedProcess(s.table, env, pid, parentPid, name, cmdline);
    CreatedLinksTrue(s.table, env, pid, parentPid, name, cmdline);
    InsertKeepsSound(s.table, p);
    InsertKeepsLinked(s.table, p);
    AssignNewRecordsOne(s, env, pid, parentPid, name, cmdline);
    hide SameShape, AssignNew, Insert, CreatedProcess;
    ShapeKeepsSound(Insert(s.table, p), AssignNew(s, env, pid, parentPid, name, cmdline).table);
    ShapeKeepsLinked(Insert(s.table, p), AssignNew(s, env, pid, parentPid, name, cmdline).table);
  }

  lemma AssignNewKeepsWellFormed(s: State, env: Env, pid: Pid, parentPid: Pid, name: string, cmdline: string)
    requires WellFormed(s)
    ensures WellFormed(AssignNew(s, env, pid, parentPid, name, cmdline))
  {
    AssignNewKeepsTable(s, env, pid, parentPid, name, cmdline);
    AssignNewRecordsOne(s, env, pid, parentPid, name, cmdline);
    hide SameShape, AssignNew, Insert, CreatedProcess, Sound, Linked, InsertRef;
  }

  lemma {:induction false} AssignTasksKeepsWellFormed(s: State, env: Env, tasks: seq<Pid>)
    requires WellFormed(s)
    ensures WellFormed(AssignTasks(s, env, tasks))
    ensures SameLists(s, AssignTasks(s, env, tasks))
  {
    hide WellFormed;
    if tasks != [] {
      var before, pid := AssignTasks(s, env, tasks[..|tasks| - 1]), tasks[|tasks| - 1];
      AssignTasksKeepsWellFormed(s, env, tasks[..|tasks| - 1]);
      AssignTaskKeepsWellFormed(before, env, pid);
    }
  }

  lemma AssignTaskKeepsWellFormed(s: State, env: Env, pid: Pid)
    requires WellFormed(s)
    ensures WellFormed(AssignTask(s, env, pid))
    ensures SameLists(s, AssignTask(s, env, pid))
  {
    if env.parentId(pid).Some? && env.cmdline(pid).Some? {
      var cmdline := env.cmdline(pid).value;
      AssignNewKeepsWellFormed(s, env, pid, env.parentId(pid).value, BaseName(cmdline), cmdline);
      AssignNewRecordsOne(s, env, pid, env.parentId(pid).value, BaseName(cmdline), cmdline);
      hide AssignNew, WellFormed, RecordsOne;
    }
  }

  lemma RefreshKeepsPipewireSound(s: State, ps: seq<Process>, parents: map<Pid, Pid>)
    requires Sound(s.table) && PipewireSound(s) && IsListing(ps)
    requires forall p :: p in ps ==> p.pipewireAncestor == None
    ensures PipewireSound(s.(table := Refreshed(s.table, ps, parents)))
  {
    var u := Refreshed(s.table, ps, parents);
    RefreshIsExact(s.table, ps, parents);
    hide Refreshed, IsListing;
    forall r | r in u.cells
      ensures || u.cells[r].pipewireAncestor == None
              || (r in s.table.cells && u.cells[r].pipewireAncestor == s.table.cells[r].pipewireAncestor)
    {
      var p :| p in ps && p.HashId() == u.cells[r].HashId();
      assert RefreshedAs(s.table, u, p);
    }
  }

  lemma RefreshKeepsTable(s: State, env: Env, bare: bool, parents: map<Pid, Pid>)
    requires WellFormed(s) && ValidEnv(env) && env.listing.Some?
    requires parents == if bare then map[] else ListedParents(env, env.listing.value)
    ensures WellFormed(s.(table := Refreshed(s.table, Listed(env, env.listing.value, bare), parents)))
  {
    var pids := env.listing.value;
    var ps := Listed(env, pids, bare);
    ListedIsListing(env, pids, bare);
    ListedIs(env, pids, bare);
    ListedParentsFit(env, pids);
    assert forall p :: p in ps ==> p.pipewireAncestor == None;
    hide Listed, ListedParents, Refreshed, IsListing, Sound, Linked, PipewireSound, ParentsOf;
    RefreshSweeps(s.table, ps, parents);
    RefreshKeepsLinked(s.table, ps, parents);
    RefreshKeepsPipewireSound(s, ps, parents);
  }

  lemma GarbageCleanKeepsWellFormed(s: State, env: Env)
    requires WellFormed(s) && ValidEnv(env)
    ensures WellFormed(GarbageClean(s, env))
  {
    if s.gcCounter >= GC_INTERVAL && env.listing.Some? {
      RefreshKeepsTable(s, env, true, map[]);
      SweepIsRefresh(s.table, Listed(env, env.listing.value, true));
      hide Swept, Refreshed, Listed, Sound, Linked;
    }
  }

  lemma ShapeKeepsWellFormed(s: State, u: State)
    requires WellFormed(s) && SameShape(s.table, u.table) && PipewireSound(u)
    ensures WellFormed(u)
  {
    ShapeKeepsSound(s.table, u.table);
    ShapeKeepsLinked(s.table, u.table);
  }

  lemma AssignAndApplyAllKeepsWellFormed(s: State, env: Env)
    requires WellFormed(s)
    ensures WellFormed(AssignAndApplyAll(s, env)) && SameLists(s, AssignAndApplyAll(s, env))
  {
    DecideKeepsShape(s.config, s.table, s.table.byKey.Values);
    hide DecideSome, Sound, Linked, SameShape;
    ShapeKeepsWellFormed(s, AssignAndApplyAll(s, env));
  }

  lemma ForgettingIsWellFormed(s: State)
    requires WellFormed(s)
    ensures WellFormed(s.(foreground := None))
  {
  }

  lemma SetForegroundKeepsWellFormed(s: State, env: Env, pid: Pid)
    requires WellFormed(s)
    ensures WellFormed(SetForeground(s, env, pid))
  {
    AssignTasksKeepsWellFormed(s, env, Tasks(env.children, pid));
    hide Sound, Linked, AssignTasks, Tasks;
  }

  /** The state in which a refresh leaves the table and the profiles before the foreground is set again. */
  ghost function BeforeForeground(s: State, env: Env): State
    requires env.listing.Some?
  {
    var pids := env.listing.value;
    AssignAndApplyAll(s.(table := Refreshed(s.table, Listed(env, pids, false), ListedParents(env, pids))), env)
  }

  lemma RefreshFromBefore(s: State, env: Env)
    requires env.listing.Some?
    ensures var s1 := BeforeForeground(s, env);
            ProcessMapRefresh(s, env) == if s1.foreground.None? then s1
                                         else SetForeground(s1.(foreground := None), env, s1.foreground.value)
  {
  }

  lemma ProcessMapRefreshKeepsWellFormed(s: State, env: Env)
    requires WellFormed(s) && ValidEnv(env)
    ensures WellFormed(ProcessMapRefresh(s, env))
  {
    if env.listing.None? {
      DrainKeepsSound(s.table, s.table.byKey.Keys);
      PrepareKeepsLinked(s.table);
    } else {
      var parents := ListedParents(env, env.listing.value);
      RefreshKeepsTable(s, env, false, parents);
      var s0 := s.(table := Refreshed(s.table, Listed(env, env.listing.value, false), parents));
      AssignAndApplyAllKeepsWellFormed(s0, env);
      var s1 := AssignAndApplyAll(s0, env);
      hide Sound, Linked, Refreshed, Listed, ListedParents, AssignAndApplyAll, SetForeground;
      if s1.foreground.Some? {
        SetForegroundKeepsWellFormed(s1.(foreground := None), env, s1.foreground.value);
      }
    }
  }

  lemma HoldKeepsWellFormed(s: State, env: Env, profile: Profile, pid: Pid)
    requires WellFormed(s) && pid in s.pipewireProcesses
    ensures WellFormed(Hold(s, env, profile, pid))
  {
    HoldKeepsShape(s.table, pid, s.table.byKey.Values);
    hide Sound, Linked, SameShape, HeldBelow;
    ShapeKeepsWellFormed(s, Hold(s, env, profile, pid));
  }

  lemma ListingKeepsWellFormed(s: State, pid: Pid)
    requires WellFormed(s) && pid !in s.pipewireProcesses
    ensures WellFormed(s.(pipewireProcesses := s.pipewireProcesses + [pid]))
  {
  }

  lemma SetPipewireKeepsWellFormed(s: State, env: Env, pid: Pid)
    requires WellFormed(s)
    ensures WellFormed(SetPipewire(s, env, pid))
  {
    hide WellFormed, AssignChildren, Hold, Assignment;
    AssignChildrenKeepsWellFormed(s, env, pid);
    var s1 := AssignChildren(s, env, pid);
    if s1.config.pipewire.Some? {
      var profile := s1.config.pipewire.value;
      if pid in s1.pipewireProcesses {
        HoldKeepsWellFormed(s1, env, profile, pid);
      } else {
        ListingKeepsWellFormed(s1, pid);
        HoldKeepsWellFormed(s1.(pipewireProcesses := s1.pipewireProcesses + [pid]), env, profile, pid);
      }
    }
  }

  lemma {:induction false} WithoutIs(pids: seq<Pid>, pid: Pid)
    requires NoDuplicates(pids)
    ensures NoDuplicates(Without(pids, pid))
    ensures forall p :: p in Without(pids, pid) <==> p in pids && p != pid
  {
    if pids != [] {
      assert forall p :: p in pids <==> p == pids[0] || p in pids[1..];
      assert pids[0] !in pids[1..];
      WithoutIs(pids[1..], pid);
    }
  }

  lemma RemovePipewireKeepsWellFormed(s: State, env: Env, pid: Pid)
    requires WellFormed(s)
    ensures WellFormed(RemovePipewire(s, env, pid))
  {
    if pid in s.pipewireProcesses {
      ReleaseKeepsShape(s.table, pid, s.table.byKey.Values);
      ValuesAreCells(s.table);
      WithoutIs(s.pipewireProcesses, pid);
      hide Sound, Linked, SameShape;
      ShapeKeepsWellFormed(s, RemovePipewire(s, env, pid));
    }
  }

  lemma StepKeepsWellFormed(s: State, input: Input)
    requires WellFormed(s) && ValidEnv(input.env)
    ensures WellFormed(Step(s, input))
  {
    hide WellFormed, AssignNew, AssignChildren, SetForeground, SetPipewire, RemovePipewire, ProcessMapRefresh,
         GarbageClean;
    var env := input.env;
    match input.event
    case ExecCreate(pid, parentPid, name, cmdline) =>
      AssignNewKeepsWellFormed(s, env, pid, parentPid, name, cmdline);
      var s1 := AssignNew(s, env, pid, parentPid, name, cmdline);
      AssignChildrenKeepsWellFormed(s1, env, pid);
      GarbageCleanKeepsWellFormed(AssignChildren(s1, env, pid), env);
    case RefreshProcessMap =>
      ProcessMapRefreshKeepsWellFormed(s, env);
    case SetForegroundProcess(pid) =>
      SetForegroundKeepsWellFormed(s, env, pid);
      GarbageCleanKeepsWellFormed(SetForeground(s, env, pid), env);
    case PipewireAdd(pid) =>
      SetPipewireKeepsWellFormed(s, env, pid);
      GarbageCleanKeepsWellFormed(SetPipewire(s, env, pid), env);
    case PipewireRemove(pid) =>
      RemovePipewireKeepsWellFormed(s, env, pid);
    case ReloadConfiguration(config) =>
      ReloadKeepsWellFormed(s, config);
  }

  lemma AssignChildrenKeepsWellFormed(s: State, env: Env, pid: Pid)
    requires WellFormed(s)
    ensures WellFormed(AssignChildren(s, env, pid)) && SameLists(s, AssignChildren(s, env, pid))
  {
    hide WellFormed, Tasks;
    AssignTasksKeepsWellFormed(s, env, Tasks(env.children, pid));
  }

  lemma ReloadKeepsWellFormed(s: State, config: SchedulerConfig)
    requires WellFormed(s)
    ensures WellFormed(s.(config := config))
  {
  }

  /**
   * Whatever happens, configuration reloads, unreadable listings and pids that change their
   * parent included: at every event boundary the indexes are sound, a live parent link leads to
   * the process that the record names as its parent, and nothing is held on account of a
   * process that is not on the pipewire list.
   */
  lemma {:induction false} RunKeepsWellFormed(config: SchedulerConfig, inputs: seq<Input>)
    requires forall i :: 0 <= i < |inputs| ==> ValidEnv(inputs[i].env)
    ensures WellFormed(Run(Initial(config), inputs))
  {
    if inputs != [] {
      RunKeepsWellFormed(config, inputs[..|inputs| - 1]);
      StepKeepsWellFormed(Run(Initial(config), inputs[..|inputs| - 1]), inputs[|inputs| - 1]);
    }
  }

  /** After a pipewire process is removed, no tracked process is held on its account. */
  lemma RemovalReleasesAll(s: State, env: Env, pid: Pid)
    requires WellFormed(s)
    ensures var u := RemovePipewire(s, env, pid);
            && pid !in u.pipewireProcesses
            && forall r :: r in u.table.cells ==> u.table.cells[r].pipewireAncestor != Some(pid)
  {
    RemovePipewireKeepsWellFormed(s, env, pid);
    WithoutIs(s.pipewireProcesses, pid);
    hide RemovePipewire, Sound, Linked;
    assert pid !in RemovePipewire(s, env, pid).pipewireProcesses by {
      RemovedFromList(s, env, pid);
    }
  }

  /** The removal of a process that is not on the list changes nothing, held or not. */
  lemma NothingToRemove(s: State, env: Env, pid: Pid)
    requires pid !in s.pipewireProcesses
    ensures RemovePipewire(s, env, pid) == s
  {
  }

  lemma RemovedFromList(s: State, env: Env, pid: Pid)
    requires NoDuplicates(s.pipewireProcesses)
    ensures pid !in RemovePipewire(s, env, pid).pipewireProcesses
  {
    WithoutIs(s.pipewireProcesses, pid);
  }

  // ---------------------------------------------------------------------------------------
  // The pipewire list
  // ---------------------------------------------------------------------------------------

  /** Only additions and removals change the list, and additions only if there is a pipewire profile. */
  lemma StepOnList(s: State, input: Input)
    requires WellFormed(s)
    ensures var before, after := s.pipewireProcesses, Step(s, input).pipewireProcesses;
            match input.event
            case PipewireAdd(added) =>
              (forall p :: p in after ==> p in before || p == added) && (s.config.pipewire.None? ==> after == before)
            case PipewireRemove(removed) => forall p :: p in after ==> p in before && p != removed
            case _ => after == before
  {
    hide AssignNew, AssignChildren, Hold, Assignment, WellFormed;
    var env := input.env;
    match input.event
    case ExecCreate(pid, parentPid, name, cmdline) =>
      AssignNewKeepsWellFormed(s, env, pid, parentPid, name, cmdline);
      AssignNewKeepsLists(s, env, pid, parentPid, name, cmdline);
      AssignChildrenKeepsWellFormed(AssignNew(s, env, pid, parentPid, name, cmdline), env, pid);
      CleaningKeepsList(AssignChildren(AssignNew(s, env, pid, parentPid, name, cmdline), env, pid), env);
    case RefreshProcessMap =>
      RefreshingKeepsList(s, env);
    case SetForegroundProcess(pid) =>
      AssignChildrenKeepsWellFormed(s, env, pid);
      CleaningKeepsList(SetForeground(s, env, pid), env);
    case PipewireAdd(pid) =>
      AssignChildrenKeepsWellFormed(s, env, pid);
      HoldingKeepsList(s, env, pid);
      CleaningKeepsList(SetPipewire(s, env, pid), env);
    case PipewireRemove(pid) =>
      RemovingShrinksList(s, env, pid);
    case ReloadConfiguration(config) =>
  }

  lemma AssignNewKeepsLists(s: State, env: Env, pid: Pid, parentPid: Pid, name: string, cmdline: string)
    requires WellFormed(s)
    ensures SameLists(s, AssignNew(s, env, pid, parentPid, name, cmdline))
  {
    AssignNewRecordsOne(s, env, pid, parentPid, name, cmdline);
  }

  lemma CleaningKeepsList(s: State, env: Env)
    ensures GarbageClean(s, env).pipewireProcesses == s.pipewireProcesses
  {
  }

  lemma RefreshingKeepsList(s: State, env: Env)
    requires WellFormed(s)
    ensures ProcessMapRefresh(s, env).pipewireProcesses == s.pipewireProcesses
  {
    hide AssignTask, DecideSome, ApplyAll, PickWrites;
    if env.listing.Some? {
      var t := Refreshed(s.table, Listed(env, env.listing.value, false), ListedParents(env, env.listing.value));
      var s1 := AssignAndApplyAll(s.(table := t), env);
      if s1.foreground.Some? {
        TasksKeepList(s1.(foreground := None), env, Tasks(env.children, s1.foreground.value));
      }
    }
  }

  lemma {:induction false} TasksKeepList(s: State, env: Env, tasks: seq<Pid>)
    ensures AssignTasks(s, env, tasks).pipewireProcesses == s.pipewireProcesses
  {
    if tasks != [] {
      TasksKeepList(s, env, tasks[..|tasks| - 1]);
      TaskKeepsList(AssignTasks(s, env, tasks[..|tasks| - 1]), env, tasks[|tasks| - 1]);
      hide AssignTask;
    }
  }

  lemma TaskKeepsList(s: State, env: Env, pid: Pid)
    ensures AssignTask(s, env, pid).pipewireProcesses == s.pipewireProcesses
  {
    hide Recorded, CreatedProcess, Decided, Pick;
  }

  lemma HoldingKeepsList(s: State, env: Env, pid: Pid)
    requires SameLists(s, AssignChildren(s, env, pid))
    ensures forall p :: p in SetPipewire(s, env, pid).pipewireProcesses ==> p in s.pipewireProcesses || p == pid
    ensures s.config.pipewire.None? ==> SetPipewire(s, env, pid).pipewireProcesses == s.pipewireProcesses
  {
    hide AssignChildren, HoldSome, HoldWrites, Assignment;
  }

  lemma RemovingShrinksList(s: State, env: Env, pid: Pid)
    requires WellFormed(s)
    ensures forall p :: p in RemovePipewire(s, env, pid).pipewireProcesses ==> p in s.pipewireProcesses && p != pid
  {
    WithoutIs(s.pipewireProcesses, pid);
    hide Without, ReleaseSome, ReleaseWrites;
  }
}
