/**
 * The last profile applied to a process is the one that applying its priority would choose now:
 * which events keep this, and exactly when they do.
 */
module Agreement {
  import opened Basics
  import opened Scheduler
  import opened ProcessTable
  import opened TableOperations
  import opened Refresh
  import opened Worklist
  import opened Engine
  import opened EngineInvariants

  // ---------------------------------------------------------------------------------------
  // Loops that apply profiles
  // ---------------------------------------------------------------------------------------

  ghost predicate UniquePids(cells: map<Ref, Process>) {
    forall q, r {:trigger cells[q], cells[r]} :: q in cells && r in cells && cells[q].id == cells[r].id ==> q == r
  }

  ghost predicate SameAt(a: map<Pid, Profile>, b: map<Pid, Profile>, pid: Pid) {
    (pid in a <==> pid in b) && (pid in a && pid in b ==> a[pid] == b[pid])
  }

  /** A loop over the table gives each written cell its profile and leaves the others alone. */
  lemma {:induction false} ApplyAllAt(cells: map<Ref, Process>, order: seq<Ref>, writes: map<Ref, Profile>,
                                      applied: map<Pid, Profile>, r: Ref)
    requires UniquePids(cells) && r in cells
    ensures var after := ApplyAll(cells, order, writes, applied);
            var pid := cells[r].id;
            if r in order && r in writes then pid in after && after[pid] == writes[r] else SameAt(applied, after, pid)
  {
    if order != [] {
      var before, last := order[..|order| - 1], order[|order| - 1];
      ApplyAllAt(cells, before, writes, applied, r);
      assert r in order <==> r in before || r == last;
    }
  }

  lemma {:induction false} ApplyAllElsewhere(cells: map<Ref, Process>, order: seq<Ref>, writes: map<Ref, Profile>,
                                             applied: map<Pid, Profile>, pid: Pid)
    requires forall r :: r in cells && r in writes ==> cells[r].id != pid
    ensures SameAt(applied, ApplyAll(cells, order, writes, applied), pid)
  {
    if order != [] {
      ApplyAllElsewhere(cells, order[..|order| - 1], writes, applied, pid);
    }
  }

  lemma {:induction false} PidsOfAre(cells: map<Ref, Process>, order: seq<Ref>, chosen: set<Ref>, pid: Pid)
    ensures pid in PidsOf(cells, order, chosen) <==>
              exists r :: r in order && r in chosen && r in cells && cells[r].id == pid
  {
    if order != [] {
      var before, last := order[..|order| - 1], order[|order| - 1];
      PidsOfAre(cells, before, chosen, pid);
      assert forall r :: r in order <==> r in before || r == last;
    }
  }

  lemma CoveredMeansUnique(t: Table)
    requires Covered(t)
    ensures UniquePids(t.cells)
  {
    forall q, r | q in t.cells && r in t.cells && t.cells[q].id == t.cells[r].id
      ensures q == r
    {
      assert t.byPid[t.cells[q].id] == q;
    }
  }

  /** In a covered table the pid index reports each record's own priority. */
  lemma AssignmentIsOwn(t: Table, r: Ref)
    requires Covered(t) && r in t.cells
    ensures Assignment(t, t.cells[r].id) == t.cells[r].assignedPriority
  {
  }

  /** In a table with one record for each pid, the pid index reports a record's own priority or none. */
  lemma AssignmentWhenFound(t: Table, r: Ref)
    requires PidIndexed(t) && UniquePids(t.cells) && r in t.cells
    ensures Assignment(t, t.cells[r].id) ==
            if t.cells[r].id in t.byPid then t.cells[r].assignedPriority else NotAssignable
  {
  }

  // ---------------------------------------------------------------------------------------
  // Agreement
  // ---------------------------------------------------------------------------------------

  ghost predicate AgreesAt(s: State, r: Ref)
    requires r in s.table.cells
  {
    var p := s.table.cells[r];
    var choice := Pick(s, p);
    choice.Some? ==> p.id in s.applied && s.applied[p.id] == choice.value
  }

  ghost predicate Agrees(s: State) {
    forall r :: r in s.table.cells ==> AgreesAt(s, r)
  }

  /** The choice for this record does not depend on which process is in the foreground. */
  ghost predicate Fixed(s: State, p: Process) {
    p.assignedPriority != Assignable || (s.config.pipewire.Some? && PipewireAssigned(s, p))
  }

  ghost predicate FixedAgree(s: State) {
    forall r :: r in s.table.cells && Fixed(s, s.table.cells[r]) ==> AgreesAt(s, r)
  }

  /** The configuration has a foreground, a background and a pipewire profile. */
  ghost predicate Configured(c: SchedulerConfig) {
    c.foreground.Some? && c.pipewire.Some?
  }

  ghost predicate ForegroundListed(s: State) {
    s.foreground.Some? ==> s.foreground.value in s.foregroundProcesses
  }

  /** What the agreement rests on from one event to the next. */
  ghost predicate Settled(s: State) {
    WellFormed(s) && Covered(s.table) && ForegroundListed(s)
  }

  lemma SettledParts(s: State)
    requires Settled(s)
    ensures Sound(s.table) && Covered(s.table) && PipewireSound(s)
  {
  }

  // ---------------------------------------------------------------------------------------
  // Recording processes
  // ---------------------------------------------------------------------------------------

  ghost predicate SameParent(t: Table, pid: Pid, parentPid: Pid) {
    pid in t.byPid && t.byPid[pid] in t.cells ==> t.cells[t.byPid[pid]].parentId == parentPid
  }

  lemma AssignNewKeepsCovered(s: State, env: Env, pid: Pid, parentPid: Pid, name: string, cmdline: string)
    requires Sound(s.table) && Covered(s.table) && SameParent(s.table, pid, parentPid)
    ensures Covered(AssignNew(s, env, pid, parentPid, name, cmdline).table)
    ensures pid in AssignNew(s, env, pid, parentPid, name, cmdline).table.byPid
  {
    var p := CreatedProcess(s.table, env, pid, parentPid, name, cmdline);
    InsertKeepsCovered(s.table, p);
    AssignNewRecordsOne(s, env, pid, parentPid, name, cmdline);
    hide AssignNew, Insert, CreatedProcess, Sound, Covered;
    ShapeKeepsCovered(Insert(s.table, p), AssignNew(s, env, pid, parentPid, name, cmdline).table);
  }

  lemma AssignNewKeepsAgreement(s: State, env: Env, pid: Pid, parentPid: Pid, name: string, cmdline: string)
    requires Sound(s.table) && Covered(s.table) && SameParent(s.table, pid, parentPid)
    ensures Agrees(s) ==> Agrees(AssignNew(s, env, pid, parentPid, name, cmdline))
    ensures FixedAgree(s) ==> FixedAgree(AssignNew(s, env, pid, parentPid, name, cmdline))
  {
    var u := AssignNew(s, env, pid, parentPid, name, cmdline);
    var p := CreatedProcess(s.table, env, pid, parentPid, name, cmdline);
    AssignNewKeepsCovered(s, env, pid, parentPid, name, cmdline);
    AssignNewRecordsOne(s, env, pid, parentPid, name, cmdline);
    RecordedCell(s.table, u.table, p, s.pipewireProcesses);
    CoveredMeansUnique(u.table);
    assert p.id == pid;
    hide AssignNew, Insert, CreatedProcess, Sound, Covered, SameShape, InsertRef, Pick, OthersKept, UniquePids;
    OneRecordAgrees(s, u, InsertRef(s.table, p));
  }

  lemma OneRecordAgrees(s: State, u: State, r: Ref)
    requires SameLists(s, u) && OthersKept(s.table, u.table, r) && UniquePids(u.table.cells)
    requires r in u.table.cells
    requires var choice := Pick(u, u.table.cells[r]);
             u.applied == if choice.Some? then s.applied[u.table.cells[r].id := choice.value] else s.applied
    ensures Agrees(s) ==> Agrees(u)
    ensures FixedAgree(s) ==> FixedAgree(u)
  {
    hide Pick;
    assert AgreesAt(u, r);
    forall q | q in u.table.cells && q != r
      ensures q in s.table.cells && (AgreesAt(s, q) ==> AgreesAt(u, q)) && Fixed(u, u.table.cells[q]) == Fixed(s, s.table.cells[q])
    {
      SamePick(s, u, u.table.cells[q]);
    }
  }

  /** One application: the other records of its pid that chose something else no longer agree. */
  lemma OneApplicationAgrees(s: State, u: State, r: Ref, pid: Pid)
    requires SameLists(s, u) && OthersKept(s.table, u.table, r) && Agrees(s)
    requires r in u.table.cells && u.table.cells[r].id == pid && s.table.cells.Keys <= u.table.cells.Keys
    requires var choice := Pick(u, u.table.cells[r]);
             u.applied == if choice.Some? then s.applied[pid := choice.value] else s.applied
    ensures var choice := Pick(u, u.table.cells[r]);
            Agrees(u) <==> choice.None? ||
                           forall q :: q in s.table.cells && q != r && s.table.cells[q].id == pid ==>
                                         Pick(s, s.table.cells[q]) in {None, choice}
  {
    hide Pick;
    var choice := Pick(u, u.table.cells[r]);
    forall q | q in s.table.cells && q != r
      ensures u.table.cells[q] == s.table.cells[q]
      ensures AgreesAt(u, q) <==>
                choice.None? || s.table.cells[q].id != pid || Pick(s, s.table.cells[q]) in {None, choice}
    {
      assert u.table.cells[q] == s.table.cells[q];
      SamePick(s, u, s.table.cells[q]);
      assert AgreesAt(s, q);
    }
    assert AgreesAt(u, r);
    hide AgreesAt;
    assert forall q :: q in u.table.cells && q != r ==> q in s.table.cells && u.table.cells[q] == s.table.cells[q];
  }

  /**
   * Whatever the pid index knows and whichever parent is named: recording a process keeps the
   * agreement exactly when no record of its pid under another parent chooses another profile
   * than the one that was just applied.
   */
  lemma AssignNewAgreesExactly(s: State, env: Env, pid: Pid, parentPid: Pid, name: string, cmdline: string)
    requires Sound(s.table) && Agrees(s)
    ensures var u, k := AssignNew(s, env, pid, parentPid, name, cmdline), Key(pid, parentPid);
            && k in u.table.byKey && u.table.byKey[k] in u.table.cells
            && var choice := Pick(u, u.table.cells[u.table.byKey[k]]);
               Agrees(u) <==> choice.None? ||
                              forall q :: q in s.table.cells && s.table.cells[q].id == pid
                                          && s.table.cells[q].parentId != parentPid ==>
                                            Pick(s, s.table.cells[q]) in {None, choice}
  {
    hide AssignNew, Pick, OthersKept, Agrees, AgreesAt;
    var u, p := AssignNew(s, env, pid, parentPid, name, cmdline), CreatedProcess(s.table, env, pid, parentPid, name, cmdline);
    assert p.HashId() == Key(pid, parentPid) && p.id == pid && p.parentId == parentPid;
    hide CreatedProcess;
    var r := InsertRef(s.table, p);
    AssignNewRecordsOne(s, env, pid, parentPid, name, cmdline);
    RecordedCell(s.table, u.table, p, s.pipewireProcesses);
    InsertCells(s.table, p);
    assert u.table.byKey[p.HashId()] == r;
    forall q | q in s.table.cells && s.table.cells[q].id == pid
      ensures q != r <==> s.table.cells[q].parentId != parentPid
    {
      if s.table.cells[q].parentId == parentPid {
        assert s.table.cells[q].HashId() == p.HashId();
      }
    }
    hide Sound, Insert, InsertRef;
    OneApplicationAgrees(s, u, r, pid);
  }

  lemma SamePick(s: State, u: State, p: Process)
    requires SameLists(s, u)
    ensures Pick(s, p) == Pick(u, p)
  {
  }

  // ---------------------------------------------------------------------------------------
  // The scan
  // ---------------------------------------------------------------------------------------

  lemma AssignTaskKeepsAgreement(s: State, env: Env, pid: Pid)
    requires Settled(s)
    ensures Settled(AssignTask(s, env, pid)) && SameLists(s, AssignTask(s, env, pid))
    ensures Agrees(s) ==> Agrees(AssignTask(s, env, pid))
    ensures FixedAgree(s) ==> FixedAgree(AssignTask(s, env, pid))
  {
    AssignTaskKeepsWellFormed(s, env, pid);
    if pid !in s.table.byPid && env.parentId(pid).Some? && env.cmdline(pid).Some? {
      var cmdline := env.cmdline(pid).value;
      AssignNewKeepsCovered(s, env, pid, env.parentId(pid).value, BaseName(cmdline), cmdline);
      AssignNewKeepsAgreement(s, env, pid, env.parentId(pid).value, BaseName(cmdline), cmdline);
      hide AssignNew, Sound, Linked, Covered, Agrees, FixedAgree, PipewireSound;
    }
  }

  lemma {:induction false} AssignTasksKeepAgreement(s: State, env: Env, tasks: seq<Pid>)
    requires Settled(s)
    ensures Settled(AssignTasks(s, env, tasks)) && SameLists(s, AssignTasks(s, env, tasks))
    ensures Agrees(s) ==> Agrees(AssignTasks(s, env, tasks))
    ensures FixedAgree(s) ==> FixedAgree(AssignTasks(s, env, tasks))
  {
    hide Settled, Agrees, FixedAgree, AssignTask;
    if tasks != [] {
      AssignTasksKeepAgreement(s, env, tasks[..|tasks| - 1]);
      AssignTaskKeepsAgreement(AssignTasks(s, env, tasks[..|tasks| - 1]), env, tasks[|tasks| - 1]);
    }
  }

  lemma AssignChildrenKeepAgreement(s: State, env: Env, pid: Pid)
    requires Settled(s)
    ensures Settled(AssignChildren(s, env, pid)) && SameLists(s, AssignChildren(s, env, pid))
    ensures Agrees(s) ==> Agrees(AssignChildren(s, env, pid))
    ensures FixedAgree(s) ==> FixedAgree(AssignChildren(s, env, pid))
  {
    hide Settled, Agrees, FixedAgree, Tasks, AssignTasks;
    AssignTasksKeepAgreement(s, env, Tasks(env.children, pid));
  }

  // ---------------------------------------------------------------------------------------
  // Foreground
  // ---------------------------------------------------------------------------------------

  /** The pid is the foreground process, or an assignable process that is or descends from it. */
  ghost predicate OfForeground(t: Table, pid: Pid, q: Pid) {
    q == pid || exists r :: r in t.cells && t.cells[r].id == q && t.cells[r].assignedPriority == Assignable
                            && DescendedFrom(t, t.cells[r], pid)
  }

  lemma InForegroundWhen(t: Table, r: Ref, pid: Pid)
    requires Covered(t) && r in t.cells && t.cells[r].assignedPriority == Assignable
    ensures InForeground(t, r, pid) <==> OfForeground(t, pid, t.cells[r].id)
  {
    CoveredMeansUnique(t);
    hide DescendedFrom;
  }

  /** The cached list of foreground processes holds exactly the pids that belong to it. */
  lemma PartitionCache(s: State, env: Env, f: ForegroundAssignments, pid: Pid, q: Pid)
    requires Sound(s.table) && Covered(s.table) && ValidEnv(env)
    ensures q in Partition(s, env, f, pid).foregroundProcesses <==> OfForeground(s.table, pid, q)
  {
    hide DescendedFrom, PidsOf, Keyed, PidIndexed, Allocated;
    var order := env.order(s.table.byKey.Values);
    var chosen := ForegroundCells(s.table, pid);
    ValuesAreCells(s.table);
    PidsOfAre(s.table.cells, order, chosen, q);
    if r :| r in order && r in chosen && r in s.table.cells && s.table.cells[r].id == q {
      AssignmentIsOwn(s.table, r);
    }
    if r :| r in s.table.cells && s.table.cells[r].id == q && s.table.cells[r].assignedPriority == Assignable
            && DescendedFrom(s.table, s.table.cells[r], pid) {
      AssignmentIsOwn(s.table, r);
      assert InForeground(s.table, r, pid) && r in chosen && r in order;
    }
  }

  /** What the partition loop does to the profile of one tracked process. */
  lemma PartitionApplies(s: State, env: Env, f: ForegroundAssignments, pid: Pid, r: Ref)
    requires Sound(s.table) && Covered(s.table) && ValidEnv(env) && r in s.table.cells
    ensures var p, u := s.table.cells[r], Partition(s, env, f, pid);
            if p.assignedPriority == Assignable && !PipewireAssigned(s, p) then
              p.id in u.applied && u.applied[p.id] == if OfForeground(s.table, pid, p.id) then f.foreground else f.background
            else SameAt(s.applied, u.applied, p.id)
  {
    var order := env.order(s.table.byKey.Values);
    ValuesAreCells(s.table);
    CoveredMeansUnique(s.table);
    AssignmentIsOwn(s.table, r);
    ApplyAllAt(s.table.cells, order, ForegroundWrites(s, f, pid), s.applied, r);
    if s.table.cells[r].assignedPriority == Assignable {
      InForegroundWhen(s.table, r, pid);
    }
    hide DescendedFrom, PidsOf, Keyed, PidIndexed, Allocated, OfForeground, Covered, UniquePids;
  }

  /** There is a pipewire profile, or no record is held for pipewire. */
  ghost predicate HoldsCount(s: State) {
    s.config.pipewire.Some? || forall r :: r in s.table.cells ==> !PipewireAssigned(s, s.table.cells[r])
  }

  lemma PartitionAgrees(s: State, env: Env, f: ForegroundAssignments, pid: Pid)
    requires Settled(s) && ValidEnv(env) && FixedAgree(s) && HoldsCount(s) && s.config.foreground == Some(f)
    ensures Agrees(Partition(s, env, f, pid))
  {
    hide DescendedFrom, WellFormed, Sound, Covered, OfForeground, ValidEnv, ApplyAll, PidsOf, ForegroundCells,
         ForegroundWrites;
    SettledParts(s);
    var u := Partition(s, env, f, pid);
    forall r | r in u.table.cells
      ensures AgreesAt(u, r)
    {
      PartitionApplies(s, env, f, pid, r);
      PartitionCache(s, env, f, pid, s.table.cells[r].id);
      assert Fixed(s, s.table.cells[r]) ==> AgreesAt(s, r);
    }
  }

  /** There is a pipewire profile, or nobody is on the pipewire list. */
  ghost predicate ListCounts(s: State) {
    s.config.pipewire.Some? || s.pipewireProcesses == []
  }

  lemma NobodyListedHoldsNobody(s: State)
    requires WellFormed(s) && ListCounts(s)
    ensures HoldsCount(s)
  {
    hide Sound, Linked;
  }

  lemma SetForegroundAgrees(s: State, env: Env, pid: Pid)
    requires Settled(s) && ValidEnv(env) && ListCounts(s)
    requires if s.config.foreground.Some? then FixedAgree(s) else Agrees(s)
    ensures Settled(SetForeground(s, env, pid)) && Agrees(SetForeground(s, env, pid))
    ensures SetForeground(s, env, pid).config == s.config
  {
    hide WellFormed, Covered, AssignChildren, FixedAgree, Agrees, HoldsCount, ValidEnv;
    AssignChildrenKeepAgreement(s, env, pid);
    var s1 := AssignChildren(s, env, pid);
    NobodyListedHoldsNobody(s1);
    if s1.config.foreground.Some? {
      PartitionAgrees(s1, env, s1.config.foreground.value, pid);
    }
    SetForegroundKeepsWellFormed(s, env, pid);
  }

  // ---------------------------------------------------------------------------------------
  // Sweeping
  // ---------------------------------------------------------------------------------------

  /** No listed process is reported under another parent than the one it is tracked under. */
  ghost predicate TrueParents(t: Table, env: Env) {
    env.listing.Some? ==>
      forall pid :: pid in env.listing.value && env.cmdline(pid).Some? ==> SameParent(t, pid, env.parentId(pid).GetOr(0))
  }

  lemma SweepKeepsCovered(t: Table, env: Env, bare: bool, parents: map<Pid, Pid>)
    requires Sound(t) && Covered(t) && ValidEnv(env) && env.listing.Some? && TrueParents(t, env)
    ensures Covered(Refreshed(t, Listed(env, env.listing.value, bare), parents))
  {
    var pids := env.listing.value;
    var ps := Listed(env, pids, bare);
    ListedIs(env, pids, bare);
    ListedIsListing(env, pids, bare);
    hide Refreshed, Listed, IsListing, ValidEnv;
    forall p | p in ps
      ensures Findable(t, p)
    {
      FindableWhenStable(t, p);
      assert p.parentId == env.parentId(p.id).GetOr(0);
      assert SameParent(t, p.id, env.parentId(p.id).GetOr(0));
    }
    RefreshCoversExactly(t, ps, parents);
  }

  /** Covered or not, a swept table has one record for each pid. */
  lemma SweptIsUnique(t: Table, ps: seq<Process>, parents: map<Pid, Pid>)
    requires Sound(t) && IsListing(ps)
    ensures UniquePids(Refreshed(t, ps, parents).cells)
  {
    var u := Refreshed(t, ps, parents);
    RefreshSweeps(t, ps, parents);
    RecordsDistinct(ps);
    hide Refreshed, IsListing, Records;
    forall q, r | q in u.cells && r in u.cells && u.cells[q].id == u.cells[r].id
      ensures q == r
    {
      assert u.cells[q].HashId() == u.cells[r].HashId();
    }
  }

  lemma SameCellsAgree(s: State, u: State)
    requires SameLists(s, u.(gcCounter := s.gcCounter)) && s.table.cells == u.table.cells && s.applied == u.applied
    ensures Agrees(s) ==> Agrees(u)
  {
    if Agrees(s) {
      forall r | r in u.table.cells
        ensures AgreesAt(u, r)
      {
        assert AgreesAt(s, r);
        assert Pick(s, s.table.cells[r]) == Pick(u, u.table.cells[r]);
        hide Pick;
      }
    }
  }

  lemma CounterKeepsSettled(s: State, counter: nat)
    requires Settled(s)
    ensures Settled(s.(gcCounter := counter))
  {
  }

  /** The garbage collector forgets decisions but never leaves a stale one. */
  lemma GarbageCleanKeepsAgreement(s: State, env: Env)
    requires Settled(s) && ValidEnv(env) && TrueParents(s.table, env)
    ensures Settled(GarbageClean(s, env))
    ensures Agrees(s) ==> Agrees(GarbageClean(s, env))
    ensures GarbageClean(s, env).config == s.config
  {
    var u := GarbageClean(s, env);
    if s.gcCounter < GC_INTERVAL || env.listing.None? {
      hide Settled, Agrees;
      CounterKeepsSettled(s, u.gcCounter);
      SameCellsAgree(s, u);
    } else {
      GarbageCleanKeepsWellFormed(s, env);
      var ps := Listed(env, env.listing.value, true);
      SweepIsRefresh(s.table, ps);
      SweepKeepsCovered(s.table, env, true, map[]);
      hide Swept, Refreshed, Listed, WellFormed, Covered, TrueParents, Agrees;
      if Agrees(s) {
        SweptAgrees(s, env);
      }
    }
  }

  lemma SweptAgrees(s: State, env: Env)
    requires WellFormed(s) && ValidEnv(env) && env.listing.Some? && Agrees(s)
    ensures Agrees(s.(gcCounter := 0, table := Refreshed(s.table, Listed(env, env.listing.value, true), map[])))
  {
    hide Refreshed, Listed, IsListing, Linked, PipewireSound, RefreshedAs, AgreesAt, PidIndexed, Allocated;
    var ps := Listed(env, env.listing.value, true);
    var t, u := s.table, s.(gcCounter := 0, table := Refreshed(s.table, ps, map[]));
    ListedIs(env, env.listing.value, true);
    ListedIsListing(env, env.listing.value, true);
    RefreshIsExact(t, ps, map[]);
    hide ValidEnv, Agrees;
    forall r | r in u.table.cells
      ensures AgreesAt(u, r)
    {
      var p :| p in ps && p.HashId() == u.table.cells[r].HashId();
      assert p == RecordOf(env, p.id, true);
      SweptRecordAgrees(s, u, r, p);
    }
    assert Agrees(u) by { AllAgree(u); }
  }

  lemma AllAgree(s: State)
    requires forall r :: r in s.table.cells ==> AgreesAt(s, r)
    ensures Agrees(s)
  {
  }

  lemma SweptRecordAgrees(s: State, u: State, r: Ref, p: Process)
    requires SameLists(s, u.(gcCounter := s.gcCounter)) && s.applied == u.applied && Agrees(s)
    requires r in u.table.cells && Keyed(u.table) && Keyed(s.table) && u.table.cells[r].HashId() == p.HashId()
    requires RefreshedAs(s.table, u.table, p) && p.assignedPriority == NotAssignable
    ensures AgreesAt(u, r)
  {
    assert u.table.byKey[p.HashId()] == r;
    if u.table.cells[r].assignedPriority != NotAssignable {
      assert s.table.cells[r].HashId() == p.HashId();
      assert AgreesAt(s, r);
    }
  }

  // ---------------------------------------------------------------------------------------
  // Refresh
  // ---------------------------------------------------------------------------------------

  lemma ApplyingAllAgrees(s: State, order: seq<Ref>)
    requires UniquePids(s.table.cells) && forall r :: r in s.table.cells ==> r in order
    ensures Agrees(s.(applied := ApplyAll(s.table.cells, order, PickWrites(s), s.applied)))
  {
    var u := s.(applied := ApplyAll(s.table.cells, order, PickWrites(s), s.applied));
    forall r | r in u.table.cells
      ensures AgreesAt(u, r)
    {
      ApplyAllAt(s.table.cells, order, PickWrites(s), s.applied, r);
      SamePick(s, u, s.table.cells[r]);
      hide Pick, ApplyAll, UniquePids;
    }
  }

  /** The loop at the end of a refresh settles every process, whatever was applied before. */
  lemma AssignAndApplyAllAgrees(s: State, env: Env)
    requires Sound(s.table) && UniquePids(s.table.cells) && ValidEnv(env)
    ensures Agrees(AssignAndApplyAll(s, env))
  {
    var values := s.table.byKey.Values;
    var t := DecideSome(s.config, s.table, values);
    ValuesAreCells(s.table);
    DecideKeepsShape(s.config, s.table, values);
    assert forall r {:trigger t.cells[r]} :: r in t.cells ==> SameButFate(s.table.cells[r], t.cells[r]);
    assert UniquePids(t.cells);
    hide Sound, SameShape, DecideSome, UniquePids, ApplyAll, Agrees;
    assert forall r :: r in t.cells ==> r in env.order(values);
    ApplyingAllAgrees(s.(table := t), env.order(values));
  }

  lemma DecidingKeepsSettled(s: State, env: Env)
    requires Settled(s)
    ensures Settled(AssignAndApplyAll(s, env)) && SameLists(s, AssignAndApplyAll(s, env))
  {
    AssignAndApplyAllKeepsWellFormed(s, env);
    DecideKeepsShape(s.config, s.table, s.table.byKey.Values);
    ShapeKeepsCovered(s.table, AssignAndApplyAll(s, env).table);
    hide WellFormed, Covered, DecideSome;
  }

  lemma ForegroundIrrelevant(s: State)
    requires Agrees(s)
    ensures FixedAgree(s.(foreground := None))
  {
    forall r | r in s.table.cells && Fixed(s.(foreground := None), s.table.cells[r])
      ensures AgreesAt(s.(foreground := None), r)
    {
      assert AgreesAt(s, r);
    }
  }

  /** Without foreground profiles it makes no difference whether a foreground process is set. */
  lemma AgreesWithoutPartition(s: State)
    requires Agrees(s) && s.config.foreground.None?
    ensures Agrees(s.(foreground := None))
  {
    forall r | r in s.table.cells
      ensures AgreesAt(s.(foreground := None), r)
    {
      assert AgreesAt(s, r);
    }
  }

  /** A refresh brings about the agreement; it does not need to find it. */
  lemma RefreshAgrees(s: State, env: Env)
    requires Settled(s) && ValidEnv(env) && env.listing.Some? && TrueParents(s.table, env) && ListCounts(s)
    ensures Settled(ProcessMapRefresh(s, env)) && Agrees(ProcessMapRefresh(s, env))
    ensures ProcessMapRefresh(s, env).config == s.config
  {
    hide Refreshed, Listed, ListedParents, IsListing, Covered, Linked, PipewireSound, UniquePids, TrueParents;
    var pids := env.listing.value;
    var ps, parents := Listed(env, pids, false), ListedParents(env, pids);
    var s0 := s.(table := Refreshed(s.table, ps, parents));
    ListedIsListing(env, pids, false);
    RefreshKeepsTable(s, env, false, parents);
    SweepKeepsCovered(s.table, env, false, parents);
    SweptIsUnique(s.table, ps, parents);
    AssignAndApplyAllAgrees(s0, env);
    hide Sound;
    DecidingKeepsSettled(s0, env);
    var s1 := AssignAndApplyAll(s0, env);
    hide AssignAndApplyAll, SetForeground, Agrees, FixedAgree, WellFormed;
    if s1.foreground.Some? {
      ForegroundIrrelevant(s1);
      WithoutForeground(s1);
      if s1.config.foreground.None? {
        AgreesWithoutPartition(s1);
      }
      SetForegroundAgrees(s1.(foreground := None), env, s1.foreground.value);
    }
  }

  lemma WithoutForeground(s: State)
    requires Settled(s)
    ensures Settled(s.(foreground := None))
  {
  }

  /** If `/proc` cannot be listed, a refresh only marks the table. */
  lemma UnlistedRefreshKeepsAgreement(s: State, env: Env)
    requires Settled(s) && env.listing.None?
    ensures Settled(ProcessMapRefresh(s, env)) && ProcessMapRefresh(s, env).config == s.config
    ensures Agrees(s) ==> Agrees(ProcessMapRefresh(s, env))
  {
    hide Sound, Linked, Agrees;
    DrainKeepsSound(s.table, s.table.byKey.Keys);
    PrepareKeepsLinked(s.table);
    var u := ProcessMapRefresh(s, env);
    assert u.table.cells == s.table.cells && u.table.byPid == s.table.byPid;
    SameCellsAgree(s, u);
  }
}
