/**
 * When a refresh leaves the applied profiles in agreement with the state, for tables whose pid
 * index is incomplete and processes that changed their parent.
 */
module RefreshAgreement {
  import opened Basics
  import opened Scheduler
  import opened ProcessTable
  import opened TableOperations
  import opened Refresh
  import opened Classification
  import opened Worklist
  import opened Engine
  import opened EngineInvariants
  import opened Agreement
  import opened Descendants
  import opened WholeRuns
  import opened Scans
  import opened Partitions

  // ---------------------------------------------------------------------------------------
  // The sweep
  // ---------------------------------------------------------------------------------------

  ghost predicate IsListed(env: Env, pid: Pid) {
    env.listing.Some? && pid in env.listing.value && env.cmdline(pid).Some?
  }

  lemma SweptIsCurrent(t: Table, env: Env, parents: map<Pid, Pid>)
    requires Sound(t) && ValidEnv(env) && env.listing.Some?
    ensures Current(Refreshed(t, Listed(env, env.listing.value, false), parents), env)
    ensures var u := Refreshed(t, Listed(env, env.listing.value, false), parents);
            forall r :: r in u.cells ==> IsListed(env, u.cells[r].id)
  {
    var ps := Listed(env, env.listing.value, false);
    var u := Refreshed(t, ps, parents);
    ListedIsListing(env, env.listing.value, false);
    ListedIs(env, env.listing.value, false);
    RefreshSweeps(t, ps, parents);
    hide Refreshed, Listed, IsListing, ValidEnv, PidIndexed, Allocated;
    forall r | r in u.cells
      ensures u.cells[r].parentId == env.parentId(u.cells[r].id).GetOr(0)
      ensures IsListed(env, u.cells[r].id)
    {
      assert Records(ps)[u.cells[r].HashId()] in ps;
    }
  }

  // ---------------------------------------------------------------------------------------
  // The state before the scan
  // ---------------------------------------------------------------------------------------

  lemma BeforeForegroundIs(s: State, env: Env)
    requires WellFormed(s) && ValidEnv(env) && env.listing.Some?
    ensures var s1 := BeforeForeground(s, env);
            && WellFormed(s1) && Current(s1.table, env) && Agrees(s1) && SameLists(s, s1)
            && (forall r :: r in s1.table.cells ==>
                  && IsListed(env, s1.table.cells[r].id)
                  && (s1.table.cells[r].id in s1.table.byPid <==> Findable(s.table, s1.table.cells[r])))
  {
    var pids := env.listing.value;
    var ps, parents := Listed(env, pids, false), ListedParents(env, pids);
    var s0 := s.(table := Refreshed(s.table, ps, parents));
    RefreshKeepsTable(s, env, false, parents);
    SweptIsCurrent(s.table, env, parents);
    SweptIsFindable(s.table, env, parents);
    hide Refreshed, Listed, ListedParents, Current, Linked, PipewireSound, ValidEnv, Findable, Agrees;
    assert UniquePids(s0.table.cells) by { CurrentIsSteady(s0.table, env); }
    AssignAndApplyAllAgrees(s0, env) by { assert ValidEnv(env); }
    hide UniquePids, Sound;
    AssignAndApplyAllKeepsWellFormed(s0, env);
    DecideKeepsShape(s.config, s0.table, s0.table.byKey.Values);
    hide DecideSome, WellFormed;
    ShapeKeepsCurrent(s0.table, AssignAndApplyAll(s0, env).table, env);
    ShapeKeepsFindable(s.table, s0.table, AssignAndApplyAll(s0, env).table, env);
  }

  /** What is listed and found in a table is so in every table of the same shape. */
  lemma ShapeKeepsFindable(s: Table, t: Table, u: Table, env: Env)
    requires SameShape(t, u)
    requires forall r :: r in t.cells ==> IsListed(env, t.cells[r].id) && (t.cells[r].id in t.byPid <==> Findable(s, t.cells[r]))
    ensures forall r :: r in u.cells ==> IsListed(env, u.cells[r].id) && (u.cells[r].id in u.byPid <==> Findable(s, u.cells[r]))
  {
    forall r | r in u.cells
      ensures IsListed(env, u.cells[r].id) && (u.cells[r].id in u.byPid <==> Findable(s, u.cells[r]))
    {
      assert SameButFate(t.cells[r], u.cells[r]);
      assert t.cells[r].HashId() == u.cells[r].HashId();
    }
  }

  lemma SweptIsFindable(t: Table, env: Env, parents: map<Pid, Pid>)
    requires Sound(t) && ValidEnv(env) && env.listing.Some?
    ensures var u := Refreshed(t, Listed(env, env.listing.value, false), parents);
            forall r :: r in u.cells ==> (u.cells[r].id in u.byPid <==> Findable(t, u.cells[r]))
  {
    hide Refreshed, Listed, IsListing, PidIndexed, Allocated, Findable;
    var ps := Listed(env, env.listing.value, false);
    var u := Refreshed(t, ps, parents);
    ListedIsListing(env, env.listing.value, false);
    RefreshSweeps(t, ps, parents);
    hide ValidEnv;
    forall r | r in u.cells
      ensures u.cells[r].id in u.byPid <==> Findable(t, u.cells[r])
    {
      var p := Records(ps)[u.cells[r].HashId()];
      RefreshFindsExactly(t, ps, parents, p);
      assert p.id == u.cells[r].id && p.HashId() == u.cells[r].HashId();
      SameFindable(t, p, u.cells[r]);
    }
  }

  // ---------------------------------------------------------------------------------------
  // What the sweep leaves to decide
  // ---------------------------------------------------------------------------------------

  ghost function SweptTable(s: State, env: Env): Table
    requires env.listing.Some?
  {
    Refreshed(s.table, Listed(env, env.listing.value, false), ListedParents(env, env.listing.value))
  }

  /** The process is tracked under the name that is read, and a decision about it stands. */
  ghost predicate KeepsDecision(t: Table, p: Process) {
    var k := p.HashId();
    && k in t.byKey && t.byKey[k] in t.cells
    && t.cells[t.byKey[k]].name == p.name && t.cells[t.byKey[k]].assignedPriority != NotAssignable
  }

  /** A listed process is assignable by the decision that stands, or else by classifying it in the swept table. */
  ghost predicate AssignableWhenRead(s: State, env: Env, p: Process)
    requires env.listing.Some?
  {
    var t, u, k := s.table, SweptTable(s, env), p.HashId();
    if KeepsDecision(t, p) then t.cells[t.byKey[k]].assignedPriority == Assignable
    else k in u.byKey && u.byKey[k] in u.cells && Classify(s.config, u, u.cells[u.byKey[k]]) == Assignable
  }

  lemma ReadRecordDecides(s: State, env: Env, p: Process, r: Ref)
    requires env.listing.Some? && env.cmdline(p.id).Some? && p == RecordOf(env, p.id, false)
    requires var u := SweptTable(s, env);
             RefreshedAs(s.table, u, p) && r in u.cells && u.cells[r].HashId() == p.HashId() && u.byKey[p.HashId()] == r
    ensures var u := SweptTable(s, env);
            var q := Decided(s.config, u, u.cells[r]);
            && AsRead(q, env) && (q.assignedPriority == Assignable <==> AssignableWhenRead(s, env, p))
            && (q.pipewireAncestor.Some? <==> HeldUnder(s.table, p.HashId()))
  {
    hide SweptTable, BaseName, Classify;
    var u := SweptTable(s, env);
    assert p.name == BaseName(env.cmdline(p.id).value) && p.cgroup == env.cgroup(p.id).GetOr("");
    assert p.assignedPriority == NotAssignable && p.pipewireAncestor == None;
    hide RecordOf;
    if u.cells[r].assignedPriority == NotAssignable && Classify(s.config, u, u.cells[r]) == NotAssignable {
      UndecidedHasNoGroup(s.config, u, u.cells[r]);
    }
  }

  lemma BeforeForegroundDecides(s: State, env: Env, r: Ref)
    requires WellFormed(s) && ValidEnv(env) && env.listing.Some? && r in BeforeForeground(s, env).table.cells
    ensures var q := BeforeForeground(s, env).table.cells[r];
            var p := RecordOf(env, q.id, false);
            && q.HashId() == p.HashId() && p.id == q.id && AsRead(q, env)
            && (q.assignedPriority == Assignable <==> AssignableWhenRead(s, env, p))
            && (q.pipewireAncestor.Some? <==> HeldUnder(s.table, p.HashId()))
  {
    hide Refreshed, Listed, ListedParents, IsListing, RefreshedAs, AsRead, AssignableWhenRead, RecordOf, Linked,
         PipewireSound, PidIndexed, Allocated;
    var u, ps := SweptTable(s, env), Listed(env, env.listing.value, false);
    ListedIsListing(env, env.listing.value, false);
    ListedIs(env, env.listing.value, false);
    RefreshIsExact(s.table, ps, ListedParents(env, env.listing.value));
    ValuesAreCells(u);
    assert BeforeForeground(s, env).table.cells[r] == Decided(s.config, u, u.cells[r]);
    hide BeforeForeground, ValidEnv;
    var p :| p in ps && p.HashId() == u.cells[r].HashId();
    ReadRecordDecides(s, env, p, r);
  }

  lemma ListedIsTracked(s: State, env: Env, pid: Pid) returns (r: Ref)
    requires WellFormed(s) && ValidEnv(env) && IsListed(env, pid)
    ensures var t := BeforeForeground(s, env).table; r in t.cells && t.cells[r].id == pid
  {
    var pids := env.listing.value;
    var ps, parents := Listed(env, pids, false), ListedParents(env, pids);
    var t := Refreshed(s.table, ps, parents);
    ListedIsListing(env, pids, false);
    ListedIs(env, pids, false);
    RefreshSweeps(s.table, ps, parents);
    var p := RecordOf(env, pid, false);
    assert p in ps && p.id == pid;
    DecideKeepsShape(s.config, t, t.byKey.Values);
    hide Refreshed, Listed, ListedParents, IsListing, ValidEnv, Linked, PipewireSound, RecordOf, PidIndexed,
         Allocated, DecideSome;
    r := t.byKey[p.HashId()];
    assert t.cells[r].HashId() == p.HashId();
    assert SameButFate(t.cells[r], BeforeForeground(s, env).table.cells[r]);
  }

  // ---------------------------------------------------------------------------------------
  // The profiles before the partition
  // ---------------------------------------------------------------------------------------

  /** The state before the partition: the scan has run from the state that the sweep left. */
  ghost function Scanned(s: State, env: Env): State
    requires env.listing.Some? && s.foreground.Some?
  {
    AssignTasks(BeforeForeground(s, env).(foreground := None), env, Tasks(env.children, s.foreground.value))
  }

  /** The state before the scan is steady and agrees, and the fixed choices still do after the scan. */
  lemma ScanReady(s: State, env: Env)
    requires WellFormed(s) && ValidEnv(env) && env.listing.Some? && s.foreground.Some?
    ensures var s1, a := BeforeForeground(s, env), Scanned(s, env);
            && WellFormed(s1) && Steady(s1.table, env) && Agrees(s1) && SameLists(s, s1) && SameLists(s1.(foreground := None), a)
            && WellFormed(a) && Steady(a.table, env) && FixedAgree(a) && Grown(s1.table, a.table)
            && (s.config.foreground.None? ==> Agrees(a))
            && ProcessMapRefresh(s, env) == if s.config.foreground.None? then a
                                            else Partition(a, env, s.config.foreground.value, s.foreground.value)
  {
    hide BeforeForeground, ProcessMapRefresh, Tasks, AssignTasks, Current, Steady, Agrees, FixedAgree, Grown,
         ValidEnv, Findable, Partition, Linked, PipewireSound;
    RefreshFromBefore(s, env);
    BeforeForegroundIs(s, env);
    var s1, f := BeforeForeground(s, env), s.foreground.value;
    CurrentIsSteady(s1.table, env) by { SoundIsKeyed(s1.table); }
    hide Sound;
    ForegroundIrrelevant(s1);
    ForgettingIsWellFormed(s1);
    if s.config.foreground.None? {
      AgreesWithoutPartition(s1);
    }
    hide WellFormed;
    ScanKeepsFixed(s1.(foreground := None), env, Tasks(env.children, f));
  }

  /** The profile of a side, or of a process that was recorded while there was no foreground. */
  ghost function Given(f: ForegroundAssignments, side: Option<bool>): Profile {
    match side
    case None => NewProfile("default")
    case Some(front) => OnSide(f, front)
  }

  /** The side on which the old list has a process; the scan records one anew that it cannot find. */
  ghost function SideBefore(s: State, env: Env, pid: Pid, lost: bool): Option<bool>
    requires s.foreground.Some?
  {
    if lost && Reachable(env.children, s.foreground.value, pid) && Readable(env, pid) then None
    else Some(pid == s.foreground.value || pid in s.foregroundProcesses)
  }

  /** Without a pipewire profile to take, what is due to an assignable process is that of its side. */
  lemma DueOnSide(s: State, p: Process)
    requires p.assignedPriority == Assignable && !Fixed(s, p) && s.config.foreground.Some?
    ensures Due(s.config, s, p) ==
            if s.foreground.None? then NewProfile("default") else OnSide(s.config.foreground.value, InFront(s, p))
  {
    hide PipewireAssigned;
  }

  lemma FoundBefore(s: State, env: Env, r: Ref)
    requires WellFormed(s) && ValidEnv(env) && env.listing.Some? && s.foreground.Some? && s.config.foreground.Some?
    requires var t := BeforeForeground(s, env).table; r in t.cells && t.cells[r].id in t.byPid
    ensures var s1, a := BeforeForeground(s, env), Scanned(s, env);
            && r in a.table.cells && a.table.cells[r] == s1.table.cells[r] && a.table.cells[r].id in a.table.byPid
            && var p := a.table.cells[r];
               p.assignedPriority == Assignable && !Fixed(a, p) ==>
                 p.id in a.applied && a.applied[p.id] == Given(s.config.foreground.value, SideBefore(s, env, p.id, false))
  {
    hide BeforeForeground, ProcessMapRefresh, Tasks, AssignTasks, Steady, FixedAgree, Grown, ValidEnv, Partition,
         PipewireSound, Sound, Linked, Reachable, Readable;
    ScanReady(s, env);
    var s1 := BeforeForeground(s, env);
    assert AgreesAt(s1, r);
    hide Agrees, AgreesAt;
    FoundStays(s1.(foreground := None), env, Tasks(env.children, s.foreground.value), r);
    var p := s1.table.cells[r];
    if p.assignedPriority == Assignable && !Fixed(Scanned(s, env), p) {
      AgreedIsDue(s1, r);
      DueOnSide(s1, p);
      hide Due, Fixed;
    }
  }

  lemma LostBefore(s: State, env: Env, r: Ref)
    requires WellFormed(s) && ValidEnv(env) && env.listing.Some? && s.foreground.Some? && s.config.foreground.Some?
    requires var t := BeforeForeground(s, env).table; r in t.cells && t.cells[r].id !in t.byPid
    ensures var s1, a := BeforeForeground(s, env), Scanned(s, env);
            && r in a.table.cells && a.table.cells[r].HashId() == s1.table.cells[r].HashId() && a.table.cells[r].id !in a.table.byPid
            && var p := a.table.cells[r];
               p.assignedPriority == Assignable && !Fixed(a, p) ==>
                 p.id in a.applied && a.applied[p.id] == Given(s.config.foreground.value, SideBefore(s, env, p.id, true))
  {
    hide BeforeForeground, ProcessMapRefresh, Tasks, AssignTasks, Steady, FixedAgree, Grown, ValidEnv, Partition,
         PipewireSound, Sound, Linked, Reachable, Readable, InDiscoveryOrder, NoDuplicates;
    ScanReady(s, env);
    var s1, f := BeforeForeground(s, env), s.foreground.value;
    var a := Scanned(s, env);
    assert AgreesAt(s1, r);
    hide Agrees, AgreesAt;
    TasksAreReachable(env.children, f);
    ScanAt(s1.(foreground := None), env, Tasks(env.children, f), r);
    var p := a.table.cells[r];
    if p.assignedPriority == Assignable && !Fixed(a, p) {
      if p.id in Tasks(env.children, f) && Readable(env, p.id) {
        AgreedIsDue(a, r);
        DueOnSide(a, p);
      } else {
        AgreedIsDue(s1, r);
        DueOnSide(s1, p);
      }
      hide Due, Fixed;
    }
  }

  lemma AddedBefore(s: State, env: Env, r: Ref)
    requires WellFormed(s) && ValidEnv(env) && env.listing.Some? && s.foreground.Some? && s.config.foreground.Some?
    requires r in Scanned(s, env).table.cells && r !in BeforeForeground(s, env).table.cells
    ensures var a := Scanned(s, env);
            var p := a.table.cells[r];
            p.assignedPriority == Assignable && !Fixed(a, p) ==> p.id in a.applied && a.applied[p.id] == NewProfile("default")
  {
    hide BeforeForeground, ProcessMapRefresh, Tasks, AssignTasks, Steady, FixedAgree, Grown, ValidEnv, Partition,
         Agrees, AgreesAt;
    ScanReady(s, env);
    var s1, a := BeforeForeground(s, env), Scanned(s, env);
    ForgettingIsWellFormed(s1);
    hide WellFormed;
    AddedAgrees(s1.(foreground := None), env, Tasks(env.children, s.foreground.value), r);
    var p := a.table.cells[r];
    if p.assignedPriority == Assignable && !Fixed(a, p) {
      AgreedIsDue(a, r);
      DueOnSide(a, p);
      hide Due, Fixed;
    }
  }

  // ---------------------------------------------------------------------------------------
  // The partition, by what is tracked before and what is read
  // ---------------------------------------------------------------------------------------

  /** A lost process is held if it is on the list, was held before, or the scan finds a listed process above it. */
  ghost predicate HeldWhenLost(s: State, env: Env, p: Process)
    requires s.foreground.Some? && env.listing.Some?
  {
    || p.id in s.pipewireProcesses
    || HeldUnder(s.table, p.HashId())
    || ScanFindsHolder(BeforeForeground(s, env).(foreground := None), env, Tasks(env.children, s.foreground.value), p.id)
  }

  ghost predicate HeldWhenRead(s: State, env: Env, p: Process)
    requires s.foreground.Some? && env.listing.Some?
  {
    if Findable(s.table, p) then p.id in s.pipewireProcesses || HeldUnder(s.table, p.HashId()) else HeldWhenLost(s, env, p)
  }

  /** Held for nothing, since there is no pipewire profile, or lost and not held. */
  ghost predicate PassedOverWhenRead(s: State, env: Env, p: Process)
    requires s.foreground.Some? && env.listing.Some?
  {
    if HeldWhenRead(s, env, p) then s.config.pipewire.None? else !Findable(s.table, p)
  }

  ghost predicate DescendsUnder(t: Table, k: Key, pid: Pid) {
    k in t.byKey && t.byKey[k] in t.cells && DescendedFrom(t, t.cells[t.byKey[k]], pid)
  }

  /** The side on which the new list has a listed process. */
  ghost predicate FrontAfter(s: State, env: Env, p: Process)
    requires s.foreground.Some? && env.listing.Some?
  {
    var f := s.foreground.value;
    p.id == f || (Findable(s.table, p) && DescendsUnder(Scanned(s, env).table, p.HashId(), f))
  }

  /**
   * A listed process that a refresh with a foreground process leaves with a wrong profile: an
   * assignable one that the partition passes over and that had another profile before.
   */
  ghost predicate Stranded(s: State, env: Env, pid: Pid)
    requires s.foreground.Some? && s.config.foreground.Some? && env.listing.Some?
  {
    var p, f := RecordOf(env, pid, false), s.config.foreground.value;
    && IsListed(env, pid) && AssignableWhenRead(s, env, p) && PassedOverWhenRead(s, env, p)
    && Given(f, SideBefore(s, env, pid, !Findable(s.table, p))) != OnSide(f, FrontAfter(s, env, p))
  }

  /** The same for a process that only the scan has found: it had the profile of processes on no side. */
  ghost predicate StrandedUnlisted(s: State, env: Env, r: Ref)
    requires s.foreground.Some? && s.config.foreground.Some? && env.listing.Some? && r in Scanned(s, env).table.cells
  {
    var a, f := Scanned(s, env), s.config.foreground.value;
    && !IsListed(env, a.table.cells[r].id) && PassedOver(a, r)
    && NewProfile("default") != OnSide(f, NowInFront(a.table, a.table.cells[r], s.foreground.value))
  }

  lemma SameFindable(t: Table, p: Process, q: Process)
    requires p.HashId() == q.HashId()
    ensures Findable(t, p) <==> Findable(t, q)
  {
    assert p.id == q.id;
  }

  /** What the scan leaves of a listed process, by what is read of it and what was recorded before. */
  lemma ScannedDecides(s: State, env: Env, r: Ref)
    requires WellFormed(s) && ValidEnv(env) && env.listing.Some? && s.foreground.Some? && s.config.foreground.Some?
    requires r in BeforeForeground(s, env).table.cells
    ensures var s1, a := BeforeForeground(s, env), Scanned(s, env);
            var p := RecordOf(env, s1.table.cells[r].id, false);
            && r in a.table.cells && a.table.cells[r].HashId() == s1.table.cells[r].HashId() == p.HashId()
            && IsListed(env, p.id)
            && (p.id in s1.table.byPid <==> Findable(s.table, p)) && (p.id in a.table.byPid <==> Findable(s.table, p))
            && (a.table.cells[r].assignedPriority == Assignable <==> AssignableWhenRead(s, env, p))
            && (PipewireAssigned(a, a.table.cells[r]) <==> HeldWhenRead(s, env, p))
  {
    hide BeforeForeground, AssignTasks, Tasks, Agrees, Current, Steady, AsRead, Findable, ScanFindsHolder,
         HeldUnder, AssignableWhenRead, ValidEnv, PipewireSound, RecordOf, IsListed, Grown, FixedAgree, Fixed,
         Partition, ProcessMapRefresh;
    var s1, f := BeforeForeground(s, env), s.foreground.value;
    BeforeForegroundIs(s, env);
    BeforeForegroundDecides(s, env, r);
    ScanReady(s, env);
    var p := RecordOf(env, s1.table.cells[r].id, false);
    SameFindable(s.table, p, s1.table.cells[r]);
    hide Sound, Linked;
    WellFormedIsSound(s1);
    if p.id in s1.table.byPid {
      FoundBefore(s, env, r);
    } else {
      LostBefore(s, env, r);
      ScanDecides(s1.(foreground := None), env, Tasks(env.children, f), r);
    }
  }

  lemma ListedAgreesExactly(s: State, env: Env, r: Ref)
    requires WellFormed(s) && ValidEnv(env) && env.listing.Some? && s.foreground.Some? && s.config.foreground.Some?
    requires r in BeforeForeground(s, env).table.cells
    ensures r in ProcessMapRefresh(s, env).table.cells
    ensures AgreesAt(ProcessMapRefresh(s, env), r) <==> !Stranded(s, env, BeforeForeground(s, env).table.cells[r].id)
  {
    hide BeforeForeground, ProcessMapRefresh, Scanned, Tasks, Agrees, Steady, AssignableWhenRead, HeldWhenRead,
         Findable, IsListed, ValidEnv, PipewireSound, Sound, Linked, RecordOf, Grown, Partition, DescendedFrom,
         SideBefore, PipewireAssigned, Given, OnSide;
    var s1, a, f := BeforeForeground(s, env), Scanned(s, env), s.config.foreground.value;
    ScanReady(s, env);
    ScannedDecides(s, env, r);
    var q, p := a.table.cells[r], RecordOf(env, s1.table.cells[r].id, false);
    assert q.id == p.id == s1.table.cells[r].id;
    if p.id in s1.table.byPid {
      FoundBefore(s, env, r);
    } else {
      LostBefore(s, env, r);
    }
    assert DescendsUnder(a.table, p.HashId(), s.foreground.value) <==> DescendedFrom(a.table, q, s.foreground.value) by {
      SteadyParts(a, env);
      SoundFinds(a.table, r);
    }
    hide DescendsUnder;
    PartitionAgreesHere(a, env, f, s.foreground.value, r);
  }

  /** The record agrees after the partition as the partition's own condition says. */
  lemma PartitionAgreesHere(a: State, env: Env, f: ForegroundAssignments, pid: Pid, r: Ref)
    requires WellFormed(a) && Steady(a.table, env) && ValidEnv(env) && FixedAgree(a) && r in a.table.cells
    requires a.config.foreground == Some(f)
    ensures var p, u := a.table.cells[r], Partition(a, env, f, pid);
            && u.table == a.table
            && (AgreesAt(u, r) <==>
                  (PassedOver(a, r) ==> p.id in a.applied && a.applied[p.id] == OnSide(f, NowInFront(a.table, p, pid))))
  {
    hide ValidEnv, Partition, PassedOver, NowInFront, OnSide, AgreesAt, Fixed;
    SteadyParts(a, env);
    PartitionKeepsTable(a, env, f, pid);
    assert Fixed(a, a.table.cells[r]) ==> AgreesAt(a, r);
    hide FixedAgree, Sound, UniquePids;
    PartitionAgreesAt(a, env, f, pid, r);
  }

  lemma UnlistedAgreesExactly(s: State, env: Env, r: Ref)
    requires WellFormed(s) && ValidEnv(env) && env.listing.Some? && s.foreground.Some? && s.config.foreground.Some?
    requires r in Scanned(s, env).table.cells && r !in BeforeForeground(s, env).table.cells
    ensures r in ProcessMapRefresh(s, env).table.cells
    ensures AgreesAt(ProcessMapRefresh(s, env), r) <==> !StrandedUnlisted(s, env, r)
  {
    hide BeforeForeground, ProcessMapRefresh, Scanned, Agrees, Steady, ValidEnv, WellFormed, Grown, Partition,
         NowInFront, OnSide, AgreesAt, FixedAgree;
    ScanReady(s, env);
    AddedIsUnlisted(s, env, r);
    AddedBefore(s, env, r);
    hide IsListed;
    PartitionAgreesHere(Scanned(s, env), env, s.config.foreground.value, s.foreground.value, r);
    hide Fixed, PipewireAssigned;
  }

  /** The listed processes have their records before the scan. */
  lemma AddedIsUnlisted(s: State, env: Env, r: Ref)
    requires WellFormed(s) && ValidEnv(env) && env.listing.Some? && s.foreground.Some?
    requires r in Scanned(s, env).table.cells && r !in BeforeForeground(s, env).table.cells
    ensures !IsListed(env, Scanned(s, env).table.cells[r].id)
  {
    hide BeforeForeground, ProcessMapRefresh, Scanned, Agrees, ValidEnv, WellFormed, Partition, FixedAgree;
    ScanReady(s, env);
    var s1, a := BeforeForeground(s, env), Scanned(s, env);
    forall l | l in s1.table.cells
      ensures s1.table.cells[l].id != a.table.cells[r].id
    {
      assert a.table.cells[l].HashId() == s1.table.cells[l].HashId();
      assert a.table.cells[l].id == s1.table.cells[l].id;
    }
    if IsListed(env, a.table.cells[r].id) {
      var l := ListedIsTracked(s, env, a.table.cells[r].id);
    }
  }

  // ---------------------------------------------------------------------------------------
  // The refresh
  // ---------------------------------------------------------------------------------------

  /**
   * From any well-formed state, under any configuration, whatever the pid index finds and whichever parents
   * changed: a refresh over a readable listing leaves every applied profile as the state calls for,
   * exactly when there is no foreground process, or no foreground management, or the refresh
   * strands no process, listed or found by the scan.
   */
  lemma RefreshAgreesExactly(s: State, env: Env)
    requires WellFormed(s) && ValidEnv(env) && env.listing.Some?
    ensures Agrees(ProcessMapRefresh(s, env)) <==>
              || s.foreground.None?
              || s.config.foreground.None?
              || (&& (forall pid :: pid in env.listing.value ==> !Stranded(s, env, pid))
                  && (forall r :: r in Scanned(s, env).table.cells ==> !StrandedUnlisted(s, env, r)))
  {
    hide BeforeForeground, Current, Findable, WellFormed, ValidEnv, Scanned, Partition, Grown, Steady, FixedAgree, AgreesAt;
    RefreshFromBefore(s, env);
    BeforeForegroundIs(s, env);
    hide ProcessMapRefresh;
    if s.foreground.Some? {
      ScanReady(s, env);
      if s.config.foreground.Some? {
        RefreshStrands(s, env);
      }
    }
  }

  lemma RefreshStrands(s: State, env: Env)
    requires WellFormed(s) && ValidEnv(env) && env.listing.Some? && s.foreground.Some? && s.config.foreground.Some?
    ensures Agrees(ProcessMapRefresh(s, env)) <==>
              && (forall pid :: pid in env.listing.value ==> !Stranded(s, env, pid))
              && (forall r :: r in Scanned(s, env).table.cells ==> !StrandedUnlisted(s, env, r))
  {
    hide BeforeForeground, Current, Findable, WellFormed, ValidEnv, Scanned, Grown, Steady, FixedAgree, AgreesAt,
         ProcessMapRefresh, AssignableWhenRead, PassedOverWhenRead, SideBefore, FrontAfter, PassedOver,
         NowInFront;
    ScanReady(s, env);
    var u, a := ProcessMapRefresh(s, env), Scanned(s, env);
    PartitionKeepsTable(a, env, s.config.foreground.value, s.foreground.value);
    hide Partition;
    forall r | r in u.table.cells && !AgreesAt(u, r)
      ensures || (exists pid :: pid in env.listing.value && Stranded(s, env, pid))
              || (exists q :: q in a.table.cells && StrandedUnlisted(s, env, q))
    {
      if r in BeforeForeground(s, env).table.cells {
        ListedAgreesExactly(s, env, r);
        assert Stranded(s, env, BeforeForeground(s, env).table.cells[r].id);
      } else {
        UnlistedAgreesExactly(s, env, r);
        assert StrandedUnlisted(s, env, r);
      }
    }
    forall pid | pid in env.listing.value && Stranded(s, env, pid)
      ensures !Agrees(u)
    {
      var r := ListedIsTracked(s, env, pid);
      ListedAgreesExactly(s, env, r);
    }
    forall r | r in a.table.cells && StrandedUnlisted(s, env, r)
      ensures !Agrees(u)
    {
      if r in BeforeForeground(s, env).table.cells {
        ScannedDecides(s, env, r);
      }
      UnlistedAgreesExactly(s, env, r);
    }
  }

  // ---------------------------------------------------------------------------------------
  // Conditions that are easier to check
  // ---------------------------------------------------------------------------------------

  lemma {:induction false} NobodyListed(s: State, env: Env, tasks: seq<Pid>, pid: Pid)
    requires WellFormed(s) && s.pipewireProcesses == []
    ensures !ScanFindsHolder(s, env, tasks, pid)
  {
    hide WellFormed, AssignTasks;
    forall i | 0 <= i < |tasks|
      ensures AssignTasks(s, env, tasks[..i]).pipewireProcesses == []
    {
      AssignTasksKeepsWellFormed(s, env, tasks[..i]);
    }
  }

  /** With nobody on the pipewire list, nobody is held, before the refresh or after its scan. */
  lemma NobodyHolds(s: State, env: Env)
    requires WellFormed(s) && ValidEnv(env) && env.listing.Some? && s.foreground.Some? && s.pipewireProcesses == []
    ensures forall p :: !HeldWhenRead(s, env, p)
    ensures forall r :: r in Scanned(s, env).table.cells ==> !PipewireAssigned(Scanned(s, env), Scanned(s, env).table.cells[r])
  {
    hide ScanFindsHolder, BeforeForeground, AssignTasks, Tasks, ValidEnv, Agrees, Current, Steady, Sound, Linked,
         Findable, FixedAgree, Grown, Partition, ProcessMapRefresh;
    ScanReady(s, env);
    var s1 := BeforeForeground(s, env);
    ForgettingIsWellFormed(s1);
    forall pid
      ensures !ScanFindsHolder(s1.(foreground := None), env, Tasks(env.children, s.foreground.value), pid)
    {
      NobodyListed(s1.(foreground := None), env, Tasks(env.children, s.foreground.value), pid);
    }
    assert forall k :: !HeldUnder(s.table, k);
  }

  /**
   * While no process is on the pipewire list, the condition speaks of lost processes only: an
   * assignable one must have had the profile of the side on which the new list has it, which
   * is the foreground's if it is the foreground process itself.
   */
  lemma UnheldRefreshAgreesExactly(s: State, env: Env)
    requires WellFormed(s) && ValidEnv(env) && env.listing.Some? && s.pipewireProcesses == []
    ensures Agrees(ProcessMapRefresh(s, env)) <==>
              || s.foreground.None?
              || s.config.foreground.None?
              || forall pid :: pid in env.listing.value && IsListed(env, pid) && !Findable(s.table, RecordOf(env, pid, false))
                               && AssignableWhenRead(s, env, RecordOf(env, pid, false)) ==>
                                 Given(s.config.foreground.value, SideBefore(s, env, pid, true)) ==
                                 OnSide(s.config.foreground.value, pid == s.foreground.value)
  {
    hide WellFormed, ValidEnv, Agrees, ProcessMapRefresh, Scanned, Findable, AssignableWhenRead, SideBefore,
         Given, OnSide, HeldWhenRead, PipewireAssigned;
    RefreshAgreesExactly(s, env);
    if s.foreground.Some? && s.config.foreground.Some? {
      NobodyHolds(s, env);
      hide IsListed, NowInFront, DescendsUnder;
      assert forall pid :: RecordOf(env, pid, false).id == pid;
      hide RecordOf;
      forall r | r in Scanned(s, env).table.cells
        ensures !StrandedUnlisted(s, env, r)
      {
        UnheldUnlistedIsFound(s, env, r);
      }
    }
  }

  lemma UnheldUnlistedIsFound(s: State, env: Env, r: Ref)
    requires WellFormed(s) && ValidEnv(env) && env.listing.Some? && s.foreground.Some? && s.config.foreground.Some?
    requires r in Scanned(s, env).table.cells && !PipewireAssigned(Scanned(s, env), Scanned(s, env).table.cells[r])
    ensures !StrandedUnlisted(s, env, r)
  {
    hide BeforeForeground, ProcessMapRefresh, Scanned, Agrees, Steady, ValidEnv, WellFormed, Partition,
         NowInFront, OnSide, FixedAgree, PipewireAssigned, AssignableWhenRead, HeldWhenRead, Findable, IsListed;
    ScanReady(s, env);
    if r in BeforeForeground(s, env).table.cells {
      ScannedDecides(s, env, r);
    }
  }

  /** With a pipewire profile, being held costs nothing: only lost processes that are not held can be stranded. */
  lemma PipewireRefreshAgreesExactly(s: State, env: Env)
    requires WellFormed(s) && ValidEnv(env) && env.listing.Some? && s.config.pipewire.Some?
    ensures Agrees(ProcessMapRefresh(s, env)) <==>
              || s.foreground.None?
              || s.config.foreground.None?
              || forall pid :: pid in env.listing.value && IsListed(env, pid) && !Findable(s.table, RecordOf(env, pid, false))
                               && AssignableWhenRead(s, env, RecordOf(env, pid, false))
                               && !HeldWhenLost(s, env, RecordOf(env, pid, false)) ==>
                                 Given(s.config.foreground.value, SideBefore(s, env, pid, true)) ==
                                 OnSide(s.config.foreground.value, pid == s.foreground.value)
  {
    hide WellFormed, ValidEnv, Agrees, ProcessMapRefresh, Scanned, Findable, AssignableWhenRead, SideBefore,
         Given, OnSide, HeldWhenLost;
    RefreshAgreesExactly(s, env);
    if s.foreground.Some? && s.config.foreground.Some? {
      hide IsListed, NowInFront, DescendsUnder;
      assert forall pid :: RecordOf(env, pid, false).id == pid;
      hide RecordOf;
      forall r | r in Scanned(s, env).table.cells
        ensures !StrandedUnlisted(s, env, r)
      {
        HeldOrFound(s, env, r);
      }
    }
  }

  lemma HeldOrFound(s: State, env: Env, r: Ref)
    requires WellFormed(s) && ValidEnv(env) && env.listing.Some? && s.foreground.Some? && s.config.foreground.Some?
    requires r in Scanned(s, env).table.cells && s.config.pipewire.Some?
    ensures !StrandedUnlisted(s, env, r)
  {
    hide BeforeForeground, ProcessMapRefresh, Scanned, Agrees, Steady, ValidEnv, WellFormed, Partition,
         NowInFront, OnSide, FixedAgree, PipewireAssigned, AssignableWhenRead, HeldWhenRead, Findable, IsListed;
    ScanReady(s, env);
    if r in BeforeForeground(s, env).table.cells {
      ScannedDecides(s, env, r);
    }
  }

  /**
   * If the pid index finds every listed process, or can find it again, and there is a pipewire
   * profile or nobody on the pipewire list, the refresh puts all profiles right.
   */
  lemma FindableRefreshAgrees(s: State, env: Env)
    requires WellFormed(s) && ValidEnv(env) && env.listing.Some?
    requires forall pid :: IsListed(env, pid) ==> Findable(s.table, RecordOf(env, pid, false))
    ensures ListCounts(s) ==> Agrees(ProcessMapRefresh(s, env))
  {
    hide WellFormed, ValidEnv, Agrees, ProcessMapRefresh, IsListed, Findable, AssignableWhenRead, Given, OnSide,
         SideBefore, HeldWhenLost;
    if s.config.pipewire.Some? {
      PipewireRefreshAgreesExactly(s, env);
    } else if s.pipewireProcesses == [] {
      UnheldRefreshAgreesExactly(s, env);
    }
  }

  /** A process that is held for nothing: it keeps the profile of the side on which the old list has it. */
  ghost predicate KeepsOldSide(s: State, env: Env, pid: Pid)
    requires s.foreground.Some? && s.config.foreground.Some? && env.listing.Some?
  {
    var p, f := RecordOf(env, pid, false), s.config.foreground.value;
    && IsListed(env, pid) && AssignableWhenRead(s, env, p)
    && (pid in s.pipewireProcesses || HeldUnder(s.table, p.HashId()))
    && var front := pid == s.foreground.value || DescendsUnder(Scanned(s, env).table, p.HashId(), s.foreground.value);
       OnSide(f, pid == s.foreground.value || pid in s.foregroundProcesses) != OnSide(f, front)
  }

  /**
   * If the pid index finds every listed process, or can find it again: the refresh puts all profiles right
   * exactly when there is no foreground process or management, or a pipewire profile, or each
   * process that is held for nothing stays on its side and the scan adds none.
   */
  lemma FindableRefreshAgreesExactly(s: State, env: Env)
    requires WellFormed(s) && ValidEnv(env) && env.listing.Some?
    requires forall pid :: IsListed(env, pid) ==> Findable(s.table, RecordOf(env, pid, false))
    ensures Agrees(ProcessMapRefresh(s, env)) <==>
              || s.foreground.None?
              || s.config.foreground.None?
              || s.config.pipewire.Some?
              || (&& (forall pid :: pid in env.listing.value ==> !KeepsOldSide(s, env, pid))
                  && (forall r :: r in Scanned(s, env).table.cells ==> !StrandedUnlisted(s, env, r)))
  {
    hide WellFormed, ValidEnv, Agrees, ProcessMapRefresh, Findable, AssignableWhenRead, OnSide, HeldUnder,
         DescendsUnder, StrandedUnlisted;
    if s.config.pipewire.Some? {
      FindableRefreshAgrees(s, env);
    } else {
      RefreshAgreesExactly(s, env);
      hide Scanned, IsListed;
      assert forall pid :: RecordOf(env, pid, false).id == pid;
      hide RecordOf;
    }
  }

  // ---------------------------------------------------------------------------------------
  // Stable runs
  // ---------------------------------------------------------------------------------------

  /** With a complete pid index, every process that kept its parent can be found. */
  lemma StableIsFindable(s: State, env: Env)
    requires Settled(s) && ValidEnv(env) && env.listing.Some? && TrueParents(s.table, env)
    ensures forall pid :: IsListed(env, pid) ==> Findable(s.table, RecordOf(env, pid, false))
  {
    hide ValidEnv, Findable, Linked, PipewireSound;
    forall pid | IsListed(env, pid)
      ensures Findable(s.table, RecordOf(env, pid, false))
    {
      var p := RecordOf(env, pid, false);
      FindableWhenStable(s.table, p);
      assert p.id == pid && p.parentId == env.parentId(pid).GetOr(0);
      assert SameParent(s.table, pid, env.parentId(pid).GetOr(0));
    }
  }

  /**
   * Whatever has put the profiles out of step before, configuration reloads and removals that were
   * not clean included: as long as no tracked pid changed its parent, the next refresh over a
   * readable listing puts every applied profile right if there is no foreground process or no
   * foreground management, if there is a pipewire profile, or if nobody is on the pipewire list. If a
   * reload has dropped the pipewire profile, it does so exactly when each process that is still held
   * stays on its side of the foreground and the scan adds none.
   */
  lemma RefreshHealsStableRun(config: SchedulerConfig, inputs: seq<Input>, env: Env)
    requires forall i :: 0 <= i < |inputs| ==> Stable(Run(Initial(config), inputs[..i]), inputs[i])
    requires Stable(Run(Initial(config), inputs), Input(RefreshProcessMap, env)) && env.listing.Some?
    ensures var s := Run(Initial(config), inputs);
            && (ListCounts(s) ==> Agrees(ProcessMapRefresh(s, env)))
            && (Agrees(ProcessMapRefresh(s, env)) <==>
                  || s.foreground.None?
                  || s.config.foreground.None?
                  || s.config.pipewire.Some?
                  || (&& (forall pid :: pid in env.listing.value ==> !KeepsOldSide(s, env, pid))
                      && (forall r :: r in Scanned(s, env).table.cells ==> !StrandedUnlisted(s, env, r))))
  {
    hide WellFormed, Covered, TrueParents, ValidEnv, Findable, Agrees, Run, ProcessMapRefresh, KeepsOldSide,
         StrandedUnlisted, Scanned;
    var s := Run(Initial(config), inputs);
    StableRunSettled(config, inputs);
    StableIsFindable(s, env);
    hide Stable, IsListed;
    FindableRefreshAgrees(s, env);
    FindableRefreshAgreesExactly(s, env);
  }
}
