/** A second refresh over an unchanged world changes nothing. */
module Idempotence {
  import opened Basics
  import opened Scheduler
  import opened ProcessTable
  import opened TableOperations
  import opened Refresh
  import opened Classification
  import opened Worklist
  import opened Engine
  import opened EngineInvariants
  import opened Agreement
  import opened Descendants
  import opened WholeRuns
  import opened Scans
  import opened RefreshAgreement

  // ---------------------------------------------------------------------------------------
  // Links after a refresh
  // ---------------------------------------------------------------------------------------

  /** The link a listed process should have: to its parent, if the pid index knows it. */
  ghost function DueLink(t: Table, parents: map<Pid, Pid>, pid: Pid): Option<Ref> {
    if pid in parents && parents[pid] in t.byPid then Some(t.byPid[parents[pid]]) else None
  }

  /** A live parent link is there after a refresh exactly when it is due. */
  lemma LinksAreDue(t: Table, ps: seq<Process>, parents: map<Pid, Pid>, r: Ref)
    requires Sound(t) && IsListing(ps) && Covered(Refreshed(t, ps, parents)) && r in Refreshed(t, ps, parents).cells
    ensures var u := Refreshed(t, ps, parents);
            Upgrade(u, u.cells[r].parent) == DueLink(u, parents, u.cells[r].id)
  {
    hide Absorb, Refreshed, Records, IsListing, Keyed, Allocated;
    var a, u := Absorb(Prepare(t), ps), Refreshed(t, ps, parents);
    RefreshedFromMarked(t, ps, parents);
    AbsorbedUnlinked(t, ps, r);
    RefreshSweeps(t, ps, parents);
    var p := a.cells[r];
    assert u.cells[r].id == p.id && u.byPid[p.id] == r;
    if p.id in parents && parents[p.id] in a.byPid {
      var q := a.byPid[parents[p.id]];
      assert u.cells[r].parent == Some(q);
      if q in u.cells {
        assert u.cells[q].id == parents[p.id];
      } else {
        assert parents[p.id] !in u.byPid;
      }
    }
  }

  // ---------------------------------------------------------------------------------------
  // Tables that differ in dead links only
  // ---------------------------------------------------------------------------------------

  /** The same records, decisions, indexes and live links. */
  ghost predicate Alike(t: Table, u: Table) {
    && t.byKey == u.byKey && t.byPid == u.byPid && t.cells.Keys == u.cells.Keys
    && (forall r {:trigger u.cells[r]} :: r in t.cells ==>
          SameButLink(t.cells[r], u.cells[r]) && Upgrade(t, t.cells[r].parent) == Upgrade(u, u.cells[r].parent))
  }

  lemma AlikeNames(t: Table, u: Table)
    requires Alike(t, u)
    ensures SameNames(t, u) && forall r :: r in t.cells ==> SameEvidence(t, t.cells[r], u, u.cells[r])
  {
    assert forall r :: r in t.cells ==> SameButLink(t.cells[r], u.cells[r]);
  }

  /** In a complete pid index the entries are determined by the cells. */
  lemma IndexDetermined(t: Table, u: Table)
    requires Sound(t) && Covered(t) && Sound(u) && Covered(u)
    requires t.cells.Keys == u.cells.Keys && forall r :: r in t.cells ==> t.cells[r].id == u.cells[r].id
    ensures t.byPid == u.byPid
  {
    forall pid | pid in t.byPid
      ensures pid in u.byPid && u.byPid[pid] == t.byPid[pid]
    {
      assert u.cells[t.byPid[pid]].id == pid;
    }
    forall pid | pid in u.byPid
      ensures pid in t.byPid
    {
      assert t.cells[u.byPid[pid]].id == pid;
    }
  }

  /** The table already is what the listing would make of it. */
  ghost predicate UpToDate(t: Table, ps: seq<Process>, parents: map<Pid, Pid>) {
    && Sound(t) && Covered(t) && IsListing(ps)
    && t.byKey.Keys == Records(ps).Keys
    && (forall r {:trigger t.cells[r]} :: r in t.cells && t.cells[r].HashId() in Records(ps) ==>
          && t.cells[r].name == Records(ps)[t.cells[r].HashId()].name
          && t.cells[r].cgroup == Records(ps)[t.cells[r].HashId()].cgroup
          && Upgrade(t, t.cells[r].parent) == DueLink(t, parents, t.cells[r].id))
  }

  lemma RefreshedIsUpToDate(t: Table, ps: seq<Process>, parents: map<Pid, Pid>)
    requires Sound(t) && IsListing(ps) && Covered(Refreshed(t, ps, parents))
    ensures UpToDate(Refreshed(t, ps, parents), ps, parents)
  {
    var u := Refreshed(t, ps, parents);
    RefreshSweeps(t, ps, parents);
    forall r | r in u.cells && u.cells[r].HashId() in Records(ps)
      ensures u.cells[r].name == Records(ps)[u.cells[r].HashId()].name
      ensures u.cells[r].cgroup == Records(ps)[u.cells[r].HashId()].cgroup
      ensures Upgrade(u, u.cells[r].parent) == DueLink(u, parents, u.cells[r].id)
    {
      var p := Records(ps)[u.cells[r].HashId()];
      RefreshedRecord(t, ps, parents, p);
      LinksAreDue(t, ps, parents, r);
      hide Refreshed, IsListing, PidIndexed, Allocated, Covered;
      assert u.byKey[p.HashId()] == r;
    }
    hide Refreshed, Sound, Covered, IsListing;
  }

  lemma RecordStays(t: Table, ps: seq<Process>, parents: map<Pid, Pid>, r: Ref)
    requires UpToDate(t, ps, parents) && r in t.cells
    ensures r in Refreshed(t, ps, parents).cells && SameButLink(t.cells[r], Refreshed(t, ps, parents).cells[r])
    ensures t.cells[r].HashId() in Refreshed(t, ps, parents).byKey && Refreshed(t, ps, parents).byKey[t.cells[r].HashId()] == r
  {
    var u := Refreshed(t, ps, parents);
    assert t.cells[r].HashId() in Records(ps);
    var p := Records(ps)[t.cells[r].HashId()];
    RefreshedRecord(t, ps, parents, p);
    RefreshSweeps(t, ps, parents);
    assert t.byKey[p.HashId()] == r;
    assert RefreshedAs(t, u, p);
    assert u.cells[r].HashId() == p.HashId();
    hide Refreshed, IsListing, Keyed, PidIndexed, Allocated, Covered, Records;
  }

  lemma IndexesStay(t: Table, ps: seq<Process>, parents: map<Pid, Pid>)
    requires UpToDate(t, ps, parents) && Covered(Refreshed(t, ps, parents))
    ensures var u := Refreshed(t, ps, parents);
            && t.cells.Keys == u.cells.Keys && t.byKey == u.byKey && t.byPid == u.byPid
            && (forall r {:trigger u.cells[r]} :: r in t.cells ==> SameButLink(t.cells[r], u.cells[r]))
  {
    hide Refreshed, IsListing, SameButLink, Covered, PidIndexed, Allocated;
    var u := Refreshed(t, ps, parents);
    RefreshSweeps(t, ps, parents);
    forall r | r in t.cells
      ensures r in u.cells && SameButLink(t.cells[r], u.cells[r]) && t.cells[r].HashId() in u.byKey && u.byKey[t.cells[r].HashId()] == r
    {
      RecordStays(t, ps, parents, r);
    }
    SameCellKeys(t, u);
    SameIds(t, u);
    IndexDetermined(t, u);
  }

  lemma SameIds(t: Table, u: Table)
    requires t.cells.Keys == u.cells.Keys && forall r {:trigger u.cells[r]} :: r in t.cells ==> SameButLink(t.cells[r], u.cells[r])
    ensures forall r {:trigger u.cells[r]} :: r in t.cells ==>
              t.cells[r].id == u.cells[r].id && t.cells[r].HashId() == u.cells[r].HashId()
  {
  }

  /** Refreshing an up-to-date table leaves it as it was. */
  lemma UpToDateStays(t: Table, ps: seq<Process>, parents: map<Pid, Pid>)
    requires UpToDate(t, ps, parents) && Covered(Refreshed(t, ps, parents))
    ensures Alike(t, Refreshed(t, ps, parents))
  {
    hide Refreshed, SameButLink, Covered, Upgrade, Keyed, PidIndexed, Allocated, Records;
    var u := Refreshed(t, ps, parents);
    IndexesStay(t, ps, parents);
    RefreshedIsUpToDate(t, ps, parents);
    hide UpToDate;
    forall r | r in t.cells
      ensures Upgrade(t, t.cells[r].parent) == Upgrade(u, u.cells[r].parent)
    {
      UpToDateLink(t, ps, parents, r);
      UpToDateLink(u, ps, parents, r);
      SameIds(t, u);
    }
    AlikeIs(t, u);
  }

  lemma AlikeIs(t: Table, u: Table)
    requires t.byKey == u.byKey && t.byPid == u.byPid && t.cells.Keys == u.cells.Keys
    requires forall r {:trigger u.cells[r]} :: r in t.cells ==> SameButLink(t.cells[r], u.cells[r])
    requires forall r :: r in t.cells ==> Upgrade(t, t.cells[r].parent) == Upgrade(u, u.cells[r].parent)
    ensures Alike(t, u)
  {
    hide SameButLink, Upgrade;
  }

  lemma UpToDateLink(t: Table, ps: seq<Process>, parents: map<Pid, Pid>, r: Ref)
    requires UpToDate(t, ps, parents) && r in t.cells
    ensures Upgrade(t, t.cells[r].parent) == DueLink(t, parents, t.cells[r].id)
  {
    assert t.cells[r].HashId() in Records(ps);
  }

  lemma SameCellKeys(t: Table, u: Table)
    requires Keyed(t) && Keyed(u) && t.byKey.Keys == u.byKey.Keys
    requires forall r {:trigger r in t.cells} :: r in t.cells ==>
               r in u.cells && t.cells[r].HashId() in u.byKey && u.byKey[t.cells[r].HashId()] == r
    ensures t.cells.Keys == u.cells.Keys && t.byKey == u.byKey
  {
    forall k | k in t.byKey
      ensures u.byKey[k] == t.byKey[k]
    {
      assert t.cells[t.byKey[k]].HashId() == k;
    }
    forall r | r in u.cells
      ensures r in t.cells
    {
      assert u.byKey[u.cells[r].HashId()] == r;
    }
  }

  // ---------------------------------------------------------------------------------------
  // States in which nothing is left to do
  // ---------------------------------------------------------------------------------------

  /** A record without a decision is one for which there is none. */
  ghost predicate DecidedAll(c: SchedulerConfig, t: Table) {
    forall r :: r in t.cells && t.cells[r].assignedPriority == NotAssignable ==> Classify(c, t, t.cells[r]) == NotAssignable
  }

  /** The scan below the foreground process finds nothing that is not known by its pid. */
  ghost predicate ScanIsDone(t: Table, env: Env, pid: Pid) {
    forall q :: q in Tasks(env.children, pid) && Readable(env, q) ==> q in t.byPid
  }

  ghost predicate Quiet(s: State, env: Env) {
    && Settled(s) && Agrees(s)
    && DecidedAll(s.config, s.table)
    && s.table.drain == {}
    && (s.foreground.Some? ==>
          && s.config.foreground.Some?
          && ScanIsDone(s.table, env, s.foreground.value)
          && s.foregroundProcesses == [s.foreground.value] +
             PidsOf(s.table.cells, env.order(s.table.byKey.Values), ForegroundCells(s.table, s.foreground.value)))
  }

  lemma {:induction false} DoneTasks(s: State, env: Env, tasks: seq<Pid>)
    requires forall q :: q in tasks && Readable(env, q) ==> q in s.table.byPid
    ensures AssignTasks(s, env, tasks) == s
  {
    hide AssignNew;
    if tasks != [] {
      DoneTasks(s, env, tasks[..|tasks| - 1]);
      assert tasks[|tasks| - 1] in tasks;
    }
  }

  lemma DoneScan(s: State, env: Env, pid: Pid)
    requires ScanIsDone(s.table, env, pid)
    ensures AssignChildren(s, env, pid) == s
  {
    DoneTasks(s, env, Tasks(env.children, pid));
  }

  /** A loop that writes what is there changes nothing. */
  lemma {:induction false} ApplyingAgain(cells: map<Ref, Process>, order: seq<Ref>, writes: map<Ref, Profile>, applied: map<Pid, Profile>)
    requires forall r :: r in writes && r in cells ==> cells[r].id in applied && applied[cells[r].id] == writes[r]
    ensures ApplyAll(cells, order, writes, applied) == applied
  {
    if order != [] {
      ApplyingAgain(cells, order[..|order| - 1], writes, applied);
    }
  }

  lemma {:induction false} SamePidsOf(cells: map<Ref, Process>, other: map<Ref, Process>, order: seq<Ref>, chosen: set<Ref>)
    requires cells.Keys == other.Keys && forall r :: r in cells ==> cells[r].id == other[r].id
    ensures PidsOf(cells, order, chosen) == PidsOf(other, order, chosen)
  {
    if order != [] {
      SamePidsOf(cells, other, order[..|order| - 1], chosen);
    }
  }

  lemma DecidedStays(c: SchedulerConfig, t: Table, u: Table)
    requires DecidedAll(c, t) && Alike(t, u)
    ensures DecideSome(c, u, u.byKey.Values) == u
  {
    AlikeNames(t, u);
    forall r | r in u.cells
      ensures Decided(c, u, u.cells[r]) == u.cells[r]
    {
      SameClass(c, t, u, t.cells[r], u.cells[r]);
      assert SameButLink(t.cells[r], u.cells[r]);
      hide Classify, SameNames, SameEvidence;
    }
    hide Decided;
    assert DecideSome(c, u, u.byKey.Values).cells == u.cells;
  }

  lemma AlikePick(s: State, u: State, r: Ref)
    requires s.config == u.config && s.foreground == u.foreground && s.foregroundProcesses == u.foregroundProcesses
    requires s.pipewireProcesses == u.pipewireProcesses && Alike(s.table, u.table) && r in s.table.cells
    ensures r in u.table.cells && s.table.cells[r].id == u.table.cells[r].id
    ensures Pick(s, s.table.cells[r]) == Pick(u, u.table.cells[r])
    ensures PipewireAssigned(s, s.table.cells[r]) == PipewireAssigned(u, u.table.cells[r])
  {
    assert SameButLink(s.table.cells[r], u.table.cells[r]);
    hide Alike, Upgrade;
    SameButLinkPick(s, u, s.table.cells[r], u.table.cells[r]);
  }

  lemma SameButLinkPick(s: State, u: State, p: Process, q: Process)
    requires s.config == u.config && s.foreground == u.foreground && s.foregroundProcesses == u.foregroundProcesses
    requires s.pipewireProcesses == u.pipewireProcesses && SameButLink(p, q)
    ensures p.id == q.id && Pick(s, p) == Pick(u, q) && PipewireAssigned(s, p) == PipewireAssigned(u, q)
  {
    assert p.id == q.id && p.assignedPriority == q.assignedPriority && p.pipewireAncestor == q.pipewireAncestor;
    hide SameButLink;
  }

  /** Deciding and applying once more leaves an alike table and the applied profiles as they are. */
  lemma ApplyingAllAgain(s: State, env: Env, t: Table)
    requires Agrees(s) && DecidedAll(s.config, s.table) && Alike(s.table, t)
    ensures AssignAndApplyAll(s.(table := t), env) == s.(table := t)
  {
    var u := s.(table := t);
    DecidedStays(s.config, s.table, t);
    hide DecideSome;
    forall r | r in PickWrites(u) && r in t.cells
      ensures t.cells[r].id in s.applied && s.applied[t.cells[r].id] == PickWrites(u)[r]
    {
      AlikePick(s, u, r);
      assert AgreesAt(s, r);
      hide Pick;
    }
    hide PickWrites, Alike;
    ApplyingAgain(t.cells, env.order(t.byKey.Values), PickWrites(u), s.applied);
  }

  lemma AlikeInForeground(t: Table, u: Table, pid: Pid, r: Ref)
    requires Alike(t, u) && r in t.cells
    ensures t.cells[r].id == u.cells[r].id
    ensures Assignment(t, t.cells[r].id) == Assignment(u, u.cells[r].id)
    ensures InForeground(t, r, pid) == InForeground(u, r, pid)
  {
    AlikeNames(t, u);
    SameDescent(t, u, t.cells[r], u.cells[r], pid);
    assert SameButLink(t.cells[r], u.cells[r]);
    var q := t.cells[r].id;
    assert q in t.byPid && t.byPid[q] in t.cells ==> SameButLink(t.cells[t.byPid[q]], u.cells[t.byPid[q]]);
    hide SameNames, SameEvidence, DescendedFrom, Upgrade;
  }

  lemma AlikeForeground(t: Table, u: Table, pid: Pid)
    requires Alike(t, u)
    ensures ForegroundCells(t, pid) == ForegroundCells(u, pid)
    ensures forall r :: r in t.cells ==> Assignment(t, t.cells[r].id) == Assignment(u, u.cells[r].id)
  {
    forall r | r in t.cells
      ensures Assignment(t, t.cells[r].id) == Assignment(u, u.cells[r].id)
      ensures InForeground(t, r, pid) == InForeground(u, r, pid)
    {
      AlikeInForeground(t, u, pid, r);
    }
    hide InForeground, Assignment;
  }

  /** The partition of an alike table finds the list and the profiles it would produce. */
  lemma PartitioningAgain(s: State, env: Env, t: Table, f: ForegroundAssignments, pid: Pid)
    requires Quiet(s, env) && ValidEnv(env) && Alike(s.table, t) && s.config.foreground == Some(f) && s.foreground == Some(pid)
    ensures Partition(s.(table := t, foreground := None), env, f, pid) == s.(table := t)
  {
    hide ForegroundWrites, ForegroundCells, PidsOf, ApplyAll, WellFormed, Covered, UpToDate, ValidEnv;
    var u := s.(table := t, foreground := None);
    AlikeForeground(s.table, t, pid);
    assert forall r :: r in t.cells ==> s.table.cells[r].id == t.cells[r].id by {
      assert forall r :: r in t.cells ==> SameButLink(s.table.cells[r], t.cells[r]);
    }
    SamePidsOf(s.table.cells, t.cells, env.order(t.byKey.Values), ForegroundCells(t, pid));
    forall r | r in ForegroundWrites(u, f, pid) && r in t.cells
      ensures t.cells[r].id in s.applied && s.applied[t.cells[r].id] == ForegroundWrites(u, f, pid)[r]
    {
      WriteIsApplied(s, env, t, f, pid, r);
    }
    hide Alike;
    ApplyingAgain(t.cells, env.order(t.byKey.Values), ForegroundWrites(u, f, pid), s.applied);
  }

  lemma WriteIsApplied(s: State, env: Env, t: Table, f: ForegroundAssignments, pid: Pid, r: Ref)
    requires Quiet(s, env) && ValidEnv(env) && Alike(s.table, t) && s.config.foreground == Some(f) && s.foreground == Some(pid)
    requires r in t.cells && r in ForegroundWrites(s.(table := t, foreground := None), f, pid)
    ensures t.cells[r].id in s.applied
    ensures s.applied[t.cells[r].id] == ForegroundWrites(s.(table := t, foreground := None), f, pid)[r]
  {
    AlikeForeground(s.table, t, pid);
    AlikePick(s, s.(table := t), r);
    AssignmentIsOwn(s.table, r);
    PartitionCache(s, env, f, pid, s.table.cells[r].id);
    InForegroundWhen(s.table, r, pid);
    assert r in ForegroundCells(s.table, pid) <==> r in ForegroundCells(t, pid);
    assert AgreesAt(s, r);
    hide Settled, ValidEnv, Alike, Covered, DescendedFrom, OfForeground, PidsOf, ApplyAll, ScanIsDone;
  }

  // ---------------------------------------------------------------------------------------
  // The second refresh
  // ---------------------------------------------------------------------------------------

  /** Everything readable below the foreground process is listed. */
  ghost predicate ListsForeground(s: State, env: Env) {
    s.foreground.Some? && env.listing.Some? ==>
      forall q :: Reachable(env.children, s.foreground.value, q) && Readable(env, q) ==> q in env.listing.value
  }

  lemma ListedIsKnown(t: Table, env: Env, q: Pid)
    requires Keyed(t) && Covered(t) && env.listing.Some? && q in env.listing.value && Readable(env, q)
    requires t.byKey.Keys == Records(Listed(env, env.listing.value, false)).Keys
    ensures q in t.byPid
  {
    ListedIs(env, env.listing.value, false);
    var p := RecordOf(env, q, false);
    assert p.HashId() in t.byKey;
    assert t.cells[t.byKey[p.HashId()]].id == q;
  }

  lemma ListedScanIsDone(t: Table, env: Env, pid: Pid)
    requires Keyed(t) && Covered(t) && env.listing.Some?
    requires t.byKey.Keys == Records(Listed(env, env.listing.value, false)).Keys
    requires forall q :: Reachable(env.children, pid, q) && Readable(env, q) ==> q in env.listing.value
    ensures ScanIsDone(t, env, pid)
  {
    TasksAreReachable(env.children, pid);
    hide Reachable, Readable, Keyed, Covered, Tasks;
    forall q | q in Tasks(env.children, pid) && Readable(env, q)
      ensures q in t.byPid
    {
      ListedIsKnown(t, env, q);
    }
  }

  lemma DecidingDecidesAll(c: SchedulerConfig, t: Table)
    requires Keyed(t)
    ensures DecidedAll(c, DecideSome(c, t, t.byKey.Values))
  {
    var u := DecideSome(c, t, t.byKey.Values);
    DecideKeepsShape(c, t, t.byKey.Values);
    ShapeKeepsNames(t, u);
    ValuesAreCells(t);
    forall r | r in u.cells && u.cells[r].assignedPriority == NotAssignable
      ensures Classify(c, u, u.cells[r]) == NotAssignable
    {
      SameClass(c, t, u, t.cells[r], u.cells[r]);
      hide Classify, SameShape, SameNames, SameEvidence, Keyed;
      assert u.cells[r] == Decided(c, t, t.cells[r]);
    }
  }

  lemma ShapeKeepsRecord(t: Table, u: Table, ps: seq<Process>, parents: map<Pid, Pid>, r: Ref)
    requires UpToDate(t, ps, parents) && SameShape(t, u) && r in u.cells && u.cells[r].HashId() in Records(ps)
    ensures u.cells[r].name == Records(ps)[u.cells[r].HashId()].name
    ensures u.cells[r].cgroup == Records(ps)[u.cells[r].HashId()].cgroup
    ensures Upgrade(u, u.cells[r].parent) == DueLink(u, parents, u.cells[r].id)
  {
    hide Sound, Covered, IsListing, Records;
    assert SameButFate(t.cells[r], u.cells[r]);
    assert t.cells[r].HashId() == u.cells[r].HashId();
  }

  lemma ShapeKeepsUpToDate(t: Table, u: Table, ps: seq<Process>, parents: map<Pid, Pid>)
    requires UpToDate(t, ps, parents) && SameShape(t, u)
    ensures UpToDate(u, ps, parents)
  {
    hide Sound, Covered, IsListing, SameButFate, DueLink, Upgrade;
    ShapeKeepsSound(t, u);
    ShapeKeepsCovered(t, u);
    forall r | r in u.cells && u.cells[r].HashId() in Records(ps)
      ensures u.cells[r].name == Records(ps)[u.cells[r].HashId()].name
      ensures u.cells[r].cgroup == Records(ps)[u.cells[r].HashId()].cgroup
      ensures Upgrade(u, u.cells[r].parent) == DueLink(u, parents, u.cells[r].id)
    {
      ShapeKeepsRecord(t, u, ps, parents, r);
    }
  }

  /** The state in which a refresh leaves its table before the foreground is set again. */
  lemma RefreshSettlesTable(s: State, env: Env)
    requires Settled(s) && ValidEnv(env) && env.listing.Some? && TrueParents(s.table, env)
    ensures var ps, parents := Listed(env, env.listing.value, false), ListedParents(env, env.listing.value);
            var t := AssignAndApplyAll(s.(table := Refreshed(s.table, ps, parents)), env).table;
            UpToDate(t, ps, parents) && DecidedAll(s.config, t) && t.drain == {}
  {
    var pids := env.listing.value;
    var ps, parents := Listed(env, pids, false), ListedParents(env, pids);
    var t := Refreshed(s.table, ps, parents);
    ListedIsListing(env, pids, false);
    SweepKeepsCovered(s.table, env, false, parents);
    RefreshSweeps(s.table, ps, parents);
    RefreshedIsUpToDate(s.table, ps, parents);
    hide Refreshed, Listed, ListedParents, IsListing, UpToDate;
    DecideKeepsShape(s.config, t, t.byKey.Values);
    ShapeKeepsUpToDate(t, DecideSome(s.config, t, t.byKey.Values), ps, parents);
    DecidingDecidesAll(s.config, t);
  }

  /** No record is held, and no listed process is on the pipewire list. */
  ghost predicate NoneHeld(s: State, pids: seq<Pid>) {
    && (forall r :: r in s.table.cells ==> s.table.cells[r].pipewireAncestor == None)
    && (forall pid :: pid in pids ==> pid !in s.pipewireProcesses)
  }

  lemma SweptUnheld(t: Table, env: Env, parents: map<Pid, Pid>, r: Ref)
    requires Sound(t) && ValidEnv(env) && env.listing.Some?
    requires forall q :: q in t.cells ==> t.cells[q].pipewireAncestor == None
    requires r in Refreshed(t, Listed(env, env.listing.value, false), parents).cells
    ensures Refreshed(t, Listed(env, env.listing.value, false), parents).cells[r].pipewireAncestor == None
  {
    var ps := Listed(env, env.listing.value, false);
    var u := Refreshed(t, ps, parents);
    ListedIsListing(env, env.listing.value, false);
    ListedIs(env, env.listing.value, false);
    RefreshSweeps(t, ps, parents);
    hide Refreshed, Listed, ValidEnv, PidIndexed, Allocated;
    var p := Records(ps)[u.cells[r].HashId()];
    assert p in ps && p.pipewireAncestor == None;
    RefreshedRecord(t, ps, parents, p);
    hide IsListing, Records;
    assert u.byKey[p.HashId()] == r;
  }

  lemma SweptNoneHeld(s: State, env: Env)
    requires WellFormed(s) && ValidEnv(env) && env.listing.Some? && NoneHeld(s, env.listing.value)
    ensures var s1 := BeforeForeground(s, env);
            forall r :: r in s1.table.cells ==> !PipewireAssigned(s1, s1.table.cells[r])
  {
    var pids := env.listing.value;
    var t := Refreshed(s.table, Listed(env, pids, false), ListedParents(env, pids));
    var s1 := BeforeForeground(s, env);
    DecideKeepsShape(s.config, t, t.byKey.Values);
    BeforeForegroundIs(s, env);
    hide Refreshed, Listed, ListedParents, ValidEnv, Linked, PipewireSound, DecideSome, Current, Findable, Agrees;
    forall r | r in s1.table.cells
      ensures !PipewireAssigned(s1, s1.table.cells[r])
    {
      SweptUnheld(s.table, env, ListedParents(env, pids), r);
      hide Sound;
    }
  }

  lemma BeforeForegroundIsQuiet(s: State, env: Env)
    requires Settled(s) && ValidEnv(env) && env.listing.Some? && TrueParents(s.table, env)
    ensures var s1 := BeforeForeground(s, env);
            && Settled(s1) && Agrees(s1) && DecidedAll(s.config, s1.table) && s1.table.drain == {} && SameLists(s, s1)
            && UpToDate(s1.table, Listed(env, env.listing.value, false), ListedParents(env, env.listing.value))
  {
    hide Listed, ListedParents, Refreshed, UpToDate, DecidedAll, Agrees;
    var ps, parents := Listed(env, env.listing.value, false), ListedParents(env, env.listing.value);
    var s0 := s.(table := Refreshed(s.table, ps, parents));
    RefreshSettlesTable(s, env);
    RefreshKeepsTable(s, env, false, parents);
    SweepKeepsCovered(s.table, env, false, parents);
    CoveredMeansUnique(s0.table);
    hide WellFormed, Covered, TrueParents;
    AssignAndApplyAllAgrees(s0, env) by { WellFormedIsSound(s0); }
    DecidingKeepsSettled(s0, env);
  }

  /** What a refresh comes to if the scan finds nothing that is not listed. */
  lemma RefreshIsQuiet(s: State, env: Env)
    requires Settled(s) && ValidEnv(env) && env.listing.Some? && TrueParents(s.table, env)
    requires (s.config.pipewire.Some? || NoneHeld(s, env.listing.value)) && ListsForeground(s, env)
    ensures var s1 := ProcessMapRefresh(s, env);
            && Quiet(s1, env) && s1.config == s.config
            && UpToDate(s1.table, Listed(env, env.listing.value, false), ListedParents(env, env.listing.value))
  {
    hide Listed, ListedParents, UpToDate, DecidedAll, Agrees, TrueParents, BeforeForeground, WellFormed, Covered,
         ValidEnv;
    var ps, parents := Listed(env, env.listing.value, false), ListedParents(env, env.listing.value);
    var s1 := BeforeForeground(s, env);
    BeforeForegroundIsQuiet(s, env);
    assert HoldsCount(s1) by {
      if s.config.pipewire.None? { SweptNoneHeld(s, env); }
    }
    RefreshFromBefore(s, env);
    hide ProcessMapRefresh, HoldsCount;
    if s.foreground.Some? {
      var f, s2 := s.foreground.value, s1.(foreground := None);
      UpToDateKnows(s1.table, ps, parents);
      ListedScanIsDone(s1.table, env, f);
      DoneScan(s2, env, f);
      WithoutForeground(s1);
      hide AssignChildren, ScanIsDone, Keyed, PidIndexed, Allocated;
      if s.config.foreground.Some? {
        ForegroundIrrelevant(s1);
        HoldsWithoutForeground(s1);
        hide FixedAgree;
        PartitionAgrees(s2, env, s.config.foreground.value, f);
        PartitionSettles(s2, env, s.config.foreground.value, f);
      } else {
        AgreesWithoutPartition(s1);
      }
    }
  }

  lemma HoldsWithoutForeground(s: State)
    requires HoldsCount(s)
    ensures HoldsCount(s.(foreground := None))
  {
    assert forall r :: r in s.table.cells ==>
        PipewireAssigned(s, s.table.cells[r]) == PipewireAssigned(s.(foreground := None), s.table.cells[r]);
  }

  lemma PartitionSettles(s: State, env: Env, f: ForegroundAssignments, pid: Pid)
    requires Settled(s)
    ensures var u := Partition(s, env, f, pid);
            && Settled(u) && u.table == s.table && u.config == s.config && u.foreground == Some(pid)
            && u.foregroundProcesses == [pid] + PidsOf(s.table.cells, env.order(s.table.byKey.Values), ForegroundCells(s.table, pid))
  {
    assert forall pids: seq<Pid> :: pid in [pid] + pids by {
      assert forall pids: seq<Pid> :: ([pid] + pids)[0] == pid;
    }
  }

  lemma UpToDateKnows(t: Table, ps: seq<Process>, parents: map<Pid, Pid>)
    requires UpToDate(t, ps, parents)
    ensures Keyed(t) && Covered(t) && t.byKey.Keys == Records(ps).Keys
  {
  }

  /** A table that is up to date with a world tracks every process under its true parent. */
  lemma UpToDateIsTrue(t: Table, env: Env, parents: map<Pid, Pid>)
    requires env.listing.Some? && UpToDate(t, Listed(env, env.listing.value, false), parents)
    ensures TrueParents(t, env)
  {
    var ps := Listed(env, env.listing.value, false);
    ListedIs(env, env.listing.value, false);
    RecordsDistinct(ps);
    hide IsListing, Listed;
    forall pid | pid in env.listing.value && env.cmdline(pid).Some?
      ensures SameParent(t, pid, env.parentId(pid).GetOr(0))
    {
      var p := RecordOf(env, pid, false);
      assert p.HashId() in Records(ps) && p.HashId() == Key(pid, env.parentId(pid).GetOr(0));
      if pid in t.byPid && t.byPid[pid] in t.cells {
        assert t.cells[t.byPid[pid]].HashId() in Records(ps);
      }
    }
  }

  lemma QuietRefresh(s: State, env: Env)
    requires Quiet(s, env) && ValidEnv(env) && env.listing.Some?
    requires UpToDate(s.table, Listed(env, env.listing.value, false), ListedParents(env, env.listing.value))
    ensures var u := ProcessMapRefresh(s, env);
            u == s.(table := u.table) && Alike(s.table, u.table)
  {
    var ps, parents := Listed(env, env.listing.value, false), ListedParents(env, env.listing.value);
    var t := Refreshed(s.table, ps, parents);
    UpToDateIsTrue(s.table, env, parents);
    SweepKeepsCovered(s.table, env, false, parents);
    UpToDateStays(s.table, ps, parents);
    hide UpToDate, Refreshed, Listed, ListedParents, TrueParents, Sound, Covered, WellFormed;
    ApplyingAllAgain(s, env, t);
    hide AssignAndApplyAll, DecidedAll, Agrees;
    if s.foreground.Some? {
      var f := s.foreground.value;
      assert ScanIsDone(t, env, f);
      DoneScan(s.(table := t, foreground := None), env, f);
      PartitioningAgain(s, env, t, s.config.foreground.value, f);
      hide Quiet, ScanIsDone, AssignChildren, Partition, Alike;
    }
  }

  // ---------------------------------------------------------------------------------------
  // What a second refresh changes otherwise
  // ---------------------------------------------------------------------------------------

  /** Cells are never used twice: what the scan records newly is beyond what was handed out before. */
  lemma {:induction false} TasksAreFresh(s: State, env: Env, tasks: seq<Pid>, q: Pid)
    requires Settled(s)
    ensures var u := AssignTasks(s, env, tasks);
            && s.table.next <= u.table.next
            && (q in u.table.byPid && q !in s.table.byPid ==> s.table.next <= u.table.byPid[q])
  {
    hide Settled, AssignTask;
    if tasks != [] {
      var init, pid := tasks[..|tasks| - 1], tasks[|tasks| - 1];
      TasksAreFresh(s, env, init, q);
      AssignTasksKeepAgreement(s, env, init);
      TaskIsFresh(AssignTasks(s, env, init), env, pid, q);
    }
  }

  lemma TaskIsFresh(s: State, env: Env, pid: Pid, q: Pid)
    requires Settled(s)
    ensures var u := AssignTask(s, env, pid);
            && s.table.next <= u.table.next
            && (q in u.table.byPid && q !in s.table.byPid ==> s.table.next <= u.table.byPid[q])
            && (q in s.table.byPid ==> q in u.table.byPid && u.table.byPid[q] == s.table.byPid[q])
  {
    hide AssignNew, Settled, Covered, PipewireSound, Keyed, Allocated;
    SettledParts(s);
    assert forall x :: x in s.table.byPid ==> s.table.byPid[x] in s.table.cells;
    if pid !in s.table.byPid && Readable(env, pid) {
      var cmdline := env.cmdline(pid).value;
      NewIsFresh(s, env, pid, env.parentId(pid).value, BaseName(cmdline), cmdline);
    }
  }

  lemma NewIsFresh(s: State, env: Env, pid: Pid, parentPid: Pid, name: string, cmdline: string)
    requires Settled(s) && pid !in s.table.byPid
    ensures var t, u := s.table, AssignNew(s, env, pid, parentPid, name, cmdline).table;
            u.next == t.next + 1 && u.byPid == t.byPid[pid := t.next]
  {
    var p := CreatedProcess(s.table, env, pid, parentPid, name, cmdline);
    assert p.id == pid;
    hide CreatedProcess, AssignNew, OthersKept, SameButFate;
    AssignNewRecordsOne(s, env, pid, parentPid, name, cmdline);
    UnknownPidIsVacant(s.table, p);
    hide WellFormed, Covered;
  }

  lemma RefreshHandsOut(t: Table, ps: seq<Process>, parents: map<Pid, Pid>)
    requires Sound(t) && IsListing(ps)
    ensures t.next <= Refreshed(t, ps, parents).next
  {
    hide Sound, IsListing, Absorb, AbsorbedAs, UnlistedKept, PidsKept;
    MarkedIs(t, ps, parents);
  }

  lemma CurrentIsTrue(t: Table, env: Env)
    requires PidIndexed(t) && Current(t, env)
    ensures TrueParents(t, env)
  {
  }

  lemma RefreshIsCurrent(s: State, env: Env)
    requires Settled(s) && ValidEnv(env) && env.listing.Some? && TrueParents(s.table, env)
    ensures Settled(ProcessMapRefresh(s, env)) && Current(ProcessMapRefresh(s, env).table, env)
  {
    hide WellFormed, Covered, ForegroundListed, TrueParents, Current, Steady, BeforeForeground, Agrees, ValidEnv,
         ProcessMapRefresh;
    BeforeForegroundIs(s, env);
    RefreshFromBefore(s, env);
    RefreshSettled(s, env);
    var s1 := BeforeForeground(s, env);
    if s1.foreground.Some? {
      ForgettingIsWellFormed(s1);
      CurrentIsSteady(s1.table, env) by { WellFormedIsSound(s1); SoundIsKeyed(s1.table); }
      ScanKeepsFixed(s1.(foreground := None), env, Tasks(env.children, s1.foreground.value));
      hide AssignTasks, Tasks, Partition;
    }
  }

  lemma UnlistedIsSwept(s: State, env: Env, q: Pid)
    requires Settled(s) && ValidEnv(env) && env.listing.Some? && TrueParents(s.table, env) && q !in env.listing.value
    ensures q !in BeforeForeground(s, env).table.byPid && s.table.next <= BeforeForeground(s, env).table.next
  {
    var ps, parents := Listed(env, env.listing.value, false), ListedParents(env, env.listing.value);
    ListedIsListing(env, env.listing.value, false);
    RefreshHandsOut(s.table, ps, parents);
    BeforeForegroundIs(s, env);
    WellFormedIsSound(BeforeForeground(s, env));
    hide Refreshed, Listed, ListedParents, WellFormed, Covered, Agrees, Current, Findable, TrueParents;
  }

  /** A process that the scan finds but the listing does not show is recorded in another cell each time. */
  lemma UnlistedIsReplaced(s: State, env: Env, f: Pid, q: Pid)
    requires Settled(s) && ValidEnv(env) && env.listing.Some? && TrueParents(s.table, env)
    requires s.foreground == Some(f) && Reachable(env.children, f, q) && Readable(env, q) && q !in env.listing.value
    ensures var s1 := ProcessMapRefresh(s, env);
            var s2 := ProcessMapRefresh(s1, env);
            && q in s1.table.byPid
            && (q in s2.table.byPid ==> s2.table.byPid[q] != s1.table.byPid[q])
  {
    hide WellFormed, Covered, ForegroundListed, Current, BeforeForeground, ProcessMapRefresh, ValidEnv, Reachable, Readable,
         TrueParents, Partition, DecidedAll, Agrees, UpToDate, Listed, ListedParents, SetForeground;
    var s1, b1 := ProcessMapRefresh(s, env), BeforeForeground(s, env);
    BeforeForegroundIsQuiet(s, env);
    RefreshFromBefore(s, env);
    WithoutForeground(b1);
    ChildrenAreTracked(b1.(foreground := None), env, f, q);
    PartitionKeepsCells(b1.(foreground := None), env, f);
    RefreshIsCurrent(s, env);
    SettledParts(s1);
    assert s1.table.byPid[q] < s1.table.next by { SettledIsAllocated(s1, q); }
    CurrentIsTrue(s1.table, env);
    var b2 := BeforeForeground(s1, env);
    BeforeForegroundIsQuiet(s1, env);
    RefreshFromBefore(s1, env);
    UnlistedIsSwept(s1, env, q);
    if b2.foreground.Some? {
      WithoutForeground(b2);
      PartitionKeepsCells(b2.(foreground := None), env, b2.foreground.value);
      TasksAreFresh(b2.(foreground := None), env, Tasks(env.children, b2.foreground.value), q);
    }
    hide AssignTasks, Tasks;
  }

  lemma PartitionKeepsCells(s: State, env: Env, pid: Pid)
    ensures SetForeground(s, env, pid).table == AssignChildren(s, env, pid).table
  {
  }

  lemma SettledIsAllocated(s: State, q: Pid)
    requires Settled(s) && q in s.table.byPid
    ensures s.table.byPid[q] < s.table.next
  {
  }

  /**
   * Two refreshes in a row, over the same world. The second changes nothing but links that lead
   * nowhere (every record, decision, live link and index entry, the lists of foreground and
   * pipewire processes and all applied profiles are as the first one left them), exactly when
   * every readable process that the scan finds below the foreground is listed.
   */
  lemma RefreshIsIdempotentExactly(s: State, env: Env)
    requires Settled(s) && ValidEnv(env) && env.listing.Some? && TrueParents(s.table, env)
    requires s.config.pipewire.Some? || NoneHeld(s, env.listing.value)
    ensures var s1 := ProcessMapRefresh(s, env);
            var s2 := ProcessMapRefresh(s1, env);
            s2 == s1.(table := s2.table) && Alike(s1.table, s2.table) <==> ListsForeground(s, env)
  {
    hide ProcessMapRefresh, Settled, ValidEnv, TrueParents, NoneHeld, Reachable, Readable;
    var s1 := ProcessMapRefresh(s, env);
    if ListsForeground(s, env) {
      RefreshIsQuiet(s, env);
      hide Quiet, UpToDate;
      QuietRefresh(s1, env);
    } else {
      var q :| Reachable(env.children, s.foreground.value, q) && Readable(env, q) && q !in env.listing.value;
      UnlistedIsReplaced(s, env, s.foreground.value, q);
    }
  }
}
