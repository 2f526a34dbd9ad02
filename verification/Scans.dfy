/** What the scan does to one record at a time, whatever the pid index finds. */
module Scans {
  import opened Basics
  import opened Scheduler
  import opened ProcessTable
  import opened TableOperations
  import opened Refresh
  import opened Classification
  import opened Engine
  import opened EngineInvariants
  import opened Agreement
  import opened Descendants
  import opened WholeRuns

  // ---------------------------------------------------------------------------------------
  // Tables whose records are under the parents that are read
  // ---------------------------------------------------------------------------------------

  /** Each pid is tracked once; one that the pid index does not find, under the parent that is read, if any is. */
  ghost predicate Steady(t: Table, env: Env) {
    && UniquePids(t.cells)
    && forall r :: r in t.cells && t.cells[r].id !in t.byPid && env.parentId(t.cells[r].id).Some? ==>
                     env.parentId(t.cells[r].id).value == t.cells[r].parentId
  }

  /** Each pid is tracked under the parent that is read, and under pid 0 if none can be read. */
  ghost predicate Current(t: Table, env: Env) {
    forall r :: r in t.cells ==> t.cells[r].parentId == env.parentId(t.cells[r].id).GetOr(0)
  }

  lemma CurrentIsSteady(t: Table, env: Env)
    requires Keyed(t) && Current(t, env)
    ensures Steady(t, env)
  {
    forall q, r | q in t.cells && r in t.cells && t.cells[q].id == t.cells[r].id
      ensures q == r
    {
      assert t.cells[q].HashId() == t.cells[r].HashId();
    }
  }

  lemma ShapeKeepsSteady(t: Table, u: Table, env: Env)
    requires SameShape(t, u) && Steady(t, env)
    ensures Steady(u, env)
  {
    assert forall r {:trigger u.cells[r]} :: r in u.cells ==>
        t.cells[r].id == u.cells[r].id && t.cells[r].parentId == u.cells[r].parentId by {
      assert forall r {:trigger u.cells[r]} :: r in u.cells ==> SameButFate(t.cells[r], u.cells[r]);
    }
  }

  // ---------------------------------------------------------------------------------------
  // The scan, one record at a time
  // ---------------------------------------------------------------------------------------

  /** What recording a process that is read of the world does to the record in cell `r`. */
  lemma NewAt(s: State, env: Env, pid: Pid, parentPid: Pid, name: string, cmdline: string, r: Ref)
    requires Sound(s.table) && Steady(s.table, env) && pid !in s.table.byPid && env.parentId(pid) == Some(parentPid)
    ensures var u := AssignNew(s, env, pid, parentPid, name, cmdline);
            && Steady(u.table, env) && SameLists(s, u)
            && (r in s.table.cells ==>
                  && r in u.table.cells && u.table.cells[r].HashId() == s.table.cells[r].HashId()
                  && (s.table.cells[r].id !in s.table.byPid ==> s.table.cells[r].id !in u.table.byPid)
                  && if s.table.cells[r].id == pid then AgreesAt(u, r)
                     else u.table.cells[r] == s.table.cells[r] && SameAt(s.applied, u.applied, s.table.cells[r].id))
  {
    var t, u := s.table, AssignNew(s, env, pid, parentPid, name, cmdline);
    var p := CreatedProcess(t, env, pid, parentPid, name, cmdline);
    assert p.HashId() == Key(pid, parentPid) && p.id == pid;
    AssignNewRecordsOne(s, env, pid, parentPid, name, cmdline);
    RecordedCell(t, u.table, p, s.pipewireProcesses);
    hide AssignNew, CreatedProcess, Pick, Insert, InsertRef, Keyed, PidIndexed, Allocated;
    InsertIsSteady(t, p, env);
    ShapeKeepsSteady(Insert(t, p), u.table, env);
    if r in t.cells {
      InsertAt(t, p, env, r);
      hide Steady;
      OneRecordAt(s, u, p, r);
    }
  }

  lemma OneRecordAt(s: State, u: State, p: Process, r: Ref)
    requires RecordsOne(s.table, u.table, p, s.pipewireProcesses) && SameLists(s, u) && r in s.table.cells
    requires u.table.cells[InsertRef(s.table, p)].id == p.id
    requires u.applied == var choice := Pick(u, u.table.cells[InsertRef(s.table, p)]);
                          if choice.Some? then s.applied[p.id := choice.value] else s.applied
    requires r in Insert(s.table, p).cells && Insert(s.table, p).cells[r].HashId() == s.table.cells[r].HashId()
    requires s.table.cells[r].id == p.id <==> InsertRef(s.table, p) == r
    ensures r in u.table.cells && u.table.cells[r].HashId() == s.table.cells[r].HashId()
    ensures u.table.byPid == Insert(s.table, p).byPid
    ensures if s.table.cells[r].id == p.id then AgreesAt(u, r)
            else u.table.cells[r] == s.table.cells[r] && SameAt(s.applied, u.applied, s.table.cells[r].id)
  {
    hide Insert, InsertRef, Pick;
    assert SameButFate(Insert(s.table, p).cells[r], u.table.cells[r]);
  }

  /** A record that is read again meets its own cell, if it has one. */
  lemma OwnCell(t: Table, p: Process, env: Env)
    requires Keyed(t) && Steady(t, env) && p.id !in t.byPid && env.parentId(p.id) == Some(p.parentId)
    ensures forall r :: r in t.cells && t.cells[r].id == p.id ==> r == InsertRef(t, p)
  {
    forall r | r in t.cells && t.cells[r].id == p.id
      ensures r == InsertRef(t, p)
    {
      assert t.cells[r].HashId() == p.HashId();
    }
  }

  lemma InsertIsSteady(t: Table, p: Process, env: Env)
    requires Sound(t) && Steady(t, env) && p.id !in t.byPid && env.parentId(p.id) == Some(p.parentId)
    ensures Steady(Insert(t, p), env)
  {
    hide Insert, InsertRef, Keyed, PidIndexed, Allocated;
    var u, k := Insert(t, p), InsertRef(t, p);
    OwnCell(t, p, env);
    InsertCells(t, p);
    InsertPids(t, p);
    assert forall r {:trigger u.cells[r]} :: r in u.cells ==>
        if r == k then u.cells[r].id == p.id && u.cells[r].parentId == p.parentId
        else r in t.cells && u.cells[r] == t.cells[r];
  }

  /** An insertion of what is read meets the record of that pid, if there is one, and no other. */
  lemma InsertAt(t: Table, p: Process, env: Env, r: Ref)
    requires Sound(t) && Steady(t, env) && p.id !in t.byPid && env.parentId(p.id) == Some(p.parentId) && r in t.cells
    ensures r in Insert(t, p).cells && Insert(t, p).cells[r].HashId() == t.cells[r].HashId()
    ensures t.cells[r].id == p.id <==> InsertRef(t, p) == r
    ensures t.cells[r].id !in t.byPid ==> t.cells[r].id !in Insert(t, p).byPid
  {
    if t.cells[r].id == p.id {
      assert t.cells[r].HashId() == p.HashId();
    }
  }

  /**
   * A scan on a record: if its pid is scanned and cannot be found, but can be read, the record's
   * priority is applied anew; if the pid is not scanned or not readable, nothing happens to it.
   */
  lemma {:induction false} ScanAt(s: State, env: Env, tasks: seq<Pid>, r: Ref)
    requires Sound(s.table) && Linked(s.table) && Steady(s.table, env) && r in s.table.cells
    requires s.table.cells[r].id !in s.table.byPid
    ensures var b, pid := AssignTasks(s, env, tasks), s.table.cells[r].id;
            && SameLists(s, b) && Sound(b.table) && Linked(b.table) && Steady(b.table, env)
            && r in b.table.cells && b.table.cells[r].HashId() == s.table.cells[r].HashId() && pid !in b.table.byPid
            && if pid in tasks && Readable(env, pid) then AgreesAt(b, r)
               else b.table.cells[r] == s.table.cells[r] && SameAt(s.applied, b.applied, pid)
  {
    hide Sound, Linked, Steady, AssignNew;
    if tasks != [] {
      var init, last := tasks[..|tasks| - 1], tasks[|tasks| - 1];
      var b := AssignTasks(s, env, init);
      ScanAt(s, env, init, r);
      assert forall q :: q in tasks <==> q in init || q == last;
      if last !in b.table.byPid && Readable(env, last) {
        var cmdline := env.cmdline(last).value;
        NewAt(b, env, last, env.parentId(last).value, BaseName(cmdline), cmdline, r);
        AssignNewKeepsTable(b, env, last, env.parentId(last).value, BaseName(cmdline), cmdline);
        var u := AssignNew(b, env, last, env.parentId(last).value, BaseName(cmdline), cmdline);
        if s.table.cells[r].id != last {
          SamePick(b, u, b.table.cells[r]);
          hide Pick;
        }
      }
    }
  }

  // ---------------------------------------------------------------------------------------
  // What the scan decides
  // ---------------------------------------------------------------------------------------

  /** The record has the name that is read, and is undecided only for want of a control group. */
  ghost predicate AsRead(p: Process, env: Env) {
    && env.cmdline(p.id).Some? && p.name == BaseName(env.cmdline(p.id).value)
    && (p.assignedPriority == NotAssignable ==> env.cgroup(p.id).GetOr("") == "")
  }

  lemma WithoutGroup(c: SchedulerConfig, t: Table, p: Process)
    requires p.cgroup == ""
    ensures Classify(c, t, p) != Assignable
  {
  }

  lemma UndecidedHasNoGroup(c: SchedulerConfig, t: Table, p: Process)
    requires Classify(c, t, p) == NotAssignable
    ensures p.cgroup == ""
  {
  }

  /** Recording a process again under the name it has does not change whether it is assignable. */
  lemma RerecordingDecides(s: State, env: Env, pid: Pid, parentPid: Pid, cmdline: string, r: Ref)
    requires Keyed(s.table) && r in s.table.cells && s.table.cells[r].HashId() == Key(pid, parentPid)
    requires AsRead(s.table.cells[r], env) && env.cmdline(pid) == Some(cmdline)
    ensures var t, u := s.table, AssignNew(s, env, pid, parentPid, BaseName(cmdline), cmdline).table;
            && r in u.cells && u.byKey == t.byKey && AsRead(u.cells[r], env) && u.cells[r].HashId() == t.cells[r].HashId()
            && (u.cells[r].assignedPriority == Assignable <==> t.cells[r].assignedPriority == Assignable)
            && u.cells[r].cmdline == t.cells[r].cmdline && KeepsStanding(t.cells[r], u.cells[r])
  {
    var t, p := s.table, CreatedProcess(s.table, env, pid, parentPid, BaseName(cmdline), cmdline);
    assert p.HashId() == Key(pid, parentPid) && p.name == t.cells[r].name && p.cgroup in {"", env.cgroup(pid).GetOr("")};
    assert InsertRef(t, p) == r && Insert(t, p).cells[r] == t.cells[r].(cgroup := p.cgroup, parent := p.parent);
    assert Insert(t, p).byKey == t.byKey;
    hide CreatedProcess, Insert, InsertRef, Keyed, PipewireAncestor, Ancestors, Classify;
    var v := Recorded(t, p, s.pipewireProcesses);
    assert v.cells[r].assignedPriority == t.cells[r].assignedPriority && v.cells[r].cgroup == p.cgroup;
    assert v.cells[r].name == t.cells[r].name && v.cells[r].HashId() == t.cells[r].HashId() && v.byKey == t.byKey;
    assert v.cells[r].cmdline == t.cells[r].cmdline;
    hide Recorded;
    assert AssignNew(s, env, pid, parentPid, BaseName(cmdline), cmdline).table == SetCell(v, r, Decided(s.config, v, v.cells[r]));
    if v.cells[r].assignedPriority == NotAssignable {
      WithoutGroup(s.config, v, v.cells[r]);
    }
  }

  /** The scan, at the turn of this pid, records it anew and meets a listed pid above it. */
  ghost predicate FindsHolder(b: State, env: Env, pid: Pid) {
    && pid !in b.table.byPid && Readable(env, pid)
    && var u, k := AssignTask(b, env, pid).table, Key(pid, env.parentId(pid).value);
       k in u.byKey && u.byKey[k] in u.cells && AncestorListed(u, u.cells[u.byKey[k]], b.pipewireProcesses)
  }

  ghost predicate ScanFindsHolder(s: State, env: Env, tasks: seq<Pid>, pid: Pid) {
    exists i :: 0 <= i < |tasks| && tasks[i] == pid && FindsHolder(AssignTasks(s, env, tasks[..i]), env, pid)
  }

  lemma FindsHolderMore(s: State, env: Env, tasks: seq<Pid>, pid: Pid)
    requires tasks != []
    ensures var init, last := tasks[..|tasks| - 1], tasks[|tasks| - 1];
            ScanFindsHolder(s, env, tasks, pid) <==>
              ScanFindsHolder(s, env, init, pid) || (last == pid && FindsHolder(AssignTasks(s, env, init), env, pid))
  {
    hide AssignTasks, FindsHolder;
    var init := tasks[..|tasks| - 1];
    assert forall i :: 0 <= i < |init| ==> init[..i] == tasks[..i] && init[i] == tasks[i];
    assert tasks[..|init|] == init;
    if i :| 0 <= i < |init| && init[i] == pid && FindsHolder(AssignTasks(s, env, init[..i]), env, pid) {
      assert tasks[i] == pid;
    }
    if i :| 0 <= i < |tasks| && tasks[i] == pid && FindsHolder(AssignTasks(s, env, tasks[..i]), env, pid) {
      assert i < |init| ==> init[i] == pid;
    }
  }

  /** A decision that was taken stands. */
  ghost predicate KeepsStanding(p: Process, q: Process) {
    p.assignedPriority != NotAssignable ==> q.assignedPriority == p.assignedPriority
  }

  /** The record is under its key in both tables, as assignable as it was; a decision stands. */
  ghost predicate DecidedAlike(t: Table, u: Table, env: Env, r: Ref)
    requires r in t.cells
  {
    && r in u.cells && u.cells[r].HashId() == t.cells[r].HashId() && AsRead(u.cells[r], env)
    && (u.cells[r].assignedPriority == Assignable <==> t.cells[r].assignedPriority == Assignable)
    && u.cells[r].cmdline == t.cells[r].cmdline && KeepsStanding(t.cells[r], u.cells[r])
  }

  /** A turn of the scan on a record that the pid index does not find. */
  lemma TaskDecides(b: State, env: Env, last: Pid, r: Ref)
    requires Sound(b.table) && Steady(b.table, env) && r in b.table.cells
    requires b.table.cells[r].id !in b.table.byPid && AsRead(b.table.cells[r], env)
    ensures var u, p := AssignTask(b, env, last).table, b.table.cells[r];
            && DecidedAlike(b.table, u, env, r)
            && (u.cells[r].pipewireAncestor.Some? <==> p.pipewireAncestor.Some? || (last == p.id && FindsHolder(b, env, last)))
  {
    hide AssignNew, Keyed, PidIndexed, Allocated, AncestorListed, AsRead, AgreesAt;
    if last !in b.table.byPid && Readable(env, last) {
      var cmdline, parent, pid := env.cmdline(last).value, env.parentId(last).value, b.table.cells[r].id;
      NewAt(b, env, last, parent, BaseName(cmdline), cmdline, r);
      if pid == last {
        assert b.table.cells[r].HashId() == Key(last, parent);
        SoundFinds(b.table, r);
        hide Sound, Steady, BaseName, Readable;
        assert Keyed(b.table) by { SoundIsKeyed(b.table); }
        RerecordingDecides(b, env, last, parent, cmdline, r);
        RecordingHoldsExactly(b, env, last, parent, BaseName(cmdline), cmdline);
        assert HeldUnder(b.table, Key(last, parent)) <==> b.table.cells[r].pipewireAncestor.Some?;
      }
    }
  }

  lemma {:induction false} ScanDecides(s: State, env: Env, tasks: seq<Pid>, r: Ref)
    requires Sound(s.table) && Linked(s.table) && Steady(s.table, env) && r in s.table.cells
    requires s.table.cells[r].id !in s.table.byPid && AsRead(s.table.cells[r], env)
    ensures var u, p := AssignTasks(s, env, tasks).table, s.table.cells[r];
            && DecidedAlike(s.table, u, env, r)
            && (u.cells[r].pipewireAncestor.Some? <==> p.pipewireAncestor.Some? || ScanFindsHolder(s, env, tasks, p.id))
  {
    hide Sound, Linked, Steady, AssignTask, FindsHolder, ScanFindsHolder, AsRead, AgreesAt, Readable;
    if tasks != [] {
      var init, last := tasks[..|tasks| - 1], tasks[|tasks| - 1];
      ScanDecides(s, env, init, r);
      ScanAt(s, env, init, r);
      TaskDecides(AssignTasks(s, env, init), env, last, r);
      FindsHolderMore(s, env, tasks, s.table.cells[r].id);
    } else {
      assert !ScanFindsHolder(s, env, [], s.table.cells[r].id) by { NothingFound(s, env, s.table.cells[r].id); }
    }
  }

  lemma NothingFound(s: State, env: Env, pid: Pid)
    ensures !ScanFindsHolder(s, env, [], pid)
  {
  }

  /** Records and pid entries stay, and new records are found by their pid. */
  ghost predicate Grown(t: Table, u: Table) {
    && (forall r :: r in t.cells ==> r in u.cells && u.cells[r].HashId() == t.cells[r].HashId())
    && (forall r :: r in u.cells && r !in t.cells ==> u.cells[r].id in u.byPid)
    && t.byPid.Keys <= u.byPid.Keys
  }

  lemma InsertGrows(t: Table, p: Process)
    requires Sound(t)
    ensures Grown(t, Insert(t, p))
  {
  }

  lemma ShapeGrows(t: Table, i: Table, u: Table)
    requires Grown(t, i) && SameShape(i, u)
    ensures Grown(t, u)
  {
    assert forall r :: r in i.cells ==> SameButFate(i.cells[r], u.cells[r]);
  }

  lemma NewKeepsFixed(s: State, env: Env, pid: Pid, parentPid: Pid, name: string, cmdline: string)
    requires WellFormed(s) && Steady(s.table, env) && pid !in s.table.byPid && env.parentId(pid) == Some(parentPid)
    ensures var u := AssignNew(s, env, pid, parentPid, name, cmdline);
            && WellFormed(u) && Steady(u.table, env) && SameLists(s, u) && Grown(s.table, u.table)
            && (Current(s.table, env) ==> Current(u.table, env))
            && (FixedAgree(s) ==> FixedAgree(u)) && (Agrees(s) ==> Agrees(u))
  {
    var t, u := s.table, AssignNew(s, env, pid, parentPid, name, cmdline);
    var p := CreatedProcess(t, env, pid, parentPid, name, cmdline);
    assert p.HashId() == Key(pid, parentPid) && p.id == pid && p.parentId == parentPid;
    AssignNewKeepsWellFormed(s, env, pid, parentPid, name, cmdline);
    AssignNewRecordsOne(s, env, pid, parentPid, name, cmdline);
    RecordedCell(t, u.table, p, s.pipewireProcesses);
    hide AssignNew, CreatedProcess, Pick, Insert, InsertRef, Linked, PipewireSound, FixedAgree, Agrees;
    InsertIsSteady(t, p, env);
    InsertGrows(t, p);
    InsertIsCurrent(t, p, env);
    hide Keyed, PidIndexed, Allocated;
    ShapeKeepsSteady(Insert(t, p), u.table, env);
    ShapeKeepsCurrent(Insert(t, p), u.table, env);
    ShapeGrows(t, Insert(t, p), u.table);
    assert UniquePids(u.table.cells);
    hide SameShape, Steady, Current, Grown, OthersKept, UniquePids;
    OneRecordAgrees(s, u, InsertRef(t, p));
  }

  lemma InsertIsCurrent(t: Table, p: Process, env: Env)
    requires Sound(t) && env.parentId(p.id) == Some(p.parentId)
    ensures Current(t, env) ==> Current(Insert(t, p), env)
  {
  }

  lemma ShapeKeepsCurrent(t: Table, u: Table, env: Env)
    requires SameShape(t, u)
    ensures Current(t, env) ==> Current(u, env)
  {
  }

  lemma {:induction false} ScanKeepsFixed(s: State, env: Env, tasks: seq<Pid>)
    requires WellFormed(s) && Steady(s.table, env)
    ensures var b := AssignTasks(s, env, tasks);
            && WellFormed(b) && Steady(b.table, env) && SameLists(s, b) && Grown(s.table, b.table)
            && (Current(s.table, env) ==> Current(b.table, env))
            && (FixedAgree(s) ==> FixedAgree(b)) && (Agrees(s) ==> Agrees(b))
  {
    hide WellFormed, Steady, Current, AssignNew, FixedAgree, Agrees, Grown;
    if tasks == [] {
      GrownSelf(s.table);
    } else {
      var b, pid := AssignTasks(s, env, tasks[..|tasks| - 1]), tasks[|tasks| - 1];
      ScanKeepsFixed(s, env, tasks[..|tasks| - 1]);
      if pid !in b.table.byPid && Readable(env, pid) {
        var cmdline := env.cmdline(pid).value;
        NewKeepsFixed(b, env, pid, env.parentId(pid).value, BaseName(cmdline), cmdline);
        GrownTransitive(s.table, b.table, AssignTasks(s, env, tasks).table);
      }
    }
  }

  lemma GrownSelf(t: Table)
    ensures Grown(t, t)
  {
  }

  lemma GrownTransitive(t: Table, u: Table, v: Table)
    requires Grown(t, u) && Grown(u, v)
    ensures Grown(t, v)
  {
  }

  /** A record that the pid index finds is passed over by the scan. */
  lemma {:induction false} FoundStays(s: State, env: Env, tasks: seq<Pid>, r: Ref)
    requires Sound(s.table) && Linked(s.table) && Steady(s.table, env) && r in s.table.cells && s.table.cells[r].id in s.table.byPid
    ensures var b, p := AssignTasks(s, env, tasks), s.table.cells[r];
            && SameLists(s, b) && Sound(b.table) && Linked(b.table) && Steady(b.table, env)
            && r in b.table.cells && b.table.cells[r] == p && SameAt(s.applied, b.applied, p.id) && p.id in b.table.byPid
  {
    hide Sound, Linked, Steady, AssignNew, AgreesAt;
    if tasks != [] {
      var init, last := tasks[..|tasks| - 1], tasks[|tasks| - 1];
      var b := AssignTasks(s, env, init);
      FoundStays(s, env, init, r);
      if last !in b.table.byPid && Readable(env, last) {
        var cmdline := env.cmdline(last).value;
        NewAt(b, env, last, env.parentId(last).value, BaseName(cmdline), cmdline, r);
        NewGrows(b, env, last, env.parentId(last).value, BaseName(cmdline), cmdline);
        AssignNewKeepsTable(b, env, last, env.parentId(last).value, BaseName(cmdline), cmdline);
      }
    }
  }

  /** Records and pid entries stay, and the pid index finds a new record. */
  lemma NewGrows(s: State, env: Env, pid: Pid, parentPid: Pid, name: string, cmdline: string)
    requires Sound(s.table)
    ensures Grown(s.table, AssignNew(s, env, pid, parentPid, name, cmdline).table)
  {
    hide AssignNew, CreatedProcess, Pick, Insert, InsertRef, Grown, OthersKept;
    var p := CreatedProcess(s.table, env, pid, parentPid, name, cmdline);
    AssignNewRecordsOne(s, env, pid, parentPid, name, cmdline);
    InsertGrows(s.table, p);
    hide Keyed, PidIndexed, Allocated;
    ShapeGrows(s.table, Insert(s.table, p), AssignNew(s, env, pid, parentPid, name, cmdline).table);
  }

  /** A record that the scan adds was given its profile when it was recorded. */
  lemma {:induction false} AddedAgrees(s: State, env: Env, tasks: seq<Pid>, r: Ref)
    requires WellFormed(s) && Steady(s.table, env)
    requires r in AssignTasks(s, env, tasks).table.cells && r !in s.table.cells
    ensures AgreesAt(AssignTasks(s, env, tasks), r)
  {
    hide WellFormed, Steady, AssignNew, AgreesAt, Grown, FixedAgree, Agrees, Current;
    var init, last := tasks[..|tasks| - 1], tasks[|tasks| - 1];
    var b, u := AssignTasks(s, env, init), AssignTasks(s, env, tasks);
    ScanKeepsFixed(s, env, init);
    if r in b.table.cells {
      AddedAgrees(s, env, init, r);
      if last !in b.table.byPid && Readable(env, last) {
        AddedStays(s.table, b, env, last, r);
      }
    } else {
      var cmdline := env.cmdline(last).value;
      FreshAgrees(b, env, last, env.parentId(last).value, BaseName(cmdline), cmdline, r);
    }
  }

  lemma AddedStays(t: Table, b: State, env: Env, last: Pid, r: Ref)
    requires WellFormed(b) && Steady(b.table, env) && Grown(t, b.table) && last !in b.table.byPid && Readable(env, last)
    requires r in b.table.cells && r !in t.cells && AgreesAt(b, r)
    ensures r in AssignTask(b, env, last).table.cells && AgreesAt(AssignTask(b, env, last), r)
  {
    hide Linked, PipewireSound, Steady, AssignNew, Pick, Keyed, PidIndexed, Allocated;
    var cmdline := env.cmdline(last).value;
    assert b.table.cells[r].id in b.table.byPid && b.table.cells[r].id != last;
    NewAt(b, env, last, env.parentId(last).value, BaseName(cmdline), cmdline, r);
    SamePick(b, AssignTask(b, env, last), b.table.cells[r]);
  }

  lemma FreshAgrees(s: State, env: Env, pid: Pid, parentPid: Pid, name: string, cmdline: string, r: Ref)
    requires WellFormed(s) && r !in s.table.cells && r in AssignNew(s, env, pid, parentPid, name, cmdline).table.cells
    ensures AgreesAt(AssignNew(s, env, pid, parentPid, name, cmdline), r)
  {
    hide AssignNew, CreatedProcess, Pick, Insert, InsertRef, SameShape, Linked, PipewireSound;
    var u, p := AssignNew(s, env, pid, parentPid, name, cmdline), CreatedProcess(s.table, env, pid, parentPid, name, cmdline);
    assert p.id == pid by { CreatedHasPid(s.table, env, pid, parentPid, name, cmdline); }
    AssignNewRecordsOne(s, env, pid, parentPid, name, cmdline);
    RecordedCell(s.table, u.table, p, s.pipewireProcesses);
    assert r == InsertRef(s.table, p);
  }
}
