/** What the record of a process holds, and what is decided about it, once it was recorded or listed. */
module RecordContents {
  import opened Basics
  import opened Scheduler
  import opened ProcessTable
  import opened TableOperations
  import opened Refresh
  import opened Classification
  import opened Worklist
  import opened Engine
  import opened EngineInvariants
  import opened Agreement
  import opened Descendants
  import opened Scans
  import opened Partitions
  import opened RefreshAgreement

  // ---------------------------------------------------------------------------------------
  // Recording a process
  // ---------------------------------------------------------------------------------------

  /** The process is tracked under this key and this name. */
  ghost predicate KnownAs(t: Table, k: Key, name: string) {
    k in t.byKey && t.byKey[k] in t.cells && t.cells[t.byKey[k]].name == name
  }

  /** The contents of a record that is written with a name, a command line and a group. */
  ghost predicate HoldsRead(t: Table, k: Key, q: Process, name: string, cmdline: string, cgroup: string) {
    && q.name == name && q.cgroup == cgroup
    && if KnownAs(t, k, name) then
         var old_ := t.cells[t.byKey[k]];
         q.cmdline == old_.cmdline && q.forkedName == old_.forkedName && q.forkedCmdline == old_.forkedCmdline
       else
         && q.cmdline == cmdline
         && if k in t.byKey && t.byKey[k] in t.cells
            then q.forkedName == t.cells[t.byKey[k]].name && q.forkedCmdline == t.cells[t.byKey[k]].cmdline
            else q.forkedName == "" && q.forkedCmdline == ""
  }

  /** A decision that was taken about the process under this name. */
  ghost function Standing(t: Table, k: Key, name: string): Priority {
    if KnownAs(t, k, name) then t.cells[t.byKey[k]].assignedPriority else NotAssignable
  }

  lemma InsertedRecord(t: Table, p: Process)
    requires Keyed(t) && p.assignedPriority == NotAssignable && p.forkedName == "" && p.forkedCmdline == ""
    ensures var u, r, k := Insert(t, p), InsertRef(t, p), p.HashId();
            && r in u.cells && HoldsRead(t, k, u.cells[r], p.name, p.cmdline, p.cgroup)
            && u.cells[r].parent == p.parent && u.cells[r].assignedPriority == Standing(t, k, p.name)
  {
  }

  lemma CreatedIsRead(t: Table, env: Env, pid: Pid, parentPid: Pid, name: string, cmdline: string)
    ensures var p := CreatedProcess(t, env, pid, parentPid, name, cmdline);
            && p.HashId() == Key(pid, parentPid) && p.name == name
            && p.cmdline == (if env.alive(pid) && cmdline == "" then env.cmdline(pid).GetOr("") else cmdline)
            && p.cgroup == (if env.alive(pid) then env.cgroup(pid).GetOr("") else "")
            && p.parent == (if parentPid in t.byPid then Some(t.byPid[parentPid]) else None)
            && p.assignedPriority == NotAssignable && p.pipewireAncestor == None && p.forkedName == "" && p.forkedCmdline == ""
  {
  }

  /** Deciding about a record leaves all else, and decides by what the resulting table shows. */
  lemma DecidedRecord(c: SchedulerConfig, t: Table, r: Ref)
    requires r in t.cells
    ensures var u := SetCell(t, r, Decided(c, t, t.cells[r]));
            && r in u.cells && SameButFate(t.cells[r], u.cells[r]) && u.byKey == t.byKey
            && u.cells[r].assignedPriority ==
               if t.cells[r].assignedPriority != NotAssignable then t.cells[r].assignedPriority else Classify(c, u, u.cells[r])
  {
    hide Classify;
    var u := SetCell(t, r, Decided(c, t, t.cells[r]));
    SetCellKeepsShape(t, r, Decided(c, t, t.cells[r]));
    ShapeKeepsNames(t, u);
    SameClass(c, t, u, t.cells[r], u.cells[r]);
    hide SameShape, SameNames, SameEvidence;
  }

  /**
   * Recording a process: its record has the name it is announced with, the control group that is read
   * while it is alive, and a link to its parent if that is found. Under a new name it has the
   * announced command line, or the one that is read if none is announced, and remembers what it was
   * before. A decision stands as long as the name does; otherwise the record is classified.
   */
  lemma RecordingIsExact(s: State, env: Env, pid: Pid, parentPid: Pid, name: string, cmdline: string)
    requires Keyed(s.table)
    ensures var t, u, k := s.table, AssignNew(s, env, pid, parentPid, name, cmdline).table, Key(pid, parentPid);
            && k in u.byKey && u.byKey[k] in u.cells
            && var q := u.cells[u.byKey[k]];
               && HoldsRead(t, k, q, name, if env.alive(pid) && cmdline == "" then env.cmdline(pid).GetOr("") else cmdline,
                            if env.alive(pid) then env.cgroup(pid).GetOr("") else "")
               && q.parent == (if parentPid in t.byPid then Some(t.byPid[parentPid]) else None)
               && q.assignedPriority == if Standing(t, k, name) != NotAssignable then Standing(t, k, name) else Classify(s.config, u, q)
  {
    hide CreatedProcess, Insert, InsertRef, Recorded, Decided, Classify, Keyed, SameShape, HoldsRead, Standing, SameButFate, SetCell;
    var p := CreatedProcess(s.table, env, pid, parentPid, name, cmdline);
    CreatedIsRead(s.table, env, pid, parentPid, name, cmdline);
    var t, r := Recorded(s.table, p, s.pipewireProcesses), InsertRef(s.table, p);
    InsertedRecord(s.table, p);
    RecordedIs(s.table, p, s.pipewireProcesses);
    RecordedKey(s.table, t, p, s.pipewireProcesses);
    RecordedFate(s.table, p, s.pipewireProcesses);
    DecidedRecord(s.config, t, r);
    var u := SetCell(t, r, Decided(s.config, t, t.cells[r]));
    assert AssignNew(s, env, pid, parentPid, name, cmdline).table == u;
    FateKeepsRead(s.table, p.HashId(), Insert(s.table, p).cells[r], t.cells[r], p.name, p.cmdline, p.cgroup);
    FateKeepsRead(s.table, p.HashId(), t.cells[r], u.cells[r], p.name, p.cmdline, p.cgroup);
  }

  lemma RecordedFate(t: Table, p: Process, pids: seq<Pid>)
    requires InsertRef(t, p) in Insert(t, p).cells
    ensures var u, r := Recorded(t, p, pids), InsertRef(t, p);
            && r in u.cells && SameButFate(Insert(t, p).cells[r], u.cells[r])
            && u.cells[r].assignedPriority == Insert(t, p).cells[r].assignedPriority
  {
    hide Insert, InsertRef, PipewireAncestor, Ancestors;
  }

  lemma FateKeepsRead(t: Table, k: Key, p: Process, q: Process, name: string, cmdline: string, cgroup: string)
    requires SameButFate(p, q)
    ensures HoldsRead(t, k, p, name, cmdline, cgroup) ==> HoldsRead(t, k, q, name, cmdline, cgroup)
    ensures p.parent == q.parent
  {
    assert p.name == q.name && p.cgroup == q.cgroup && p.cmdline == q.cmdline;
    assert p.forkedName == q.forkedName && p.forkedCmdline == q.forkedCmdline && p.parent == q.parent;
    hide SameButFate;
  }

  // ---------------------------------------------------------------------------------------
  // Refreshing the table
  // ---------------------------------------------------------------------------------------

  lemma SweptRecord(t: Table, u: Table, env: Env, pid: Pid)
    requires env.cmdline(pid).Some? && RefreshedAs(t, u, RecordOf(env, pid, false))
    ensures var k, cmdline := Key(pid, env.parentId(pid).GetOr(0)), env.cmdline(pid).value;
            && k in u.byKey && u.byKey[k] in u.cells
            && var q := u.cells[u.byKey[k]];
               && HoldsRead(t, k, q, BaseName(cmdline), cmdline, env.cgroup(pid).GetOr(""))
               && q.assignedPriority == Standing(t, k, BaseName(cmdline))
  {
    hide BaseName;
  }

  /** What is decided about a listed process: a decision stands as long as the name does. */
  ghost function DecidedWhenListed(s: State, env: Env, pid: Pid): Priority
    requires env.listing.Some? && env.cmdline(pid).Some?
  {
    var t, k := SweptTable(s, env), Key(pid, env.parentId(pid).GetOr(0));
    var standing := Standing(s.table, k, BaseName(env.cmdline(pid).value));
    if standing != NotAssignable || k !in t.byKey || t.byKey[k] !in t.cells then standing
    else Classify(s.config, t, t.cells[t.byKey[k]])
  }

  lemma ListedBefore(s: State, env: Env, pid: Pid)
    requires WellFormed(s) && ValidEnv(env) && IsListed(env, pid)
    ensures var k, cmdline := Key(pid, env.parentId(pid).GetOr(0)), env.cmdline(pid).value;
            var t, u := SweptTable(s, env), BeforeForeground(s, env).table;
            && k in t.byKey && t.byKey[k] in t.cells
            && HoldsRead(s.table, k, t.cells[t.byKey[k]], BaseName(cmdline), cmdline, env.cgroup(pid).GetOr(""))
            && k in u.byKey && u.byKey[k] in u.cells && u.cells[u.byKey[k]].HashId() == k
            && SameButFate(t.cells[t.byKey[k]], u.cells[u.byKey[k]])
            && u.cells[u.byKey[k]].assignedPriority == DecidedWhenListed(s, env, pid)
  {
    hide Refreshed, Listed, ListedParents, IsListing, RefreshedAs, RecordOf, HoldsRead, Standing, BaseName, Classify, SameButFate,
         Linked, PipewireSound, PidIndexed, Allocated;
    var pids, k := env.listing.value, Key(pid, env.parentId(pid).GetOr(0));
    var ps, t := Listed(env, pids, false), SweptTable(s, env);
    ListedIsListing(env, pids, false);
    ListedIs(env, pids, false);
    RefreshIsExact(s.table, ps, ListedParents(env, pids));
    SweptRecord(s.table, t, env, pid);
    ValuesAreCells(t);
    DecideKeepsShape(s.config, t, t.byKey.Values);
    hide ValidEnv;
    assert BeforeForeground(s, env).table == DecideSome(s.config, t, t.byKey.Values);
  }

  /** Whether or not the pid index finds it, the scan leaves what was decided, and the command line. */
  lemma ScanLeavesDecided(s: State, env: Env, r: Ref)
    requires WellFormed(s) && ValidEnv(env) && env.listing.Some? && s.foreground.Some? && r in BeforeForeground(s, env).table.cells
    ensures DecidedAlike(BeforeForeground(s, env).table, Scanned(s, env).table, env, r)
  {
    hide BeforeForeground, AssignTasks, Tasks, Agrees, Steady, AsRead, ScanFindsHolder, ValidEnv, PipewireSound, RecordOf, Grown,
         FixedAgree, Partition, ProcessMapRefresh, AssignableWhenRead, HeldUnder;
    var s1, f := BeforeForeground(s, env), s.foreground.value;
    ScanReady(s, env);
    BeforeForegroundDecides(s, env, r);
    hide Sound, Linked;
    WellFormedIsSound(s1);
    if s1.table.cells[r].id in s1.table.byPid {
      FoundStays(s1.(foreground := None), env, Tasks(env.children, f), r);
    } else {
      ScanDecides(s1.(foreground := None), env, Tasks(env.children, f), r);
    }
  }

  /**
   * After a refresh, whatever the pid index finds: a listed process has the name that is read. If it was
   * not tracked under that name, it also has the command line that is read, and by these and its
   * control group it is classified in the swept table; a decision that was taken under the name stands.
   */
  lemma RefreshDecidesListed(s: State, env: Env, pid: Pid)
    requires WellFormed(s) && ValidEnv(env) && IsListed(env, pid)
    ensures var k, cmdline := Key(pid, env.parentId(pid).GetOr(0)), env.cmdline(pid).value;
            var t, u := SweptTable(s, env), ProcessMapRefresh(s, env).table;
            && k in t.byKey && t.byKey[k] in t.cells
            && HoldsRead(s.table, k, t.cells[t.byKey[k]], BaseName(cmdline), cmdline, env.cgroup(pid).GetOr(""))
            && k in u.byKey && u.byKey[k] in u.cells
            && u.cells[u.byKey[k]].name == BaseName(cmdline)
            && u.cells[u.byKey[k]].cmdline == t.cells[t.byKey[k]].cmdline
            && if DecidedWhenListed(s, env, pid) == NotAssignable then u.cells[u.byKey[k]].assignedPriority != Assignable
               else u.cells[u.byKey[k]].assignedPriority == DecidedWhenListed(s, env, pid)
  {
    hide BeforeForeground, ProcessMapRefresh, HoldsRead, DecidedWhenListed, ValidEnv, SweptTable, Scanned, BaseName, Agrees, Steady,
         Current, Findable, FixedAgree, Grown, Partition, Linked, PipewireSound;
    ListedBefore(s, env, pid);
    RefreshFromBefore(s, env);
    BeforeForegroundIs(s, env);
    var k, s1 := Key(pid, env.parentId(pid).GetOr(0)), BeforeForeground(s, env);
    var r := s1.table.byKey[k];
    BeforeForegroundDecides(s, env, r);
    hide AssignableWhenRead, HeldUnder, RecordOf;
    if s.foreground.Some? {
      ScanReady(s, env);
      ScanLeavesDecided(s, env, r);
      SoundFinds(Scanned(s, env).table, r);
      if s.config.foreground.Some? {
        PartitionKeepsTable(Scanned(s, env), env, s.config.foreground.value, s.foreground.value);
      }
    }
  }

  /**
   * In particular, a process that is listed for the first time, or under a new name, is excepted if its
   * command line or its name is, and otherwise has the profile of its command line if that is assigned
   * and no conditional exception applies.
   */
  lemma CommandLineDecides(s: State, env: Env, pid: Pid)
    requires WellFormed(s) && ValidEnv(env) && IsListed(env, pid)
    requires !KnownAs(s.table, Key(pid, env.parentId(pid).GetOr(0)), BaseName(env.cmdline(pid).value))
    ensures var k, cmdline, a := Key(pid, env.parentId(pid).GetOr(0)), env.cmdline(pid).value, s.config.assignments;
            var u := ProcessMapRefresh(s, env).table;
            && k in u.byKey && u.byKey[k] in u.cells && u.cells[u.byKey[k]].cmdline == cmdline
            && (cmdline in a.exceptionsByCmdline || BaseName(cmdline) in a.exceptionsByName ==>
                  u.cells[u.byKey[k]].assignedPriority == Exception)
            && (cmdline !in a.exceptionsByCmdline && BaseName(cmdline) !in a.exceptionsByName && a.exceptionsConditions == []
                && cmdline in a.profileByCmdline ==>
                  u.cells[u.byKey[k]].assignedPriority == Config(a.profileByCmdline[cmdline]))
  {
    hide ProcessMapRefresh, ValidEnv, SweptTable, BaseName, WellFormed, ExceptionMet;
    RefreshDecidesListed(s, env, pid);
  }
}
