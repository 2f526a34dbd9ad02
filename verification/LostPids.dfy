/**
 * Processes that the pid index has lost: how a pid gets lost, and that it stays lost for as long
 * as the process is listed.
 */
module LostPids {
  import opened Basics
  import opened ProcessTable
  import opened TableOperations
  import opened Refresh
  import opened Worklist
  import opened Engine
  import opened EngineInvariants
  import opened Agreement
  import opened Descendants
  import opened WholeRuns
  import opened Scans
  import opened RefreshAgreement

  /** The pid is tracked, and the pid index does not find it or it is tracked under two parents. */
  ghost predicate Astray(t: Table, pid: Pid) {
    exists k :: k in t.byKey && k.id == pid && (pid !in t.byPid || TrackedElsewhere(t, k))
  }

  /** The pid of the key is tracked under another parent. */
  ghost predicate TrackedElsewhere(t: Table, k: Key) {
    exists l :: l in t.byKey && l.id == k.id && l != k
  }

  // ---------------------------------------------------------------------------------------
  // How a pid goes astray
  // ---------------------------------------------------------------------------------------

  /** By an insertion: if it was astray, or is inserted while it is tracked under another parent. */
  lemma InsertLeadsAstrayExactly(t: Table, p: Process, pid: Pid)
    ensures Astray(Insert(t, p), pid) <==> Astray(t, pid) || (p.id == pid && TrackedElsewhere(t, p.HashId()))
  {
    var u, k := Insert(t, p), p.HashId();
    assert forall l :: l in u.byKey <==> l in t.byKey || l == k;
    assert u.byPid == if k in t.byKey then t.byPid else t.byPid[p.id := InsertRef(t, p)];
    hide Insert;
    if Astray(t, pid) {
      var l :| l in t.byKey && l.id == pid && (pid !in t.byPid || TrackedElsewhere(t, l));
      assert l in u.byKey;
      if TrackedElsewhere(t, l) {
        var m :| m in t.byKey && m.id == l.id && m != l;
        assert m in u.byKey;
      } else if pid in u.byPid {
        assert k in u.byKey && k.id == pid && k != l;
      }
    }
    if p.id == pid && TrackedElsewhere(t, k) {
      assert k in u.byKey;
      var m :| m in t.byKey && m.id == pid && m != k;
      assert m in u.byKey;
    }
    if Astray(u, pid) {
      var l :| l in u.byKey && l.id == pid && (pid !in u.byPid || TrackedElsewhere(u, l));
      if TrackedElsewhere(u, l) {
        var m :| m in u.byKey && m.id == l.id && m != l;
        assert l != k ==> l in t.byKey;
        assert m != k ==> m in t.byKey;
      }
    }
  }

  lemma FindableExactly(t: Table, p: Process)
    ensures Findable(t, p) <==> !Astray(t, p.id) && !TrackedElsewhere(t, p.HashId())
  {
    var k := p.HashId();
    if !Astray(t, p.id) && !TrackedElsewhere(t, k) && k in t.byKey {
      assert k.id == p.id;
    }
  }

  /** By a sweep that keeps it: if it was astray, or is listed under another parent than it is tracked under. */
  lemma SweepLeadsAstrayExactly(t: Table, ps: seq<Process>, parents: map<Pid, Pid>, p: Process)
    requires Sound(t) && IsListing(ps) && p in ps
    ensures var u := Refreshed(t, ps, parents);
            && p.HashId() in u.byKey
            && (Astray(u, p.id) <==> p.id !in u.byPid)
            && (Astray(u, p.id) <==> Astray(t, p.id) || TrackedElsewhere(t, p.HashId()))
  {
    hide Refreshed, IsListing, Sound, Findable;
    var u := Refreshed(t, ps, parents);
    RefreshFindsExactly(t, ps, parents, p);
    RefreshSweeps(t, ps, parents);
    RecordsDistinct(ps);
    FindableExactly(t, p);
    hide Records;
    assert p.HashId() in u.byKey;
    assert forall l :: l in u.byKey && l.id == p.id ==> l == p.HashId();
  }

  // ---------------------------------------------------------------------------------------
  // Events
  // ---------------------------------------------------------------------------------------

  lemma SameIndexesAstray(t: Table, u: Table, pid: Pid)
    requires t.byKey == u.byKey && t.byPid == u.byPid
    ensures Astray(t, pid) <==> Astray(u, pid)
  {
  }

  lemma NewKeepsAstray(s: State, env: Env, pid: Pid, parentPid: Pid, name: string, cmdline: string, q: Pid)
    requires WellFormed(s) && Astray(s.table, q)
    ensures Astray(AssignNew(s, env, pid, parentPid, name, cmdline).table, q)
  {
    hide AssignNew, Astray, Insert, InsertRef, OthersKept, Linked, PipewireSound;
    var p := CreatedProcess(s.table, env, pid, parentPid, name, cmdline);
    AssignNewRecordsOne(s, env, pid, parentPid, name, cmdline);
    InsertLeadsAstrayExactly(s.table, p, q);
    SameIndexesAstray(Insert(s.table, p), AssignNew(s, env, pid, parentPid, name, cmdline).table, q);
  }

  lemma {:induction false} TasksKeepAstray(s: State, env: Env, tasks: seq<Pid>, q: Pid)
    requires WellFormed(s) && Astray(s.table, q)
    ensures Astray(AssignTasks(s, env, tasks).table, q)
  {
    hide WellFormed, Astray, AssignNew;
    if tasks != [] {
      var b, pid := AssignTasks(s, env, tasks[..|tasks| - 1]), tasks[|tasks| - 1];
      TasksKeepAstray(s, env, tasks[..|tasks| - 1], q);
      AssignTasksKeepsWellFormed(s, env, tasks[..|tasks| - 1]);
      if Readable(env, pid) {
        NewKeepsAstray(b, env, pid, env.parentId(pid).value, BaseName(env.cmdline(pid).value), env.cmdline(pid).value, q);
      }
    }
  }

  lemma ChildrenKeepAstray(s: State, env: Env, pid: Pid, q: Pid)
    requires WellFormed(s) && Astray(s.table, q)
    ensures Astray(AssignChildren(s, env, pid).table, q)
  {
    hide WellFormed, Astray, AssignTasks;
    TasksKeepAstray(s, env, Tasks(env.children, pid), q);
  }

  /** Every listing that is read names the process, and its command line can be read. */
  ghost predicate StaysListed(env: Env, pid: Pid) {
    ValidEnv(env) && (env.listing.Some? ==> IsListed(env, pid))
  }

  lemma SweepLosesAstray(s: State, env: Env, bare: bool, parents: map<Pid, Pid>, q: Pid)
    requires WellFormed(s) && ValidEnv(env) && IsListed(env, q) && Astray(s.table, q)
    ensures var u := Refreshed(s.table, Listed(env, env.listing.value, bare), parents);
            Astray(u, q) && q !in u.byPid && Key(q, env.parentId(q).GetOr(0)) in u.byKey
  {
    hide Refreshed, Listed, IsListing, Astray, Linked, PipewireSound;
    var ps, p := Listed(env, env.listing.value, bare), RecordOf(env, q, bare);
    ListedIs(env, env.listing.value, bare);
    ListedIsListing(env, env.listing.value, bare);
    assert p in ps && p.HashId() == Key(q, env.parentId(q).GetOr(0));
    hide Sound, ValidEnv;
    SweepLeadsAstrayExactly(s.table, ps, parents, p);
  }

  lemma CleaningKeepsAstray(s: State, env: Env, q: Pid)
    requires WellFormed(s) && StaysListed(env, q) && Astray(s.table, q)
    ensures Astray(GarbageClean(s, env).table, q)
  {
    hide WellFormed, Astray, Swept, Refreshed, Listed, ValidEnv;
    if env.listing.Some? {
      SweepIsRefresh(s.table, Listed(env, env.listing.value, true));
      SweepLosesAstray(s, env, true, map[], q);
    }
  }

  lemma SettingKeepsAstray(s: State, env: Env, pid: Pid, q: Pid)
    requires WellFormed(s) && Astray(s.table, q)
    ensures Astray(SetForeground(s, env, pid).table, q)
    ensures Astray(SetPipewire(s, env, pid).table, q)
    ensures Astray(RemovePipewire(s, env, pid).table, q)
  {
    hide WellFormed, Astray, AssignChildren, HoldWrites, ReleaseWrites, HoldSome, ReleaseSome, Assignment, SameButFate;
    ChildrenKeepAstray(s, env, pid, q);
    var t := AssignChildren(s, env, pid).table;
    HoldKeepsShape(t, pid, t.byKey.Values);
    ReleaseKeepsShape(s.table, pid, s.table.byKey.Values);
    SameIndexesAstray(t, SetPipewire(s, env, pid).table, q);
    SameIndexesAstray(s.table, RemovePipewire(s, env, pid).table, q);
  }

  lemma KeyStaysLost(t: Table, r: Ref)
    requires Sound(t) && r in t.cells && t.cells[r].id !in t.byPid
    ensures t.cells[r].HashId() in t.byKey && Astray(t, t.cells[r].id)
  {
    assert t.cells[r].HashId().id == t.cells[r].id;
  }

  lemma BeforeForegroundLoses(s: State, env: Env, r: Ref)
    requires WellFormed(s) && ValidEnv(env) && env.listing.Some? && r in BeforeForeground(s, env).table.cells
    requires Astray(s.table, BeforeForeground(s, env).table.cells[r].id)
    ensures var u := BeforeForeground(s, env).table; u.cells[r].id !in u.byPid
  {
    hide BeforeForeground, Agrees, ValidEnv, WellFormed, Current, Astray, Findable;
    BeforeForegroundIs(s, env);
    FindableExactly(s.table, BeforeForeground(s, env).table.cells[r]);
  }

  lemma SettingKeepsTable(s: State, env: Env, pid: Pid)
    ensures SetForeground(s, env, pid).table == AssignTasks(s, env, Tasks(env.children, pid)).table
  {
    hide AssignTasks, Tasks, ApplyAll, PidsOf;
  }

  /** The scan does not find what the sweep has lost. */
  lemma ScanLosesAstray(s1: State, env: Env, f: Pid, r: Ref)
    requires WellFormed(s1) && Steady(s1.table, env) && r in s1.table.cells && s1.table.cells[r].id !in s1.table.byPid
    ensures var t, k := SetForeground(s1.(foreground := None), env, f).table, s1.table.cells[r].HashId();
            Astray(t, k.id) && k.id !in t.byPid && k in t.byKey
  {
    hide Tasks, AssignTasks, SetForeground, Steady, Astray, Linked, PipewireSound, Keyed, PidIndexed, Allocated, AgreesAt;
    var s2 := s1.(foreground := None);
    SettingKeepsTable(s2, env, f);
    ScanAt(s2, env, Tasks(env.children, f), r);
    KeyStaysLost(AssignTasks(s2, env, Tasks(env.children, f)).table, r);
  }

  /** A refresh finds an astray process under no circumstances, whichever parent it is listed under. */
  lemma RefreshLosesAstray(s: State, env: Env, q: Pid)
    requires WellFormed(s) && ValidEnv(env) && IsListed(env, q) && Astray(s.table, q)
    ensures var u := ProcessMapRefresh(s, env).table;
            Astray(u, q) && q !in u.byPid && Key(q, env.parentId(q).GetOr(0)) in u.byKey
  {
    hide BeforeForeground, ProcessMapRefresh, SetForeground, Agrees, ValidEnv, Findable, Astray, Linked,
         PipewireSound, Sound;
    RefreshFromBefore(s, env);
    BeforeForegroundIs(s, env);
    var s1 := BeforeForeground(s, env);
    var r := ListedIsTracked(s, env, q);
    BeforeForegroundLoses(s, env, r);
    assert s1.table.cells[r].HashId() == Key(q, env.parentId(q).GetOr(0));
    if s1.foreground.Some? {
      CurrentIsSteady(s1.table, env) by { WellFormedIsSound(s1); SoundIsKeyed(s1.table); }
      hide Current, Steady;
      ScanLosesAstray(s1, env, s1.foreground.value, r);
    } else {
      KeyStaysLost(s1.table, r);
    }
  }

  lemma StepKeepsAstray(s: State, input: Input, q: Pid)
    requires WellFormed(s) && StaysListed(input.env, q) && Astray(s.table, q)
    ensures Astray(Step(s, input).table, q)
  {
    hide WellFormed, Astray, AssignNew, AssignChildren, SetForeground, SetPipewire, RemovePipewire, GarbageClean, ValidEnv;
    var env := input.env;
    match input.event
    case ExecCreate(pid, parentPid, name, cmdline) =>
      var s1 := AssignNew(s, env, pid, parentPid, name, cmdline);
      NewKeepsAstray(s, env, pid, parentPid, name, cmdline, q);
      AssignNewKeepsWellFormed(s, env, pid, parentPid, name, cmdline);
      ChildrenKeepAstray(s1, env, pid, q);
      AssignChildrenKeepsWellFormed(s1, env, pid);
      CleaningKeepsAstray(AssignChildren(s1, env, pid), env, q);
    case RefreshProcessMap =>
      if env.listing.Some? {
        RefreshLosesAstray(s, env, q);
      } else {
        SameIndexesAstray(s.table, Prepare(s.table), q);
      }
    case SetForegroundProcess(pid) =>
      SettingKeepsAstray(s, env, pid, q);
      SetForegroundKeepsWellFormed(s, env, pid);
      CleaningKeepsAstray(SetForeground(s, env, pid), env, q);
    case PipewireAdd(pid) =>
      SettingKeepsAstray(s, env, pid, q);
      SetPipewireKeepsWellFormed(s, env, pid);
      CleaningKeepsAstray(SetPipewire(s, env, pid), env, q);
    case PipewireRemove(pid) =>
      SettingKeepsAstray(s, env, pid, q);
    case ReloadConfiguration(_) =>
  }

  // ---------------------------------------------------------------------------------------
  // Runs
  // ---------------------------------------------------------------------------------------

  lemma {:induction false} RunKeepsAstray(s: State, inputs: seq<Input>, q: Pid)
    requires WellFormed(s) && Astray(s.table, q)
    requires forall i :: 0 <= i < |inputs| ==> StaysListed(inputs[i].env, q)
    ensures WellFormed(Run(s, inputs)) && Astray(Run(s, inputs).table, q)
  {
    hide WellFormed, Astray, Step, ValidEnv;
    if inputs != [] {
      var init, last := inputs[..|inputs| - 1], inputs[|inputs| - 1];
      RunKeepsAstray(s, init, q);
      StepKeepsAstray(Run(s, init), last, q);
      StepKeepsWellFormed(Run(s, init), last);
    }
  }

  /**
   * Once a pid is astray, no later refresh finds it, however many events and refreshes came between,
   * whichever parents it was seen under and whether or not it was created again: not before a
   * listing leaves it out, or its command line cannot be read. It is tracked all the while.
   */
  lemma LostWhileListed(s: State, inputs: seq<Input>, env: Env, q: Pid)
    requires WellFormed(s) && Astray(s.table, q)
    requires forall i :: 0 <= i < |inputs| ==> StaysListed(inputs[i].env, q)
    requires ValidEnv(env) && IsListed(env, q)
    ensures var t := Run(s, inputs + [Input(RefreshProcessMap, env)]).table;
            q !in t.byPid && Key(q, env.parentId(q).GetOr(0)) in t.byKey
  {
    hide WellFormed, Astray, ProcessMapRefresh, ValidEnv;
    RunKeepsAstray(s, inputs, q);
    RefreshLosesAstray(Run(s, inputs), env, q);
    assert (inputs + [Input(RefreshProcessMap, env)])[..|inputs|] == inputs;
  }
}
