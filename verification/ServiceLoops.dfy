/** One iteration of each of the service's loops, in terms of the state machine. */
module ServiceLoops {
  import opened Basics
  import opened Scheduler
  import opened ProcessTable
  import opened TableOperations
  import opened Classification
  import opened Engine
  import opened EngineInvariants

  lemma OneMore<T(!new)>(s: seq<T>, i: nat)
    requires i < |s|
    ensures s[..i + 1][..i] == s[..i] && s[..i + 1][i] == s[i]
    ensures Elements(s[..i + 1]) == Elements(s[..i]) + {s[i]}
    ensures NoDuplicates(s) ==> s[i] !in Elements(s[..i])
  {
    assert s[..i + 1] == s[..i] + [s[i]];
  }

  lemma ApplyOneMore(cells: map<Ref, Process>, order: seq<Ref>, i: nat, writes: map<Ref, Profile>, applied: map<Pid, Profile>)
    requires i < |order|
    ensures var before := ApplyAll(cells, order[..i], writes, applied);
            ApplyAll(cells, order[..i + 1], writes, applied) ==
            if order[i] in writes && order[i] in cells then before[cells[order[i]].id := writes[order[i]]] else before
  {
    OneMore(order, i);
  }

  lemma PidsOneMore(cells: map<Ref, Process>, order: seq<Ref>, i: nat, chosen: set<Ref>)
    requires i < |order|
    ensures PidsOf(cells, order[..i + 1], chosen) ==
            PidsOf(cells, order[..i], chosen) +
            if order[i] in chosen && order[i] in cells then [cells[order[i]].id] else []
  {
    OneMore(order, i);
  }

  lemma DecideOneMore(c: SchedulerConfig, t: Table, done: set<Ref>, r: Ref)
    requires r in t.cells && r !in done
    ensures var u := DecideSome(c, t, done);
            SetCell(u, r, Decided(c, u, u.cells[r])) == DecideSome(c, t, done + {r})
  {
    hide Classify, SameShape, SameNames, SameEvidence;
    var u, v := DecideSome(c, t, done), DecideSome(c, t, done + {r});
    DecideKeepsShape(c, t, done);
    ShapeKeepsNames(t, u);
    SameClass(c, t, u, t.cells[r], u.cells[r]);
    assert SetCell(u, r, Decided(c, u, u.cells[r])).cells == v.cells;
  }

  lemma DecideNone(c: SchedulerConfig, t: Table)
    ensures DecideSome(c, t, {}) == t
  {
    assert DecideSome(c, t, {}).cells == t.cells;
  }

  /** The state after the first `i` processes have been decided and applied. */
  ghost function AssignAndApplySome(s: State, order: seq<Ref>, i: nat): State
    requires i <= |order|
  {
    var s1 := s.(table := DecideSome(s.config, s.table, s.table.byKey.Values));
    s.(table := DecideSome(s.config, s.table, Elements(order[..i])),
       applied := ApplyAll(s1.table.cells, order[..i], PickWrites(s1), s.applied))
  }

  lemma AssignAndApplyNone(s: State, order: seq<Ref>)
    ensures AssignAndApplySome(s, order, 0) == s
  {
    DecideNone(s.config, s.table);
    assert Elements(order[..0]) == {};
  }

  /** The choice for a cell depends on that cell, not on how far the loop has come. */
  lemma PickInLoop(s: State, u: State, r: Ref, done: set<Ref>)
    requires r in s.table.cells && r in done && done <= s.table.byKey.Values
    requires SameLists(s, u) && u.table == DecideSome(s.config, s.table, done)
    ensures var s1 := s.(table := DecideSome(s.config, s.table, s.table.byKey.Values));
            && r in u.table.cells && r in s1.table.cells
            && u.table.cells[r] == s1.table.cells[r]
            && Pick(u, u.table.cells[r]) == Pick(s1, s1.table.cells[r])
  {
    hide Decided;
  }

  lemma AssignAndApplyOneMore(s: State, order: seq<Ref>, i: nat)
    requires i < |order| && order[i] in s.table.cells && Enumerates(order, s.table.byKey.Values)
    ensures var u := AssignAndApplySome(s, order, i);
            && order[i] in u.table.cells
            && AssignAndApplySome(s, order, i + 1) == ApplyPriority(AssignPriority(u, order[i]), order[i])
  {
    var r := order[i];
    var u, v := AssignAndApplySome(s, order, i), AssignAndApplySome(s, order, i + 1);
    var s1 := s.(table := DecideSome(s.config, s.table, s.table.byKey.Values));
    OneMore(order, i);
    assert Elements(order[..i + 1]) <= s.table.byKey.Values;
    DecideOneMore(s.config, s.table, Elements(order[..i]), r);
    hide Enumerates, NoDuplicates;
    ApplyOneMore(s1.table.cells, order, i, PickWrites(s1), s.applied);
    var w := AssignPriority(u, r);
    PickInLoop(s, w, r, Elements(order[..i + 1]));
    assert s1.table.cells[r].id == w.table.cells[r].id;
    hide Decided, Pick, DecideSome, ApplyAll;
  }

  lemma AssignAndApplyEvery(s: State, env: Env)
    requires ValidEnv(env)
    ensures var order := env.order(s.table.byKey.Values);
            AssignAndApplySome(s, order, |order|) == AssignAndApplyAll(s, env)
  {
    var order := env.order(s.table.byKey.Values);
    assert order[..|order|] == order;
    assert Elements(order) == s.table.byKey.Values;
  }

  lemma ShapeKeepsDescent(t: Table, u: Table, r: Ref, pid: Pid)
    requires SameShape(t, u) && r in t.cells
    ensures DescendedFrom(u, u.cells[r], pid) == DescendedFrom(t, t.cells[r], pid)
  {
    ShapeKeepsNames(t, u);
    SameDescent(t, u, t.cells[r], u.cells[r], pid);
  }

  lemma HoldOneMore(t: Table, pid: Pid, done: set<Ref>, r: Ref)
    requires r in t.cells && r !in done
    ensures var u, v := HoldSome(t, pid, done), HoldSome(t, pid, done + {r});
            && u.cells[r] == t.cells[r]
            && Assignment(u, t.cells[r].id) == Assignment(t, t.cells[r].id)
            && DescendedFrom(u, u.cells[r], pid) == DescendedFrom(t, t.cells[r], pid)
            && v == if HeldBelow(t, r, pid) then SetCell(u, r, t.cells[r].(pipewireAncestor := Some(pid))) else u
  {
    HoldKeepsShape(t, pid, done);
    ShapeKeepsDescent(t, HoldSome(t, pid, done), r, pid);
    HoldOneMoreCell(t, pid, done, r);
    HoldKeepsAssignment(t, pid, done, t.cells[r].id);
    hide HeldBelow, SameShape, DescendedFrom, HoldSome, Assignment;
  }

  lemma HoldOneMoreCell(t: Table, pid: Pid, done: set<Ref>, r: Ref)
    requires r in t.cells && r !in done
    ensures var u, v := HoldSome(t, pid, done), HoldSome(t, pid, done + {r});
            && u.cells[r] == t.cells[r]
            && v == if HeldBelow(t, r, pid) then SetCell(u, r, t.cells[r].(pipewireAncestor := Some(pid))) else u
  {
    hide HeldBelow;
    var u, v := HoldSome(t, pid, done), HoldSome(t, pid, done + {r});
    assert v.cells == if HeldBelow(t, r, pid) then u.cells[r := t.cells[r].(pipewireAncestor := Some(pid))] else u.cells;
  }

  lemma HoldKeepsAssignment(t: Table, pid: Pid, done: set<Ref>, q: Pid)
    ensures Assignment(HoldSome(t, pid, done), q) == Assignment(t, q)
  {
    hide HeldBelow;
  }

  lemma HoldNone(t: Table, pid: Pid)
    ensures HoldSome(t, pid, {}) == t
  {
    hide HeldBelow;
    assert HoldSome(t, pid, {}).cells == t.cells;
  }

  lemma ReleaseOneMore(t: Table, pid: Pid, done: set<Ref>, r: Ref)
    requires r in t.cells && r !in done
    ensures var u, v := ReleaseSome(t, pid, done), ReleaseSome(t, pid, done + {r});
            && u.cells[r] == t.cells[r]
            && Assignment(u, t.cells[r].id) == Assignment(t, t.cells[r].id) == Assignment(v, t.cells[r].id)
            && v == if LetGo(t.cells[r], pid) then SetCell(u, r, t.cells[r].(pipewireAncestor := None)) else u
  {
    var u, v := ReleaseSome(t, pid, done), ReleaseSome(t, pid, done + {r});
    assert v.cells == if LetGo(t.cells[r], pid) then u.cells[r := t.cells[r].(pipewireAncestor := None)] else u.cells;
  }

  lemma ReleaseNone(t: Table, pid: Pid)
    ensures ReleaseSome(t, pid, {}) == t
  {
    assert ReleaseSome(t, pid, {}).cells == t.cells;
  }

  lemma LinkNone(t: Table, parents: map<Pid, Pid>)
    ensures LinkSome(t, parents, {}) == t
  {
    assert LinkSome(t, parents, {}).cells == t.cells;
  }

  /** Linking one more pid writes at most the cell that the pid index finds for it. */
  lemma LinkOneMore(t: Table, parents: map<Pid, Pid>, pids: set<Pid>, pid: Pid)
    requires PidIndexed(t) && pid in parents && pid !in pids
    ensures var u, v := LinkSome(t, parents, pids), LinkSome(t, parents, pids + {pid});
            if pid in t.byPid && parents[pid] in t.byPid then
              var r := t.byPid[pid];
              r in t.cells && r in u.cells && u.cells[r] == t.cells[r] &&
              v == SetCell(u, r, t.cells[r].(parent := Some(t.byPid[parents[pid]])))
            else v == u
  {
    var u, v := LinkSome(t, parents, pids), LinkSome(t, parents, pids + {pid});
    if pid in t.byPid && parents[pid] in t.byPid {
      var r := t.byPid[pid];
      assert v.cells == u.cells[r := t.cells[r].(parent := Some(t.byPid[parents[pid]]))];
    } else {
      assert v.cells == u.cells;
    }
  }

  // ---------------------------------------------------------------------------------------
  // The foreground partition
  // ---------------------------------------------------------------------------------------

  ghost function PartitionSome(s: State, order: seq<Ref>, i: nat, f: ForegroundAssignments, pid: Pid): State
    requires i <= |order|
  {
    s.(foreground := Some(pid),
       foregroundProcesses := [pid] + PidsOf(s.table.cells, order[..i], ForegroundCells(s.table, pid)),
       applied := ApplyAll(s.table.cells, order[..i], ForegroundWrites(s, f, pid), s.applied))
  }

  /** What the partition does with one process. */
  ghost function PartitionOne(u: State, r: Ref, f: ForegroundAssignments, pid: Pid): State
    requires r in u.table.cells
  {
    var p := u.table.cells[r];
    if Assignment(u.table, p.id) != Assignable then u
    else if p.id == pid || DescendedFrom(u.table, p, pid) then
      var v := u.(foregroundProcesses := u.foregroundProcesses + [p.id]);
      if PipewireAssigned(u, p) then v else v.(applied := v.applied[p.id := f.foreground])
    else if PipewireAssigned(u, p) then u
    else u.(applied := u.applied[p.id := f.background])
  }

  lemma PartitionOneMore(s: State, order: seq<Ref>, i: nat, f: ForegroundAssignments, pid: Pid)
    requires i < |order| && order[i] in s.table.cells
    ensures PartitionSome(s, order, i + 1, f, pid) == PartitionOne(PartitionSome(s, order, i, f, pid), order[i], f, pid)
  {
    hide DescendedFrom, Assignment;
    var r := order[i];
    var u := PartitionSome(s, order, i, f, pid);
    ApplyOneMore(s.table.cells, order, i, ForegroundWrites(s, f, pid), s.applied);
    PidsOneMore(s.table.cells, order, i, ForegroundCells(s.table, pid));
    hide ApplyAll, PidsOf;
    assert PipewireAssigned(u, s.table.cells[r]) == PipewireAssigned(s, s.table.cells[r]);
    assert [pid] + (PidsOf(s.table.cells, order[..i], ForegroundCells(s.table, pid)) + [s.table.cells[r].id])
        == u.foregroundProcesses + [s.table.cells[r].id];
  }

  lemma PartitionEnds(s: State, env: Env, f: ForegroundAssignments, pid: Pid)
    ensures var order := env.order(s.table.byKey.Values);
            && PartitionSome(s, order, |order|, f, pid) == Partition(s, env, f, pid)
            && PartitionSome(s, order, 0, f, pid) == s.(foreground := Some(pid), foregroundProcesses := [pid])
  {
    var order := env.order(s.table.byKey.Values);
    assert order[..|order|] == order;
  }

  // ---------------------------------------------------------------------------------------
  // Pipewire
  // ---------------------------------------------------------------------------------------

  ghost function HoldFirst(s: State, order: seq<Ref>, i: nat, profile: Profile, pid: Pid): State
    requires i <= |order|
  {
    s.(table := HoldSome(s.table, pid, Elements(order[..i])),
       applied := ApplyAll(s.table.cells, order[..i], HoldWrites(s.table, pid, profile), s.applied))
  }

  /** What adding a pipewire process does with one process. */
  ghost function HoldOne(u: State, r: Ref, profile: Profile, pid: Pid): State
    requires r in u.table.cells
  {
    var p := u.table.cells[r];
    if Assignment(u.table, p.id) != Assignable then u
    else if p.id == pid then u.(applied := u.applied[pid := profile])
    else if DescendedFrom(u.table, p, pid) then
      u.(table := SetCell(u.table, r, p.(pipewireAncestor := Some(pid))), applied := u.applied[p.id := profile])
    else u
  }

  lemma HoldStep(s: State, order: seq<Ref>, i: nat, profile: Profile, pid: Pid)
    requires i < |order| && order[i] in s.table.cells && NoDuplicates(order)
    ensures var u := HoldFirst(s, order, i, profile, pid);
            order[i] in u.table.cells && HoldFirst(s, order, i + 1, profile, pid) == HoldOne(u, order[i], profile, pid)
  {
    hide DescendedFrom, Assignment;
    var r := order[i];
    OneMore(order, i);
    hide NoDuplicates;
    HoldOneMore(s.table, pid, Elements(order[..i]), r);
    ApplyOneMore(s.table.cells, order, i, HoldWrites(s.table, pid, profile), s.applied);
    assert HoldFirst(s, order, i, profile, pid).table.cells.Keys == s.table.cells.Keys;
    hide HoldSome, ApplyAll;
  }

  lemma HoldEnds(s: State, env: Env, profile: Profile, pid: Pid)
    requires ValidEnv(env)
    ensures var order := env.order(s.table.byKey.Values);
            && HoldFirst(s, order, |order|, profile, pid) == Hold(s, env, profile, pid)
            && HoldFirst(s, order, 0, profile, pid) == s
  {
    var order := env.order(s.table.byKey.Values);
    assert order[..|order|] == order && Elements(order) == s.table.byKey.Values;
    HoldNone(s.table, pid);
    assert Elements(order[..0]) == {};
  }

  ghost function ReleaseFirst(s: State, order: seq<Ref>, i: nat, pid: Pid): State
    requires i <= |order|
  {
    s.(pipewireProcesses := Without(s.pipewireProcesses, pid),
       table := ReleaseSome(s.table, pid, Elements(order[..i])),
       applied := ApplyAll(s.table.cells, order[..i], ReleaseWrites(s, pid), s.applied))
  }

  /** What removing a pipewire process does with one process. */
  ghost function ReleaseOne(u: State, r: Ref, pid: Pid): State
    requires r in u.table.cells
  {
    var p := u.table.cells[r];
    if !LetGo(p, pid) then u
    else
      var v := u.(table := SetCell(u.table, r, p.(pipewireAncestor := None)));
      if v.config.foreground.None? || Assignment(v.table, p.id) != Assignable then v
      else if p.id in v.foregroundProcesses then v.(applied := v.applied[p.id := v.config.foreground.value.foreground])
      else v.(applied := v.applied[p.id := v.config.foreground.value.background])
  }

  lemma ReleaseStep(s: State, order: seq<Ref>, i: nat, pid: Pid)
    requires i < |order| && order[i] in s.table.cells && NoDuplicates(order)
    ensures var u := ReleaseFirst(s, order, i, pid);
            order[i] in u.table.cells && ReleaseFirst(s, order, i + 1, pid) == ReleaseOne(u, order[i], pid)
  {
    hide Assignment;
    var r := order[i];
    OneMore(order, i);
    hide NoDuplicates;
    ReleaseOneMore(s.table, pid, Elements(order[..i]), r);
    ApplyOneMore(s.table.cells, order, i, ReleaseWrites(s, pid), s.applied);
    assert ReleaseFirst(s, order, i, pid).table.cells.Keys == s.table.cells.Keys;
    hide ReleaseSome, ApplyAll, LetGo;
  }

  lemma ReleaseEnds(s: State, env: Env, pid: Pid)
    requires ValidEnv(env) && pid in s.pipewireProcesses
    ensures var order := env.order(s.table.byKey.Values);
            && ReleaseFirst(s, order, |order|, pid) == RemovePipewire(s, env, pid)
            && ReleaseFirst(s, order, 0, pid) == s.(pipewireProcesses := Without(s.pipewireProcesses, pid))
  {
    var order := env.order(s.table.byKey.Values);
    assert order[..|order|] == order && Elements(order) == s.table.byKey.Values;
    ReleaseNone(s.table, pid);
    assert Elements(order[..0]) == {};
  }

  lemma {:induction false} WithoutAt(pids: seq<Pid>, i: nat)
    requires i < |pids| && pids[i] !in pids[..i]
    ensures Without(pids, pids[i]) == pids[..i] + pids[i + 1..]
  {
    if i > 0 {
      assert pids[..i][0] == pids[0] && pids[1..][..i - 1] == pids[..i][1..];
      WithoutAt(pids[1..], i - 1);
      assert pids[1..][i..] == pids[i + 1..];
    }
  }
}
