/** A change of the foreground and a pipewire addition, whatever the pid index finds: when they keep the agreement. */
module Partitions {
  import opened Basics
  import opened Scheduler
  import opened ProcessTable
  import opened Worklist
  import opened Engine
  import opened EngineInvariants
  import opened Agreement
  import opened WholeRuns
  import opened Scans

  // ---------------------------------------------------------------------------------------
  // The partition
  // ---------------------------------------------------------------------------------------

  ghost function OnSide(f: ForegroundAssignments, front: bool): Profile {
    if front then f.foreground else f.background
  }

  /** The process is the foreground, or the pid index finds it and it descends from the foreground. */
  ghost predicate NowInFront(t: Table, p: Process, pid: Pid) {
    p.id == pid || (p.id in t.byPid && DescendedFrom(t, p, pid))
  }

  lemma PartitionAt(s: State, env: Env, f: ForegroundAssignments, pid: Pid, r: Ref)
    requires Sound(s.table) && UniquePids(s.table.cells) && ValidEnv(env) && r in s.table.cells
    requires s.table.cells[r].assignedPriority == Assignable
    ensures var p, u := s.table.cells[r], Partition(s, env, f, pid);
            && (p.id in u.foregroundProcesses <==> NowInFront(s.table, p, pid))
            && if p.id in s.table.byPid && !PipewireAssigned(s, p) then
                 p.id in u.applied && u.applied[p.id] == OnSide(f, NowInFront(s.table, p, pid))
               else SameAt(s.applied, u.applied, p.id)
  {
    var order := env.order(s.table.byKey.Values);
    ValuesAreCells(s.table);
    AssignmentWhenFound(s.table, r);
    ApplyAllAt(s.table.cells, order, ForegroundWrites(s, f, pid), s.applied, r);
    PidsOfAre(s.table.cells, order, ForegroundCells(s.table, pid), s.table.cells[r].id);
    hide DescendedFrom, PidsOf, Keyed, PidIndexed, Allocated, Assignment, ApplyAll;
    assert r in order;
    assert [pid][0] == pid;
  }

  /** The partition loop does nothing to these, although their profile depends on the foreground. */
  ghost predicate PassedOver(s: State, r: Ref)
    requires r in s.table.cells
  {
    var p := s.table.cells[r];
    p.assignedPriority == Assignable && !Fixed(s, p) && (p.id !in s.table.byPid || PipewireAssigned(s, p))
  }

  lemma PartitionAgreesAt(s: State, env: Env, f: ForegroundAssignments, pid: Pid, r: Ref)
    requires Sound(s.table) && UniquePids(s.table.cells) && ValidEnv(env) && r in s.table.cells
    requires s.config.foreground == Some(f) && (Fixed(s, s.table.cells[r]) ==> AgreesAt(s, r))
    ensures var p := s.table.cells[r];
            AgreesAt(Partition(s, env, f, pid), r) <==>
              (PassedOver(s, r) ==> p.id in s.applied && s.applied[p.id] == OnSide(f, NowInFront(s.table, p, pid)))
  {
    hide Sound, UniquePids, ValidEnv, DescendedFrom, PidsOf, ApplyAll, ForegroundWrites, ForegroundCells, NowInFront;
    if s.table.cells[r].assignedPriority == Assignable {
      PartitionAt(s, env, f, pid, r);
    } else {
      PartitionElsewhere(s, env, f, pid, r);
    }
  }

  lemma PartitionElsewhere(s: State, env: Env, f: ForegroundAssignments, pid: Pid, r: Ref)
    requires Sound(s.table) && UniquePids(s.table.cells) && ValidEnv(env) && r in s.table.cells
    requires s.table.cells[r].assignedPriority != Assignable
    ensures SameAt(s.applied, Partition(s, env, f, pid).applied, s.table.cells[r].id)
  {
    AssignmentWhenFound(s.table, r);
    ApplyAllAt(s.table.cells, env.order(s.table.byKey.Values), ForegroundWrites(s, f, pid), s.applied, r);
    hide DescendedFrom, PidsOf, Sound, UniquePids, Assignment, ApplyAll;
  }

  /** The partition leaves the right profile everywhere exactly when what it passes over has it already. */
  lemma PartitionAgreesExactly(s: State, env: Env, f: ForegroundAssignments, pid: Pid)
    requires Sound(s.table) && UniquePids(s.table.cells) && ValidEnv(env) && FixedAgree(s) && s.config.foreground == Some(f)
    ensures Agrees(Partition(s, env, f, pid)) <==>
              forall r :: r in s.table.cells && PassedOver(s, r) ==>
                            var p := s.table.cells[r];
                            p.id in s.applied && s.applied[p.id] == OnSide(f, NowInFront(s.table, p, pid))
  {
    hide Sound, UniquePids, ValidEnv, PassedOver, NowInFront;
    PartitionKeepsTable(s, env, f, pid);
    hide Partition;
    forall r | r in s.table.cells
      ensures var p := s.table.cells[r];
              AgreesAt(Partition(s, env, f, pid), r) <==>
                (PassedOver(s, r) ==> p.id in s.applied && s.applied[p.id] == OnSide(f, NowInFront(s.table, p, pid)))
    {
      assert Fixed(s, s.table.cells[r]) ==> AgreesAt(s, r);
      hide AgreesAt;
      PartitionAgreesAt(s, env, f, pid, r);
    }
    hide AgreesAt;
  }

  lemma PartitionKeepsTable(s: State, env: Env, f: ForegroundAssignments, pid: Pid)
    ensures var u := Partition(s, env, f, pid);
            u.table == s.table && u.pipewireProcesses == s.pipewireProcesses && u.config == s.config
  {
  }

  // ---------------------------------------------------------------------------------------
  // A change of the foreground
  // ---------------------------------------------------------------------------------------

  /**
   * Setting the foreground process keeps the agreement exactly when, after the scan, each assignable
   * process that the pid index does not find, or that is held while there is no pipewire profile,
   * is due the profile of its new side already. Nothing is asked of the pid index.
   */
  lemma SetForegroundAgreesExactly(s: State, env: Env, pid: Pid)
    requires WellFormed(s) && Steady(s.table, env) && ValidEnv(env) && Agrees(s)
    ensures var a := AssignChildren(s, env, pid);
            Agrees(SetForeground(s, env, pid)) <==>
              a.config.foreground.None? ||
              forall r :: r in a.table.cells && PassedOver(a, r) ==>
                            Due(a.config, a, a.table.cells[r]) ==
                            OnSide(a.config.foreground.value, NowInFront(a.table, a.table.cells[r], pid))
  {
    hide WellFormed, Steady, Current, Grown, Tasks, AssignTasks, Partition, PassedOver, NowInFront, Due, OnSide,
         ValidEnv, FixedAgree;
    ScanKeepsFixed(s, env, Tasks(env.children, pid));
    var a := AssignChildren(s, env, pid);
    if a.config.foreground.Some? {
      assert FixedAgree(a) by { AgreesFixed(a); }
      assert Sound(a.table) && UniquePids(a.table.cells) by { SteadyParts(a, env); }
      hide Sound, UniquePids;
      PartitionAgreesExactly(a, env, a.config.foreground.value, pid);
      forall r | r in a.table.cells && PassedOver(a, r)
        ensures var p := a.table.cells[r]; p.id in a.applied && a.applied[p.id] == Due(a.config, a, p)
      {
        PassedOverIsAssignable(a, r);
        assert AgreesAt(a, r);
        hide AgreesAt;
        AgreedIsDue(a, r);
      }
    }
  }

  lemma SteadyParts(s: State, env: Env)
    requires WellFormed(s) && Steady(s.table, env)
    ensures Sound(s.table) && UniquePids(s.table.cells) && PipewireSound(s)
  {
  }

  lemma PassedOverIsAssignable(s: State, r: Ref)
    requires r in s.table.cells && PassedOver(s, r)
    ensures s.table.cells[r].assignedPriority == Assignable
  {
  }

  // ---------------------------------------------------------------------------------------
  // A pipewire addition
  // ---------------------------------------------------------------------------------------

  /** The pid is tracked and assignable, but the pid index does not find it. */
  ghost predicate LostAssignable(t: Table, r: Ref, pid: Pid)
    requires r in t.cells
  {
    t.cells[r].id == pid && pid !in t.byPid && t.cells[r].assignedPriority == Assignable
  }

  lemma HoldStaysRight(s: State, env: Env, profile: Profile, pid: Pid, r: Ref)
    requires Sound(s.table) && UniquePids(s.table.cells) && ValidEnv(env) && r in s.table.cells
    requires s.config.pipewire == Some(profile) && pid in s.pipewireProcesses
    requires AgreesAt(s, r) || (s.table.cells[r].id == pid && s.table.cells[r].assignedPriority == Assignable)
    ensures r in Hold(s, env, profile, pid).table.cells
    ensures AgreesAt(Hold(s, env, profile, pid), r) <==> (LostAssignable(s.table, r, pid) ==> AgreesAt(s, r))
  {
    hide Hold, Sound, UniquePids, DescendedFrom, ValidEnv, AgreesAt;
    HoldAt(s, env, profile, pid, r);
    var u, p := Hold(s, env, profile, pid), s.table.cells[r];
    if p.id in s.table.byPid && p.assignedPriority == Assignable && (p.id == pid || DescendedFrom(s.table, p, pid)) {
      HeldAgrees(u, r, profile);
    } else {
      SameCellAgrees(s, u, r);
    }
  }

  lemma SameCellAgrees(s: State, u: State, r: Ref)
    requires SameLists(s, u) && r in s.table.cells && r in u.table.cells && u.table.cells[r] == s.table.cells[r]
    requires SameAt(s.applied, u.applied, s.table.cells[r].id)
    ensures AgreesAt(s, r) <==> AgreesAt(u, r)
  {
    hide Pick;
    SamePick(s, u, s.table.cells[r]);
  }

  /** Being on the list changes what the process itself is due, and nobody else. */
  lemma ListedAgreesAt(s: State, pid: Pid, r: Ref)
    requires s.config.pipewire.Some? && pid !in s.pipewireProcesses && r in s.table.cells && AgreesAt(s, r)
    ensures var u, p := s.(pipewireProcesses := s.pipewireProcesses + [pid]), s.table.cells[r];
            AgreesAt(u, r) <==>
              (p.id == pid && p.assignedPriority == Assignable ==> Due(s.config, s, p) == s.config.pipewire.value)
  {
    var u, p := s.(pipewireProcesses := s.pipewireProcesses + [pid]), s.table.cells[r];
    assert PipewireAssigned(u, p) <==> PipewireAssigned(s, p) || p.id == pid;
    if p.id == pid && p.assignedPriority == Assignable {
      AgreedIsDue(s, r);
      AgreedIsDue(u, r);
      assert Due(u.config, u, p) == s.config.pipewire.value;
      hide Due, AgreesAt;
    } else {
      hide PipewireAssigned;
      StillAgrees(s, u, r);
    }
  }

  lemma HoldAgreesExactly(s: State, env: Env, profile: Profile, pid: Pid)
    requires Sound(s.table) && UniquePids(s.table.cells) && ValidEnv(env)
    requires s.config.pipewire == Some(profile) && pid in s.pipewireProcesses
    requires forall r :: r in s.table.cells ==>
                           AgreesAt(s, r) || (s.table.cells[r].id == pid && s.table.cells[r].assignedPriority == Assignable)
    ensures Agrees(Hold(s, env, profile, pid)) <==>
              forall r :: r in s.table.cells && LostAssignable(s.table, r, pid) ==> AgreesAt(s, r)
  {
    hide Sound, UniquePids, ValidEnv, AgreesAt, LostAssignable;
    var u := Hold(s, env, profile, pid);
    HoldKeepsCells(s, env, profile, pid);
    hide Hold;
    forall r | r in s.table.cells
      ensures AgreesAt(u, r) <==> (LostAssignable(s.table, r, pid) ==> AgreesAt(s, r))
    {
      HoldStaysRight(s, env, profile, pid, r);
    }
  }

  lemma HoldKeepsCells(s: State, env: Env, profile: Profile, pid: Pid)
    ensures Hold(s, env, profile, pid).table.cells.Keys == s.table.cells.Keys
  {
    hide ApplyAll, HoldWrites;
  }

  lemma JoiningAgreesExactly(a: State, env: Env, pid: Pid)
    requires Sound(a.table) && UniquePids(a.table.cells) && ValidEnv(env) && Agrees(a)
    requires a.config.pipewire.Some? && pid !in a.pipewireProcesses
    ensures Agrees(Hold(a.(pipewireProcesses := a.pipewireProcesses + [pid]), env, a.config.pipewire.value, pid)) <==>
              forall r :: r in a.table.cells && LostAssignable(a.table, r, pid) ==>
                            Due(a.config, a, a.table.cells[r]) == a.config.pipewire.value
  {
    var s2 := a.(pipewireProcesses := a.pipewireProcesses + [pid]);
    hide Sound, UniquePids, ValidEnv, AgreesAt, Due, Hold;
    forall r | r in a.table.cells
      ensures AgreesAt(s2, r) <==>
                (a.table.cells[r].id == pid && a.table.cells[r].assignedPriority == Assignable ==>
                   Due(a.config, a, a.table.cells[r]) == a.config.pipewire.value)
    {
      ListedAgreesAt(a, pid, r);
    }
    HoldAgreesExactly(s2, env, a.config.pipewire.value, pid);
  }

  /**
   * Adding a pipewire process keeps the agreement exactly when its record, if it is assignable but the
   * pid index does not find it, has the pipewire profile already: nothing is applied to it.
   */
  lemma SetPipewireAgreesExactly(s: State, env: Env, pid: Pid)
    requires WellFormed(s) && Steady(s.table, env) && ValidEnv(env) && Agrees(s)
    ensures var a := AssignChildren(s, env, pid);
            Agrees(SetPipewire(s, env, pid)) <==>
              || a.config.pipewire.None?
              || pid in a.pipewireProcesses
              || forall r :: r in a.table.cells && LostAssignable(a.table, r, pid) ==>
                               Due(a.config, a, a.table.cells[r]) == a.config.pipewire.value
  {
    hide WellFormed, Steady, Current, Grown, Tasks, AssignTasks, Hold, Due, ValidEnv, FixedAgree, AgreesAt, Assignment;
    ScanKeepsFixed(s, env, Tasks(env.children, pid));
    var a := AssignChildren(s, env, pid);
    SteadyParts(a, env);
    hide Sound, UniquePids;
    if a.config.pipewire.Some? {
      if pid in a.pipewireProcesses {
        HoldAgreesExactly(a, env, a.config.pipewire.value, pid);
      } else {
        JoiningAgreesExactly(a, env, pid);
      }
    }
  }
}
