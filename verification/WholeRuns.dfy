/** Pipewire events and whole runs: the applied profiles agree with the state after every event. */
module WholeRuns {
  import opened Basics
  import opened Scheduler
  import opened ProcessTable
  import opened TableOperations
  import opened Worklist
  import opened Engine
  import opened EngineInvariants
  import opened Agreement

  /** Agreement carries over when neither the choice nor the applied profile changed. */
  lemma StillAgrees(s: State, u: State, r: Ref)
    requires r in s.table.cells && r in u.table.cells && AgreesAt(s, r)
    requires s.config == u.config && s.foreground == u.foreground && s.foregroundProcesses == u.foregroundProcesses
    requires var p, q := s.table.cells[r], u.table.cells[r];
             && p.id == q.id && p.assignedPriority == q.assignedPriority
             && (p.assignedPriority == Assignable ==> PipewireAssigned(s, p) == PipewireAssigned(u, q))
             && SameAt(s.applied, u.applied, p.id)
    ensures AgreesAt(u, r)
  {
    hide PipewireAssigned;
    assert Pick(s, s.table.cells[r]) == Pick(u, u.table.cells[r]);
    hide Pick;
  }

  lemma HeldAgrees(u: State, r: Ref, profile: Profile)
    requires r in u.table.cells && u.config.pipewire == Some(profile)
    requires var q := u.table.cells[r];
             && q.assignedPriority == Assignable && PipewireAssigned(u, q)
             && q.id in u.applied && u.applied[q.id] == profile
    ensures AgreesAt(u, r)
  {
    hide PipewireAssigned;
  }

  // ---------------------------------------------------------------------------------------
  // What a configuration calls for
  // ---------------------------------------------------------------------------------------

  /** The profile for one side of the foreground, if foreground management is on. */
  ghost function SideProfile(c: SchedulerConfig, front: bool): Option<Profile> {
    if c.foreground.None? then None
    else if front then Some(c.foreground.value.foreground)
    else Some(c.foreground.value.background)
  }

  ghost predicate InFront(s: State, p: Process) {
    s.foreground == Some(p.id) || p.id in s.foregroundProcesses
  }

  /** What a configuration gives an assignable process in this state. */
  ghost function Due(c: SchedulerConfig, s: State, p: Process): Profile {
    if c.pipewire.Some? && PipewireAssigned(s, p) then c.pipewire.value
    else if s.foreground.Some? && SideProfile(c, InFront(s, p)).Some? then SideProfile(c, InFront(s, p)).value
    else NewProfile("default")
  }

  lemma PickIsDue(s: State, c: SchedulerConfig, p: Process)
    ensures var u := s.(config := c);
            && (p.assignedPriority != Assignable ==> Pick(u, p) == Pick(s, p))
            && (p.assignedPriority == Assignable ==> Pick(u, p) == Some(Due(c, s, p)) && Pick(s, p) == Some(Due(s.config, s, p)))
  {
    assert PipewireAssigned(s.(config := c), p) == PipewireAssigned(s, p);
    hide PipewireAssigned;
  }

  /** What an assignable process has applied if the state agrees. */
  lemma AgreedIsDue(s: State, r: Ref)
    requires r in s.table.cells && s.table.cells[r].assignedPriority == Assignable
    ensures var p := s.table.cells[r];
            AgreesAt(s, r) <==> p.id in s.applied && s.applied[p.id] == Due(s.config, s, p)
  {
    hide Pick, Due;
    PickIsDue(s, s.config, s.table.cells[r]);
    assert s.(config := s.config) == s;
  }

  /** The profiles between which the engine switches a process can be told apart, as far as there are any. */
  ghost predicate DistinctProfiles(c: SchedulerConfig) {
    var default := NewProfile("default");
    && (c.pipewire.Some? ==> c.pipewire.value != default)
    && (c.foreground.Some? ==>
          var f := c.foreground.value;
          && f.foreground != f.background && f.foreground != default && f.background != default
          && (c.pipewire.Some? ==> c.pipewire.value != f.foreground && c.pipewire.value != f.background))
  }

  // ---------------------------------------------------------------------------------------
  // Adding a pipewire process
  // ---------------------------------------------------------------------------------------

  lemma HoldAt(s: State, env: Env, profile: Profile, pid: Pid, r: Ref)
    requires Sound(s.table) && UniquePids(s.table.cells) && ValidEnv(env) && r in s.table.cells
    ensures var u, p := Hold(s, env, profile, pid), s.table.cells[r];
            var found := p.id in s.table.byPid && p.assignedPriority == Assignable;
            var below := found && p.id != pid && DescendedFrom(s.table, p, pid);
            && SameLists(s, u) && r in u.table.cells
            && u.table.cells[r] == (if below then p.(pipewireAncestor := Some(pid)) else p)
            && if below || (found && p.id == pid)
               then p.id in u.applied && u.applied[p.id] == profile
               else SameAt(s.applied, u.applied, p.id)
  {
    var t, values := s.table, s.table.byKey.Values;
    ValuesAreCells(t);
    AssignmentWhenFound(t, r);
    assert r in env.order(values);
    hide Sound, UniquePids, DescendedFrom, ValidEnv, Assignment;
    ApplyAllAt(t.cells, env.order(values), HoldWrites(t, pid, profile), s.applied, r);
    hide ApplyAll;
  }

  lemma HoldAgreesAt(s: State, env: Env, profile: Profile, pid: Pid, r: Ref)
    requires Sound(s.table) && Covered(s.table) && ValidEnv(env) && r in s.table.cells
    requires s.config.pipewire == Some(profile) && pid in s.pipewireProcesses
    requires AgreesAt(s, r) || s.table.cells[r].id == pid
    requires s.table.cells[r].assignedPriority != Assignable ==> AgreesAt(s, r)
    ensures r in Hold(s, env, profile, pid).table.cells && AgreesAt(Hold(s, env, profile, pid), r)
  {
    CoveredMeansUnique(s.table);
    HoldAt(s, env, profile, pid, r);
    var u, p := Hold(s, env, profile, pid), s.table.cells[r];
    assert p.id in s.table.byPid;
    hide Hold, Sound, Covered, UniquePids, DescendedFrom, ValidEnv, AgreesAt;
    if p.assignedPriority == Assignable && (p.id == pid || DescendedFrom(s.table, p, pid)) {
      HeldAgrees(u, r, profile);
    } else {
      StillAgrees(s, u, r);
    }
  }

  lemma HoldAgrees(s: State, env: Env, profile: Profile, pid: Pid)
    requires Settled(s) && ValidEnv(env) && s.config.pipewire == Some(profile) && pid in s.pipewireProcesses
    requires forall r :: r in s.table.cells ==>
                           AgreesAt(s, r) || (s.table.cells[r].id == pid && s.table.cells[r].assignedPriority == Assignable)
    ensures Settled(Hold(s, env, profile, pid)) && Agrees(Hold(s, env, profile, pid))
  {
    HoldKeepsWellFormed(s, env, profile, pid);
    HoldKeepsShape(s.table, pid, s.table.byKey.Values);
    ShapeKeepsCovered(s.table, Hold(s, env, profile, pid).table);
    var u := Hold(s, env, profile, pid);
    assert u.table.cells.Keys == s.table.cells.Keys;
    forall r | r in u.table.cells
      ensures AgreesAt(u, r)
    {
      HoldAgreesAt(s, env, profile, pid, r);
    }
    hide WellFormed, Covered, Hold;
  }

  lemma ListingKeepsAgreement(s: State, pid: Pid)
    requires Settled(s) && Agrees(s) && pid !in s.pipewireProcesses
    ensures var u := s.(pipewireProcesses := s.pipewireProcesses + [pid]);
            && Settled(u)
            && forall r :: r in u.table.cells ==>
                 AgreesAt(u, r) || (u.table.cells[r].id == pid && u.table.cells[r].assignedPriority == Assignable)
  {
    ListingKeepsWellFormed(s, pid);
    var u := s.(pipewireProcesses := s.pipewireProcesses + [pid]);
    forall r | r in u.table.cells && !(u.table.cells[r].id == pid && u.table.cells[r].assignedPriority == Assignable)
      ensures AgreesAt(u, r)
    {
      assert AgreesAt(s, r);
      assert u.table.cells[r].assignedPriority == Assignable ==>
          PipewireAssigned(u, u.table.cells[r]) == PipewireAssigned(s, s.table.cells[r]);
    }
    hide WellFormed, Covered;
  }

  lemma SetPipewireAgrees(s: State, env: Env, pid: Pid)
    requires Settled(s) && ValidEnv(env) && Agrees(s)
    ensures Settled(SetPipewire(s, env, pid)) && Agrees(SetPipewire(s, env, pid))
    ensures SetPipewire(s, env, pid).config == s.config
  {
    hide Settled, Agrees, AssignChildren, Hold, Assignment, ValidEnv;
    AssignChildrenKeepAgreement(s, env, pid);
    var s1 := AssignChildren(s, env, pid);
    assert Agrees(s1) ==> forall r :: r in s1.table.cells ==> AgreesAt(s1, r) by { AgreesEverywhere(s1); }
    if s1.config.pipewire.Some? {
      var profile := s1.config.pipewire.value;
      assert Hold(s1, env, profile, pid).config == s1.config by { HoldKeepsConfig(s1, env, profile, pid); }
      if pid in s1.pipewireProcesses {
        HoldAgrees(s1, env, profile, pid);
      } else {
        var s2 := s1.(pipewireProcesses := s1.pipewireProcesses + [pid]);
        ListingKeepsAgreement(s1, pid);
        HoldAgrees(s2, env, profile, pid);
        HoldKeepsConfig(s2, env, profile, pid);
      }
    }
  }

  lemma AgreesEverywhere(s: State)
    ensures Agrees(s) <==> forall r :: r in s.table.cells ==> AgreesAt(s, r)
  {
  }

  lemma HoldKeepsConfig(s: State, env: Env, profile: Profile, pid: Pid)
    ensures Hold(s, env, profile, pid).config == s.config
  {
  }

  // ---------------------------------------------------------------------------------------
  // Removing a pipewire process
  // ---------------------------------------------------------------------------------------

  lemma RemovalAt(s: State, env: Env, pid: Pid, r: Ref)
    requires WellFormed(s) && UniquePids(s.table.cells) && ValidEnv(env) && pid in s.pipewireProcesses && r in s.table.cells
    ensures var u, p := RemovePipewire(s, env, pid), s.table.cells[r];
            var letGo := p.pipewireAncestor == Some(pid) || p.id == pid;
            && u.config == s.config && u.foreground == s.foreground && u.foregroundProcesses == s.foregroundProcesses
            && (forall q :: q in u.pipewireProcesses <==> q in s.pipewireProcesses && q != pid)
            && r in u.table.cells
            && u.table.cells[r] == (if letGo then p.(pipewireAncestor := None) else p)
            && if s.config.foreground.Some? && letGo && p.assignedPriority == Assignable && p.id in s.table.byPid then
                 && p.id in u.applied
                 && u.applied[p.id] == if p.id in s.foregroundProcesses then s.config.foreground.value.foreground
                                       else s.config.foreground.value.background
               else
                 SameAt(s.applied, u.applied, p.id)
  {
    var t, values, u := s.table, s.table.byKey.Values, RemovePipewire(s, env, pid);
    ValuesAreCells(t);
    AssignmentWhenFound(t, r);
    WithoutIs(s.pipewireProcesses, pid);
    assert r in env.order(values);
    hide WellFormed, Sound, UniquePids, Without, ValidEnv, Assignment;
    ApplyAllAt(t.cells, env.order(values), ReleaseWrites(s, pid), s.applied, r);
    hide ApplyAll;
  }

  /** The removal applies the profile of a side to what the pid index finds, and nothing to the rest. */
  ghost function LeftByRemoval(s: State, p: Process): Profile {
    if s.config.foreground.Some? && p.id in s.table.byPid then SideProfile(s.config, p.id in s.foregroundProcesses).value
    else Due(s.config, s, p)
  }

  /** Whoever is on the list in its own right stays due the pipewire profile. */
  ghost function DueAfterRemoval(s: State, pid: Pid, p: Process): Profile {
    if s.config.pipewire.Some? && p.id != pid && p.id in s.pipewireProcesses then s.config.pipewire.value
    else if s.foreground.Some? && s.config.foreground.Some? then SideProfile(s.config, InFront(s, p)).value
    else NewProfile("default")
  }

  lemma RemovalAgreesAt(s: State, env: Env, pid: Pid, r: Ref)
    requires WellFormed(s) && UniquePids(s.table.cells) && ValidEnv(env) && pid in s.pipewireProcesses
    requires r in s.table.cells && AgreesAt(s, r)
    ensures var u, p := RemovePipewire(s, env, pid), s.table.cells[r];
            && r in u.table.cells
            && (AgreesAt(u, r) <==>
                  (LetGo(p, pid) && p.assignedPriority == Assignable ==> LeftByRemoval(s, p) == DueAfterRemoval(s, pid, p)))
  {
    hide RemovePipewire, WellFormed, UniquePids, ValidEnv, AgreesAt;
    RemovalAt(s, env, pid, r);
    var u, p := RemovePipewire(s, env, pid), s.table.cells[r];
    if LetGo(p, pid) && p.assignedPriority == Assignable {
      AgreedIsDue(s, r);
      AgreedIsDue(u, r);
      ReleasedIsDue(s, u, pid, p);
      hide Due, DueAfterRemoval, PipewireAssigned;
    } else {
      StillAgrees(s, u, r);
    }
  }

  lemma ReleasedIsDue(s: State, u: State, pid: Pid, p: Process)
    requires u.config == s.config && u.foreground == s.foreground && u.foregroundProcesses == s.foregroundProcesses
    requires forall q :: q in u.pipewireProcesses <==> q in s.pipewireProcesses && q != pid
    ensures Due(u.config, u, p.(pipewireAncestor := None)) == DueAfterRemoval(s, pid, p)
  {
  }

  lemma RemovalKeepsCells(s: State, env: Env, pid: Pid)
    ensures RemovePipewire(s, env, pid).table.cells.Keys == s.table.cells.Keys
  {
    hide ApplyAll, ReleaseWrites;
  }

  /**
   * Under any configuration, and whatever the pid index finds: removing a pipewire process keeps the
   * applied profiles in agreement with the state exactly when each assignable process that is let
   * go of is left with the profile that it is due afterwards.
   */
  lemma RemovalAgreesExactly(s: State, env: Env, pid: Pid)
    requires WellFormed(s) && UniquePids(s.table.cells) && ValidEnv(env) && Agrees(s) && pid in s.pipewireProcesses
    ensures Agrees(RemovePipewire(s, env, pid)) <==>
              forall r :: r in s.table.cells && LetGo(s.table.cells[r], pid) && s.table.cells[r].assignedPriority == Assignable ==>
                            LeftByRemoval(s, s.table.cells[r]) == DueAfterRemoval(s, pid, s.table.cells[r])
  {
    hide RemovePipewire, WellFormed, UniquePids, ValidEnv, LetGo, LeftByRemoval, DueAfterRemoval;
    RemovalKeepsCells(s, env, pid);
    forall r | r in s.table.cells
      ensures var u, p := RemovePipewire(s, env, pid), s.table.cells[r];
              AgreesAt(u, r) <==>
                (LetGo(p, pid) && p.assignedPriority == Assignable ==> LeftByRemoval(s, p) == DueAfterRemoval(s, pid, p))
    {
      assert AgreesAt(s, r);
      hide AgreesAt;
      RemovalAgreesAt(s, env, pid, r);
    }
    hide AgreesAt;
  }

  /**
   * With foreground management, a process that can be found is let go of cleanly with a foreground set
   * and no place of its own on the list. Any other process keeps its profile: it is let
   * go of cleanly only with a place on the list, or if there is no pipewire profile.
   */
  ghost predicate CleanlyLetGo(s: State, pid: Pid, p: Process) {
    var listed := p.id != pid && p.id in s.pipewireProcesses;
    if s.config.foreground.Some? && p.id in s.table.byPid then s.foreground.Some? && (s.config.pipewire.Some? ==> !listed)
    else s.config.pipewire.Some? ==> listed
  }

  ghost predicate CleanRemoval(s: State, pid: Pid) {
    forall r :: r in s.table.cells && LetGo(s.table.cells[r], pid) && s.table.cells[r].assignedPriority == Assignable ==>
                  CleanlyLetGo(s, pid, s.table.cells[r])
  }

  lemma CleanlyLetGoExactly(s: State, pid: Pid, r: Ref)
    requires PipewireSound(s) && ForegroundListed(s) && pid in s.pipewireProcesses
    requires r in s.table.cells && LetGo(s.table.cells[r], pid)
    ensures CleanlyLetGo(s, pid, s.table.cells[r]) ==>
              LeftByRemoval(s, s.table.cells[r]) == DueAfterRemoval(s, pid, s.table.cells[r])
    ensures DistinctProfiles(s.config) && LeftByRemoval(s, s.table.cells[r]) == DueAfterRemoval(s, pid, s.table.cells[r]) ==>
              CleanlyLetGo(s, pid, s.table.cells[r])
  {
  }

  /** Under a configuration whose profiles can be told apart, that is so exactly when the removal is clean. */
  lemma RemovalIsCleanExactly(s: State, env: Env, pid: Pid)
    requires WellFormed(s) && UniquePids(s.table.cells) && ForegroundListed(s) && ValidEnv(env) && Agrees(s)
    requires pid in s.pipewireProcesses && DistinctProfiles(s.config)
    ensures Agrees(RemovePipewire(s, env, pid)) <==> CleanRemoval(s, pid)
  {
    hide RemovePipewire, Sound, Linked, UniquePids, ForegroundListed, ValidEnv, Agrees, LetGo, LeftByRemoval,
         DueAfterRemoval, CleanlyLetGo, PipewireSound, DistinctProfiles;
    RemovalAgreesExactly(s, env, pid);
    forall r | r in s.table.cells && LetGo(s.table.cells[r], pid)
      ensures CleanlyLetGo(s, pid, s.table.cells[r]) <==>
                LeftByRemoval(s, s.table.cells[r]) == DueAfterRemoval(s, pid, s.table.cells[r])
    {
      CleanlyLetGoExactly(s, pid, r);
    }
  }

  lemma CleanRemovalAgrees(s: State, env: Env, pid: Pid)
    requires Settled(s) && ValidEnv(env) && Agrees(s) && pid in s.pipewireProcesses && CleanRemoval(s, pid)
    ensures Agrees(RemovePipewire(s, env, pid))
  {
    hide RemovePipewire, Sound, Linked, UniquePids, ForegroundListed, ValidEnv, Agrees, LetGo, LeftByRemoval,
         DueAfterRemoval, CleanlyLetGo, Covered, PipewireSound;
    CoveredMeansUnique(s.table);
    RemovalAgreesExactly(s, env, pid);
    forall r | r in s.table.cells && LetGo(s.table.cells[r], pid) && s.table.cells[r].assignedPriority == Assignable
      ensures LeftByRemoval(s, s.table.cells[r]) == DueAfterRemoval(s, pid, s.table.cells[r])
    {
      CleanlyLetGoExactly(s, pid, r);
    }
  }

  lemma RemovalKeepsSettled(s: State, env: Env, pid: Pid)
    requires Settled(s)
    ensures Settled(RemovePipewire(s, env, pid))
    ensures RemovePipewire(s, env, pid).config == s.config
    ensures RemovePipewire(s, env, pid).table.cells.Keys == s.table.cells.Keys
  {
    RemovePipewireKeepsWellFormed(s, env, pid);
    if pid in s.pipewireProcesses {
      ReleaseKeepsShape(s.table, pid, s.table.byKey.Values);
      ShapeKeepsCovered(s.table, RemovePipewire(s, env, pid).table);
      hide WellFormed, Covered, Without, ReleaseSome;
    }
  }

  // ---------------------------------------------------------------------------------------
  // Reloading the configuration
  // ---------------------------------------------------------------------------------------

  /**
   * A reload touches no process: it keeps the agreement exactly when no assignable process is due
   * another profile than before. What was decided under the old configuration stays decided.
   */
  lemma ReloadAgreesExactly(s: State, c: SchedulerConfig)
    requires Agrees(s)
    ensures Agrees(s.(config := c)) <==>
              forall r :: r in s.table.cells && s.table.cells[r].assignedPriority == Assignable ==>
                            Due(c, s, s.table.cells[r]) == Due(s.config, s, s.table.cells[r])
  {
    hide Pick, Due, PipewireAssigned;
    var u := s.(config := c);
    forall r | r in s.table.cells
      ensures AgreesAt(u, r) <==>
                (s.table.cells[r].assignedPriority == Assignable ==>
                   Due(c, s, s.table.cells[r]) == Due(s.config, s, s.table.cells[r]))
    {
      PickIsDue(s, c, s.table.cells[r]);
      assert AgreesAt(s, r);
    }
    hide AgreesAt;
  }

  /** The profiles the engine switches between carry their own names. */
  ghost predicate ProfilesNamed(c: SchedulerConfig) {
    && (c.pipewire.Some? ==> c.pipewire.value.name == "pipewire")
    && (c.foreground.Some? ==>
          c.foreground.value.foreground.name == "foreground" && c.foreground.value.background.name == "background")
  }

  /** For a process held for pipewire the pipewire profile stays; for any other one that of its side. */
  ghost predicate ReloadKeeps(s: State, c: SchedulerConfig, p: Process) {
    && (PipewireAssigned(s, p) ==> c.pipewire == s.config.pipewire)
    && (s.foreground.Some? && (PipewireAssigned(s, p) ==> c.pipewire.None?) ==>
          SideProfile(c, InFront(s, p)) == SideProfile(s.config, InFront(s, p)))
  }

  lemma NamedDueExactly(s: State, c: SchedulerConfig, p: Process)
    requires ProfilesNamed(s.config) && ProfilesNamed(c)
    ensures Due(c, s, p) == Due(s.config, s, p) <==> ReloadKeeps(s, c, p)
  {
    hide PipewireAssigned;
    var names := ["pipewire", "foreground", "background", "default"];
    assert names[0][0] != names[1][0] && names[0][0] != names[2][0] && names[0][0] != names[3][0];
    assert names[1][0] != names[2][0] && names[1][0] != names[3][0] && names[2][0] != names[3][0];
    assert NewProfile("default").name == "default";
  }

  /**
   * Between configurations whose profiles carry their own names, whether or not they manage the
   * foreground and pipewire: a reload keeps the agreement exactly when it keeps the pipewire profile
   * if an assignable process is held for it, and the profile of each side of the foreground that has
   * an assignable process without a pipewire profile. Adding a profile or dropping one is a change.
   */
  lemma NamedReloadAgreesExactly(s: State, c: SchedulerConfig)
    requires Agrees(s) && ProfilesNamed(s.config) && ProfilesNamed(c)
    ensures Agrees(s.(config := c)) <==>
              forall r :: r in s.table.cells && s.table.cells[r].assignedPriority == Assignable ==>
                            ReloadKeeps(s, c, s.table.cells[r])
  {
    hide Due, ReloadKeeps, Agrees, ProfilesNamed;
    ReloadAgreesExactly(s, c);
    forall r | r in s.table.cells
      ensures Due(c, s, s.table.cells[r]) == Due(s.config, s, s.table.cells[r]) <==> ReloadKeeps(s, c, s.table.cells[r])
    {
      NamedDueExactly(s, c, s.table.cells[r]);
    }
  }

  // ---------------------------------------------------------------------------------------
  // Whole runs
  // ---------------------------------------------------------------------------------------

  /** The input moves no tracked process to another parent, and removes pipewire processes cleanly. */
  ghost predicate Orderly(s: State, input: Input) {
    && ValidEnv(input.env)
    && TrueParents(s.table, input.env)
    && match input.event
       case ExecCreate(pid, parentPid, _, _) =>
         && SameParent(s.table, pid, parentPid)
         && (input.env.listing.Some? && pid in input.env.listing.value && input.env.cmdline(pid).Some? ==>
               input.env.parentId(pid).GetOr(0) == parentPid)
       case PipewireRemove(pid) => pid in s.pipewireProcesses ==> CleanRemoval(s, pid)
       case ReloadConfiguration(config) => config == s.config
       case _ => true
  }

  lemma SetForegroundOrderly(s: State, env: Env, pid: Pid)
    requires Settled(s) && ValidEnv(env) && Agrees(s) && ListCounts(s) && TrueParents(s.table, env)
    ensures var u := Step(s, Input(SetForegroundProcess(pid), env));
            Settled(u) && Agrees(u) && u.config == s.config
  {
    AgreesFixed(s);
    SetForegroundAgrees(s, env, pid);
    ChildrenKeepTrueParents(s, env, pid);
    hide Settled, Agrees, FixedAgree, AssignChildren, GarbageClean, TrueParents;
    assert SetForeground(s, env, pid).table == AssignChildren(s, env, pid).table;
    hide SetForeground;
    GarbageCleanKeepsAgreement(SetForeground(s, env, pid), env);
  }

  lemma AgreesFixed(s: State)
    requires Agrees(s)
    ensures FixedAgree(s)
  {
  }

  /** A record read in this world carries the parent that this world reports. */
  lemma TaskKeepsTrueParents(s: State, env: Env, pid: Pid)
    requires Settled(s) && TrueParents(s.table, env)
    ensures TrueParents(AssignTask(s, env, pid).table, env)
  {
    if pid !in s.table.byPid && env.parentId(pid).Some? && env.cmdline(pid).Some? {
      var cmdline := env.cmdline(pid).value;
      NewKeepsTrueParents(s, env, pid, env.parentId(pid).value, BaseName(cmdline), cmdline);
      hide AssignNew, Settled, TrueParents;
    }
  }

  lemma NewKeepsTrueParents(s: State, env: Env, pid: Pid, parentPid: Pid, name: string, cmdline: string)
    requires Settled(s) && TrueParents(s.table, env)
    requires env.listing.Some? && pid in env.listing.value && env.cmdline(pid).Some? ==> env.parentId(pid).GetOr(0) == parentPid
    ensures TrueParents(AssignNew(s, env, pid, parentPid, name, cmdline).table, env)
  {
    hide AssignNew, WellFormed, Covered, RecordsOne, InsertRef;
    var t, u := s.table, AssignNew(s, env, pid, parentPid, name, cmdline).table;
    var p := CreatedProcess(t, env, pid, parentPid, name, cmdline);
    assert p.HashId() == Key(pid, parentPid) && p.id == pid;
    hide CreatedProcess;
    SettledParts(s);
    SoundIsKeyed(t);
    AssignNewRecordsOne(s, env, pid, parentPid, name, cmdline);
    RecordedCell(t, u, p, s.pipewireProcesses);
    hide Sound, Keyed;
    if env.listing.Some? {
      forall q | q in env.listing.value && env.cmdline(q).Some?
        ensures SameParent(u, q, env.parentId(q).GetOr(0))
      {
        assert SameParent(t, q, env.parentId(q).GetOr(0));
        hide TrueParents;
        RecordedParent(t, u, p, s.pipewireProcesses, q);
        hide SameParent;
      }
    }
  }

  lemma SoundIsKeyed(t: Table)
    requires Sound(t)
    ensures Keyed(t) && PidIndexed(t)
  {
  }

  /** The pid index reports the recorded parent for the recorded pid, and what it did for all others. */
  lemma RecordedParent(t: Table, u: Table, p: Process, pipewire: seq<Pid>, q: Pid)
    requires Sound(t) && RecordsOne(t, u, p, pipewire)
    requires InsertRef(t, p) in u.cells && u.cells[InsertRef(t, p)].HashId() == p.HashId()
    ensures forall parent :: SameParent(t, q, parent) && (q == p.id ==> parent == p.parentId) ==> SameParent(u, q, parent)
  {
    hide SameButFate, Linked;
    assert u.byPid == Insert(t, p).byPid;
    if q in u.byPid && u.byPid[q] != InsertRef(t, p) && u.byPid[q] in u.cells {
      assert q in t.byPid && u.byPid[q] == t.byPid[q];
    }
  }

  lemma {:induction false} TasksKeepTrueParents(s: State, env: Env, tasks: seq<Pid>)
    requires Settled(s) && TrueParents(s.table, env)
    ensures TrueParents(AssignTasks(s, env, tasks).table, env)
  {
    hide Settled, TrueParents, AssignTask;
    if tasks != [] {
      var before := tasks[..|tasks| - 1];
      TasksKeepTrueParents(s, env, before);
      AssignTasksKeepAgreement(s, env, before);
      TaskKeepsTrueParents(AssignTasks(s, env, before), env, tasks[|tasks| - 1]);
    }
  }

  lemma ChildrenKeepTrueParents(s: State, env: Env, pid: Pid)
    requires Settled(s) && TrueParents(s.table, env)
    ensures TrueParents(AssignChildren(s, env, pid).table, env)
  {
    hide Settled, TrueParents, AssignTasks, Tasks;
    TasksKeepTrueParents(s, env, Tasks(env.children, pid));
  }

  lemma ExecCreateOrderly(s: State, env: Env, pid: Pid, parentPid: Pid, name: string, cmdline: string)
    requires Settled(s) && Agrees(s) && Orderly(s, Input(ExecCreate(pid, parentPid, name, cmdline), env))
    ensures var u := Step(s, Input(ExecCreate(pid, parentPid, name, cmdline), env));
            Settled(u) && Agrees(u) && u.config == s.config
  {
    var s1 := AssignNew(s, env, pid, parentPid, name, cmdline);
    AssignNewKeepsWellFormed(s, env, pid, parentPid, name, cmdline);
    AssignNewRecordsOne(s, env, pid, parentPid, name, cmdline);
    AssignNewKeepsCovered(s, env, pid, parentPid, name, cmdline);
    AssignNewKeepsAgreement(s, env, pid, parentPid, name, cmdline);
    NewKeepsTrueParents(s, env, pid, parentPid, name, cmdline);
    hide AssignNew, AssignChildren, GarbageClean, WellFormed, Covered, TrueParents, Agrees, RecordsOne, SameParent;
    ChildrenKeepTrueParents(s1, env, pid);
    AssignChildrenKeepAgreement(s1, env, pid);
    GarbageCleanKeepsAgreement(AssignChildren(s1, env, pid), env);
  }

  lemma PipewireAddOrderly(s: State, env: Env, pid: Pid)
    requires Settled(s) && ValidEnv(env) && Agrees(s) && TrueParents(s.table, env)
    ensures var u := Step(s, Input(PipewireAdd(pid), env));
            Settled(u) && Agrees(u) && u.config == s.config
  {
    hide Settled, Agrees, AssignChildren, GarbageClean, SetPipewire, TrueParents, ValidEnv;
    SetPipewireAgrees(s, env, pid);
    ChildrenKeepTrueParents(s, env, pid);
    HoldingKeepsTrueParents(s, env, pid);
    GarbageCleanKeepsAgreement(SetPipewire(s, env, pid), env);
  }

  lemma HoldingKeepsTrueParents(s: State, env: Env, pid: Pid)
    requires TrueParents(AssignChildren(s, env, pid).table, env)
    ensures TrueParents(SetPipewire(s, env, pid).table, env)
  {
    var t, u := AssignChildren(s, env, pid).table, SetPipewire(s, env, pid).table;
    HoldKeepsShape(t, pid, t.byKey.Values);
    hide AssignChildren, HoldSome, Assignment, HoldWrites;
    assert t == u || SameShape(t, u);
    hide SetPipewire;
    if env.listing.Some? && SameShape(t, u) {
      forall q | q in env.listing.value && env.cmdline(q).Some?
        ensures SameParent(u, q, env.parentId(q).GetOr(0))
      {
        assert SameParent(t, q, env.parentId(q).GetOr(0));
        assert q in t.byPid && t.byPid[q] in t.cells ==> SameButFate(t.cells[t.byPid[q]], u.cells[t.byPid[q]]);
      }
    }
  }

  lemma RefreshOrderly(s: State, env: Env)
    requires Settled(s) && ValidEnv(env) && Agrees(s) && ListCounts(s) && TrueParents(s.table, env)
    ensures Settled(ProcessMapRefresh(s, env)) && Agrees(ProcessMapRefresh(s, env))
    ensures ProcessMapRefresh(s, env).config == s.config
  {
    hide Settled, Agrees, ProcessMapRefresh, TrueParents, ValidEnv;
    if env.listing.Some? {
      RefreshAgrees(s, env);
    } else {
      UnlistedRefreshKeepsAgreement(s, env);
    }
  }

  lemma PipewireRemoveOrderly(s: State, env: Env, pid: Pid)
    requires Settled(s) && ValidEnv(env) && Agrees(s)
    requires pid in s.pipewireProcesses ==> CleanRemoval(s, pid)
    ensures Settled(RemovePipewire(s, env, pid)) && Agrees(RemovePipewire(s, env, pid))
    ensures RemovePipewire(s, env, pid).config == s.config
  {
    hide Settled, Agrees, CleanRemoval, ValidEnv;
    RemovalKeepsSettled(s, env, pid);
    if pid in s.pipewireProcesses {
      CleanRemovalAgrees(s, env, pid);
    }
  }

  lemma StepKeepsListCounts(s: State, input: Input)
    requires WellFormed(s) && ListCounts(s) && Step(s, input).config == s.config
    ensures ListCounts(Step(s, input))
  {
    hide WellFormed, Step;
    StepOnList(s, input);
    var after := Step(s, input).pipewireProcesses;
    assert |after| > 0 ==> after[0] in after;
  }

  /** Every orderly event keeps the applied profiles in agreement with the state. */
  lemma OrderlyStepAgrees(s: State, input: Input)
    requires Settled(s) && Agrees(s) && ListCounts(s) && Orderly(s, input)
    ensures Settled(Step(s, input)) && Agrees(Step(s, input)) && ListCounts(Step(s, input)) && Step(s, input).config == s.config
  {
    hide WellFormed, Covered, Agrees, TrueParents, SameParent, ValidEnv, CleanRemoval, ListCounts, Step;
    OrderlyEventAgrees(s, input);
    StepKeepsListCounts(s, input);
  }

  lemma OrderlyEventAgrees(s: State, input: Input)
    requires Settled(s) && Agrees(s) && ListCounts(s) && Orderly(s, input)
    ensures Settled(Step(s, input)) && Agrees(Step(s, input)) && Step(s, input).config == s.config
  {
    hide Settled, Agrees, TrueParents, SameParent, ValidEnv, CleanRemoval, ProcessMapRefresh, SetForeground,
         SetPipewire, GarbageClean, RemovePipewire, AssignNew, AssignChildren;
    var env := input.env;
    match input.event
    case ExecCreate(pid, parentPid, name, cmdline) =>
      ExecCreateOrderly(s, env, pid, parentPid, name, cmdline);
    case RefreshProcessMap =>
      RefreshOrderly(s, env);
    case SetForegroundProcess(pid) =>
      SetForegroundOrderly(s, env, pid);
    case PipewireAdd(pid) =>
      PipewireAddOrderly(s, env, pid);
    case PipewireRemove(pid) =>
      PipewireRemoveOrderly(s, env, pid);
    case ReloadConfiguration(config) =>
      assert Step(s, input) == s;
  }

  /** Each input of the run is orderly in the state in which it arrives. */
  ghost predicate OrderlyRun(s: State, inputs: seq<Input>) {
    forall i :: 0 <= i < |inputs| ==> Orderly(Run(s, inputs[..i]), inputs[i])
  }

  lemma {:induction false} OrderlyRunAgrees(s: State, inputs: seq<Input>)
    requires Settled(s) && Agrees(s) && ListCounts(s) && OrderlyRun(s, inputs)
    ensures var u := Run(s, inputs); Settled(u) && Agrees(u) && ListCounts(u) && u.config == s.config
  {
    hide Settled, Agrees, ListCounts, Orderly, Step;
    if inputs != [] {
      var init := inputs[..|inputs| - 1];
      forall i | 0 <= i < |init|
        ensures Orderly(Run(s, init[..i]), init[i])
      {
        assert init[..i] == inputs[..i];
      }
      OrderlyRunAgrees(s, init);
      OrderlyStepAgrees(Run(s, init), inputs[|inputs| - 1]);
    }
  }

  /**
   * From start-up and through every orderly run, under any configuration: the profile last applied to a
   * process with a configured profile is that profile, and the one last applied to an assignable
   * process is the pipewire, foreground or background profile that its present state calls for.
   */
  lemma AppliedProfilesAgree(config: SchedulerConfig, inputs: seq<Input>, r: Ref)
    requires OrderlyRun(Initial(config), inputs)
    requires r in Run(Initial(config), inputs).table.cells
    ensures var s := Run(Initial(config), inputs);
            var p := s.table.cells[r];
            && (p.assignedPriority.Config? ==> p.id in s.applied && s.applied[p.id] == p.assignedPriority.profile)
            && (p.assignedPriority == Assignable ==>
                  && p.id in s.applied
                  && if PipewireAssigned(s, p) then config.pipewire == Some(s.applied[p.id])
                     else s.applied[p.id] ==
                          if s.foreground.None? || config.foreground.None? then NewProfile("default")
                          else if p.id in s.foregroundProcesses then config.foreground.value.foreground
                          else config.foreground.value.background)
  {
    hide Run, OrderlyRun, Sound, Linked, Covered, PipewireAssigned;
    var s := Run(Initial(config), inputs);
    InitialAgrees(config);
    OrderlyRunAgrees(Initial(config), inputs);
    assert AgreesAt(s, r);
    if PipewireAssigned(s, s.table.cells[r]) {
      HeldMeansProfile(s, r);
    }
  }

  lemma HeldMeansProfile(s: State, r: Ref)
    requires PipewireSound(s) && ListCounts(s) && r in s.table.cells && PipewireAssigned(s, s.table.cells[r])
    ensures s.config.pipewire.Some?
  {
  }

  lemma InitialAgrees(config: SchedulerConfig)
    ensures Settled(Initial(config)) && Agrees(Initial(config)) && ListCounts(Initial(config))
  {
  }

  // ---------------------------------------------------------------------------------------
  // The pid index over whole runs
  // ---------------------------------------------------------------------------------------

  /** The input moves no tracked process to another parent; nothing else is asked of it. */
  ghost predicate Stable(s: State, input: Input) {
    && ValidEnv(input.env)
    && TrueParents(s.table, input.env)
    && match input.event
       case ExecCreate(pid, parentPid, _, _) =>
         && SameParent(s.table, pid, parentPid)
         && (input.env.listing.Some? && pid in input.env.listing.value && input.env.cmdline(pid).Some? ==>
               input.env.parentId(pid).GetOr(0) == parentPid)
       case _ => true
  }

  lemma SetForegroundSettled(s: State, env: Env, pid: Pid)
    requires Settled(s)
    ensures Settled(SetForeground(s, env, pid))
    ensures SetForeground(s, env, pid).table == AssignChildren(s, env, pid).table
  {
    AssignChildrenKeepAgreement(s, env, pid);
    SetForegroundKeepsWellFormed(s, env, pid);
    hide WellFormed, Covered, AssignChildren, ApplyAll, PidsOf, ForegroundCells, ForegroundWrites;
  }

  lemma SetPipewireSettled(s: State, env: Env, pid: Pid)
    requires Settled(s)
    ensures Settled(SetPipewire(s, env, pid))
  {
    hide WellFormed, Covered, AssignChildren, SetPipewire;
    AssignChildrenKeepAgreement(s, env, pid);
    SetPipewireKeepsWellFormed(s, env, pid);
    SetPipewireShape(s, env, pid);
  }

  lemma SetPipewireShape(s: State, env: Env, pid: Pid)
    requires Covered(AssignChildren(s, env, pid).table)
    ensures var a, u := AssignChildren(s, env, pid), SetPipewire(s, env, pid);
            Covered(u.table) && u.foreground == a.foreground && u.foregroundProcesses == a.foregroundProcesses
  {
    hide AssignChildren, HoldSome, HoldWrites, Assignment, ApplyAll, Covered, SameShape;
    var t := AssignChildren(s, env, pid).table;
    HoldKeepsShape(t, pid, t.byKey.Values);
    ShapeKeepsCovered(t, HoldSome(t, pid, t.byKey.Values));
  }

  lemma RefreshSettled(s: State, env: Env)
    requires Settled(s) && ValidEnv(env) && TrueParents(s.table, env)
    ensures Settled(ProcessMapRefresh(s, env))
  {
    if env.listing.None? {
      UnlistedRefreshKeepsAgreement(s, env);
    } else {
      var parents := ListedParents(env, env.listing.value);
      RefreshKeepsTable(s, env, false, parents);
      SweepKeepsCovered(s.table, env, false, parents);
      hide Listed, ListedParents, TableOperations.Refreshed, WellFormed, Covered, TrueParents, SetForeground;
      var s0 := s.(table := TableOperations.Refreshed(s.table, Listed(env, env.listing.value, false), parents));
      DecidingKeepsSettled(s0, env);
      var s1 := AssignAndApplyAll(s0, env);
      hide AssignAndApplyAll;
      if s1.foreground.Some? {
        WithoutForeground(s1);
        SetForegroundSettled(s1.(foreground := None), env, s1.foreground.value);
      }
    }
  }

  lemma ExecCreateSettled(s: State, env: Env, pid: Pid, parentPid: Pid, name: string, cmdline: string)
    requires Settled(s) && Stable(s, Input(ExecCreate(pid, parentPid, name, cmdline), env))
    ensures Settled(Step(s, Input(ExecCreate(pid, parentPid, name, cmdline), env)))
  {
    var s1 := AssignNew(s, env, pid, parentPid, name, cmdline);
    AssignNewKeepsWellFormed(s, env, pid, parentPid, name, cmdline);
    AssignNewRecordsOne(s, env, pid, parentPid, name, cmdline);
    AssignNewKeepsCovered(s, env, pid, parentPid, name, cmdline);
    NewKeepsTrueParents(s, env, pid, parentPid, name, cmdline);
    hide AssignNew, AssignChildren, GarbageClean, WellFormed, Covered, TrueParents, Agrees, RecordsOne, SameParent;
    ChildrenKeepTrueParents(s1, env, pid);
    AssignChildrenKeepAgreement(s1, env, pid);
    GarbageCleanKeepsAgreement(AssignChildren(s1, env, pid), env);
  }

  lemma ReloadSettled(s: State, config: SchedulerConfig)
    requires Settled(s)
    ensures Settled(s.(config := config))
  {
  }

  lemma StableStepSettled(s: State, input: Input)
    requires Settled(s) && Stable(s, input)
    ensures Settled(Step(s, input))
  {
    hide Settled, TrueParents, SameParent, ValidEnv, ProcessMapRefresh, SetForeground, SetPipewire, GarbageClean,
         RemovePipewire, AssignNew, AssignChildren;
    var env := input.env;
    match input.event
    case ExecCreate(pid, parentPid, name, cmdline) =>
      ExecCreateSettled(s, env, pid, parentPid, name, cmdline);
    case RefreshProcessMap =>
      RefreshSettled(s, env);
    case SetForegroundProcess(pid) =>
      SetForegroundSettled(s, env, pid);
      ChildrenKeepTrueParents(s, env, pid);
      GarbageCleanKeepsAgreement(SetForeground(s, env, pid), env);
    case PipewireAdd(pid) =>
      SetPipewireSettled(s, env, pid);
      ChildrenKeepTrueParents(s, env, pid);
      HoldingKeepsTrueParents(s, env, pid);
      GarbageCleanKeepsAgreement(SetPipewire(s, env, pid), env);
    case PipewireRemove(pid) =>
      RemovalKeepsSettled(s, env, pid);
    case ReloadConfiguration(config) =>
      ReloadSettled(s, config);
  }

  lemma {:induction false} StableRunSettled(config: SchedulerConfig, inputs: seq<Input>)
    requires forall i :: 0 <= i < |inputs| ==> Stable(Run(Initial(config), inputs[..i]), inputs[i])
    ensures Settled(Run(Initial(config), inputs))
  {
    hide Settled, Stable, Step;
    if inputs == [] {
      InitialAgrees(config);
    } else {
      var init := inputs[..|inputs| - 1];
      forall i | 0 <= i < |init|
        ensures Stable(Run(Initial(config), init[..i]), init[i])
      {
        assert init[..i] == inputs[..i];
      }
      StableRunSettled(config, init);
      StableStepSettled(Run(Initial(config), init), inputs[|inputs| - 1]);
    }
  }

  /**
   * As long as no tracked pid turns up under another parent, the two indexes agree after every
   * event: each process of the table is the one its pid finds, and no pid finds anything else.
   */
  lemma IndexesAgree(config: SchedulerConfig, inputs: seq<Input>)
    requires forall i :: 0 <= i < |inputs| ==> Stable(Run(Initial(config), inputs[..i]), inputs[i])
    ensures var t := Run(Initial(config), inputs).table;
            && (forall r :: r in t.cells ==> t.cells[r].id in t.byPid && t.byPid[t.cells[r].id] == r)
            && (forall pid :: pid in t.byPid ==> t.byPid[pid] in t.cells && t.cells[t.byPid[pid]].id == pid)
            && t.byKey.Values == t.cells.Keys
  {
    StableRunSettled(config, inputs);
    hide Run;
    ValuesAreCells(Run(Initial(config), inputs).table);
  }
}
