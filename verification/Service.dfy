/** The scheduling service as it updates its fields in place, proved against the state machine. */
module Service {
  import opened Basics
  import opened Scheduler
  import opened ProcessTable
  import opened TableOperations
  import opened Refresh
  import opened Classification
  import opened Worklist
  import opened Engine
  import opened EngineInvariants
  import opened Searches
  import opened Completion
  import opened ProcessMap
  import opened ServiceLoops

  class Service {
    var config: SchedulerConfig
    var assignScan: seq<Pid>
    var assignScanned: seq<Pid>
    var assignTasks: seq<Pid>
    var foregroundProcesses: seq<Pid>
    var foreground: Option<Pid>
    var gcCounter: nat
    const owner: LCellOwner
    var pipewireProcesses: seq<Pid>
    const processMap: Map

    /** The profile the kernel was last told to use for each pid. */
    ghost var applied: map<Pid, Profile>

    ghost function View(): State
      reads this, owner, processMap
    {
      State(config, foreground, foregroundProcesses, pipewireProcesses, gcCounter, processMap.Contents(owner), applied)
    }

    /** Between calls the reusable buffers of the scan are empty. */
    ghost predicate Valid()
      reads this, owner, processMap
    {
      WellFormed(View()) && assignScan == [] && assignTasks == []
    }

    constructor (config: SchedulerConfig)
      ensures View() == Initial(config)
      ensures Valid()
      ensures fresh(owner) && fresh(processMap)
    {
      this.config := config;
      assignScan, assignScanned, assignTasks := [], [], [];
      foregroundProcesses, foreground, gcCounter, pipewireProcesses := [], None, 0, [];
      owner := new LCellOwner();
      processMap := new Map();
      applied := map[];
    }

    /** Tells the kernel to use a profile. */
    method SetPriority(pid: Pid, profile: Profile)
      modifies this`applied
      ensures applied == old(applied)[pid := profile]
    {
      applied := applied[pid := profile];
    }

    // -------------------------------------------------------------------------------------
    // Classification
    // -------------------------------------------------------------------------------------

    /** The link to follow next, if it can be followed. */
    method FollowLink(w: Option<Ref>) returns (link: Option<Ref>)
      ensures link == Upgrade(View().table, w)
    {
      link := if w.Some? && w.value in owner.cells then w else None;
    }

    /** Searches the ancestors for a name, or also a former name, that matches, up to the first. */
    method AncestorNamed(p: Process, m: MatchCondition, former: bool) returns (found: bool)
      requires NameSearchHalts(config, View().table, p, m, former)
      ensures found <==> Named(config, View().table, p, m, former)
    {
      hide Walk, Ends, StandsAt;
      ghost var t, k: nat := View().table, 0;
      var node := FollowLink(p.parent);
      SearchStarts(t, p.parent);
      while node.Some?
        invariant k <= |t.cells| && StandsAt(t, p.parent, k, node) && (node.Some? ==> node.value in owner.cells)
        invariant forall r :: r in Walk(t, p.parent, k) && r in owner.cells ==>
                                !(Matches(config, m, owner.cells[r].name) || (former && Matches(config, m, owner.cells[r].forkedName)))
        decreases |t.cells| + 1 - k
      {
        if k == |t.cells| {
          SearchGoesOn(t, p.parent, node.value);
          assert false;
        }
        SearchStep(t, p.parent, k, node.value);
        SearchFinds(t, p.parent, k, node.value);
        var parent := owner.cells[node.value];
        if Matches(config, m, parent.name) || (former && Matches(config, m, parent.forkedName)) {
          return true;
        }
        k := k + 1;
        node := FollowLink(parent.parent);
      }
      SearchEnds(t, p.parent, k);
      return false;
    }

    /** Whether the direct parent's name, or also its former name, matches one of the conditions. */
    method ParentNamed(p: Process, ms: seq<MatchCondition>, former: bool) returns (found: bool)
      ensures found <==> ParentIsNamed(config, View().table, p, ms, former)
    {
      if p.parent.None? || p.parent.value !in owner.cells {
        return false;
      }
      var parent := owner.cells[p.parent.value];
      for i := 0 to |ms|
        invariant forall j :: 0 <= j < i ==>
                                !(Matches(config, ms[j], parent.name) || (former && Matches(config, ms[j], parent.forkedName)))
      {
        if Matches(config, ms[i], parent.name) || (former && Matches(config, ms[i], parent.forkedName)) {
          assert ms[i] in ms;
          return true;
        }
      }
      return false;
    }

    method ProcessIsException(p: Process) returns (excepted: bool)
      requires ExceptionsHalt(config, View().table, p)
      ensures excepted == IsException(config, View().table, p)
    {
      hide Matches, ExceptionMet, ExceptionsHalt, Named, ParentIsNamed, Ends;
      if p.cmdline in config.assignments.exceptionsByCmdline {
        return true;
      }
      if p.name in config.assignments.exceptionsByName {
        return true;
      }
      var conditions := config.assignments.exceptionsConditions;
      for i := 0 to |conditions|
        invariant forall j :: 0 <= j < i ==> !ExceptionMet(config, View().table, p, conditions[j])
      {
        var condition := conditions[i];
        NextExceptionHalts(config, View().table, p, i);
        ExceptionParts(config, View().table, p, condition);
        if condition.descends.Some? {
          if !Matches(config, condition.descends.value, p.forkedName) {
            var ancestryMatch := AncestorNamed(p, condition.descends.value, true);
            if !ancestryMatch {
              continue;
            }
          }
        }
        if condition.parent != [] {
          var parentMatch := ParentNamed(p, condition.parent, true);
          if !parentMatch {
            continue;
          }
        }
        return true;
      }
      return false;
    }

    method IsConditionMet(p: Process, condition: Condition) returns (met: bool)
      requires ConditionHalts(config, View().table, p, condition)
      ensures met == ConditionMet(config, View().table, p, condition)
    {
      if condition.cgroup.Some? && !Matches(config, condition.cgroup.value, p.cgroup) {
        return false;
      }
      if condition.name.Some? && !Matches(config, condition.name.value, p.name) {
        return false;
      }
      if condition.parent != [] {
        var hasParent := ParentNamed(p, condition.parent, false);
        if !hasParent {
          return false;
        }
      }
      if condition.descends.Some? {
        var isAncestor := AncestorNamed(p, condition.descends.value, false);
        if !isAncestor {
          return false;
        }
      }
      return true;
    }

    /** The first profile of the table whose rules let the process in. */
    method ProfileByConditions(p: Process) returns (profile: Option<Profile>)
      requires ProfilesHalt(config, View().table, p, config.order)
      ensures profile == FirstQualifying(config, View().table, p, config.order)
    {
      var order := config.order;
      label outer: for i := 0 to |order|
        invariant FirstQualifying(config, View().table, p, order) == FirstQualifying(config, View().table, p, order[i..])
        invariant ProfilesHalt(config, View().table, p, order[i..])
      {
        assert order[i..][0] == order[i] && order[i..][1..] == order[i + 1..];
        if order[i] !in config.assignments.conditions {
          continue outer;
        }
        var rules := config.assignments.conditions[order[i]].rules;
        var assignedProfile := None;
        for j := 0 to |rules|
          invariant forall k :: 0 <= k < j && !rules[k].included ==> !ConditionMet(config, View().table, p, rules[k].condition)
          invariant assignedProfile ==
                    if exists k :: 0 <= k < j && rules[k].included && ConditionMet(config, View().table, p, rules[k].condition)
                                       then Some(config.assignments.conditions[order[i]].profile) else None
        {
          var met := IsConditionMet(p, rules[j].condition);
          if met && rules[j].included {
            assignedProfile := Some(config.assignments.conditions[order[i]].profile);
          } else if met {
            continue outer;
          }
        }
        if assignedProfile.Some? {
          return assignedProfile;
        }
      }
      return None;
    }

    method ClassifyProcess(p: Process) returns (priority: Priority)
      requires ExceptionsHalt(config, View().table, p)
      requires ReachesConditions(config, View().table, p) ==> ProfilesHalt(config, View().table, p, config.order)
      ensures priority == Classify(config, View().table, p)
    {
      var excepted := ProcessIsException(p);
      if excepted {
        return Exception;
      }
      if p.cmdline in config.assignments.profileByCmdline {
        return Config(config.assignments.profileByCmdline[p.cmdline]);
      }
      if p.name in config.assignments.profileByName {
        return Config(config.assignments.profileByName[p.name]);
      }
      if p.cgroup == "" {
        return NotAssignable;
      }
      var profile := ProfileByConditions(p);
      priority := if profile.Some? then Config(profile.value) else Assignable;
    }

    method AssignProcessPriority(r: Ref)
      requires r in owner.cells && DecisionHalts(config, View().table, owner.cells[r])
      modifies owner`cells
      ensures View() == AssignPriority(old(View()), r)
    {
      var p := owner.cells[r];
      if p.assignedPriority != NotAssignable {
        assert owner.cells[r := p] == owner.cells;
        return;
      }
      var priority := ClassifyProcess(p);
      owner.Write(r, p.(assignedPriority := priority));
    }

    method ProcessIsPipewireAssigned(p: Process) returns (held: bool)
      ensures held == PipewireAssigned(View(), p)
    {
      held := p.pipewireAncestor.Some? || p.id in pipewireProcesses;
    }

    method ApplyProcessPriority(r: Ref)
      requires r in owner.cells
      modifies this`applied
      ensures View() == ApplyPriority(old(View()), r)
    {
      var p := owner.cells[r];
      match p.assignedPriority
      case Assignable =>
        if config.pipewire.Some? {
          var held := ProcessIsPipewireAssigned(p);
          if held {
            SetPriority(p.id, config.pipewire.value);
            return;
          }
        }
        if config.foreground.Some? && foreground.Some? {
          if p.id == foreground.value || p.id in foregroundProcesses {
            SetPriority(p.id, config.foreground.value.foreground);
          } else {
            SetPriority(p.id, config.foreground.value.background);
          }
        } else {
          SetPriority(p.id, NewProfile("default"));
        }
      case Config(profile) => SetPriority(p.id, profile);
      case Exception =>
      case NotAssignable =>
    }

    method ProcessAssignment(pid: Pid) returns (priority: Priority)
      requires PidIndexed(View().table)
      ensures priority == Assignment(View().table, pid)
    {
      var process := processMap.GetPid(pid);
      if process.None? {
        return NotAssignable;
      }
      priority := owner.cells[process.value].assignedPriority;
    }

    method ProcessDescendedFrom(p: Process, ancestor: Pid) returns (descends: bool)
      requires DescentHalts(View().table, p, ancestor)
      ensures descends == DescendedFrom(View().table, p, ancestor)
    {
      hide Walk, Ends, StandsAt;
      if p.parentId == ancestor {
        return true;
      }
      ghost var t, k: nat := View().table, 0;
      var node := FollowLink(p.parent);
      SearchStarts(t, p.parent);
      while node.Some?
        invariant k <= |t.cells| && StandsAt(t, p.parent, k, node) && (node.Some? ==> node.value in owner.cells)
        invariant forall r :: r in Walk(t, p.parent, k) && r in owner.cells ==>
                    owner.cells[r].id != ancestor && owner.cells[r].parentId != ancestor
        decreases |t.cells| + 1 - k
      {
        if k == |t.cells| {
          SearchGoesOn(t, p.parent, node.value);
          assert false;
        }
        SearchStep(t, p.parent, k, node.value);
        SearchFinds(t, p.parent, k, node.value);
        var process := owner.cells[node.value];
        if process.id == ancestor || process.parentId == ancestor {
          return true;
        }
        k := k + 1;
        node := FollowLink(process.parent);
      }
      SearchEnds(t, p.parent, k);
      return false;
    }

    // -------------------------------------------------------------------------------------
    // New processes
    // -------------------------------------------------------------------------------------

    /** The first pid of the pipewire list that is a process or the parent it names. */
    method FindNamed(process: Process) returns (named: Option<Pid>)
      ensures named == FirstNamed(process, pipewireProcesses)
    {
      for j := 0 to |pipewireProcesses|
        invariant FirstNamed(process, pipewireProcesses) == FirstNamed(process, pipewireProcesses[j..])
      {
        assert pipewireProcesses[j..][0] == pipewireProcesses[j] && pipewireProcesses[j..][1..] == pipewireProcesses[j + 1..];
        if process.id == pipewireProcesses[j] || process.parentId == pipewireProcesses[j] {
          return Some(pipewireProcesses[j]);
        }
      }
      return None;
    }

    /** The first ancestor that is, or whose parent is, on the pipewire list decides. */
    method FindPipewireAncestor(p: Process) returns (ancestor: Option<Pid>)
      requires HolderSearchHalts(View().table, p, pipewireProcesses)
      ensures ancestor == PipewireAncestor(View().table, Ancestors(View().table, p), pipewireProcesses)
    {
      hide Walk, Ends, StandsAt, FirstNamed, PipewireAncestor;
      ghost var t, k: nat := View().table, 0;
      var node := FollowLink(p.parent);
      SearchStarts(t, p.parent);
      while node.Some?
        invariant k <= |t.cells| && StandsAt(t, p.parent, k, node) && (node.Some? ==> node.value in owner.cells)
        invariant forall r :: r in Walk(t, p.parent, k) && r in owner.cells ==> FirstNamed(owner.cells[r], pipewireProcesses).None?
        decreases |t.cells| + 1 - k
      {
        if k == |t.cells| {
          SearchGoesOn(t, p.parent, node.value);
          NoHolder(t, Walk(t, p.parent, k), pipewireProcesses);
          assert false;
        }
        SearchStep(t, p.parent, k, node.value);
        SearchFinds(t, p.parent, k, node.value);
        var process := owner.cells[node.value];
        ancestor := FindNamed(process);
        if ancestor.Some? {
          HolderAt(t, Ancestors(t, p), pipewireProcesses, k);
          return;
        }
        k := k + 1;
        node := FollowLink(process.parent);
      }
      SearchEnds(t, p.parent, k);
      NoHolder(t, Walk(t, p.parent, k), pipewireProcesses);
      return None;
    }

    /** Notes the pipewire process that a cell is held for, if one is found above it. */
    method NotePipewireAncestor(r: Ref)
      requires r in owner.cells && HolderSearchHalts(View().table, owner.cells[r], pipewireProcesses)
      modifies owner`cells
      ensures var t := old(View().table);
              var ancestor := PipewireAncestor(t, Ancestors(t, t.cells[r]), pipewireProcesses);
              View() == old(View()).(table := SetCell(t, r, WithPipewireAncestor(t.cells[r], ancestor)))
    {
      hide Ancestors, HolderSearchHalts;
      var ancestor := FindPipewireAncestor(owner.cells[r]);
      if ancestor.Some? {
        owner.Write(r, owner.cells[r].(pipewireAncestor := ancestor));
      } else {
        assert owner.cells[r := owner.cells[r]] == owner.cells;
      }
    }

    method RecordProcess(p: Process) returns (r: Ref)
      requires Keyed(View().table) && RecordingHalts(View().table, p, pipewireProcesses)
      modifies processMap`byKey, processMap`byPid, owner
      ensures View() == old(View()).(table := Recorded(old(View().table), p, pipewireProcesses))
      ensures r == InsertRef(old(View().table), p) && r in owner.cells
    {
      hide Keyed, Insert, PipewireAncestor, WithPipewireAncestor, Ancestors, HolderSearchHalts;
      r := processMap.Insert(owner, p);
      hide InsertRef;
      NotePipewireAncestor(r);
    }

    method AssignNewProcess(env: Env, pid: Pid, parentPid: Pid, name: string, cmdline: string)
      requires WellFormed(View()) && NewHalts(View(), env, pid, parentPid, name, cmdline)
      modifies this`applied, owner, processMap`byKey, processMap`byPid
      ensures View() == AssignNew(old(View()), env, pid, parentPid, name, cmdline)
      ensures WellFormed(View())
    {
      ghost var s := View();
      AssignNewKeepsWellFormed(s, env, pid, parentPid, name, cmdline);
      var parent := processMap.GetPid(parentPid);
      var path, cgroup := cmdline, "";
      if env.alive(pid) {
        if path == "" {
          path := env.cmdline(pid).GetOr("");
        }
        cgroup := env.cgroup(pid).GetOr("");
      }
      var process := NewProcess(pid, parentPid, name, cgroup, path, parent);
      assert process == CreatedProcess(s.table, env, pid, parentPid, name, cmdline);
      hide CreatedProcess, Recorded, RecordingHalts, DecisionHalts, Classify, Linked, PipewireSound, PidIndexed,
           Allocated, Keyed;
      var r := RecordProcess(process);
      AssignProcessPriority(r);
      ApplyProcessPriority(r);
    }

    /** Lists a process's children, pushing those not seen before. */
    method PushChildren(scan: seq<Pid>, scanned: seq<Pid>, listed: seq<Pid>) returns (pushed: seq<Pid>)
      requires NoDuplicates(scan + scanned)
      ensures pushed == PushNew(scan, scanned, listed)
    {
      pushed := scan;
      for i := 0 to |listed|
        invariant NoDuplicates(pushed + scanned)
        invariant PushNew(scan, scanned, listed) == PushNew(pushed, scanned, listed[i..])
      {
        var pid := listed[i];
        assert listed[i..][0] == pid && listed[i..][1..] == listed[i + 1..];
        if !(pid in pushed || pid in scanned) {
          PushedIsNew(pushed, scanned, pid);
          pushed := pushed + [pid];
        }
      }
    }

    /** Scans a process and everything below it, reusing the three buffers. */
    method ScanTasks(children: Children, pid: Pid, tasksBuffer: seq<Pid>, scanBuffer: seq<Pid>)
      returns (tasks: seq<Pid>, scan: seq<Pid>, scanned: seq<Pid>)
      requires tasksBuffer == [] && scanBuffer == []
      ensures tasks == Tasks(children, pid) && scan == []
    {
      tasks, scan, scanned := tasksBuffer, scanBuffer + [pid], [];
      while scan != []
        invariant NoDuplicates(scan + scanned) && tasks == scanned
        invariant Tasks(children, pid) == Scan(children, scan, scanned)
        decreases |AllPids() - Elements(scanned)|
      {
        PoppedMoves(scan, scanned);
        var process := scan[|scan| - 1];
        scan, scanned := scan[..|scan| - 1], scanned + [process];
        scan := PushChildren(scan, scanned, children(process));
        tasks := tasks + [process];
      }
    }

    /** Records what the scan finds below a process and is not known yet. */
    method AssignChildren(env: Env, pid: Pid)
      requires Valid() && ChildrenHalt(View(), env, pid)
      modifies this`applied, this`assignScan, this`assignScanned, this`assignTasks, owner, processMap`byKey, processMap`byPid
      ensures View() == Engine.AssignChildren(old(View()), env, pid)
      ensures Valid()
    {
      hide WellFormed, AssignTask, Tasks, TaskHalts;
      ghost var s := View();
      var tasks, scan, scanned := assignTasks, assignScan, assignScanned;
      assignTasks, assignScan, assignScanned := [], [], [];
      tasks, scan, scanned := ScanTasks(env.children, pid, tasks, scan);
      for i := 0 to |tasks|
        invariant WellFormed(View()) && View() == AssignTasks(s, env, tasks[..i])
        invariant assignTasks == [] && assignScan == []
      {
        OneMore(tasks, i);
        assert TaskHalts(AssignTasks(s, env, tasks[..i]), env, tasks[i]);
        AssignTaskKeepsWellFormed(View(), env, tasks[i]);
        AssignKnownTask(env, tasks[i]);
      }
      assert tasks[..|tasks|] == tasks;
      tasks := [];
      assignTasks, assignScan, assignScanned := tasks, scan, scanned;
    }

    /** One task of the scan: an unknown process that is still readable is recorded. */
    method AssignKnownTask(env: Env, pid: Pid)
      requires WellFormed(View()) && TaskHalts(View(), env, pid)
      modifies this`applied, owner, processMap`byKey, processMap`byPid
      ensures View() == AssignTask(old(View()), env, pid)
    {
      var known := processMap.GetPid(pid);
      if known.None? {
        var parentPid := env.parentId(pid);
        if parentPid.None? {
          return;
        }
        var cmdline := env.cmdline(pid);
        if cmdline.None? {
          return;
        }
        AssignNewProcess(env, pid, parentPid.value, BaseName(cmdline.value), cmdline.value);
      }
    }

    // -------------------------------------------------------------------------------------
    // Sweeping the table
    // -------------------------------------------------------------------------------------

    /** Keeps a listed process from removal and inserts what was read of it. */
    method AbsorbProcess(p: Process)
      requires Sound(View().table) && p.parent == None
      modifies owner, processMap
      ensures var t := old(View().table);
              View() == old(View()).(table := Insert(Retain(t, p), p))
    {
      DrainKeepsKeyed(View().table, p);
      assert Ends(View().table, p.parent);
      hide Sound, Retain, Insert, Ends;
      processMap.RetainProcessTree(owner, p);
      var inserted := processMap.Insert(owner, p);
    }

    /** Reads the listed processes and absorbs each into the table. */
    method AbsorbListing(env: Env, pids: seq<Pid>, bare: bool) returns (parents: map<Pid, Pid>)
      requires Sound(View().table) && NoDuplicates(pids)
      modifies owner, processMap
      ensures View() == old(View()).(table := Absorb(old(View().table), Listed(env, pids, bare)))
      ensures parents == ListedParents(env, pids)
    {
      hide Sound, RecordOf, Retain, Insert;
      ghost var t := View().table;
      parents := map[];
      for i := 0 to |pids|
        invariant View() == old(View()).(table := Absorb(t, Listed(env, pids[..i], bare)))
        invariant parents == ListedParents(env, pids[..i])
      {
        AbsorbSoundSoFar(t, env, pids, i, bare);
        AbsorbListed(t, env, pids, i, bare);
        hide Absorb, Listed, ListedParents;
        var pid := pids[i];
        var cmdline := env.cmdline(pid);
        if cmdline.None? {
          continue;
        }
        var process := RecordOf(env, pid, bare);
        RecordIsUnlinked(env, pid, bare);
        var ppid := env.parentId(pid);
        if ppid.Some? {
          parents := parents[pid := ppid.value];
        }
        AbsorbProcess(process);
      }
      assert pids[..|pids|] == pids;
    }

    /** Counts calls; every so many of them, sweeps out what is no longer listed. */
    method GarbageClean(env: Env)
      requires Valid() && ValidEnv(env)
      modifies this`gcCounter, owner, processMap
      ensures View() == Engine.GarbageClean(old(View()), env)
      ensures Valid()
    {
      GarbageCleanKeepsWellFormed(View(), env);
      if gcCounter < GC_INTERVAL {
        gcCounter := gcCounter + 1;
        return;
      }
      gcCounter := 0;
      if env.listing.None? {
        return;
      }
      ghost var t := View().table;
      DrainKeepsSound(t, t.byKey.Keys);
      ListedIsListing(env, env.listing.value, true);
      AbsorbKeepsSound(Prepare(t), Listed(env, env.listing.value, true));
      hide Absorb, Listed, IsListing, Sound, Linked, PipewireSound, NoDuplicates;
      processMap.DrainFilterPrepare(owner);
      var parents := AbsorbListing(env, env.listing.value, true);
      hide TableOperations.DrainFilter;
      processMap.DrainFilter(owner);
    }

    /** Links every listed process to its parent, where the pid index knows both. */
    method LinkParents(parents: map<Pid, Pid>)
      requires Sound(View().table)
      modifies owner`cells
      ensures View() == old(View()).(table := LinkAll(old(View().table), parents))
    {
      ghost var t := View().table;
      LinkNone(t, parents);
      SoundIsIndexed(t);
      hide LinkSome, Sound, PidIndexed;
      var pids := parents.Keys;
      assert parents.Keys - pids == {};
      while pids != {}
        invariant pids <= parents.Keys
        invariant View() == old(View()).(table := LinkSome(t, parents, parents.Keys - pids))
        decreases pids
      {
        var pid :| pid in pids;
        LinkOneMore(t, parents, parents.Keys - pids, pid);
        assert parents.Keys - (pids - {pid}) == parents.Keys - pids + {pid};
        pids := pids - {pid};
        var process := processMap.GetPid(pid);
        var parent := processMap.GetPid(parents[pid]);
        if process.Some? && parent.Some? {
          owner.Write(process.value, owner.cells[process.value].(parent := parent));
        }
      }
      assert parents.Keys - pids == parents.Keys;
    }

    method AssignAndApplyOne(r: Ref)
      requires r in owner.cells && DecisionHalts(config, View().table, owner.cells[r])
      modifies this`applied, owner`cells
      ensures View() == ApplyPriority(AssignPriority(old(View()), r), r)
    {
      hide Decided, Pick, DecisionHalts;
      AssignProcessPriority(r);
      ApplyProcessPriority(r);
    }

    /** Decides and applies the priority of every process of the map. */
    method AssignAndApply(env: Env)
      requires WellFormed(View()) && ValidEnv(env) && DecisionsHalt(View())
      modifies this`applied, owner`cells
      ensures View() == AssignAndApplyAll(old(View()), env)
    {
      ghost var s := View();
      var values := env.order(processMap.byKey.Values);
      ValuesAreCells(s.table);
      AssignAndApplyNone(s, values);
      hide WellFormed, AssignAndApplySome, NoDuplicates, DecisionHalts;
      for i := 0 to |values|
        invariant View() == AssignAndApplySome(s, values, i)
      {
        assert values[i] in s.table.cells;
        AssignAndApplyOneMore(s, values, i);
        DecisionSoFarHalts(s, values, i);
        AssignAndApplyOne(values[i]);
      }
      AssignAndApplyEvery(s, env);
    }

    /** Marks every record, absorbs the listing and links what was absorbed. */
    method MarkTable(env: Env, pids: seq<Pid>)
      requires Sound(View().table) && NoDuplicates(pids)
      modifies owner, processMap
      ensures View() == old(View()).(table := Marked(old(View().table), Listed(env, pids, false), ListedParents(env, pids)))
      ensures Sound(View().table)
    {
      ghost var t := View().table;
      ListedIsListing(env, pids, false);
      DrainKeepsSound(t, t.byKey.Keys);
      MarkedIs(t, Listed(env, pids, false), ListedParents(env, pids));
      hide Sound, IsListing, NoDuplicates, Absorb, Absorbed, Listed, ListedParents, LinkAll;
      processMap.DrainFilterPrepare(owner);
      var parents := AbsorbListing(env, pids, false);
      LinkParents(parents);
    }

    /** Marks, absorbs the listing, links and sweeps. */
    method RefreshTable(env: Env, pids: seq<Pid>)
      requires Sound(View().table) && NoDuplicates(pids)
      modifies owner, processMap
      ensures View() == old(View()).(table := Refreshed(old(View().table), Listed(env, pids, false), ListedParents(env, pids)))
    {
      hide Sound, NoDuplicates, Absorb, Listed, ListedParents, LinkAll, TableOperations.DrainFilter;
      MarkTable(env, pids);
      processMap.DrainFilter(owner);
    }

    /** Brings the table up to date with the listing, then the priorities and the foreground. */
    method ProcessMapRefresh(env: Env)
      requires Valid() && ValidEnv(env) && RefreshHalts(View(), env)
      modifies this, owner, processMap
      ensures View() == Engine.ProcessMapRefresh(old(View()), env)
      ensures Valid()
    {
      ProcessMapRefreshKeepsWellFormed(View(), env);
      if env.listing.None? {
        processMap.DrainFilterPrepare(owner);
        return;
      }
      RefreshKeepsTable(View(), env, false, ListedParents(env, env.listing.value));
      hide Keyed, PidIndexed, Allocated, Linked, PipewireSound, Refreshed, Listed, ListedParents,
           AssignAndApplyAll, SetForeground, SetForegroundHalts, DecisionsHalt;
      RefreshTable(env, env.listing.value);
      RefreshPriorities(env);
    }

    /** Decides and applies every priority again, and then rebuilds the foreground partition. */
    method RefreshPriorities(env: Env)
      requires Valid() && ValidEnv(env) && DecisionsHalt(View())
      requires var s1 := AssignAndApplyAll(View(), env);
               s1.foreground.Some? ==> SetForegroundHalts(s1.(foreground := None), env, s1.foreground.value)
      modifies this, owner, processMap
      ensures var s1 := AssignAndApplyAll(old(View()), env);
              View() == if s1.foreground.None? then s1 else SetForeground(s1.(foreground := None), env, s1.foreground.value)
      ensures Valid()
    {
      hide DecisionsHalt, SetForegroundHalts, AssignAndApplyAll, SetForeground, Sound, Linked, ValidEnv;
      AssignAndApplyAllKeepsWellFormed(View(), env);
      AssignAndApply(env);
      var process := foreground;
      foreground := None;
      if process.Some? {
        SetForegroundProcess(env, process.value);
      }
    }

    /** From here on decisions and profiles follow another configuration. */
    method ReloadConfiguration(config: SchedulerConfig)
      modifies this`config
      ensures View() == old(View()).(config := config)
    {
      this.config := config;
    }

    // -------------------------------------------------------------------------------------
    // Foreground
    // -------------------------------------------------------------------------------------

    method PartitionProcess(r: Ref, f: ForegroundAssignments, pid: Pid)
      requires PidIndexed(View().table) && r in owner.cells && DescentAtHalts(View().table, r, pid)
      modifies this`foregroundProcesses, this`applied
      ensures View() == PartitionOne(old(View()), r, f, pid)
    {
      hide PidIndexed, Assignment, DescendedFrom, DescentHalts, PipewireAssigned;
      var process := owner.cells[r];
      var priority := ProcessAssignment(process.id);
      if priority.Assignable? {
        var descends := process.id == pid;
        if !descends {
          descends := ProcessDescendedFrom(process, pid);
        }
        var held := ProcessIsPipewireAssigned(process);
        if descends {
          foregroundProcesses := foregroundProcesses + [process.id];
          if held {
            return;
          }
          SetPriority(process.id, f.foreground);
        } else if held {
          return;
        } else {
          SetPriority(process.id, f.background);
        }
      }
    }

    /** Sorts every assignable process into the foreground or the background. */
    method PartitionProcesses(env: Env, f: ForegroundAssignments, pid: Pid)
      requires Sound(View().table) && ValidEnv(env) && DescentsHalt(View().table, pid)
      modifies this`foreground, this`foregroundProcesses, this`applied
      ensures View() == Partition(old(View()), env, f, pid)
    {
      ghost var s := View();
      var values := env.order(processMap.byKey.Values);
      ValuesAreCells(s.table);
      PartitionEnds(s, env, f, pid);
      hide Keyed, PidIndexed, Allocated, PartitionSome, PartitionOne, Partition, DescentAtHalts;
      foreground := Some(pid);
      foregroundProcesses := [pid];
      for i := 0 to |values|
        invariant View() == PartitionSome(s, values, i, f, pid) && View().table == s.table
      {
        assert values[i] in s.table.cells;
        PartitionOneMore(s, values, i, f, pid);
        PartitionProcess(values[i], f, pid);
      }
    }

    /** Makes a process the foreground, together with what is or descends from it. */
    method SetForegroundProcess(env: Env, pid: Pid)
      requires Valid() && ValidEnv(env) && SetForegroundHalts(View(), env, pid)
      modifies this, owner, processMap
      ensures View() == SetForeground(old(View()), env, pid)
      ensures Valid()
    {
      SetForegroundKeepsWellFormed(View(), env, pid);
      AssignChildren(env, pid);
      hide Engine.AssignChildren, Partition, Linked, PipewireSound, ValidEnv, Keyed, PidIndexed, Allocated, DescentsHalt;
      if config.foreground.Some? {
        PartitionProcesses(env, config.foreground.value, pid);
      }
    }

    // -------------------------------------------------------------------------------------
    // Pipewire
    // -------------------------------------------------------------------------------------

    method HoldProcess(r: Ref, profile: Profile, pid: Pid)
      requires PidIndexed(View().table) && r in owner.cells && DescentAtHalts(View().table, r, pid)
      modifies owner`cells, this`applied
      ensures View() == HoldOne(old(View()), r, profile, pid)
    {
      hide PidIndexed, Assignment, DescendedFrom, DescentHalts;
      var current := owner.cells[r];
      var priority := ProcessAssignment(current.id);
      if priority.Assignable? {
        if current.id == pid {
          SetPriority(pid, profile);
        } else {
          var descends := ProcessDescendedFrom(current, pid);
          if descends {
            owner.Write(r, current.(pipewireAncestor := Some(pid)));
            SetPriority(current.id, profile);
          }
        }
      }
    }

    /** Holds every assignable process that is or descends from a pipewire process. */
    method HoldProcesses(env: Env, profile: Profile, pid: Pid)
      requires WellFormed(View()) && ValidEnv(env) && DescentsHalt(View().table, pid)
      modifies owner`cells, this`applied
      ensures View() == Hold(old(View()), env, profile, pid)
    {
      ghost var s := View();
      var values := env.order(processMap.byKey.Values);
      ValuesAreCells(s.table);
      HoldEnds(s, env, profile, pid);
      hide WellFormed, HoldFirst, HoldOne, NoDuplicates, PidIndexed, DescentAtHalts, DescentsHalt;
      for i := 0 to |values|
        invariant View() == HoldFirst(s, values, i, profile, pid)
      {
        assert values[i] in s.table.cells;
        HoldStep(s, values, i, profile, pid);
        HoldSoFarHalts(s, values, i, profile, pid);
        HoldProcess(values[i], profile, pid);
      }
    }

    /** A tracked process may join the pipewire list only while it is assignable. */
    method MayJoinPipewire(pid: Pid) returns (may: bool)
      requires WellFormed(View())
      ensures may <==> !(pid in View().table.byPid && Assignment(View().table, pid) != Assignable)
    {
      var process := processMap.GetPid(pid);
      may := process.None? || owner.cells[process.value].assignedPriority == Assignable;
    }

    /** Puts a process on the pipewire list, unless it has an assignment of its own, and holds what is below it. */
    method SetPipewireProcess(env: Env, pid: Pid)
      requires Valid() && ValidEnv(env) && SetPipewireHalts(View(), env, pid)
      modifies this, owner, processMap
      ensures View() == SetPipewire(old(View()), env, pid)
      ensures Valid()
    {
      hide WellFormed, ValidEnv, Hold, Engine.AssignChildren, Assignment, DescentsHalt, ChildrenHalt;
      SetPipewireKeepsWellFormed(View(), env, pid);
      AssignChildrenKeepsWellFormed(View(), env, pid);
      AssignChildren(env, pid);
      if config.pipewire.Some? {
        var pipewire := config.pipewire.value;
        if pid !in pipewireProcesses {
          var may := MayJoinPipewire(pid);
          if !may {
            return;
          }
          ListingKeepsWellFormed(View(), pid);
          pipewireProcesses := pipewireProcesses + [pid];
        }
        HoldProcesses(env, pipewire, pid);
      }
    }

    method ReleaseProcess(r: Ref, pid: Pid)
      requires PidIndexed(View().table) && r in owner.cells
      modifies owner`cells, this`applied
      ensures View() == ReleaseOne(old(View()), r, pid)
    {
      var process := owner.cells[r];
      if process.pipewireAncestor == Some(pid) || process.id == pid {
        owner.Write(r, process.(pipewireAncestor := None));
        if config.foreground.Some? {
          var priority := ProcessAssignment(process.id);
          if priority.Assignable? {
            if process.id in foregroundProcesses {
              SetPriority(process.id, config.foreground.value.foreground);
            } else {
              SetPriority(process.id, config.foreground.value.background);
            }
          }
        }
      }
    }

    /** Takes a process off the pipewire list and lets go of what was held on its account. */
    method RemovePipewireProcess(env: Env, pid: Pid)
      requires Valid() && ValidEnv(env)
      modifies this`pipewireProcesses, this`applied, owner`cells
      ensures View() == RemovePipewire(old(View()), env, pid)
      ensures Valid()
    {
      hide RemovePipewire, ReleaseFirst, ReleaseOne, NoDuplicates, Linked, PipewireSound;
      RemovePipewireKeepsWellFormed(View(), env, pid);
      var index := 0;
      while index < |pipewireProcesses| && pipewireProcesses[index] != pid
        invariant 0 <= index <= |pipewireProcesses| && pid !in pipewireProcesses[..index]
      {
        index := index + 1;
      }
      assert pipewireProcesses[..|pipewireProcesses|] == pipewireProcesses;
      if index == |pipewireProcesses| {
        NothingToRemove(View(), env, pid);
        return;
      }
      ghost var s := View();
      WithoutAt(pipewireProcesses, index);
      pipewireProcesses := pipewireProcesses[..index] + pipewireProcesses[index + 1..];
      var values := env.order(processMap.byKey.Values);
      ValuesAreCells(s.table);
      ReleaseEnds(s, env, pid);
      hide WellFormed, Sound;
      for i := 0 to |values|
        invariant View() == ReleaseFirst(s, values, i, pid)
      {
        assert values[i] in s.table.cells;
        ReleaseStep(s, values, i, pid);
        ReleaseIndexed(s, values, i, pid);
        ReleaseProcess(values[i], pid);
      }
    }
  }

  /** What was held so far changes no link, so the search for the next process's descent halts as it did. */
  lemma HoldSoFarHalts(s: State, order: seq<Ref>, i: nat, profile: Profile, pid: Pid)
    requires WellFormed(s) && DescentsHalt(s.table, pid) && i < |order| && order[i] in s.table.cells
    ensures var t := HoldFirst(s, order, i, profile, pid).table;
            PidIndexed(t) && order[i] in t.cells && DescentAtHalts(t, order[i], pid)
  {
    hide HoldSome, SameShape, Sound, Linked, PipewireSound, DescentHalts, Assignment;
    var t, r := HoldFirst(s, order, i, profile, pid).table, order[i];
    HoldKeepsShape(s.table, pid, Elements(order[..i]));
    ShapeKeepsSound(s.table, t);
    SoundIsIndexed(t);
    HoldKeepsAssignment(s.table, pid, Elements(order[..i]), s.table.cells[r].id);
    ShapeKeepsNames(s.table, t);
    SameDescentHalts(s.table, t, s.table.cells[r], t.cells[r], pid);
    ShapeKeepsId(s.table, t, r);
  }

  lemma SoundIsIndexed(t: Table)
    requires Sound(t)
    ensures PidIndexed(t)
  {
  }

  lemma ShapeKeepsId(t: Table, u: Table, r: Ref)
    requires SameShape(t, u) && r in t.cells
    ensures r in u.cells && u.cells[r].id == t.cells[r].id
  {
    assert SameButFate(t.cells[r], u.cells[r]);
  }

  lemma ReleaseIndexed(s: State, order: seq<Ref>, i: nat, pid: Pid)
    requires Sound(s.table) && i <= |order|
    ensures PidIndexed(ReleaseFirst(s, order, i, pid).table)
  {
    ReleaseKeepsShape(s.table, pid, Elements(order[..i]));
    ShapeKeepsSound(s.table, ReleaseFirst(s, order, i, pid).table);
  }

  /** What was decided so far changes nothing that the next decision is searched for. */
  lemma DecisionSoFarHalts(s: State, order: seq<Ref>, i: nat)
    requires DecisionsHalt(s) && i < |order| && order[i] in s.table.cells && NoDuplicates(order)
    ensures var u := AssignAndApplySome(s, order, i);
            order[i] in u.table.cells && DecisionHalts(s.config, u.table, u.table.cells[order[i]])
  {
    hide Decided, DecisionHalts, SameShape;
    var u, r := AssignAndApplySome(s, order, i), order[i];
    DecideKeepsShape(s.config, s.table, Elements(order[..i]));
    ShapeKeepsNames(s.table, u.table);
    OneMore(order, i);
    assert u.table.cells[r] == s.table.cells[r];
    hide DecideSome, SameNames, SameEvidence, NoDuplicates;
    SameDecisionHalts(s.config, s.table, u.table, s.table.cells[r], u.table.cells[r]);
  }

  lemma AbsorbSoundSoFar(t: Table, env: Env, pids: seq<Pid>, i: nat, bare: bool)
    requires Sound(t) && NoDuplicates(pids) && i <= |pids|
    ensures Sound(Absorb(t, Listed(env, pids[..i], bare)))
  {
    ListedIsListing(env, pids[..i], bare);
    AbsorbKeepsSound(t, Listed(env, pids[..i], bare));
  }

  lemma RecordIsUnlinked(env: Env, pid: Pid, bare: bool)
    ensures RecordOf(env, pid, bare).parent == None
  {
  }

  /** What reading one more listed pid adds. */
  lemma AbsorbListed(t: Table, env: Env, pids: seq<Pid>, i: nat, bare: bool)
    requires i < |pids|
    ensures var u, p := Absorb(t, Listed(env, pids[..i], bare)), RecordOf(env, pids[i], bare);
            && Absorb(t, Listed(env, pids[..i + 1], bare)) == (if env.cmdline(pids[i]).None? then u else Insert(Retain(u, p), p))
            && ListedParents(env, pids[..i + 1]) ==
               if env.cmdline(pids[i]).None? || env.parentId(pids[i]).None? then ListedParents(env, pids[..i])
               else ListedParents(env, pids[..i])[pids[i] := env.parentId(pids[i]).value]
  {
    hide Insert, Retain, RecordOf;
    OneMore(pids, i);
    var ps, p := Listed(env, pids[..i], bare), RecordOf(env, pids[i], bare);
    assert (ps + [p])[..|ps|] == ps;
  }

  lemma DrainKeepsKeyed(t: Table, p: Process)
    requires Sound(t)
    ensures Keyed(Retain(t, p))
  {
  }
}
