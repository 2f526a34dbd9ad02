/** What assigning the children of a process achieves, and who counts as foreground. */
module Descendants {
  import opened Basics
  import opened Scheduler
  import opened ProcessTable
  import opened TableOperations
  import opened Classification
  import opened Worklist
  import opened Engine
  import opened EngineInvariants
  import opened Agreement

  ghost predicate Readable(env: Env, pid: Pid) {
    env.parentId(pid).Some? && env.cmdline(pid).Some?
  }

  /** Entries of the pid index keep their cell and its contents. */
  ghost predicate IndexKept(t: Table, u: Table) {
    && (forall q :: q in t.byPid ==> q in u.byPid)
    && (forall q {:trigger u.byPid[q]} :: q in t.byPid && q in u.byPid ==>
          && u.byPid[q] == t.byPid[q] && u.byPid[q] in t.cells && u.byPid[q] in u.cells
          && u.cells[u.byPid[q]] == t.cells[t.byPid[q]])
  }

  /** A process recorded under a pid that was unknown, linked to its parent if that was known. */
  ghost predicate LinkedWhenRecorded(t: Table, u: Table, env: Env, pid: Pid, parentPid: Pid, name: string, cmdline: string) {
    && pid in u.byPid && u.byPid[pid] in u.cells
    && var p := u.cells[u.byPid[pid]];
       && p.parentId == parentPid && p.name == name
       && p.cmdline == (if env.alive(pid) && cmdline == "" then env.cmdline(pid).GetOr("") else cmdline)
       && p.cgroup == (if env.alive(pid) then env.cgroup(pid).GetOr("") else "")
       && p.forkedName == "" && p.forkedCmdline == ""
       && p.parent == if parentPid in t.byPid then Some(t.byPid[parentPid]) else None
  }

  lemma UnknownPidIsVacant(t: Table, p: Process)
    requires Keyed(t) && Covered(t) && p.id !in t.byPid
    ensures p.HashId() !in t.byKey && InsertRef(t, p) == t.next
    ensures Insert(t, p).byPid == t.byPid[p.id := t.next] && Insert(t, p).cells == t.cells[t.next := p]
  {
    assert forall k {:trigger t.byKey[k]} :: k in t.byKey ==> k.id in t.byPid;
  }

  lemma RecordedOnIndex(t: Table, u: Table, p: Process, pipewire: seq<Pid>)
    requires PidIndexed(t) && Allocated(t) && p.id !in t.byPid && RecordsOne(t, u, p, pipewire)
    requires InsertRef(t, p) == t.next
    requires Insert(t, p).byPid == t.byPid[p.id := t.next] && Insert(t, p).cells == t.cells[t.next := p]
    ensures IndexKept(t, u) && (forall q :: q in u.byPid ==> q in t.byPid || q == p.id)
    ensures p.id in u.byPid && u.byPid[p.id] in u.cells
    ensures SameButFate(p, u.cells[u.byPid[p.id]])
  {
    hide Insert;
    assert SameButFate(Insert(t, p).cells[t.next], u.cells[t.next]);
    hide SameButFate;
    assert u.byPid == t.byPid[p.id := t.next];
    forall q | q in t.byPid
      ensures t.byPid[q] in t.cells && t.byPid[q] != t.next && t.byPid[q] in u.cells
    {
      assert t.byPid[q] in Insert(t, p).cells;
    }
  }

  lemma NewOnIndex(s: State, env: Env, pid: Pid, parentPid: Pid, name: string, cmdline: string)
    requires Settled(s) && pid !in s.table.byPid
    ensures var t, u := s.table, AssignNew(s, env, pid, parentPid, name, cmdline).table;
            && IndexKept(t, u)
            && (forall q :: q in u.byPid ==> q in t.byPid || q == pid)
            && LinkedWhenRecorded(t, u, env, pid, parentPid, name, cmdline)
  {
    hide AssignNew, CreatedProcess, Linked, PipewireSound, Covered, RecordsOne, IndexKept, Insert, InsertRef,
         LinkedWhenRecorded;
    var p := CreatedProcess(s.table, env, pid, parentPid, name, cmdline);
    CreatedHasPid(s.table, env, pid, parentPid, name, cmdline);
    AssignNewRecordsOne(s, env, pid, parentPid, name, cmdline);
    UnknownPidIsVacant(s.table, p);
    hide Keyed, PidIndexed, Allocated;
    var u := AssignNew(s, env, pid, parentPid, name, cmdline).table;
    RecordedOnIndex(s.table, u, p, s.pipewireProcesses);
    RecordedAsCreated(s.table, u, env, pid, parentPid, name, cmdline);
  }

  lemma CreatedHasPid(t: Table, env: Env, pid: Pid, parentPid: Pid, name: string, cmdline: string)
    ensures CreatedProcess(t, env, pid, parentPid, name, cmdline).id == pid
  {
  }

  lemma RecordedAsCreated(t: Table, u: Table, env: Env, pid: Pid, parentPid: Pid, name: string, cmdline: string)
    requires pid in u.byPid && u.byPid[pid] in u.cells
    requires SameButFate(CreatedProcess(t, env, pid, parentPid, name, cmdline), u.cells[u.byPid[pid]])
    ensures LinkedWhenRecorded(t, u, env, pid, parentPid, name, cmdline)
  {
    var p, q := CreatedProcess(t, env, pid, parentPid, name, cmdline), u.cells[u.byPid[pid]];
    assert q.parentId == p.parentId && q.name == p.name && q.cmdline == p.cmdline && q.cgroup == p.cgroup && q.parent == p.parent;
    assert q.forkedName == p.forkedName && q.forkedCmdline == p.forkedCmdline;
    hide SameButFate;
  }

  lemma TaskOnIndex(s: State, env: Env, pid: Pid)
    requires Settled(s)
    ensures var t, u := s.table, AssignTask(s, env, pid).table;
            && IndexKept(t, u)
            && (forall q :: q in u.byPid ==> q in t.byPid || q == pid)
            && (Readable(env, pid) ==> pid in u.byPid)
            && (pid !in t.byPid && pid in u.byPid ==>
                  && Readable(env, pid)
                  && LinkedWhenRecorded(t, u, env, pid, env.parentId(pid).value, BaseName(env.cmdline(pid).value),
                                       env.cmdline(pid).value))
  {
    hide AssignNew, Settled, IndexKept;
    if pid !in s.table.byPid && Readable(env, pid) {
      var cmdline := env.cmdline(pid).value;
      NewOnIndex(s, env, pid, env.parentId(pid).value, BaseName(cmdline), cmdline);
    } else {
      SettledKeepsIndex(s);
    }
  }

  lemma SettledKeepsIndex(s: State)
    requires Settled(s)
    ensures IndexKept(s.table, s.table)
  {
  }

  lemma {:induction false} TasksOnIndex(s: State, env: Env, tasks: seq<Pid>, q: Pid)
    requires Settled(s)
    ensures var u := AssignTasks(s, env, tasks).table;
            && (q in s.table.byPid || (q in tasks && Readable(env, q)) ==> q in u.byPid)
            && (q in u.byPid ==> q in s.table.byPid || (q in tasks && Readable(env, q)))
  {
    hide Settled, AssignTask, LinkedWhenRecorded;
    if tasks != [] {
      var init, pid := tasks[..|tasks| - 1], tasks[|tasks| - 1];
      TasksOnIndex(s, env, init, q);
      AssignTasksKeepAgreement(s, env, init);
      TaskOnIndex(AssignTasks(s, env, init), env, pid);
    }
  }

  /** Afterwards every process below the root whose data can be read is found by its pid. */
  lemma ChildrenAreTracked(s: State, env: Env, root: Pid, q: Pid)
    requires Settled(s)
    ensures q in AssignChildren(s, env, root).table.byPid <==>
              q in s.table.byPid || (Reachable(env.children, root, q) && Readable(env, q))
  {
    TasksAreReachable(env.children, root);
    TasksOnIndex(s, env, Tasks(env.children, root), q);
  }

  /** A record with what can be read of its process; the group only while the process is alive. */
  ghost predicate FreshlyRead(p: Process, env: Env, q: Pid) {
    && Readable(env, q) && p.id == q && p.parentId == env.parentId(q).value
    && p.cmdline == env.cmdline(q).value && p.name == BaseName(p.cmdline)
    && p.cgroup == (if env.alive(q) then env.cgroup(q).GetOr("") else "")
    && p.forkedName == "" && p.forkedCmdline == ""
  }

  ghost predicate KeptOrRead(t: Table, u: Table, env: Env, q: Pid) {
    && (q in t.byPid ==>
          && t.byPid[q] in t.cells && q in u.byPid && u.byPid[q] in u.cells && u.cells[u.byPid[q]] == t.cells[t.byPid[q]])
    && (q !in t.byPid && q in u.byPid ==> u.byPid[q] in u.cells && FreshlyRead(u.cells[u.byPid[q]], env, q))
  }

  lemma TaskIsRead(s: State, env: Env, pid: Pid, q: Pid)
    requires Settled(s)
    ensures KeptOrRead(s.table, AssignTask(s, env, pid).table, env, q)
  {
    AssignTaskKeepsAgreement(s, env, pid);
    TaskOnIndex(s, env, pid);
    hide AssignTask, Keyed, Covered, Linked, PipewireSound, BaseName;
  }

  lemma {:induction false} TasksAreRead(s: State, env: Env, tasks: seq<Pid>, q: Pid)
    requires Settled(s)
    ensures KeptOrRead(s.table, AssignTasks(s, env, tasks).table, env, q)
  {
    hide Settled, AssignTask, KeptOrRead;
    if tasks != [] {
      var init, pid := tasks[..|tasks| - 1], tasks[|tasks| - 1];
      TasksAreRead(s, env, init, q);
      AssignTasksKeepAgreement(s, env, init);
      TaskIsRead(AssignTasks(s, env, init), env, pid, q);
      ReadOnce(s.table, AssignTasks(s, env, init).table, AssignTasks(s, env, tasks).table, env, q);
    } else {
      SettledIsKept(s, env, q);
    }
  }

  lemma ReadOnce(t: Table, b: Table, u: Table, env: Env, q: Pid)
    requires KeptOrRead(t, b, env, q) && KeptOrRead(b, u, env, q)
    ensures KeptOrRead(t, u, env, q)
  {
    hide FreshlyRead;
  }

  lemma SettledIsKept(s: State, env: Env, q: Pid)
    requires Settled(s)
    ensures KeptOrRead(s.table, s.table, env, q)
  {
  }

  /**
   * A process that becomes known through the scan is recorded as it was read, under the name that its
   * command line ends with; what was known before keeps its record.
   */
  lemma ScannedAsRead(s: State, env: Env, root: Pid, q: Pid)
    requires Settled(s)
    ensures KeptOrRead(s.table, AssignChildren(s, env, root).table, env, q)
  {
    hide AssignTasks, Tasks, KeptOrRead, Settled;
    TasksAreRead(s, env, Tasks(env.children, root), q);
  }

  /** A process recorded after its parent's turn carries a link to the parent. */
  lemma {:induction false} TasksLink(s: State, env: Env, tasks: seq<Pid>, i: nat, j: nat)
    requires Settled(s) && NoDuplicates(tasks) && i < j < |tasks|
    requires env.parentId(tasks[j]) == Some(tasks[i]) && tasks[j] !in s.table.byPid
    ensures var u := AssignTasks(s, env, tasks).table;
            tasks[i] in u.byPid && tasks[j] in u.byPid && u.byPid[tasks[j]] in u.cells ==>
              u.cells[u.byPid[tasks[j]]].parent == Some(u.byPid[tasks[i]])
    decreases |tasks|
  {
    hide Settled, AssignTask, Readable;
    var init, pid := tasks[..|tasks| - 1], tasks[|tasks| - 1];
    var b := AssignTasks(s, env, init);
    AssignTasksKeepAgreement(s, env, init);
    TaskOnIndex(b, env, pid);
    assert tasks[i] != pid;
    if j < |init| {
      assert init[i] == tasks[i] && init[j] == tasks[j] && tasks[j] != pid;
      TasksLink(s, env, init, i, j);
      hide NoDuplicates, LinkedWhenRecorded;
    } else {
      assert pid !in init;
      hide NoDuplicates;
      TasksOnIndex(s, env, init, pid);
      if tasks[i] in AssignTasks(s, env, tasks).table.byPid {
        assert tasks[i] in b.table.byPid;
      }
    }
  }

  /** The child lists and the parent pids that can be read tell the same tree. */
  ghost predicate TreeAgrees(env: Env) {
    forall p, c :: c in env.children(p) && env.parentId(c).Some? ==> env.parentId(c).value == p
  }

  /**
   * A process below the root that becomes known through the scan is linked to its parent,
   * provided the parent is known in the end: the parent's turn comes first.
   */
  lemma NewChildrenAreLinked(s: State, env: Env, root: Pid, q: Pid)
    requires Settled(s) && TreeAgrees(env)
    requires q != root && q !in s.table.byPid && q in AssignChildren(s, env, root).table.byPid
    ensures var u := AssignChildren(s, env, root).table;
            && env.parentId(q).Some? && Reachable(env.children, root, env.parentId(q).value)
            && var p := env.parentId(q).value;
               p in u.byPid && u.byPid[q] in u.cells ==> u.cells[u.byPid[q]].parent == Some(u.byPid[p])
  {
    var tasks := Tasks(env.children, root);
    TasksAreReachable(env.children, root);
    ChildrenAreTracked(s, env, root, q);
    var j :| 0 <= j < |tasks| && tasks[j] == q;
    assert ListedEarlier(env.children, tasks[..j], q);
    var p :| p in tasks[..j] && q in env.children(p);
    var i :| 0 <= i < j && tasks[i] == p;
    hide Settled, AssignTasks, Tasks, NoDuplicates, Reachable;
    TasksLink(s, env, tasks, i, j);
  }

  // ---------------------------------------------------------------------------------------
  // Foreground
  // ---------------------------------------------------------------------------------------

  /**
   * Setting the foreground process: the cached list holds exactly its pid and the assignable
   * processes that are or descend from it; an assignable process that pipewire does not hold
   * has the foreground profile if it is on the list and the background profile otherwise; the
   * applied profile of every other process is the one it had once the children were assigned.
   * Without foreground profiles, the children are assigned and that is all.
   */
  lemma ForegroundIsPartitioned(s: State, env: Env, pid: Pid)
    requires Settled(s) && ValidEnv(env)
    ensures s.config.foreground.None? ==> SetForeground(s, env, pid) == AssignChildren(s, env, pid)
    ensures s.config.foreground.Some? ==>
            var a, u := AssignChildren(s, env, pid), SetForeground(s, env, pid);
            var f := s.config.foreground.value;
            && u.table == a.table && u.foreground == Some(pid)
            && (forall q :: q in u.foregroundProcesses <==> OfForeground(u.table, pid, q))
            && (forall r {:trigger u.table.cells[r]} :: r in u.table.cells ==>
                  var p := u.table.cells[r];
                  if p.assignedPriority == Assignable && !PipewireAssigned(u, p) then
                    p.id in u.applied && u.applied[p.id] == if OfForeground(u.table, pid, p.id) then f.foreground else f.background
                  else SameAt(a.applied, u.applied, p.id))
  {
    var a := AssignChildren(s, env, pid);
    AssignChildrenKeepAgreement(s, env, pid);
    hide AssignChildren;
    if s.config.foreground.None? {
      return;
    }
    var f := s.config.foreground.value;
    var u := Partition(a, env, f, pid);
    assert SetForeground(s, env, pid) == u;
    forall q
      ensures q in u.foregroundProcesses <==> OfForeground(u.table, pid, q)
    {
      PartitionCache(a, env, f, pid, q);
    }
    forall r | r in u.table.cells
      ensures var p := u.table.cells[r];
              if p.assignedPriority == Assignable && !PipewireAssigned(u, p) then
                p.id in u.applied && u.applied[p.id] == if OfForeground(u.table, pid, p.id) then f.foreground else f.background
              else SameAt(a.applied, u.applied, p.id)
    {
      PartitionApplies(a, env, f, pid, r);
      hide OfForeground, WellFormed, Covered, ApplyAll, PidsOf, SameAt;
    }
    hide OfForeground, WellFormed, Covered, SetForeground, Partition, SameAt, PipewireAssigned;
  }

  /**
   * A new assignable process that pipewire does not hold gets the foreground profile exactly when
   * its pid is the foreground or already on the cached list. That it descends from the foreground
   * process does not help: until the list is rebuilt it runs with the background profile.
   */
  lemma NewProcessProfileIsExact(s: State, env: Env, pid: Pid, parentPid: Pid, name: string, cmdline: string)
    requires Keyed(s.table) && s.config.foreground.Some? && s.foreground.Some?
    requires s.config.foreground.value.foreground != s.config.foreground.value.background
    ensures var u, k := AssignNew(s, env, pid, parentPid, name, cmdline), Key(pid, parentPid);
            && k in u.table.byKey && u.table.byKey[k] in u.table.cells
            && var p, f := u.table.cells[u.table.byKey[k]], s.config.foreground.value;
               && DescendedFrom(u.table, p, parentPid)
               && (p.assignedPriority == Assignable && !PipewireAssigned(u, p) ==>
                     && pid in u.applied
                     && (u.applied[pid] == f.foreground <==> pid == s.foreground.value || pid in s.foregroundProcesses)
                     && (u.applied[pid] == f.background <==> pid != s.foreground.value && pid !in s.foregroundProcesses))
  {
    hide AssignNew, Ancestors, SameButFate, OthersKept;
    var p := CreatedProcess(s.table, env, pid, parentPid, name, cmdline);
    assert p.HashId() == Key(pid, parentPid) && p.id == pid;
    hide CreatedProcess, Keyed;
    AssignNewRecordsOne(s, env, pid, parentPid, name, cmdline);
    var u := AssignNew(s, env, pid, parentPid, name, cmdline);
    RecordedCell(s.table, u.table, p, s.pipewireProcesses);
    assert p.HashId() in u.table.byKey && u.table.byKey[p.HashId()] == InsertRef(s.table, p);
    hide RecordsOne, InsertRef;
  }

  // ---------------------------------------------------------------------------------------
  // Pipewire
  // ---------------------------------------------------------------------------------------

  /** The search succeeds when an ancestor, or the parent that an ancestor names, is on the list. */
  lemma {:induction false} PipewireAncestorIsExact(t: Table, walk: seq<Ref>, pids: seq<Pid>)
    requires forall r :: r in walk ==> r in t.cells
    ensures PipewireAncestor(t, walk, pids).Some? <==>
              exists r :: r in walk && r in t.cells && (t.cells[r].id in pids || t.cells[r].parentId in pids)
  {
    if walk != [] {
      FirstNamedIsListed(t.cells[walk[0]], pids);
      PipewireAncestorIsExact(t, walk[1..], pids);
      assert forall r :: r in walk <==> r == walk[0] || r in walk[1..];
    }
  }

  ghost predicate AncestorListed(t: Table, p: Process, pids: seq<Pid>) {
    exists r :: r in Ancestors(t, p) && r in t.cells && (t.cells[r].id in pids || t.cells[r].parentId in pids)
  }

  /** The record is that process, or a child of it by the parent it names. */
  ghost predicate NamesPid(p: Process, a: Pid) {
    p.id == a || p.parentId == a
  }

  /** The first cell of a walk that names a listed pid, and the first pid of the list that it names. */
  ghost predicate FirstMatch(t: Table, walk: seq<Ref>, pids: seq<Pid>, k: int, j: int) {
    && 0 <= k < |walk| && 0 <= j < |pids| && walk[k] in t.cells && NamesPid(t.cells[walk[k]], pids[j])
    && (forall i :: 0 <= i < j ==> !NamesPid(t.cells[walk[k]], pids[i]))
    && (forall h, i :: 0 <= h < k && 0 <= i < |pids| && walk[h] in t.cells ==> !NamesPid(t.cells[walk[h]], pids[i]))
  }

  ghost predicate MatchedFirst(t: Table, walk: seq<Ref>, pids: seq<Pid>, a: Pid) {
    exists k, j :: FirstMatch(t, walk, pids, k, j) && pids[j] == a
  }

  lemma {:induction false} FirstNamedExactly(p: Process, pids: seq<Pid>, a: Pid)
    ensures FirstNamed(p, pids) == Some(a) <==>
              exists j :: 0 <= j < |pids| && pids[j] == a && NamesPid(p, a) && forall i :: 0 <= i < j ==> !NamesPid(p, pids[i])
  {
    if pids != [] {
      FirstNamedExactly(p, pids[1..], a);
      var rest := pids[1..];
      if j :| 0 <= j < |rest| && rest[j] == a && NamesPid(p, a) && forall i :: 0 <= i < j ==> !NamesPid(p, rest[i]) {
        assert pids[j + 1] == a;
        assert !NamesPid(p, pids[0]) ==> forall i :: 0 <= i < j + 1 ==> i == 0 || pids[i] == rest[i - 1];
      }
      if j :| 0 <= j < |pids| && pids[j] == a && NamesPid(p, a) && forall i :: 0 <= i < j ==> !NamesPid(p, pids[i]) {
        assert j > 0 ==> !NamesPid(p, pids[0]) && rest[j - 1] == a && forall i :: 0 <= i < j - 1 ==> rest[i] == pids[i + 1];
      }
    }
  }

  lemma NamedSomewhere(p: Process, pids: seq<Pid>)
    ensures FirstNamed(p, pids).Some? <==> exists i :: 0 <= i < |pids| && NamesPid(p, pids[i])
  {
    FirstNamedIsListed(p, pids);
    hide FirstNamed;
    assert forall i :: 0 <= i < |pids| ==> pids[i] in pids;
  }

  /**
   * The search finds the first cell of the walk that is a listed process or names one as its parent,
   * and of the pids that this cell matches the one that was put on the list first.
   */
  lemma {:induction false} HolderIsFirst(t: Table, walk: seq<Ref>, pids: seq<Pid>, a: Pid)
    ensures PipewireAncestor(t, walk, pids) == Some(a) <==> MatchedFirst(t, walk, pids, a)
  {
    if walk != [] {
      HolderIsFirst(t, walk[1..], pids, a);
      FirstMatchMore(t, walk, pids, a);
      if walk[0] in t.cells {
        FirstNamedExactly(t.cells[walk[0]], pids, a);
        NamedSomewhere(t.cells[walk[0]], pids);
      }
      hide FirstNamed, MatchedFirst, NamesPid;
    }
  }

  lemma FirstMatchMore(t: Table, walk: seq<Ref>, pids: seq<Pid>, a: Pid)
    requires walk != []
    ensures var here := walk[0] in t.cells && exists i :: 0 <= i < |pids| && NamesPid(t.cells[walk[0]], pids[i]);
            MatchedFirst(t, walk, pids, a) <==>
              if here then
                exists j :: 0 <= j < |pids| && pids[j] == a && NamesPid(t.cells[walk[0]], a)
                            && forall i :: 0 <= i < j ==> !NamesPid(t.cells[walk[0]], pids[i])
              else MatchedFirst(t, walk[1..], pids, a)
  {
    hide NamesPid;
    var rest := walk[1..];
    if k, j :| FirstMatch(t, walk, pids, k, j) && pids[j] == a {
      if k > 0 {
        assert forall h :: 0 <= h < k - 1 ==> rest[h] == walk[h + 1];
        assert FirstMatch(t, rest, pids, k - 1, j);
      }
    }
    if k, j :| FirstMatch(t, rest, pids, k, j) && pids[j] == a {
      if !(walk[0] in t.cells && exists i :: 0 <= i < |pids| && NamesPid(t.cells[walk[0]], pids[i])) {
        assert forall h :: 0 < h <= k ==> walk[h] == rest[h - 1];
        assert FirstMatch(t, walk, pids, k + 1, j);
      }
    }
    if j :| 0 <= j < |pids| && pids[j] == a && walk[0] in t.cells && NamesPid(t.cells[walk[0]], a)
            && forall i :: 0 <= i < j ==> !NamesPid(t.cells[walk[0]], pids[i]) {
      assert FirstMatch(t, walk, pids, 0, j);
    }
  }

  /** The record under this key is held for the sake of some process above it. */
  ghost predicate HeldUnder(t: Table, k: Key) {
    k in t.byKey && t.byKey[k] in t.cells && t.cells[t.byKey[k]].pipewireAncestor.Some?
  }

  ghost predicate HeldFor(t: Table, k: Key, a: Pid) {
    k in t.byKey && t.byKey[k] in t.cells && t.cells[t.byKey[k]].pipewireAncestor == Some(a)
  }

  /** Of the listed processes above, the one that the search meets first. */
  ghost predicate MatchedAbove(t: Table, p: Process, pids: seq<Pid>, a: Pid) {
    MatchedFirst(t, Ancestors(t, p), pids, a)
  }

  lemma SearchIsExact(t: Table, p: Process, pids: seq<Pid>)
    ensures PipewireAncestor(t, Ancestors(t, p), pids).Some? <==> AncestorListed(t, p, pids)
  {
    WalkInCells(t, p.parent, |t.cells|);
    PipewireAncestorIsExact(t, Ancestors(t, p), pids);
    hide Walk, PipewireAncestor;
  }

  lemma ShapeKeepsListed(t: Table, u: Table, r: Ref, pids: seq<Pid>)
    requires SameShape(t, u) && r in t.cells
    ensures AncestorListed(t, t.cells[r], pids) <==> AncestorListed(u, u.cells[r], pids)
  {
    ShapeKeepsNames(t, u);
    SameDescent(t, u, t.cells[r], u.cells[r], 0);
    hide Ancestors, SameShape;
  }

  lemma ShapeKeepsMatch(t: Table, u: Table, r: Ref, pids: seq<Pid>, a: Pid)
    requires SameShape(t, u) && r in t.cells
    ensures MatchedAbove(t, t.cells[r], pids, a) <==> MatchedAbove(u, u.cells[r], pids, a)
  {
    ShapeKeepsNames(t, u);
    SameDescent(t, u, t.cells[r], u.cells[r], 0);
    SameNamesMatch(t, u, Ancestors(t, t.cells[r]), pids, a);
    hide Ancestors, SameShape, MatchedFirst, SameNames;
  }

  lemma SameNamesMatch(t: Table, u: Table, walk: seq<Ref>, pids: seq<Pid>, a: Pid)
    requires SameLinks(t, u)
    ensures MatchedFirst(t, walk, pids, a) <==> MatchedFirst(u, walk, pids, a)
  {
    hide Upgrade;
    assert forall r, b :: r in t.cells ==> (NamesPid(t.cells[r], b) <==> NamesPid(u.cells[r], b));
    hide NamesPid;
    assert forall k, j :: FirstMatch(t, walk, pids, k, j) <==> FirstMatch(u, walk, pids, k, j);
    hide FirstMatch;
  }

  lemma RecordedHolder(t: Table, p: Process, pids: seq<Pid>)
    requires Keyed(t) && p.pipewireAncestor == None
    ensures var u, r := Recorded(t, p, pids), InsertRef(t, p);
            r in u.cells && (u.cells[r].pipewireAncestor.Some? <==> HeldUnder(t, p.HashId()) || AncestorListed(u, u.cells[r], pids))
  {
    var i, r := Insert(t, p), InsertRef(t, p);
    InsertKeepsOthers(t, p);
    assert r in t.cells || p.HashId() !in t.byKey;
    assert p.HashId() in t.byKey ==> t.byKey[p.HashId()] == r;
    hide Insert, InsertRef, Keyed, Ancestors, PipewireAncestor, AncestorListed;
    var ancestor := PipewireAncestor(i, Ancestors(i, i.cells[r]), pids);
    SearchIsExact(i, i.cells[r], pids);
    SetCellKeepsShape(i, r, WithPipewireAncestor(i.cells[r], ancestor));
    ShapeKeepsListed(i, Recorded(t, p, pids), r, pids);
  }

  /** Held for the first listed process above it, or if there is none, for whom it was held before. */
  ghost predicate HolderIs(t: Table, u: Table, k: Key, r: Ref, pids: seq<Pid>, a: Pid)
    requires r in u.cells
  {
    u.cells[r].pipewireAncestor == Some(a) <==>
      MatchedAbove(u, u.cells[r], pids, a) || (!AncestorListed(u, u.cells[r], pids) && HeldFor(t, k, a))
  }

  lemma InsertedHolder(t: Table, p: Process, a: Pid)
    requires Keyed(t) && p.pipewireAncestor == None
    ensures var i, r := Insert(t, p), InsertRef(t, p);
            r in i.cells && (i.cells[r].pipewireAncestor == Some(a) <==> HeldFor(t, p.HashId(), a))
  {
  }

  lemma RecordedHolderIs(t: Table, p: Process, pids: seq<Pid>, a: Pid)
    requires Keyed(t) && p.pipewireAncestor == None
    ensures var u, r := Recorded(t, p, pids), InsertRef(t, p);
            r in u.cells && HolderIs(t, u, p.HashId(), r, pids, a)
  {
    hide Insert, InsertRef, Keyed, Ancestors, PipewireAncestor, AncestorListed, HeldFor, MatchedAbove, SameShape;
    var i, r := Insert(t, p), InsertRef(t, p);
    InsertedHolder(t, p, a);
    var ancestor := PipewireAncestor(i, Ancestors(i, i.cells[r]), pids);
    SearchIsExact(i, i.cells[r], pids);
    SearchMatches(i, i.cells[r], pids, a);
    SetCellKeepsShape(i, r, WithPipewireAncestor(i.cells[r], ancestor));
    ShapeKeepsListed(i, Recorded(t, p, pids), r, pids);
    ShapeKeepsMatch(i, Recorded(t, p, pids), r, pids, a);
  }

  lemma SearchMatches(t: Table, p: Process, pids: seq<Pid>, a: Pid)
    ensures PipewireAncestor(t, Ancestors(t, p), pids) == Some(a) <==> MatchedAbove(t, p, pids, a)
  {
    hide Ancestors, PipewireAncestor, MatchedFirst;
    HolderIsFirst(t, Ancestors(t, p), pids, a);
  }

  lemma RecordedKey(t: Table, u: Table, p: Process, pids: seq<Pid>)
    requires Keyed(t) && RecordsOne(t, u, p, pids)
    ensures p.HashId() in u.byKey && u.byKey[p.HashId()] == InsertRef(t, p)
  {
    hide SameButFate, OthersKept;
  }

  lemma DecidingKeepsHolder(c: SchedulerConfig, t: Table, r: Ref, pids: seq<Pid>)
    requires r in t.cells
    ensures var u := SetCell(t, r, Decided(c, t, t.cells[r]));
            && u.byKey == t.byKey && u.cells[r].pipewireAncestor == t.cells[r].pipewireAncestor
            && (AncestorListed(u, u.cells[r], pids) <==> AncestorListed(t, t.cells[r], pids))
            && forall a: Pid :: MatchedAbove(u, u.cells[r], pids, a) <==> MatchedAbove(t, t.cells[r], pids, a)
  {
    hide Classify, AncestorListed, MatchedAbove, SameShape;
    var u := SetCell(t, r, Decided(c, t, t.cells[r]));
    SetCellKeepsShape(t, r, Decided(c, t, t.cells[r]));
    ShapeKeepsListed(t, u, r, pids);
    forall a: Pid
      ensures MatchedAbove(u, u.cells[r], pids, a) <==> MatchedAbove(t, t.cells[r], pids, a)
    {
      ShapeKeepsMatch(t, u, r, pids, a);
    }
  }

  /**
   * A record is held for pipewire once it has been recorded exactly when it was held before, or one
   * of its ancestors in the new table, or the parent that such an ancestor names, is on the list;
   * its own parent pid is not consulted.
   */
  lemma RecordingHoldsExactly(s: State, env: Env, pid: Pid, parentPid: Pid, name: string, cmdline: string)
    requires Keyed(s.table)
    ensures var u, k := AssignNew(s, env, pid, parentPid, name, cmdline).table, Key(pid, parentPid);
            && k in u.byKey && u.byKey[k] in u.cells
            && (HeldUnder(u, k) <==> HeldUnder(s.table, k) || AncestorListed(u, u.cells[u.byKey[k]], s.pipewireProcesses))
  {
    var p := CreatedProcess(s.table, env, pid, parentPid, name, cmdline);
    assert p.HashId() == Key(pid, parentPid) && p.pipewireAncestor == None;
    var t, r := Recorded(s.table, p, s.pipewireProcesses), InsertRef(s.table, p);
    hide CreatedProcess, Recorded, AncestorListed, MatchedAbove, Decided, SameShape, Insert, Keyed;
    RecordedHolder(s.table, p, s.pipewireProcesses);
    RecordedIs(s.table, p, s.pipewireProcesses);
    RecordedKey(s.table, t, p, s.pipewireProcesses);
    DecidingKeepsHolder(s.config, t, r, s.pipewireProcesses);
    assert AssignNew(s, env, pid, parentPid, name, cmdline).table == SetCell(t, r, Decided(s.config, t, t.cells[r]));
  }

  /**
   * It is held for the first process from below that matches, and where a cell matches two listed
   * pids, by its own pid and its parent's, for the one that is earlier on the list. Only if nobody
   * above is listed does it keep the holder it had.
   */
  lemma RecordingHolderIsExact(s: State, env: Env, pid: Pid, parentPid: Pid, name: string, cmdline: string, a: Pid)
    requires Keyed(s.table)
    ensures var u, k := AssignNew(s, env, pid, parentPid, name, cmdline).table, Key(pid, parentPid);
            k in u.byKey && u.byKey[k] in u.cells && HolderIs(s.table, u, k, u.byKey[k], s.pipewireProcesses, a)
  {
    var p := CreatedProcess(s.table, env, pid, parentPid, name, cmdline);
    assert p.HashId() == Key(pid, parentPid) && p.pipewireAncestor == None;
    var t, r := Recorded(s.table, p, s.pipewireProcesses), InsertRef(s.table, p);
    hide CreatedProcess, Recorded, AncestorListed, MatchedAbove, Decided, SameShape, Insert, Keyed, HeldFor;
    RecordedHolderIs(s.table, p, s.pipewireProcesses, a);
    RecordedIs(s.table, p, s.pipewireProcesses);
    RecordedKey(s.table, t, p, s.pipewireProcesses);
    DecidingKeepsHolder(s.config, t, r, s.pipewireProcesses);
    assert AssignNew(s, env, pid, parentPid, name, cmdline).table == SetCell(t, r, Decided(s.config, t, t.cells[r]));
  }

  /** A recorded process stays held for the process it was recorded for when another one is removed. */
  lemma OtherRemovalKeepsHolder(s: State, env: Env, pid: Pid, parentPid: Pid, name: string, cmdline: string, holder: Pid, other: Pid)
    requires Keyed(s.table) && other != holder && other != pid
    requires var u := AssignNew(s, env, pid, parentPid, name, cmdline).table;
             var k := Key(pid, parentPid);
             k in u.byKey && u.byKey[k] in u.cells && MatchedAbove(u, u.cells[u.byKey[k]], s.pipewireProcesses, holder)
    ensures HeldFor(RemovePipewire(AssignNew(s, env, pid, parentPid, name, cmdline), env, other).table, Key(pid, parentPid), holder)
  {
    hide AssignNew, MatchedAbove, AncestorListed, ApplyAll, ReleaseWrites;
    RecordingHolderIsExact(s, env, pid, parentPid, name, cmdline, holder);
    RecordedUnderKey(s, env, pid, parentPid, name, cmdline);
    assert HeldFor(AssignNew(s, env, pid, parentPid, name, cmdline).table, Key(pid, parentPid), holder);
  }

  lemma RecordedUnderKey(s: State, env: Env, pid: Pid, parentPid: Pid, name: string, cmdline: string)
    requires Keyed(s.table)
    ensures var u, k := AssignNew(s, env, pid, parentPid, name, cmdline).table, Key(pid, parentPid);
            k in u.byKey && u.byKey[k] in u.cells ==> u.cells[u.byKey[k]].id == pid
  {
    hide AssignNew, CreatedProcess, Insert, SameShape, Pick, OthersKept;
    var p := CreatedProcess(s.table, env, pid, parentPid, name, cmdline);
    assert p.HashId() == Key(pid, parentPid) && p.id == pid by { CreatedHasKey(s.table, env, pid, parentPid, name, cmdline); }
    AssignNewRecordsOne(s, env, pid, parentPid, name, cmdline);
    RecordedCell(s.table, AssignNew(s, env, pid, parentPid, name, cmdline).table, p, s.pipewireProcesses);
    RecordedKey(s.table, AssignNew(s, env, pid, parentPid, name, cmdline).table, p, s.pipewireProcesses);
  }

  lemma CreatedHasKey(t: Table, env: Env, pid: Pid, parentPid: Pid, name: string, cmdline: string)
    ensures var p := CreatedProcess(t, env, pid, parentPid, name, cmdline); p.HashId() == Key(pid, parentPid) && p.id == pid
  {
  }
}
