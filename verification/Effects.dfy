/** What the table reflects of the world after a refresh, a sweep or a pipewire addition. */
module Effects {
  import opened Basics
  import opened Scheduler
  import opened ProcessTable
  import opened TableOperations
  import opened Refresh
  import opened Engine
  import opened EngineInvariants
  import opened Agreement
  import opened WholeRuns

  /** A base name is what follows the last slash, or everything if there is none. */
  lemma {:induction false} BaseNameFollowsSlash(cmdline: string) returns (path: string)
    ensures cmdline == path + BaseName(cmdline) && '/' !in BaseName(cmdline)
    ensures path == "" || path[|path| - 1] == '/'
  {
    if cmdline == "" || cmdline[|cmdline| - 1] == '/' {
      path := cmdline;
    } else {
      var n := |cmdline| - 1;
      path := BaseNameFollowsSlash(cmdline[..n]);
      assert cmdline == cmdline[..n] + [cmdline[n]];
    }
  }

  /** The keys of the processes that are listed and are no kernel threads. */
  ghost predicate IsListedKey(env: Env, pids: seq<Pid>, k: Key) {
    k.id in pids && env.cmdline(k.id).Some? && k.parentId == env.parentId(k.id).GetOr(0)
  }

  lemma ListedKeys(env: Env, pids: seq<Pid>, bare: bool, k: Key)
    ensures k in Records(Listed(env, pids, bare)) <==> IsListedKey(env, pids, k)
    ensures k in Records(Listed(env, pids, bare)) ==> Records(Listed(env, pids, bare))[k] == RecordOf(env, k.id, bare)
  {
    ListedIs(env, pids, bare);
    hide Listed;
    if k in Records(Listed(env, pids, bare)) {
      assert Records(Listed(env, pids, bare))[k] in Listed(env, pids, bare);
    }
    if IsListedKey(env, pids, k) {
      assert RecordOf(env, k.id, bare).HashId() == k;
    }
  }

  /** Whether a record survived under the name it had. */
  ghost predicate SurvivesAs(t: Table, r: Ref, k: Key, name: string) {
    k in t.byKey && t.byKey[k] == r && r in t.cells && t.cells[r].name == name
  }

  /**
   * A swept table holds exactly the listed processes, under the names and groups that were
   * read; a decision outlives the sweep only together with the name it was made for, and so does
   * the command line. A new name brings the command line that was read, and the old name and
   * command line are remembered.
   */
  lemma RefreshReflectsListing(t: Table, env: Env, bare: bool, parents: map<Pid, Pid>, r: Ref, k: Key)
    requires Sound(t) && ValidEnv(env) && env.listing.Some?
    ensures var u := Refreshed(t, Listed(env, env.listing.value, bare), parents);
            && (k in u.byKey <==> IsListedKey(env, env.listing.value, k))
            && (r in u.cells ==>
                  var p := u.cells[r];
                  && env.cmdline(p.id).Some?
                  && p.name == (if bare then "" else BaseName(env.cmdline(p.id).value))
                  && p.cgroup == (if bare then "" else env.cgroup(p.id).GetOr(""))
                  && p.assignedPriority == (if SurvivesAs(t, r, p.HashId(), p.name) then t.cells[r].assignedPriority else NotAssignable)
                  && p.cmdline == (if SurvivesAs(t, r, p.HashId(), p.name) then t.cells[r].cmdline
                                   else if bare then "" else env.cmdline(p.id).value)
                  && (p.forkedName, p.forkedCmdline) ==
                     if SurvivesAs(t, r, p.HashId(), p.name) then (t.cells[r].forkedName, t.cells[r].forkedCmdline)
                     else if p.HashId() in t.byKey && r in t.cells then (t.cells[r].name, t.cells[r].cmdline)
                     else ("", ""))
  {
    var ps := Listed(env, env.listing.value, bare);
    var u := Refreshed(t, ps, parents);
    ListedIsListing(env, env.listing.value, bare);
    RefreshSweeps(t, ps, parents);
    ListedKeys(env, env.listing.value, bare, k);
    hide Listed, Refreshed, IsListing, Allocated, PidIndexed, ValidEnv;
    if r in u.cells {
      var q := Records(ps)[u.cells[r].HashId()];
      ListedKeys(env, env.listing.value, bare, u.cells[r].HashId());
      RefreshedRecord(t, ps, parents, q);
      assert u.byKey[q.HashId()] == r;
      hide Records, IsListedKey;
    }
  }

  /**
   * When the garbage collector sweeps, it keeps the listed processes but not what was known of
   * them: names and groups are blank, links are cut, and only a record that already had no
   * name keeps its decision.
   */
  lemma GarbageCleanForgets(s: State, env: Env, r: Ref)
    requires WellFormed(s) && ValidEnv(env) && env.listing.Some? && s.gcCounter == GC_INTERVAL
    requires r in GarbageClean(s, env).table.cells
    ensures var u := GarbageClean(s, env);
            var p := u.table.cells[r];
            && u.gcCounter == 0 && u.applied == s.applied
            && IsListedKey(env, env.listing.value, p.HashId())
            && p.name == "" && p.cgroup == "" && p.parent == None
            && (r in s.table.cells && s.table.cells[r].name != "" && s.table.cells[r].HashId() == p.HashId() ==>
                  p.assignedPriority == NotAssignable && p.forkedName == s.table.cells[r].name)
  {
    var ps := Listed(env, env.listing.value, true);
    SweepIsRefresh(s.table, ps);
    var u := GarbageClean(s, env);
    assert u.table == Refreshed(s.table, ps, map[]);
    ListedIsListing(env, env.listing.value, true);
    RefreshReflectsListing(s.table, env, true, map[], r, u.table.cells[r].HashId());
    RefreshedFromMarked(s.table, ps, map[]);
    AbsorbedUnlinked(s.table, ps, r);
    RefreshSweeps(s.table, ps, map[]);
    hide Swept, Refreshed, Listed, IsListing, Records, Absorb, ValidEnv, Linked, PipewireSound;
  }

  /**
   * Adding a pipewire process: it joins the list unless it is tracked with an assignment of its
   * own; if it is on the list, it and every assignable process below it get the pipewire
   * profile, those below are held on its account, and nothing else changes. Without a pipewire
   * profile, its children are assigned and that is all.
   */
  lemma PipewireHolds(s: State, env: Env, pid: Pid, r: Ref)
    requires Settled(s) && ValidEnv(env)
    ensures s.config.pipewire.None? ==> SetPipewire(s, env, pid) == AssignChildren(s, env, pid)
    ensures s.config.pipewire.Some? ==>
            var a, u := AssignChildren(s, env, pid), SetPipewire(s, env, pid);
            && (pid in u.pipewireProcesses <==>
                  pid in s.pipewireProcesses || pid !in a.table.byPid || Assignment(a.table, pid) == Assignable)
            && (r in a.table.cells ==>
                  r in u.table.cells &&
                  var p := a.table.cells[r];
                  var below := p.assignedPriority == Assignable && p.id != pid && DescendedFrom(a.table, p, pid);
                  if pid !in u.pipewireProcesses then u.table == a.table && u.applied == a.applied
                  else
                    && u.table.cells[r] == (if below then p.(pipewireAncestor := Some(pid)) else p)
                    && if below || (p.assignedPriority == Assignable && p.id == pid)
                       then p.id in u.applied && u.applied[p.id] == s.config.pipewire.value
                       else SameAt(a.applied, u.applied, p.id))
  {
    AssignChildrenKeepAgreement(s, env, pid);
    var a := AssignChildren(s, env, pid);
    if s.config.pipewire.None? {
      return;
    }
    var profile := s.config.pipewire.value;
    hide AssignChildren, Linked, PipewireSound, ForegroundListed, ValidEnv;
    if r in a.table.cells {
      HoldAt(a, env, profile, pid, r);
      HoldAt(a.(pipewireProcesses := a.pipewireProcesses + [pid]), env, profile, pid, r);
    }
    HoldKeepsList(a, env, profile, pid);
    HoldKeepsList(a.(pipewireProcesses := a.pipewireProcesses + [pid]), env, profile, pid);
    hide Sound, Covered, Hold, Assignment, DescendedFrom, SameAt;
  }

  lemma HoldKeepsList(s: State, env: Env, profile: Profile, pid: Pid)
    ensures Hold(s, env, profile, pid).pipewireProcesses == s.pipewireProcesses
  {
  }
}
