/** Mark-and-sweep refresh of the process table: what is left, what it keeps and what it loses. */
module Refresh {
  import opened Basics
  import opened Scheduler
  import opened ProcessTable
  import opened TableOperations

  /** Records that agree in everything but their parent link. */
  ghost predicate SameButLink(p: Process, q: Process) {
    p.(parent := None) == q.(parent := None)
  }

  /** No two keys of the set share a pid. */
  ghost predicate DistinctPids(keys: set<Key>) {
    forall k, l :: k in keys && l in keys && k.id == l.id ==> k == l
  }

  lemma {:induction false} RecordsDistinct(ps: seq<Process>)
    requires IsListing(ps)
    ensures DistinctPids(Records(ps).Keys)
    ensures forall k {:trigger Records(ps)[k]} :: k in Records(ps) ==> Records(ps)[k].parent == None
  {
    if ps != [] {
      var init, p := ps[..|ps| - 1], ps[|ps| - 1];
      assert init + [p] == ps;
      RecordsMore(init, p);
      RecordsDistinct(init);
    }
  }

  // ---------------------------------------------------------------------------------------
  // Linking
  // ---------------------------------------------------------------------------------------

  lemma LinkKeepsCells(t: Table, parents: map<Pid, Pid>, pids: set<Pid>)
    ensures var u := LinkSome(t, parents, pids);
            && u.cells.Keys == t.cells.Keys && u.byKey == t.byKey && u.byPid == t.byPid
            && u.drain == t.drain && u.next == t.next
            && (forall r {:trigger u.cells[r]} :: r in t.cells ==> SameButLink(t.cells[r], u.cells[r]))
  {
  }

  lemma LinkKeepsSound(t: Table, parents: map<Pid, Pid>)
    requires Sound(t)
    ensures Sound(LinkAll(t, parents))
  {
    var u := LinkAll(t, parents);
    LinkKeepsCells(t, parents, parents.Keys);
    assert forall r {:trigger u.cells[r]} :: r in u.cells ==> u.cells[r].HashId() == t.cells[r].HashId();
    assert Keyed(u) && PidIndexed(u);
    assert Allocated(u);
  }

  /** Linking may mislead a record only if that record is about to be swept. */
  lemma LinkedUnlessDoomed(t: Table, parents: map<Pid, Pid>, listed: set<Key>, r: Ref)
    requires Sound(t) && Linked(t) && DistinctPids(listed)
    requires forall pid :: pid in parents ==> Key(pid, parents[pid]) in listed
    requires t.byKey.Keys <= listed + t.drain
    requires r in t.cells
    ensures LinkedAt(LinkAll(t, parents), r) || t.cells[r].HashId() in t.drain
  {
    var u := LinkAll(t, parents);
    var p := t.cells[r];
    LinkKeepsCells(t, parents, parents.Keys);
    assert LinkedAt(t, r);
    if u.cells[r] != p && p.HashId() !in t.drain {
      assert p.HashId() in listed && Key(p.id, parents[p.id]) in listed;
    }
  }

  // ---------------------------------------------------------------------------------------
  // Sweeping
  // ---------------------------------------------------------------------------------------

  lemma RemoveKeepsSound(t: Table, gone: set<Key>)
    requires Sound(t)
    ensures Sound(Remove(t, gone))
  {
    var u := Remove(t, gone);
    assert Keyed(u);
    assert Allocated(u);
    forall pid | pid in u.byPid
      ensures u.byPid[pid] in u.cells && u.cells[u.byPid[pid]].id == pid
    {
      var k := t.cells[t.byPid[pid]].HashId();
      assert k in t.byKey && k.id == pid;
    }
  }

  // ---------------------------------------------------------------------------------------
  // The refresh
  // ---------------------------------------------------------------------------------------

  /** The table between the marking and the sweeping. */
  function Marked(t: Table, ps: seq<Process>, parents: map<Pid, Pid>): Table {
    LinkAll(Absorb(Prepare(t), ps), parents)
  }

  lemma MarkedIs(t: Table, ps: seq<Process>, parents: map<Pid, Pid>)
    requires Sound(t) && IsListing(ps)
    ensures var a, m := Absorb(Prepare(t), ps), Marked(t, ps, parents);
            && Sound(a) && Sound(m) && Absorbed(Prepare(t), a, Records(ps))
            && m.drain == t.byKey.Keys - Records(ps).Keys
            && m.byKey.Keys == t.byKey.Keys + Records(ps).Keys
  {
    hide Sound, Absorb, LinkSome, AbsorbedAs, UnlistedKept, PidsKept;
    DrainKeepsSound(t, t.byKey.Keys);
    var a := Absorb(Prepare(t), ps);
    AbsorbIsExact(Prepare(t), ps);
    AbsorbKeepsSound(Prepare(t), ps);
    AbsorbDrains(Prepare(t), ps);
    LinkKeepsSound(a, parents);
    LinkKeepsCells(a, parents, parents.Keys);
  }

  /**
   * How a listed process appears after the refresh: a tracked key keeps its cell, takes over the
   * listed name and cgroup, and keeps its decision unless the name changed.
   */
  ghost predicate RefreshedAs(t: Table, u: Table, p: Process) {
    && p.HashId() in u.byKey && u.byKey[p.HashId()] in u.cells
    && var r := u.byKey[p.HashId()];
       var q := u.cells[r];
       && q.name == p.name && q.cgroup == p.cgroup
       && if p.HashId() in t.byKey then
            && r == t.byKey[p.HashId()] && r in t.cells
            && q.pipewireAncestor == t.cells[r].pipewireAncestor
            && if t.cells[r].name == p.name
               then
                 && q.assignedPriority == t.cells[r].assignedPriority
                 && q.cmdline == t.cells[r].cmdline
                 && (q.forkedName, q.forkedCmdline) == (t.cells[r].forkedName, t.cells[r].forkedCmdline)
               else
                 && q.assignedPriority == NotAssignable
                 && q.cmdline == p.cmdline
                 && (q.forkedName, q.forkedCmdline) == (t.cells[r].name, t.cells[r].cmdline)
          else
            t.next <= r && SameButLink(q, p)
  }

  lemma RefreshedFromAbsorbed(t: Table, a: Table, u: Table, p: Process)
    requires Prepare(t).cells == t.cells && AbsorbedAs(Prepare(t), a, p)
    requires p.HashId() in u.byKey && u.byKey[p.HashId()] == a.byKey[p.HashId()]
    requires u.byKey[p.HashId()] in u.cells
    requires SameButLink(a.cells[u.byKey[p.HashId()]], u.cells[u.byKey[p.HashId()]])
    ensures RefreshedAs(t, u, p)
  {
  }

  lemma SweepKeepsListed(t: Table, ps: seq<Process>, parents: map<Pid, Pid>, p: Process)
    requires Sound(t) && IsListing(ps) && p in ps
    ensures var a, u := Absorb(Prepare(t), ps), Refreshed(t, ps, parents);
            && p.HashId() in u.byKey && u.byKey[p.HashId()] == a.byKey[p.HashId()]
            && u.byKey[p.HashId()] in u.cells
            && SameButLink(a.cells[u.byKey[p.HashId()]], u.cells[u.byKey[p.HashId()]])
  {
    hide Absorb, Absorbed, IsListing, PidIndexed, Allocated;
    var a, m := Absorb(Prepare(t), ps), Marked(t, ps, parents);
    MarkedIs(t, ps, parents);
    LinkKeepsCells(a, parents, parents.Keys);
    hide LinkSome;
    var r := a.byKey[p.HashId()];
    assert SameButLink(a.cells[r], m.cells[r]);
    assert m.cells[r].HashId() == p.HashId() && p.HashId() !in m.drain;
  }

  lemma RefreshedRecord(t: Table, ps: seq<Process>, parents: map<Pid, Pid>, p: Process)
    requires Sound(t) && IsListing(ps) && p in ps
    ensures RefreshedAs(t, Refreshed(t, ps, parents), p)
  {
    hide Sound, Absorb, SameButLink, Refreshed, IsListing, AbsorbedAs;
    MarkedIs(t, ps, parents);
    ListedRecord(ps, p);
    SweepKeepsListed(t, ps, parents, p);
    assert AbsorbedAs(Prepare(t), Absorb(Prepare(t), ps), Records(ps)[p.HashId()]);
    RefreshedFromAbsorbed(t, Absorb(Prepare(t), ps), Refreshed(t, ps, parents), p);
  }

  lemma ListedRecord(ps: seq<Process>, p: Process)
    requires IsListing(ps) && p in ps
    ensures Records(ps)[p.HashId()] == p
  {
    var q := Records(ps)[p.HashId()];
    var i :| 0 <= i < |ps| && ps[i] == p;
    var j :| 0 <= j < |ps| && ps[j] == q;
    assert q.HashId() == p.HashId();
  }

  /**
   * A refresh leaves exactly the listed keys, each in the state its record calls for, whatever
   * the table held before.
   */
  lemma RefreshIsExact(t: Table, ps: seq<Process>, parents: map<Pid, Pid>)
    requires Sound(t) && IsListing(ps)
    ensures var u := Refreshed(t, ps, parents);
            && Sound(u) && u.drain == {}
            && u.byKey.Keys == (set p | p in ps :: p.HashId())
            && (forall p :: p in ps ==> RefreshedAs(t, u, p))
  {
    var m := Marked(t, ps, parents);
    var u := Refreshed(t, ps, parents);
    MarkedIs(t, ps, parents);
    forall p | p in ps
      ensures RefreshedAs(t, u, p)
    {
      RefreshedRecord(t, ps, parents, p);
    }
    RefreshSweeps(t, ps, parents);
    RecordKeys(ps);
  }

  lemma RecordKeys(ps: seq<Process>)
    ensures Records(ps).Keys == (set p | p in ps :: p.HashId())
  {
    forall k | k in Records(ps)
      ensures k in (set p | p in ps :: p.HashId())
    {
      assert Records(ps)[k] in ps;
    }
  }

  lemma RefreshSweeps(t: Table, ps: seq<Process>, parents: map<Pid, Pid>)
    requires Sound(t) && IsListing(ps)
    ensures var u := Refreshed(t, ps, parents);
            Sound(u) && u.drain == {} && u.byKey.Keys == Records(ps).Keys
  {
    hide Sound, IsListing;
    var m := Marked(t, ps, parents);
    MarkedIs(t, ps, parents);
    RemoveKeepsSound(m, m.drain);
    DrainKeepsSound(Remove(m, m.drain), {});
  }

  lemma RemoveKeepsLinkedAt(t: Table, gone: set<Key>, r: Ref)
    requires r in Remove(t, gone).cells && LinkedAt(t, r)
    ensures LinkedAt(Remove(t, gone), r)
  {
  }

  /** Parent links are right again once the refresh has ended. */
  lemma RefreshKeepsLinked(t: Table, ps: seq<Process>, parents: map<Pid, Pid>)
    requires Sound(t) && Linked(t) && IsListing(ps) && ParentsOf(Records(ps), parents)
    ensures Linked(Refreshed(t, ps, parents))
  {
    hide Sound, Absorb, LinkSome, AbsorbedAs, UnlistedKept, PidsKept, IsListing, Linked, LinkedAt;
    var a, m, u := Absorb(Prepare(t), ps), Marked(t, ps, parents), Refreshed(t, ps, parents);
    MarkedIs(t, ps, parents);
    PrepareKeepsLinked(t);
    DrainKeepsSound(t, t.byKey.Keys);
    AbsorbKeepsLinked(Prepare(t), ps);
    RecordsDistinct(ps);
    LinkKeepsCells(a, parents, parents.Keys);
    forall r | r in u.cells
      ensures LinkedAt(DrainFilter(m), r)
    {
      LinkedUnlessDoomed(a, parents, Records(ps).Keys, r);
      RemoveKeepsLinkedAt(m, m.drain, r);
      DrainKeepsLinkedAt(Remove(m, m.drain), {}, r);
    }
    AllLinked(u);
  }

  lemma SoundFinds(t: Table, r: Ref)
    requires Sound(t) && r in t.cells
    ensures t.cells[r].HashId() in t.byKey && t.byKey[t.cells[r].HashId()] == r
  {
  }

  lemma AbsorbedUnlinked(t: Table, ps: seq<Process>, r: Ref)
    requires Sound(t) && IsListing(ps)
    requires var a := Absorb(Prepare(t), ps); r in a.cells && a.cells[r].HashId() in Records(ps)
    ensures Absorb(Prepare(t), ps).cells[r].parent == None
  {
    hide Absorb, IsListing, Sound, PidsKept, UnlistedKept, Records;
    MarkedIs(t, ps, map[]);
    RecordsDistinct(ps);
    var a := Absorb(Prepare(t), ps);
    var k := a.cells[r].HashId();
    assert a.byKey[k] == r by { SoundFinds(a, r); }
    assert AbsorbedAs(Prepare(t), a, Records(ps)[k]);
  }

  lemma RefreshedFromMarked(t: Table, ps: seq<Process>, parents: map<Pid, Pid>)
    requires Sound(t) && IsListing(ps)
    ensures var a, u := Absorb(Prepare(t), ps), Refreshed(t, ps, parents);
            && PidIndexed(a)
            && (forall r {:trigger u.cells[r]} :: r in u.cells ==> r in a.cells && u.cells[r] == LinkOne(a, parents, r))
            && (forall pid {:trigger u.byPid[pid]} :: pid in u.byPid ==> pid in a.byPid && a.byPid[pid] == u.byPid[pid])
            && (forall r {:trigger r in u.cells} :: r in u.cells ==> a.cells[r].HashId() in Records(ps))
  {
    MarkedIs(t, ps, parents);
    RefreshSweeps(t, ps, parents);
    var a, m, u := Absorb(Prepare(t), ps), Marked(t, ps, parents), Refreshed(t, ps, parents);
    hide Absorb, Absorbed, IsListing, Allocated;
    forall r | r in u.cells
      ensures r in a.cells && u.cells[r] == LinkOne(a, parents, r) && a.cells[r].HashId() in Records(ps)
    {
      assert u.cells[r] == m.cells[r];
      assert u.cells[r].HashId() in u.byKey;
    }
  }

  lemma AllLinked(t: Table)
    requires forall r :: r in t.cells ==> LinkedAt(t, r)
    ensures Linked(t)
  {
  }

  lemma DrainKeepsLinkedAt(t: Table, drain: set<Key>, r: Ref)
    requires r in t.cells && LinkedAt(t, r)
    ensures LinkedAt(t.(drain := drain), r)
  {
  }

  lemma PrepareKeepsLinked(t: Table)
    requires Linked(t)
    ensures Linked(Prepare(t))
  {
    assert forall r :: r in t.cells ==> LinkedAt(t, r);
  }

  lemma {:induction false} AbsorbKeepsLinked(t: Table, ps: seq<Process>)
    requires Sound(t) && Linked(t) && IsListing(ps)
    ensures Linked(Absorb(t, ps))
  {
    if ps != [] {
      var init, p := ps[..|ps| - 1], ps[|ps| - 1];
      assert init + [p] == ps;
      RecordsMore(init, p);
      AbsorbKeepsSound(t, init);
      AbsorbKeepsLinked(t, init);
      var m := Absorb(t, init);
      RetainUnlinked(m, p);
      hide Retain;
      assert forall r :: r in m.cells ==> LinkedAt(m, r);
      assert forall r :: r in m.cells ==> LinkedAt(Retain(m, p), r);
      DrainKeepsSound(m, m.drain - {p.HashId()});
      InsertKeepsLinked(Retain(m, p), p);
    }
  }

  lemma RefreshKeepsRanked(t: Table, ps: seq<Process>, parents: map<Pid, Pid>, rank: Pid -> nat)
    requires Sound(t) && IsListing(ps)
    requires forall p :: p in ps ==> rank(p.parentId) < rank(p.id)
    ensures Ranked(Refreshed(t, ps, parents), rank)
  {
    var u := Refreshed(t, ps, parents);
    RefreshIsExact(t, ps, parents);
    forall r | r in u.cells
      ensures rank(u.cells[r].parentId) < rank(u.cells[r].id)
    {
      var p :| p in ps && p.HashId() == u.cells[r].HashId();
    }
  }

  // ---------------------------------------------------------------------------------------
  // The pid index after a refresh
  // ---------------------------------------------------------------------------------------

  /** No key of another parent shares the pid of `p`, and the pid index knows a tracked key. */
  ghost predicate Findable(t: Table, p: Process) {
    && (forall k :: k in t.byKey && k.id == p.id ==> k == p.HashId())
    && (p.HashId() in t.byKey ==> p.id in t.byPid)
  }

  lemma FoundBeforeSweep(t: Table, ps: seq<Process>, parents: map<Pid, Pid>, p: Process)
    requires Sound(t) && IsListing(ps) && p in ps
    requires p.HashId() in t.byKey ==> forall k :: k in t.byKey && k.id == p.id ==> k == p.HashId()
    ensures p.id in Marked(t, ps, parents).byPid <==> (p.HashId() in t.byKey ==> p.id in t.byPid)
  {
    hide Absorb, IsListing, Keyed, Allocated, UnlistedKept, Records;
    MarkedIs(t, ps, parents);
    ListedRecord(ps, p);
    RecordsDistinct(ps);
    var a := Absorb(Prepare(t), ps);
    assert AbsorbedAs(Prepare(t), a, Records(ps)[p.HashId()]);
    assert PidsKept(Prepare(t), a, Records(ps).Keys);
    if p.HashId() in t.byKey && p.id !in t.byPid && p.id in a.byPid {
      assert false;
    }
  }

  lemma RemovedPid(t: Table, gone: set<Key>, pid: Pid)
    ensures pid in Remove(t, gone).byPid <==> pid in t.byPid && !exists k :: k in gone && k in t.byKey && k.id == pid
  {
  }

  /**
   * A listed process can be looked up by pid after the refresh exactly when the table held no
   * record of that pid under another parent, and did not already fail to find it.
   */
  lemma RefreshFindsExactly(t: Table, ps: seq<Process>, parents: map<Pid, Pid>, p: Process)
    requires Sound(t) && IsListing(ps) && p in ps
    ensures p.id in Refreshed(t, ps, parents).byPid <==> Findable(t, p)
  {
    hide Absorb, Absorbed, IsListing, Sound, LinkSome, Remove;
    var m, u := Marked(t, ps, parents), Refreshed(t, ps, parents);
    MarkedIs(t, ps, parents);
    RecordsDistinct(ps);
    RemovedPid(m, m.drain, p.id);
    hide Refreshed, Marked;
    if k :| k in t.byKey && k.id == p.id && k != p.HashId() {
      assert k in m.drain && k in m.byKey;
    } else {
      FoundBeforeSweep(t, ps, parents, p);
      assert !exists k :: k in m.drain && k in m.byKey && k.id == p.id;
    }
  }

  lemma CoveredByKeys(t: Table)
    requires Sound(t) && DistinctPids(t.byKey.Keys)
    ensures Covered(t) <==> forall k :: k in t.byKey ==> k.id in t.byPid
  {
    if forall k :: k in t.byKey ==> k.id in t.byPid {
      forall r | r in t.cells
        ensures t.cells[r].id in t.byPid && t.byPid[t.cells[r].id] == r
      {
        var q := t.byPid[t.cells[r].id];
        assert t.cells[q].HashId() == t.cells[r].HashId();
      }
    }
    forall k | k in t.byKey && Covered(t)
      ensures k.id in t.byPid
    {
      assert t.cells[t.byKey[k]].id == k.id;
    }
  }

  /** The pid index is complete after a refresh exactly when every listed process was findable. */
  lemma RefreshCoversExactly(t: Table, ps: seq<Process>, parents: map<Pid, Pid>)
    requires Sound(t) && IsListing(ps)
    ensures Covered(Refreshed(t, ps, parents)) <==> forall p :: p in ps ==> Findable(t, p)
  {
    hide Refreshed, IsListing, Sound, Covered, Findable;
    var u := Refreshed(t, ps, parents);
    RefreshSweeps(t, ps, parents);
    RecordsDistinct(ps);
    CoveredByKeys(u);
    forall p | p in ps
      ensures p.id in u.byPid <==> Findable(t, p)
      ensures p.HashId() in u.byKey
    {
      RefreshFindsExactly(t, ps, parents, p);
    }
    forall k | k in u.byKey
      ensures Records(ps)[k] in ps && Records(ps)[k].id == k.id
    {
    }
  }

  /** In a table whose pid index is complete, only a change of parent makes a process unfindable. */
  lemma FindableWhenStable(t: Table, p: Process)
    requires Sound(t) && Covered(t)
    ensures Findable(t, p) <==> (p.id in t.byPid ==> t.cells[t.byPid[p.id]].parentId == p.parentId)
  {
    if p.id in t.byPid {
      assert t.cells[t.byPid[p.id]].HashId() in t.byKey;
    }
    forall k | k in t.byKey && k.id == p.id
      ensures p.id in t.byPid && t.byPid[p.id] == t.byKey[k]
    {
      assert t.cells[t.byKey[k]].id == p.id;
    }
  }

  /** A pid that comes back under another parent is tracked, yet no longer found by pid. */
  lemma ReparentingLosesPid(p: Process, q: Process)
    requires p.id == q.id && p.parentId != q.parentId && p.parent == None && q.parent == None
    ensures var t := Insert(EMPTY, p);
            var u := Refreshed(t, [q], map[]);
            Covered(t) && q.HashId() in u.byKey && q.id !in u.byPid
  {
    var t := Insert(EMPTY, p);
    InsertKeepsSound(EMPTY, p);
    assert p.HashId() in t.byKey && Covered(t);
    assert !Findable(t, q);
    assert IsListing([q]) && q in [q];
    hide Insert, Refreshed, Sound, Covered, Findable, Records, IsListing;
    RefreshSweeps(t, [q], map[]);
    RefreshFindsExactly(t, [q], map[], q);
  }

  /** The garbage collector's sweep is a refresh that links nothing. */
  lemma SweepIsRefresh(t: Table, ps: seq<Process>)
    ensures Swept(t, ps) == Refreshed(t, ps, map[])
  {
    var a := Absorb(Prepare(t), ps);
    assert LinkAll(a, map[]).cells == a.cells;
  }
}
