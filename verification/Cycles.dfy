/** When an insertion or a refresh closes a circle of parent links. */
module Cycles {
  import opened Basics
  import opened ProcessTable
  import opened TableOperations
  import opened Refresh

  /** The record goes over no cell that is its new parent or above it. */
  ghost predicate SafeInsert(t: Table, p: Process) {
    p.HashId() in t.byKey ==> InsertRef(t, p) !in Ancestors(t, p)
  }

  /** The tables agree on every cell but `r`. */
  ghost predicate AgreeBeyond(t: Table, u: Table, r: Ref) {
    && (forall q :: q in t.cells && q != r ==> q in u.cells && u.cells[q].parent == t.cells[q].parent)
    && (forall q :: q in u.cells && q != r ==> q in t.cells)
  }

  /** Up to the first time it meets `r`, a walk is the same in both tables. */
  lemma {:induction false} SameUntil(t: Table, u: Table, r: Ref, w: Option<Ref>, n: nat)
    requires AgreeBeyond(t, u, r) && (r in t.cells <==> r in u.cells)
    requires n > 0 ==> r !in Walk(t, w, n - 1)
    ensures Walk(u, w, n) == Walk(t, w, n)
    decreases n
  {
    if n > 1 && Upgrade(t, w).Some? {
      assert Walk(t, w, n - 1) == [w.value] + Walk(t, t.cells[w.value].parent, n - 2);
      SameUntil(t, u, r, t.cells[w.value].parent, n - 1);
    }
  }

  /** A record under a new key closes no circle: nothing links to its cell yet. */
  lemma {:induction false} VacantWalk(t: Table, p: Process, w: Option<Ref>, n: nat)
    requires Allocated(t) && p.HashId() !in t.byKey && (w.Some? ==> w.value < t.next)
    ensures Walk(Insert(t, p), w, n) == Walk(t, w, n)
    decreases n
  {
    if n > 0 && Upgrade(t, w).Some? {
      VacantWalk(t, p, t.cells[w.value].parent, n - 1);
    }
  }

  lemma VacantKeepsAcyclic(t: Table, p: Process)
    requires Allocated(t) && Acyclic(t) && p.HashId() !in t.byKey && (p.parent.Some? ==> p.parent.value < t.next)
    ensures Acyclic(Insert(t, p))
  {
    var u := Insert(t, p);
    assert u.cells.Keys == t.cells.Keys + {t.next};
    assert t.next in u.cells && u.cells[t.next] == p;
    var n := |t.cells|;
    assert |u.cells| == n + 1 by { assert t.next !in t.cells; }
    hide Insert, Walk, Allocated;
    forall q | q in u.cells
      ensures Ends(u, Some(q))
    {
      if q == t.next {
        VacantWalk(t, p, p.parent, n + 2);
        AcyclicEnds(t, p.parent);
        WalkEnds(t, p.parent, n + 2);
        EndsBefore(u, q);
      } else {
        VacantWalk(t, p, Some(q), n + 2);
        WalkEnds(t, Some(q), n + 2);
      }
    }
  }

  /** Following the links of `t`, a walk either ends before it meets `r`, or ends after it. */
  lemma {:induction false} EndsThrough(t: Table, u: Table, r: Ref, w: Option<Ref>, n: nat)
    requires AgreeBeyond(t, u, r) && r in t.cells && r in u.cells && Ends(u, Some(r))
    requires |Walk(t, w, n)| < n
    ensures Ends(u, w)
    decreases n
  {
    if w.Some? && w.value in t.cells && w.value != r {
      EndsThrough(t, u, r, t.cells[w.value].parent, n - 1);
      EndsBefore(u, w.value);
    }
  }

  lemma OverwritingKeepsAcyclic(t: Table, u: Table, r: Ref)
    requires Acyclic(t) && AgreeBeyond(t, u, r) && r in t.cells && r in u.cells && |u.cells| == |t.cells|
    requires r !in Walk(t, u.cells[r].parent, |t.cells|)
    ensures Acyclic(u)
  {
    var n, w := |t.cells|, u.cells[r].parent;
    AcyclicEnds(t, w);
    WalkEnds(t, w, n + 1);
    SameUntil(t, u, r, w, n + 1);
    hide Walk;
    EndsBefore(u, r);
    hide AgreeBeyond;
    forall q | q in u.cells
      ensures Ends(u, Some(q))
    {
      EndsThrough(t, u, r, Some(q), n + 1);
    }
  }

  /** The first place at which a walk meets `r`. */
  lemma {:induction false} FirstMeeting(walk: seq<Ref>, r: Ref) returns (k: nat)
    requires r in walk
    ensures k < |walk| && walk[k] == r && r !in walk[..k]
  {
    if walk[0] == r {
      k := 0;
    } else {
      k := FirstMeeting(walk[1..], r);
      assert walk[..k + 1] == [walk[0]] + walk[1..][..k];
      k := k + 1;
    }
  }

  /** If the new parent is the cell itself or has it above, the walk comes back to the cell. */
  lemma OverwritingClosesCircle(t: Table, u: Table, r: Ref)
    requires AgreeBeyond(t, u, r) && r in t.cells && r in u.cells
    requires r in Walk(t, u.cells[r].parent, |t.cells|)
    ensures !Ends(u, Some(r))
  {
    var n, w := |t.cells|, u.cells[r].parent;
    WalkInCells(t, w, n);
    var k := FirstMeeting(Walk(t, w, n), r);
    WalkInCells(t, w, k);
    WalkPrefix(t, w, k, n);
    assert Walk(t, w, k) == Walk(t, w, n)[..k];
    WalkInCells(t, w, k + 1);
    WalkPrefix(t, w, k + 1, n);
    SameUntil(t, u, r, w, k + 1);
    var circle := Walk(u, Some(r), k + 2);
    assert circle == [r] + Walk(u, w, k + 1);
    assert circle[0] == r && circle[k + 1] == r;
    if Ends(u, Some(r)) {
      var m := |u.cells| + k + 2;
      WalkEnds(u, Some(r), m);
      WalkPrefix(u, Some(r), k + 2, m);
      hide Walk, AgreeBeyond;
      assert false;
    }
  }

  /**
   * An insertion keeps all walks finite exactly when it goes over no cell that is the new
   * parent or above it.
   */
  lemma InsertKeepsAcyclicExactly(t: Table, p: Process)
    requires Sound(t) && Acyclic(t) && (p.parent.Some? ==> p.parent.value < t.next)
    ensures Acyclic(Insert(t, p)) <==> SafeInsert(t, p)
  {
    if p.HashId() !in t.byKey {
      VacantKeepsAcyclic(t, p);
    } else {
      var u, r := Insert(t, p), InsertRef(t, p);
      assert r in t.cells && u.cells[r].parent == p.parent;
      assert u.cells.Keys == t.cells.Keys;
      assert |u.cells| == |u.cells.Keys| == |t.cells|;
      hide Insert, Sound, Merge;
      if r in Walk(t, p.parent, |t.cells|) {
        OverwritingClosesCircle(t, u, r);
      } else {
        OverwritingKeepsAcyclic(t, u, r);
      }
    }
  }

  // ---------------------------------------------------------------------------------------
  // Refreshes
  // ---------------------------------------------------------------------------------------

  /** Once it is listed, the record of this key is the one that the pid index finds. */
  ghost predicate Linkable(t: Table, k: Key) {
    k in t.byKey ==> k.id in t.byPid && t.byPid[k.id] == t.byKey[k]
  }

  /** Listed pids that name each other as parents in a circle, and whose records will be linked. */
  ghost predicate Circle(t: Table, parents: map<Pid, Pid>, c: seq<Pid>) {
    && c != []
    && forall i :: 0 <= i < |c| ==>
                     c[i] in parents && parents[c[i]] == c[Next(i, |c|)] && Linkable(t, Key(c[i], parents[c[i]]))
  }

  ghost function Next(i: nat, n: nat): nat {
    if i + 1 < n then i + 1 else 0
  }

  lemma KnownIsFound(t: Table, a: Table, keys: set<Key>, k: Key)
    requires PidsKept(t, a, keys) && DistinctPids(keys) && k in keys && k in t.byKey && PidIndexed(a)
    requires k in a.byKey && a.byKey[k] == t.byKey[k] && a.byKey[k] in a.cells && a.cells[a.byKey[k]].HashId() == k
    ensures k.id in a.byPid && a.byPid[k.id] == a.byKey[k] <==> Linkable(t, k)
  {
  }

  /** Absorbing a listing leaves the pid index on a listed key exactly if it was not on another before. */
  lemma AbsorbedIsFound(t: Table, ps: seq<Process>, k: Key)
    requires Sound(t) && IsListing(ps) && k in Records(ps)
    ensures var a := Absorb(Prepare(t), ps);
            && k in a.byKey && a.byKey[k] in a.cells && a.cells[a.byKey[k]].HashId() == k
            && (k.id in a.byPid && a.byPid[k.id] == a.byKey[k] <==> Linkable(t, k))
  {
    hide Absorb, IsListing, UnlistedKept, PidsKept, Records, PidIndexed, Allocated, DistinctPids;
    MarkedIs(t, ps, map[]);
    RecordsDistinct(ps);
    var a := Absorb(Prepare(t), ps);
    assert AbsorbedAs(Prepare(t), a, Records(ps)[k]);
    assert a.cells[a.byKey[k]].HashId() == k;
    hide Keyed;
    if k in t.byKey {
      KnownIsFound(Prepare(t), a, Records(ps).Keys, k);
    }
  }

  lemma LinkedOne(a: Table, parents: map<Pid, Pid>, r: Ref)
    requires r in a.cells && a.cells[r].parent == None && PidIndexed(a)
    ensures var p, q := a.cells[r], LinkOne(a, parents, r);
            && q.HashId() == p.HashId() && q.id == p.id
            && (q.parent.Some? ==>
                  && p.id in parents && p.id in a.byPid && a.byPid[p.id] == r
                  && q.parent.value in a.cells && a.cells[q.parent.value].id == parents[p.id])
            && (p.id in parents && p.id in a.byPid && a.byPid[p.id] == r && parents[p.id] in a.byPid ==>
                  q.parent == Some(a.byPid[parents[p.id]]))
  {
  }

  /** How the refresh links one listed record. */
  lemma RefreshedLink(t: Table, ps: seq<Process>, parents: map<Pid, Pid>, r: Ref)
    requires Sound(t) && IsListing(ps) && ParentsOf(Records(ps), parents)
    requires r in Refreshed(t, ps, parents).cells
    ensures var u := Refreshed(t, ps, parents);
            var pid := u.cells[r].id;
            Upgrade(u, u.cells[r].parent).Some? ==>
              && pid in parents && Linkable(t, Key(pid, parents[pid]))
              && u.cells[u.cells[r].parent.value].id == parents[pid]
  {
    hide Absorb, IsListing, Allocated, Refreshed, Records, LinkOne, Linkable, Keyed;
    var a, u := Absorb(Prepare(t), ps), Refreshed(t, ps, parents);
    RefreshedFromMarked(t, ps, parents);
    AbsorbedUnlinked(t, ps, r);
    LinkedOne(a, parents, r);
    hide PidIndexed;
    RecordsDistinct(ps);
    AbsorbedIsFound(t, ps, a.cells[r].HashId());
    AbsorbedKeys(t, ps, r);
    var x := u.cells[r].parent;
    if Upgrade(u, x).Some? {
      RefreshedId(t, ps, parents, x.value);
    }
  }

  lemma AbsorbedKeys(t: Table, ps: seq<Process>, r: Ref)
    requires Sound(t) && IsListing(ps) && r in Absorb(Prepare(t), ps).cells
    ensures var a := Absorb(Prepare(t), ps);
            a.cells[r].HashId() in a.byKey && a.byKey[a.cells[r].HashId()] == r
  {
    hide Absorb, IsListing, Absorbed;
    MarkedIs(t, ps, map[]);
  }

  lemma RefreshedId(t: Table, ps: seq<Process>, parents: map<Pid, Pid>, r: Ref)
    requires Sound(t) && IsListing(ps) && r in Refreshed(t, ps, parents).cells
    ensures var a, u := Absorb(Prepare(t), ps), Refreshed(t, ps, parents);
            r in a.cells && u.cells[r].HashId() == a.cells[r].HashId() && u.cells[r].id == a.cells[r].id
  {
    RefreshedFromMarked(t, ps, parents);
    hide Absorb, Refreshed, IsListing, Sound, Records;
  }

  /** The cell of a listed pid after the refresh. */
  ghost function CellOf(u: Table, parents: map<Pid, Pid>, pid: Pid): Ref
    requires pid in parents && Key(pid, parents[pid]) in u.byKey
  {
    u.byKey[Key(pid, parents[pid])]
  }

  lemma ListedCell(t: Table, ps: seq<Process>, parents: map<Pid, Pid>, pid: Pid)
    requires Sound(t) && IsListing(ps) && ParentsOf(Records(ps), parents) && pid in parents && Linkable(t, Key(pid, parents[pid]))
    ensures var a, u := Absorb(Prepare(t), ps), Refreshed(t, ps, parents);
            && Key(pid, parents[pid]) in u.byKey && CellOf(u, parents, pid) in u.cells
            && pid in a.byPid && a.byPid[pid] == CellOf(u, parents, pid)
            && CellOf(u, parents, pid) in a.cells && a.cells[CellOf(u, parents, pid)].id == pid
  {
    hide Absorb, Refreshed, IsListing, Sound, Linkable;
    var k := Key(pid, parents[pid]);
    AbsorbedIsFound(t, ps, k);
    SweepKeepsListed(t, ps, parents, Records(ps)[k]);
    hide Records;
  }

  /** Each record of a circle is linked to the next one. */
  lemma CircleLinks(t: Table, ps: seq<Process>, parents: map<Pid, Pid>, pid: Pid)
    requires Sound(t) && IsListing(ps) && ParentsOf(Records(ps), parents)
    requires pid in parents && Linkable(t, Key(pid, parents[pid]))
    requires parents[pid] in parents && Linkable(t, Key(parents[pid], parents[parents[pid]]))
    ensures var u, next := Refreshed(t, ps, parents), parents[pid];
            && Key(pid, parents[pid]) in u.byKey && Key(next, parents[next]) in u.byKey
            && CellOf(u, parents, pid) in u.cells && u.cells[CellOf(u, parents, pid)].parent == Some(CellOf(u, parents, next))
  {
    hide Absorb, Refreshed, IsListing, Linkable, Records, CellOf, LinkOne, Keyed, PidIndexed, Allocated;
    ListedCell(t, ps, parents, pid);
    ListedCell(t, ps, parents, parents[pid]);
    var a, u := Absorb(Prepare(t), ps), Refreshed(t, ps, parents);
    var r := CellOf(u, parents, pid);
    RefreshedFromMarked(t, ps, parents);
    AbsorbedUnlinked(t, ps, r);
    LinkedOne(a, parents, r);
  }

  lemma {:induction false} CircleWalk(t: Table, ps: seq<Process>, parents: map<Pid, Pid>, c: seq<Pid>, i: nat, n: nat)
    requires Sound(t) && IsListing(ps) && ParentsOf(Records(ps), parents) && Circle(t, parents, c) && i < |c|
    ensures var u := Refreshed(t, ps, parents);
            && Key(c[i], parents[c[i]]) in u.byKey && CellOf(u, parents, c[i]) in u.cells
            && |Walk(u, Some(CellOf(u, parents, c[i])), n)| == n
    decreases n
  {
    hide Refreshed, IsListing, Linkable, Records, CellOf, Sound;
    var next := Next(i, |c|);
    assert parents[c[i]] == c[next];
    CircleLinks(t, ps, parents, c[i]);
    if n > 0 {
      CircleWalk(t, ps, parents, c, next, n - 1);
    }
  }

  /** Each cell of a walk is linked to the next one. */
  lemma {:induction false} WalkLinks(t: Table, w: Option<Ref>, n: nat, i: nat)
    requires i + 1 < |Walk(t, w, n)|
    ensures var walk := Walk(t, w, n);
            && walk[i] in t.cells && walk[i + 1] in t.cells
            && Upgrade(t, t.cells[walk[i]].parent) == Some(walk[i + 1])
    decreases n
  {
    var rest := Walk(t, t.cells[w.value].parent, n - 1);
    assert Walk(t, w, n) == [w.value] + rest;
    if i > 0 {
      WalkLinks(t, t.cells[w.value].parent, n - 1, i - 1);
    } else {
      WalkInCells(t, w, n);
    }
  }

  /** Each step of a walk goes from a listed pid to the parent that was read of it. */
  lemma WalkNamesParents(t: Table, ps: seq<Process>, parents: map<Pid, Pid>, r: Ref, n: nat, m: nat)
    requires Sound(t) && IsListing(ps) && ParentsOf(Records(ps), parents)
    requires m + 1 < |Walk(Refreshed(t, ps, parents), Some(r), n)|
    ensures var u := Refreshed(t, ps, parents);
            var walk := Walk(u, Some(r), n);
            && walk[m] in u.cells && walk[m + 1] in u.cells
            && var pid := u.cells[walk[m]].id;
               pid in parents && parents[pid] == u.cells[walk[m + 1]].id && Linkable(t, Key(pid, parents[pid]))
  {
    hide Refreshed, IsListing, Records, Sound, Walk, Linkable;
    var u := Refreshed(t, ps, parents);
    WalkLinks(u, Some(r), n, m);
    RefreshedLink(t, ps, parents, Walk(u, Some(r), n)[m]);
  }

  /** The pids of the records of `u` in the cells `refs`. */
  ghost function IdsOf(u: Table, refs: seq<Ref>): (ids: seq<Pid>)
    requires forall r :: r in refs ==> r in u.cells
    ensures |ids| == |refs| && forall i :: 0 <= i < |refs| ==> ids[i] == u.cells[refs[i]].id
  {
    if refs == [] then [] else [u.cells[refs[0]].id] + IdsOf(u, refs[1..])
  }

  lemma EndlessHasCircle(t: Table, ps: seq<Process>, parents: map<Pid, Pid>, r: Ref) returns (c: seq<Pid>)
    requires Sound(t) && IsListing(ps) && ParentsOf(Records(ps), parents)
    requires !Ends(Refreshed(t, ps, parents), Some(r))
    ensures Circle(t, parents, c)
  {
    hide Refreshed, IsListing, Records, Sound, Walk, Linkable, IdsOf;
    var u := Refreshed(t, ps, parents);
    var n := |u.cells| + 1;
    EndsExactly(u, Some(r));
    WalkInCells(u, Some(r), n);
    var walk := Walk(u, Some(r), n);
    hide Ends;
    var i, j :| 0 <= i < j < |walk| && walk[i] == walk[j];
    var refs := walk[i..j];
    assert forall q :: q in refs ==> q in walk;
    c := IdsOf(u, refs);
    forall k | 0 <= k < |c|
      ensures c[k] in parents && parents[c[k]] == c[Next(k, |c|)] && Linkable(t, Key(c[k], parents[c[k]]))
    {
      WalkNamesParents(t, ps, parents, r, n, i + k);
      assert refs[k] == walk[i + k] && refs[Next(k, |c|)] == walk[i + k + 1];
    }
  }

  /**
   * A refresh leaves only finite walks exactly when no listed pids whose records will be linked name
   * each other as parents in a circle.
   */
  lemma RefreshIsAcyclicExactly(t: Table, ps: seq<Process>, parents: map<Pid, Pid>)
    requires Sound(t) && IsListing(ps) && ParentsOf(Records(ps), parents)
    ensures Acyclic(Refreshed(t, ps, parents)) <==> forall c :: !Circle(t, parents, c)
  {
    hide Refreshed, IsListing, Records, Sound, Ends, Circle;
    var u := Refreshed(t, ps, parents);
    if c :| Circle(t, parents, c) {
      CircleIsEndless(t, ps, parents, c);
    }
    if r :| r in u.cells && !Ends(u, Some(r)) {
      var c := EndlessHasCircle(t, ps, parents, r);
    }
  }

  lemma CircleIsEndless(t: Table, ps: seq<Process>, parents: map<Pid, Pid>, c: seq<Pid>)
    requires Sound(t) && IsListing(ps) && ParentsOf(Records(ps), parents) && Circle(t, parents, c)
    ensures exists r :: r in Refreshed(t, ps, parents).cells && !Ends(Refreshed(t, ps, parents), Some(r))
  {
    hide Refreshed, IsListing, Records, Sound, Walk, CellOf;
    var u := Refreshed(t, ps, parents);
    CircleWalk(t, ps, parents, c, 0, |u.cells| + 1);
    assert !Ends(u, Some(CellOf(u, parents, c[0])));
  }
}
