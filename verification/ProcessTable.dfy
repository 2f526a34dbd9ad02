/**
 * The process table as a value: cells with weak parent links, two indexes over them and the
 * drain set of the mark-and-sweep refresh.
 */
module ProcessTable {
  import opened Basics
  import opened Scheduler

  /** Identity of a cell. A reference is never handed out twice. */
  type Ref = nat

  /** What the table hashes a process by; hashing is taken to be injective. */
  datatype Key = Key(id: Pid, parentId: Pid)

  datatype Process = Process(
    id: Pid,
    parentId: Pid,
    name: string,
    cgroup: string,
    cmdline: string,
    forkedCmdline: string,
    forkedName: string,
    parent: Option<Ref>,
    assignedPriority: Priority,
    pipewireAncestor: Option<Pid>)
  {
    function HashId(): Key {
      Key(id, parentId)
    }
  }

  /** A record as it is before it is inserted: no history and no decision. */
  function NewProcess(id: Pid, parentId: Pid, name: string, cgroup: string, cmdline: string,
                      parent: Option<Ref>): Process {
    Process(id, parentId, name, cgroup, cmdline, "", "", parent, NotAssignable, None)
  }

  /** A weak link in `cells` can be followed exactly when its target is still among them. */
  datatype Table = Table(
    cells: map<Ref, Process>,
    byKey: map<Key, Ref>,
    byPid: map<Pid, Ref>,
    drain: set<Key>,
    next: Ref)

  const EMPTY := Table(map[], map[], map[], {}, 0)

  // ---------------------------------------------------------------------------------------
  // Invariants
  // ---------------------------------------------------------------------------------------

  // The triggers below keep one index from being looked up merely because the other was.

  /** `byKey` and the cells are each other's inverse, and keep the cells alive. */
  ghost predicate Keyed(t: Table) {
    && (forall k {:trigger t.byKey[k]} :: k in t.byKey ==>
                                            t.byKey[k] in t.cells && t.cells[t.byKey[k]].HashId() == k)
    && (forall r {:trigger r in t.cells} :: r in t.cells ==> t.cells[r].HashId() in t.byKey)
    && (forall r, k {:trigger t.cells[r], t.byKey[k]} ::
          r in t.cells && k in t.byKey && t.cells[r].HashId() == k ==> t.byKey[k] == r)
  }

  /** Every entry of the pid index is a cell of the table with that pid. */
  ghost predicate PidIndexed(t: Table) {
    forall pid {:trigger t.byPid[pid]} :: pid in t.byPid ==>
                                            t.byPid[pid] in t.cells && t.cells[t.byPid[pid]].id == pid
  }

  /** References in use have been handed out. */
  ghost predicate Allocated(t: Table) {
    forall r :: r in t.cells ==>
                  && r < t.next
                  && (t.cells[r].parent.Some? ==> t.cells[r].parent.value < t.next)
  }

  ghost predicate Sound(t: Table) {
    Keyed(t) && PidIndexed(t) && Allocated(t)
  }

  /** A live parent link leads to the process named by the record's parent pid. */
  ghost predicate LinkedAt(t: Table, r: Ref)
    requires r in t.cells
  {
    var w := t.cells[r].parent;
    w.Some? && w.value in t.cells ==> t.cells[w.value].id == t.cells[r].parentId
  }

  ghost predicate Linked(t: Table) {
    forall r :: r in t.cells ==> LinkedAt(t, r)
  }

  /** The converse of the pid index: it finds every record of the table. */
  ghost predicate Covered(t: Table) {
    && (forall r {:trigger r in t.cells} :: r in t.cells ==> t.cells[r].id in t.byPid)
    && (forall r, pid {:trigger t.cells[r], t.byPid[pid]} ::
          r in t.cells && pid in t.byPid && t.cells[r].id == pid ==> t.byPid[pid] == r)
  }

  /** Parent pids never lead in a circle: `rank` falls from child to parent. */
  ghost predicate Ranked(t: Table, rank: Pid -> nat) {
    forall r :: r in t.cells ==> rank(t.cells[r].parentId) < rank(t.cells[r].id)
  }

  // ---------------------------------------------------------------------------------------
  // Ancestors
  // ---------------------------------------------------------------------------------------

  function Upgrade(t: Table, w: Option<Ref>): (r: Option<Ref>)
  {
    if w.Some? && w.value in t.cells then w else None
  }

  /** The first `n` cells met when following parent links from `w`. */
  function Walk(t: Table, w: Option<Ref>, n: nat): seq<Ref>
    decreases n
  {
    if n == 0 || Upgrade(t, w).None? then []
    else [w.value] + Walk(t, t.cells[w.value].parent, n - 1)
  }

  /** The ancestors of a record; no acyclic walk is longer than the table. */
  function Ancestors(t: Table, p: Process): seq<Ref> {
    Walk(t, p.parent, |t.cells|)
  }

  /** `chain` starts at the target of `w` and follows one live link at every step. */
  ghost predicate IsChain(t: Table, w: Option<Ref>, chain: seq<Ref>) {
    && 0 < |chain|
    && Upgrade(t, w) == Some(chain[0])
    && (forall i :: 0 <= i < |chain| ==> chain[i] in t.cells)
    && (forall i :: 0 < i < |chain| ==> Upgrade(t, t.cells[chain[i - 1]].parent) == Some(chain[i]))
  }

  predicate DescendedFrom(t: Table, p: Process, ancestor: Pid) {
    || p.parentId == ancestor
    || exists r :: r in Ancestors(t, p) && r in t.cells && (t.cells[r].id == ancestor || t.cells[r].parentId == ancestor)
  }

  /** Tables whose cells are linked in the same way, dead links aside. */
  ghost predicate SameLinks(t: Table, u: Table) {
    && t.cells.Keys == u.cells.Keys
    && (forall r :: r in t.cells ==>
                      && t.cells[r].id == u.cells[r].id
                      && t.cells[r].parentId == u.cells[r].parentId
                      && Upgrade(t, t.cells[r].parent) == Upgrade(u, u.cells[r].parent))
  }

  lemma {:induction false} WalkInCells(t: Table, w: Option<Ref>, n: nat)
    ensures |Walk(t, w, n)| <= n
    ensures forall r :: r in Walk(t, w, n) ==> r in t.cells
    decreases n
  {
    if n > 0 && Upgrade(t, w).Some? {
      WalkInCells(t, t.cells[w.value].parent, n - 1);
    }
  }

  lemma {:induction false} SameWalk(t: Table, u: Table, w: Option<Ref>, x: Option<Ref>, n: nat)
    requires SameLinks(t, u) && Upgrade(t, w) == Upgrade(u, x)
    ensures Walk(t, w, n) == Walk(u, x, n)
    decreases n
  {
    if n > 0 && Upgrade(t, w).Some? {
      SameWalk(t, u, t.cells[w.value].parent, u.cells[w.value].parent, n - 1);
    }
  }

  lemma SameDescent(t: Table, u: Table, p: Process, q: Process, ancestor: Pid)
    requires SameLinks(t, u) && Upgrade(t, p.parent) == Upgrade(u, q.parent) && p.parentId == q.parentId
    ensures Ancestors(t, p) == Ancestors(u, q)
    ensures DescendedFrom(t, p, ancestor) == DescendedFrom(u, q, ancestor)
  {
    assert |t.cells| == |t.cells.Keys| == |u.cells.Keys| == |u.cells|;
    SameWalk(t, u, p.parent, q.parent, |t.cells|);
    assert Ancestors(t, p) == Ancestors(u, q);
  }

  /** A walk that stops before its bound is the same for every larger bound. */
  lemma {:induction false} WalkStable(t: Table, w: Option<Ref>, n: nat, m: nat)
    requires n <= m && |Walk(t, w, n)| < n
    ensures Walk(t, w, m) == Walk(t, w, n)
    decreases n
  {
    if Upgrade(t, w).Some? {
      WalkStable(t, t.cells[w.value].parent, n - 1, m - 1);
    }
  }

  lemma {:induction false} WalkPrefix(t: Table, w: Option<Ref>, n: nat, m: nat)
    requires n <= m
    ensures |Walk(t, w, n)| <= |Walk(t, w, m)| && Walk(t, w, n) == Walk(t, w, m)[..|Walk(t, w, n)|]
    ensures |Walk(t, w, n)| == n || Walk(t, w, n) == Walk(t, w, m)
    decreases n
  {
    if n > 0 && Upgrade(t, w).Some? {
      WalkPrefix(t, t.cells[w.value].parent, n - 1, m - 1);
    }
  }

  /** From a cell that a walk has met, the way to its end is no longer than the walk. */
  lemma {:induction false} WalkFrom(t: Table, w: Option<Ref>, n: nat, r: Ref)
    requires r in Walk(t, w, n) && |Walk(t, w, n)| < n
    ensures |Walk(t, Some(r), n)| <= |Walk(t, w, n)|
    decreases n
  {
    if w != Some(r) {
      var next := t.cells[w.value].parent;
      assert Walk(t, w, n) == [w.value] + Walk(t, next, n - 1);
      WalkFrom(t, next, n - 1, r);
      WalkStable(t, Some(r), n - 1, n);
    }
  }

  /** A walk that stops has met no cell twice: from the same cell it would go equally far. */
  lemma {:induction false} StoppedIsDistinct(t: Table, w: Option<Ref>, n: nat)
    requires |Walk(t, w, n)| < n
    ensures NoDuplicates(Walk(t, w, n))
    decreases n
  {
    if Upgrade(t, w).Some? {
      var next := t.cells[w.value].parent;
      var rest := Walk(t, next, n - 1);
      assert Walk(t, w, n) == [w.value] + rest;
      StoppedIsDistinct(t, next, n - 1);
      if w.value in rest {
        WalkFrom(t, next, n - 1, w.value);
        WalkStable(t, w, n - 1, n);
        assert false;
      }
    }
  }

  // ---------------------------------------------------------------------------------------
  // Which walks end
  // ---------------------------------------------------------------------------------------

  /** The walk stops within the number of cells. */
  ghost predicate Ends(t: Table, w: Option<Ref>) {
    |Walk(t, w, |t.cells| + 1)| <= |t.cells|
  }

  ghost predicate Acyclic(t: Table) {
    forall r :: r in t.cells ==> Ends(t, Some(r))
  }

  /** A walk ends exactly when it meets no cell twice, whatever the table holds. */
  lemma EndsExactly(t: Table, w: Option<Ref>)
    ensures Ends(t, w) <==> NoDuplicates(Walk(t, w, |t.cells| + 1))
  {
    var n := |t.cells| + 1;
    if |Walk(t, w, n)| < n {
      StoppedIsDistinct(t, w, n);
    }
    WalkInCells(t, w, n);
    if NoDuplicates(Walk(t, w, n)) {
      DistinctLength(Walk(t, w, n), t.cells.Keys);
      assert |t.cells.Keys| == |t.cells|;
    }
  }

  /** A walk that does not end within the number of cells never does: for every bound, one step more. */
  lemma EndlessWalk(t: Table, w: Option<Ref>, n: nat)
    requires !Ends(t, w)
    ensures |Walk(t, w, n)| == n
  {
    var m := |t.cells| + 1;
    WalkInCells(t, w, m);
    WalkInCells(t, w, n);
    if n <= m {
      WalkPrefix(t, w, n, m);
    } else if |Walk(t, w, n)| < n {
      StoppedIsDistinct(t, w, n);
      DistinctLength(Walk(t, w, n), t.cells.Keys);
      WalkPrefix(t, w, m, n);
    }
  }

  /**
   * The ancestor walk ends within the number of tracked processes: looking further finds
   * nothing more, and no ancestor is reported twice.
   */
  lemma WalkEnds(t: Table, w: Option<Ref>, m: nat)
    requires Ends(t, w) && |t.cells| <= m
    ensures Walk(t, w, m) == Walk(t, w, |t.cells|)
    ensures NoDuplicates(Walk(t, w, m)) && |Walk(t, w, m)| <= |t.cells|
  {
    var n := |t.cells|;
    StoppedIsDistinct(t, w, n + 1);
    WalkPrefix(t, w, n, n + 1);
    if m > n {
      WalkStable(t, w, n + 1, m);
    }
  }

  /** A walk ends if the one from its next cell does. */
  lemma EndsBefore(t: Table, r: Ref)
    requires r in t.cells && Ends(t, t.cells[r].parent)
    ensures Ends(t, Some(r))
  {
    var n := |t.cells| + 1;
    if !Ends(t, Some(r)) {
      EndlessWalk(t, Some(r), n + 1);
    }
  }

  lemma AcyclicEnds(t: Table, w: Option<Ref>)
    requires Acyclic(t)
    ensures Ends(t, w)
  {
  }

  lemma SameLinksAcyclic(t: Table, u: Table)
    requires SameLinks(t, u) && Acyclic(t)
    ensures Acyclic(u)
  {
    assert |t.cells| == |t.cells.Keys| == |u.cells.Keys| == |u.cells|;
    forall r | r in u.cells
      ensures Ends(u, Some(r))
    {
      SameWalk(t, u, Some(r), Some(r), |t.cells| + 1);
    }
  }

  /** Walking along ranks visits no cell twice. */
  lemma {:induction false} WalkDistinct(t: Table, w: Option<Ref>, n: nat, rank: Pid -> nat)
    requires Linked(t) && Ranked(t, rank)
    ensures NoDuplicates(Walk(t, w, n))
    ensures forall r :: r in Walk(t, w, n) ==>
                          r in t.cells && rank(t.cells[r].id) <= rank(t.cells[w.value].id)
    decreases n
  {
    if n > 0 && Upgrade(t, w).Some? {
      var p := t.cells[w.value];
      assert LinkedAt(t, w.value);
      WalkDistinct(t, p.parent, n - 1, rank);
      var rest := Walk(t, p.parent, n - 1);
      assert forall r :: r in rest ==> rank(t.cells[r].id) < rank(p.id);
    }
  }

  /** Parent pids that run in no circle make every walk end. */
  lemma RankedIsAcyclic(t: Table, rank: Pid -> nat)
    requires Linked(t) && Ranked(t, rank)
    ensures Acyclic(t)
  {
    forall r | r in t.cells
      ensures Ends(t, Some(r))
    {
      WalkDistinct(t, Some(r), |t.cells| + 1, rank);
      EndsExactly(t, Some(r));
    }
  }

  lemma {:induction false} WalkIsChain(t: Table, w: Option<Ref>, n: nat, k: nat)
    requires k < |Walk(t, w, n)|
    ensures IsChain(t, w, Walk(t, w, n)[..k + 1])
    decreases n
  {
    var p := t.cells[w.value];
    if k > 0 {
      WalkIsChain(t, p.parent, n - 1, k - 1);
      var rest := Walk(t, p.parent, n - 1)[..k];
      assert Walk(t, w, n)[..k + 1] == [w.value] + rest;
    }
  }

  lemma {:induction false} ChainIsWalk(t: Table, w: Option<Ref>, chain: seq<Ref>)
    requires IsChain(t, w, chain)
    ensures Walk(t, w, |chain|) == chain
    decreases |chain|
  {
    if |chain| > 1 {
      var rest := chain[1..];
      assert forall i :: 0 < i < |rest| ==> rest[i] == chain[i + 1] && rest[i - 1] == chain[i];
      ChainIsWalk(t, t.cells[w.value].parent, rest);
    } else {
      assert chain == [w.value];
    }
  }

  /** The ancestors are exactly the cells that some chain of live links leads to. */
  lemma AncestorsAreClosure(t: Table, p: Process, a: Ref)
    requires Ends(t, p.parent)
    ensures a in Ancestors(t, p) <==> exists chain :: IsChain(t, p.parent, chain) && chain[|chain| - 1] == a
  {
    var walk := Ancestors(t, p);
    if a in walk {
      var k :| 0 <= k < |walk| && walk[k] == a;
      WalkIsChain(t, p.parent, |t.cells|, k);
      assert walk[..k + 1][k] == a;
    }
    if chain :| IsChain(t, p.parent, chain) && chain[|chain| - 1] == a {
      ChainIsWalk(t, p.parent, chain);
      WalkEnds(t, p.parent, |t.cells| + |chain|);
      WalkPrefix(t, p.parent, |chain|, |t.cells| + |chain|);
      assert a in Walk(t, p.parent, |chain|);
    }
  }

  /** A chain of live links leads from `w` to the process of that key. */
  ghost predicate LeadsTo(t: Table, w: Option<Ref>, k: Key) {
    exists chain :: IsChain(t, w, chain) && t.cells[chain[|chain| - 1]].HashId() == k
  }

  lemma {:induction false} WalkedIdIsNamed(t: Table, p: Process, n: nat, r: Ref)
    requires Linked(t)
    requires p.parent.Some? && p.parent.value in t.cells ==> t.cells[p.parent.value].id == p.parentId
    requires r in Walk(t, p.parent, n)
    ensures r in t.cells
    ensures t.cells[r].id == p.parentId || exists q :: q in Walk(t, p.parent, n) && q in t.cells && t.cells[q].parentId == t.cells[r].id
    decreases n
  {
    var w := p.parent.value;
    if r != w {
      assert LinkedAt(t, w);
      WalkedIdIsNamed(t, t.cells[w], n - 1, r);
      var rest := Walk(t, t.cells[w].parent, n - 1);
      assert Walk(t, p.parent, n) == [w] + rest;
      if t.cells[r].id == t.cells[w].parentId {
        assert w in Walk(t, p.parent, n);
      } else {
        var q :| q in rest && q in t.cells && t.cells[q].parentId == t.cells[r].id;
        assert q in Walk(t, p.parent, n);
      }
    }
  }

  /** Under the link invariant, comparing an ancestor's own pid adds nothing. */
  lemma DescentByParentIds(t: Table, p: Process, ancestor: Pid)
    requires Linked(t)
    requires p.parent.Some? && p.parent.value in t.cells ==> t.cells[p.parent.value].id == p.parentId
    ensures DescendedFrom(t, p, ancestor) <==>
              (p.parentId == ancestor ||
               exists r :: r in Ancestors(t, p) && r in t.cells && t.cells[r].parentId == ancestor)
  {
    if r :| r in Ancestors(t, p) && r in t.cells && t.cells[r].id == ancestor {
      WalkedIdIsNamed(t, p, |t.cells|, r);
    }
  }
}
