/** What the operations of the process table do to its value, and what they keep. */
module TableOperations {
  import opened Basics
  import opened Scheduler
  import opened ProcessTable

  /** Writes the contents of one cell. */
  function SetCell(t: Table, r: Ref, p: Process): Table {
    t.(cells := t.cells[r := p])
  }

  // ---------------------------------------------------------------------------------------
  // Insertion
  // ---------------------------------------------------------------------------------------

  /** An insertion over an existing record: a new name forgets the decision taken so far. */
  function Merge(old_: Process, p: Process): Process {
    var e := old_.(cgroup := p.cgroup, parent := p.parent);
    if e.name == p.name then e
    else e.(forkedCmdline := old_.cmdline, forkedName := old_.name, name := p.name, cmdline := p.cmdline,
            assignedPriority := NotAssignable)
  }

  /** The cell that holds `p` after its insertion. */
  function InsertRef(t: Table, p: Process): Ref {
    if p.HashId() in t.byKey then t.byKey[p.HashId()] else t.next
  }

  function Insert(t: Table, p: Process): Table {
    var r := InsertRef(t, p);
    if p.HashId() in t.byKey then
      if r in t.cells then t.(cells := t.cells[r := Merge(t.cells[r], p)]) else t
    else
      t.(cells := t.cells[r := p], byKey := t.byKey[p.HashId() := r], byPid := t.byPid[p.id := r], next := r + 1)
  }

  /** A record whose parent link, if live, leads to the process its parent pid names. */
  ghost predicate LinksTrue(t: Table, p: Process) {
    && (p.parent.Some? ==> p.parent.value < t.next)
    && (p.parent.Some? && p.parent.value in t.cells ==> t.cells[p.parent.value].id == p.parentId)
  }

  lemma InsertKeepsDrain(t: Table, p: Process)
    ensures Insert(t, p).drain == t.drain
  {
  }

  lemma InsertAddsKey(t: Table, p: Process)
    requires Sound(t)
    ensures Insert(t, p).byKey.Keys == t.byKey.Keys + {p.HashId()}
  {
  }

  lemma InsertKeepsKeyed(t: Table, p: Process)
    requires Keyed(t) && Allocated(t)
    ensures Keyed(Insert(t, p))
    ensures InsertRef(t, p) in Insert(t, p).cells && Insert(t, p).cells[InsertRef(t, p)].HashId() == p.HashId()
  {
    var u := Insert(t, p);
    var r := InsertRef(t, p);
    if p.HashId() in t.byKey {
      assert u.byKey == t.byKey && t.cells[r].HashId() == p.HashId();
    } else {
      assert r !in t.cells;
      assert forall k :: k in t.byKey ==> t.byKey[k] != r;
    }
  }

  lemma InsertKeepsPidIndexed(t: Table, p: Process)
    requires Keyed(t) && Allocated(t) && PidIndexed(t)
    ensures PidIndexed(Insert(t, p))
  {
    var r := InsertRef(t, p);
    if p.HashId() in t.byKey {
      assert t.cells[r].HashId() == p.HashId();
    } else {
      assert r !in t.cells;
    }
  }

  lemma InsertKeepsSound(t: Table, p: Process)
    requires Sound(t) && LinksTrue(t, p)
    ensures Sound(Insert(t, p)) && Insert(t, p).drain == t.drain
    ensures InsertRef(t, p) in Insert(t, p).cells && Insert(t, p).cells[InsertRef(t, p)].HashId() == p.HashId()
  {
    InsertKeepsAllocated(t, p);
    InsertKeepsKeyed(t, p);
    InsertKeepsPidIndexed(t, p);
    InsertKeepsDrain(t, p);
    hide Insert, InsertRef, Keyed, PidIndexed, Allocated;
  }

  lemma InsertKeepsAllocated(t: Table, p: Process)
    requires Keyed(t) && Allocated(t) && (p.parent.Some? ==> p.parent.value < t.next)
    ensures Allocated(Insert(t, p))
  {
  }

  lemma InsertKeepsLinked(t: Table, p: Process)
    requires Sound(t) && Linked(t) && LinksTrue(t, p)
    ensures Linked(Insert(t, p))
  {
    var u := Insert(t, p);
    var r := InsertRef(t, p);
    forall q | q in u.cells
      ensures LinkedAt(u, q)
    {
      assert q in t.cells ==> LinkedAt(t, q);
    }
  }

  lemma InsertKeepsRanked(t: Table, p: Process, rank: Pid -> nat)
    requires Sound(t) && Ranked(t, rank) && rank(p.parentId) < rank(p.id)
    ensures Ranked(Insert(t, p), rank)
  {
  }

  /** Insertion keeps the pid index complete, provided a tracked pid keeps its parent pid. */
  lemma InsertKeepsCovered(t: Table, p: Process)
    requires Sound(t) && Covered(t)
    requires p.id in t.byPid ==> t.cells[t.byPid[p.id]].parentId == p.parentId
    ensures Covered(Insert(t, p))
    ensures p.id in Insert(t, p).byPid && Insert(t, p).byPid[p.id] == InsertRef(t, p)
  {
    if p.HashId() !in t.byKey {
      assert p.id !in t.byPid;
    }
  }

  lemma TrackedIsFound(t: Table, k: Key)
    requires Sound(t) && Covered(t)
    ensures k in t.byKey ==> k.id in t.byPid && t.byPid[k.id] == t.byKey[k] && t.cells[t.byPid[k.id]].parentId == k.parentId
  {
    if k in t.byKey {
      assert t.cells[t.byKey[k]].HashId() == k;
    }
  }

  /** A tracked pid that is inserted under another parent leaves its old record behind, out of reach. */
  lemma InsertCoversExactly(t: Table, p: Process)
    requires Sound(t) && Covered(t)
    ensures Covered(Insert(t, p)) <==> (p.id in t.byPid ==> t.cells[t.byPid[p.id]].parentId == p.parentId)
  {
    if p.id in t.byPid && t.cells[t.byPid[p.id]].parentId != p.parentId {
      var r := t.byPid[p.id];
      TrackedIsFound(t, p.HashId());
      assert Insert(t, p).cells[r].id == p.id && Insert(t, p).byPid[p.id] != r;
    } else {
      InsertKeepsCovered(t, p);
    }
  }

  // ---------------------------------------------------------------------------------------
  // Mark and sweep
  // ---------------------------------------------------------------------------------------

  function Prepare(t: Table): Table {
    t.(drain := t.byKey.Keys)
  }

  /** Takes a process and its ancestors out of the drain set. */
  function Retain(t: Table, p: Process): Table {
    t.(drain := t.drain - {p.HashId()} - set r | r in Ancestors(t, p) && r in t.cells :: t.cells[r].HashId())
  }

  /** The process and everybody that a chain of live links leads to from its parent are no longer up for removal. */
  lemma RetainSparesTree(t: Table, p: Process, k: Key)
    requires Ends(t, p.parent)
    ensures k in Retain(t, p).drain <==> k in t.drain && k != p.HashId() && !LeadsTo(t, p.parent, k)
  {
    hide Ancestors, Ends;
    if LeadsTo(t, p.parent, k) {
      var chain :| IsChain(t, p.parent, chain) && t.cells[chain[|chain| - 1]].HashId() == k;
      AncestorsAreClosure(t, p, chain[|chain| - 1]);
    }
    if r :| r in Ancestors(t, p) && r in t.cells && t.cells[r].HashId() == k {
      AncestorsAreClosure(t, p, r);
      var chain :| IsChain(t, p.parent, chain) && chain[|chain| - 1] == r;
      assert LeadsTo(t, p.parent, k);
    }
  }

  /** Retains and inserts each listed process in turn. */
  function Absorb(t: Table, ps: seq<Process>): Table {
    if ps == [] then t
    else
      var p := ps[|ps| - 1];
      Insert(Retain(Absorb(t, ps[..|ps| - 1]), p), p)
  }

  /** Removes the records with a key in `gone`, together with the pid entries of those keys. */
  function Remove(t: Table, gone: set<Key>): Table {
    t.(cells := map r | r in t.cells && t.cells[r].HashId() !in gone :: t.cells[r],
       byKey := map k | k in t.byKey && k !in gone :: t.byKey[k],
       byPid := map pid | pid in t.byPid && !(exists k :: k in gone && k in t.byKey && k.id == pid) :: t.byPid[pid])
  }

  function DrainFilter(t: Table): Table {
    Remove(t, t.drain).(drain := {})
  }

  /** Links every process of `parents` that the pid index finds to the parent it finds. */
  function LinkSome(t: Table, parents: map<Pid, Pid>, pids: set<Pid>): Table {
    t.(cells := map r | r in t.cells :: if t.cells[r].id in pids then LinkOne(t, parents, r) else t.cells[r])
  }

  function LinkOne(t: Table, parents: map<Pid, Pid>, r: Ref): Process
    requires r in t.cells
  {
    var p := t.cells[r];
    if p.id in parents && p.id in t.byPid && t.byPid[p.id] == r && parents[p.id] in t.byPid
    then p.(parent := Some(t.byPid[parents[p.id]]))
    else p
  }

  function LinkAll(t: Table, parents: map<Pid, Pid>): Table {
    LinkSome(t, parents, parents.Keys)
  }

  function Swept(t: Table, ps: seq<Process>): Table {
    DrainFilter(Absorb(Prepare(t), ps))
  }

  function Refreshed(t: Table, ps: seq<Process>, parents: map<Pid, Pid>): Table {
    DrainFilter(LinkAll(Absorb(Prepare(t), ps), parents))
  }

  /** A listing names each process once, as records that carry no link yet. */
  ghost predicate IsListing(ps: seq<Process>) {
    && (forall i, j :: 0 <= i < j < |ps| ==> ps[i].id != ps[j].id)
    && (forall p :: p in ps ==> p.parent == None)
  }

  /** The listed records by key. */
  ghost function Records(ps: seq<Process>): (m: map<Key, Process>)
    ensures forall k {:trigger m[k]} :: k in m ==> m[k].HashId() == k && m[k] in ps
    ensures forall p :: p in ps ==> p.HashId() in m
  {
    if ps == [] then map[]
    else
      var m := Records(ps[..|ps| - 1]);
      assert ps == ps[..|ps| - 1] + [ps[|ps| - 1]];
      m[ps[|ps| - 1].HashId() := ps[|ps| - 1]]
  }

  /** The parent pids that were readable, which are those of the listed records. */
  ghost predicate ParentsOf(m: map<Key, Process>, parents: map<Pid, Pid>) {
    forall pid :: pid in parents ==> Key(pid, parents[pid]) in m
  }

  /** How a listed process is found in the table once the listing has been absorbed. */
  ghost predicate AbsorbedAs(t: Table, u: Table, p: Process) {
    && p.HashId() in u.byKey && u.byKey[p.HashId()] in u.cells
    && var r := u.byKey[p.HashId()];
       if p.HashId() in t.byKey
       then r == t.byKey[p.HashId()] && r in t.cells && u.cells[r] == Merge(t.cells[r], p)
       else t.next <= r && u.cells[r] == p && p.id in u.byPid && u.byPid[p.id] == r
  }

  /** Cells outlive the absorption with their key, and change only when they are listed. */
  ghost predicate UnlistedKept(t: Table, u: Table, keys: set<Key>) {
    && (forall r :: r in t.cells ==> r in u.cells && u.cells[r].HashId() == t.cells[r].HashId())
    && (forall r :: r in t.cells && t.cells[r].HashId() !in keys ==> u.cells[r] == t.cells[r])
    && (forall r :: r in u.cells && r !in t.cells ==> u.cells[r].HashId() in keys)
  }

  ghost predicate NewlyKeyed(t: Table, u: Table, keys: set<Key>, r: Ref) {
    r in u.cells && u.cells[r].HashId() in keys && u.cells[r].HashId() !in t.byKey
  }

  /** Pid entries are kept, unless a key that was not in the table takes them over. */
  ghost predicate PidsKept(t: Table, u: Table, keys: set<Key>) {
    && (forall pid :: pid in t.byPid ==> pid in u.byPid)
    && (forall pid :: pid in u.byPid ==>
          || (pid in t.byPid && u.byPid[pid] == t.byPid[pid])
          || NewlyKeyed(t, u, keys, u.byPid[pid]))
  }

  /** The effect of absorbing a listing, record by record. */
  ghost predicate Absorbed(t: Table, u: Table, m: map<Key, Process>) {
    && t.next <= u.next
    && u.byKey.Keys == t.byKey.Keys + m.Keys
    && (forall k {:trigger m[k]} :: k in m ==> AbsorbedAs(t, u, m[k]))
    && UnlistedKept(t, u, m.Keys)
    && PidsKept(t, u, m.Keys)
  }

  lemma RecordsMore(ps: seq<Process>, p: Process)
    requires IsListing(ps + [p])
    ensures IsListing(ps) && p.parent == None
    ensures Records(ps + [p]) == Records(ps)[p.HashId() := p]
    ensures forall k :: k in Records(ps) ==> k.id != p.id
  {
    var qs := ps + [p];
    assert qs[..|qs| - 1] == ps;
    assert forall i :: 0 <= i < |ps| ==> qs[i] == ps[i];
    assert qs[|ps|] == p;
    forall k | k in Records(ps)
      ensures k.id != p.id
    {
      assert Records(ps)[k] in ps;
    }
  }

  lemma RetainUnlinked(t: Table, p: Process)
    requires p.parent == None
    ensures Retain(t, p) == t.(drain := t.drain - {p.HashId()})
  {
    assert Ancestors(t, p) == [];
  }

  lemma AbsorbedAsMore(t: Table, m: Table, p: Process, q: Process)
    requires Sound(t) && Sound(m) && t.next <= m.next && p.id != q.id
    requires AbsorbedAs(t, m, q)
    ensures AbsorbedAs(t, Insert(m, p), q)
  {
    assert m.cells[m.byKey[q.HashId()]].HashId() == q.HashId();
    assert InsertRef(m, p) != m.byKey[q.HashId()];
  }

  lemma AbsorbedAsNew(t: Table, m: Table, keys: set<Key>, p: Process)
    requires Sound(t) && Sound(m) && t.next <= m.next
    requires m.byKey.Keys == t.byKey.Keys + keys && p.HashId() !in keys
    requires UnlistedKept(t, m, keys)
    ensures AbsorbedAs(t, Insert(m, p), p)
  {
    if p.HashId() in t.byKey {
      var r := t.byKey[p.HashId()];
      assert m.cells[r] == t.cells[r];
      assert m.byKey[p.HashId()] == r;
    }
  }

  /** An insertion writes one cell, which has the key of the record, and no other. */
  lemma InsertCells(t: Table, p: Process)
    requires Sound(t)
    ensures var u, r := Insert(t, p), InsertRef(t, p);
            && u.cells.Keys == t.cells.Keys + {r}
            && (forall q {:trigger u.cells[q]} :: q in t.cells && q != r ==> u.cells[q] == t.cells[q])
            && u.cells[r].HashId() == p.HashId()
            && (r in t.cells ==> t.cells[r].HashId() == p.HashId())
            && (r !in t.cells ==> r == t.next)
  {
  }

  lemma UnlistedKeptMore(t: Table, m: Table, keys: set<Key>, p: Process)
    requires Sound(t) && Sound(m) && t.next <= m.next
    requires UnlistedKept(t, m, keys)
    ensures UnlistedKept(t, Insert(m, p), keys + {p.HashId()})
  {
    hide Insert, InsertRef, Keyed, PidIndexed;
    InsertCells(m, p);
    var u := Insert(m, p);
    forall r | r in t.cells
      ensures r in u.cells && u.cells[r].HashId() == t.cells[r].HashId()
      ensures t.cells[r].HashId() !in keys + {p.HashId()} ==> u.cells[r] == t.cells[r]
    {
      assert r in m.cells && m.cells[r].HashId() == t.cells[r].HashId();
    }
    forall r | r in u.cells && r !in t.cells
      ensures u.cells[r].HashId() in keys + {p.HashId()}
    {
      assert r in m.cells ==> m.cells[r].HashId() in keys;
    }
  }

  /** Cells keep their keys, and the pid index gains at most the entry of a new key. */
  lemma InsertPids(t: Table, p: Process)
    requires Sound(t)
    ensures var u, r := Insert(t, p), InsertRef(t, p);
            && (forall q {:trigger t.cells[q]} :: q in t.cells ==> q in u.cells && u.cells[q].HashId() == t.cells[q].HashId())
            && u.byPid == (if p.HashId() in t.byKey then t.byPid else t.byPid[p.id := r])
            && (p.HashId() !in t.byKey ==> r in u.cells && u.cells[r] == p)
  {
  }

  lemma PidsKeptMore(t: Table, m: Table, keys: set<Key>, p: Process)
    requires Sound(t) && Sound(m) && t.next <= m.next
    requires m.byKey.Keys == t.byKey.Keys + keys
    requires PidsKept(t, m, keys) && forall k :: k in keys ==> k.id != p.id
    ensures PidsKept(t, Insert(m, p), keys + {p.HashId()})
  {
    hide Insert, InsertRef, Keyed, PidIndexed, Allocated;
    var u := Insert(m, p);
    InsertPids(m, p);
    forall pid | pid in u.byPid && !(pid in t.byPid && u.byPid[pid] == t.byPid[pid])
      ensures NewlyKeyed(t, u, keys + {p.HashId()}, u.byPid[pid])
    {
      if p.HashId() in m.byKey || pid != p.id {
        var q := m.byPid[pid];
        assert u.byPid[pid] == q && NewlyKeyed(t, m, keys, q);
        assert u.cells[q].HashId() == m.cells[q].HashId();
      } else {
        assert u.cells[u.byPid[pid]] == p;
      }
    }
  }

  lemma AllAbsorbedAsMore(t: Table, m: Table, records: map<Key, Process>, p: Process)
    requires Sound(t) && Sound(m) && t.next <= m.next
    requires forall k {:trigger records[k]} :: k in records ==> AbsorbedAs(t, m, records[k]) && records[k].id != p.id
    requires AbsorbedAs(t, Insert(m, p), p)
    ensures var more := records[p.HashId() := p];
            forall k {:trigger more[k]} :: k in more ==> AbsorbedAs(t, Insert(m, p), more[k])
  {
    forall k | k in records
      ensures AbsorbedAs(t, Insert(m, p), records[k])
    {
      AbsorbedAsMore(t, m, p, records[k]);
    }
  }

  lemma AbsorbedIs(t: Table, u: Table, m: map<Key, Process>)
    requires t.next <= u.next
    requires u.byKey.Keys == t.byKey.Keys + m.Keys
    requires forall k {:trigger m[k]} :: k in m ==> AbsorbedAs(t, u, m[k])
    requires UnlistedKept(t, u, m.Keys)
    requires PidsKept(t, u, m.Keys)
    ensures Absorbed(t, u, m)
  {
  }

  lemma AbsorbStep(t: Table, m: Table, records: map<Key, Process>, p: Process)
    requires Sound(t) && Sound(m) && Absorbed(t, m, records)
    requires p.parent == None && forall k :: k in records ==> k.id != p.id && records[k].HashId() == k
    ensures Absorbed(t, Insert(m, p), records[p.HashId() := p])
  {
    hide Sound, UnlistedKept, PidsKept, AbsorbedAs;
    var u := Insert(m, p);
    var more := records[p.HashId() := p];
    assert more.Keys == records.Keys + {p.HashId()};
    InsertAddsKey(m, p);
    UnlistedKeptMore(t, m, records.Keys, p);
    PidsKeptMore(t, m, records.Keys, p);
    AbsorbedAsNew(t, m, records.Keys, p);
    AllAbsorbedAsMore(t, m, records, p);
    AbsorbedIs(t, u, more);
  }

  lemma DrainKeepsSound(t: Table, drain: set<Key>)
    requires Sound(t)
    ensures Sound(t.(drain := drain))
  {
  }

  lemma {:induction false} AbsorbKeepsSound(t: Table, ps: seq<Process>)
    requires Sound(t) && IsListing(ps)
    ensures Sound(Absorb(t, ps))
  {
    if ps != [] {
      var init, p := ps[..|ps| - 1], ps[|ps| - 1];
      assert init + [p] == ps;
      RecordsMore(init, p);
      AbsorbKeepsSound(t, init);
      hide Insert, Retain, IsListing, Keyed, PidIndexed, Allocated;
      var m := Absorb(t, init);
      RetainUnlinked(m, p);
      DrainKeepsSound(m, m.drain - {p.HashId()});
      InsertKeepsSound(Retain(m, p), p);
    }
  }

  lemma DrainKeepsAbsorbedAs(t: Table, m: Table, records: map<Key, Process>, drain: set<Key>)
    requires forall k {:trigger records[k]} :: k in records ==> AbsorbedAs(t, m, records[k])
    ensures forall k {:trigger records[k]} :: k in records ==> AbsorbedAs(t, m.(drain := drain), records[k])
  {
  }

  lemma DrainKeepsKept(t: Table, m: Table, keys: set<Key>, drain: set<Key>)
    requires UnlistedKept(t, m, keys) && PidsKept(t, m, keys)
    ensures UnlistedKept(t, m.(drain := drain), keys) && PidsKept(t, m.(drain := drain), keys)
  {
  }

  lemma DrainKeepsAbsorbed(t: Table, m: Table, records: map<Key, Process>, drain: set<Key>)
    requires Absorbed(t, m, records)
    ensures Absorbed(t, m.(drain := drain), records)
  {
    hide UnlistedKept, PidsKept, AbsorbedAs;
    DrainKeepsKept(t, m, records.Keys, drain);
    DrainKeepsAbsorbedAs(t, m, records, drain);
  }

  lemma {:induction false} AbsorbIsExact(t: Table, ps: seq<Process>)
    requires Sound(t) && IsListing(ps)
    ensures Absorbed(t, Absorb(t, ps), Records(ps))
  {
    if ps != [] {
      hide Sound, Absorbed;
      var init, p := ps[..|ps| - 1], ps[|ps| - 1];
      assert init + [p] == ps;
      RecordsMore(init, p);
      AbsorbIsExact(t, init);
      AbsorbKeepsSound(t, init);
      var m := Absorb(t, init);
      RetainUnlinked(m, p);
      DrainKeepsAbsorbed(t, m, Records(init), m.drain - {p.HashId()});
      DrainKeepsSound(m, m.drain - {p.HashId()});
      AbsorbStep(t, Retain(Absorb(t, init), p), Records(init), p);
    }
  }

  lemma {:induction false} AbsorbDrains(t: Table, ps: seq<Process>)
    requires IsListing(ps)
    ensures Absorb(t, ps).drain == t.drain - Records(ps).Keys
  {
    if ps != [] {
      var init, p := ps[..|ps| - 1], ps[|ps| - 1];
      assert init + [p] == ps;
      RecordsMore(init, p);
      AbsorbDrains(t, init);
      RetainUnlinked(Absorb(t, init), p);
      InsertKeepsDrain(Retain(Absorb(t, init), p), p);
      hide Retain, Insert, Records;
      assert Records(ps).Keys == Records(init).Keys + {p.HashId()};
    }
  }
}
