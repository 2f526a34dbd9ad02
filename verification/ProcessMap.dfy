/** The process map as it is updated in place, proved against the table operations. */
module ProcessMap {
  import opened Basics
  import opened Scheduler
  import opened ProcessTable
  import opened TableOperations
  import opened Refresh

  /**
   * The owner of every cell. All reading and writing of process records goes through it; a cell
   * is dropped when the last table entry that refers to it is gone.
   */
  class LCellOwner {
    var cells: map<Ref, Process>
    var next: Ref

    constructor ()
      ensures cells == map[] && next == 0
    {
      cells, next := map[], 0;
    }

    method New(p: Process) returns (r: Ref)
      modifies this
      ensures r == old(next) && next == r + 1 && cells == old(cells)[r := p]
    {
      r := next;
      cells, next := cells[r := p], r + 1;
    }

    method Write(r: Ref, p: Process)
      requires r in cells
      modifies this`cells
      ensures cells == old(cells)[r := p]
    {
      cells := cells[r := p];
    }

    method Drop(r: Ref)
      modifies this`cells
      ensures cells == old(cells) - {r}
    {
      cells := cells - {r};
    }
  }

  /** Collects what the ancestor iterator yields, following live parent links one at a time. */
  method AncestorsOf(owner: LCellOwner, p: Process, ghost t: Table) returns (chain: seq<Ref>)
    requires t.cells == owner.cells && Ends(t, p.parent)
    ensures chain == Ancestors(t, p)
  {
    chain := [];
    var parentNode := if p.parent.Some? && p.parent.value in owner.cells then p.parent else None;
    ghost var n := |t.cells| + 1;
    while parentNode.Some?
      invariant parentNode == Upgrade(t, parentNode)
      invariant |chain| <= n && Walk(t, p.parent, n) == chain + Walk(t, parentNode, n - |chain|)
      decreases n - |chain|
    {
      var parent := parentNode.value;
      WalkStep(t, p.parent, chain, parent, n);
      var link := owner.cells[parent].parent;
      parentNode := if link.Some? && link.value in owner.cells then link else None;
      chain := chain + [parent];
    }
    WalkEnds(t, p.parent, n);
  }

  lemma WalkStep(t: Table, w: Option<Ref>, chain: seq<Ref>, parent: Ref, n: nat)
    requires parent in t.cells && |chain| <= n && n == |t.cells| + 1 && Ends(t, w)
    requires Walk(t, w, n) == chain + Walk(t, Some(parent), n - |chain|)
    ensures |chain| < n
    ensures var link := Upgrade(t, t.cells[parent].parent);
            Walk(t, w, n) == chain + [parent] + Walk(t, link, n - |chain| - 1)
  {
    assert Walk(t, t.cells[parent].parent, n - |chain| - 1) == Walk(t, Upgrade(t, t.cells[parent].parent), n - |chain| - 1);
  }

  class Map {
    var byKey: map<Key, Ref>
    var byPid: map<Pid, Ref>
    var drain: set<Key>

    constructor ()
      ensures byKey == map[] && byPid == map[] && drain == {}
    {
      byKey, byPid, drain := map[], map[], {};
    }

    /** The table that the map forms together with the cells it refers to. */
    ghost function Contents(owner: LCellOwner): Table
      reads this, owner
    {
      Table(owner.cells, byKey, byPid, drain, owner.next)
    }

    method GetPid(pid: Pid) returns (r: Option<Ref>)
      ensures r == if pid in byPid then Some(byPid[pid]) else None
    {
      r := if pid in byPid then Some(byPid[pid]) else None;
    }

    method Insert(owner: LCellOwner, p: Process) returns (r: Ref)
      requires Keyed(Contents(owner))
      modifies this`byKey, this`byPid, owner
      ensures Contents(owner) == TableOperations.Insert(old(Contents(owner)), p)
      ensures r == InsertRef(old(Contents(owner)), p) && r in owner.cells
    {
      var hash := p.HashId();
      if hash in byKey {
        r := byKey[hash];
        var entry := owner.cells[r].(cgroup := p.cgroup, parent := p.parent);
        if entry.name != p.name {
          entry := entry.(cmdline := entry.forkedCmdline, forkedCmdline := entry.cmdline);
          entry := entry.(name := entry.forkedName, forkedName := entry.name);
          entry := entry.(name := p.name, cmdline := p.cmdline, assignedPriority := NotAssignable);
        }
        owner.Write(r, entry);
      } else {
        r := owner.New(p);
        byKey, byPid := byKey[hash := r], byPid[p.id := r];
      }
    }

    /** Everything in the map is up for removal until it is seen again. */
    method DrainFilterPrepare(owner: LCellOwner)
      modifies this`drain
      ensures Contents(owner) == Prepare(old(Contents(owner)))
    {
      drain := {};
      var keys := byKey.Keys;
      while keys != {}
        invariant keys <= byKey.Keys && drain == byKey.Keys - keys
        decreases keys
      {
        var hash :| hash in keys;
        keys, drain := keys - {hash}, drain + {hash};
      }
    }

    method RetainProcessTree(owner: LCellOwner, p: Process)
      requires Ends(Contents(owner), p.parent)
      modifies this`drain
      ensures Contents(owner) == Retain(old(Contents(owner)), p)
    {
      ghost var t := Contents(owner);
      drain := drain - {p.HashId()};
      var chain := AncestorsOf(owner, p, t);
      WalkInCells(t, p.parent, |t.cells|);
      for i := 0 to |chain|
        invariant drain == t.drain - {p.HashId()} - set r | r in chain[..i] && r in t.cells :: t.cells[r].HashId()
      {
        assert chain[..i + 1] == chain[..i] + [chain[i]];
        drain := drain - {owner.cells[chain[i]].HashId()};
      }
      assert chain[..|chain|] == chain;
    }

    /** Removes what was not seen, dropping each cell once no index refers to it. */
    method DrainFilter(owner: LCellOwner)
      requires Sound(Contents(owner))
      modifies this, owner`cells
      ensures Contents(owner) == TableOperations.DrainFilter(old(Contents(owner)))
    {
      hide Remove, Sound;
      ghost var t := Contents(owner);
      RemoveNone(t);
      assert t.drain - drain == {};
      while drain != {}
        invariant drain <= t.drain && owner.next == t.next
        invariant Contents(owner) == Remove(t, t.drain - drain).(drain := drain)
        decreases drain
      {
        ghost var gone := t.drain - drain;
        var hash :| hash in drain;
        drain := drain - {hash};
        RemoveOneMore(t, gone, hash);
        assert t.drain - drain == gone + {hash};
        if hash in byKey {
          var process := byKey[hash];
          byKey := byKey - {hash};
          byPid := byPid - {owner.cells[process].id};
          assert process !in byKey.Values && process !in byPid.Values;
          owner.Drop(process);
        }
      }
      assert t.drain - {} == t.drain;
    }
  }

  /** Removing one more key drops its cell and the pid entry of that cell's pid. */
  lemma RemoveOneMore(t: Table, gone: set<Key>, hash: Key)
    requires Sound(t)
    ensures var u, v := Remove(t, gone), Remove(t, gone + {hash});
            && v.drain == u.drain && v.next == u.next == t.next
            && if hash in u.byKey then
              var r := u.byKey[hash];
              && r in u.cells
              && v.cells == u.cells - {r} && v.byKey == u.byKey - {hash} && v.byPid == u.byPid - {u.cells[r].id}
              && r !in v.byKey.Values && r !in v.byPid.Values
            else
              v.cells == u.cells && v.byKey == u.byKey && v.byPid == u.byPid
  {
    var u, v := Remove(t, gone), Remove(t, gone + {hash});
    RemoveKeepsSound(t, gone);
    RemoveKeepsSound(t, gone + {hash});
    if hash in u.byKey {
      hide Allocated;
      RemovedCell(t, gone, hash);
      RemovedPids(t, gone, hash);
      assert v.byKey == u.byKey - {hash};
      assert u.byKey[hash] == t.byKey[hash];
      hide Remove;
      CellIsGone(u, v, hash);
    } else {
      KeyAlreadyGone(t, gone, hash);
    }
  }

  lemma CellIsGone(u: Table, v: Table, hash: Key)
    requires Sound(u) && Sound(v) && hash in u.byKey && v.cells == u.cells - {u.byKey[hash]}
    ensures var r := u.byKey[hash]; r in u.cells && u.cells[r].id == hash.id && r !in v.byKey.Values && r !in v.byPid.Values
  {
    hide Allocated;
  }

  lemma RemovedCell(t: Table, gone: set<Key>, hash: Key)
    requires Sound(t) && hash in t.byKey && hash !in gone
    ensures Remove(t, gone + {hash}).cells == Remove(t, gone).cells - {t.byKey[hash]}
  {
    hide PidIndexed, Allocated;
    OnlyCell(t, hash);
    hide Keyed;
  }

  lemma OnlyCell(t: Table, hash: Key)
    requires Keyed(t) && hash in t.byKey
    ensures forall r :: r in t.cells ==> (t.cells[r].HashId() == hash <==> r == t.byKey[hash])
  {
  }

  lemma RemovedPids(t: Table, gone: set<Key>, hash: Key)
    requires Sound(t) && hash in t.byKey && hash !in gone
    ensures Remove(t, gone + {hash}).byPid == Remove(t, gone).byPid - {hash.id}
  {
    hide Keyed, PidIndexed, Allocated;
    var u, v := Remove(t, gone), Remove(t, gone + {hash});
    forall pid | pid in t.byPid
      ensures pid in v.byPid <==> pid in u.byPid && pid != hash.id
    {
      if k :| k in gone + {hash} && k in t.byKey && k.id == pid {
        assert k in gone || k == hash;
      }
    }
  }

  lemma KeyAlreadyGone(t: Table, gone: set<Key>, hash: Key)
    requires Sound(t) && (hash in t.byKey ==> hash in gone)
    ensures var u, v := Remove(t, gone), Remove(t, gone + {hash});
            v.cells == u.cells && v.byKey == u.byKey && v.byPid == u.byPid
  {
    if hash in gone {
      assert gone + {hash} == gone;
    } else {
      assert forall r {:trigger r in t.cells} :: r in t.cells ==> t.cells[r].HashId() != hash;
      hide Keyed, PidIndexed, Allocated;
      var u, v := Remove(t, gone), Remove(t, gone + {hash});
      assert v.cells == u.cells && v.byKey == u.byKey;
      UntrackedKeyKeepsPids(t, gone, hash);
    }
  }

  lemma UntrackedKeyKeepsPids(t: Table, gone: set<Key>, hash: Key)
    requires hash !in t.byKey
    ensures Remove(t, gone + {hash}).byPid == Remove(t, gone).byPid
  {
    var u, v := Remove(t, gone), Remove(t, gone + {hash});
    forall pid | pid in t.byPid
      ensures pid in v.byPid <==> pid in u.byPid
    {
      if k :| k in gone + {hash} && k in t.byKey && k.id == pid {
        assert k in gone;
      }
    }
  }

  lemma RemoveNone(t: Table)
    ensures Remove(t, {}) == t
  {
    assert Remove(t, {}).cells == t.cells && Remove(t, {}).byKey == t.byKey && Remove(t, {}).byPid == t.byPid;
  }
}
