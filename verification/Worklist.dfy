/** The depth-first scan that finds a process and everything below it. */
module Worklist {
  import opened Basics

  /** The children the kernel lists for a process; nothing is assumed of them. */
  type Children = Pid -> seq<Pid>

  ghost predicate IsPath(children: Children, path: seq<Pid>) {
    0 < |path| && forall i :: 0 < i < |path| ==> path[i] in children(path[i - 1])
  }

  ghost predicate IsPathTo(children: Children, root: Pid, path: seq<Pid>, p: Pid) {
    IsPath(children, path) && path[0] == root && path[|path| - 1] == p
  }

  ghost predicate Reachable(children: Children, root: Pid, p: Pid) {
    exists path :: IsPathTo(children, root, path, p)
  }

  /** There are finitely many pids, which is what ends the scan. */
  ghost function AllPids(): (pids: set<nat>)
    ensures forall p: Pid :: p in pids
  {
    set x: nat | x < 0x1_0000_0000 && IsPid(x)
  }

  ghost predicate IsPid(x: nat) {
    x < 0x1_0000_0000
  }

  /** Pushes the listed pids that are neither waiting nor done. */
  function PushNew(scan: seq<Pid>, scanned: seq<Pid>, listed: seq<Pid>): (r: seq<Pid>)
    requires NoDuplicates(scan + scanned)
    ensures NoDuplicates(r + scanned)
    ensures forall p :: p in r <==> p in scan || (p in listed && p !in scanned)
    decreases |listed|
  {
    if listed == [] then scan
    else if listed[0] in scan || listed[0] in scanned then PushNew(scan, scanned, listed[1..])
    else
      PushedIsNew(scan, scanned, listed[0]);
      PushNew(scan + [listed[0]], scanned, listed[1..])
  }

  lemma PushedIsNew(scan: seq<Pid>, scanned: seq<Pid>, p: Pid)
    requires NoDuplicates(scan + scanned) && p !in scan && p !in scanned
    ensures NoDuplicates(scan + [p] + scanned)
  {
    var s, u := scan + scanned, scan + [p] + scanned;
    forall i, j | 0 <= i < j < |u|
      ensures u[i] != u[j]
    {
      var n := |scan|;
      assert j > n ==> u[j] == s[j - 1] == scanned[j - 1 - n];
      assert j < n ==> u[j] == s[j] == scan[j];
      assert i > n ==> u[i] == s[i - 1];
      assert i < n ==> u[i] == s[i] == scan[i];
    }
  }

  lemma PoppedMoves(scan: seq<Pid>, scanned: seq<Pid>)
    requires scan != [] && NoDuplicates(scan + scanned)
    ensures var pid := scan[|scan| - 1];
            && NoDuplicates(scan[..|scan| - 1] + (scanned + [pid])) && pid !in scanned
            && |AllPids() - Elements(scanned + [pid])| < |AllPids() - Elements(scanned)|
  {
    var n, m, s := |scan| - 1, |scanned|, scan + scanned;
    var pid := scan[n];
    var u := scan[..n] + (scanned + [pid]);
    assert forall k :: 0 <= k < n ==> u[k] == s[k];
    assert forall k :: n <= k < n + m ==> u[k] == scanned[k - n] == s[k + 1];
    assert u[n + m] == pid == s[n];
    forall k | 0 <= k < m
      ensures scanned[k] != pid
    {
      assert s[n] == pid && s[n + 1 + k] == scanned[k];
    }
    var before, after := AllPids() - Elements(scanned), AllPids() - Elements(scanned + [pid]);
    assert pid in before && pid !in after;
    SubsetCardinality(after, before - {pid});
  }

  /** Pops a pid, lists its children and goes on until nothing is waiting. */
  function Scan(children: Children, scan: seq<Pid>, scanned: seq<Pid>): seq<Pid>
    requires NoDuplicates(scan + scanned)
    decreases |AllPids() - Elements(scanned)|
  {
    if scan == [] then scanned
    else
      PoppedMoves(scan, scanned);
      var pid := scan[|scan| - 1];
      Scan(children, PushNew(scan[..|scan| - 1], scanned + [pid], children(pid)), scanned + [pid])
  }

  /** The processes to look at, from a root downwards, in the order in which they are found. */
  function Tasks(children: Children, root: Pid): seq<Pid> {
    Scan(children, [root], [])
  }

  // ---------------------------------------------------------------------------------------
  // Exactness
  // ---------------------------------------------------------------------------------------

  ghost predicate ListedEarlier(children: Children, s: seq<Pid>, p: Pid) {
    exists q :: q in s && p in children(q)
  }

  /** Every pid but the root comes after one that lists it. */
  ghost predicate InDiscoveryOrder(children: Children, root: Pid, s: seq<Pid>) {
    forall i :: 0 <= i < |s| && s[i] != root ==> ListedEarlier(children, s[..i], s[i])
  }

  ghost predicate ScanInvariant(children: Children, root: Pid, scan: seq<Pid>, scanned: seq<Pid>) {
    && NoDuplicates(scan + scanned)
    && (root in scan || root in scanned)
    && (forall p :: p in scan || p in scanned ==> Reachable(children, root, p))
    && (forall p, c :: p in scanned && c in children(p) ==> c in scan || c in scanned)
    && InDiscoveryOrder(children, root, scanned)
    && (forall p :: p in scan && p != root ==> ListedEarlier(children, scanned, p))
  }

  lemma ReachableStep(children: Children, root: Pid, p: Pid, c: Pid)
    requires Reachable(children, root, p) && c in children(p)
    ensures Reachable(children, root, c)
  {
    var path :| IsPathTo(children, root, path, p);
    assert IsPathTo(children, root, path + [c], c);
  }

  lemma DiscoveryStep(children: Children, root: Pid, scanned: seq<Pid>, pid: Pid)
    requires InDiscoveryOrder(children, root, scanned)
    requires pid == root || ListedEarlier(children, scanned, pid)
    ensures InDiscoveryOrder(children, root, scanned + [pid])
  {
    var done := scanned + [pid];
    forall i | 0 <= i < |done| && done[i] != root
      ensures ListedEarlier(children, done[..i], done[i])
    {
      if i < |scanned| {
        assert done[..i] == scanned[..i];
      } else {
        assert done[..i] == scanned;
      }
    }
  }

  lemma ListedMore(children: Children, scanned: seq<Pid>, pid: Pid, p: Pid)
    requires ListedEarlier(children, scanned, p) || p in children(pid)
    ensures ListedEarlier(children, scanned + [pid], p)
  {
    if ListedEarlier(children, scanned, p) {
      var q :| q in scanned && p in children(q);
      assert q in scanned + [pid];
    } else {
      assert pid in scanned + [pid];
    }
  }

  lemma ScanStep(children: Children, root: Pid, scan: seq<Pid>, scanned: seq<Pid>)
    requires scan != [] && ScanInvariant(children, root, scan, scanned)
    ensures var pid := scan[|scan| - 1];
            && NoDuplicates(scan[..|scan| - 1] + (scanned + [pid]))
            && ScanInvariant(children, root, PushNew(scan[..|scan| - 1], scanned + [pid], children(pid)), scanned + [pid])
  {
    hide NoDuplicates, InDiscoveryOrder, ListedEarlier, Reachable;
    PoppedMoves(scan, scanned);
    var pid := scan[|scan| - 1];
    var done := scanned + [pid];
    var rest := scan[..|scan| - 1];
    var next := PushNew(rest, done, children(pid));
    assert forall p :: p in scan <==> p in rest || p == pid;
    assert forall p :: p in done <==> p in scanned || p == pid;
    forall p | p in next
      ensures Reachable(children, root, p)
      ensures p == root || ListedEarlier(children, done, p)
    {
      if p !in rest {
        ReachableStep(children, root, pid, p);
      }
      if p != root {
        ListedMore(children, scanned, pid, p);
      }
    }
    DiscoveryStep(children, root, scanned, pid);
  }

  lemma {:induction false} ScanIsExact(children: Children, root: Pid, scan: seq<Pid>, scanned: seq<Pid>)
    requires ScanInvariant(children, root, scan, scanned)
    ensures ScanInvariant(children, root, [], Scan(children, scan, scanned))
    decreases |AllPids() - Elements(scanned)|
  {
    if scan == [] {
    } else {
      PoppedMoves(scan, scanned);
      ScanStep(children, root, scan, scanned);
      var pid := scan[|scan| - 1];
      ScanIsExact(children, root, PushNew(scan[..|scan| - 1], scanned + [pid], children(pid)), scanned + [pid]);
    }
  }

  lemma {:induction false} ClosedReachesAll(children: Children, root: Pid, s: seq<Pid>, path: seq<Pid>, p: Pid)
    requires root in s && forall q, c :: q in s && c in children(q) ==> c in s
    requires IsPathTo(children, root, path, p)
    ensures p in s
    decreases |path|
  {
    if |path| > 1 {
      var init := path[..|path| - 1];
      ClosedReachesAll(children, root, s, init, init[|init| - 1]);
    }
  }

  // ---------------------------------------------------------------------------------------
  // The order, for child lists that make a tree
  // ---------------------------------------------------------------------------------------

  /** Below each process the rank falls. */
  ghost predicate Falls(children: Children, rank: Pid -> nat) {
    forall p, c :: c in children(p) ==> rank(c) < rank(p)
  }

  /** A process before everything below it, and of its children the one that is listed last first. */
  ghost function Preorder(children: Children, rank: Pid -> nat, p: Pid): seq<Pid>
    requires Falls(children, rank)
    decreases rank(p), 0
  {
    [p] + Forest(children, rank, children(p), rank(p))
  }

  ghost function Forest(children: Children, rank: Pid -> nat, roots: seq<Pid>, bound: nat): seq<Pid>
    requires Falls(children, rank) && forall p :: p in roots ==> rank(p) < bound
    decreases bound, 0, |roots|
  {
    if roots == [] then []
    else Preorder(children, rank, roots[|roots| - 1]) + Forest(children, rank, roots[..|roots| - 1], bound)
  }

  lemma {:induction false} ForestBound(children: Children, rank: Pid -> nat, roots: seq<Pid>, a: nat, b: nat)
    requires Falls(children, rank) && forall p :: p in roots ==> rank(p) < a && rank(p) < b
    ensures Forest(children, rank, roots, a) == Forest(children, rank, roots, b)
  {
    hide Preorder;
    if roots != [] {
      ForestBound(children, rank, roots[..|roots| - 1], a, b);
    }
  }

  lemma {:induction false} ForestConcat(children: Children, rank: Pid -> nat, x: seq<Pid>, y: seq<Pid>, bound: nat)
    requires Falls(children, rank) && forall p :: p in x + y ==> rank(p) < bound
    ensures (forall p :: p in x ==> rank(p) < bound) && (forall p :: p in y ==> rank(p) < bound)
    ensures Forest(children, rank, x + y, bound) == Forest(children, rank, y, bound) + Forest(children, rank, x, bound)
  {
    hide Preorder;
    assert forall p :: p in x || p in y ==> p in x + y;
    if y == [] {
      assert x + y == x;
    } else {
      var n := |y| - 1;
      assert (x + y)[..|x + y| - 1] == x + y[..n];
      ForestConcat(children, rank, x, y[..n], bound);
    }
  }

  lemma {:induction false} RootsInForest(children: Children, rank: Pid -> nat, roots: seq<Pid>, bound: nat)
    requires Falls(children, rank) && forall p :: p in roots ==> rank(p) < bound
    ensures forall p :: p in roots ==> p in Forest(children, rank, roots, bound)
  {
    if roots != [] {
      RootsInForest(children, rank, roots[..|roots| - 1], bound);
      assert forall p :: p in roots <==> p in roots[..|roots| - 1] || p == roots[|roots| - 1];
    }
  }

  /** Pids that are all new and all different are pushed as they are listed. */
  lemma {:induction false} AllPushed(scan: seq<Pid>, scanned: seq<Pid>, listed: seq<Pid>)
    requires NoDuplicates(scan + scanned) && NoDuplicates(scan + listed) && forall p :: p in listed ==> p !in scanned
    ensures PushNew(scan, scanned, listed) == scan + listed
    decreases |listed|
  {
    if listed == [] {
      assert scan + listed == scan;
    } else {
      assert (scan + listed)[|scan|] == listed[0];
      assert listed[0] !in scan by {
        forall i | 0 <= i < |scan|
          ensures scan[i] != listed[0]
        {
          assert (scan + listed)[i] == scan[i];
        }
      }
      PushedIsNew(scan, scanned, listed[0]);
      assert scan + [listed[0]] + listed[1..] == scan + listed;
      AllPushed(scan + [listed[0]], scanned, listed[1..]);
    }
  }

  lemma NoDuplicatesInPart(a: seq<Pid>, b: seq<Pid>, c: seq<Pid>)
    requires NoDuplicates(a + b + c)
    ensures NoDuplicates(a) && NoDuplicates(b) && NoDuplicates(c) && NoDuplicates(b + c)
    ensures forall p :: p in b ==> p !in a && p !in c
  {
    var s := a + b + c;
    assert forall i :: 0 <= i < |a| ==> s[i] == a[i];
    assert forall i :: 0 <= i < |b| ==> s[|a| + i] == b[i];
    assert forall i :: 0 <= i < |c| ==> s[|a| + |b| + i] == c[i];
    assert forall i :: 0 <= i < |b + c| ==> s[|a| + i] == (b + c)[i];
  }

  lemma {:induction false} RootsDistinct(children: Children, rank: Pid -> nat, roots: seq<Pid>, bound: nat)
    requires Falls(children, rank) && forall p :: p in roots ==> rank(p) < bound
    requires NoDuplicates(Forest(children, rank, roots, bound))
    ensures NoDuplicates(roots)
  {
    if roots != [] {
      var init, last := roots[..|roots| - 1], roots[|roots| - 1];
      var first, rest := Preorder(children, rank, last), Forest(children, rank, init, bound);
      assert [] + first + rest == Forest(children, rank, roots, bound);
      NoDuplicatesInPart([], first, rest);
      RootsDistinct(children, rank, init, bound);
      RootsInForest(children, rank, init, bound);
      assert first[0] == last && last in first && last !in init;
      hide Preorder, Forest;
      assert forall i :: 0 <= i < |init| ==> init[i] in init;
    }
  }

  /** One process of the forest and its children in its place. */
  lemma ForestOpens(children: Children, rank: Pid -> nat, scan: seq<Pid>, bound: nat)
    requires Falls(children, rank) && scan != [] && forall p :: p in scan ==> rank(p) < bound
    ensures var pid, rest := scan[|scan| - 1], scan[..|scan| - 1];
            && (forall p :: p in rest + children(pid) ==> rank(p) < bound)
            && Forest(children, rank, scan, bound) == [pid] + Forest(children, rank, rest + children(pid), bound)
  {
    var pid, rest := scan[|scan| - 1], scan[..|scan| - 1];
    forall p | p in rest + children(pid)
      ensures rank(p) < bound
    {
      assert p in rest ==> p in scan;
      assert p in children(pid) ==> rank(p) < rank(pid);
    }
    ForestConcat(children, rank, rest, children(pid), bound);
    ForestBound(children, rank, children(pid), rank(pid), bound);
  }

  /** Nothing that is still to come is waiting or done already. */
  lemma NextIsPushed(scan: seq<Pid>, scanned: seq<Pid>, listed: seq<Pid>, left: seq<Pid>)
    requires scan != [] && NoDuplicates(scan + scanned)
    requires NoDuplicates(scan[..|scan| - 1] + listed) && (forall p :: p in listed ==> p in left)
    requires NoDuplicates(scanned + ([scan[|scan| - 1]] + left))
    ensures var pid, rest := scan[|scan| - 1], scan[..|scan| - 1];
            && NoDuplicates(rest + (scanned + [pid]))
            && PushNew(rest, scanned + [pid], listed) == rest + listed
            && NoDuplicates(rest + listed + (scanned + [pid]))
  {
    var pid, rest := scan[|scan| - 1], scan[..|scan| - 1];
    PoppedMoves(scan, scanned);
    assert scanned + ([pid] + left) == [] + (scanned + [pid]) + left;
    NoDuplicatesInPart([], scanned + [pid], left);
    AllPushed(rest, scanned + [pid], listed);
  }

  /** One turn of the scan: what is still to come is found in the order of the forest. */
  lemma ForestStep(children: Children, rank: Pid -> nat, scan: seq<Pid>, scanned: seq<Pid>, bound: nat)
    requires Falls(children, rank) && scan != [] && forall p :: p in scan ==> rank(p) < bound
    requires NoDuplicates(scan + scanned) && NoDuplicates(scanned + Forest(children, rank, scan, bound))
    ensures var pid, rest := scan[|scan| - 1], scan[..|scan| - 1];
            && (forall p :: p in rest + children(pid) ==> rank(p) < bound)
            && NoDuplicates(rest + (scanned + [pid]))
            && PushNew(rest, scanned + [pid], children(pid)) == rest + children(pid)
            && NoDuplicates(rest + children(pid) + (scanned + [pid]))
            && scanned + Forest(children, rank, scan, bound) == scanned + [pid] + Forest(children, rank, rest + children(pid), bound)
  {
    hide NoDuplicates, Forest, Preorder, PushNew;
    var pid, rest := scan[|scan| - 1], scan[..|scan| - 1];
    ForestOpens(children, rank, scan, bound);
    var left := Forest(children, rank, rest + children(pid), bound);
    assert scanned + ([pid] + left) == [] + (scanned + [pid]) + left == scanned + [pid] + left;
    NoDuplicatesInPart([], scanned + [pid], left);
    RootsDistinct(children, rank, rest + children(pid), bound);
    RootsInForest(children, rank, rest + children(pid), bound);
    NextIsPushed(scan, scanned, children(pid), left);
  }

  lemma {:induction false} ScanIsForest(children: Children, rank: Pid -> nat, scan: seq<Pid>, scanned: seq<Pid>, bound: nat)
    requires Falls(children, rank) && forall p :: p in scan ==> rank(p) < bound
    requires NoDuplicates(scan + scanned) && NoDuplicates(scanned + Forest(children, rank, scan, bound))
    ensures Scan(children, scan, scanned) == scanned + Forest(children, rank, scan, bound)
    decreases |AllPids() - Elements(scanned)|
  {
    if scan == [] {
      assert scanned + [] == scanned;
    } else {
      var pid, rest := scan[|scan| - 1], scan[..|scan| - 1];
      PoppedMoves(scan, scanned);
      ForestStep(children, rank, scan, scanned, bound);
      hide Forest, NoDuplicates;
      ScanIsForest(children, rank, rest + children(pid), scanned + [pid], bound);
    }
  }

  /**
   * If the child lists make a tree below the root, the scan goes through it depth first, each
   * process before those below it, and the child that is listed last before its siblings.
   */
  lemma TasksArePreorder(children: Children, rank: Pid -> nat, root: Pid)
    requires Falls(children, rank) && NoDuplicates(Preorder(children, rank, root))
    ensures Tasks(children, root) == Preorder(children, rank, root)
  {
    assert [root] + [] == [root] && [root][..0] == [];
    assert Preorder(children, rank, root) + [] == Preorder(children, rank, root);
    assert [] + Preorder(children, rank, root) == Preorder(children, rank, root);
    assert Forest(children, rank, [root][..0], rank(root) + 1) == [];
    assert Forest(children, rank, [root], rank(root) + 1) == Preorder(children, rank, root);
    ScanIsForest(children, rank, [root], [], rank(root) + 1);
  }

  // ---------------------------------------------------------------------------------------
  // What is found
  // ---------------------------------------------------------------------------------------

  /**
   * Whatever the child lists hold, circles and repetitions included, the scan finds exactly the
   * pids that can be reached from the root, each once, and none before a pid that lists it.
   */
  lemma TasksAreReachable(children: Children, root: Pid)
    ensures var tasks := Tasks(children, root);
            && NoDuplicates(tasks)
            && (forall p :: p in tasks <==> Reachable(children, root, p))
            && InDiscoveryOrder(children, root, tasks)
  {
    assert IsPathTo(children, root, [root], root);
    assert [root] + [] == [root];
    ScanIsExact(children, root, [root], []);
    var tasks := Tasks(children, root);
    assert [] + tasks == tasks;
    forall p | Reachable(children, root, p)
      ensures p in tasks
    {
      var path :| IsPathTo(children, root, path, p);
      ClosedReachesAll(children, root, tasks, path, p);
    }
  }
}
