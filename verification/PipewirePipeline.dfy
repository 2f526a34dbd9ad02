/**
 * From the nodes of a pipewire socket to the events the service receives: the node tracker of
 * the child process, the line protocol, and the monitor that removes duplicates.
 */
module PipewirePipeline {
  import opened Basics
  import opened PipewireWire

  // ---------------------------------------------------------------------------------------
  // The monitor
  // ---------------------------------------------------------------------------------------

  /** The pids that have been added and not removed since. */
  ghost function Managed(managed: set<Pid>, events: seq<ProcessEvent>): set<Pid> {
    if events == [] then managed
    else
      var before := Managed(managed, events[..|events| - 1]);
      match events[|events| - 1]
      case Add(pid) => before + {pid}
      case Remove(pid) => before - {pid}
  }

  /** The events that change the set of managed pids; the others are dropped. */
  ghost function Forwarded(managed: set<Pid>, events: seq<ProcessEvent>): seq<ProcessEvent> {
    if events == [] then []
    else
      var init, last := events[..|events| - 1], events[|events| - 1];
      if last.Add? == (last.pid in Managed(managed, init)) then Forwarded(managed, init)
      else Forwarded(managed, init) + [last]
  }

  lemma ManagedMore(managed: set<Pid>, events: seq<ProcessEvent>, event: ProcessEvent)
    ensures Managed(managed, events + [event]) ==
            if event.Add? then Managed(managed, events) + {event.pid} else Managed(managed, events) - {event.pid}
    ensures Forwarded(managed, events + [event]) ==
            if event.Add? == (event.pid in Managed(managed, events)) then Forwarded(managed, events)
            else Forwarded(managed, events) + [event]
  {
    assert (events + [event])[..|events|] == events;
  }

  lemma {:induction false} ManagedConcat(managed: set<Pid>, a: seq<ProcessEvent>, b: seq<ProcessEvent>)
    ensures Managed(managed, a + b) == Managed(Managed(managed, a), b)
    ensures Forwarded(managed, a + b) == Forwarded(managed, a) + Forwarded(Managed(managed, a), b)
  {
    if b == [] {
      assert a + b == a;
    } else {
      var init, last := b[..|b| - 1], b[|b| - 1];
      assert a + b == (a + init) + [last] && b == init + [last];
      ManagedConcat(managed, a, init);
      ManagedMore(managed, a + init, last);
      ManagedMore(Managed(managed, a), init, last);
    }
  }

  class Monitor {
    var managed: set<Pid>

    /** What has been sent to the daemon's channel, first to last. */
    var sent: seq<ProcessEvent>

    constructor ()
      ensures managed == {} && sent == []
    {
      managed, sent := {}, [];
    }

    /** Forwards an event unless it repeats what is already known. */
    method Handle(event: ProcessEvent)
      modifies this
      ensures managed == Managed(old(managed), [event])
      ensures sent == old(sent) + Forwarded(old(managed), [event])
    {
      ManagedMore(managed, [], event);
      assert [] + [event] == [event];
      match event {
        case Add(pid) =>
          if pid in managed {
            return;
          }
          managed := managed + {pid};
        case Remove(pid) =>
          if pid !in managed {
            return;
          }
          managed := managed - {pid};
      }
      sent := sent + [event];
    }

    /** Forwards the event on a line, if the line holds one. */
    method HandleLine(line: seq<Byte>)
      modifies this
      ensures managed == Managed(old(managed), EventOn(line))
      ensures sent == old(sent) + Forwarded(old(managed), EventOn(line))
    {
      var event := FromBytes(line);
      if event.Some? {
        Handle(event.value);
      }
    }

    /** Reads one child's output line by line until it ends. */
    method ReadChild(stdout: seq<Byte>)
      modifies this
      ensures managed == Managed(old(managed), ParseAll(stdout))
      ensures sent == old(sent) + Forwarded(old(managed), ParseAll(stdout))
    {
      hide Managed, Forwarded, FromBytes, NextLine;
      var unread := stdout;
      while unread != []
        invariant Managed(old(managed), ParseAll(stdout)) == Managed(managed, ParseAll(unread))
        invariant old(sent) + Forwarded(old(managed), ParseAll(stdout)) == sent + Forwarded(managed, ParseAll(unread))
        decreases |unread|
      {
        var line := NextLine(unread);
        ManagedConcat(managed, EventOn(line), ParseAll(unread[|line|..]));
        assert ParseAll(unread) == EventOn(line) + ParseAll(unread[|line|..]);
        hide ParseAll, EventOn;
        unread := unread[|line|..];
        HandleLine(line);
      }
      NothingLeft(managed);
    }

    /** Starts a child, reads it to its end and starts the next; the managed set is kept. */
    method Run(children: seq<seq<Byte>>)
      modifies this
      ensures managed == Managed(old(managed), ParseChildren(children))
      ensures sent == old(sent) + Forwarded(old(managed), ParseChildren(children))
    {
      hide Managed, Forwarded, ParseAll;
      NothingLeft(managed);
      for i := 0 to |children|
        invariant managed == Managed(old(managed), ParseChildren(children[..i]))
        invariant sent == old(sent) + Forwarded(old(managed), ParseChildren(children[..i]))
      {
        assert children[..i + 1][..i] == children[..i];
        ManagedConcat(old(managed), ParseChildren(children[..i]), ParseAll(children[i]));
        ReadChild(children[i]);
      }
      assert children[..|children|] == children;
    }
  }

  ghost function EventOn(line: seq<Byte>): seq<ProcessEvent> {
    match FromBytes(line) case Some(event) => [event] case None => []
  }

  lemma NothingLeft(managed: set<Pid>)
    ensures Managed(managed, ParseAll([])) == Managed(managed, []) == managed
    ensures Forwarded(managed, ParseAll([])) == Forwarded(managed, []) == []
  {
  }

  /** The events of several children, one after the other. */
  ghost function ParseChildren(children: seq<seq<Byte>>): seq<ProcessEvent> {
    if children == [] then [] else ParseChildren(children[..|children| - 1]) + ParseAll(children[|children| - 1])
  }

  // ---------------------------------------------------------------------------------------
  // What the monitor promises
  // ---------------------------------------------------------------------------------------

  /** The events about one pid. */
  ghost function About(pid: Pid, events: seq<ProcessEvent>): seq<ProcessEvent> {
    if events == [] then []
    else
      var init, last := About(pid, events[..|events| - 1]), events[|events| - 1];
      if last.pid == pid then init + [last] else init
  }

  ghost predicate Alternating(events: seq<ProcessEvent>) {
    forall i :: 0 <= i < |events| ==> events[i].Add? == (i % 2 == 0)
  }

  /** Additions and removals in turn, an addition first, and the last one tells whether the pid is managed. */
  ghost predicate InTurns(about: seq<ProcessEvent>, pid: Pid, managed: set<Pid>) {
    Alternating(about) && (pid in managed <==> about != [] && about[|about| - 1].Add?)
  }

  lemma {:induction false} ForwardedInTurns(events: seq<ProcessEvent>, pid: Pid)
    ensures InTurns(About(pid, Forwarded({}, events)), pid, Managed({}, events))
  {
    if events != [] {
      hide Forwarded, Managed, About, InTurns;
      var init, last := events[..|events| - 1], events[|events| - 1];
      ForwardedInTurns(init, pid);
      assert events == init + [last];
      ManagedMore({}, init, last);
      AboutMore(pid, Forwarded({}, init), last);
      InTurnsMore(About(pid, Forwarded({}, init)), pid, last, Managed({}, init));
    }
  }

  /** Forwarding one more event, or dropping it, keeps the turns and what they say of the managed set. */
  lemma InTurnsMore(about: seq<ProcessEvent>, pid: Pid, last: ProcessEvent, managed: set<Pid>)
    requires InTurns(about, pid, managed)
    ensures InTurns(if last.Add? != (last.pid in managed) && last.pid == pid then about + [last] else about, pid,
                    if last.Add? then managed + {last.pid} else managed - {last.pid})
  {
    if last.pid == pid && last.Add? != (last.pid in managed) {
      AlternatingMore(about, last);
    }
    hide Alternating;
  }

  /**
   * For every stream of events, each pid is forwarded as additions and removals in turn, an
   * addition first; a pid is managed exactly when its last forwarded event is an addition.
   */
  lemma ForwardedAlternates(events: seq<ProcessEvent>, pid: Pid)
    ensures var about := About(pid, Forwarded({}, events));
            && Alternating(about)
            && (pid in Managed({}, events) <==> about != [] && about[|about| - 1].Add?)
  {
    hide Forwarded, Managed, About, Alternating;
    ForwardedInTurns(events, pid);
  }

  lemma AlternatingMore(events: seq<ProcessEvent>, event: ProcessEvent)
    requires Alternating(events) && event.Add? != (events != [] && events[|events| - 1].Add?)
    ensures Alternating(events + [event])
  {
  }

  lemma AboutMore(pid: Pid, events: seq<ProcessEvent>, event: ProcessEvent)
    ensures About(pid, events + [event]) == About(pid, events) + if event.pid == pid then [event] else []
  {
    assert (events + [event])[..|events|] == events;
  }

  /** Replaying what was forwarded manages the same pids, so a follower needs no other source. */
  lemma {:induction false} ForwardedSuffices(events: seq<ProcessEvent>)
    ensures Managed({}, Forwarded({}, events)) == Managed({}, events)
    ensures Forwarded({}, Forwarded({}, events)) == Forwarded({}, events)
  {
    if events != [] {
      var init, last := events[..|events| - 1], events[|events| - 1];
      ForwardedSuffices(init);
      ManagedMore({}, Forwarded({}, init), last);
    }
  }

  // ---------------------------------------------------------------------------------------
  // The node tracker
  // ---------------------------------------------------------------------------------------

  /** Information about a node, with the process it belongs to if that is known; or its removal. */
  datatype NodeEvent = Info(node: nat, process: Option<Pid>) | Removed(node: nat)

  /** The process of each live node. */
  ghost function Nodes(events: seq<NodeEvent>): map<nat, Pid> {
    if events == [] then map[]
    else
      var before := Nodes(events[..|events| - 1]);
      match events[|events| - 1]
      case Info(node, process) => if process.Some? then before[node := process.value] else before
      case Removed(node) => before - {node}
  }

  /** The process events that the node events give rise to. */
  ghost function Emitted(events: seq<NodeEvent>): seq<ProcessEvent> {
    if events == [] then []
    else
      var nodes, before := Nodes(events[..|events| - 1]), Emitted(events[..|events| - 1]);
      match events[|events| - 1]
      case Info(node, process) => if process.Some? && node !in nodes then before + [Add(process.value)] else before
      case Removed(node) => if node in nodes then before + [Remove(nodes[node])] else before
  }

  class NodeTracker {
    var managed: map<nat, Pid>
    var emitted: seq<ProcessEvent>
    ghost var seen: seq<NodeEvent>

    ghost predicate Valid()
      reads this
    {
      managed == Nodes(seen) && emitted == Emitted(seen)
    }

    constructor ()
      ensures Valid() && seen == []
    {
      managed, emitted, seen := map[], [], [];
    }

    method Handle(event: NodeEvent)
      requires Valid()
      modifies this
      ensures Valid() && seen == old(seen) + [event]
    {
      assert (seen + [event])[..|seen|] == seen;
      match event {
        case Info(node, process) =>
          if process.Some? {
            var known := node in managed;
            managed := managed[node := process.value];
            if !known {
              emitted := emitted + [Add(process.value)];
            }
          }
        case Removed(node) =>
          if node in managed {
            var pid := managed[node];
            managed := managed - {node};
            emitted := emitted + [Remove(pid)];
          }
      }
      seen := seen + [event];
    }
  }

  // ---------------------------------------------------------------------------------------
  // Nodes, events and managed pids
  // ---------------------------------------------------------------------------------------

  /** Every report about a node names the same process. */
  ghost predicate FixedProcesses(events: seq<NodeEvent>, processOf: nat -> Pid) {
    forall i :: 0 <= i < |events| && events[i].Info? && events[i].process.Some? ==>
                  events[i].process.value == processOf(events[i].node)
  }

  ghost function NodesOf(nodes: map<nat, Pid>, pid: Pid): set<nat> {
    set node | node in nodes && nodes[node] == pid
  }

  ghost function Additions(pid: Pid, events: seq<ProcessEvent>): nat {
    if events == [] then 0
    else Additions(pid, events[..|events| - 1]) + if events[|events| - 1] == Add(pid) then 1 else 0
  }

  ghost function Removals(pid: Pid, events: seq<ProcessEvent>): nat {
    if events == [] then 0
    else Removals(pid, events[..|events| - 1]) + if events[|events| - 1] == Remove(pid) then 1 else 0
  }

  lemma {:induction false} NodesAreFixed(events: seq<NodeEvent>, processOf: nat -> Pid)
    requires FixedProcesses(events, processOf)
    ensures forall node :: node in Nodes(events) ==> Nodes(events)[node] == processOf(node)
  {
    if events != [] {
      NodesAreFixed(events[..|events| - 1], processOf);
    }
  }

  lemma NodesOfMore(nodes: map<nat, Pid>, node: nat, pid: Pid, q: Pid)
    requires node !in nodes
    ensures |NodesOf(nodes[node := pid], q)| == |NodesOf(nodes, q)| + if pid == q then 1 else 0
  {
    if pid == q {
      assert NodesOf(nodes[node := pid], q) == NodesOf(nodes, q) + {node};
    } else {
      assert NodesOf(nodes[node := pid], q) == NodesOf(nodes, q);
    }
  }

  lemma NodesOfLess(nodes: map<nat, Pid>, node: nat, q: Pid)
    requires node in nodes
    ensures |NodesOf(nodes, q)| == |NodesOf(nodes - {node}, q)| + if nodes[node] == q then 1 else 0
  {
    var less := nodes - {node};
    assert less[node := nodes[node]] == nodes;
    NodesOfMore(less, node, nodes[node], q);
  }

  /** Additions less removals of a pid count the live nodes of that process. */
  lemma {:induction false} EmittedCountsNodes(events: seq<NodeEvent>, processOf: nat -> Pid, pid: Pid)
    requires FixedProcesses(events, processOf)
    ensures Additions(pid, Emitted(events)) == Removals(pid, Emitted(events)) + |NodesOf(Nodes(events), pid)|
  {
    if events != [] {
      var init := events[..|events| - 1];
      var nodes, before := Nodes(init), Emitted(init);
      EmittedCountsNodes(init, processOf, pid);
      NodesAreFixed(init, processOf);
      match events[|events| - 1]
      case Info(node, process) =>
        if process.Some? {
          if node in nodes {
            assert nodes[node := process.value] == nodes;
          } else {
            NodesOfMore(nodes, node, process.value, pid);
            assert (before + [Add(process.value)])[..|before|] == before;
          }
        }
      case Removed(node) =>
        if node in nodes {
          NodesOfLess(nodes, node, pid);
          assert (before + [Remove(nodes[node])])[..|before|] == before;
        } else {
          assert nodes - {node} == nodes;
        }
    }
  }

  ghost predicate HasNode(nodes: map<nat, Pid>, pid: Pid) {
    exists node :: node in nodes && nodes[node] == pid
  }

  ghost predicate OneNodeEach(nodes: map<nat, Pid>) {
    forall a, b :: a in nodes && b in nodes && nodes[a] == nodes[b] ==> a == b
  }

  /** No process has two live nodes at any time. */
  ghost predicate SingleNodes(events: seq<NodeEvent>) {
    forall n :: 0 <= n <= |events| ==> OneNodeEach(Nodes(events[..n]))
  }

  /**
   * A managed pid always has a live node; a pid with a live node is managed as long as no
   * process ever has two.
   */
  lemma {:induction false} ManagedHaveNodes(events: seq<NodeEvent>, processOf: nat -> Pid, pid: Pid)
    requires FixedProcesses(events, processOf)
    ensures pid in Managed({}, Emitted(events)) ==> HasNode(Nodes(events), pid)
    ensures SingleNodes(events) && HasNode(Nodes(events), pid) ==> pid in Managed({}, Emitted(events))
  {
    if events != [] {
      var init, last := events[..|events| - 1], events[|events| - 1];
      var nodes := Nodes(init);
      ManagedHaveNodes(init, processOf, pid);
      NodesAreFixed(init, processOf);
      if SingleNodes(events) {
        SingleNodesBefore(events);
      }
      match last
      case Info(node, process) =>
        if process.Some? {
          var after := nodes[node := process.value];
          assert node in nodes ==> after == nodes;
          if node !in nodes {
            ManagedMore({}, Emitted(init), Add(process.value));
            assert after[node] == process.value;
            assert forall n :: n in nodes ==> after[n] == nodes[n];
          }
        }
      case Removed(node) =>
        if node in nodes {
          RemovedNode(events, node, pid);
        } else {
          assert nodes - {node} == nodes;
        }
    }
  }

  lemma SingleNodesBefore(events: seq<NodeEvent>)
    requires events != [] && SingleNodes(events)
    ensures SingleNodes(events[..|events| - 1])
    ensures OneNodeEach(Nodes(events[..|events| - 1]))
  {
    var init := events[..|events| - 1];
    assert forall n :: 0 <= n <= |init| ==> init[..n] == events[..n];
  }

  lemma RemovedNode(events: seq<NodeEvent>, node: nat, pid: Pid)
    requires events != [] && events[|events| - 1] == Removed(node) && node in Nodes(events[..|events| - 1])
    requires var init := events[..|events| - 1];
             && (pid in Managed({}, Emitted(init)) ==> HasNode(Nodes(init), pid))
             && (SingleNodes(events) && HasNode(Nodes(init), pid) ==> pid in Managed({}, Emitted(init)))
    ensures pid in Managed({}, Emitted(events)) ==> HasNode(Nodes(events), pid)
    ensures SingleNodes(events) && HasNode(Nodes(events), pid) ==> pid in Managed({}, Emitted(events))
  {
    var init := events[..|events| - 1];
    var nodes := Nodes(init);
    ManagedMore({}, Emitted(init), Remove(nodes[node]));
    if HasNode(nodes, pid) {
      var n :| n in nodes && nodes[n] == pid;
      assert pid != nodes[node] ==> n in nodes - {node};
    }
    if HasNode(nodes - {node}, pid) {
      var n :| n in nodes - {node} && (nodes - {node})[n] == pid;
      assert n in nodes && nodes[n] == pid;
      if SingleNodes(events) {
        SingleNodesBefore(events);
      }
    }
  }

  /** The event makes a node of the process known that was not known before. */
  ghost predicate Arrives(events: seq<NodeEvent>, i: nat, pid: Pid)
    requires i < |events|
  {
    events[i].Info? && events[i].process == Some(pid) && events[i].node !in Nodes(events[..i])
  }

  /** The event removes a node that was known to belong to the process. */
  ghost predicate Departs(events: seq<NodeEvent>, i: nat, pid: Pid)
    requires i < |events|
  {
    events[i].Removed? && events[i].node in Nodes(events[..i]) && Nodes(events[..i])[events[i].node] == pid
  }

  /** Of the arrivals and departures of the process's nodes, the newest is an arrival. */
  ghost predicate ArrivedLast(events: seq<NodeEvent>, pid: Pid) {
    exists i :: 0 <= i < |events| && Arrives(events, i, pid) && forall j :: i < j < |events| ==> !Departs(events, j, pid)
  }

  lemma ArrivalsBefore(events: seq<NodeEvent>, n: nat, pid: Pid)
    requires n <= |events|
    ensures forall i :: 0 <= i < n ==> (Arrives(events[..n], i, pid) <==> Arrives(events, i, pid))
    ensures forall i :: 0 <= i < n ==> (Departs(events[..n], i, pid) <==> Departs(events, i, pid))
  {
    hide Nodes;
    assert forall i :: 0 <= i < n ==> events[..n][..i] == events[..i] && events[..n][i] == events[i];
  }

  lemma ArrivedLastMore(events: seq<NodeEvent>, pid: Pid)
    requires events != []
    ensures var n := |events| - 1;
            ArrivedLast(events, pid) <==> Arrives(events, n, pid) || (ArrivedLast(events[..n], pid) && !Departs(events, n, pid))
  {
    hide Arrives, Departs;
    var n := |events| - 1;
    var init := events[..n];
    ArrivalsBefore(events, n, pid);
    if ArrivedLast(events, pid) {
      var i :| 0 <= i < |events| && Arrives(events, i, pid) && forall j :: i < j < |events| ==> !Departs(events, j, pid);
      assert i < n ==> Arrives(init, i, pid);
    }
    if ArrivedLast(init, pid) && !Departs(events, n, pid) {
      var i :| 0 <= i < n && Arrives(init, i, pid) && forall j :: i < j < n ==> !Departs(init, j, pid);
      assert Arrives(events, i, pid);
    }
  }

  ghost predicate EverDeparts(events: seq<NodeEvent>, pid: Pid) {
    exists j :: 0 <= j < |events| && Departs(events, j, pid)
  }

  lemma EverDepartsMore(events: seq<NodeEvent>, pid: Pid)
    requires events != []
    ensures var n := |events| - 1;
            EverDeparts(events, pid) <==> EverDeparts(events[..n], pid) || Departs(events, n, pid)
  {
    hide Departs;
    var n := |events| - 1;
    ArrivalsBefore(events, n, pid);
    if EverDeparts(events[..n], pid) {
      var j :| 0 <= j < n && Departs(events[..n], j, pid);
      assert Departs(events, j, pid);
    }
    if EverDeparts(events, pid) {
      var j :| 0 <= j < |events| && Departs(events, j, pid);
      assert j < n ==> Departs(events[..n], j, pid);
    }
  }

  /** One child, on top of what is managed already. */
  lemma {:induction false} SessionManagesExactly(managed: set<Pid>, events: seq<NodeEvent>, pid: Pid)
    ensures pid in Managed(managed, Emitted(events)) <==>
              ArrivedLast(events, pid) || (pid in managed && !EverDeparts(events, pid))
  {
    if events != [] {
      var n := |events| - 1;
      var init := events[..n];
      SessionManagesExactly(managed, init, pid);
      ArrivedLastMore(events, pid);
      EverDepartsMore(events, pid);
      hide ArrivedLast, EverDeparts;
      match events[n]
      case Info(node, process) =>
        if process.Some? && node !in Nodes(init) {
          ManagedMore(managed, Emitted(init), Add(process.value));
        }
      case Removed(node) =>
        if node in Nodes(init) {
          ManagedMore(managed, Emitted(init), Remove(Nodes(init)[node]));
        }
    }
  }

  /**
   * Whatever nodes report, and whatever processes they change to: a pid is managed exactly when
   * no node of it has departed since one last arrived.
   */
  lemma ManagedExactly(events: seq<NodeEvent>, pid: Pid)
    ensures pid in Managed({}, Emitted(events)) <==> ArrivedLast(events, pid)
  {
    SessionManagesExactly({}, events, pid);
  }

  // ---------------------------------------------------------------------------------------
  // Children that are started one after the other
  // ---------------------------------------------------------------------------------------

  /** The events of several children. Each starts with no node known, and takes nothing back when it ends. */
  ghost function EmittedAll(sessions: seq<seq<NodeEvent>>): seq<ProcessEvent> {
    if sessions == [] then [] else EmittedAll(sessions[..|sessions| - 1]) + Emitted(sessions[|sessions| - 1])
  }

  /** The pid arrived last under this child, and departs under no later one. */
  ghost predicate ArrivedUnder(sessions: seq<seq<NodeEvent>>, k: nat, pid: Pid)
    requires k < |sessions|
  {
    ArrivedLast(sessions[k], pid) && forall l :: k < l < |sessions| ==> !EverDeparts(sessions[l], pid)
  }

  ghost predicate ArrivedUnderSome(sessions: seq<seq<NodeEvent>>, pid: Pid) {
    exists k :: 0 <= k < |sessions| && ArrivedUnder(sessions, k, pid)
  }

  lemma ArrivedUnderMore(sessions: seq<seq<NodeEvent>>, pid: Pid)
    requires sessions != []
    ensures var init, last := sessions[..|sessions| - 1], sessions[|sessions| - 1];
            ArrivedUnderSome(sessions, pid) <==> ArrivedLast(last, pid) || (ArrivedUnderSome(init, pid) && !EverDeparts(last, pid))
  {
    hide ArrivedLast, EverDeparts;
    var n := |sessions| - 1;
    var init := sessions[..n];
    if ArrivedUnderSome(sessions, pid) {
      var k :| 0 <= k < |sessions| && ArrivedUnder(sessions, k, pid);
      assert forall l :: 0 <= l < n ==> init[l] == sessions[l];
      assert k < n ==> ArrivedUnder(init, k, pid);
    }
    if ArrivedUnderSome(init, pid) && !EverDeparts(sessions[n], pid) {
      var k :| 0 <= k < n && ArrivedUnder(init, k, pid);
      assert forall l :: 0 <= l < n ==> init[l] == sessions[l];
      assert ArrivedUnder(sessions, k, pid);
    }
    if ArrivedLast(sessions[n], pid) {
      assert ArrivedUnder(sessions, n, pid);
    }
  }

  /**
   * Across any number of children: a pid is managed exactly when it arrived under some child, and no
   * node of it has departed since, under that child or a later one. A departure counts only if
   * the child has seen the node arrive.
   */
  lemma {:induction false} SessionsManageExactly(sessions: seq<seq<NodeEvent>>, pid: Pid)
    ensures pid in Managed({}, EmittedAll(sessions)) <==> ArrivedUnderSome(sessions, pid)
  {
    if sessions != [] {
      var init, last := sessions[..|sessions| - 1], sessions[|sessions| - 1];
      SessionsManageExactly(init, pid);
      ManagedConcat({}, EmittedAll(init), Emitted(last));
      SessionManagesExactly(Managed({}, EmittedAll(init)), last, pid);
      ArrivedUnderMore(sessions, pid);
      hide ArrivedLast, EverDeparts, ArrivedUnderSome;
    }
  }

  /** A process that goes while no child is running stays managed: the next child has never seen its node. */
  lemma RestartLeavesStalePid(pid: Pid, later: seq<NodeEvent>)
    requires forall i :: 0 <= i < |later| && later[i].Info? ==> later[i].process != Some(pid)
    ensures var sessions := [[Info(0, Some(pid))], later];
            pid in Managed({}, EmittedAll(sessions)) && !HasNode(Nodes(later), pid)
  {
    var first := [Info(0, Some(pid))];
    NeverReported(later, pid);
    assert first[..0] == [];
    assert Arrives(first, 0, pid);
    assert ArrivedUnder([first, later], 0, pid);
    hide ArrivedLast, EverDeparts;
    SessionsManageExactly([first, later], pid);
  }

  lemma {:induction false} NeverReported(events: seq<NodeEvent>, pid: Pid)
    requires forall i :: 0 <= i < |events| && events[i].Info? ==> events[i].process != Some(pid)
    ensures !HasNode(Nodes(events), pid) && !EverDeparts(events, pid)
  {
    if events != [] {
      NeverReported(events[..|events| - 1], pid);
      EverDepartsMore(events, pid);
      hide EverDeparts;
    }
  }

  /** With two nodes, the removal of one makes the monitor forget a process that has the other. */
  lemma TwoNodesAreForgotten(pid: Pid)
    ensures var events := [Info(0, Some(pid)), Info(1, Some(pid)), Removed(0)];
            FixedProcesses(events, (node: nat) => pid) && HasNode(Nodes(events), pid) && pid !in Managed({}, Emitted(events))
  {
    var one := [Info(0, Some(pid))];
    var two := [Info(0, Some(pid)), Info(1, Some(pid))];
    var events := [Info(0, Some(pid)), Info(1, Some(pid)), Removed(0)];
    assert one[..0] == [] && two[..1] == one && events[..2] == two;
    assert Nodes(one) == map[0 := pid];
    assert Nodes(two) == map[0 := pid, 1 := pid];
    ManagedMore({}, Emitted(two), Remove(pid));
    assert Nodes(events)[1] == pid;
  }

  /** A node that changes its process silently leaves the old one managed with no node. */
  lemma ChangedProcessStaysManaged(p: Pid, q: Pid)
    requires p != q
    ensures var events := [Info(0, Some(p)), Info(0, Some(q))];
            p in Managed({}, Emitted(events)) && !HasNode(Nodes(events), p)
  {
    var events := [Info(0, Some(p)), Info(0, Some(q))];
    var one := [Info(0, Some(p))];
    assert events[..1] == one && one[..0] == [];
    assert Nodes(one) == map[0 := p];
    assert Emitted(one) == [Add(p)] && [Add(p)][..0] == [];
    assert Nodes(events) == map[0 := q];
  }
}
