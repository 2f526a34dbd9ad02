/** The service's pipewire list follows the monitor through the event channel. */
module PipewireDelivery {
  import opened Scheduler
  import opened Engine
  import opened EngineInvariants
  import Wire = PipewireWire
  import Pipeline = PipewirePipeline

  /** The pipewire events among the inputs of a run, in the order in which they are handled. */
  ghost function Trace(inputs: seq<Input>): seq<Wire.ProcessEvent> {
    if inputs == [] then []
    else
      Trace(inputs[..|inputs| - 1]) +
      match inputs[|inputs| - 1].event
      case PipewireAdd(pid) => [Wire.Add(pid)]
      case PipewireRemove(pid) => [Wire.Remove(pid)]
      case _ => []
  }

  /** Every process on the service's list was added and not removed by the events handled so far. */
  lemma {:induction false} ListWithinTrace(config: SchedulerConfig, inputs: seq<Input>)
    requires forall i :: 0 <= i < |inputs| ==> ValidEnv(inputs[i].env)
    ensures forall p :: p in Run(Initial(config), inputs).pipewireProcesses ==> p in Pipeline.Managed({}, Trace(inputs))
  {
    if inputs != [] {
      var init, last := inputs[..|inputs| - 1], inputs[|inputs| - 1];
      ListWithinTrace(config, init);
      RunKeepsWellFormed(config, init);
      StepOnList(Run(Initial(config), init), last);
      if last.event.PipewireAdd? {
        Pipeline.ManagedMore({}, Trace(init), Wire.Add(last.event.pid));
      } else if last.event.PipewireRemove? {
        Pipeline.ManagedMore({}, Trace(init), Wire.Remove(last.event.pid));
      } else {
        assert Trace(inputs) == Trace(init) + [] == Trace(init);
      }
      hide Step, WellFormed, Pipeline.Managed;
    }
  }

  /** What has been forwarded up to some point is what some part of the stream has caused. */
  lemma {:induction false} ForwardedPrefix(events: seq<Wire.ProcessEvent>, handled: seq<Wire.ProcessEvent>) returns (n: nat)
    requires handled <= Pipeline.Forwarded({}, events)
    ensures n <= |events| && handled == Pipeline.Forwarded({}, events[..n])
  {
    if events == [] || handled == Pipeline.Forwarded({}, events) {
      n := |events|;
      assert events[..n] == events;
    } else {
      var init, last := events[..|events| - 1], events[|events| - 1];
      assert events == init + [last];
      Pipeline.ManagedMore({}, init, last);
      n := ForwardedPrefix(init, handled);
      assert init[..n] == events[..n];
    }
  }

  /**
   * Through the channel, whatever interleaves with the pipewire events: if the service has
   * handled a prefix of what the monitor forwarded, its list holds only pids the monitor
   * managed at the point in its stream that caused that prefix.
   */
  lemma ListFollowsMonitor(config: SchedulerConfig, inputs: seq<Input>, events: seq<Wire.ProcessEvent>) returns (n: nat)
    requires forall i :: 0 <= i < |inputs| ==> ValidEnv(inputs[i].env)
    requires Trace(inputs) <= Pipeline.Forwarded({}, events)
    ensures n <= |events| && Trace(inputs) == Pipeline.Forwarded({}, events[..n])
    ensures forall p :: p in Run(Initial(config), inputs).pipewireProcesses ==> p in Pipeline.Managed({}, events[..n])
  {
    n := ForwardedPrefix(events, Trace(inputs));
    ListWithinTrace(config, inputs);
    Pipeline.ForwardedSuffices(events[..n]);
  }

  /** Any part of what node events give rise to is what some part of them gives rise to. */
  lemma {:induction false} EmittedPrefix(events: seq<Pipeline.NodeEvent>, m: nat) returns (n: nat)
    requires m <= |Pipeline.Emitted(events)|
    ensures n <= |events| && Pipeline.Emitted(events[..n]) == Pipeline.Emitted(events)[..m]
  {
    if m == |Pipeline.Emitted(events)| {
      n := |events|;
      assert events[..n] == events;
    } else {
      var init := events[..|events| - 1];
      n := EmittedPrefix(init, m);
      assert init[..n] == events[..n];
    }
  }

  /** The children up to some point: the last of them may have got only part of its way. */
  ghost predicate UpTo(part: seq<seq<Pipeline.NodeEvent>>, sessions: seq<seq<Pipeline.NodeEvent>>) {
    && |part| <= |sessions|
    && (forall i :: 0 <= i < |part| - 1 ==> part[i] == sessions[i])
    && (part != [] ==> part[|part| - 1] <= sessions[|part| - 1])
  }

  lemma EmittedAllMore(sessions: seq<seq<Pipeline.NodeEvent>>, last: seq<Pipeline.NodeEvent>)
    ensures Pipeline.EmittedAll(sessions + [last]) == Pipeline.EmittedAll(sessions) + Pipeline.Emitted(last)
  {
    assert (sessions + [last])[..|sessions|] == sessions;
  }

  /** A point within the last child. */
  lemma LastPrefix(init: seq<seq<Pipeline.NodeEvent>>, last: seq<Pipeline.NodeEvent>, m: nat) returns (n: nat)
    requires m <= |Pipeline.Emitted(last)|
    ensures n <= |last|
    ensures Pipeline.EmittedAll(init + [last[..n]]) == Pipeline.EmittedAll(init) + Pipeline.Emitted(last)[..m]
  {
    n := EmittedPrefix(last, m);
    EmittedAllMore(init, last[..n]);
  }

  lemma {:induction false} EmittedAllPrefix(sessions: seq<seq<Pipeline.NodeEvent>>, m: nat)
    returns (part: seq<seq<Pipeline.NodeEvent>>)
    requires m <= |Pipeline.EmittedAll(sessions)|
    ensures UpTo(part, sessions) && Pipeline.EmittedAll(part) == Pipeline.EmittedAll(sessions)[..m]
  {
    if sessions == [] {
      part := [];
    } else {
      var init, last := sessions[..|sessions| - 1], sessions[|sessions| - 1];
      assert sessions == init + [last];
      EmittedAllMore(init, last);
      var before, more := Pipeline.EmittedAll(init), Pipeline.Emitted(last);
      hide Pipeline.EmittedAll, Pipeline.Emitted;
      if m <= |before| {
        part := EmittedAllPrefix(init, m);
        assert (before + more)[..m] == before[..m];
      } else {
        var n := LastPrefix(init, last, m - |before|);
        part := init + [last[..n]];
        assert (before + more)[..m] == before + more[..m - |before|];
      }
    }
  }

  /** Each child prints what its node events give rise to. */
  ghost predicate PrintsSessions(children: seq<seq<Wire.Byte>>, sessions: seq<seq<Pipeline.NodeEvent>>) {
    && |children| == |sessions|
    && forall k :: 0 <= k < |children| ==> children[k] == Wire.PrintAll(Pipeline.Emitted(sessions[k]))
  }

  lemma {:induction false} ChildrenRoundTrip(children: seq<seq<Wire.Byte>>, sessions: seq<seq<Pipeline.NodeEvent>>)
    requires PrintsSessions(children, sessions)
    ensures Pipeline.ParseChildren(children) == Pipeline.EmittedAll(sessions)
  {
    if children != [] {
      ChildrenRoundTrip(children[..|children| - 1], sessions[..|sessions| - 1]);
      Wire.StreamRoundTrip(Pipeline.Emitted(sessions[|sessions| - 1]));
    }
  }

  /**
   * From the nodes to the service, through any number of children: each tracks nodes and prints its
   * events, the monitor reads them line by line and drops repetitions, and the service has
   * handled some of what was forwarded, among other things. Then there is a point in the node
   * events up to which every process on the service's list has had a node arrive under some
   * child, and none depart since.
   */
  lemma ListedHaveArrived(config: SchedulerConfig, inputs: seq<Input>, children: seq<seq<Wire.Byte>>,
                          sessions: seq<seq<Pipeline.NodeEvent>>) returns (part: seq<seq<Pipeline.NodeEvent>>)
    requires forall i :: 0 <= i < |inputs| ==> ValidEnv(inputs[i].env)
    requires PrintsSessions(children, sessions) && Trace(inputs) <= Pipeline.Forwarded({}, Pipeline.ParseChildren(children))
    ensures UpTo(part, sessions) && Trace(inputs) == Pipeline.Forwarded({}, Pipeline.EmittedAll(part))
    ensures forall p :: p in Run(Initial(config), inputs).pipewireProcesses ==> Pipeline.ArrivedUnderSome(part, p)
  {
    ChildrenRoundTrip(children, sessions);
    var m := ListFollowsMonitor(config, inputs, Pipeline.EmittedAll(sessions));
    part := EmittedAllPrefix(sessions, m);
    hide Run, Pipeline.EmittedAll, Pipeline.Managed, Pipeline.Forwarded, Pipeline.ArrivedUnderSome, Trace;
    forall p | p in Run(Initial(config), inputs).pipewireProcesses
      ensures Pipeline.ArrivedUnderSome(part, p)
    {
      Pipeline.SessionsManageExactly(part, p);
    }
  }
}
