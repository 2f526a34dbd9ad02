/** When garbage is collected in the course of a run. */
module Collections {
  import opened Basics
  import opened TableOperations
  import opened Scheduler
  import opened Worklist
  import opened Engine
  import opened EngineInvariants

  /** Starting a process, changing the foreground and adding a pipewire process count. */
  ghost predicate Counts(event: Event) {
    event.ExecCreate? || event.SetForegroundProcess? || event.PipewireAdd?
  }

  ghost function CountedEvents(inputs: seq<Input>): nat {
    if inputs == [] then 0
    else CountedEvents(inputs[..|inputs| - 1]) + if Counts(inputs[|inputs| - 1].event) then 1 else 0
  }

  /** The state in which an event leaves the service before anything is collected. */
  ghost function Handled(s: State, input: Input): State {
    var env := input.env;
    match input.event
    case ExecCreate(pid, parentPid, name, cmdline) => AssignChildren(AssignNew(s, env, pid, parentPid, name, cmdline), env, pid)
    case RefreshProcessMap => ProcessMapRefresh(s, env)
    case SetForegroundProcess(pid) => SetForeground(s, env, pid)
    case PipewireAdd(pid) => SetPipewire(s, env, pid)
    case PipewireRemove(pid) => RemovePipewire(s, env, pid)
    case ReloadConfiguration(config) => s.(config := config)
  }

  lemma HandledKeepsCounter(s: State, input: Input)
    requires WellFormed(s)
    ensures Handled(s, input).gcCounter == s.gcCounter
  {
    hide AssignNew, AssignChildren, Hold, Assignment, WellFormed, Refreshed, Listed, ListedParents, DecideSome, ApplyAll, PickWrites;
    var env := input.env;
    match input.event
    case ExecCreate(pid, parentPid, name, cmdline) =>
      AssignNewKeepsWellFormed(s, env, pid, parentPid, name, cmdline);
      AssignNewKeepsLists(s, env, pid, parentPid, name, cmdline);
      AssignChildrenKeepsWellFormed(AssignNew(s, env, pid, parentPid, name, cmdline), env, pid);
    case RefreshProcessMap =>
      if env.listing.Some? {
        var swept := Refreshed(s.table, Listed(env, env.listing.value, false), ListedParents(env, env.listing.value));
        var s1 := AssignAndApplyAll(s.(table := swept), env);
        if s1.foreground.Some? {
          SettingKeepsCounter(s1.(foreground := None), env, s1.foreground.value);
        }
      }
    case SetForegroundProcess(pid) =>
      SettingKeepsCounter(s, env, pid);
    case PipewireAdd(pid) =>
      ChildrenKeepCounter(s, env, pid);
      HoldKeepsCounter(s, env, pid);
    case PipewireRemove(pid) =>
    case ReloadConfiguration(config) =>
  }

  lemma {:induction false} TasksKeepCounter(s: State, env: Env, tasks: seq<Pid>)
    ensures AssignTasks(s, env, tasks).gcCounter == s.gcCounter
  {
    hide Recorded, CreatedProcess, Decided, Pick;
    if tasks != [] {
      TasksKeepCounter(s, env, tasks[..|tasks| - 1]);
    }
  }

  lemma ChildrenKeepCounter(s: State, env: Env, pid: Pid)
    ensures AssignChildren(s, env, pid).gcCounter == s.gcCounter
  {
    TasksKeepCounter(s, env, Tasks(env.children, pid));
    hide AssignTasks, Tasks;
  }

  lemma SettingKeepsCounter(s: State, env: Env, pid: Pid)
    ensures SetForeground(s, env, pid).gcCounter == s.gcCounter
  {
    hide AssignChildren, ApplyAll, PidsOf, ForegroundCells, ForegroundWrites;
    ChildrenKeepCounter(s, env, pid);
  }

  lemma HoldKeepsCounter(s: State, env: Env, pid: Pid)
    requires AssignChildren(s, env, pid).gcCounter == s.gcCounter
    ensures SetPipewire(s, env, pid).gcCounter == s.gcCounter
  {
    hide AssignChildren, HoldSome, HoldWrites, Assignment, ApplyAll;
  }

  /**
   * From start-up: of the events that count, 2048 are only counted, and at the next one the table is
   * swept, if the listing can be read, and counting starts again. All other events leave the
   * counter alone, and apart from the counter and the sweep nothing happens to what the event did.
   */
  lemma CollectsInTurn(c: SchedulerConfig, inputs: seq<Input>, input: Input)
    requires ValidEnv(input.env) && forall i :: 0 <= i < |inputs| ==> ValidEnv(inputs[i].env)
    ensures var s, n := Run(Initial(c), inputs), CountedEvents(inputs);
            var h, u, listing := Handled(s, input), Step(s, input), input.env.listing;
            && s.gcCounter == n % 2049
            && u == h.(gcCounter := CountedEvents(inputs + [input]) % 2049, table := u.table)
            && u.table == if Counts(input.event) && n % 2049 == 2048 && listing.Some?
                          then Swept(h.table, Listed(input.env, listing.value, true))
                          else h.table
  {
    hide Handled, Swept, Listed, WellFormed, Run, Step, Initial, Counts, CountedEvents;
    CounterIs(c, inputs);
    RunKeepsWellFormed(c, inputs);
    var s := Run(Initial(c), inputs);
    HandledKeepsCounter(s, input);
    CountedMore(inputs, input);
    NextCount(CountedEvents(inputs));
    StepCollects(s, input);
  }

  lemma CountedMore(inputs: seq<Input>, input: Input)
    ensures CountedEvents(inputs + [input]) == CountedEvents(inputs) + if Counts(input.event) then 1 else 0
  {
    assert (inputs + [input])[..|inputs|] == inputs;
  }

  lemma NextCount(n: nat)
    ensures 0 <= n % 2049 <= 2048
    ensures (n + 1) % 2049 == if n % 2049 == 2048 then 0 else n % 2049 + 1
  {
  }

  lemma StepCollects(s: State, input: Input)
    requires Handled(s, input).gcCounter == s.gcCounter <= 2048
    ensures var h, u, listing := Handled(s, input), Step(s, input), input.env.listing;
            && u == h.(gcCounter := u.gcCounter, table := u.table)
            && u.gcCounter == (if !Counts(input.event) then s.gcCounter else if s.gcCounter == 2048 then 0 else s.gcCounter + 1)
            && u.table == if Counts(input.event) && s.gcCounter == 2048 && listing.Some?
                          then Swept(h.table, Listed(input.env, listing.value, true)) else h.table
  {
    hide AssignNew, AssignChildren, ProcessMapRefresh, SetForeground, SetPipewire, RemovePipewire, Swept, Listed;
  }

  lemma CounterAfter(s: State, input: Input, n: nat)
    requires WellFormed(s) && s.gcCounter == n % 2049
    ensures Step(s, input).gcCounter == (if Counts(input.event) then n + 1 else n) % 2049
  {
    hide Handled, Step, Swept, Listed, WellFormed, Counts;
    NextCount(n);
    HandledKeepsCounter(s, input);
    StepCollects(s, input);
  }

  lemma {:induction false} CounterIs(c: SchedulerConfig, inputs: seq<Input>)
    requires forall i :: 0 <= i < |inputs| ==> ValidEnv(inputs[i].env)
    ensures Run(Initial(c), inputs).gcCounter == CountedEvents(inputs) % 2049
  {
    if inputs != [] {
      hide Step, WellFormed, ValidEnv, Counts;
      var init := inputs[..|inputs| - 1];
      CounterIs(c, init);
      RunKeepsWellFormed(c, init);
      var last, n := inputs[|inputs| - 1], CountedEvents(init);
      assert CountedEvents(inputs) == if Counts(last.event) then n + 1 else n;
      assert Run(Initial(c), inputs) == Step(Run(Initial(c), init), last);
      hide Run, Initial, CountedEvents;
      CounterAfter(Run(Initial(c), init), last, n);
    }
  }
}
