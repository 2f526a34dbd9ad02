/** The daemon's receive loop over process events. */
module Daemon {
  import opened ProcessTable
  import opened Engine
  import opened EngineInvariants
  import opened Completion
  import opened WholeRuns
  import opened Agreement
  import Service

  method Dispatch(service: Service.Service, input: Input)
    requires service.Valid() && Halts(service.View(), input)
    modifies service, service.owner, service.processMap
    ensures service.Valid()
    ensures service.View() == Step(old(service.View()), input)
  {
    hide WellFormed, NewHalts, ChildrenHalt, RefreshHalts, SetForegroundHalts, SetPipewireHalts, ValidEnv, AssignNew,
         AssignChildren, GarbageClean, ProcessMapRefresh, SetForeground, SetPipewire, RemovePipewire;
    var env := input.env;
    match input.event
    case ExecCreate(pid, parentPid, name, cmdline) =>
      service.AssignNewProcess(env, pid, parentPid, name, cmdline);
      service.AssignChildren(env, pid);
      service.GarbageClean(env);
    case RefreshProcessMap =>
      service.ProcessMapRefresh(env);
    case SetForegroundProcess(pid) =>
      service.SetForegroundProcess(env, pid);
      service.GarbageClean(env);
    case PipewireAdd(pid) =>
      service.SetPipewireProcess(env, pid);
      service.GarbageClean(env);
    case PipewireRemove(pid) =>
      service.RemovePipewireProcess(env, pid);
    case ReloadConfiguration(config) =>
      ReloadKeepsWellFormed(service.View(), config);
      service.ReloadConfiguration(config);
  }

  /**
   * Handles every event in turn, each of which halts where it arrives. The service ends in the
   * state the state machine predicts, so what is proved of its runs holds of the service.
   */
  method Run(service: Service.Service, inputs: seq<Input>)
    requires service.Valid() && HaltingRun(service.View(), inputs)
    modifies service, service.owner, service.processMap
    ensures service.Valid()
    ensures service.View() == Engine.Run(old(service.View()), inputs)
  {
    hide Halts, Step, WellFormed;
    ghost var s := service.View();
    for i := 0 to |inputs|
      invariant service.Valid() && service.View() == Engine.Run(s, inputs[..i])
    {
      assert inputs[..i + 1][..i] == inputs[..i];
      Dispatch(service, inputs[i]);
    }
    assert inputs[..|inputs|] == inputs;
  }

  /**
   * A freshly started service stays well-formed through every run that halts, and if the run
   * is orderly, too, every process has the profile that its state calls for.
   */
  method RunFromStart(config: Scheduler.SchedulerConfig, inputs: seq<Input>) returns (service: Service.Service)
    requires HaltingRun(Initial(config), inputs)
    ensures service.View() == Engine.Run(Initial(config), inputs)
    ensures service.Valid() && WellFormed(service.View())
    ensures OrderlyRun(Initial(config), inputs) ==> Agrees(service.View())
  {
    hide OrderlyRun, HaltingRun, Engine.Run, Agrees, Sound, Linked, PipewireSound, Covered;
    service := new Service.Service(config);
    Run(service, inputs);
    InitialAgrees(config);
    if OrderlyRun(Initial(config), inputs) {
      OrderlyRunAgrees(Initial(config), inputs);
    }
  }
}
