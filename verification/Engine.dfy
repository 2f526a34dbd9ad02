/**
 * The scheduling service as a state machine: what each event does to the process table, to the
 * lists of foreground and pipewire processes, and to the profiles applied by the kernel.
 */
module Engine {
  import opened Basics
  import opened Scheduler
  import opened ProcessTable
  import opened TableOperations
  import opened Classification
  import opened Worklist

  /**
   * The world while one event is handled: the order in which a hash table is iterated, the
   * listing of `/proc` if it is readable, and what is read of each process.
   */
  datatype Env = Env(
    order: set<Ref> -> seq<Ref>,
    listing: Option<seq<Pid>>,
    cmdline: Pid -> Option<string>,
    cgroup: Pid -> Option<string>,
    parentId: Pid -> Option<Pid>,
    alive: Pid -> bool,
    children: Children)

  ghost predicate ValidEnv(env: Env) {
    && (forall refs :: Enumerates(env.order(refs), refs))
    && (env.listing.Some? ==> NoDuplicates(env.listing.value))
  }

  /** `applied` records the last profile given to the kernel for each pid. */
  datatype State = State(
    config: SchedulerConfig,
    foreground: Option<Pid>,
    foregroundProcesses: seq<Pid>,
    pipewireProcesses: seq<Pid>,
    gcCounter: nat,
    table: Table,
    applied: map<Pid, Profile>)

  const GC_INTERVAL := 2048

  function Initial(config: SchedulerConfig): State {
    State(config, None, [], [], 0, EMPTY, map[])
  }

  /** The text after the last slash. */
  function BaseName(cmdline: string): string {
    if cmdline == "" || cmdline[|cmdline| - 1] == '/' then ""
    else BaseName(cmdline[..|cmdline| - 1]) + [cmdline[|cmdline| - 1]]
  }

  // ---------------------------------------------------------------------------------------
  // Choosing a profile
  // ---------------------------------------------------------------------------------------

  predicate PipewireAssigned(s: State, p: Process) {
    p.pipewireAncestor.Some? || p.id in s.pipewireProcesses
  }

  /** The profile that applying a process's priority gives to the kernel, if any. */
  function Pick(s: State, p: Process): Option<Profile> {
    match p.assignedPriority
    case Assignable =>
      if s.config.pipewire.Some? && PipewireAssigned(s, p) then s.config.pipewire
      else if s.config.foreground.Some? && s.foreground.Some? then
        if p.id == s.foreground.value || p.id in s.foregroundProcesses
        then Some(s.config.foreground.value.foreground)
        else Some(s.config.foreground.value.background)
      else Some(NewProfile("default"))
    case Config(profile) => Some(profile)
    case Exception => None
    case NotAssignable => None
  }

  /** The priority of the process that the pid index finds. */
  function Assignment(t: Table, pid: Pid): Priority {
    if pid in t.byPid && t.byPid[pid] in t.cells then t.cells[t.byPid[pid]].assignedPriority else NotAssignable
  }

  function Decided(c: SchedulerConfig, t: Table, p: Process): Process {
    if p.assignedPriority == NotAssignable then p.(assignedPriority := Classify(c, t, p)) else p
  }

  function AssignPriority(s: State, r: Ref): State
    requires r in s.table.cells
  {
    s.(table := SetCell(s.table, r, Decided(s.config, s.table, s.table.cells[r])))
  }

  function ApplyPriority(s: State, r: Ref): State
    requires r in s.table.cells
  {
    var p := s.table.cells[r];
    match Pick(s, p)
    case Some(profile) => s.(applied := s.applied[p.id := profile])
    case None => s
  }

  // ---------------------------------------------------------------------------------------
  // New processes
  // ---------------------------------------------------------------------------------------

  /** The first pipewire pid that a record carries as its own pid or its parent's. */
  function FirstNamed(p: Process, pids: seq<Pid>): Option<Pid> {
    if pids == [] then None
    else if p.id == pids[0] || p.parentId == pids[0] then Some(pids[0])
    else FirstNamed(p, pids[1..])
  }

  function PipewireAncestor(t: Table, walk: seq<Ref>, pids: seq<Pid>): Option<Pid> {
    if walk == [] then None
    else if walk[0] in t.cells && FirstNamed(t.cells[walk[0]], pids).Some? then FirstNamed(t.cells[walk[0]], pids)
    else PipewireAncestor(t, walk[1..], pids)
  }

  /** The record of a process that was just created. */
  function CreatedProcess(t: Table, env: Env, pid: Pid, parentPid: Pid, name: string, cmdline: string): Process {
    NewProcess(pid, parentPid, name,
               if env.alive(pid) then env.cgroup(pid).GetOr("") else "",
               if env.alive(pid) && cmdline == "" then env.cmdline(pid).GetOr("") else cmdline,
               if parentPid in t.byPid then Some(t.byPid[parentPid]) else None)
  }

  function WithPipewireAncestor(p: Process, ancestor: Option<Pid>): Process {
    if ancestor.Some? then p.(pipewireAncestor := ancestor) else p
  }

  /** The table after recording a new process, before its priority is decided. */
  function Recorded(t: Table, p: Process, pipewire: seq<Pid>): Table {
    var u := Insert(t, p);
    var r := InsertRef(t, p);
    if r !in u.cells then u
    else
      var ancestor := PipewireAncestor(u, Ancestors(u, u.cells[r]), pipewire);
      SetCell(u, r, WithPipewireAncestor(u.cells[r], ancestor))
  }

  function AssignNew(s: State, env: Env, pid: Pid, parentPid: Pid, name: string, cmdline: string): State {
    var p := CreatedProcess(s.table, env, pid, parentPid, name, cmdline);
    var r := InsertRef(s.table, p);
    var s1 := s.(table := Recorded(s.table, p, s.pipewireProcesses));
    if r in s1.table.cells then ApplyPriority(AssignPriority(s1, r), r) else s1
  }

  /** A process found by the scan is recorded if it is unknown and still readable. */
  function AssignTask(s: State, env: Env, pid: Pid): State {
    if pid in s.table.byPid || env.parentId(pid).None? || env.cmdline(pid).None? then s
    else
      var cmdline := env.cmdline(pid).value;
      AssignNew(s, env, pid, env.parentId(pid).value, BaseName(cmdline), cmdline)
  }

  function AssignTasks(s: State, env: Env, tasks: seq<Pid>): State {
    if tasks == [] then s
    else AssignTask(AssignTasks(s, env, tasks[..|tasks| - 1]), env, tasks[|tasks| - 1])
  }

  function AssignChildren(s: State, env: Env, pid: Pid): State {
    AssignTasks(s, env, Tasks(env.children, pid))
  }

  // ---------------------------------------------------------------------------------------
  // Sweeping the table
  // ---------------------------------------------------------------------------------------

  /** The record the refresh reads for a listed process. */
  function ListedProcess(env: Env, pid: Pid, cmdline: string): Process {
    NewProcess(pid, env.parentId(pid).GetOr(0), BaseName(cmdline), env.cgroup(pid).GetOr(""), cmdline, None)
  }

  /** The record the garbage collector reads: only its pids are filled in. */
  function BareProcess(env: Env, pid: Pid): Process {
    NewProcess(pid, env.parentId(pid).GetOr(0), "", "", "", None)
  }

  function RecordOf(env: Env, pid: Pid, bare: bool): Process {
    if bare then BareProcess(env, pid) else ListedProcess(env, pid, env.cmdline(pid).GetOr(""))
  }

  /** The listed processes that are not kernel threads, as one of the two kinds of record. */
  function Listed(env: Env, pids: seq<Pid>, bare: bool): seq<Process> {
    if pids == [] then []
    else
      var init, pid := Listed(env, pids[..|pids| - 1], bare), pids[|pids| - 1];
      if env.cmdline(pid).None? then init else init + [RecordOf(env, pid, bare)]
  }

  function ListedParents(env: Env, pids: seq<Pid>): map<Pid, Pid> {
    if pids == [] then map[]
    else
      var init, pid := ListedParents(env, pids[..|pids| - 1]), pids[|pids| - 1];
      if env.cmdline(pid).None? || env.parentId(pid).None? then init else init[pid := env.parentId(pid).value]
  }

  function GarbageClean(s: State, env: Env): State {
    if s.gcCounter < GC_INTERVAL then s.(gcCounter := s.gcCounter + 1)
    else if env.listing.None? then s.(gcCounter := 0)
    else s.(gcCounter := 0, table := Swept(s.table, Listed(env, env.listing.value, true)))
  }

  // ---------------------------------------------------------------------------------------
  // Loops over the table
  // ---------------------------------------------------------------------------------------

  /** Gives the kernel the profiles of `writes`, in the order in which the cells are visited. */
  function ApplyAll(cells: map<Ref, Process>, order: seq<Ref>, writes: map<Ref, Profile>, applied: map<Pid, Profile>)
    : map<Pid, Profile>
  {
    if order == [] then applied
    else
      var before, r := ApplyAll(cells, order[..|order| - 1], writes, applied), order[|order| - 1];
      if r in writes && r in cells then before[cells[r].id := writes[r]] else before
  }

  /** The pids of the chosen cells, in the order in which the cells are visited. */
  function PidsOf(cells: map<Ref, Process>, order: seq<Ref>, chosen: set<Ref>): seq<Pid> {
    if order == [] then []
    else
      var before, r := PidsOf(cells, order[..|order| - 1], chosen), order[|order| - 1];
      if r in chosen && r in cells then before + [cells[r].id] else before
  }

  /** Decides the priority of every cell of `done` that has none. */
  function DecideSome(c: SchedulerConfig, t: Table, done: set<Ref>): Table {
    t.(cells := map r | r in t.cells :: if r in done then Decided(c, t, t.cells[r]) else t.cells[r])
  }

  function PickWrites(s: State): map<Ref, Profile> {
    map r | r in s.table.cells && Pick(s, s.table.cells[r]).Some? :: Pick(s, s.table.cells[r]).value
  }

  function AssignAndApplyAll(s: State, env: Env): State {
    var values := s.table.byKey.Values;
    var s1 := s.(table := DecideSome(s.config, s.table, values));
    s1.(applied := ApplyAll(s1.table.cells, env.order(values), PickWrites(s1), s.applied))
  }

  /** A cell that the partition counts as foreground. */
  predicate InForeground(t: Table, r: Ref, pid: Pid)
    requires r in t.cells
  {
    && Assignment(t, t.cells[r].id) == Assignable
    && (t.cells[r].id == pid || DescendedFrom(t, t.cells[r], pid))
  }

  function ForegroundCells(t: Table, pid: Pid): set<Ref> {
    set r | r in t.cells && InForeground(t, r, pid)
  }

  function ForegroundWrites(s: State, f: ForegroundAssignments, pid: Pid): map<Ref, Profile> {
    map r | r in s.table.cells && Assignment(s.table, s.table.cells[r].id) == Assignable && !PipewireAssigned(s, s.table.cells[r])
      :: if InForeground(s.table, r, pid) then f.foreground else f.background
  }

  function Partition(s: State, env: Env, f: ForegroundAssignments, pid: Pid): State {
    var order := env.order(s.table.byKey.Values);
    s.(foreground := Some(pid),
       foregroundProcesses := [pid] + PidsOf(s.table.cells, order, ForegroundCells(s.table, pid)),
       applied := ApplyAll(s.table.cells, order, ForegroundWrites(s, f, pid), s.applied))
  }

  function SetForeground(s: State, env: Env, pid: Pid): State {
    var s1 := AssignChildren(s, env, pid);
    if s1.config.foreground.None? then s1 else Partition(s1, env, s1.config.foreground.value, pid)
  }

  function ProcessMapRefresh(s: State, env: Env): State {
    if env.listing.None? then s.(table := Prepare(s.table))
    else
      var pids := env.listing.value;
      var t := Refreshed(s.table, Listed(env, pids, false), ListedParents(env, pids));
      var s1 := AssignAndApplyAll(s.(table := t), env);
      if s1.foreground.None? then s1
      else SetForeground(s1.(foreground := None), env, s1.foreground.value)
  }

  // ---------------------------------------------------------------------------------------
  // Pipewire
  // ---------------------------------------------------------------------------------------

  /** A cell that is held for the sake of the pipewire process above it. */
  predicate HeldBelow(t: Table, r: Ref, pid: Pid)
    requires r in t.cells
  {
    && Assignment(t, t.cells[r].id) == Assignable
    && t.cells[r].id != pid
    && DescendedFrom(t, t.cells[r], pid)
  }

  function HoldSome(t: Table, pid: Pid, done: set<Ref>): Table {
    t.(cells := map r | r in t.cells ::
         if r in done && HeldBelow(t, r, pid) then t.cells[r].(pipewireAncestor := Some(pid)) else t.cells[r])
  }

  function HoldWrites(t: Table, pid: Pid, profile: Profile): map<Ref, Profile> {
    map r | r in t.cells && Assignment(t, t.cells[r].id) == Assignable && (t.cells[r].id == pid || HeldBelow(t, r, pid))
      :: profile
  }

  function Hold(s: State, env: Env, profile: Profile, pid: Pid): State {
    var values := s.table.byKey.Values;
    s.(table := HoldSome(s.table, pid, values),
       applied := ApplyAll(s.table.cells, env.order(values), HoldWrites(s.table, pid, profile), s.applied))
  }

  function SetPipewire(s: State, env: Env, pid: Pid): State {
    var s1 := AssignChildren(s, env, pid);
    if s1.config.pipewire.None? then s1
    else if pid in s1.pipewireProcesses then Hold(s1, env, s1.config.pipewire.value, pid)
    else if pid in s1.table.byPid && Assignment(s1.table, pid) != Assignable then s1
    else Hold(s1.(pipewireProcesses := s1.pipewireProcesses + [pid]), env, s1.config.pipewire.value, pid)
  }

  /** A cell that a removed pipewire process lets go of. */
  predicate LetGo(p: Process, pid: Pid) {
    p.pipewireAncestor == Some(pid) || p.id == pid
  }

  function ReleaseSome(t: Table, pid: Pid, done: set<Ref>): Table {
    t.(cells := map r | r in t.cells ::
         if r in done && LetGo(t.cells[r], pid) then t.cells[r].(pipewireAncestor := None) else t.cells[r])
  }

  function ReleaseWrites(s: State, pid: Pid): map<Ref, Profile> {
    if s.config.foreground.None? then map[]
    else
      map r | r in s.table.cells && LetGo(s.table.cells[r], pid) && Assignment(s.table, s.table.cells[r].id) == Assignable
        :: if s.table.cells[r].id in s.foregroundProcesses
           then s.config.foreground.value.foreground
           else s.config.foreground.value.background
  }

  /** The list without the first occurrence of a pid. */
  function Without(pids: seq<Pid>, pid: Pid): seq<Pid> {
    if pids == [] then []
    else if pids[0] == pid then pids[1..]
    else [pids[0]] + Without(pids[1..], pid)
  }

  function RemovePipewire(s: State, env: Env, pid: Pid): State {
    if pid !in s.pipewireProcesses then s
    else
      var values := s.table.byKey.Values;
      s.(pipewireProcesses := Without(s.pipewireProcesses, pid),
         table := ReleaseSome(s.table, pid, values),
         applied := ApplyAll(s.table.cells, env.order(values), ReleaseWrites(s, pid), s.applied))
  }

  // ---------------------------------------------------------------------------------------
  // Runs
  // ---------------------------------------------------------------------------------------

  datatype Event =
    | ExecCreate(pid: Pid, parentPid: Pid, name: string, cmdline: string)
    | RefreshProcessMap
    | SetForegroundProcess(pid: Pid)
    | PipewireAdd(pid: Pid)
    | PipewireRemove(pid: Pid)
    | ReloadConfiguration(config: SchedulerConfig)

  /** An event together with the world in which it is handled. */
  datatype Input = Input(event: Event, env: Env)

  function Step(s: State, input: Input): State {
    var env := input.env;
    match input.event
    case ExecCreate(pid, parentPid, name, cmdline) =>
      GarbageClean(AssignChildren(AssignNew(s, env, pid, parentPid, name, cmdline), env, pid), env)
    case RefreshProcessMap => ProcessMapRefresh(s, env)
    case SetForegroundProcess(pid) => GarbageClean(SetForeground(s, env, pid), env)
    case PipewireAdd(pid) => GarbageClean(SetPipewire(s, env, pid), env)
    case PipewireRemove(pid) => RemovePipewire(s, env, pid)
    case ReloadConfiguration(config) => s.(config := config)
  }

  function Run(s: State, inputs: seq<Input>): State {
    if inputs == [] then s
    else Step(Run(s, inputs[..|inputs| - 1]), inputs[|inputs| - 1])
  }
}
