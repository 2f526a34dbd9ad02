/** Scheduling profiles and the assignment tables read from the configuration. */
module Scheduler {
  import opened Basics

  datatype IoClass = Idle | BestEffort(level: nat) | Realtime(level: nat)

  datatype SchedPolicy = Batch | Fifo | IdlePolicy | Other | Rr

  datatype Profile = Profile(
    name: string,
    nice: Option<int>,
    io: IoClass,
    schedPolicy: SchedPolicy,
    schedPriority: nat)

  /** The profile every declaration starts from. */
  function NewProfile(name: string): Profile {
    Profile(name, None, BestEffort(7), Other, 1)
  }

  /** A wildcard match, possibly negated. */
  datatype MatchCondition = Is(pattern: string) | IsNot(pattern: string)

  datatype Condition = Condition(
    descends: Option<MatchCondition>,
    cgroup: Option<MatchCondition>,
    name: Option<MatchCondition>,
    parent: seq<MatchCondition>)

  /** One condition of a profile, and whether meeting it includes or excludes a process. */
  datatype Rule = Rule(condition: Condition, included: bool)

  datatype ConditionedProfile = ConditionedProfile(profile: Profile, rules: seq<Rule>)

  datatype Assignments = Assignments(
    conditions: map<string, ConditionedProfile>,
    exceptionsByName: set<string>,
    exceptionsByCmdline: set<string>,
    exceptionsConditions: seq<Condition>,
    profiles: map<string, Profile>,
    profileByName: map<string, Profile>,
    profileByCmdline: map<string, Profile>)

  datatype ForegroundAssignments = ForegroundAssignments(background: Profile, foreground: Profile)

  /**
   * The process-scheduler configuration. `order` is the order in which the hash table of
   * conditioned profiles is iterated; `wild(pattern, text)` is the wildcard matcher.
   */
  datatype SchedulerConfig = SchedulerConfig(
    assignments: Assignments,
    order: seq<string>,
    foreground: Option<ForegroundAssignments>,
    pipewire: Option<Profile>,
    wild: (string, string) -> bool)

  ghost predicate ValidConfig(c: SchedulerConfig) {
    Enumerates(c.order, c.assignments.conditions.Keys)
  }

  /** What the engine has decided about a process. */
  datatype Priority = Assignable | Config(profile: Profile) | Exception | NotAssignable
}
