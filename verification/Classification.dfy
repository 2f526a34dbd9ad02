/** How a process is assigned a profile by the configuration. */
module Classification {
  import opened Basics
  import opened Scheduler
  import opened ProcessTable

  predicate Matches(c: SchedulerConfig, m: MatchCondition, text: string) {
    match m
    case Is(pattern) => c.wild(pattern, text)
    case IsNot(pattern) => !c.wild(pattern, text)
  }

  // ---------------------------------------------------------------------------------------
  // Conditions
  // ---------------------------------------------------------------------------------------

  predicate ParentMatches(c: SchedulerConfig, t: Table, p: Process, m: MatchCondition) {
    Upgrade(t, p.parent).Some? && Matches(c, m, t.cells[p.parent.value].name)
  }

  predicate AncestorMatches(c: SchedulerConfig, t: Table, p: Process, m: MatchCondition) {
    exists r :: r in Ancestors(t, p) && r in t.cells && Matches(c, m, t.cells[r].name)
  }

  /** All parts of a condition hold for a process. */
  predicate ConditionMet(c: SchedulerConfig, t: Table, p: Process, condition: Condition) {
    && (condition.cgroup.Some? ==> Matches(c, condition.cgroup.value, p.cgroup))
    && (condition.name.Some? ==> Matches(c, condition.name.value, p.name))
    && (condition.parent != [] ==> exists m :: m in condition.parent && ParentMatches(c, t, p, m))
    && (condition.descends.Some? ==> AncestorMatches(c, t, p, condition.descends.value))
  }

  /** Some include rule is met and no exclude rule is, wherever they stand among the rules. */
  predicate Qualifies(c: SchedulerConfig, t: Table, p: Process, rules: seq<Rule>) {
    && (exists i :: 0 <= i < |rules| && rules[i].included && ConditionMet(c, t, p, rules[i].condition))
    && (forall i :: 0 <= i < |rules| && !rules[i].included ==> !ConditionMet(c, t, p, rules[i].condition))
  }

  predicate QualifiesByName(c: SchedulerConfig, t: Table, p: Process, name: string) {
    name in c.assignments.conditions && Qualifies(c, t, p, c.assignments.conditions[name].rules)
  }

  /** The profile of the first name of `order` whose rules let the process in. */
  function FirstQualifying(c: SchedulerConfig, t: Table, p: Process, order: seq<string>): Option<Profile> {
    if order == [] then None
    else if QualifiesByName(c, t, p, order[0]) then Some(c.assignments.conditions[order[0]].profile)
    else FirstQualifying(c, t, p, order[1..])
  }

  // ---------------------------------------------------------------------------------------
  // Exceptions
  // ---------------------------------------------------------------------------------------

  predicate EitherNameMatches(c: SchedulerConfig, p: Process, m: MatchCondition) {
    Matches(c, m, p.name) || Matches(c, m, p.forkedName)
  }

  /** An exception looks at ancestry and parent only: its `cgroup` and `name` are not consulted. */
  predicate ExceptionMet(c: SchedulerConfig, t: Table, p: Process, condition: Condition) {
    && (condition.descends.Some? ==>
          || Matches(c, condition.descends.value, p.forkedName)
          || exists r :: r in Ancestors(t, p) && r in t.cells && EitherNameMatches(c, t.cells[r], condition.descends.value))
    && (condition.parent != [] ==>
          exists m :: m in condition.parent && Upgrade(t, p.parent).Some? && EitherNameMatches(c, t.cells[p.parent.value], m))
  }

  predicate IsException(c: SchedulerConfig, t: Table, p: Process) {
    || p.cmdline in c.assignments.exceptionsByCmdline
    || p.name in c.assignments.exceptionsByName
    || exists condition :: condition in c.assignments.exceptionsConditions && ExceptionMet(c, t, p, condition)
  }

  // ---------------------------------------------------------------------------------------
  // Classification
  // ---------------------------------------------------------------------------------------

  function Classify(c: SchedulerConfig, t: Table, p: Process): Priority {
    if IsException(c, t, p) then Exception
    else if p.cmdline in c.assignments.profileByCmdline then Config(c.assignments.profileByCmdline[p.cmdline])
    else if p.name in c.assignments.profileByName then Config(c.assignments.profileByName[p.name])
    else if p.cgroup == "" then NotAssignable
    else
      match FirstQualifying(c, t, p, c.order)
      case Some(profile) => Config(profile)
      case None => Assignable
  }

  /** Neither an exception nor a fixed assignment decides, and the control group is known. */
  predicate ReachesConditions(c: SchedulerConfig, t: Table, p: Process) {
    && !IsException(c, t, p)
    && p.cmdline !in c.assignments.profileByCmdline
    && p.name !in c.assignments.profileByName
    && p.cgroup != ""
  }

  lemma {:induction false} FirstQualifies(c: SchedulerConfig, t: Table, p: Process, order: seq<string>)
    ensures match FirstQualifying(c, t, p, order)
            case Some(profile) =>
              exists name :: name in order && QualifiesByName(c, t, p, name) && profile == c.assignments.conditions[name].profile
            case None => forall name :: name in order ==> !QualifiesByName(c, t, p, name)
  {
    if order != [] && !QualifiesByName(c, t, p, order[0]) {
      FirstQualifies(c, t, p, order[1..]);
      assert forall name :: name in order <==> name == order[0] || name in order[1..];
    }
  }

  /**
   * Once the conditions decide, a profile is assigned only on the strength of a met include and
   * without a met exclude, and a process stays assignable exactly when no profile qualifies.
   */
  lemma ClassificationIsExact(c: SchedulerConfig, t: Table, p: Process)
    requires ValidConfig(c)
    ensures Classify(c, t, p) == Assignable <==>
              ReachesConditions(c, t, p) && forall name :: !QualifiesByName(c, t, p, name)
    ensures ReachesConditions(c, t, p) && Classify(c, t, p).Config? ==>
              exists name :: QualifiesByName(c, t, p, name) && c.assignments.conditions[name].profile == Classify(c, t, p).profile
    ensures Classify(c, t, p) == NotAssignable ==> p.cgroup == ""
    ensures Classify(c, t, p) == Exception <==> IsException(c, t, p)
    ensures !IsException(c, t, p) && p.cmdline in c.assignments.profileByCmdline ==>
              Classify(c, t, p) == Config(c.assignments.profileByCmdline[p.cmdline])
    ensures !IsException(c, t, p) && p.cmdline !in c.assignments.profileByCmdline && p.name in c.assignments.profileByName ==>
              Classify(c, t, p) == Config(c.assignments.profileByName[p.name])
  {
    FirstQualifies(c, t, p, c.order);
    assert forall name :: QualifiesByName(c, t, p, name) ==> name in c.order;
  }

  /** Only the iteration order of the profile table differs. */
  ghost predicate Reordered(c: SchedulerConfig, d: SchedulerConfig) {
    ValidConfig(c) && ValidConfig(d) && d == c.(order := d.order)
  }

  lemma {:induction false} SameQualifying(c: SchedulerConfig, d: SchedulerConfig, t: Table, p: Process, order: seq<string>)
    requires d == c.(order := d.order)
    ensures FirstQualifying(c, t, p, order) == FirstQualifying(d, t, p, order)
    ensures IsException(c, t, p) == IsException(d, t, p)
    ensures forall name :: QualifiesByName(c, t, p, name) == QualifiesByName(d, t, p, name)
  {
    assert forall m, text :: Matches(c, m, text) == Matches(d, m, text);
    assert forall m :: ParentMatches(c, t, p, m) == ParentMatches(d, t, p, m);
    assert forall m :: AncestorMatches(c, t, p, m) == AncestorMatches(d, t, p, m);
    assert forall k :: ConditionMet(c, t, p, k) == ConditionMet(d, t, p, k);
    assert forall k :: ExceptionMet(c, t, p, k) == ExceptionMet(d, t, p, k);
    assert forall rules :: Qualifies(c, t, p, rules) == Qualifies(d, t, p, rules);
    if order != [] {
      SameQualifying(c, d, t, p, order[1..]);
    }
  }

  /** When the qualifying profiles agree, the order in which the table is iterated is irrelevant. */
  lemma OrderIrrelevant(c: SchedulerConfig, d: SchedulerConfig, t: Table, p: Process)
    requires Reordered(c, d)
    requires forall m, n :: QualifiesByName(c, t, p, m) && QualifiesByName(c, t, p, n) ==>
                              c.assignments.conditions[m].profile == c.assignments.conditions[n].profile
    ensures Classify(c, t, p) == Classify(d, t, p)
  {
    SameQualifying(c, d, t, p, d.order);
    FirstQualifies(c, t, p, c.order);
    FirstQualifies(c, t, p, d.order);
    assert forall name :: name in c.order <==> name in d.order;
  }

  /** Any qualifying profile is the answer under some order, so disagreement makes the order matter. */
  lemma AnyQualifierCanWin(c: SchedulerConfig, t: Table, p: Process, name: string) returns (d: SchedulerConfig)
    requires ValidConfig(c) && ReachesConditions(c, t, p) && QualifiesByName(c, t, p, name)
    ensures Reordered(c, d) && Classify(d, t, p) == Config(c.assignments.conditions[name].profile)
  {
    var order := MovedToFront(c.order, c.assignments.conditions.Keys, name);
    d := c.(order := order);
    SameQualifying(c, d, t, p, order);
  }

  lemma MovedToFront(order: seq<string>, names: set<string>, name: string) returns (moved: seq<string>)
    requires Enumerates(order, names) && name in names
    ensures Enumerates(moved, names) && moved != [] && moved[0] == name
  {
    var i :| 0 <= i < |order| && order[i] == name;
    var rest := order[..i] + order[i + 1..];
    moved := [name] + rest;
    assert order == order[..i] + [name] + order[i + 1..];
    assert forall n :: n in order <==> n == name || n in rest;
    assert NoDuplicates(rest) && name !in rest;
  }

  /** The pattern of the ancestors, if there is one, matches every text; a former name may be empty. */
  ghost predicate Unbound(c: SchedulerConfig, condition: Condition) {
    && condition.parent == []
    && (condition.descends.Some? ==> forall text :: Matches(c, condition.descends.value, text))
  }

  /**
   * Under a given configuration, a conditional exception applies to every process of every table
   * exactly when it names no parent, and no ancestor but by a pattern that matches every text;
   * a control group that it names spares no process.
   */
  lemma ExceptsAllExactly(c: SchedulerConfig, condition: Condition)
    ensures (forall t: Table, p: Process :: ExceptionMet(c, t, p, condition)) <==> Unbound(c, condition)
  {
    if condition.descends.Some? {
      forall text | forall t: Table, p: Process :: ExceptionMet(c, t, p, condition)
        ensures Matches(c, condition.descends.value, text)
      {
        var p := NewProcess(0, 0, "", "", "", None).(forkedName := text);
        assert ExceptionMet(c, EMPTY, p, condition) && Ancestors(EMPTY, p) == [];
      }
    }
    var p := NewProcess(0, 0, "", "", "", None);
    assert Upgrade(EMPTY, p.parent) == None;
    assert ExceptionMet(c, EMPTY, p, condition) ==> condition.parent == [];
  }

  /** Hence such an exception leaves no process to be classified. */
  lemma UnboundExceptionExceptsAll(c: SchedulerConfig, t: Table, p: Process, condition: Condition)
    requires condition in c.assignments.exceptionsConditions && Unbound(c, condition)
    ensures Classify(c, t, p) == Exception
  {
    assert ExceptionMet(c, t, p, condition);
  }

  // ---------------------------------------------------------------------------------------
  // What classification depends on
  // ---------------------------------------------------------------------------------------

  ghost predicate SameNames(t: Table, u: Table) {
    && SameLinks(t, u)
    && (forall r :: r in t.cells ==> t.cells[r].name == u.cells[r].name && t.cells[r].forkedName == u.cells[r].forkedName)
  }

  /** Records that agree in everything classification reads. */
  ghost predicate SameEvidence(t: Table, p: Process, u: Table, q: Process) {
    && Upgrade(t, p.parent) == Upgrade(u, q.parent) && p.parentId == q.parentId
    && p.name == q.name && p.forkedName == q.forkedName && p.cgroup == q.cgroup && p.cmdline == q.cmdline
  }

  lemma SameConditions(c: SchedulerConfig, t: Table, u: Table, p: Process, q: Process)
    requires SameNames(t, u) && SameEvidence(t, p, u, q)
    ensures forall k :: ConditionMet(c, t, p, k) == ConditionMet(c, u, q, k)
    ensures forall k :: ExceptionMet(c, t, p, k) == ExceptionMet(c, u, q, k)
    ensures IsException(c, t, p) == IsException(c, u, q)
  {
    SameDescent(t, u, p, q, 0);
    assert forall r :: r in t.cells <==> r in u.cells;
    assert forall m :: ParentMatches(c, t, p, m) == ParentMatches(c, u, q, m);
    assert forall m :: AncestorMatches(c, t, p, m) == AncestorMatches(c, u, q, m);
    forall k: Condition
      ensures ExceptionMet(c, t, p, k) == ExceptionMet(c, u, q, k)
    {
      assert forall r, m :: r in t.cells ==> EitherNameMatches(c, t.cells[r], m) == EitherNameMatches(c, u.cells[r], m);
    }
  }

  lemma {:induction false} SameFirst(c: SchedulerConfig, t: Table, u: Table, p: Process, q: Process, order: seq<string>)
    requires forall k :: ConditionMet(c, t, p, k) == ConditionMet(c, u, q, k)
    ensures FirstQualifying(c, t, p, order) == FirstQualifying(c, u, q, order)
  {
    if order != [] {
      SameFirst(c, t, u, p, q, order[1..]);
      assert QualifiesByName(c, t, p, order[0]) == QualifiesByName(c, u, q, order[0]);
    }
  }

  lemma SameClass(c: SchedulerConfig, t: Table, u: Table, p: Process, q: Process)
    requires SameNames(t, u) && SameEvidence(t, p, u, q)
    ensures Classify(c, t, p) == Classify(c, u, q)
  {
    SameConditions(c, t, u, p, q);
    SameFirst(c, t, u, p, q, c.order);
  }
}
