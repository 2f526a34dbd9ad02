/**
 * Which searches among a process's ancestors come to an end: those that succeed, and those whose
 * walk ends. The searches are the ones that are made, in the order in which they are made.
 */
module Searches {
  import opened Basics
  import opened Scheduler
  import opened ProcessTable
  import opened Classification

  // ---------------------------------------------------------------------------------------
  // One search
  // ---------------------------------------------------------------------------------------

  /** Some ancestor's name, or also its former name, matches. */
  ghost predicate Named(c: SchedulerConfig, t: Table, p: Process, m: MatchCondition, former: bool) {
    exists r :: r in Ancestors(t, p) && r in t.cells &&
                (Matches(c, m, t.cells[r].name) || (former && Matches(c, m, t.cells[r].forkedName)))
  }

  ghost predicate NameSearchHalts(c: SchedulerConfig, t: Table, p: Process, m: MatchCondition, former: bool) {
    Named(c, t, p, m, former) || Ends(t, p.parent)
  }

  ghost predicate DescentHalts(t: Table, p: Process, ancestor: Pid) {
    DescendedFrom(t, p, ancestor) || Ends(t, p.parent)
  }

  ghost function AsSeq(node: Option<Ref>): seq<Ref> {
    if node.Some? then [node.value] else []
  }

  /** A search that has passed `k` cells of the walk stands at its next cell, or at its end. */
  ghost predicate StandsAt(t: Table, w: Option<Ref>, k: nat, node: Option<Ref>) {
    |Walk(t, w, k)| == k && Walk(t, w, k + 1) == Walk(t, w, k) + AsSeq(node) && (node.Some? ==> node.value in t.cells)
  }

  lemma SearchStarts(t: Table, w: Option<Ref>)
    ensures StandsAt(t, w, 0, Upgrade(t, w))
  {
    assert Walk(t, w, 0) == [];
    if Upgrade(t, w).Some? {
      assert Walk(t, w, 1) == [w.value] + Walk(t, t.cells[w.value].parent, 0);
    }
  }

  lemma {:induction false} WalkGrows(t: Table, w: Option<Ref>, k: nat)
    requires |Walk(t, w, k + 1)| == k + 1
    ensures Walk(t, w, k + 1)[k] in t.cells
    ensures Walk(t, w, k + 2) == Walk(t, w, k + 1) + AsSeq(Upgrade(t, t.cells[Walk(t, w, k + 1)[k]].parent))
    decreases k
  {
    var next := t.cells[w.value].parent;
    assert Walk(t, w, k + 1) == [w.value] + Walk(t, next, k);
    assert Walk(t, w, k + 2) == [w.value] + Walk(t, next, k + 1);
    if k == 0 {
      SearchStarts(t, next);
    } else {
      WalkGrows(t, next, k - 1);
    }
  }

  /** The next cell is passed: the search goes on from its parent. */
  lemma SearchStep(t: Table, w: Option<Ref>, k: nat, next: Ref)
    requires StandsAt(t, w, k, Some(next))
    ensures Walk(t, w, k + 1) == Walk(t, w, k) + [next]
    ensures StandsAt(t, w, k + 1, Upgrade(t, t.cells[next].parent))
  {
    hide Walk;
    assert Walk(t, w, k + 1)[k] == next;
    WalkGrows(t, w, k);
  }

  /** Within the number of cells, what the search stands at belongs to the walk. */
  lemma SearchFinds(t: Table, w: Option<Ref>, k: nat, next: Ref)
    requires StandsAt(t, w, k, Some(next)) && k < |t.cells|
    ensures var walk := Walk(t, w, |t.cells|);
            next in walk && k < |walk| && walk[k] == next && walk[..k] == Walk(t, w, k)
  {
    hide Walk;
    WalkPrefix(t, w, k + 1, |t.cells|);
    assert Walk(t, w, k + 1)[k] == next && Walk(t, w, k + 1)[..k] == Walk(t, w, k);
  }

  /** If a cell is left after as many as there are, the walk is endless. */
  lemma SearchGoesOn(t: Table, w: Option<Ref>, next: Ref)
    requires StandsAt(t, w, |t.cells|, Some(next))
    ensures !Ends(t, w)
  {
    hide Walk;
  }

  /** When nothing is left to walk, all of the walk has been passed. */
  lemma SearchEnds(t: Table, w: Option<Ref>, k: nat)
    requires StandsAt(t, w, k, None) && k <= |t.cells|
    ensures Walk(t, w, k) == Walk(t, w, |t.cells|)
  {
    hide Walk;
    if k < |t.cells| {
      WalkStable(t, w, k + 1, |t.cells|);
    }
  }

  // ---------------------------------------------------------------------------------------
  // Classification
  // ---------------------------------------------------------------------------------------

  ghost predicate ExceptionHalts(c: SchedulerConfig, t: Table, p: Process, condition: Condition) {
    condition.descends.Some? && !Matches(c, condition.descends.value, p.forkedName) ==>
      NameSearchHalts(c, t, p, condition.descends.value, true)
  }

  /** The conditional exceptions are looked at in turn, up to the first that applies. */
  ghost predicate ExceptionsHalt(c: SchedulerConfig, t: Table, p: Process) {
    var conditions := c.assignments.exceptionsConditions;
    || p.cmdline in c.assignments.exceptionsByCmdline
    || p.name in c.assignments.exceptionsByName
    || forall j :: 0 <= j < |conditions| && (forall i :: 0 <= i < j ==> !ExceptionMet(c, t, p, conditions[i])) ==>
                     ExceptionHalts(c, t, p, conditions[j])
  }

  /** The direct parent's name, or also its former name, matches one of the conditions. */
  ghost predicate ParentIsNamed(c: SchedulerConfig, t: Table, p: Process, ms: seq<MatchCondition>, former: bool) {
    exists m :: m in ms && Upgrade(t, p.parent).Some? &&
                (Matches(c, m, t.cells[p.parent.value].name) || (former && Matches(c, m, t.cells[p.parent.value].forkedName)))
  }

  lemma ExceptionParts(c: SchedulerConfig, t: Table, p: Process, condition: Condition)
    ensures ExceptionMet(c, t, p, condition) <==>
              && (condition.descends.Some? ==>
                    Matches(c, condition.descends.value, p.forkedName) || Named(c, t, p, condition.descends.value, true))
              && (condition.parent != [] ==> ParentIsNamed(c, t, p, condition.parent, true))
  {
    hide Matches, Ancestors;
  }

  /** As long as no earlier exception applied, the next one is looked at to the end. */
  lemma NextExceptionHalts(c: SchedulerConfig, t: Table, p: Process, j: nat)
    requires ExceptionsHalt(c, t, p) && j < |c.assignments.exceptionsConditions|
    requires p.cmdline !in c.assignments.exceptionsByCmdline && p.name !in c.assignments.exceptionsByName
    requires forall i :: 0 <= i < j ==> !ExceptionMet(c, t, p, c.assignments.exceptionsConditions[i])
    ensures ExceptionHalts(c, t, p, c.assignments.exceptionsConditions[j])
  {
    hide ExceptionMet, ExceptionHalts;
  }

  /** The ancestors are searched only if everything else about the condition holds. */
  ghost predicate ConditionHalts(c: SchedulerConfig, t: Table, p: Process, condition: Condition) {
    && ConditionMet(c, t, p, condition.(descends := None))
    && condition.descends.Some? ==>
      NameSearchHalts(c, t, p, condition.descends.value, false)
  }

  /** The rules of a profile are looked at up to the first exclude that is met. */
  ghost predicate RulesHalt(c: SchedulerConfig, t: Table, p: Process, rules: seq<Rule>) {
    forall j :: 0 <= j < |rules| && (forall i :: 0 <= i < j && !rules[i].included ==> !ConditionMet(c, t, p, rules[i].condition)) ==>
                  ConditionHalts(c, t, p, rules[j].condition)
  }

  /** The profiles are looked at up to the first that qualifies. */
  ghost predicate ProfilesHalt(c: SchedulerConfig, t: Table, p: Process, order: seq<string>) {
    order != [] ==>
      && (order[0] in c.assignments.conditions ==> RulesHalt(c, t, p, c.assignments.conditions[order[0]].rules))
      && (QualifiesByName(c, t, p, order[0]) || ProfilesHalt(c, t, p, order[1..]))
  }

  /** A process is classified only as long as nothing was decided about it. */
  ghost predicate DecisionHalts(c: SchedulerConfig, t: Table, p: Process) {
    p.assignedPriority == NotAssignable ==>
      ExceptionsHalt(c, t, p) && (ReachesConditions(c, t, p) ==> ProfilesHalt(c, t, p, c.order))
  }

  // ---------------------------------------------------------------------------------------
  // What halting depends on
  // ---------------------------------------------------------------------------------------

  lemma SameEnds(t: Table, u: Table, w: Option<Ref>, x: Option<Ref>)
    requires SameLinks(t, u) && Upgrade(t, w) == Upgrade(u, x)
    ensures Ends(t, w) <==> Ends(u, x)
  {
    assert |t.cells| == |t.cells.Keys| == |u.cells.Keys| == |u.cells|;
    SameWalk(t, u, w, x, |t.cells| + 1);
  }

  lemma SameDescentHalts(t: Table, u: Table, p: Process, q: Process, ancestor: Pid)
    requires SameLinks(t, u) && Upgrade(t, p.parent) == Upgrade(u, q.parent) && p.parentId == q.parentId
    ensures DescentHalts(t, p, ancestor) <==> DescentHalts(u, q, ancestor)
  {
    SameDescent(t, u, p, q, ancestor);
    SameEnds(t, u, p.parent, q.parent);
  }

  lemma SameSearches(c: SchedulerConfig, t: Table, u: Table, p: Process, q: Process)
    requires SameNames(t, u) && SameEvidence(t, p, u, q)
    ensures forall m, former :: NameSearchHalts(c, t, p, m, former) <==> NameSearchHalts(c, u, q, m, former)
    ensures forall k :: ConditionHalts(c, t, p, k) <==> ConditionHalts(c, u, q, k)
    ensures forall k :: ExceptionHalts(c, t, p, k) <==> ExceptionHalts(c, u, q, k)
  {
    SameEnds(t, u, p.parent, q.parent);
    SameDescent(t, u, p, q, 0);
    hide Ancestors, Ends;
    assert forall m, former :: Named(c, t, p, m, former) <==> Named(c, u, q, m, former);
    hide Named;
    SameConditions(c, t, u, p, q);
    hide ConditionMet;
  }

  lemma {:induction false} SameProfilesHalt(c: SchedulerConfig, t: Table, u: Table, p: Process, q: Process, order: seq<string>)
    requires forall k :: ConditionHalts(c, t, p, k) <==> ConditionHalts(c, u, q, k)
    requires forall k :: ConditionMet(c, t, p, k) <==> ConditionMet(c, u, q, k)
    ensures ProfilesHalt(c, t, p, order) <==> ProfilesHalt(c, u, q, order)
  {
    hide ConditionHalts, ConditionMet;
    if order != [] {
      SameProfilesHalt(c, t, u, p, q, order[1..]);
      assert forall rules :: RulesHalt(c, t, p, rules) <==> RulesHalt(c, u, q, rules);
      assert QualifiesByName(c, t, p, order[0]) <==> QualifiesByName(c, u, q, order[0]);
    }
  }
}
