/**
 * From a document to a decision: how a process is classified, stated on the nodes as they are
 * written, on the fields of its record and on the live records above it.
 */
module WrittenRules {
  import opened Basics
  import opened Scheduler
  import opened ProcessTable
  import opened ConfigParser
  import opened ConfigTables
  import opened ConfigReading
  import opened Classification

  /** The wildcard matcher: a pattern and a text. */
  type Matcher = (string, string) -> bool

  /** A pattern as it is written: an exclamation mark denies what follows it. */
  ghost predicate Fits(wild: Matcher, pattern: string, text: string) {
    if pattern != "" && pattern[0] == '!' then !wild(pattern[1..], text) else wild(pattern, text)
  }

  lemma PatternsMatch(c: SchedulerConfig, pattern: string, text: string)
    ensures Matches(c, NewMatch(pattern), text) <==> Fits(c.wild, pattern, text)
  {
  }

  // ---------------------------------------------------------------------------------------
  // Conditions
  // ---------------------------------------------------------------------------------------

  /** The entry is that property, with a string for its value. */
  ghost predicate IsText(e: Entry, property: string) {
    e.name == Some(property) && e.value.Str?
  }

  /** The last entry that is that property. */
  ghost predicate LastOf(entries: seq<Entry>, property: string, i: int) {
    0 <= i < |entries| && entries[i].name == Some(property) && forall j :: i < j < |entries| ==> entries[j].name != Some(property)
  }

  /** The last entry that is that property has a string for its value. */
  ghost predicate States(entries: seq<Entry>, property: string) {
    exists i :: LastOf(entries, property, i) && entries[i].value.Str?
  }

  ghost predicate StatesParent(entries: seq<Entry>) {
    exists e :: e in entries && IsText(e, "parent")
  }

  /** What the last entry that is that property says of a text, if its value is a string. */
  ghost predicate LastFits(wild: Matcher, entries: seq<Entry>, property: string, text: string) {
    forall i :: LastOf(entries, property, i) && entries[i].value.Str? ==> Fits(wild, entries[i].value.text, text)
  }

  ghost predicate AncestorFits(wild: Matcher, t: Table, p: Process, pattern: string) {
    exists r :: r in Ancestors(t, p) && r in t.cells && Fits(wild, pattern, t.cells[r].name)
  }

  /** One of the parents that are named fits the live parent. */
  ghost predicate ParentFits(wild: Matcher, t: Table, p: Process, entries: seq<Entry>) {
    && p.parent.Some? && p.parent.value in t.cells
    && exists e :: e in entries && IsText(e, "parent") && Fits(wild, e.value.text, t.cells[p.parent.value].name)
  }

  /**
   * A process meets a rule: its control group and its name fit what is said of them, its parent fits
   * one of the parents that are named, if any is, and some ancestor fits what is said of the ancestors.
   */
  ghost predicate MeetsRule(wild: Matcher, t: Table, p: Process, entries: seq<Entry>) {
    && LastFits(wild, entries, "cgroup", p.cgroup)
    && LastFits(wild, entries, "name", p.name)
    && (StatesParent(entries) ==> ParentFits(wild, t, p, entries))
    && (forall i :: LastOf(entries, "descends", i) && entries[i].value.Str? ==> AncestorFits(wild, t, p, entries[i].value.text))
  }

  /** The rule says something of a process. */
  ghost predicate SaysSomething(entries: seq<Entry>) {
    States(entries, "cgroup") || States(entries, "name") || States(entries, "descends") || StatesParent(entries)
  }

  /** A part of a condition is what the last entry of its name gives. */
  ghost predicate PartIs(part: Option<MatchCondition>, entries: seq<Entry>, property: string) {
    && (forall i :: LastOf(entries, property, i) ==>
          part == if entries[i].value.Str? then Some(NewMatch(entries[i].value.text)) else None)
    && (part.Some? ==> exists i :: LastOf(entries, property, i))
  }

  ghost predicate ParentsAre(parents: seq<MatchCondition>, entries: seq<Entry>) {
    forall m :: m in parents <==> exists e :: e in entries && IsText(e, "parent") && m == NewMatch(e.value.text)
  }

  lemma LastOfMore(entries: seq<Entry>, property: string)
    requires entries != []
    ensures var n := |entries| - 1;
            if entries[n].name == Some(property) then forall i :: LastOf(entries, property, i) <==> i == n
            else forall i :: LastOf(entries, property, i) <==> LastOf(entries[..n], property, i)
  {
  }

  lemma PartMore(part: Option<MatchCondition>, entries: seq<Entry>, property: string)
    requires entries != []
    ensures var n := |entries| - 1;
            if entries[n].name == Some(property) then
              PartIs(part, entries, property) <==>
                part == if entries[n].value.Str? then Some(NewMatch(entries[n].value.text)) else None
            else PartIs(part, entries[..n], property) ==> PartIs(part, entries, property)
  {
    var n := |entries| - 1;
    LastOfMore(entries, property);
    assert forall i :: LastOf(entries[..n], property, i) ==> entries[..n][i] == entries[i];
    if entries[n].name == Some(property) {
      assert LastOf(entries, property, n);
    }
    hide LastOf;
  }

  lemma ParentsMore(parents: seq<MatchCondition>, entries: seq<Entry>)
    requires entries != [] && ParentsAre(parents, entries[..|entries| - 1])
    ensures var e := entries[|entries| - 1];
            ParentsAre(if IsText(e, "parent") then parents + [NewMatch(e.value.text)] else parents, entries)
  {
    var n := |entries| - 1;
    assert forall e :: e in entries <==> e in entries[..n] || e == entries[n];
    hide IsText, NewMatch;
  }

  ghost predicate ConditionIs(condition: Condition, entries: seq<Entry>) {
    && PartIs(condition.cgroup, entries, "cgroup")
    && PartIs(condition.name, entries, "name")
    && PartIs(condition.descends, entries, "descends")
    && ParentsAre(condition.parent, entries)
  }

  lemma {:induction false} ConditionAsWritten(entries: seq<Entry>)
    ensures ConditionIs(ConditionOf(entries), entries)
  {
    if entries != [] {
      var n := |entries| - 1;
      ConditionAsWritten(entries[..n]);
      assert "descends"[0] != "name"[0] && "descends"[0] != "cgroup"[0] && "descends"[0] != "parent"[0];
      assert "parent"[0] != "name"[0] && "parent"[0] != "cgroup"[0] && "name"[0] != "cgroup"[0];
      var c := ConditionOf(entries);
      PartMore(c.cgroup, entries, "cgroup");
      PartMore(c.name, entries, "name");
      PartMore(c.descends, entries, "descends");
      ParentsMore(ConditionOf(entries[..n]).parent, entries);
      hide PartIs, ParentsAre, NewMatch;
    }
  }

  lemma PartFits(c: SchedulerConfig, part: Option<MatchCondition>, entries: seq<Entry>, property: string, text: string)
    requires PartIs(part, entries, property)
    ensures LastFits(c.wild, entries, property, text) <==> (part.Some? ==> Matches(c, part.value, text))
    ensures States(entries, property) <==> part.Some?
  {
    hide Matches, Fits, NewMatch;
    if i :| LastOf(entries, property, i) {
      hide LastOf;
      if entries[i].value.Str? {
        PatternsMatch(c, entries[i].value.text, text);
      }
      assert forall j :: LastOf(entries, property, j) ==> j == i by { OneLast(entries, property, i); }
    }
  }

  lemma OneLast(entries: seq<Entry>, property: string, i: int)
    requires LastOf(entries, property, i)
    ensures forall j :: LastOf(entries, property, j) ==> j == i
  {
  }

  /** The live parent's name matches one of the conditions. */
  lemma ParentsFit(c: SchedulerConfig, t: Table, p: Process, parents: seq<MatchCondition>, entries: seq<Entry>)
    requires ParentsAre(parents, entries)
    ensures ParentFits(c.wild, t, p, entries) <==> exists m :: m in parents && ParentMatches(c, t, p, m)
    ensures StatesParent(entries) <==> parents != []
  {
    hide Matches, Fits, NewMatch;
    if p.parent.Some? && p.parent.value in t.cells {
      forall e | e in entries && IsText(e, "parent")
        ensures Matches(c, NewMatch(e.value.text), t.cells[p.parent.value].name) <==>
                  Fits(c.wild, e.value.text, t.cells[p.parent.value].name)
      {
        PatternsMatch(c, e.value.text, t.cells[p.parent.value].name);
      }
    }
    assert parents != [] ==> parents[0] in parents;
    forall e | e in entries && IsText(e, "parent")
      ensures NewMatch(e.value.text) in parents
    {
    }
  }

  lemma AncestorsFit(c: SchedulerConfig, t: Table, p: Process, part: Option<MatchCondition>, entries: seq<Entry>)
    requires PartIs(part, entries, "descends")
    ensures (forall i :: LastOf(entries, "descends", i) && entries[i].value.Str? ==>
                AncestorFits(c.wild, t, p, entries[i].value.text)) <==>
              (part.Some? ==> AncestorMatches(c, t, p, part.value))
  {
    hide Matches, Fits, NewMatch, Ancestors;
    forall pattern, text
      ensures Matches(c, NewMatch(pattern), text) <==> Fits(c.wild, pattern, text)
    {
      PatternsMatch(c, pattern, text);
    }
    if i :| LastOf(entries, "descends", i) {
      OneLast(entries, "descends", i);
      hide LastOf;
    }
  }

  /** A condition that is what the entries state is met as they are written. */
  lemma MetAsWritten(c: SchedulerConfig, t: Table, p: Process, condition: Condition, entries: seq<Entry>)
    requires ConditionIs(condition, entries)
    ensures ConditionMet(c, t, p, condition) <==> MeetsRule(c.wild, t, p, entries)
    ensures SaysSomething(entries) <==>
              condition.cgroup.Some? || condition.name.Some? || condition.descends.Some? || condition.parent != []
  {
    hide PartIs, ParentsAre, LastFits, Matches, AncestorMatches, ParentMatches, ParentFits, States, StatesParent;
    PartFits(c, condition.cgroup, entries, "cgroup", p.cgroup);
    PartFits(c, condition.name, entries, "name", p.name);
    PartFits(c, condition.descends, entries, "descends", "");
    ParentsFit(c, t, p, condition.parent, entries);
    AncestorsFit(c, t, p, condition.descends, entries);
    hide AncestorFits, LastOf;
  }

  // ---------------------------------------------------------------------------------------
  // Rules
  // ---------------------------------------------------------------------------------------

  ghost predicate IsWrittenRule(node: Node) {
    (node.name == "include" || node.name == "exclude") && SaysSomething(node.entries)
  }

  /** The rules among the children of one mention of a profile. */
  ghost function RulesAmong(patterns: seq<Node>): seq<Node> {
    if patterns == [] then []
    else
      var before, last := RulesAmong(patterns[..|patterns| - 1]), patterns[|patterns| - 1];
      if IsWrittenRule(last) then before + [last] else before
  }

  /** The rules of a profile, over all of its mentions, in document order. */
  ghost function RuleNodes(nodes: seq<Node>, name: string): seq<Node> {
    if nodes == [] then []
    else
      var before, last := RuleNodes(nodes[..|nodes| - 1], name), nodes[|nodes| - 1];
      if last.name == name then before + RulesAmong(PatternsOf(last)) else before
  }

  /** The properties of the first mention that has a rule: the profile is assigned with these. */
  ghost function RuleBase(nodes: seq<Node>, name: string): Option<Profile> {
    if nodes == [] then None
    else
      var n := |nodes| - 1;
      if RuleNodes(nodes[..n], name) != [] then RuleBase(nodes[..n], name)
      else if nodes[n].name == name then Some(Base(nodes, n))
      else None
  }

  ghost function PatternsIn(uses: seq<Use>): seq<Node> {
    seq(|uses|, i requires 0 <= i < |uses| => uses[i].pattern)
  }

  lemma ConditionedAsWritten(node: Node)
    ensures IsConditioned(node) <==> IsWrittenRule(node)
  {
    ConditionAsWritten(node.entries);
    var c := SchedulerConfig(NO_ASSIGNMENTS, [], None, None, (pattern, text) => true);
    hide ConditionOf, ConditionIs, SaysSomething;
    MetAsWritten(c, EMPTY, NewProcess(0, 0, "", "", "", None), ConditionOf(node.entries), node.entries);
  }

  lemma RuleUsesMore(uses: seq<Use>, use: Use, name: string)
    ensures RuleUses(uses + [use], name) ==
            if use.profile == name && IsConditioned(use.pattern) then RuleUses(uses, name) + [use] else RuleUses(uses, name)
  {
    assert (uses + [use])[..|uses|] == uses;
  }

  lemma PatternsInMore(uses: seq<Use>, use: Use)
    ensures PatternsIn(uses + [use]) == PatternsIn(uses) + [use.pattern]
  {
  }

  lemma Regroup(before: seq<Node>, init: seq<Node>, last: Node)
    ensures (before + init) + [last] == before + (init + [last])
  {
  }

  lemma {:induction false} RuleUsesAmong(x: seq<Use>, profile: string, base: Profile, patterns: seq<Node>, name: string)
    ensures var before, more := RuleUses(x, name), RuleUses(x + UsesOf(profile, base, patterns), name);
            && PatternsIn(more) == PatternsIn(before) + (if profile == name then RulesAmong(patterns) else [])
            && before <= more && forall i :: |before| <= i < |more| ==> more[i].base == base
  {
    if patterns == [] {
      assert x + [] == x;
    } else {
      hide IsConditioned, IsWrittenRule, RuleUses, PatternsIn;
      var n := |patterns| - 1;
      var init, use := UsesOf(profile, base, patterns[..n]), Use(profile, base, patterns[n]);
      RuleUsesAmong(x, profile, base, patterns[..n], name);
      ConditionedAsWritten(patterns[n]);
      assert x + UsesOf(profile, base, patterns) == (x + init) + [use];
      hide UsesOf;
      RuleUsesMore(x + init, use, name);
      if profile == name {
        PatternsInMore(RuleUses(x + init, name), use);
        Regroup(PatternsIn(RuleUses(x, name)), RulesAmong(patterns[..n]), patterns[n]);
      }
    }
  }

  /** The uses that are rules are the rules as they are written, the first with the properties of its mention. */
  lemma {:induction false} RuleUsesAsWritten(nodes: seq<Node>, name: string)
    ensures var uses := RuleUses(Uses(nodes), name);
            && PatternsIn(uses) == RuleNodes(nodes, name)
            && (uses != [] ==> RuleBase(nodes, name) == Some(uses[0].base))
  {
    if nodes != [] {
      var n := |nodes| - 1;
      RuleUsesAsWritten(nodes[..n], name);
      RuleUsesAmong(Uses(nodes[..n]), nodes[n].name, Base(nodes, n), PatternsOf(nodes[n]), name);
      hide RuleUses, RulesAmong, UsesOf, Base;
      var before, uses := RuleUses(Uses(nodes[..n]), name), RuleUses(Uses(nodes), name);
      assert |PatternsIn(before)| == |before| == |RuleNodes(nodes[..n], name)|;
      if before != [] {
        assert uses[0] == uses[..|before|][0];
      }
    }
  }

  /** A table entry is what the rules as written make of it. */
  ghost predicate EntryAsWritten(entry: ConditionedProfile, base: Profile, rules: seq<Node>) {
    && rules != []
    && entry.profile == ParseProperties(base, rules[0].entries)
    && |entry.rules| == |rules|
    && forall i :: 0 <= i < |rules| ==>
                     && (entry.rules[i].included <==> rules[i].name == "include")
                     && ConditionIs(entry.rules[i].condition, rules[i].entries)
  }

  /**
   * The conditioned profiles that were read: a profile has an entry exactly if it has a rule that says
   * something. The entry has one rule for each of these, in document order, which includes exactly
   * if the node is so named and whose condition is what the node's properties say.
   */
  lemma RulesAsWritten(nodes: seq<Node>, name: string)
    ensures var conditions, rules := ParseProfileNodes(NO_ASSIGNMENTS, nodes).conditions, RuleNodes(nodes, name);
            && (name in conditions <==> rules != [])
            && (name in conditions ==>
                  RuleBase(nodes, name).Some? && EntryAsWritten(conditions[name], RuleBase(nodes, name).value, rules))
  {
    ConditionsAreExact(nodes, name);
    RuleUsesAsWritten(nodes, name);
    hide RuleNodes, RuleBase, RuleUses, Uses, ParseProfileNodes, ParseProperties, ConditionIs;
    var uses, rules := RuleUses(Uses(nodes), name), RuleNodes(nodes, name);
    assert |PatternsIn(uses)| == |uses| == |rules| && forall i :: 0 <= i < |rules| ==> uses[i].pattern == rules[i];
    forall i | 0 <= i < |rules|
      ensures ConditionIs(ConditionOf(rules[i].entries), rules[i].entries)
    {
      ConditionAsWritten(rules[i].entries);
    }
    hide ConditionOf;
  }

  // ---------------------------------------------------------------------------------------
  // Exceptions
  // ---------------------------------------------------------------------------------------

  /** The last entry that is that property and has a string for its value. */
  ghost predicate LastText(entries: seq<Entry>, property: string, i: int) {
    0 <= i < |entries| && IsText(entries[i], property) && forall j :: i < j < |entries| ==> !IsText(entries[j], property)
  }

  ghost predicate EitherNameFits(wild: Matcher, p: Process, pattern: string) {
    Fits(wild, pattern, p.name) || Fits(wild, pattern, p.forkedName)
  }

  /** The former name of the process, or a present or former name of an ancestor. */
  ghost predicate AboveFits(wild: Matcher, t: Table, p: Process, pattern: string) {
    || Fits(wild, pattern, p.forkedName)
    || exists r :: r in Ancestors(t, p) && r in t.cells && EitherNameFits(wild, t.cells[r], pattern)
  }

  /** A present or former name of the live parent fits one of the parents that are named. */
  ghost predicate ParentFitsEither(wild: Matcher, t: Table, p: Process, entries: seq<Entry>) {
    && p.parent.Some? && p.parent.value in t.cells
    && exists e :: e in entries && IsText(e, "parent") && EitherNameFits(wild, t.cells[p.parent.value], e.value.text)
  }

  /** A conditional exception applies: what it says of the ancestors and of the parent is so. */
  ghost predicate ExceptedBy(wild: Matcher, t: Table, p: Process, entries: seq<Entry>) {
    && (forall i :: LastText(entries, "descends", i) ==> AboveFits(wild, t, p, entries[i].value.text))
    && (StatesParent(entries) ==> ParentFitsEither(wild, t, p, entries))
  }

  /** A node excepts by condition, by command line if its name starts with a slash, or else by name. */
  ghost predicate ExceptedByNode(wild: Matcher, t: Table, p: Process, node: Node) {
    if node.name == "include" then ExceptedBy(wild, t, p, node.entries)
    else if node.name != "" && node.name[0] == '/' then node.name == p.cmdline
    else node.name == p.name
  }

  ghost predicate Excepted(wild: Matcher, t: Table, p: Process, exceptions: seq<Node>) {
    exists node :: node in exceptions && ExceptedByNode(wild, t, p, node)
  }

  lemma {:induction false} ExceptionParents(entries: seq<Entry>)
    ensures ParentsAre(ExceptionOf(entries).parent, entries)
  {
    if entries != [] {
      var n := |entries| - 1;
      ExceptionParents(entries[..n]);
      assert "descends"[0] != "parent"[0] && "parent"[0] != "name"[0] && "parent"[0] != "cgroup"[0];
      ParentsMore(ExceptionOf(entries[..n]).parent, entries);
      hide ParentsAre, NewMatch;
    }
  }

  lemma ExceptionAsWritten(entries: seq<Entry>)
    ensures var condition := ExceptionOf(entries);
            && (forall i :: LastText(entries, "descends", i) ==> condition.descends == Some(NewMatch(entries[i].value.text)))
            && (condition.descends.Some? ==> exists i :: LastText(entries, "descends", i))
            && ParentsAre(condition.parent, entries)
  {
    ExceptionParents(entries);
    ExceptionEntries(entries);
    hide ParentsAre, ExceptionOf, NewMatch;
    assert forall i :: LastText(entries, "descends", i) <==> LastDescends(entries, i);
  }

  lemma ExceptedAbove(c: SchedulerConfig, t: Table, p: Process, part: Option<MatchCondition>, entries: seq<Entry>)
    requires forall i :: LastText(entries, "descends", i) ==> part == Some(NewMatch(entries[i].value.text))
    requires part.Some? ==> exists i :: LastText(entries, "descends", i)
    ensures (part.Some? ==> AboveExcepts(c, t, p, part.value)) <==>
              forall i :: LastText(entries, "descends", i) ==> AboveFits(c.wild, t, p, entries[i].value.text)
  {
    hide AboveExcepts, AboveFits, NewMatch;
    if i :| LastText(entries, "descends", i) {
      OneLastText(entries, "descends", i);
      AboveAlike(c, t, p, entries[i].value.text);
      hide LastText;
    }
  }

  ghost predicate AboveExcepts(c: SchedulerConfig, t: Table, p: Process, m: MatchCondition) {
    || Matches(c, m, p.forkedName)
    || exists r :: r in Ancestors(t, p) && r in t.cells && EitherNameMatches(c, t.cells[r], m)
  }

  lemma AboveAlike(c: SchedulerConfig, t: Table, p: Process, pattern: string)
    ensures AboveExcepts(c, t, p, NewMatch(pattern)) <==> AboveFits(c.wild, t, p, pattern)
  {
    hide Ancestors;
    forall text
      ensures Matches(c, NewMatch(pattern), text) <==> Fits(c.wild, pattern, text)
    {
      PatternsMatch(c, pattern, text);
    }
    hide Matches, Fits, NewMatch;
  }

  ghost predicate ParentExcepts(c: SchedulerConfig, t: Table, p: Process, parents: seq<MatchCondition>) {
    exists m :: m in parents && Upgrade(t, p.parent).Some? && EitherNameMatches(c, t.cells[p.parent.value], m)
  }

  lemma ExceptedParents(c: SchedulerConfig, t: Table, p: Process, parents: seq<MatchCondition>, entries: seq<Entry>)
    requires ParentsAre(parents, entries)
    ensures ParentExcepts(c, t, p, parents) <==> ParentFitsEither(c.wild, t, p, entries)
  {
    forall pattern, text
      ensures Matches(c, NewMatch(pattern), text) <==> Fits(c.wild, pattern, text)
    {
      PatternsMatch(c, pattern, text);
    }
    hide Matches, Fits, NewMatch;
    forall e | e in entries && IsText(e, "parent")
      ensures NewMatch(e.value.text) in parents
    {
    }
  }

  lemma ExceptedByExactly(c: SchedulerConfig, t: Table, p: Process, entries: seq<Entry>)
    ensures ExceptionMet(c, t, p, ExceptionOf(entries)) <==> ExceptedBy(c.wild, t, p, entries)
  {
    ExceptionAsWritten(entries);
    var condition := ExceptionOf(entries);
    ExceptedAbove(c, t, p, condition.descends, entries);
    ExceptedParents(c, t, p, condition.parent, entries);
    ParentsFit(c, t, p, condition.parent, entries);
    assert ExceptionMet(c, t, p, condition) <==>
        && (condition.descends.Some? ==> AboveExcepts(c, t, p, condition.descends.value))
        && (condition.parent != [] ==> ParentExcepts(c, t, p, condition.parent));
    hide ExceptionOf, ExceptionMet, AboveExcepts, AboveFits, ParentExcepts, ParentFitsEither, ParentsAre, LastText, StatesParent;
  }

  lemma OneLastText(entries: seq<Entry>, property: string, i: int)
    requires LastText(entries, property, i)
    ensures forall j :: LastText(entries, property, j) ==> j == i
  {
  }

  lemma {:induction false} ConditionsAreIncludes(nodes: seq<Node>, condition: Condition)
    ensures condition in ExceptionConditions(nodes) <==>
              exists node :: node in nodes && node.name == "include" && condition == ExceptionOf(node.entries)
  {
    if nodes != [] {
      var n := |nodes| - 1;
      ConditionsAreIncludes(nodes[..n], condition);
      assert forall node :: node in nodes <==> node in nodes[..n] || node == nodes[n];
      hide ExceptionOf;
    }
  }

  /** The exceptions of the configuration are those of these nodes. */
  ghost predicate HasExceptions(a: Assignments, exceptions: seq<Node>) {
    && a.exceptionsByName == ExceptionNames(exceptions, false)
    && a.exceptionsByCmdline == ExceptionNames(exceptions, true)
    && a.exceptionsConditions == ExceptionConditions(exceptions)
  }

  lemma ExceptedAsWritten(c: SchedulerConfig, t: Table, p: Process, exceptions: seq<Node>)
    requires HasExceptions(c.assignments, exceptions)
    ensures IsException(c, t, p) <==> Excepted(c.wild, t, p, exceptions)
  {
    hide ExceptionMet, ExceptedBy, ExceptionOf, ExceptionConditions;
    forall node | node in exceptions && node.name == "include"
      ensures ExceptionMet(c, t, p, ExceptionOf(node.entries)) <==> ExceptedBy(c.wild, t, p, node.entries)
      ensures ExceptionOf(node.entries) in ExceptionConditions(exceptions)
    {
      ExceptedByExactly(c, t, p, node.entries);
      ConditionsAreIncludes(exceptions, ExceptionOf(node.entries));
    }
    if condition :| condition in c.assignments.exceptionsConditions && ExceptionMet(c, t, p, condition) {
      ConditionsAreIncludes(exceptions, condition);
      var node :| node in exceptions && node.name == "include" && condition == ExceptionOf(node.entries);
      assert ExceptedByNode(c.wild, t, p, node);
    }
    if p.cmdline in ExceptionNames(exceptions, true) {
      var node :| node in exceptions && node.name != "include" && IsCmdline(node.name) && node.name == p.cmdline;
      assert ExceptedByNode(c.wild, t, p, node);
    }
    if p.name in ExceptionNames(exceptions, false) {
      var node :| node in exceptions && node.name != "include" && !IsCmdline(node.name) && node.name == p.name;
      assert ExceptedByNode(c.wild, t, p, node);
    }
  }

  // ---------------------------------------------------------------------------------------
  // Classification
  // ---------------------------------------------------------------------------------------

  /** Some include among the rules is met, and no exclude is, wherever it stands. */
  ghost predicate LetsIn(wild: Matcher, t: Table, p: Process, rules: seq<Node>) {
    && (exists node :: node in rules && node.name == "include" && MeetsRule(wild, t, p, node.entries))
    && (forall node :: node in rules && node.name == "exclude" ==> !MeetsRule(wild, t, p, node.entries))
  }

  /** The properties with which a profile's rules assign it. */
  ghost function RuleProfile(nodes: seq<Node>, name: string): Profile
    requires RuleNodes(nodes, name) != [] && RuleBase(nodes, name).Some?
  {
    ParseProperties(RuleBase(nodes, name).value, RuleNodes(nodes, name)[0].entries)
  }

  ghost function UseProfile(use: Use): Profile {
    ParseProperties(use.base, use.pattern.entries)
  }

  lemma {:induction false} RulesAreNamed(patterns: seq<Node>)
    ensures forall node :: node in RulesAmong(patterns) ==> node.name == "include" || node.name == "exclude"
  {
    if patterns != [] {
      RulesAreNamed(patterns[..|patterns| - 1]);
      hide SaysSomething;
    }
  }

  lemma {:induction false} RuleNodesAreNamed(nodes: seq<Node>, name: string)
    ensures forall node :: node in RuleNodes(nodes, name) ==> node.name == "include" || node.name == "exclude"
    ensures RuleNodes(nodes, name) != [] ==> RuleBase(nodes, name).Some?
  {
    if nodes != [] {
      RuleNodesAreNamed(nodes[..|nodes| - 1], name);
      RulesAreNamed(PatternsOf(nodes[|nodes| - 1]));
      hide RulesAmong, Base;
    }
  }

  lemma QualifiesAsWritten(c: SchedulerConfig, t: Table, p: Process, rules: seq<Rule>, nodes: seq<Node>)
    requires |rules| == |nodes| && forall node :: node in nodes ==> node.name == "include" || node.name == "exclude"
    requires forall i :: 0 <= i < |rules| ==>
                           && (rules[i].included <==> nodes[i].name == "include")
                           && ConditionIs(rules[i].condition, nodes[i].entries)
    ensures Qualifies(c, t, p, rules) <==> LetsIn(c.wild, t, p, nodes)
  {
    forall i | 0 <= i < |rules|
      ensures ConditionMet(c, t, p, rules[i].condition) <==> MeetsRule(c.wild, t, p, nodes[i].entries)
      ensures nodes[i] in nodes
    {
      hide ConditionIs;
      MetAsWritten(c, t, p, rules[i].condition, nodes[i].entries);
    }
    assert "include"[0] != "exclude"[0];
    hide ConditionIs, ConditionMet, MeetsRule;
  }

  /** The tables of the configuration are what these nodes come to. */
  ghost predicate ReadFrom(a: Assignments, nodes: seq<Node>, exceptions: seq<Node>) {
    var read := ParseProfileNodes(NO_ASSIGNMENTS, nodes);
    && a.conditions == read.conditions && a.profileByName == read.profileByName && a.profileByCmdline == read.profileByCmdline
    && HasExceptions(a, exceptions)
  }

  lemma ProfileQualifies(c: SchedulerConfig, t: Table, p: Process, nodes: seq<Node>, exceptions: seq<Node>, name: string)
    requires ReadFrom(c.assignments, nodes, exceptions)
    ensures QualifiesByName(c, t, p, name) <==> LetsIn(c.wild, t, p, RuleNodes(nodes, name))
    ensures QualifiesByName(c, t, p, name) ==>
              && RuleNodes(nodes, name) != [] && RuleBase(nodes, name).Some?
              && c.assignments.conditions[name].profile == RuleProfile(nodes, name)
  {
    hide RuleNodes, RuleBase, ParseProfileNodes, HasExceptions, ConditionIs, MeetsRule, Qualifies, ParseProperties;
    RulesAsWritten(nodes, name);
    RuleNodesAreNamed(nodes, name);
    if name in c.assignments.conditions {
      QualifiesAsWritten(c, t, p, c.assignments.conditions[name].rules, RuleNodes(nodes, name));
    }
  }

  lemma NamedAsWritten(c: SchedulerConfig, nodes: seq<Node>, exceptions: seq<Node>, key: string)
    requires ReadFrom(c.assignments, nodes, exceptions)
    ensures var a, use := c.assignments, LastUse(Uses(nodes), key);
            if key != "" && key[0] == '/' then
              && (key in a.profileByCmdline <==> use.Some?) && (use.Some? ==> a.profileByCmdline[key] == UseProfile(use.value))
              && key !in a.profileByName
            else
              && (key in a.profileByName <==> use.Some?) && (use.Some? ==> a.profileByName[key] == UseProfile(use.value))
              && key !in a.profileByCmdline
  {
    hide HasExceptions, ParseProfileNodes, LastUse, Uses, ParseProperties;
    LastMentionWins(nodes, key);
  }

  /** What names a process outright: its command line, or else its name if that does not start with a slash. */
  ghost function NamedOutright(nodes: seq<Node>, p: Process): Option<Use> {
    var byCmdline := if p.cmdline != "" && p.cmdline[0] == '/' then LastUse(Uses(nodes), p.cmdline) else None;
    if byCmdline.Some? then byCmdline
    else if p.name != "" && p.name[0] == '/' then None
    else LastUse(Uses(nodes), p.name)
  }

  /**
   * From documents to decisions. An exception is excepted; otherwise the last mention of the command
   * line decides, or else that of the name; otherwise nothing is decided without a control group;
   * otherwise some profile whose rules let the process in is assigned, and if there is none, the
   * process stays assignable.
   */
  lemma ClassifiedAsWritten(c: SchedulerConfig, t: Table, p: Process, nodes: seq<Node>, exceptions: seq<Node>)
    requires ValidConfig(c) && ReadFrom(c.assignments, nodes, exceptions)
    ensures var decision, use := Classify(c, t, p), NamedOutright(nodes, p);
            if Excepted(c.wild, t, p, exceptions) then decision == Priority.Exception
            else if use.Some? then decision == Config(UseProfile(use.value))
            else if p.cgroup == "" then decision == NotAssignable
            else if forall name :: !LetsIn(c.wild, t, p, RuleNodes(nodes, name)) then decision == Assignable
            else
              exists name :: && LetsIn(c.wild, t, p, RuleNodes(nodes, name))
                             && RuleNodes(nodes, name) != [] && RuleBase(nodes, name).Some?
                             && decision == Config(RuleProfile(nodes, name))
  {
    hide IsException, Excepted, LastUse, Uses, UseProfile, RuleNodes, RuleBase, RuleProfile, LetsIn, ParseProfileNodes, QualifiesByName,
         FirstQualifying;
    assert HasExceptions(c.assignments, exceptions);
    ExceptedAsWritten(c, t, p, exceptions);
    NamedAsWritten(c, nodes, exceptions, p.cmdline);
    NamedAsWritten(c, nodes, exceptions, p.name);
    FirstQualifies(c, t, p, c.order);
    forall name
      ensures QualifiesByName(c, t, p, name) <==> LetsIn(c.wild, t, p, RuleNodes(nodes, name))
      ensures QualifiesByName(c, t, p, name) ==>
                && name in c.order && name in c.assignments.conditions && RuleNodes(nodes, name) != [] && RuleBase(nodes, name).Some?
                && c.assignments.conditions[name].profile == RuleProfile(nodes, name)
    {
      ProfileQualifies(c, t, p, nodes, exceptions, name);
      QualifierIsListed(c, t, p, name);
    }
    hide HasExceptions, ReadFrom, ValidConfig;
  }

  lemma QualifierIsListed(c: SchedulerConfig, t: Table, p: Process, name: string)
    requires ValidConfig(c)
    ensures QualifiesByName(c, t, p, name) ==> name in c.order && name in c.assignments.conditions
  {
    hide Qualifies;
  }

  /** A configuration that was read has the tables of its nodes. */
  lemma ReadConfigIsReadFrom(nodes: seq<Node>, exceptions: seq<Node>, order: seq<string>, wild: Matcher)
    ensures var a := ParseProfileNodes(NO_ASSIGNMENTS, nodes).(
                exceptionsByName := ExceptionNames(exceptions, false),
                exceptionsByCmdline := ExceptionNames(exceptions, true),
                exceptionsConditions := ExceptionConditions(exceptions));
            var c := ReadConfig(a, order, wild);
            ReadFrom(c.assignments, nodes, exceptions) && c.order == order && c.wild == wild
  {
    hide ParseProfileNodes, ExceptionConditions;
  }

  /**
   * A child that is called by a star, with conditions or without, is no rule: it assigns the processes
   * of that very name, and no others.
   */
  lemma StarAssignsNobodyElse(c: SchedulerConfig, t: Table, p: Process, profile: string, properties: seq<Entry>, conditions: seq<Entry>)
    requires ValidConfig(c) && ReadFrom(c.assignments, [Node(profile, properties, Some([Node("*", conditions, None)]))], [])
    ensures p.name != "*" ==> Classify(c, t, p) in {Assignable, NotAssignable}
    ensures p.name == "*" ==> Classify(c, t, p) == Config(ParseProperties(ParseProperties(NewProfile(profile), properties), conditions))
  {
    var star := Node("*", conditions, None);
    var node := Node(profile, properties, Some([star]));
    var nodes := [node];
    assert nodes[..0] == [] && [star][..0] == [] && PatternsOf(node) == [star];
    assert "*"[0] != "include"[0] && "*"[0] != "exclude"[0] && "*"[0] != '/';
    var base := ParseProperties(NewProfile(profile), properties);
    hide ParseProperties, SaysSomething, ReadFrom;
    assert Base(nodes, 0) == base && Uses([]) == [];
    assert UsesOf(profile, base, [star]) == [Use(profile, base, star)];
    assert Uses(nodes) == [Use(profile, base, star)];
    forall key
      ensures LastUse(Uses(nodes), key) == if key == "*" then Some(Use(profile, base, star)) else None
    {
      assert Uses(nodes)[..0] == [];
    }
    forall name
      ensures RuleNodes(nodes, name) == []
    {
      assert RulesAmong([star]) == [];
    }
    hide RuleNodes, LastUse, Uses, Base;
    ClassifiedAsWritten(c, t, p, nodes, []);
    assert p.cmdline != "" && p.cmdline[0] == '/' ==> p.cmdline != "*";
  }
}
