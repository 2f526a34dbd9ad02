/** Reading profiles, assignments and exceptions from configuration nodes. */
module ConfigParser {
  import opened Basics
  import opened Scheduler

  // ---------------------------------------------------------------------------------------
  // Parsed documents
  // ---------------------------------------------------------------------------------------

  datatype Value = Str(text: string) | Int(number: int) | OtherValue

  /** An argument or, if it is named, a property of a node; it may carry a type annotation. */
  datatype Entry = Entry(name: Option<string>, ty: Option<string>, value: Value)

  datatype Node = Node(name: string, entries: seq<Entry>, children: Option<seq<Node>>)

  function AsString(e: Entry): Option<string> {
    if e.value.Str? then Some(e.value.text) else None
  }

  /** Integers that do not fit are no integers. */
  function AsI8(e: Entry): Option<int> {
    if e.value.Int? && -128 <= e.value.number <= 127 then Some(e.value.number) else None
  }

  function AsU8(e: Entry): Option<nat> {
    if e.value.Int? && 0 <= e.value.number <= 255 then Some(e.value.number) else None
  }

  // ---------------------------------------------------------------------------------------
  // Profiles
  // ---------------------------------------------------------------------------------------

  function Niceness(level: int): int {
    if level > 19 then 19 else if level < -20 then -20 else level
  }

  function SchedPriority(level: nat): nat {
    if level > 99 then 99 else if level < 1 then 1 else level
  }

  function ParsePolicy(s: string): Option<SchedPolicy> {
    if s == "batch" then Some(Batch)
    else if s == "fifo" then Some(Fifo)
    else if s == "idle" then Some(IdlePolicy)
    else if s == "other" then Some(Other)
    else if s == "rr" then Some(Rr)
    else None
  }

  /** An I/O level outside 0 to 7 counts as the lowest. */
  function IoLevel(e: Entry): nat {
    var level := AsU8(e).GetOr(7);
    if level <= 7 then level else 7
  }

  function ParseIo(p: Profile, e: Entry): Profile {
    var class_ := if e.ty.Some? then e.ty else AsString(e);
    if class_ == Some("idle") then p.(io := Idle)
    else if class_ == Some("best-effort") then p.(io := BestEffort(IoLevel(e)))
    else if class_ == Some("realtime") then p.(io := Realtime(IoLevel(e)))
    else p
  }

  function ParseNice(p: Profile, e: Entry): Profile {
    if AsI8(e).Some? then p.(nice := Some(Niceness(AsI8(e).value))) else p
  }

  function ParseSched(p: Profile, e: Entry): Profile {
    if e.ty.Some? then
      if ParsePolicy(e.ty.value).Some? && AsU8(e).Some?
      then p.(schedPolicy := ParsePolicy(e.ty.value).value, schedPriority := SchedPriority(AsU8(e).value))
      else p
    else if AsString(e).Some? && ParsePolicy(AsString(e).value).Some?
    then p.(schedPolicy := ParsePolicy(AsString(e).value).value)
    else p
  }

  /** The profile after one property; properties that are none of a profile's leave it alone. */
  function ParseProperty(p: Profile, e: Entry): Profile {
    if e.name == Some("io") then ParseIo(p, e)
    else if e.name == Some("nice") then ParseNice(p, e)
    else if e.name == Some("sched") then ParseSched(p, e)
    else p
  }

  function ParseProperties(p: Profile, entries: seq<Entry>): Profile {
    if entries == [] then p
    else ParseProperty(ParseProperties(p, entries[..|entries| - 1]), entries[|entries| - 1])
  }

  // ---------------------------------------------------------------------------------------
  // Conditions
  // ---------------------------------------------------------------------------------------

  function NewMatch(text: string): MatchCondition {
    if text != "" && text[0] == '!' then IsNot(text[1..]) else Is(text)
  }

  function MatchOf(e: Entry): Option<MatchCondition> {
    if AsString(e).Some? then Some(NewMatch(AsString(e).value)) else None
  }

  const NO_CONDITION := Condition(None, None, None, [])

  function AddToCondition(c: Condition, e: Entry): Condition {
    if e.name == Some("cgroup") then c.(cgroup := MatchOf(e))
    else if e.name == Some("descends") then c.(descends := MatchOf(e))
    else if e.name == Some("name") then c.(name := MatchOf(e))
    else if e.name == Some("parent") && MatchOf(e).Some? then c.(parent := c.parent + [MatchOf(e).value])
    else c
  }

  function ConditionOf(entries: seq<Entry>): Condition {
    if entries == [] then NO_CONDITION
    else AddToCondition(ConditionOf(entries[..|entries| - 1]), entries[|entries| - 1])
  }

  predicate IsRule(pattern: Node) {
    pattern.name == "include" || pattern.name == "exclude"
  }

  /** A rule counts only if it states some condition. */
  predicate IsConditioned(pattern: Node) {
    IsRule(pattern) && ConditionOf(pattern.entries) != NO_CONDITION
  }

  function RuleOf(pattern: Node): Rule {
    Rule(ConditionOf(pattern.entries), pattern.name == "include")
  }

  predicate IsCmdline(name: string) {
    name != "" && name[0] == '/'
  }

  // ---------------------------------------------------------------------------------------
  // Assignments
  // ---------------------------------------------------------------------------------------

  const NO_ASSIGNMENTS := Assignments(map[], {}, {}, [], map[], map[], map[])

  /** Adds a rule; the first rule of a profile also fixes the properties it is assigned with. */
  function AddRule(a: Assignments, name: string, base: Profile, pattern: Node): Assignments {
    if !IsConditioned(pattern) then a
    else
      var known := if name in a.conditions then a.conditions[name]
                   else ConditionedProfile(ParseProperties(base, pattern.entries), []);
      a.(conditions := a.conditions[name := known.(rules := known.rules + [RuleOf(pattern)])])
  }

  function ParsePattern(a: Assignments, name: string, base: Profile, pattern: Node): Assignments {
    if IsRule(pattern) then AddRule(a, name, base, pattern)
    else
      var profile := ParseProperties(base, pattern.entries);
      if IsCmdline(pattern.name) then a.(profileByCmdline := a.profileByCmdline[pattern.name := profile])
      else a.(profileByName := a.profileByName[pattern.name := profile])
  }

  function ParsePatterns(a: Assignments, name: string, base: Profile, patterns: seq<Node>): Assignments {
    if patterns == [] then a
    else ParsePattern(ParsePatterns(a, name, base, patterns[..|patterns| - 1]), name, base, patterns[|patterns| - 1])
  }

  function PatternsOf(node: Node): seq<Node> {
    node.children.GetOr([])
  }

  function ParseProfileNode(a: Assignments, node: Node): Assignments {
    var name := node.name;
    var base := ParseProperties(if name in a.profiles then a.profiles[name] else NewProfile(name), node.entries);
    var a1 := if name in a.profiles then a else a.(profiles := a.profiles[name := base]);
    ParsePatterns(a1, name, base, PatternsOf(node))
  }

  function ParseProfileNodes(a: Assignments, nodes: seq<Node>): Assignments {
    if nodes == [] then a
    else ParseProfileNode(ParseProfileNodes(a, nodes[..|nodes| - 1]), nodes[|nodes| - 1])
  }

  /** Several `assignments` nodes, in the order in which they are read. */
  function ParseDocuments(a: Assignments, documents: seq<Node>): Assignments {
    if documents == [] then a
    else ParseProfileNodes(ParseDocuments(a, documents[..|documents| - 1]), PatternsOf(documents[|documents| - 1]))
  }

  function ProfileNodes(documents: seq<Node>): seq<Node> {
    if documents == [] then []
    else ProfileNodes(documents[..|documents| - 1]) + PatternsOf(documents[|documents| - 1])
  }

  // ---------------------------------------------------------------------------------------
  // The tables, updated in place
  // ---------------------------------------------------------------------------------------

  class AssignmentTables {
    var conditions: map<string, ConditionedProfile>
    var exceptionsByName: set<string>
    var exceptionsByCmdline: set<string>
    var exceptionsConditions: seq<Condition>
    var profiles: map<string, Profile>
    var profileByName: map<string, Profile>
    var profileByCmdline: map<string, Profile>

    function View(): Assignments
      reads this
    {
      Assignments(conditions, exceptionsByName, exceptionsByCmdline, exceptionsConditions, profiles, profileByName, profileByCmdline)
    }

    constructor ()
      ensures View() == NO_ASSIGNMENTS
    {
      conditions, exceptionsByName, exceptionsByCmdline, exceptionsConditions := map[], {}, {}, [];
      profiles, profileByName, profileByCmdline := map[], map[], map[];
    }

    method AssignByCondition(name: string, condition: Condition, profile: Profile, included: bool)
      modifies this`conditions
      ensures conditions == old(conditions)[name :=
                var known := if name in old(conditions) then old(conditions)[name] else ConditionedProfile(profile, []);
                known.(rules := known.rules + [Rule(condition, included)])]
    {
      if name !in conditions {
        conditions := conditions[name := ConditionedProfile(profile, [])];
      }
      conditions := conditions[name := conditions[name].(rules := conditions[name].rules + [Rule(condition, included)])];
    }

    /** Reads a rule's properties: those of a profile into the profile, the rest into the condition. */
    method ReadRule(base: Profile, entries: seq<Entry>) returns (profile: Profile, condition: Condition)
      ensures profile == ParseProperties(base, entries) && condition == ConditionOf(entries)
    {
      profile, condition := base, NO_CONDITION;
      for i := 0 to |entries|
        invariant profile == ParseProperties(base, entries[..i]) && condition == ConditionOf(entries[..i])
      {
        assert entries[..i + 1][..i] == entries[..i];
        var e := entries[i];
        if e.name == Some("io") || e.name == Some("nice") || e.name == Some("sched") {
          profile := ParseProperty(profile, e);
        } else {
          condition := AddToCondition(condition, e);
        }
      }
      assert entries[..|entries|] == entries;
    }

    /** Parses an assignments node. */
    method Parse(node: Node)
      modifies this
      ensures View() == ParseProfileNodes(old(View()), PatternsOf(node))
    {
      if node.children.None? {
        return;
      }
      var document := node.children.value;
      for i := 0 to |document|
        invariant View() == ParseProfileNodes(old(View()), document[..i])
      {
        assert document[..i + 1][..i] == document[..i];
        ParseProfile(document[i]);
      }
      assert document[..|document|] == document;
    }

    method ParseProfile(node: Node)
      modifies this
      ensures View() == ParseProfileNode(old(View()), node)
    {
      hide ParsePattern;
      var name := node.name;
      var exists_ := name in profiles;
      var profile := if exists_ then profiles[name] else NewProfile(name);
      profile := ParseProperties(profile, node.entries);
      if !exists_ {
        profiles := profiles[name := profile];
      }
      var patterns := PatternsOf(node);
      ghost var a1 := View();
      for i := 0 to |patterns|
        invariant View() == ParsePatterns(a1, name, profile, patterns[..i])
      {
        assert patterns[..i + 1][..i] == patterns[..i];
        ParseAssignment(name, profile, patterns[i]);
      }
      assert patterns[..|patterns|] == patterns;
    }

    method ParseAssignment(name: string, base: Profile, pattern: Node)
      modifies this`conditions, this`profileByName, this`profileByCmdline
      ensures View() == ParsePattern(old(View()), name, base, pattern)
    {
      if IsRule(pattern) {
        var profile, condition := ReadRule(base, pattern.entries);
        var hasCondition := condition.cgroup.Some? || condition.descends.Some? || condition.name.Some? || condition.parent != [];
        if hasCondition {
          AssignByCondition(name, condition, profile, pattern.name == "include");
        }
      } else {
        var profile := ParseProperties(base, pattern.entries);
        if IsCmdline(pattern.name) {
          profileByCmdline := profileByCmdline[pattern.name := profile];
        } else {
          profileByName := profileByName[pattern.name := profile];
        }
      }
    }

    /** Parses an exceptions node. */
    method ParseExceptions(node: Node)
      modifies this`exceptionsByName, this`exceptionsByCmdline, this`exceptionsConditions
      ensures exceptionsConditions == old(exceptionsConditions) + ExceptionConditions(PatternsOf(node))
      ensures exceptionsByCmdline == old(exceptionsByCmdline) + ExceptionNames(PatternsOf(node), true)
      ensures exceptionsByName == old(exceptionsByName) + ExceptionNames(PatternsOf(node), false)
    {
      hide ExceptionNames, ExceptionConditions, ExceptionOf, PatternsOf, IsCmdline;
      var nodes := PatternsOf(node);
      NoExceptions(nodes);
      for i := 0 to |nodes|
        invariant exceptionsConditions == old(exceptionsConditions) + ExceptionConditions(nodes[..i])
        invariant exceptionsByCmdline == old(exceptionsByCmdline) + ExceptionNames(nodes[..i], true)
        invariant exceptionsByName == old(exceptionsByName) + ExceptionNames(nodes[..i], false)
      {
        ExceptionsMore(nodes, i);
        var exception := nodes[i];
        if exception.name == "include" {
          exceptionsConditions := exceptionsConditions + [ExceptionOf(exception.entries)];
        } else if IsCmdline(exception.name) {
          exceptionsByCmdline := exceptionsByCmdline + {exception.name};
        } else {
          exceptionsByName := exceptionsByName + {exception.name};
        }
      }
      assert nodes[..|nodes|] == nodes;
    }
  }

  /** The command lines, or else the names, that are excepted unconditionally. */
  ghost function ExceptionNames(nodes: seq<Node>, cmdlines: bool): set<string> {
    set n | n in nodes && n.name != "include" && IsCmdline(n.name) == cmdlines :: n.name
  }

  lemma NoExceptions(nodes: seq<Node>)
    ensures ExceptionConditions(nodes[..0]) == [] && forall cmdlines :: ExceptionNames(nodes[..0], cmdlines) == {}
  {
  }

  lemma ExceptionsMore(nodes: seq<Node>, i: nat)
    requires i < |nodes|
    ensures var n := nodes[i];
            && ExceptionConditions(nodes[..i + 1]) ==
               ExceptionConditions(nodes[..i]) + (if n.name == "include" then [ExceptionOf(n.entries)] else [])
            && forall cmdlines :: ExceptionNames(nodes[..i + 1], cmdlines) ==
                 ExceptionNames(nodes[..i], cmdlines) +
                 if n.name != "include" && IsCmdline(n.name) == cmdlines then {n.name} else {}
  {
    assert nodes[..i + 1] == nodes[..i] + [nodes[i]] && nodes[..i + 1][..i] == nodes[..i];
  }

  /** The condition of an exception: a property that is no string leaves it as it is. */
  function ExceptionOf(entries: seq<Entry>): Condition {
    if entries == [] then NO_CONDITION
    else
      var c, e := ExceptionOf(entries[..|entries| - 1]), entries[|entries| - 1];
      if MatchOf(e).None? || e.name == Some("name") then c else AddToCondition(c, e)
  }

  function ExceptionConditions(nodes: seq<Node>): seq<Condition> {
    if nodes == [] then []
    else
      ExceptionConditions(nodes[..|nodes| - 1]) +
      if nodes[|nodes| - 1].name == "include" then [ExceptionOf(nodes[|nodes| - 1].entries)] else []
  }
}
