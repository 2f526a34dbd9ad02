/** What the assignment tables hold after any number of assignments nodes. */
module ConfigTables {
  import opened Basics
  import opened Scheduler
  import opened ConfigParser

  // ---------------------------------------------------------------------------------------
  // Inheritance: what each mention of a profile starts from
  // ---------------------------------------------------------------------------------------

  ghost function FirstDeclaration(nodes: seq<Node>, name: string): Option<Node> {
    if nodes == [] then None
    else if nodes[0].name == name then Some(nodes[0])
    else FirstDeclaration(nodes[1..], name)
  }

  /** A profile as its first declaration leaves it. */
  ghost function Declared(nodes: seq<Node>, name: string): Profile {
    match FirstDeclaration(nodes, name)
    case Some(node) => ParseProperties(NewProfile(name), node.entries)
    case None => NewProfile(name)
  }

  /** The properties a mention of a profile assigns with: its own on top of the first declaration. */
  ghost function Base(nodes: seq<Node>, i: nat): Profile
    requires i < |nodes|
  {
    ParseProperties(Declared(nodes[..i], nodes[i].name), nodes[i].entries)
  }

  lemma {:induction false} PropertiesKeepName(p: Profile, entries: seq<Entry>)
    ensures ParseProperties(p, entries).name == p.name
  {
    if entries != [] {
      PropertiesKeepName(p, entries[..|entries| - 1]);
    }
  }

  lemma DeclaredHasName(nodes: seq<Node>, name: string)
    ensures Declared(nodes, name).name == name
  {
    if FirstDeclaration(nodes, name).Some? {
      PropertiesKeepName(NewProfile(name), FirstDeclaration(nodes, name).value.entries);
    }
  }

  lemma {:induction false} FirstDeclarationMore(nodes: seq<Node>, node: Node, name: string)
    ensures FirstDeclaration(nodes + [node], name) ==
            if FirstDeclaration(nodes, name).Some? then FirstDeclaration(nodes, name)
            else if node.name == name then Some(node) else None
  {
    if nodes == [] {
      assert [] + [node] == [node] && [node][1..] == [];
    } else {
      assert (nodes + [node])[1..] == nodes[1..] + [node];
      FirstDeclarationMore(nodes[1..], node, name);
    }
  }

  lemma {:induction false} PatternsKeepProfiles(a: Assignments, name: string, base: Profile, patterns: seq<Node>)
    ensures ParsePatterns(a, name, base, patterns).profiles == a.profiles
  {
    if patterns != [] {
      PatternsKeepProfiles(a, name, base, patterns[..|patterns| - 1]);
    }
  }

  /**
   * Over any sequence of profile nodes, the profile table holds exactly the names mentioned, each
   * as its first declaration left it; later declarations change nothing.
   */
  lemma {:induction false} FirstDeclarationStays(nodes: seq<Node>)
    ensures var profiles := ParseProfileNodes(NO_ASSIGNMENTS, nodes).profiles;
            forall name :: (name in profiles <==> FirstDeclaration(nodes, name).Some?)
                           && (name in profiles ==> profiles[name] == Declared(nodes, name))
  {
    if nodes != [] {
      var init, node := nodes[..|nodes| - 1], nodes[|nodes| - 1];
      FirstDeclarationStays(init);
      assert nodes == init + [node];
      var a := ParseProfileNodes(NO_ASSIGNMENTS, init);
      var base := ParseProperties(if node.name in a.profiles then a.profiles[node.name] else NewProfile(node.name), node.entries);
      var a1 := if node.name in a.profiles then a else a.(profiles := a.profiles[node.name := base]);
      PatternsKeepProfiles(a1, node.name, base, PatternsOf(node));
      hide ParseProperties, ParsePatterns;
      forall name
        ensures name in a1.profiles <==> FirstDeclaration(nodes, name).Some?
        ensures name in a1.profiles ==> a1.profiles[name] == Declared(nodes, name)
      {
        FirstDeclarationMore(init, node, name);
      }
    }
  }

  // ---------------------------------------------------------------------------------------
  // The documented inheritance
  // ---------------------------------------------------------------------------------------

  /** The entry sets the I/O class, whatever the profile held. */
  ghost predicate SetsIo(e: Entry) {
    e.name == Some("io") && (if e.ty.Some? then e.ty else AsString(e)) in {Some("idle"), Some("best-effort"), Some("realtime")}
  }

  ghost predicate SetsNice(e: Entry) {
    e.name == Some("nice") && AsI8(e).Some?
  }

  /** A policy stands alone as a string, or as the type of a priority. */
  ghost predicate SetsPolicy(e: Entry) {
    e.name == Some("sched") && if e.ty.Some? then SetsPriority(e) else AsString(e).Some? && ParsePolicy(AsString(e).value).Some?
  }

  ghost predicate SetsPriority(e: Entry) {
    e.name == Some("sched") && e.ty.Some? && ParsePolicy(e.ty.value).Some? && AsU8(e).Some?
  }

  /** The profiles agree in each property that no entry sets. */
  ghost predicate AgreeUnlessSet(p: Profile, q: Profile, entries: seq<Entry>) {
    && (p.io == q.io || exists e :: e in entries && SetsIo(e))
    && (p.nice == q.nice || exists e :: e in entries && SetsNice(e))
    && (p.schedPolicy == q.schedPolicy || exists e :: e in entries && SetsPolicy(e))
    && (p.schedPriority == q.schedPriority || exists e :: e in entries && SetsPriority(e))
  }

  lemma OnePropertyAgrees(p: Profile, q: Profile, e: Entry)
    ensures var u, v := ParseProperty(p, e), ParseProperty(q, e);
            && (u.io == v.io <==> p.io == q.io || SetsIo(e))
            && (u.nice == v.nice <==> p.nice == q.nice || SetsNice(e))
            && (u.schedPolicy == v.schedPolicy <==> p.schedPolicy == q.schedPolicy || SetsPolicy(e))
            && (u.schedPriority == v.schedPriority <==> p.schedPriority == q.schedPriority || SetsPriority(e))
            && u.name == p.name && v.name == q.name
  {
    assert "io"[0] != "nice"[0] && "io"[0] != "sched"[0] && "nice"[0] != "sched"[0];
  }

  /** Reading the same properties onto two profiles makes them equal exactly if they differed in nothing else. */
  lemma {:induction false} PropertiesAgree(p: Profile, q: Profile, entries: seq<Entry>)
    requires p.name == q.name
    ensures var u, v := ParseProperties(p, entries), ParseProperties(q, entries);
            && (u.io == v.io <==> p.io == q.io || exists e :: e in entries && SetsIo(e))
            && (u.nice == v.nice <==> p.nice == q.nice || exists e :: e in entries && SetsNice(e))
            && (u.schedPolicy == v.schedPolicy <==> p.schedPolicy == q.schedPolicy || exists e :: e in entries && SetsPolicy(e))
            && (u.schedPriority == v.schedPriority <==> p.schedPriority == q.schedPriority || exists e :: e in entries && SetsPriority(e))
            && u.name == v.name
  {
    hide SetsIo, SetsNice, SetsPolicy, SetsPriority, ParseProperty;
    if entries != [] {
      var init, last := entries[..|entries| - 1], entries[|entries| - 1];
      PropertiesAgree(p, q, init);
      OnePropertyAgrees(ParseProperties(p, init), ParseProperties(q, init), last);
      assert forall e :: e in entries <==> e in init || e == last;
    }
  }

  /** The node `j` is the last one before `i` that mentions the same profile. */
  ghost predicate PreviousMention(nodes: seq<Node>, j: nat, i: nat) {
    && j < i < |nodes| && nodes[j].name == nodes[i].name
    && forall k :: j < k < i ==> nodes[k].name != nodes[i].name
  }

  /**
   * A mention of a profile inherits from the previous mention, as documented, exactly when the first
   * declaration and the previous mention agree in every property that the mention itself does not set.
   */
  lemma InheritsPreviousExactly(nodes: seq<Node>, j: nat, i: nat)
    requires PreviousMention(nodes, j, i)
    ensures Base(nodes, i) == ParseProperties(Base(nodes, j), nodes[i].entries) <==>
              AgreeUnlessSet(Declared(nodes[..i], nodes[i].name), Base(nodes, j), nodes[i].entries)
  {
    DeclaredHasName(nodes[..i], nodes[i].name);
    DeclaredHasName(nodes[..j], nodes[j].name);
    PropertiesKeepName(Declared(nodes[..j], nodes[j].name), nodes[j].entries);
    hide Declared, ParseProperties, SetsIo, SetsNice, SetsPolicy, SetsPriority;
    PropertiesAgree(Declared(nodes[..i], nodes[i].name), Base(nodes, j), nodes[i].entries);
  }

  /** Declared with niceness 5, then mentioned with -5: a third, plain mention assigns with 5 again. */
  lemma ThirdMentionForgetsSecond(name: string)
    ensures var nice := (n: int) => Entry(Some("nice"), None, Int(n));
            var nodes := [Node(name, [nice(5)], None), Node(name, [nice(-5)], None), Node(name, [], None)];
            && PreviousMention(nodes, 1, 2)
            && Base(nodes, 1).nice == Some(-5) && Base(nodes, 2).nice == Some(5)
            && Base(nodes, 2) != ParseProperties(Base(nodes, 1), nodes[2].entries)
  {
    var first, second := Entry(Some("nice"), None, Int(5)), Entry(Some("nice"), None, Int(-5));
    var nodes := [Node(name, [first], None), Node(name, [second], None), Node(name, [], None)];
    assert "io"[0] != "nice"[0];
    assert nodes[..1][0] == nodes[0] && nodes[..2][0] == nodes[0];
    OneEntry(NewProfile(name), first);
    OneEntry(Declared(nodes[..1], name), second);
    assert Declared(nodes[..1], name) == Declared(nodes[..2], name) == ParseProperties(NewProfile(name), [first]);
  }

  lemma OneEntry(p: Profile, e: Entry)
    ensures ParseProperties(p, [e]) == ParseProperty(p, e)
  {
    assert [e][..0] == [];
    assert ParseProperties(p, []) == p;
  }

  // ---------------------------------------------------------------------------------------
  // Assignments in document order
  // ---------------------------------------------------------------------------------------

  /** One child of a profile node, with the name and the properties of that profile. */
  datatype Use = Use(profile: string, base: Profile, pattern: Node)

  ghost function UsesOf(name: string, base: Profile, patterns: seq<Node>): seq<Use> {
    if patterns == [] then []
    else UsesOf(name, base, patterns[..|patterns| - 1]) + [Use(name, base, patterns[|patterns| - 1])]
  }

  /** All children of all profile nodes in document order. */
  ghost function Uses(nodes: seq<Node>): seq<Use> {
    if nodes == [] then []
    else
      var last := |nodes| - 1;
      Uses(nodes[..last]) + UsesOf(nodes[last].name, Base(nodes, last), PatternsOf(nodes[last]))
  }

  ghost function ParseUses(a: Assignments, uses: seq<Use>): Assignments {
    if uses == [] then a
    else
      var use := uses[|uses| - 1];
      ParsePattern(ParseUses(a, uses[..|uses| - 1]), use.profile, use.base, use.pattern)
  }

  lemma {:induction false} ParseUsesConcat(a: Assignments, x: seq<Use>, y: seq<Use>)
    ensures ParseUses(a, x + y) == ParseUses(ParseUses(a, x), y)
  {
    hide ParsePattern;
    if y == [] {
      assert x + y == x;
    } else {
      ParseUsesConcat(a, x, y[..|y| - 1]);
      assert (x + y)[..|x + y| - 1] == x + y[..|y| - 1];
    }
  }

  lemma {:induction false} PatternsAsUses(a: Assignments, name: string, base: Profile, patterns: seq<Node>)
    ensures ParsePatterns(a, name, base, patterns) == ParseUses(a, UsesOf(name, base, patterns))
  {
    hide ParsePattern;
    if patterns != [] {
      var init := patterns[..|patterns| - 1];
      PatternsAsUses(a, name, base, init);
      var before := UsesOf(name, base, init);
      assert UsesOf(name, base, patterns)[..|before|] == before;
    }
  }

  lemma {:induction false} UsesIgnoreProfiles(a: Assignments, uses: seq<Use>, profiles: map<string, Profile>)
    ensures ParseUses(a.(profiles := profiles), uses) == ParseUses(a, uses).(profiles := profiles)
  {
    if uses != [] {
      UsesIgnoreProfiles(a, uses[..|uses| - 1], profiles);
      var use := uses[|uses| - 1];
      PatternIgnoresProfiles(ParseUses(a, uses[..|uses| - 1]), use, profiles);
      hide ParsePattern;
    }
  }

  lemma PatternIgnoresProfiles(a: Assignments, use: Use, profiles: map<string, Profile>)
    ensures ParsePattern(a.(profiles := profiles), use.profile, use.base, use.pattern) ==
            ParsePattern(a, use.profile, use.base, use.pattern).(profiles := profiles)
  {
    hide ParseProperties, RuleOf, IsConditioned;
  }

  /** Apart from the profile table, the tables result from the uses alone. */
  lemma {:induction false} NodesAsUses(nodes: seq<Node>)
    ensures var a := ParseProfileNodes(NO_ASSIGNMENTS, nodes);
            a == ParseUses(NO_ASSIGNMENTS, Uses(nodes)).(profiles := a.profiles)
  {
    if nodes != [] {
      var last := |nodes| - 1;
      var init, node := nodes[..last], nodes[last];
      NodesAsUses(init);
      FirstDeclarationStays(init);
      var a := ParseProfileNodes(NO_ASSIGNMENTS, init);
      var base := ParseProperties(if node.name in a.profiles then a.profiles[node.name] else NewProfile(node.name), node.entries);
      assert base == Base(nodes, last);
      var a1 := if node.name in a.profiles then a else a.(profiles := a.profiles[node.name := base]);
      var more := UsesOf(node.name, base, PatternsOf(node));
      hide ParseProperties, ParsePatterns, UsesOf, Base, Declared, ParseUses;
      PatternsAsUses(a1, node.name, base, PatternsOf(node));
      var b := ParseUses(NO_ASSIGNMENTS, Uses(init));
      assert a1 == b.(profiles := a1.profiles);
      UsesIgnoreProfiles(b, more, a1.profiles);
      ParseUsesConcat(NO_ASSIGNMENTS, Uses(init), more);
    }
  }

  /** The conditioned rules of one profile. */
  ghost function RuleUses(uses: seq<Use>, name: string): seq<Use> {
    if uses == [] then []
    else
      var before, use := RuleUses(uses[..|uses| - 1], name), uses[|uses| - 1];
      if use.profile == name && IsConditioned(use.pattern) then before + [use] else before
  }

  ghost function Rules(uses: seq<Use>): seq<Rule> {
    seq(|uses|, i requires 0 <= i < |uses| => RuleOf(uses[i].pattern))
  }

  /** What a table of conditioned profiles should hold for a profile with these rules. */
  ghost predicate HoldsRules(conditions: map<string, ConditionedProfile>, name: string, rules: seq<Use>) {
    && (name in conditions <==> rules != [])
    && (rules != [] && name in conditions ==>
          conditions[name] == ConditionedProfile(ParseProperties(rules[0].base, rules[0].pattern.entries), Rules(rules)))
  }

  lemma {:induction false} UsesFillConditions(uses: seq<Use>, name: string)
    ensures HoldsRules(ParseUses(NO_ASSIGNMENTS, uses).conditions, name, RuleUses(uses, name))
  {
    if uses != [] {
      var init, use := uses[..|uses| - 1], uses[|uses| - 1];
      UsesFillConditions(init, name);
      UseFillsConditions(ParseUses(NO_ASSIGNMENTS, init), use, name, RuleUses(init, name));
      hide ParsePattern, HoldsRules;
    }
  }

  lemma UseFillsConditions(a: Assignments, use: Use, name: string, rules: seq<Use>)
    requires HoldsRules(a.conditions, name, rules)
    ensures HoldsRules(ParsePattern(a, use.profile, use.base, use.pattern).conditions, name,
                       if use.profile == name && IsConditioned(use.pattern) then rules + [use] else rules)
  {
    hide ParseProperties, RuleOf;
    if use.profile == name && IsConditioned(use.pattern) {
      assert Rules(rules + [use]) == Rules(rules) + [RuleOf(use.pattern)];
    }
  }

  /**
   * Over any sequence of profile nodes, a profile is conditioned exactly if one of its rules
   * states a condition; it is assigned with the properties of the first such rule, and keeps
   * all of them in document order.
   */
  lemma ConditionsAreExact(nodes: seq<Node>, name: string)
    ensures HoldsRules(ParseProfileNodes(NO_ASSIGNMENTS, nodes).conditions, name, RuleUses(Uses(nodes), name))
  {
    NodesAsUses(nodes);
    UsesFillConditions(Uses(nodes), name);
    hide HoldsRules, RuleUses, ParseUses, Uses, ParseProfileNodes;
  }

  /** The last use whose pattern names a process or command line. */
  ghost function LastUse(uses: seq<Use>, key: string): Option<Use> {
    if uses == [] then None
    else
      var use := uses[|uses| - 1];
      if !IsRule(use.pattern) && use.pattern.name == key then Some(use) else LastUse(uses[..|uses| - 1], key)
  }

  ghost predicate HoldsLast(table: map<string, Profile>, key: string, use: Option<Use>) {
    && (key in table <==> use.Some?)
    && (key in table && use.Some? ==> table[key] == ParseProperties(use.value.base, use.value.pattern.entries))
  }

  lemma {:induction false} UsesFillNames(uses: seq<Use>, key: string)
    ensures var a := ParseUses(NO_ASSIGNMENTS, uses);
            if IsCmdline(key) then HoldsLast(a.profileByCmdline, key, LastUse(uses, key)) && key !in a.profileByName
            else HoldsLast(a.profileByName, key, LastUse(uses, key)) && key !in a.profileByCmdline
  {
    if uses != [] {
      UsesFillNames(uses[..|uses| - 1], key);
      hide ParseProperties;
    }
  }

  /** A process name or command line has the profile of its last mention, in the table for its kind. */
  lemma LastMentionWins(nodes: seq<Node>, key: string)
    ensures var a := ParseProfileNodes(NO_ASSIGNMENTS, nodes);
            if IsCmdline(key) then HoldsLast(a.profileByCmdline, key, LastUse(Uses(nodes), key)) && key !in a.profileByName
            else HoldsLast(a.profileByName, key, LastUse(Uses(nodes), key)) && key !in a.profileByCmdline
  {
    NodesAsUses(nodes);
    UsesFillNames(Uses(nodes), key);
    hide HoldsLast, LastUse, ParseUses, Uses, ParseProfileNodes;
  }

  /** Reading several documents is reading their profile nodes one after the other. */
  lemma {:induction false} DocumentsAreNodes(documents: seq<Node>)
    ensures ParseDocuments(NO_ASSIGNMENTS, documents) == ParseProfileNodes(NO_ASSIGNMENTS, ProfileNodes(documents))
  {
    hide ParseProfileNode;
    if documents != [] {
      var init := documents[..|documents| - 1];
      DocumentsAreNodes(init);
      NodesConcat(NO_ASSIGNMENTS, ProfileNodes(init), PatternsOf(documents[|documents| - 1]));
    }
  }

  lemma {:induction false} NodesConcat(a: Assignments, x: seq<Node>, y: seq<Node>)
    ensures ParseProfileNodes(a, x + y) == ParseProfileNodes(ParseProfileNodes(a, x), y)
  {
    hide ParseProfileNode;
    if y == [] {
      assert x + y == x;
    } else {
      NodesConcat(a, x, y[..|y| - 1]);
      assert (x + y)[..|x + y| - 1] == x + y[..|y| - 1];
    }
  }

  // ---------------------------------------------------------------------------------------
  // Ranges
  // ---------------------------------------------------------------------------------------

  /** What the kernel accepts. */
  ghost predicate InRange(p: Profile) {
    && (p.nice.Some? ==> -20 <= p.nice.value <= 19)
    && 1 <= p.schedPriority <= 99
    && (p.io.BestEffort? || p.io.Realtime? ==> p.io.level <= 7)
  }

  ghost predicate AllInRange(a: Assignments) {
    && (forall k :: k in a.profiles ==> InRange(a.profiles[k]))
    && (forall k :: k in a.conditions ==> InRange(a.conditions[k].profile))
    && (forall k :: k in a.profileByName ==> InRange(a.profileByName[k]))
    && (forall k :: k in a.profileByCmdline ==> InRange(a.profileByCmdline[k]))
  }

  lemma {:induction false} PropertiesInRange(p: Profile, entries: seq<Entry>)
    requires InRange(p)
    ensures InRange(ParseProperties(p, entries))
  {
    if entries != [] {
      PropertiesInRange(p, entries[..|entries| - 1]);
    }
  }

  lemma {:induction false} PatternsInRange(a: Assignments, name: string, base: Profile, patterns: seq<Node>)
    requires AllInRange(a) && InRange(base)
    ensures AllInRange(ParsePatterns(a, name, base, patterns))
  {
    if patterns != [] {
      var pattern := patterns[|patterns| - 1];
      PatternsInRange(a, name, base, patterns[..|patterns| - 1]);
      PropertiesInRange(base, pattern.entries);
      hide InRange, ParseProperties, IsConditioned, RuleOf;
    }
  }

  /** Whatever the documents say, every profile the tables can assign is in range. */
  lemma {:induction false} ReachableProfilesInRange(nodes: seq<Node>)
    ensures AllInRange(ParseProfileNodes(NO_ASSIGNMENTS, nodes))
  {
    if nodes != [] {
      var init, node := nodes[..|nodes| - 1], nodes[|nodes| - 1];
      ReachableProfilesInRange(init);
      var a := ParseProfileNodes(NO_ASSIGNMENTS, init);
      var start := if node.name in a.profiles then a.profiles[node.name] else NewProfile(node.name);
      assert InRange(start);
      PropertiesInRange(start, node.entries);
      var base := ParseProperties(start, node.entries);
      hide InRange, ParseProperties, ParsePatterns;
      var a1 := if node.name in a.profiles then a else a.(profiles := a.profiles[node.name := base]);
      PatternsInRange(a1, node.name, base, PatternsOf(node));
    }
  }
}
