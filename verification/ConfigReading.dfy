/** From the assignment tables to the configuration the service runs with. */
module ConfigReading {
  import opened Basics
  import opened Scheduler
  import opened ConfigParser
  import opened ConfigTables
  import opened Engine
  import opened EngineInvariants
  import opened Agreement
  import opened WholeRuns
  import opened Partitions
  import opened RefreshAgreement
  import opened ProcessTable
  import opened Refresh
  import opened Classification

  function Lookup(profiles: map<string, Profile>, name: string): Option<Profile> {
    if name in profiles then Some(profiles[name]) else None
  }

  /** The profiles with a meaning of their own are taken out of the table. */
  function ReadConfig(a: Assignments, order: seq<string>, wild: (string, string) -> bool): SchedulerConfig {
    var background, foreground := Lookup(a.profiles, "background"), Lookup(a.profiles, "foreground");
    SchedulerConfig(
      a.(profiles := a.profiles - {"background", "foreground", "pipewire"}),
      order,
      if background.Some? && foreground.Some? then Some(ForegroundAssignments(background.value, foreground.value)) else None,
      Lookup(a.profiles, "pipewire"),
      wild)
  }

  /**
   * Foreground management is on exactly if both of its profiles are declared, pipewire
   * management exactly if its profile is; they have the properties of their first declaration.
   */
  lemma ConfiguredByDeclaration(nodes: seq<Node>, order: seq<string>, wild: (string, string) -> bool)
    ensures var c := ReadConfig(ParseProfileNodes(NO_ASSIGNMENTS, nodes), order, wild);
            && c.foreground == (if FirstDeclaration(nodes, "background").Some? && FirstDeclaration(nodes, "foreground").Some?
                                then Some(ForegroundAssignments(Declared(nodes, "background"), Declared(nodes, "foreground"))) else None)
            && c.pipewire == (if FirstDeclaration(nodes, "pipewire").Some? then Some(Declared(nodes, "pipewire")) else None)
  {
    FirstDeclarationStays(nodes);
    hide FirstDeclaration, Declared, ParseProfileNodes;
  }

  lemma ReadProfilesAreNamed(nodes: seq<Node>, order: seq<string>, wild: (string, string) -> bool)
    ensures ProfilesNamed(ReadConfig(ParseProfileNodes(NO_ASSIGNMENTS, nodes), order, wild))
  {
    ConfiguredByDeclaration(nodes, order, wild);
    DeclaredHasName(nodes, "background");
    DeclaredHasName(nodes, "foreground");
    DeclaredHasName(nodes, "pipewire");
    hide ReadConfig, FirstDeclaration, Declared, ParseProfileNodes;
  }

  /** In a configuration that was read, the profiles the engine switches between always differ, whichever it has. */
  lemma ReadProfilesAreDistinct(nodes: seq<Node>, order: seq<string>, wild: (string, string) -> bool)
    ensures DistinctProfiles(ReadConfig(ParseProfileNodes(NO_ASSIGNMENTS, nodes), order, wild))
  {
    ReadProfilesAreNamed(nodes, order, wild);
    hide ReadConfig, ParseProfileNodes;
    var names := ["pipewire", "foreground", "background", "default"];
    assert names[0][0] != names[1][0] && names[0][0] != names[2][0] && names[0][0] != names[3][0];
    assert names[1][0] != names[2][0] && names[1][0] != names[3][0] && names[2][0] != names[3][0];
    assert NewProfile("default").name == "default";
  }

  /**
   * Hence, with any configuration that was read, a removal from the pipewire list keeps the
   * agreement exactly when it is clean.
   */
  lemma ReadRemovalAgreesExactly(nodes: seq<Node>, order: seq<string>, wild: (string, string) -> bool, s: State, env: Env, pid: Pid)
    requires s.config == ReadConfig(ParseProfileNodes(NO_ASSIGNMENTS, nodes), order, wild)
    requires WellFormed(s) && UniquePids(s.table.cells) && ForegroundListed(s) && ValidEnv(env) && Agrees(s)
    requires pid in s.pipewireProcesses
    ensures Agrees(RemovePipewire(s, env, pid)) <==> CleanRemoval(s, pid)
  {
    ReadProfilesAreDistinct(nodes, order, wild);
    hide WellFormed, UniquePids, ForegroundListed, ValidEnv, Agrees, RemovePipewire, CleanRemoval, ReadConfig,
         DistinctProfiles;
    RemovalIsCleanExactly(s, env, pid);
  }

  lemma SidesDiffer(c: SchedulerConfig, before: Option<bool>, front: bool)
    requires DistinctProfiles(c) && c.foreground.Some?
    ensures Given(c.foreground.value, before) == OnSide(c.foreground.value, front) <==> before == Some(front)
    ensures NewProfile("default") != OnSide(c.foreground.value, front)
  {
  }

  /**
   * And a refresh over a readable listing brings the agreement about exactly when there is no
   * foreground process or no foreground management, or whatever the partition passes over was on
   * its side of the foreground before, which no process is that only the scan has found.
   */
  lemma ReadRefreshAgreesExactly(nodes: seq<Node>, order: seq<string>, wild: (string, string) -> bool, s: State, env: Env)
    requires s.config == ReadConfig(ParseProfileNodes(NO_ASSIGNMENTS, nodes), order, wild)
    requires WellFormed(s) && ValidEnv(env) && env.listing.Some?
    ensures Agrees(ProcessMapRefresh(s, env)) <==>
              || s.foreground.None?
              || s.config.foreground.None?
              || (&& (forall pid :: pid in env.listing.value && IsListed(env, pid)
                                    && AssignableWhenRead(s, env, RecordOf(env, pid, false))
                                    && PassedOverWhenRead(s, env, RecordOf(env, pid, false)) ==>
                                      SideBefore(s, env, pid, !Findable(s.table, RecordOf(env, pid, false))) ==
                                      Some(FrontAfter(s, env, RecordOf(env, pid, false))))
                  && (forall r :: r in Scanned(s, env).table.cells && PassedOver(Scanned(s, env), r) ==>
                                    IsListed(env, Scanned(s, env).table.cells[r].id)))
  {
    ReadProfilesAreDistinct(nodes, order, wild);
    hide WellFormed, ValidEnv, Agrees, ProcessMapRefresh, ReadConfig, Scanned, AssignableWhenRead,
         PassedOverWhenRead, SideBefore, Findable, FrontAfter, PassedOver, NowInFront, RecordOf, IsListed;
    RefreshAgreesExactly(s, env);
    if s.config.foreground.Some? {
      forall before, front
        ensures Given(s.config.foreground.value, before) == OnSide(s.config.foreground.value, front) <==> before == Some(front)
        ensures NewProfile("default") != OnSide(s.config.foreground.value, front)
      {
        SidesDiffer(s.config, before, front);
      }
      hide DistinctProfiles, Given, OnSide;
    }
  }

  /**
   * And a reload keeps the agreement exactly when, for every assignable process, the pipewire profile
   * stays declared as it was if the process is held for it, and that of its side otherwise.
   */
  lemma ReadReloadAgreesExactly(nodes: seq<Node>, order: seq<string>, wild: (string, string) -> bool,
                                newNodes: seq<Node>, newOrder: seq<string>, newWild: (string, string) -> bool, s: State)
    requires s.config == ReadConfig(ParseProfileNodes(NO_ASSIGNMENTS, nodes), order, wild) && Agrees(s)
    ensures var c := ReadConfig(ParseProfileNodes(NO_ASSIGNMENTS, newNodes), newOrder, newWild);
            Agrees(s.(config := c)) <==>
              forall r :: r in s.table.cells && s.table.cells[r].assignedPriority == Assignable ==>
                            ReloadKeeps(s, c, s.table.cells[r])
  {
    ReadProfilesAreNamed(nodes, order, wild);
    ReadProfilesAreNamed(newNodes, newOrder, newWild);
    hide Agrees, ReadConfig, ReloadKeeps, ProfilesNamed, ParseProfileNodes;
    NamedReloadAgreesExactly(s, ReadConfig(ParseProfileNodes(NO_ASSIGNMENTS, newNodes), newOrder, newWild));
  }

  // ---------------------------------------------------------------------------------------
  // Exceptions
  // ---------------------------------------------------------------------------------------

  /** The entry is a string property of that name. */
  ghost predicate Names(e: Entry, property: string) {
    MatchOf(e).Some? && e.name == Some(property)
  }

  /** The last entry that names an ancestor; earlier ones do not count. */
  ghost predicate LastDescends(entries: seq<Entry>, i: int) {
    0 <= i < |entries| && Names(entries[i], "descends") && forall j :: i < j < |entries| ==> !Names(entries[j], "descends")
  }

  /** No property names a parent, and the ancestor pattern that counts, if any, matches every text. */
  ghost predicate UnboundEntries(c: SchedulerConfig, entries: seq<Entry>) {
    && (forall e :: e in entries ==> !Names(e, "parent"))
    && (forall i, text :: LastDescends(entries, i) ==> Matches(c, MatchOf(entries[i]).value, text))
  }

  lemma {:induction false} ExceptionEntries(entries: seq<Entry>)
    ensures ExceptionOf(entries).parent == [] <==> forall e :: e in entries ==> !Names(e, "parent")
    ensures forall i :: LastDescends(entries, i) ==> ExceptionOf(entries).descends == MatchOf(entries[i])
    ensures ExceptionOf(entries).descends.Some? ==> exists i :: LastDescends(entries, i)
  {
    if entries != [] {
      var n := |entries| - 1;
      var init, last := entries[..n], entries[n];
      ExceptionEntries(init);
      assert forall e :: e in entries <==> e in init || e == last;
      assert "descends"[0] != "name"[0] && "descends"[0] != "cgroup"[0] && "descends"[0] != "parent"[0];
      assert "parent"[0] != "name"[0] && "parent"[0] != "cgroup"[0];
      LastDescendsMore(entries);
      if MatchOf(last).Some? {
        assert |ExceptionOf(init).parent + [MatchOf(last).value]| > 0;
      }
      assert Names(last, "parent") ==> last in entries;
      assert forall i :: LastDescends(init, i) ==> init[i] == entries[i];
      if Names(last, "descends") {
        assert LastDescends(entries, n);
      } else if ExceptionOf(init).descends.Some? {
        var i :| LastDescends(init, i);
        assert LastDescends(entries, i);
      }
      hide LastDescends;
    }
  }

  lemma LastDescendsMore(entries: seq<Entry>)
    requires entries != []
    ensures var n := |entries| - 1;
            if Names(entries[n], "descends") then forall i :: LastDescends(entries, i) <==> i == n
            else forall i :: LastDescends(entries, i) <==> LastDescends(entries[..n], i)
  {
    hide Names;
  }

  /**
   * Under a given configuration, an exception that was read applies to every process exactly when
   * no property of its node names a parent, nor an ancestor but by a pattern that matches every
   * text, whatever control group the node names.
   */
  lemma ReadExceptionExceptsAllExactly(c: SchedulerConfig, entries: seq<Entry>)
    ensures (forall t: Table, p: Process :: ExceptionMet(c, t, p, ExceptionOf(entries))) <==> UnboundEntries(c, entries)
  {
    hide ExceptionMet, ExceptionOf;
    UnboundIsRead(c, entries);
    ExceptsAllExactly(c, ExceptionOf(entries));
  }

  lemma UnboundIsRead(c: SchedulerConfig, entries: seq<Entry>)
    ensures Unbound(c, ExceptionOf(entries)) <==> UnboundEntries(c, entries)
  {
    hide ExceptionOf, Matches;
    ExceptionEntries(entries);
    if ExceptionOf(entries).descends.Some? {
      var i :| LastDescends(entries, i);
      forall text | UnboundEntries(c, entries)
        ensures Matches(c, ExceptionOf(entries).descends.value, text)
      {
        assert Matches(c, MatchOf(entries[i]).value, text);
      }
    }
  }

  /** So does an exception for the descendants of anything: a lone star also matches an empty former name. */
  lemma LoneStarExceptsAll(c: SchedulerConfig, t: Table, p: Process)
    requires forall text :: c.wild("*", text)
    ensures ExceptionMet(c, t, p, ExceptionOf([Entry(Some("descends"), None, Str("*"))]))
  {
    var e := Entry(Some("descends"), None, Str("*"));
    assert MatchOf(e) == Some(Is("*")) by { assert "*"[0] != '!'; }
    assert "descends"[0] != "parent"[0];
    assert forall i :: LastDescends([e], i) ==> [e][i] == e;
    hide ExceptionMet, ExceptionOf, LastDescends, MatchOf;
    assert UnboundEntries(c, [e]);
    ReadExceptionExceptsAllExactly(c, [e]);
  }

  lemma {:induction false} IncludeIsRead(nodes: seq<Node>, node: Node)
    requires node in nodes && node.name == "include"
    ensures ExceptionOf(node.entries) in ExceptionConditions(nodes)
  {
    var init, last := nodes[..|nodes| - 1], nodes[|nodes| - 1];
    if node in init {
      IncludeIsRead(init, node);
    } else {
      assert node == last;
    }
  }

  /** One such node among the exceptions leaves no process to be classified. */
  lemma UnboundNodeExceptsAll(nodes: seq<Node>, node: Node, c: SchedulerConfig, t: Table, p: Process)
    requires node in nodes && node.name == "include" && UnboundEntries(c, node.entries)
    requires forall condition :: condition in ExceptionConditions(nodes) ==> condition in c.assignments.exceptionsConditions
    ensures Classify(c, t, p) == Priority.Exception
  {
    IncludeIsRead(nodes, node);
    UnboundIsRead(c, node.entries);
    hide ExceptionOf, UnboundEntries;
    UnboundExceptionExceptsAll(c, t, p, ExceptionOf(node.entries));
  }
}
