/** What the properties of a profile come to, stated on the entries as they are written. */
module WrittenProfiles {
  import opened Basics
  import opened Scheduler
  import opened ConfigParser
  import opened ConfigTables

  // ---------------------------------------------------------------------------------------
  // Single entries
  // ---------------------------------------------------------------------------------------

  /** The scheduling policies by the names they are given in a document. */
  const POLICIES: map<string, SchedPolicy> :=
    map["batch" := Batch, "fifo" := Fifo, "idle" := IdlePolicy, "other" := Other, "rr" := Rr]

  /** A number between the bounds, or else the bound it has passed. */
  ghost predicate IsClamped(v: int, n: int, low: int, high: int) {
    low <= v <= high && (low <= n <= high ==> v == n) && (n > high ==> v == high) && (n < low ==> v == low)
  }

  /** The text that names the class or the policy: the type annotation if there is one, else the value. */
  ghost predicate Says(e: Entry, property: string, word: string) {
    e.name == Some(property) && if e.ty.Some? then e.ty == Some(word) else e.value == Str(word)
  }

  datatype Property = Niceness | IoClass | Policy | Priority

  /** A policy with a priority between 0 and 255 behind it. */
  ghost predicate StatesPriority(e: Entry) {
    e.name == Some("sched") && e.ty.Some? && e.ty.value in POLICIES && e.value.Int? && 0 <= e.value.number <= 255
  }

  ghost predicate StatesPolicy(e: Entry) {
    StatesPriority(e) || (e.name == Some("sched") && e.ty.None? && e.value.Str? && e.value.text in POLICIES)
  }

  ghost predicate States(e: Entry, k: Property) {
    match k
    case Niceness => e.name == Some("nice") && e.value.Int? && -128 <= e.value.number <= 127
    case IoClass => Says(e, "io", "idle") || Says(e, "io", "best-effort") || Says(e, "io", "realtime")
    case Policy => StatesPolicy(e)
    case Priority => StatesPriority(e)
  }

  /** The level is the number behind the class if that is one from 0 to 7, and 7 otherwise. */
  ghost predicate LevelIs(level: nat, e: Entry) {
    level == if e.value.Int? && 0 <= e.value.number <= 7 then e.value.number else 7
  }

  /** The profile has what the entry states: niceness and priority are moved between their bounds. */
  ghost predicate Has(p: Profile, e: Entry, k: Property) {
    match k
    case Niceness => e.value.Int? && p.nice.Some? && IsClamped(p.nice.value, e.value.number, -20, 19)
    case IoClass =>
      && (Says(e, "io", "idle") ==> p.io == Idle)
      && (Says(e, "io", "best-effort") ==> p.io.BestEffort? && LevelIs(p.io.level, e))
      && (Says(e, "io", "realtime") ==> p.io.Realtime? && LevelIs(p.io.level, e))
    case Policy =>
      && (e.ty.Some? ==> e.ty.value in POLICIES && p.schedPolicy == POLICIES[e.ty.value])
      && (e.ty.None? ==> e.value.Str? && e.value.text in POLICIES && p.schedPolicy == POLICIES[e.value.text])
    case Priority => e.value.Int? && IsClamped(p.schedPriority, e.value.number, 1, 99)
  }

  ghost predicate Same(p: Profile, q: Profile, k: Property) {
    match k
    case Niceness => p.nice == q.nice
    case IoClass => p.io == q.io
    case Policy => p.schedPolicy == q.schedPolicy
    case Priority => p.schedPriority == q.schedPriority
  }

  lemma PoliciesAreParsed(s: string)
    ensures ParsePolicy(s) == if s in POLICIES then Some(POLICIES[s]) else None
  {
    assert "batch"[0] != "fifo"[0] && "batch"[0] != "idle"[0] && "batch"[0] != "other"[0] && "batch"[0] != "rr"[0];
    assert "fifo"[0] != "idle"[0] && "fifo"[0] != "other"[0] && "fifo"[0] != "rr"[0];
    assert "idle"[0] != "other"[0] && "idle"[0] != "rr"[0] && "other"[0] != "rr"[0];
  }

  /** An entry changes the properties that it states, to what it states, and no others. */
  lemma OneEntryIs(p: Profile, e: Entry, k: Property)
    ensures var u := ParseProperty(p, e);
            u.name == p.name && if States(e, k) then Has(u, e, k) else Same(u, p, k)
  {
    assert "io"[0] != "nice"[0] && "io"[0] != "sched"[0] && "nice"[0] != "sched"[0];
    if e.name == Some("io") {
      IoEntryIs(p, e);
    } else if e.name == Some("sched") {
      if e.ty.Some? {
        PoliciesAreParsed(e.ty.value);
      } else if e.value.Str? {
        PoliciesAreParsed(e.value.text);
      }
      hide ParsePolicy;
    }
  }

  lemma IoEntryIs(p: Profile, e: Entry)
    requires e.name == Some("io")
    ensures var u := ParseIo(p, e);
            && u == p.(io := u.io)
            && (if States(e, IoClass) then Has(u, e, IoClass) else u.io == p.io)
  {
    assert "idle"[0] != "best-effort"[0] && "idle"[0] != "realtime"[0] && "best-effort"[0] != "realtime"[0];
  }

  // ---------------------------------------------------------------------------------------
  // All entries
  // ---------------------------------------------------------------------------------------

  /** The last entry that states a property: it has the final say. */
  ghost predicate LastStates(entries: seq<Entry>, k: Property, i: int) {
    0 <= i < |entries| && States(entries[i], k) && forall j :: i < j < |entries| ==> !States(entries[j], k)
  }

  ghost predicate NoneStates(entries: seq<Entry>, k: Property) {
    forall e :: e in entries ==> !States(e, k)
  }

  /** A property is as the last entry that states it says, and as in `p` if none does. */
  ghost predicate Follows(u: Profile, p: Profile, entries: seq<Entry>, k: Property) {
    && (forall i :: LastStates(entries, k, i) ==> Has(u, entries[i], k))
    && (NoneStates(entries, k) ==> Same(u, p, k))
  }

  /** Reading the properties of a node onto a profile. */
  lemma {:induction false} PropertiesAsWritten(p: Profile, entries: seq<Entry>)
    ensures ParseProperties(p, entries).name == p.name
    ensures forall k :: Follows(ParseProperties(p, entries), p, entries, k)
  {
    if entries != [] {
      hide ParseProperty, Follows;
      var n := |entries| - 1;
      var b := ParseProperties(p, entries[..n]);
      PropertiesAsWritten(p, entries[..n]);
      OneEntryIs(b, entries[n], Niceness);
      forall k ensures Follows(ParseProperties(p, entries), p, entries, k) {
        OneEntryIs(b, entries[n], k);
        OneMoreFollows(b, ParseProperties(p, entries), p, entries, k);
      }
    }
  }

  lemma OneMoreFollows(b: Profile, u: Profile, p: Profile, entries: seq<Entry>, k: Property)
    requires entries != []
    requires var n := |entries| - 1;
             && Follows(b, p, entries[..n], k)
             && if States(entries[n], k) then Has(u, entries[n], k) else Same(u, b, k)
    ensures Follows(u, p, entries, k)
  {
    hide States, Has;
    var n := |entries| - 1;
    if NoneStates(entries, k) {
      assert NoneStates(entries[..n], k);
    }
    forall i | LastStates(entries, k, i) ensures Has(u, entries[i], k) {
      if i < n {
        assert LastStates(entries[..n], k, i) && entries[..n][i] == entries[i];
        SameHas(b, u, entries[i], k);
      }
    }
  }

  lemma SameHas(b: Profile, u: Profile, e: Entry, k: Property)
    requires Has(b, e, k) && Same(u, b, k)
    ensures Has(u, e, k)
  {
  }

  /**
   * A profile as it is declared: what its entries state, and for the rest no niceness, the lowest
   * best-effort I/O level and the ordinary policy with priority 1.
   */
  lemma DeclaredAsWritten(nodes: seq<Node>, name: string)
    ensures var p := Declared(nodes, name);
            var entries := match FirstDeclaration(nodes, name) case Some(node) => node.entries case None => [];
            && p.name == name
            && (forall k :: Follows(p, Profile(name, None, BestEffort(7), Other, 1), entries, k))
            && (NoneStates(entries, Niceness) ==> p.nice == None)
            && (NoneStates(entries, IoClass) ==> p.io == BestEffort(7))
            && (NoneStates(entries, Policy) ==> p.schedPolicy == Other)
            && (NoneStates(entries, Priority) ==> p.schedPriority == 1)
  {
    var entries := match FirstDeclaration(nodes, name) case Some(node) => node.entries case None => [];
    PropertiesAsWritten(NewProfile(name), entries);
    var p := Declared(nodes, name);
    assert p == ParseProperties(NewProfile(name), entries);
    hide NoneStates, LastStates, Has;
    assert Follows(p, NewProfile(name), entries, Niceness) && Follows(p, NewProfile(name), entries, IoClass);
    assert Follows(p, NewProfile(name), entries, Policy) && Follows(p, NewProfile(name), entries, Priority);
  }
}
