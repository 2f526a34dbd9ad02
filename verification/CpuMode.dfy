/**
 * The CPU mode protocol: D-Bus calls write a mode and queue a notice, and the daemon acts on a
 * notice by the mode and the profile name it finds when it gets to it.
 */
module CpuMode {
  import opened Basics

  datatype CfsProfile = CfsProfile(latency: nat, nrLatency: nat, wakeupGranularity: real, bandwidthSize: nat, preempt: string)

  const PROFILE_DEFAULT := CfsProfile(6, 8, 1.0, 5, "voluntary")
  const PROFILE_RESPONSIVE := CfsProfile(4, 10, 0.5, 3, "full")

  datatype CpuMode = Auto | Custom | Default | Responsive

  datatype Notice = OnBattery(onBattery: bool) | SetCpuMode | SetCustomCpuMode

  /**
   * `changes` are battery changes that happened and are not queued yet; `queue` is the daemon's
   * channel. `applied` is the profile last written to the kernel.
   */
  datatype State = State(
    enable: bool,
    profiles: map<string, CfsProfile>,
    mode: CpuMode,
    profile: string,
    onBattery: bool,
    changes: seq<bool>,
    queue: seq<Notice>,
    applied: Option<CfsProfile>)

  function DefaultProfile(profiles: map<string, CfsProfile>): CfsProfile {
    if "default" in profiles then profiles["default"] else PROFILE_DEFAULT
  }

  function ResponsiveProfile(profiles: map<string, CfsProfile>): CfsProfile {
    if "responsive" in profiles then profiles["responsive"] else PROFILE_RESPONSIVE
  }

  function BatteryProfile(profiles: map<string, CfsProfile>, onBattery: bool): CfsProfile {
    if onBattery then DefaultProfile(profiles) else ResponsiveProfile(profiles)
  }

  function Apply(s: State, p: CfsProfile): State {
    if s.enable then s.(applied := Some(p)) else s
  }

  /** The daemon's reaction to a notice. */
  function React(s: State, notice: Notice): State {
    match notice
    case OnBattery(onBattery) => if s.mode == Auto then Apply(s, BatteryProfile(s.profiles, onBattery)) else s
    case SetCpuMode =>
      (match s.mode
       case Auto => Apply(s, BatteryProfile(s.profiles, s.onBattery))
       case Default => Apply(s, DefaultProfile(s.profiles))
       case Responsive => Apply(s, ResponsiveProfile(s.profiles))
       case Custom => s)
    case SetCustomCpuMode => if s.profile in s.profiles then Apply(s, s.profiles[s.profile]) else s
  }

  // ---------------------------------------------------------------------------------------
  // Actions
  // ---------------------------------------------------------------------------------------

  datatype Action =
    | CallSetCpuMode(mode: CpuMode)
    | CallSetCpuProfile(name: string)
    | BatteryChanges(onBattery: bool)
    | QueueBatteryChange
    | HandleNotice

  function SetMode(s: State, mode: CpuMode): State {
    s.(mode := mode, queue := s.queue + [SetCpuMode])
  }

  function SetProfile(s: State, name: string): State {
    var s1 := s.(profile := name);
    if name == "auto" then SetMode(s1, Auto)
    else if name == "default" then SetMode(s1, Default)
    else if name == "responsive" then SetMode(s1, Responsive)
    else if name == "" then s1
    else s1.(mode := Custom, queue := s.queue + [SetCustomCpuMode])
  }

  function Act(s: State, action: Action): State {
    match action
    case CallSetCpuMode(mode) => SetMode(s, mode)
    case CallSetCpuProfile(name) => SetProfile(s, name)
    case BatteryChanges(onBattery) => s.(onBattery := onBattery, changes := s.changes + [onBattery])
    case QueueBatteryChange =>
      if s.changes == [] then s else s.(changes := s.changes[1..], queue := s.queue + [OnBattery(s.changes[0])])
    case HandleNotice =>
      if s.queue == [] then s else React(s.(queue := s.queue[1..]), s.queue[0])
  }

  /** The daemon has applied the profile for the battery state before it serves any call. */
  function Start(profiles: map<string, CfsProfile>, onBattery: bool): State {
    var s := State(true, profiles, Auto, "auto", onBattery, [], [], None);
    Apply(s, BatteryProfile(s.profiles, onBattery))
  }

  function Run(s: State, actions: seq<Action>): State {
    if actions == [] then s else Act(Run(s, actions[..|actions| - 1]), actions[|actions| - 1])
  }

  // ---------------------------------------------------------------------------------------
  // Where the state is heading
  // ---------------------------------------------------------------------------------------

  /** Everything that is still to be handled, in order. */
  function Pending(s: State): seq<Notice> {
    s.queue + Notices(s.changes)
  }

  function Notices(changes: seq<bool>): seq<Notice> {
    if changes == [] then [] else [OnBattery(changes[0])] + Notices(changes[1..])
  }

  /** The profile that the mode calls for. */
  function Target(s: State): CfsProfile
    requires s.mode != Custom
  {
    match s.mode
    case Auto => BatteryProfile(s.profiles, s.onBattery)
    case Default => DefaultProfile(s.profiles)
    case Responsive => ResponsiveProfile(s.profiles)
  }

  /**
   * Starting from an applied profile, handling the notices ends with the one the mode calls
   * for, whatever profile names the custom notices among them may find.
   */
  ghost predicate Obeys(s: State, applied: Option<CfsProfile>, notices: seq<Notice>)
    requires s.mode != Custom
    decreases |notices|
  {
    if notices == [] then applied == Some(Target(s))
    else
      match notices[0]
      case SetCpuMode => Obeys(s, Some(Target(s)), notices[1..])
      case OnBattery(b) => Obeys(s, if s.mode == Auto then Some(BatteryProfile(s.profiles, b)) else applied, notices[1..])
      case SetCustomCpuMode => forall found :: Obeys(s, found, notices[1..])
  }

  /** The mode will be obeyed, and battery changes still to be queued end with the present one. */
  ghost predicate Heading(s: State) {
    && s.enable
    && (s.changes != [] ==> s.changes[|s.changes| - 1] == s.onBattery)
    && (s.mode != Custom ==> Obeys(s, s.applied, Pending(s)))
  }

  /** If the end of a list is obeyed from anywhere, so is the whole list. */
  lemma {:induction false} ObeysInTheEnd(s: State, applied: Option<CfsProfile>, a: seq<Notice>, b: seq<Notice>)
    requires s.mode != Custom && forall found :: Obeys(s, found, b)
    ensures Obeys(s, applied, a + b)
    decreases |a|
  {
    if a == [] {
      assert a + b == b;
    } else {
      assert (a + b)[1..] == a[1..] + b;
      forall found
        ensures Obeys(s, found, a[1..] + b)
      {
        ObeysInTheEnd(s, found, a[1..], b);
      }
    }
  }

  /** Battery notices that end with the present state lead to what the mode calls for. */
  lemma {:induction false} BatteryNoticesObey(s: State, applied: Option<CfsProfile>, changes: seq<bool>)
    requires s.mode != Custom
    requires changes != [] ==> changes[|changes| - 1] == s.onBattery
    requires applied == Some(Target(s)) || (s.mode == Auto && changes != [])
    ensures Obeys(s, applied, Notices(changes))
    decreases |changes|
  {
    if changes != [] {
      assert Notices(changes)[1..] == Notices(changes[1..]);
      BatteryNoticesObey(s, if s.mode == Auto then Some(BatteryProfile(s.profiles, changes[0])) else applied, changes[1..]);
    }
  }

  /** What obedience depends on. */
  lemma {:induction false} ObeysAlike(s: State, u: State, applied: Option<CfsProfile>, notices: seq<Notice>)
    requires s.mode != Custom && u.mode == s.mode && u.profiles == s.profiles && Target(u) == Target(s)
    requires Obeys(s, applied, notices)
    ensures Obeys(u, applied, notices)
    decreases |notices|
  {
    if notices != [] {
      match notices[0]
      case SetCpuMode => ObeysAlike(s, u, Some(Target(s)), notices[1..]);
      case OnBattery(b) => ObeysAlike(s, u, if s.mode == Auto then Some(BatteryProfile(s.profiles, b)) else applied, notices[1..]);
      case SetCustomCpuMode =>
        forall found
          ensures Obeys(u, found, notices[1..])
        {
          ObeysAlike(s, u, found, notices[1..]);
        }
    }
  }

  /** Outside automatic mode one more battery notice does no harm. */
  lemma {:induction false} ObeysWithBattery(s: State, applied: Option<CfsProfile>, notices: seq<Notice>, b: bool)
    requires s.mode != Custom && s.mode != Auto && Obeys(s, applied, notices)
    ensures Obeys(s, applied, notices + [OnBattery(b)])
    decreases |notices|
  {
    if notices == [] {
      assert [] + [OnBattery(b)] == [OnBattery(b)] && [OnBattery(b)][1..] == [];
    } else {
      assert (notices + [OnBattery(b)])[1..] == notices[1..] + [OnBattery(b)];
      match notices[0]
      case SetCpuMode => ObeysWithBattery(s, Some(Target(s)), notices[1..], b);
      case OnBattery(c) => ObeysWithBattery(s, applied, notices[1..], b);
      case SetCustomCpuMode =>
        forall found
          ensures Obeys(s, found, notices[1..] + [OnBattery(b)])
        {
          ObeysWithBattery(s, found, notices[1..], b);
        }
    }
  }

  lemma {:induction false} NoticesMore(changes: seq<bool>, b: bool)
    ensures Notices(changes + [b]) == Notices(changes) + [OnBattery(b)]
  {
    if changes == [] {
      assert [] + [b] == [b] && [b][1..] == [];
    } else {
      NoticesMore(changes[1..], b);
      assert (changes + [b])[1..] == changes[1..] + [b];
    }
  }

  lemma ModeIsObeyed(s: State, mode: CpuMode)
    requires s.enable && mode != Custom
    requires s.changes != [] ==> s.changes[|s.changes| - 1] == s.onBattery
    ensures Heading(SetMode(s, mode))
  {
    hide Obeys, Notices, Target;
    var u := SetMode(s, mode);
    var last := [SetCpuMode] + Notices(s.changes);
    BatteryNoticesObey(u, Some(Target(u)), s.changes);
    forall found
      ensures Obeys(u, found, last)
    {
      ModeNoticeObeyed(u, found, Notices(s.changes));
    }
    ObeysInTheEnd(u, u.applied, s.queue, last);
    assert Pending(u) == s.queue + last;
  }

  lemma ModeNoticeObeyed(s: State, found: Option<CfsProfile>, notices: seq<Notice>)
    requires s.mode != Custom && Obeys(s, Some(Target(s)), notices)
    ensures Obeys(s, found, [SetCpuMode] + notices)
  {
    assert ([SetCpuMode] + notices)[1..] == notices;
  }

  lemma BatteryKeepsHeading(s: State, onBattery: bool)
    requires Heading(s)
    ensures Heading(Act(s, BatteryChanges(onBattery)))
  {
    var u := Act(s, BatteryChanges(onBattery));
    NoticesMore(s.changes, onBattery);
    assert Pending(u) == Pending(s) + [OnBattery(onBattery)];
    if s.mode == Auto {
      assert [OnBattery(onBattery)][1..] == [];
      ObeysInTheEnd(u, u.applied, Pending(s), [OnBattery(onBattery)]);
    } else if s.mode != Custom {
      ObeysAlike(s, u, s.applied, Pending(s));
      ObeysWithBattery(u, s.applied, Pending(s), onBattery);
    }
  }

  lemma HandlingKeepsHeading(s: State)
    requires Heading(s) && s.queue != []
    ensures Heading(Act(s, HandleNotice))
  {
    hide Obeys, Notices;
    var u := Act(s, HandleNotice);
    ReactKeeps(s, s.queue[0], s.queue[1..]);
    hide React, Act;
    assert Pending(s)[0] == s.queue[0] && Pending(s)[1..] == Pending(u);
    if s.mode != Custom {
      ObeysNext(s, Pending(s));
      ObeysAlike(s, u, u.applied, Pending(u));
    }
  }

  /** Acting on a notice applies the same profile whatever else is queued, and changes nothing else. */
  lemma ReactKeeps(s: State, notice: Notice, queue: seq<Notice>)
    ensures React(s.(queue := queue), notice) == s.(queue := queue, applied := React(s, notice).applied)
  {
  }

  lemma ObeysNext(s: State, notices: seq<Notice>)
    requires s.enable && s.mode != Custom && notices != [] && Obeys(s, s.applied, notices)
    ensures Obeys(s, React(s, notices[0]).applied, notices[1..])
  {
  }

  lemma ProfileKeepsHeading(s: State, name: string)
    requires Heading(s)
    ensures Heading(SetProfile(s, name))
  {
    var s1 := s.(profile := name);
    if name == "auto" {
      ModeIsObeyed(s1, Auto);
    } else if name == "default" {
      ModeIsObeyed(s1, Default);
    } else if name == "responsive" {
      ModeIsObeyed(s1, Responsive);
    } else if name == "" && s.mode != Custom {
      ObeysAlike(s, s1, s.applied, Pending(s));
    }
  }

  lemma ActKeepsHeading(s: State, action: Action)
    requires Heading(s)
    ensures Heading(Act(s, action))
  {
    match action
    case CallSetCpuMode(mode) =>
      if mode != Custom {
        ModeIsObeyed(s, mode);
      }
    case CallSetCpuProfile(name) =>
      ProfileKeepsHeading(s, name);
    case BatteryChanges(onBattery) =>
      BatteryKeepsHeading(s, onBattery);
    case QueueBatteryChange =>
      if s.changes != [] {
        var u := Act(s, action);
        assert Pending(u) == Pending(s);
        if s.mode != Custom {
          ObeysAlike(s, u, s.applied, Pending(s));
        }
      }
    case HandleNotice =>
      if s.queue != [] {
        HandlingKeepsHeading(s);
      }
  }

  // ---------------------------------------------------------------------------------------
  // Custom profiles
  // ---------------------------------------------------------------------------------------

  predicate IsCustomName(name: string) {
    name != "auto" && name != "default" && name != "responsive" && name != ""
  }

  /** The custom profile asked for by the last call that changed the mode or the profile name. */
  function Requested(actions: seq<Action>): Option<string> {
    if actions == [] then None
    else
      match actions[|actions| - 1]
      case CallSetCpuMode(_) => None
      case CallSetCpuProfile(name) => if IsCustomName(name) then Some(name) else None
      case _ => Requested(actions[..|actions| - 1])
  }

  /** The custom profile is applied, or will be. */
  ghost predicate Honours(s: State, name: string) {
    && s.mode == Custom && s.profile == name
    && (name in s.profiles ==> s.applied == Some(s.profiles[name]) || SetCustomCpuMode in s.queue)
  }

  lemma ActKeepsHonours(s: State, action: Action, name: string)
    requires s.enable && Honours(s, name) && (action.BatteryChanges? || action.QueueBatteryChange? || action.HandleNotice?)
    ensures Honours(Act(s, action), name)
  {
    if action.HandleNotice? && s.queue != [] {
      assert forall n :: n in s.queue <==> n == s.queue[0] || n in s.queue[1..];
    }
  }

  lemma {:induction false} RunHeads(profiles: map<string, CfsProfile>, onBattery: bool, actions: seq<Action>)
    ensures var s := Run(Start(profiles, onBattery), actions);
            && Heading(s) && s.profiles == profiles
            && (Requested(actions).Some? ==> Honours(s, Requested(actions).value))
  {
    if actions == [] {
      StartHeads(profiles, onBattery);
    } else {
      hide Heading, Start;
      var init, last := actions[..|actions| - 1], actions[|actions| - 1];
      var before := Run(Start(profiles, onBattery), init);
      RunHeads(profiles, onBattery, init);
      assert before.enable by { HeadingEnables(before); }
      ActKeepsHeading(before, last);
      if Requested(actions).Some? && !last.CallSetCpuProfile? {
        ActKeepsHonours(before, last, Requested(actions).value);
      }
    }
  }

  lemma StartHeads(profiles: map<string, CfsProfile>, onBattery: bool)
    ensures Heading(Start(profiles, onBattery)) && Start(profiles, onBattery).profiles == profiles
  {
  }

  lemma HeadingEnables(s: State)
    requires Heading(s)
    ensures s.enable
  {
  }

  // ---------------------------------------------------------------------------------------
  // What was asked for
  // ---------------------------------------------------------------------------------------

  /** The profile names that stand for a mode. */
  const NAMED_MODES: map<string, CpuMode> := map["auto" := Auto, "default" := Default, "responsive" := Responsive]

  /** The mode asked for by the last call that asks for one; a custom profile asks for the custom mode. */
  ghost function AskedMode(actions: seq<Action>): CpuMode {
    if actions == [] then Auto
    else
      var before := AskedMode(actions[..|actions| - 1]);
      match actions[|actions| - 1]
      case CallSetCpuMode(mode) => mode
      case CallSetCpuProfile(name) =>
        if name in NAMED_MODES then NAMED_MODES[name] else if name == "" then before else Custom
      case _ => before
  }

  /** The profile name set last. */
  ghost function AskedProfile(actions: seq<Action>): string {
    if actions == [] then "auto"
    else if actions[|actions| - 1].CallSetCpuProfile? then actions[|actions| - 1].name
    else AskedProfile(actions[..|actions| - 1])
  }

  ghost function BatteryAfter(onBattery: bool, actions: seq<Action>): bool {
    if actions == [] then onBattery
    else if actions[|actions| - 1].BatteryChanges? then actions[|actions| - 1].onBattery
    else BatteryAfter(onBattery, actions[..|actions| - 1])
  }

  /** Mode, profile name and battery state follow the calls and the changes; handling notices changes none of them. */
  lemma {:induction false} FollowsCalls(profiles: map<string, CfsProfile>, onBattery: bool, actions: seq<Action>)
    ensures var s := Run(Start(profiles, onBattery), actions);
            && s.mode == AskedMode(actions) && s.profile == AskedProfile(actions)
            && s.onBattery == BatteryAfter(onBattery, actions) && s.profiles == profiles
  {
    if actions != [] {
      var init, last := actions[..|actions| - 1], actions[|actions| - 1];
      FollowsCalls(profiles, onBattery, init);
      ActFollows(Run(Start(profiles, onBattery), init), last);
      hide Act, Start;
    }
  }

  lemma ActFollows(s: State, action: Action)
    ensures var u := Act(s, action);
            && u.mode == (match action
                          case CallSetCpuMode(mode) => mode
                          case CallSetCpuProfile(name) =>
                            if name in NAMED_MODES then NAMED_MODES[name] else if name == "" then s.mode else Custom
                          case _ => s.mode)
            && u.profile == (if action.CallSetCpuProfile? then action.name else s.profile)
            && u.onBattery == (if action.BatteryChanges? then action.onBattery else s.onBattery)
            && u.profiles == s.profiles
  {
    assert "auto"[0] != "default"[0] && "auto"[0] != "responsive"[0] && "default"[0] != "responsive"[0];
    if action.HandleNotice? && s.queue != [] {
      ReactKeeps(s, s.queue[0], s.queue[1..]);
    }
  }

  /**
   * For every interleaving of calls, battery changes and handling: once nothing is pending, the
   * kernel has the profile of the mode that was asked for last, which in automatic mode is the one
   * for the battery state; and a known custom profile, if that was the last thing asked for. The
   * profiles that are built in serve where the configuration has none.
   */
  lemma Converges(profiles: map<string, CfsProfile>, onBattery: bool, actions: seq<Action>)
    requires var s := Run(Start(profiles, onBattery), actions);
             s.queue == [] && s.changes == []
    ensures var applied, mode := Run(Start(profiles, onBattery), actions).applied, AskedMode(actions);
            var saving := mode == Default || (mode == Auto && BatteryAfter(onBattery, actions));
            var responsive := mode == Responsive || (mode == Auto && !BatteryAfter(onBattery, actions));
            && (saving ==>
                  applied == Some(if "default" in profiles then profiles["default"] else CfsProfile(6, 8, 1.0, 5, "voluntary")))
            && (responsive ==>
                  applied == Some(if "responsive" in profiles then profiles["responsive"] else CfsProfile(4, 10, 0.5, 3, "full")))
            && (Requested(actions).Some? && Requested(actions).value in profiles ==>
                  mode == Custom && applied == Some(profiles[Requested(actions).value]))
  {
    hide Heading, Start;
    RunHeads(profiles, onBattery, actions);
    FollowsCalls(profiles, onBattery, actions);
    var s := Run(Start(profiles, onBattery), actions);
    HeadingIsReached(s);
    hide Run;
  }

  lemma HeadingIsReached(s: State)
    requires Heading(s) && s.queue == [] && s.changes == []
    ensures s.mode != Custom ==> s.applied == Some(Target(s))
  {
  }

  /** While the feature is disabled, nothing is applied, whatever is called and handled. */
  lemma {:induction false} DisabledAppliesNothing(s: State, actions: seq<Action>)
    requires !s.enable
    ensures !Run(s, actions).enable && Run(s, actions).applied == s.applied
  {
    if actions != [] {
      DisabledAppliesNothing(s, actions[..|actions| - 1]);
    }
  }

  /** No call that changes the mode, and none that changes the profile name. */
  ghost predicate LeavesCustom(actions: seq<Action>, name: string) {
    forall a :: a in actions ==> !a.CallSetCpuMode? && (a.CallSetCpuProfile? ==> a.name == "" && name == "")
  }

  /** What becomes of the applied profile while the mode is custom: it may only change to the named one. */
  lemma {:induction false} CustomStays(s: State, actions: seq<Action>)
    requires s.enable && s.mode == Custom && LeavesCustom(actions, s.profile)
    ensures var u := Run(s, actions);
            && u.enable && u.mode == Custom && u.profile == s.profile && u.profiles == s.profiles
            && if SetCustomCpuMode in s.queue && s.profile in s.profiles
               then
                 if SetCustomCpuMode in u.queue then u.applied in {s.applied, Some(s.profiles[s.profile])}
                 else u.applied == Some(s.profiles[s.profile])
               else
                 u.applied == s.applied && (SetCustomCpuMode in u.queue ==> SetCustomCpuMode in s.queue)
  {
    if actions != [] {
      var init, last := actions[..|actions| - 1], actions[|actions| - 1];
      assert last in actions && forall a :: a in init ==> a in actions;
      CustomStays(s, init);
      var b := Run(s, init);
      if last.HandleNotice? && b.queue != [] {
        assert forall n :: n in b.queue <==> n == b.queue[0] || n in b.queue[1..];
      }
    }
  }

  /**
   * Custom mode, however it was entered: until the mode or the name is changed, once nothing is
   * queued the kernel has the custom profile of that name if a notice for it was queued and the
   * name is known, and what it had before otherwise.
   */
  lemma CustomSettles(s: State, actions: seq<Action>)
    requires s.enable && s.mode == Custom && LeavesCustom(actions, s.profile) && Run(s, actions).queue == []
    ensures Run(s, actions).applied ==
            if SetCustomCpuMode in s.queue && s.profile in s.profiles then Some(s.profiles[s.profile]) else s.applied
  {
    CustomStays(s, actions);
  }

  /** A custom mode that is set as a mode leaves the profile as it is, unless a custom profile was still to come. */
  lemma CustomModeKeepsProfile(profiles: map<string, CfsProfile>, onBattery: bool, before: seq<Action>, after: seq<Action>)
    requires var s := Run(Start(profiles, onBattery), before + [CallSetCpuMode(Custom)]);
             LeavesCustom(after, s.profile) && Run(s, after).queue == []
    ensures var b := Run(Start(profiles, onBattery), before);
            var u := Run(Run(Start(profiles, onBattery), before + [CallSetCpuMode(Custom)]), after);
            && u.mode == Custom
            && u.applied == if SetCustomCpuMode in b.queue && b.profile in profiles then Some(profiles[b.profile]) else b.applied
  {
    var b := Run(Start(profiles, onBattery), before);
    assert (before + [CallSetCpuMode(Custom)])[..|before|] == before;
    RunHeads(profiles, onBattery, before);
    var s := SetMode(b, Custom);
    assert Run(Start(profiles, onBattery), before + [CallSetCpuMode(Custom)]) == s;
    assert SetCustomCpuMode in s.queue <==> SetCustomCpuMode in b.queue;
    CustomStays(s, after);
  }

  /**
   * Asking for the empty profile name changes no mode, but it takes the name away from notices
   * that are still queued. From then on, and until a call names a mode or a profile, the kernel
   * has the custom profile that was asked for exactly if it had it when the empty name was set.
   */
  lemma BlankNameFreezes(s: State, name: string, after: seq<Action>)
    requires s.enable && s.mode == Custom && name in s.profiles && "" !in s.profiles && LeavesCustom(after, "")
    ensures var u := Run(SetProfile(s, ""), after);
            u.mode == Custom && (u.applied == Some(s.profiles[name]) <==> s.applied == Some(s.profiles[name]))
  {
    CustomStays(SetProfile(s, ""), after);
  }

  /** Hence a custom profile that is overwritten before it is handled is never applied. */
  lemma OverwrittenNameIsLost(profiles: map<string, CfsProfile>, name: string)
    requires IsCustomName(name) && name in profiles && "" !in profiles
    requires profiles[name] != BatteryProfile(profiles, false)
    ensures var s := Run(Start(profiles, false), [CallSetCpuProfile(name), CallSetCpuProfile(""), HandleNotice]);
            s.mode == Custom && s.queue == [] && s.changes == [] && s.applied != Some(profiles[name])
  {
    var actions := [CallSetCpuProfile(name), CallSetCpuProfile(""), HandleNotice];
    var two := [CallSetCpuProfile(name), CallSetCpuProfile("")];
    var one := [CallSetCpuProfile(name)];
    assert actions[..2] == two && two[..1] == one && one[..0] == [];
    var s0 := Start(profiles, false);
    assert Run(s0, one) == SetProfile(s0, name);
    assert Run(s0, two) == SetProfile(SetProfile(s0, name), "");
  }

  lemma RunMore(s: State, actions: seq<Action>, action: Action)
    ensures Run(s, actions + [action]) == Act(Run(s, actions), action)
  {
    assert (actions + [action])[..|actions|] == actions;
  }

  /**
   * A mode that is set before the notice for a custom profile is handled does not take the profile
   * back: it is applied all the same, until the notice for the mode comes, and for good if the mode
   * is custom mode itself.
   */
  lemma OvertakenProfileIsApplied(profiles: map<string, CfsProfile>, onBattery: bool, before: seq<Action>, name: string,
                                  mode: CpuMode)
    requires Run(Start(profiles, onBattery), before).queue == [] && IsCustomName(name) && name in profiles
    ensures var actions := before + [CallSetCpuProfile(name)] + [CallSetCpuMode(mode)] + [HandleNotice];
            var u, v := Run(Start(profiles, onBattery), actions), Run(Start(profiles, onBattery), actions + [HandleNotice]);
            && u.mode == mode && u.applied == Some(profiles[name])
            && v.mode == mode && v.queue == []
            && v.applied == Some(if mode == Custom then profiles[name] else Target(v))
  {
    RunHeads(profiles, onBattery, before);
    FollowsCalls(profiles, onBattery, before);
    var s := Start(profiles, onBattery);
    var b := Run(s, before);
    assert b.enable && b.profiles == profiles && b.queue == [];
    var one := before + [CallSetCpuProfile(name)];
    RunMore(s, before, CallSetCpuProfile(name));
    RunMore(s, one, CallSetCpuMode(mode));
    RunMore(s, one + [CallSetCpuMode(mode)], HandleNotice);
    RunMore(s, one + [CallSetCpuMode(mode)] + [HandleNotice], HandleNotice);
    hide Run, Start, Heading;
  }

  // ---------------------------------------------------------------------------------------
  // The parties
  // ---------------------------------------------------------------------------------------

  class Channel {
    var queue: seq<Notice>

    constructor ()
      ensures queue == []
    {
      queue := [];
    }

    method Send(notice: Notice)
      modifies this
      ensures queue == old(queue) + [notice]
    {
      queue := queue + [notice];
    }

    method Receive() returns (notice: Notice)
      requires queue != []
      modifies this
      ensures [notice] + queue == old(queue)
    {
      notice, queue := queue[0], queue[1..];
    }
  }

  /** The power daemon: the battery state, and its changes that were not reported yet. */
  class Upower {
    var onBattery: bool
    var changes: seq<bool>

    constructor (onBattery: bool)
      ensures this.onBattery == onBattery && changes == []
    {
      this.onBattery, changes := onBattery, [];
    }

    /** Reports the oldest change to the daemon's channel. */
    method Report(tx: Channel)
      requires changes != []
      modifies this`changes, tx
      ensures changes == old(changes)[1..] && tx.queue == old(tx.queue) + [OnBattery(old(changes)[0])]
    {
      var b := changes[0];
      changes := changes[1..];
      tx.Send(OnBattery(b));
    }
  }

  /** The writer side: D-Bus calls change the shared fields and queue a notice. */
  class Server {
    var cpuMode: CpuMode
    var cpuProfile: string
    const tx: Channel

    constructor (tx: Channel)
      ensures cpuMode == Auto && cpuProfile == "auto" && this.tx == tx
    {
      cpuMode, cpuProfile, this.tx := Auto, "auto", tx;
    }

    method SetCpuMode(mode: CpuMode)
      modifies this`cpuMode, tx
      ensures cpuMode == mode && tx.queue == old(tx.queue) + [Notice.SetCpuMode]
    {
      cpuMode := mode;
      tx.Send(Notice.SetCpuMode);
    }

    method SetCpuProfile(profile: string, ghost daemon: CfsHandler, ghost upower: Upower)
      requires daemon.server == this
      modifies this, tx
      ensures daemon.View(upower) == SetProfile(old(daemon.View(upower)), profile)
    {
      cpuProfile := profile;
      if profile == "auto" {
        SetCpuMode(Auto);
      } else if profile == "default" {
        SetCpuMode(Default);
      } else if profile == "responsive" {
        SetCpuMode(Responsive);
      } else if profile != "" {
        cpuMode := Custom;
        tx.Send(SetCustomCpuMode);
      }
    }
  }

  /** The reader side: the daemon acts on the fields it finds when it handles a notice. */
  class CfsHandler {
    const server: Server
    const enable: bool
    const profiles: map<string, CfsProfile>
    var applied: Option<CfsProfile>

    ghost function View(upower: Upower): State
      reads this, server, server.tx, upower
    {
      State(enable, profiles, server.cpuMode, server.cpuProfile, upower.onBattery, upower.changes, server.tx.queue, applied)
    }

    constructor (server: Server, upower: Upower, profiles: map<string, CfsProfile>)
      requires server.cpuMode == Auto && server.cpuProfile == "auto" && server.tx.queue == [] && upower.changes == []
      ensures View(upower) == Start(profiles, upower.onBattery)
    {
      this.server, this.enable, this.profiles, applied := server, true, profiles, None;
      new;
      CfsOnBattery(upower.onBattery);
    }

    method CfsApply(profile: CfsProfile)
      modifies this`applied
      ensures applied == if enable then Some(profile) else old(applied)
    {
      if enable {
        applied := Some(profile);
      }
    }

    method CfsOnBattery(onBattery: bool)
      modifies this`applied
      ensures applied == if enable then Some(BatteryProfile(profiles, onBattery)) else old(applied)
    {
      CfsApply(if onBattery then DefaultProfile(profiles) else ResponsiveProfile(profiles));
    }

    /** Takes the next notice from the channel and acts on it. */
    method HandleNext(upower: Upower)
      requires server.tx.queue != []
      modifies this`applied, server.tx
      ensures View(upower) == Act(old(View(upower)), HandleNotice)
    {
      var notice := server.tx.Receive();
      assert old(server.tx.queue)[0] == notice && old(server.tx.queue)[1..] == server.tx.queue;
      match notice
      case OnBattery(onBattery) =>
        if server.cpuMode == Auto {
          CfsOnBattery(onBattery);
        }
      case SetCpuMode =>
        match server.cpuMode {
          case Auto => CfsOnBattery(upower.onBattery);
          case Default => CfsApply(DefaultProfile(profiles));
          case Responsive => CfsApply(ResponsiveProfile(profiles));
          case Custom =>
        }
      case SetCustomCpuMode =>
        if server.cpuProfile in profiles {
          CfsApply(profiles[server.cpuProfile]);
        }
    }
  }
}
