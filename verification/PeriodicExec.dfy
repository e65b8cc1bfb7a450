/** The periodic executor as a timed state machine. Times are nanoseconds. A select with a ready case
    takes no time; the executed function runs on its own and does not delay the loop. */
module PeriodicExec {
  import opened Wrappers

  datatype Config = Config(repeatAfter: int, cooldown: int, fastStart: bool)

  /** The constructor limits the cooldown. */
  function NewConfig(repeatAfter: int, cooldown: int, fastStart: bool): Config {
    Config(repeatAfter, if cooldown > repeatAfter then repeatAfter else cooldown, fastStart)
  }

  /** A timer of a non-positive duration fires at once. */
  function Wait(duration: int): nat {
    if duration > 0 then duration else 0
  }

  /** A start of the function, by a trigger or by the timer. */
  datatype Start = Start(time: int, triggered: bool)

  datatype Mode = Selecting | Cooling(until: int) | Stopped

  /** `queued` is the length of the trigger channel. `asked` is the time of the earliest call of
      Trigger since the last start, whether or not the channel took it. */
  datatype State = State(
    began: int,
    now: int,
    timer: int,
    queued: nat,
    mode: Mode,
    starts: seq<Start>,
    asked: Option<int>)

  datatype Action = Trigger | Elapse(duration: nat) | TimerFires | TriggerTaken | CooldownEnds | Stop

  /** The loop begins; a trigger may have been queued before. */
  function Begin(cfg: Config, at: int, queued: bool): State {
    State(at, at, at + First(cfg), if queued then 1 else 0,
          Selecting, [], if queued then Some(at) else None)
  }

  predicate Enabled(s: State, a: Action) {
    match a
    case Trigger => true
    case Elapse(d) =>
      match s.mode {
        case Selecting => s.queued == 0 && s.now + d <= s.timer
        case Cooling(until) => s.now + d <= until
        case Stopped => true
      }
    case TimerFires => s.mode == Selecting && s.now >= s.timer
    case TriggerTaken => s.mode == Selecting && s.queued > 0
    case CooldownEnds => s.mode.Cooling? && s.now >= s.mode.until
    case Stop => s.mode != Stopped
  }

  /** The function is started and the timer is set again. */
  function Started(cfg: Config, s: State, triggered: bool): State {
    s.(starts := s.starts + [Start(s.now, triggered)], timer := s.now + Wait(cfg.repeatAfter), asked := None)
  }

  function Next(cfg: Config, s: State, a: Action): State
    requires Enabled(s, a)
  {
    match a
    case Trigger =>
      s.(queued := if s.queued < 1 then s.queued + 1 else s.queued,
         asked := if s.asked.Some? then s.asked else Some(s.now))
    case Elapse(d) => s.(now := s.now + d)
    case TimerFires => Started(cfg, s, false)
    case TriggerTaken =>
      Started(cfg, s, true).(queued := s.queued - 1, mode := Cooling(s.now + Wait(cfg.cooldown)))
    case CooldownEnds => s.(mode := Selecting)
    case Stop => s.(mode := Stopped)
  }

  function Run(cfg: Config, at: int, queued: bool, actions: seq<Action>): Option<State> {
    if actions == [] then Some(Begin(cfg, at, queued))
    else
      var n := |actions| - 1;
      var before := Run(cfg, at, queued, actions[..n]);
      if before.Some? && Enabled(before.value, actions[n]) then Some(Next(cfg, before.value, actions[n])) else None
  }

  // ---------------------------------------------------------------- the timing

  function Max(a: int, b: int): int {
    if a > b then a else b
  }

  /** The longest gap between two starts. */
  function Gap(cfg: Config): nat {
    Max(Wait(cfg.repeatAfter), Wait(cfg.cooldown))
  }

  /** How long the loop waits before the first start. */
  function First(cfg: Config): nat {
    if cfg.fastStart then 0 else Wait(cfg.repeatAfter)
  }

  /** Times between neighbouring starts, and before the first one. */
  predicate AreSpaced(cfg: Config, began: int, starts: seq<Start>) {
    && (forall i | 0 < i < |starts| ::
         && starts[i - 1].time <= starts[i].time <= starts[i - 1].time + Gap(cfg)
         && (!starts[i].triggered ==> starts[i].time >= starts[i - 1].time + Wait(cfg.repeatAfter))
         && (starts[i - 1].triggered ==> starts[i].time >= starts[i - 1].time + cfg.cooldown))
    && (|starts| > 0 ==>
         && began <= starts[0].time <= began + First(cfg)
         && (!starts[0].triggered ==> starts[0].time == began + First(cfg)))
  }

  /** The time of the last start, or of the beginning. */
  function Last(s: State): int {
    if s.starts == [] then s.began else s.starts[|s.starts| - 1].time
  }

  predicate WasTriggered(s: State) {
    s.starts != [] && s.starts[|s.starts| - 1].triggered
  }

  predicate Inv(cfg: Config, s: State) {
    && AreSpaced(cfg, s.began, s.starts)
    && s.queued <= 1
    && (s.asked.Some? ==> s.asked.value <= s.now)
    && (s.mode != Stopped ==>
         && Last(s) <= s.now <= Last(s) + Gap(cfg)
         && (s.starts == [] ==> s.now <= s.timer == s.began + First(cfg))
         && (s.starts != [] ==> s.timer == Last(s) + Wait(cfg.repeatAfter))
         && (s.asked.Some? ==> s.queued == 1 && s.now <= s.asked.value + Wait(cfg.cooldown)))
    && (s.mode.Cooling? ==>
         && WasTriggered(s) && s.mode.until == Last(s) + Wait(cfg.cooldown) && s.now <= s.mode.until
         && (s.asked.Some? ==> s.asked.value >= Last(s)))
    && (s.mode == Selecting && WasTriggered(s) ==> s.now >= Last(s) + Wait(cfg.cooldown))
  }

  lemma StartIsSpaced(cfg: Config, s: State, triggered: bool)
    requires Inv(cfg, s) && s.mode == Selecting && (!triggered ==> s.now >= s.timer)
    ensures AreSpaced(cfg, s.began, Started(cfg, s, triggered).starts)
  {
    var starts := Started(cfg, s, triggered).starts;
    forall i | 0 < i < |starts|
      ensures starts[i - 1].time <= starts[i].time <= starts[i - 1].time + Gap(cfg)
      ensures starts[i - 1].triggered ==> starts[i].time >= starts[i - 1].time + cfg.cooldown
      ensures !starts[i].triggered ==> starts[i].time >= starts[i - 1].time + Wait(cfg.repeatAfter)
    {
      if i < |s.starts| {
        assert starts[i] == s.starts[i] && starts[i - 1] == s.starts[i - 1];
      }
    }
  }

  lemma ElapseKeepsInv(cfg: Config, s: State, d: nat)
    requires Inv(cfg, s) && Enabled(s, Elapse(d))
    ensures Inv(cfg, Next(cfg, s, Elapse(d)))
  {
  }

  lemma TimerKeepsInv(cfg: Config, s: State)
    requires Inv(cfg, s) && Enabled(s, TimerFires)
    ensures Inv(cfg, Next(cfg, s, TimerFires))
  {
    StartIsSpaced(cfg, s, false);
  }

  lemma TriggerTakenKeepsInv(cfg: Config, s: State)
    requires Inv(cfg, s) && Enabled(s, TriggerTaken)
    ensures Inv(cfg, Next(cfg, s, TriggerTaken))
  {
    StartIsSpaced(cfg, s, true);
  }

  lemma CooldownKeepsInv(cfg: Config, s: State)
    requires Inv(cfg, s) && Enabled(s, CooldownEnds)
    ensures Inv(cfg, Next(cfg, s, CooldownEnds))
  {
  }

  lemma NextKeepsInv(cfg: Config, s: State, a: Action)
    requires Inv(cfg, s) && Enabled(s, a)
    ensures Inv(cfg, Next(cfg, s, a))
  {
    match a
    case Trigger =>
    case Elapse(d) => ElapseKeepsInv(cfg, s, d);
    case TimerFires => TimerKeepsInv(cfg, s);
    case TriggerTaken => TriggerTakenKeepsInv(cfg, s);
    case CooldownEnds => CooldownKeepsInv(cfg, s);
    case Stop =>
  }

  lemma {:induction false} RunKeepsInv(cfg: Config, at: int, queued: bool, actions: seq<Action>)
    requires Run(cfg, at, queued, actions).Some?
    ensures Inv(cfg, Run(cfg, at, queued, actions).value)
  {
    if actions != [] {
      var n := |actions| - 1;
      RunKeepsInv(cfg, at, queued, actions[..n]);
      NextKeepsInv(cfg, Run(cfg, at, queued, actions[..n]).value, actions[n]);
    }
  }

  // ---------------------------------------------------------------- what the actions do

  function TriggeredStarts(starts: seq<Start>): nat {
    if starts == [] then 0
    else TriggeredStarts(starts[..|starts| - 1]) + (if starts[|starts| - 1].triggered then 1 else 0)
  }

  /** How often Trigger was called. */
  function Triggers(actions: seq<Action>): nat {
    if actions == [] then 0
    else Triggers(actions[..|actions| - 1]) + (if actions[|actions| - 1].Trigger? then 1 else 0)
  }

  /** How much time went by. */
  function Elapsed(actions: seq<Action>): nat {
    if actions == [] then 0
    else
      var last := actions[|actions| - 1];
      Elapsed(actions[..|actions| - 1]) + (if last.Elapse? then last.duration else 0)
  }

  lemma NextIsCounted(cfg: Config, s: State, a: Action)
    requires Enabled(s, a)
    ensures var r := Next(cfg, s, a);
      && r.began == s.began && r.now == s.now + (if a.Elapse? then a.duration else 0)
      && TriggeredStarts(r.starts) + r.queued <= TriggeredStarts(s.starts) + s.queued + (if a.Trigger? then 1 else 0)
  {
    var starts := Next(cfg, s, a).starts;
    assert starts == s.starts || starts[..|starts| - 1] == s.starts;
  }

  /** The clock is the time that went by, and each triggered start used up a trigger. */
  lemma {:induction false} RunIsCounted(cfg: Config, at: int, queued: bool, actions: seq<Action>)
    requires Run(cfg, at, queued, actions).Some?
    ensures var s := Run(cfg, at, queued, actions).value;
      && s.began == at && s.now == at + Elapsed(actions)
      && TriggeredStarts(s.starts) + s.queued <= Triggers(actions) + (if queued then 1 else 0)
  {
    if actions != [] {
      var n := |actions| - 1;
      RunIsCounted(cfg, at, queued, actions[..n]);
      NextIsCounted(cfg, Run(cfg, at, queued, actions[..n]).value, actions[n]);
    }
  }

  /** Nothing is started after Stop. */
  lemma {:induction false} StopIsFinal(cfg: Config, at: int, queued: bool, actions: seq<Action>, k: nat)
    requires Run(cfg, at, queued, actions).Some?
    requires k < |actions| && actions[k].Stop?
    ensures var before := Run(cfg, at, queued, actions[..k]);
      before.Some? && Run(cfg, at, queued, actions).value.starts == before.value.starts
    ensures Run(cfg, at, queued, actions).value.mode == Stopped
  {
    var n := |actions| - 1;
    if k < n {
      StopIsFinal(cfg, at, queued, actions[..n], k);
      assert actions[..n][..k] == actions[..k];
    } else {
      assert actions[..k] == actions[..n];
    }
  }

  /** A call of Trigger is still waiting, or was answered by a start. */
  predicate IsAnsweredOrAsked(s: State, called: int, starts: nat) {
    |s.starts| > starts || (s.asked.Some? && s.asked.value <= called && |s.starts| == starts)
  }

  lemma {:induction false} AnsweredOrAsked(cfg: Config, at: int, queued: bool, actions: seq<Action>, k: nat)
    requires Run(cfg, at, queued, actions).Some?
    requires k < |actions| && actions[k].Trigger?
    ensures var before := Run(cfg, at, queued, actions[..k]);
      before.Some? && IsAnsweredOrAsked(Run(cfg, at, queued, actions).value, before.value.now, |before.value.starts|)
  {
    var n := |actions| - 1;
    if k < n {
      AnsweredOrAsked(cfg, at, queued, actions[..n], k);
      assert actions[..n][..k] == actions[..k];
    } else {
      RunKeepsInv(cfg, at, queued, actions[..n]);
      assert actions[..k] == actions[..n];
    }
  }

  /** While the executor runs, a call of Trigger is followed by a start within the cooldown, or within
      `repeatAfter` when that is shorter. */
  lemma TriggerIsAnswered(repeatAfter: int, cooldown: int, fastStart: bool, at: int, queued: bool, actions: seq<Action>,
                          k: nat)
    requires Run(NewConfig(repeatAfter, cooldown, fastStart), at, queued, actions).Some?
    requires Run(NewConfig(repeatAfter, cooldown, fastStart), at, queued, actions).value.mode != Stopped
    requires k < |actions| && actions[k].Trigger?
    ensures var before := Run(NewConfig(repeatAfter, cooldown, fastStart), at, queued, actions[..k]);
      var s := Run(NewConfig(repeatAfter, cooldown, fastStart), at, queued, actions).value;
      var rest := if cooldown > repeatAfter then repeatAfter else cooldown;
      && before.Some?
      && (Elapsed(actions) - Elapsed(actions[..k]) > (if rest > 0 then rest else 0) ==>
            |s.starts| > |before.value.starts|)
  {
    var cfg := NewConfig(repeatAfter, cooldown, fastStart);
    AnsweredOrAsked(cfg, at, queued, actions, k);
    RunKeepsInv(cfg, at, queued, actions);
    RunIsCounted(cfg, at, queued, actions);
    RunIsCounted(cfg, at, queued, actions[..k]);
  }

  /** A running executor is never stuck: time can go by, or it starts the function, or the cooldown
      ends; calls are always possible, and Stop unless it stopped before. */
  lemma NeverStuck(cfg: Config, at: int, queued: bool, actions: seq<Action>)
    requires Run(cfg, at, queued, actions).Some?
    ensures var s := Run(cfg, at, queued, actions).value;
      && Enabled(s, Trigger) && (Enabled(s, Stop) <==> s.mode != Stopped)
      && (Enabled(s, Elapse(1)) || Enabled(s, TimerFires) || Enabled(s, TriggerTaken) || Enabled(s, CooldownEnds))
  {
  }

  /** In every run of a constructed executor: after a triggered start the next one is at least the
      cooldown, or `repeatAfter` when that is shorter, later; neighbouring starts are at most `repeatAfter`
      apart, and so is the present from the last one; at most one trigger is queued; and no call of
      Trigger has waited longer than the cooldown for a start. */
  lemma {:induction false} StartsAreTimely(repeatAfter: int, cooldown: int, fastStart: bool, at: int, queued: bool, actions: seq<Action>)
    requires Run(NewConfig(repeatAfter, cooldown, fastStart), at, queued, actions).Some?
    ensures var s := Run(NewConfig(repeatAfter, cooldown, fastStart), at, queued, actions).value;
      var rest := if cooldown > repeatAfter then repeatAfter else cooldown;
      var period := if repeatAfter > 0 then repeatAfter else 0;
      && (forall i | 0 < i < |s.starts| && s.starts[i - 1].triggered ::
            s.starts[i].time - s.starts[i - 1].time >= rest)
      && (forall i | 0 < i < |s.starts| :: 0 <= s.starts[i].time - s.starts[i - 1].time <= period)
      && (s.mode != Stopped ==> 0 <= s.now - Last(s) <= period)
      && s.queued <= 1
      && (s.mode != Stopped && s.asked.Some? ==> s.now - s.asked.value <= if rest > 0 then rest else 0)
  {
    RunKeepsInv(NewConfig(repeatAfter, cooldown, fastStart), at, queued, actions);
  }

  /** A start by the timer is exactly `repeatAfter` later than the last start. The first start is at most
      that long after the beginning, and exactly that long when it is by the timer; with a fast start it
      is at the beginning. */
  lemma {:induction false} TimerStartsExactly(repeatAfter: int, cooldown: int, fastStart: bool, at: int, queued: bool, actions: seq<Action>)
    requires Run(NewConfig(repeatAfter, cooldown, fastStart), at, queued, actions).Some?
    ensures var starts := Run(NewConfig(repeatAfter, cooldown, fastStart), at, queued, actions).value.starts;
      var period := if repeatAfter > 0 then repeatAfter else 0;
      && (forall i | 0 < i < |starts| && !starts[i].triggered :: starts[i].time - starts[i - 1].time == period)
      && (starts != [] ==> 0 <= starts[0].time - at <= if fastStart then 0 else period)
      && (starts != [] && !starts[0].triggered ==> starts[0].time - at == if fastStart then 0 else period)
  {
    RunKeepsInv(NewConfig(repeatAfter, cooldown, fastStart), at, queued, actions);
    RunIsCounted(NewConfig(repeatAfter, cooldown, fastStart), at, queued, actions);
  }

  /** A run, with a trigger queued at its beginning, in which two starts are too far apart. */
  predicate IsLate(cfg: Config, actions: seq<Action>) {
    var s := Run(cfg, 0, true, actions);
    && s.Some?
    && exists i | 0 < i < |s.value.starts| ::
         s.value.starts[i].time - s.value.starts[i - 1].time > Wait(cfg.repeatAfter)
  }

  lemma RunThen(cfg: Config, actions: seq<Action>, a: Action)
    requires Run(cfg, 0, true, actions).Some? && Enabled(Run(cfg, 0, true, actions).value, a)
    ensures Run(cfg, 0, true, actions + [a]) == Some(Next(cfg, Run(cfg, 0, true, actions).value, a))
  {
    assert (actions + [a])[..|actions|] == actions;
  }

  lemma LongCooldownIsLate(cfg: Config) returns (actions: seq<Action>)
    requires Wait(cfg.cooldown) > Wait(cfg.repeatAfter)
    ensures IsLate(cfg, actions)
  {
    RunThen(cfg, [], TriggerTaken);
    actions := [] + [TriggerTaken];
    RunThen(cfg, actions, Elapse(cfg.cooldown));
    actions := actions + [Elapse(cfg.cooldown)];
    RunThen(cfg, actions, CooldownEnds);
    actions := actions + [CooldownEnds];
    RunThen(cfg, actions, TimerFires);
    actions := actions + [TimerFires];
    var starts := Run(cfg, 0, true, actions).value.starts;
    assert starts[1].time - starts[0].time == cfg.cooldown;
  }

  /** A configuration that did not go through the constructor has late starts exactly when its
      cooldown is longer than `repeatAfter`. */
  lemma LimitIsNeeded(cfg: Config)
    ensures (exists actions :: IsLate(cfg, actions)) <==> Wait(cfg.cooldown) > Wait(cfg.repeatAfter)
  {
    if Wait(cfg.cooldown) > Wait(cfg.repeatAfter) {
      var actions := LongCooldownIsLate(cfg);
    }
    forall actions | IsLate(cfg, actions) ensures Wait(cfg.cooldown) > Wait(cfg.repeatAfter) {
      RunKeepsInv(cfg, 0, true, actions);
    }
  }
}
