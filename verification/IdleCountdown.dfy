/** The idle countdown: sleep for what is left of the quiet period, look at the last activity
    again, decide. Sleeps are exact; time is real. */
module IdleCountdown {
  const MIN_SLEEP: real := 0.5   // IDLE_MIN_SLEEP

  function Max(a: real, b: real): real {
    if a >= b then a else b
  }

  // ---- Any activity, for as long as one likes -----------------------------------------------------

  /** Between two looks of the countdown, at `wokeAt` and `wakeAt`. */
  datatype State = State(now: real, last: real, wokeAt: real, wakeAt: real, decided: bool)

  /** A look: decide, or sleep for the rest. */
  function Looked(s: State, idle: real): State {
    var remaining := idle - (s.now - s.last);
    if remaining <= 0.0 then s.(wokeAt := s.now, decided := true)
    else s.(wokeAt := s.now, wakeAt := s.now + Max(remaining, MIN_SLEEP))
  }

  /** The session starts, and with it the countdown. */
  function Start(now: real, idle: real): State {
    Looked(State(now, now, now, now, false), idle)
  }

  datatype Step =
    | Activity                  // input, output or an attach
    | Passes(seconds: real)
    | Wakes

  predicate Enabled(s: State, step: Step) {
    match step
    case Activity => true
    case Passes(seconds) => seconds > 0.0 && !s.decided && s.now + seconds <= s.wakeAt
    case Wakes => !s.decided && s.now == s.wakeAt
  }

  function Next(s: State, step: Step, idle: real): State {
    match step
    case Activity => s.(last := s.now)
    case Passes(seconds) => s.(now := s.now + seconds)
    case Wakes => Looked(s, idle)
  }

  ghost predicate Run(s: State, steps: seq<Step>, t: State, idle: real)
    decreases |steps|
  {
    if steps == [] then s == t
    else Enabled(s, steps[0]) && Run(Next(s, steps[0], idle), steps[1..], t, idle)
  }

  /** While undecided, the next look comes before the quiet could last idle + MIN_SLEEP. */
  predicate Inv(s: State, idle: real) {
    && s.last <= s.now && s.wokeAt <= s.now
    && (!s.decided ==> s.now <= s.wakeAt && s.wakeAt - s.last < idle + MIN_SLEEP && s.wakeAt - s.wokeAt >= MIN_SLEEP)
  }

  lemma {:induction false} RunKeepsInv(s: State, steps: seq<Step>, t: State, idle: real)
    requires Inv(s, idle) && Run(s, steps, t, idle)
    ensures Inv(t, idle)
    decreases |steps|
  {
    if steps != [] {
      RunKeepsInv(Next(s, steps[0], idle), steps[1..], t, idle);
    }
  }

  /** What the steps say: how late it is after them, and when the last activity was. */
  function Clock(start: real, steps: seq<Step>): real
    decreases |steps|
  {
    if steps == [] then start
    else Clock(if steps[0].Passes? then start + steps[0].seconds else start, steps[1..])
  }

  function Latest(start: real, last: real, steps: seq<Step>): real
    decreases |steps|
  {
    if steps == [] then last
    else if steps[0].Passes? then Latest(start + steps[0].seconds, last, steps[1..])
    else Latest(start, if steps[0].Activity? then start else last, steps[1..])
  }

  lemma {:induction false} StateTells(s: State, steps: seq<Step>, t: State, idle: real)
    requires Run(s, steps, t, idle)
    ensures t.now == Clock(s.now, steps) && t.last == Latest(s.now, s.last, steps)
    decreases |steps|
  {
    if steps != [] {
      StateTells(Next(s, steps[0], idle), steps[1..], t, idle);
    }
  }

  /** How long the session has been quiet after these steps. */
  function Quiet(now: real, steps: seq<Step>): real {
    Clock(now, steps) - Latest(now, now, steps)
  }

  /** Under any activity, the countdown decides only after at least `idle` of quiet and less than
      MIN_SLEEP more, and no two looks are closer than MIN_SLEEP. */
  lemma DecisionWindow(now: real, idle: real, steps: seq<Step>, t: State)
    requires idle > 0.0 && Run(Start(now, idle), steps, t, idle) && Enabled(t, Wakes)
    ensures Next(t, Wakes, idle).decided <==> Quiet(now, steps) >= idle
    ensures Quiet(now, steps) < idle + MIN_SLEEP
    ensures t.now - t.wokeAt >= MIN_SLEEP
    ensures t.now == Clock(now, steps) && t.last == Latest(now, now, steps)
  {
    RunKeepsInv(Start(now, idle), steps, t, idle);
    StateTells(Start(now, idle), steps, t, idle);
  }

  /** So a session that has been quiet for that long has been decided upon; and a decision that has
      been made was made at some look, after `idle` of quiet. */
  lemma QuietIsNoticed(now: real, idle: real, steps: seq<Step>, t: State)
    requires idle > 0.0 && Run(Start(now, idle), steps, t, idle)
    ensures Quiet(now, steps) >= idle + MIN_SLEEP ==> t.decided
    ensures t.decided ==> exists n :: 0 <= n < |steps| && steps[n].Wakes? && Quiet(now, steps[..n]) >= idle
  {
    RunKeepsInv(Start(now, idle), steps, t, idle);
    StateTells(Start(now, idle), steps, t, idle);
    if t.decided {
      var n := DecidedAtALook(Start(now, idle), steps, t, idle);
    }
  }

  /** The look that decided, seen from the state it began in. */
  lemma {:induction false} DecidedAtALook(s: State, steps: seq<Step>, t: State, idle: real) returns (n: nat)
    requires Run(s, steps, t, idle) && !s.decided && t.decided
    ensures n < |steps| && steps[n].Wakes?
    ensures Clock(s.now, steps[..n]) - Latest(s.now, s.last, steps[..n]) >= idle
    decreases |steps|
  {
    var m := Next(s, steps[0], idle);
    if m.decided {
      n := 0;
      assert steps[..0] == [];
    } else {
      n := DecidedAtALook(m, steps[1..], t, idle);
      assert steps[..n + 1][0] == steps[0] && steps[..n + 1][1..] == steps[1..][..n];
      n := n + 1;
    }
  }

  // ---- The loop, over the activity up to some moment ------------------------------------------------

  /** The latest of `start` and the activities up to `now`; the activities are in order. */
  function LastActivity(start: real, activity: seq<real>, now: real): real {
    if activity == [] then start
    else if activity[|activity| - 1] <= now then activity[|activity| - 1]
    else LastActivity(start, activity[..|activity| - 1], now)
  }

  /** It is one of them, none of them that has happened is later, and it has happened itself. */
  lemma {:induction false} LastActivityMeaning(start: real, activity: seq<real>, now: real)
    requires Ordered(start, activity) && start <= now
    ensures var last := LastActivity(start, activity, now);
            && (last == start || last in activity) && start <= last <= now
            && forall a :: a in activity && a <= now ==> a <= last
  {
    if activity != [] {
      var init := activity[..|activity| - 1];
      assert activity == init + [activity[|activity| - 1]];
      LastActivityMeaning(start, init, now);
    }
  }

  predicate Ordered(start: real, activity: seq<real>) {
    && (forall i :: 0 <= i < |activity| ==> start <= activity[i])
    && (forall i, j :: 0 <= i < j < |activity| ==> activity[i] <= activity[j])
  }

  lemma {:induction false} LastActivityGrows(start: real, activity: seq<real>, now: real, later: real)
    requires Ordered(start, activity) && start <= now <= later
    ensures start <= LastActivity(start, activity, now) <= LastActivity(start, activity, later) <= later
    ensures LastActivity(start, activity, later) <= Final(start, activity)
    ensures LastActivity(start, activity, now) <= now
    decreases |activity|
  {
    if activity != [] && activity[|activity| - 1] > now {
      var init := activity[..|activity| - 1];
      LastActivityGrows(start, init, now, later);
      LastIsAtMost(start, init, now, activity[|activity| - 1]);
      LastIsAtMost(start, init, later, activity[|activity| - 1]);
    }
  }

  lemma {:induction false} LastIsAtMost(start: real, activity: seq<real>, now: real, bound: real)
    requires start <= bound && forall i :: 0 <= i < |activity| ==> activity[i] <= bound
    ensures LastActivity(start, activity, now) <= bound
  {
    if activity != [] {
      LastIsAtMost(start, activity[..|activity| - 1], now, bound);
    }
  }

  function Final(start: real, activity: seq<real>): real {
    if activity == [] then start else activity[|activity| - 1]
  }

  predicate Spaced(times: seq<real>) {
    forall i, j :: 0 <= i < j < |times| ==> times[j] - times[i] >= MIN_SLEEP
  }

  lemma SpacedSnoc(times: seq<real>, now: real, later: real)
    requires Spaced(times + [now]) && later - now >= MIN_SLEEP
    ensures Spaced(times + [now] + [later])
  {
    assert (times + [now])[|times|] == now;
    forall i | 0 <= i < |times| ensures now - times[i] >= MIN_SLEEP {
      assert (times + [now])[i] == times[i];
    }
  }

  /** `_idle_countdown`: `looks` are the times at which it compares. */
  method Countdown(idle: real, start: real, activity: seq<real>) returns (now: real, looks: seq<real>)
    requires idle > 0.0 && Ordered(start, activity)
    ensures idle <= now - LastActivity(start, activity, now) < idle + MIN_SLEEP
    ensures forall i :: 0 <= i < |looks| ==> looks[i] - LastActivity(start, activity, looks[i]) < idle
    ensures Spaced(looks + [now])
  {
    now, looks := start, [];
    LastActivityGrows(start, activity, now, now);
    var remaining := idle - (now - LastActivity(start, activity, now));
    while remaining > 0.0
      invariant start <= now && remaining == idle - (now - LastActivity(start, activity, now))
      invariant remaining > -MIN_SLEEP
      invariant forall i :: 0 <= i < |looks| ==> looks[i] - LastActivity(start, activity, looks[i]) < idle
      invariant Spaced(looks + [now])
      decreases (Final(start, activity) + idle - now) / MIN_SLEEP
    {
      var wakeAt := now + Max(remaining, MIN_SLEEP);
      LastActivityGrows(start, activity, now, wakeAt);
      SpacedSnoc(looks, now, wakeAt);
      looks := looks + [now];
      now := wakeAt;
      remaining := idle - (now - LastActivity(start, activity, now));
    }
  }
}
