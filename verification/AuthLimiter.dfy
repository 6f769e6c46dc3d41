/** The limiter of failed logins, whose periodic clean-up nobody can notice. */
module AuthLimiter {
  import opened Common

  /** Times are counted from the zero time, which is before any time a clock shows. */
  datatype Failures = Failures(first: nat, count: nat, blockedUntil: nat)

  datatype Config = Config(limit: nat, window: nat, blockFor: nat)

  /** The defaults the constructor fills in keep all three positive. */
  predicate Proper(c: Config) {
    c.limit > 0 && c.window > 0 && c.blockFor > 0
  }

  const NONE := Failures(0, 0, 0)

  const SWEEP_EVERY: nat := 256

  function Get(states: map<string, Failures>, key: string): Failures {
    if key in states then states[key] else NONE
  }

  /** `blockedFor`: the remaining block time, and an expired block is forgotten. */
  function Checked(states: map<string, Failures>, key: string, now: nat): (map<string, Failures>, int) {
    var remaining := Get(states, key).blockedUntil - now;
    if remaining <= 0 && Get(states, key).blockedUntil != 0 then (states - {key}, 0) else (states, remaining)
  }

  function Counted(c: Config, state: Failures, now: nat): Failures {
    var current := if state.first == 0 || now - state.first >= c.window then Failures(now, 0, 0) else state;
    var more := current.(count := current.count + 1);
    if more.count >= c.limit then more.(blockedUntil := now + c.blockFor) else more
  }

  /** Neither blocking nor counting any more. */
  predicate Stale(c: Config, state: Failures, now: nat) {
    now > state.blockedUntil && now - state.first >= c.window
  }

  function Swept(c: Config, states: map<string, Failures>, now: nat): map<string, Failures> {
    map key | key in states && !Stale(c, states[key], now) :: states[key]
  }

  // Two limiters side by side.

  datatype Op = Check(key: string) | Fail(key: string)

  datatype Event = Event(now: nat, op: Op)

  datatype Limiter = Limiter(states: map<string, Failures>, attempts: nat)

  /** What a caller sees of a check: for how long it is blocked, if at all. */
  function Blocked(remaining: int): nat {
    if remaining > 0 then remaining else 0
  }

  function Step(c: Config, sweeping: bool, l: Limiter, e: Event): (Limiter, nat) {
    match e.op
    case Check(key) =>
      var (states, remaining) := Checked(l.states, key, e.now);
      (l.(states := states), Blocked(remaining))
    case Fail(key) =>
      var states := l.states[key := Counted(c, Get(l.states, key), e.now)];
      var attempts := l.attempts + 1;
      (Limiter(if sweeping && attempts % SWEEP_EVERY == 0 then Swept(c, states, e.now) else states, attempts), 0)
  }

  function Answers(c: Config, sweeping: bool, l: Limiter, events: seq<Event>): seq<nat>
    decreases |events|
  {
    if events == [] then []
    else
      var (next, answer) := Step(c, sweeping, l, events[0]);
      [answer] + Answers(c, sweeping, next, events[1..])
  }

  /** A clock that starts after the zero time and never goes back. */
  ghost predicate Monotone(events: seq<Event>, from: nat) {
    && (forall k :: 0 <= k < |events| ==> from <= events[k].now && events[k].now > 0)
    && (forall k, l :: 0 <= k < l < |events| ==> events[k].now <= events[l].now)
  }

  /** The clean limiter lacks only entries that are stale by now. */
  ghost predicate Alike(c: Config, clean: map<string, Failures>, full: map<string, Failures>, now: nat) {
    && (forall key :: key in clean ==> key in full && full[key] == clean[key])
    && (forall key :: key in full && key !in clean ==> Stale(c, full[key], now))
  }

  lemma StepsAlike(c: Config, clean: Limiter, full: Limiter, e: Event, before: nat)
    requires Proper(c) && Alike(c, clean.states, full.states, before) && before <= e.now && e.now > 0
    ensures Step(c, true, clean, e).1 == Step(c, false, full, e).1
    ensures Alike(c, Step(c, true, clean, e).0.states, Step(c, false, full, e).0.states, e.now)
  {
    match e.op
    case Check(key) =>
      if key in full.states && key !in clean.states {
        assert Stale(c, full.states[key], e.now);
      }
    case Fail(key) =>
      if key in full.states && key !in clean.states {
        assert Counted(c, full.states[key], e.now) == Counted(c, NONE, e.now);
      }
      assert Get(clean.states, key) == Get(full.states, key) || key !in clean.states;
  }

  lemma {:induction false} AnswersAlike(c: Config, clean: Limiter, full: Limiter, events: seq<Event>, before: nat)
    requires Proper(c) && Alike(c, clean.states, full.states, before) && Monotone(events, before)
    ensures Answers(c, true, clean, events) == Answers(c, false, full, events)
    decreases |events|
  {
    if events != [] {
      StepsAlike(c, clean, full, events[0], before);
      hide Alike, Step;
      AnswersAlike(c, Step(c, true, clean, events[0]).0, Step(c, false, full, events[0]).0, events[1..], events[0].now);
    }
  }

  /** With and without the sweep, every run of checks and failures gets the same answers. */
  lemma SweepIsUnobservable(c: Config, events: seq<Event>)
    requires Proper(c) && Monotone(events, 0)
    ensures Answers(c, true, Limiter(map[], 0), events) == Answers(c, false, Limiter(map[], 0), events)
  {
    AnswersAlike(c, Limiter(map[], 0), Limiter(map[], 0), events, 0);
  }

  class AuthFailureLimiter {
    const config: Config
    var states: map<string, Failures>
    var attempts: nat

    function Abs(): Limiter
      reads this
    {
      Limiter(states, attempts)
    }

    constructor (limit: int, window: int, blockFor: int)
      ensures Proper(config) && Abs() == Limiter(map[], 0)
      ensures limit > 0 && window > 0 && blockFor > 0 ==> config == Config(limit, window, blockFor)
    {
      var l, w, b := limit, window, blockFor;
      if l <= 0 {
        l := 10;
      }
      if w <= 0 {
        w := 60_000_000_000;
      }
      if b <= 0 {
        b := 60_000_000_000;
      }
      config := Config(l, w, b);
      states := map[];
      attempts := 0;
    }

    method BlockedFor(key: string, now: nat) returns (remaining: int)
      modifies this`states
      ensures (states, remaining) == Checked(old(states), key, now)
      ensures (Abs(), Blocked(remaining)) == Step(config, true, old(Abs()), Event(now, Check(key)))
    {
      var state := Get(states, key);
      remaining := state.blockedUntil - now;
      if remaining <= 0 && state.blockedUntil != 0 {
        states := states - {key};
        return 0;
      }
    }

    method RecordFailure(key: string, now: nat)
      modifies this
      ensures Abs() == Step(config, true, old(Abs()), Event(now, Fail(key))).0
    {
      var state := Get(states, key);
      if state.first == 0 || now - state.first >= config.window {
        state := Failures(now, 0, 0);
      }
      state := state.(count := state.count + 1);
      if state.count >= config.limit {
        state := state.(blockedUntil := now + config.blockFor);
      }
      states := states[key := state];
      attempts := attempts + 1;
      if attempts % SWEEP_EVERY == 0 {
        Sweep(now);
      }
    }

    /** Ranges over the map in any order and deletes as it goes. */
    method Sweep(now: nat)
      modifies this`states
      ensures states == Swept(config, old(states), now)
    {
      var rest := states.Keys;
      while rest != {}
        invariant rest <= old(states).Keys
        invariant states.Keys <= old(states).Keys && forall key :: key in states ==> states[key] == old(states)[key]
        invariant forall key :: key in rest ==> key in states
        invariant forall key :: key in old(states) && key !in rest ==>
                    (key in states <==> !Stale(config, old(states)[key], now))
        decreases rest
      {
        var key :| key in rest;
        rest := rest - {key};
        if now > states[key].blockedUntil && now - states[key].first >= config.window {
          states := states - {key};
        }
      }
    }
  }
}
