/** One tween session: the state `tween` keeps in its closure, the tick that
    advances it, the control surface it returns, and the factory itself. The
    host timer is replaced by a `pending` flag and the clock by explicit
    time arguments. */
module Tween {
  import opened Wrappers
  import opened Objects
  import opened Easing
  import opened Arguments

  /** A duration that normalisation can produce from non-zero defaults. */
  type Duration = d: real | d != 0.0 witness 500.0

  /** The subject's properties after one interpolation at `elapsed` time:
      what `tweenProps` computes. */
  function Interpolated(from: map<string, real>, to: map<string, real>, snapshot: map<string, real>,
                        easing: Formula, elapsed: real, duration: Duration): (r: map<string, real>)
    requires from.Keys * to.Keys <= snapshot.Keys
    // no key is added or removed
    ensures r.Keys == from.Keys
    // keys that only the subject has keep their values
    ensures forall k :: k in from && k !in to ==> r[k] == from[k]
    // shared keys are eased from the snapshot, whatever their current value
    ensures forall k :: k in from && k in to ==>
              r[k] == easing(elapsed, snapshot[k], to[k] - snapshot[k], duration)
  {
    map k | k in from :: if k in to then easing(elapsed, snapshot[k], to[k] - snapshot[k], duration) else from[k]
  }

  /** Interpolating twice is interpolating once at the later time: a tick
      never reads what the previous tick wrote. */
  lemma InterpolatedForgetsEarlierTick(from: map<string, real>, to: map<string, real>, snapshot: map<string, real>,
                                       easing: Formula, first: real, second: real, duration: Duration)
    requires from.Keys * to.Keys <= snapshot.Keys
    ensures Interpolated(Interpolated(from, to, snapshot, easing, first, duration), to, snapshot, easing, second, duration)
         == Interpolated(from, to, snapshot, easing, second, duration)
  {
    var once := Interpolated(from, to, snapshot, easing, first, duration);
    var twice := Interpolated(once, to, snapshot, easing, second, duration);
    var direct := Interpolated(from, to, snapshot, easing, second, duration);
    assert forall k :: k in twice ==> twice[k] == direct[k];
  }

  /** The subject after a run of ticks at the given elapsed times, all of
      them taken before the duration expired. */
  function AfterTicks(from: map<string, real>, to: map<string, real>, snapshot: map<string, real>,
                      easing: Formula, elapsed: seq<real>, duration: Duration): (r: map<string, real>)
    requires from.Keys * to.Keys <= snapshot.Keys
    ensures r.Keys == from.Keys
    decreases |elapsed|
  {
    if elapsed == [] then from
    else AfterTicks(Interpolated(from, to, snapshot, easing, elapsed[0], duration), to, snapshot, easing, elapsed[1..], duration)
  }

  /** However many ticks have run, the subject is what the last one alone
      would have made of it. */
  lemma {:induction false} AfterTicksIsLastTick(from: map<string, real>, to: map<string, real>, snapshot: map<string, real>,
                                                easing: Formula, elapsed: seq<real>, duration: Duration)
    requires from.Keys * to.Keys <= snapshot.Keys
    requires elapsed != []
    ensures AfterTicks(from, to, snapshot, easing, elapsed, duration)
         == Interpolated(from, to, snapshot, easing, elapsed[|elapsed| - 1], duration)
    decreases |elapsed|
  {
    var next := Interpolated(from, to, snapshot, easing, elapsed[0], duration);
    if |elapsed| == 1 {
      assert AfterTicks(next, to, snapshot, easing, elapsed[1..], duration) == next;
    } else {
      AfterTicksIsLastTick(next, to, snapshot, easing, elapsed[1..], duration);
      InterpolatedForgetsEarlierTick(from, to, snapshot, easing, elapsed[0], elapsed[|elapsed| - 1], duration);
    }
  }

  /** A session that expires naturally ends in the same state whatever ticks
      ran before: exactly the subject with all of the target copied in. */
  lemma ExpiryForgetsTicks(from: map<string, real>, to: map<string, real>, snapshot: map<string, real>,
                           easing: Formula, elapsed: seq<real>, duration: Duration)
    requires from.Keys * to.Keys <= snapshot.Keys
    ensures Copied(AfterTicks(from, to, snapshot, easing, elapsed, duration), to) == Copied(from, to)
  {
    if elapsed != [] {
      AfterTicksIsLastTick(from, to, snapshot, easing, elapsed, duration);
      var ticked := AfterTicks(from, to, snapshot, easing, elapsed, duration);
      assert forall k :: k in Copied(ticked, to) ==> Copied(ticked, to)[k] == Copied(from, to)[k];
    }
  }

  /** The closure state of one `tween` call. */
  class Session {
    /** The subject: the caller's own object, written in place. */
    const from: Props
    /** The copy of the subject taken at creation; never written again. */
    const fromClone: map<string, real>
    /** The target values, read afresh at every tick. */
    const to: Props
    const duration: Duration
    /** The clock reading at creation. */
    const timestamp: real
    const easing: Formula
    const step: Callback
    const callback: Callback
    /** Whether a tick is scheduled (`loopId` names a live timer). */
    var pending: bool
    /** How often `step` and `callback` have been invoked. */
    var stepCalls: nat
    var callbackCalls: nat

    /** A tick can run: one is scheduled, and every key it will ease has a
        start value in the snapshot. */
    ghost predicate CanTick()
      reads this, from, to
    {
      pending && from.values.Keys * to.values.Keys <= fromClone.Keys
    }

    /** The session state right after `tween` has scheduled its first tick. */
    constructor (from: Props, to: Props, snapshot: map<string, real>, duration: Duration,
                 easing: Formula, step: Callback, callback: Callback, timestamp: real)
      ensures this.from == from && this.to == to && this.fromClone == snapshot
      ensures this.duration == duration && this.easing == easing && this.timestamp == timestamp
      ensures this.step == step && this.callback == callback
      ensures pending && stepCalls == 0 && callbackCalls == 0
    {
      this.from := from;
      this.to := to;
      this.fromClone := snapshot;
      this.duration := duration;
      this.easing := easing;
      this.step := step;
      this.callback := callback;
      this.timestamp := timestamp;
      pending := true;
      stepCalls := 0;
      callbackCalls := 0;
    }

    /** `tweenProps`: eases, in place, every key the subject shares with the
        target. */
    method TweenProps(currentTime: real)
      requires from.values.Keys * to.values.Keys <= fromClone.Keys
      modifies from
      ensures from.values == Interpolated(old(from.values), old(to.values), fromClone, easing, currentTime - timestamp, duration)
    {
      var target := to.values;
      ghost var goal := Interpolated(from.values, target, fromClone, easing, currentTime - timestamp, duration);
      var remaining := from.values.Keys;
      while remaining != {}
        invariant remaining <= from.values.Keys == old(from.values).Keys
        invariant forall k :: k in from.values ==>
                    from.values[k] == if k in remaining then old(from.values)[k] else goal[k]
        decreases remaining
      {
        var k :| k in remaining;
        if k in target {
          from.values := from.values[k := easing(currentTime - timestamp, fromClone[k], target[k] - fromClone[k], duration)];
        }
        remaining := remaining - {k};
      }
    }

    /** `timeoutHandler`: before the duration has elapsed, ease the shared
        keys, invoke `step` and schedule the next tick; afterwards, stop at
        the end. */
    method Tick(currentTime: real)
      requires CanTick()
      modifies this, from
      ensures currentTime < timestamp + duration ==>
        && from.values == Interpolated(old(from.values), old(to.values), fromClone, easing, currentTime - timestamp, duration)
        && pending
        && stepCalls == old(stepCalls) + 1
        && callbackCalls == old(callbackCalls)
      ensures currentTime >= timestamp + duration ==>
        && from.values == Copied(old(from.values), old(to.values))
        && !pending
        && stepCalls == old(stepCalls)
        && callbackCalls == old(callbackCalls) + 1
    {
      if currentTime < timestamp + duration {
        TweenProps(currentTime);
        stepCalls := stepCalls + 1;
        pending := true;
      } else {
        Stop(true);
      }
    }

    /** `stop(gotoEnd)`: cancels the scheduled tick; with `gotoEnd`, also
        copies all of the target into the subject and invokes `callback`. */
    method Stop(gotoEnd: bool)
      modifies this, from
      ensures !pending
      ensures gotoEnd ==> from.values == Copied(old(from.values), old(to.values))
      ensures !gotoEnd ==> from.values == old(from.values)
      ensures callbackCalls == old(callbackCalls) + (if gotoEnd then 1 else 0)
      ensures stepCalls == old(stepCalls)
    {
      pending := false;
      if gotoEnd {
        var _ := SimpleCopy(from, to);
        callbackCalls := callbackCalls + 1;
      }
    }

    /** `get`: the live subject, not a copy. */
    method Get() returns (r: Props)
      ensures r == from
    {
      r := from;
    }
  }

  /** Stopping at the end twice leaves the subject as stopping once does;
      only the callback count goes on rising. */
  method StopAtEndTwice(s: Session)
    modifies s, s.from
    ensures s.from.values == Copied(old(s.from.values), old(s.to.values))
    ensures !s.pending
    ensures s.callbackCalls == old(s.callbackCalls) + 2
  {
    s.Stop(true);
    s.Stop(true);
    CopiedIdempotent(old(s.from.values), old(s.to.values));
  }

  /** A session that ticks at `times`, all before its end, and then at
      `end`, past it: the host loop of `timeoutHandler` from a pending tick to
      natural expiry. Every target key ends on the target's value, every other
      key of the subject keeps its value, `step` ran once per running tick and
      `callback` exactly once. */
  method TickUntilExpiry(s: Session, times: seq<real>, end: real)
    requires s.CanTick()
    requires forall i :: 0 <= i < |times| ==> times[i] < s.timestamp + s.duration
    requires end >= s.timestamp + s.duration
    modifies s, s.from
    ensures s.from.values == Copied(old(s.from.values), s.to.values)
    ensures s.to != s.from ==> s.to.values == old(s.to.values)
    ensures !s.pending
    ensures s.stepCalls == old(s.stepCalls) + |times|
    ensures s.callbackCalls == old(s.callbackCalls) + 1
  {
    var i := 0;
    while i < |times|
      invariant 0 <= i <= |times|
      invariant s.CanTick()
      invariant s.from.values.Keys == old(s.from.values).Keys
      invariant s.to.values.Keys == old(s.to.values).Keys
      invariant s.to != s.from ==> s.to.values == old(s.to.values)
      invariant forall k :: k in s.from.values && k !in s.to.values ==> s.from.values[k] == old(s.from.values)[k]
      invariant s.stepCalls == old(s.stepCalls) + i
      invariant s.callbackCalls == old(s.callbackCalls)
    {
      s.Tick(times[i]);
      i := i + 1;
    }
    s.Tick(end);
    assert forall k :: k in s.from.values ==> s.from.values[k] == Copied(old(s.from.values), s.to.values)[k];
  }

  /** `tween`: normalises the arguments, takes the snapshot of the subject,
      resolves the easing formula and schedules the first tick. `now` is the
      clock reading at the call. */
  method Start(s: Settings, first: First, to: Option<Props>, duration: Option<real>, easing: Option<string>, now: real)
    returns (r: Result<Session, Error>)
    requires "linear" in s.formula && s.duration != 0.0
    ensures r.Failure? <==> to.None? && first.Nullish?
    ensures r.Success? ==>
      && var c := Normalise(s, first, to, duration, easing).value;
      && var t := r.value;
      && fresh(t)
      && (c.from.Some? ==> t.from == c.from.value)
      && (c.from.None? ==> fresh(t.from) && t.from.values == map[])
      && (c.to.Some? ==> t.to == c.to.value)
      && (c.to.None? ==> fresh(t.to) && t.to.values == map[])
      && t.fromClone == t.from.values
      && t.duration == c.duration
      && t.easing == Resolve(s.formula, c.easing)
      && t.timestamp == now
      && t.step == c.step && t.callback == c.callback
      && t.pending && t.stepCalls == 0 && t.callbackCalls == 0
  {
    var n := Normalise(s, first, to, duration, easing);
    if n.Failure? {
      return Failure(n.error);
    }
    var c := n.value;
    var subject: Props;
    if c.from.Some? {
      subject := c.from.value;
    } else {
      subject := new Props(map[]);
    }
    var target: Props;
    if c.to.Some? {
      target := c.to.value;
    } else {
      target := new Props(map[]);
    }
    var formula := Resolve(s.formula, c.easing);
    var clone := new Props(map[]);
    clone := SimpleCopy(clone, subject);
    var session := new Session(subject, target, clone.values, c.duration, formula, c.step, c.callback, now);
    return Success(session);
  }
}
