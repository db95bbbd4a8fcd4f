/** Worked sessions with concrete numbers, derived from the contracts alone. */
module Scenarios {
  import opened Wrappers
  import opened Objects
  import opened Easing
  import opened Arguments
  import opened Tween

  const NoOptions := Options(None, None, None, None, None, None)

  /** `tween(subject, target, 100, 'linear')` called at time 1000. */
  method StartLinear(subject: Props, target: Props) returns (session: Session)
    ensures fresh(session)
    ensures session.from == subject && session.to == target && session.fromClone == subject.values
    ensures session.easing == Linear && session.duration == 100.0 && session.timestamp == 1000.0
    ensures session.pending && session.stepCalls == 0 && session.callbackCalls == 0
  {
    var r := Start(Shipped, Given(subject, NoOptions), Some(target), Some(100.0), Some("linear"), 1000.0);
    session := r.value;
  }

  /** Tween `{x: 0}` to `{x: 100}` over 100 ms with `'linear'`, started at
      time 1000: halfway through `x` is 50, and stopping there without going
      to the end keeps it at 50 and never calls back. */
  method StopHalfway() returns (halfway: real, afterStop: real, callbacks: nat)
    ensures halfway == 50.0 && afterStop == 50.0 && callbacks == 0
  {
    var subject := new Props(map["x" := 0.0]);
    var target := new Props(map["x" := 100.0]);
    var session := StartLinear(subject, target);
    session.Tick(1050.0);
    assert subject.values["x"] == Linear(50.0, 0.0, 100.0, 100.0);
    halfway := subject.values["x"];
    session.Stop(false);
    afterStop := subject.values["x"];
    callbacks := session.callbackCalls;
  }

  /** The same tween left to run past its end lands exactly on 100, calls
      back once and schedules nothing more. */
  method RunToExpiry() returns (expired: real, callbacks: nat, pending: bool)
    ensures expired == 100.0 && callbacks == 1 && !pending
  {
    var subject := new Props(map["x" := 0.0]);
    var target := new Props(map["x" := 100.0]);
    var session := StartLinear(subject, target);
    session.Tick(1050.0);
    assert subject.values.Keys == {"x"};
    session.Tick(1100.0);
    expired := subject.values["x"];
    callbacks := session.callbackCalls;
    pending := session.pending;
  }

  /** An easing name nobody registered eases exactly as `'linear'`, and a
      zero duration falls back to the default 500 ms. */
  method UnknownEasingAndZeroDuration() returns (quarter: real, duration: real)
    ensures quarter == 25.0 && duration == 500.0
  {
    var subject := new Props(map["x" := 0.0]);
    var target := new Props(map["x" := 100.0]);
    var r := Start(Shipped, Given(subject, NoOptions), Some(target), Some(0.0), Some("bogus"), 0.0);
    var session := r.value;
    assert session.easing == Linear && session.duration == 500.0;
    session.Tick(125.0);
    assert subject.values["x"] == Linear(125.0, 0.0, 100.0, 500.0);
    quarter := subject.values["x"];
    duration := session.duration;
  }
}
