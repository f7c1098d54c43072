/**
 Local health: a probe smoothed by a grace period, and a bind fault that lasts for the life of the
 process. A continuity token taken while healthy dies with the first loss of health.
 */
module Health {
  import opened Prelude

  // ---- Failure dampening ----

  datatype Dampener = Dampener(delay: nat, failures: nat, effective: bool)

  function Observed(d: Dampener, raw: bool): Dampener {
    if raw then d.(failures := 0, effective := true)
    else if !d.effective then d
    else
      var failures := SaturatingAdd(d.failures, 1);
      d.(failures := failures, effective := failures <= d.delay)
  }

  class FailureDampener {
    var state: Dampener

    constructor (delay: nat)
      ensures state == Dampener(delay, 0, false)
    {
      state := Dampener(delay, 0, false);
    }

    method Observe(raw: bool) returns (healthy: bool)
      modifies this
      ensures state == Observed(old(state), raw) && healthy == state.effective
    {
      if raw {
        state := state.(failures := 0, effective := true);
        return true;
      }
      if !state.effective {
        return false;
      }
      state := state.(failures := SaturatingAdd(state.failures, 1));
      if state.failures > state.delay {
        state := state.(effective := false);
      }
      return state.effective;
    }
  }

  function Dampened(delay: nat, probes: seq<bool>): Dampener {
    if probes == [] then Dampener(delay, 0, false)
    else Observed(Dampened(delay, probes[..|probes| - 1]), probes[|probes| - 1])
  }

  /** Failures after the latest success, or none if there was no success. */
  function FailuresSince(probes: seq<bool>): Option<nat> {
    if probes == [] then None
    else if probes[|probes| - 1] then Some(0)
    else
      match FailuresSince(probes[..|probes| - 1])
      case None => None
      case Some(n) => Some(n + 1)
  }

  /** What the count means: the latest success and nothing but failures after it. */
  lemma {:induction false} FailuresSinceLatest(probes: seq<bool>)
    ensures FailuresSince(probes).None? <==> true !in probes
    ensures FailuresSince(probes).Some? ==>
              var n := FailuresSince(probes).value;
              n < |probes| && probes[|probes| - 1 - n] && true !in probes[|probes| - n..]
    decreases |probes|
  {
    if probes != [] {
      var front := probes[..|probes| - 1];
      FailuresSinceLatest(front);
      assert probes == front + [probes[|probes| - 1]];
      if FailuresSince(probes).Some? {
        var n := FailuresSince(probes).value;
        assert n > 0 ==> probes[|probes| - n..] == front[|front| - (n - 1)..] + [false];
      }
    }
  }

  /**
   For every probe sequence and every delay below the counter's limit, the observed health is true
   exactly when a success has occurred and at most `delay` failures follow the latest one.
   */
  lemma {:induction false} DampenerIsItsHistory(delay: nat, probes: seq<bool>)
    requires delay < U64_MAX
    ensures var d := Dampened(delay, probes);
            var since := FailuresSince(probes);
            && d.delay == delay
            && (d.effective <==> since.Some? && since.value <= delay)
            && (d.effective ==> d.failures == since.value)
    decreases |probes|
  {
    if probes != [] {
      DampenerIsItsHistory(delay, probes[..|probes| - 1]);
    }
  }

  /** At the counter's limit the grace period would never end: the bound on the delay is needed. */
  lemma {:induction false} UnboundedGrace(probes: seq<bool>)
    ensures Dampened(U64_MAX, probes).effective <==> FailuresSince(probes).Some?
    ensures Dampened(U64_MAX, probes).delay == U64_MAX && Dampened(U64_MAX, probes).failures <= U64_MAX
    decreases |probes|
  {
    if probes != [] {
      UnboundedGrace(probes[..|probes| - 1]);
    }
  }

  /** Probe rounds that cover a duration: the least number of intervals that reaches it. */
  function ProbeRounds(seconds: nat, intervalMs: nat): (rounds: nat)
    requires seconds <= U32_MAX && intervalMs <= U64_MAX
    ensures rounds < U64_MAX
    ensures rounds * Max(1, intervalMs) >= seconds * 1000
    ensures rounds > 0 ==> (rounds - 1) * Max(1, intervalMs) < seconds * 1000
  {
    if seconds == 0 then 0
    else
      var interval := Max(1, intervalMs);
      CeilingDivides(seconds * 1000, interval);
      Min((seconds * 1000 + interval - 1) / interval, U64_MAX)
  }

  lemma {:induction false} AtLeast(x: nat, b: nat)
    requires b > 0
    ensures x * b >= x
  {
    if x > 0 {
      AtLeast(x - 1, b);
      assert x * b == (x - 1) * b + b;
    }
  }

  lemma Quotient(q: int, r: int, a: nat, b: nat)
    requires b > 0 && 0 <= r < b && q >= 0 && q * b + r == a + b - 1
    ensures q * b >= a && (q - 1) * b < a && q <= a
  {
    assert (q - 1) * b == q * b - b;
    if q > 0 { AtLeast(q - 1, b); }
  }

  lemma CeilingDivides(a: nat, b: nat)
    requires b > 0
    ensures var q := (a + b - 1) / b; q * b >= a && (q - 1) * b < a && q <= a
  {
    Quotient((a + b - 1) / b, (a + b - 1) % b, a, b);
  }

  // ---- Effective health and its continuity ----

  datatype BindFault = Failed | TimedOut

  datatype Status = Status(probeHealthy: bool, fault: Option<BindFault>, lossEpoch: nat)

  predicate Healthy(s: Status) {
    s.probeHealthy && s.fault.None?
  }

  function Lost(s: Status): nat {
    SaturatingAdd(s.lossEpoch, 1)
  }

  datatype Event = Probe(healthy: bool) | Fault(fault: BindFault)

  function Step(s: Status, e: Event): Status {
    match e
    case Probe(healthy) =>
      var t := s.(probeHealthy := healthy);
      if Healthy(s) && !Healthy(t) then t.(lossEpoch := Lost(s)) else t
    case Fault(fault) =>
      if s.fault.Some? then s
      else s.(fault := Some(fault), lossEpoch := if Healthy(s) then Lost(s) else s.lossEpoch)
  }

  class LocalHealth {
    var status: Status

    constructor (probeHealthy: bool)
      ensures status == Status(probeHealthy, None, 0)
    {
      status := Status(probeHealthy, None, 0);
    }

    method ObserveProbe(healthy: bool) returns (previous: bool)
      modifies this
      ensures status == Step(old(status), Probe(healthy)) && previous == Healthy(old(status))
    {
      previous := Healthy(status);
      status := status.(probeHealthy := healthy);
      if previous && !Healthy(status) {
        status := status.(lossEpoch := SaturatingAdd(status.lossEpoch, 1));
      }
    }

    method FailBinding(fault: BindFault)
      modifies this
      ensures status == Step(old(status), Fault(fault))
    {
      if status.fault.Some? {
        return;
      }
      if Healthy(status) {
        status := status.(lossEpoch := SaturatingAdd(status.lossEpoch, 1));
      }
      status := status.(fault := Some(fault));
    }
  }

  /** A token remembers the loss epoch at which it was taken. */
  predicate Continuous(token: nat, s: Status) {
    Healthy(s) && s.lossEpoch == token && token != U64_MAX
  }

  function After(s: Status, events: seq<Event>): Status
    decreases |events|
  {
    if events == [] then s else After(Step(s, events[0]), events[1..])
  }

  /** Health never goes from good to bad along the run. */
  predicate NeverDrops(s: Status, events: seq<Event>)
    decreases |events|
  {
    events == [] ||
    (!(Healthy(s) && !Healthy(Step(s, events[0]))) && NeverDrops(Step(s, events[0]), events[1..]))
  }

  lemma {:induction false} EpochsMarkDrops(s: Status, events: seq<Event>)
    requires s.lossEpoch <= U64_MAX
    ensures s.lossEpoch <= After(s, events).lossEpoch <= U64_MAX
    ensures NeverDrops(s, events) ==> After(s, events).lossEpoch == s.lossEpoch
    ensures !NeverDrops(s, events) ==> After(s, events).lossEpoch > s.lossEpoch || s.lossEpoch == U64_MAX
    decreases |events|
  {
    if events != [] {
      EpochsMarkDrops(Step(s, events[0]), events[1..]);
    }
  }

  /**
   A token taken in any state checks after any run exactly when health is good now, never dropped
   since, and the epoch has not run out. One taken while healthy checks only if health held throughout.
   */
  lemma ContinuityIsUnbroken(s: Status, events: seq<Event>)
    requires s.lossEpoch <= U64_MAX
    ensures Continuous(s.lossEpoch, After(s, events)) <==>
            Healthy(After(s, events)) && NeverDrops(s, events) && s.lossEpoch < U64_MAX
    ensures Healthy(s) && Continuous(s.lossEpoch, After(s, events)) ==> HealthyThroughout(s, events)
  {
    EpochsMarkDrops(s, events);
    if Healthy(s) && NeverDrops(s, events) { UndroppedIsHealthy(s, events); }
  }

  ghost predicate HealthyThroughout(s: Status, events: seq<Event>) {
    forall k :: 0 <= k <= |events| ==> Healthy(After(s, events[..k]))
  }

  lemma {:induction false} UndroppedIsHealthy(s: Status, events: seq<Event>)
    requires Healthy(s) && NeverDrops(s, events)
    ensures HealthyThroughout(s, events)
    decreases |events|
  {
    if events != [] {
      UndroppedIsHealthy(Step(s, events[0]), events[1..]);
      forall k | 0 <= k <= |events| ensures Healthy(After(s, events[..k])) {
        if k > 0 {
          assert events[..k][0] == events[0] && events[..k][1..] == events[1..][..k - 1];
        }
      }
    }
  }

  /** The first fault of the run. */
  function FirstFault(events: seq<Event>): Option<BindFault> {
    if events == [] then None
    else if events[0].Fault? then Some(events[0].fault)
    else FirstFault(events[1..])
  }

  predicate RestartRequested(s: Status) {
    s.fault == Some(TimedOut)
  }

  /**
   A fault is permanent: once set, no run changes it or makes the process healthy again. A fresh
   process has a fault exactly when the run contains one, the first one decides, and a restart is
   requested exactly when that first fault was a timeout.
   */
  lemma {:induction false} FirstFaultDecides(s: Status, events: seq<Event>)
    ensures After(s, events).fault == if s.fault.Some? then s.fault else FirstFault(events)
    ensures s.fault.Some? ==> !Healthy(After(s, events))
    ensures s.fault.None? ==> (RestartRequested(After(s, events)) <==> FirstFault(events) == Some(TimedOut))
    decreases |events|
  {
    if events != [] {
      FirstFaultDecides(Step(s, events[0]), events[1..]);
    }
  }
}
