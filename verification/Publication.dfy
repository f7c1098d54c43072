/**
 The health publication loop: probe, dampen, publish, and turn the applied proof into permission to
 bind. Every outcome except an accepted healthy proof withdraws permission.
 */
module Publication {
  import opened Prelude
  import F = Freshness
  import H = Health

  datatype Readiness = Pending | Ready | Failed

  datatype Publish = Applied(progress: F.Progress) | Unavailable | Rejected

  /**
   What one iteration meets: a bind fault that arrives while it waits, the probe result, a bind fault
   that arrives after the probe was taken, the publisher's readiness, its activation readiness before
   and after publishing, what publishing yields for either health, and the time of recording.
   */
  datatype Round = Round(
    fault: Option<H.BindFault>,
    probe: bool,
    lateFault: Option<H.BindFault>,
    readiness: Readiness,
    readyBefore: bool,
    publish: bool -> Publish,
    readyAfter: bool,
    at: F.Instant)

  datatype Loop = Loop(dampener: H.Dampener, status: H.Status, proof: F.Proof, faultReported: bool)

  function Faulted(s: H.Status, fault: Option<H.BindFault>): H.Status {
    match fault
    case None => s
    case Some(f) => H.Step(s, H.Fault(f))
  }

  /** The raw result: a fault not yet reported comes first, then the probe. */
  function Raw(l: Loop, r: Round): bool {
    if !l.faultReported && Faulted(l.status, r.fault).fault.Some? then false else r.probe
  }

  /** Local health as the iteration sees it. */
  function StatusIn(l: Loop, r: Round): H.Status {
    var effective := H.Observed(l.dampener, Raw(l, r)).effective;
    Faulted(H.Step(Faulted(l.status, r.fault), H.Probe(effective)), r.lateFault)
  }

  predicate HealthyIn(l: Loop, r: Round) {
    H.Healthy(StatusIn(l, r))
  }

  /** What the iteration publishes and gets back. */
  function Published(l: Loop, r: Round): Publish {
    r.publish(HealthyIn(l, r) && r.readyBefore)
  }

  function Recorded(p: F.Proof, progress: F.Progress, ready: bool, lifetime: Time, at: F.Instant): F.Proof {
    if ready && F.RecordVerdict(p, progress, lifetime, at) == F.Accepted then F.AfterRecord(p, progress, lifetime, at)
    else F.AfterDrop(p)
  }

  function ProofAfter(l: Loop, r: Round, lifetime: Time): F.Proof {
    var p := if HealthyIn(l, r) then l.proof else F.AfterDrop(l.proof);
    if !r.readiness.Ready? then F.AfterDrop(p)
    else
      match Published(l, r)
      case Applied(progress) => Recorded(p, progress, r.readyAfter, lifetime, r.at)
      case Unavailable => F.AfterOutage(p)
      case Rejected => F.AfterDrop(p)
  }

  function Iterated(l: Loop, r: Round, lifetime: Time): Loop {
    Loop(
      H.Observed(l.dampener, Raw(l, r)),
      StatusIn(l, r),
      ProofAfter(l, r, lifetime),
      l.faultReported || Faulted(l.status, r.fault).fault.Some?)
  }

  class Publisher {
    const dampener: H.FailureDampener
    const health: H.LocalHealth
    const freshness: F.ConsensusFreshness
    var faultReported: bool

    constructor (delay: nat, health: H.LocalHealth, freshness: F.ConsensusFreshness)
      ensures this.health == health && this.freshness == freshness && fresh(dampener)
      ensures dampener.state == H.Dampener(delay, 0, false) && !faultReported
    {
      dampener := new H.FailureDampener(delay);
      this.health := health;
      this.freshness := freshness;
      faultReported := false;
    }

    function State(): Loop
      reads this, dampener, health, freshness
    {
      Loop(dampener.state, health.status, freshness.proof, faultReported)
    }

    method RecordProbe(ready: bool, progress: F.Progress, at: F.Instant)
      modifies freshness
      ensures freshness.proof == Recorded(old(freshness.proof), progress, ready, freshness.lifetime, at)
    {
      if ready {
        var verdict := freshness.RecordApplied(progress, at);
        if verdict != F.Accepted {
          freshness.Invalidate();
        }
      } else {
        freshness.Invalidate();
      }
    }

    /** The probe half of an iteration. */
    method Sense(r: Round) returns (ok: bool)
      modifies this, dampener, health
      ensures dampener.state == H.Observed(old(dampener.state), Raw(old(State()), r))
      ensures health.status == StatusIn(old(State()), r) && ok == HealthyIn(old(State()), r)
      ensures faultReported == (old(faultReported) || Faulted(old(health.status), r.fault).fault.Some?)
    {
      hide H.Step, H.Observed;
      if r.fault.Some? {
        health.FailBinding(r.fault.value);
      }
      var raw := r.probe;
      if !faultReported && health.status.fault.Some? {
        faultReported := true;
        raw := false;
      }
      var effective := dampener.Observe(raw);
      var _ := health.ObserveProbe(effective);
      if r.lateFault.Some? {
        health.FailBinding(r.lateFault.value);
      }
      ok := H.Healthy(health.status);
    }

    /** One turn of the endless loop. */
    method Iterate(r: Round)
      modifies this, dampener, health, freshness
      ensures State() == Iterated(old(State()), r, freshness.lifetime)
    {
      var ok := Sense(r);
      hide H.Observed, Raw, StatusIn, HealthyIn, F.AfterDrop, F.AfterOutage, Recorded;
      if !ok {
        freshness.Invalidate();
      }
      if !r.readiness.Ready? {
        freshness.Invalidate();
        return;
      }
      match r.publish(ok && r.readyBefore) {
        case Applied(progress) => RecordProbe(r.readyAfter, progress, r.at);
        case Unavailable => freshness.MarkUnavailable();
        case Rejected => freshness.Invalidate();
      }
    }
  }

  /** This iteration published, was ready to activate afterwards, and its healthy proof was accepted. */
  predicate Authorized(l: Loop, r: Round, lifetime: Time) {
    && r.readiness.Ready?
    && Published(l, r).Applied?
    && r.readyAfter
    && Published(l, r).progress.healthy == Some(true)
    && F.RecordVerdict(
         if HealthyIn(l, r) then l.proof else F.AfterDrop(l.proof), Published(l, r).progress, lifetime, r.at)
       == F.Accepted
  }

  /**
   After an iteration, for any outcomes and any proof before it, new bindings may be authorized
   exactly when that same iteration was authorized and its proof still holds; the permit is then
   for that proof.
   */
  lemma OnlyAuthorizedRoundsPermit(
      l: Loop, r: Round, lifetime: Time, identity: nat, hasLeader: bool, at: F.Instant)
    ensures var p := Iterated(l, r, lifetime).proof;
            var permit := F.Acquire(p, identity, hasLeader, lifetime, at);
            && (permit.Some? <==> hasLeader && Authorized(l, r, lifetime) && F.Fresh(p, lifetime, at))
            && (permit.Some? ==> permit.value.progress == Published(l, r).progress)
  {}

  /** The publisher reports the health it was asked to publish. */
  ghost predicate Truthful(r: Round) {
    forall healthy :: r.publish(healthy).Applied? ==> r.publish(healthy).progress.healthy == Some(healthy)
  }

  /** An iteration that is not locally healthy authorizes nothing and ends every permit issued before it. */
  lemma UnhealthyRoundRevokes(l: Loop, r: Round, lifetime: Time, permit: F.Permit, at: F.Instant)
    requires Truthful(r) && !HealthyIn(l, r)
    requires l.proof.invalidationEpoch < TWO_TO_64 && permit.stamp.epoch == l.proof.invalidationEpoch
    ensures !Authorized(l, r, lifetime)
    ensures !F.Check(permit, Iterated(l, r, lifetime).proof, at)
  {
    assert Published(l, r).Applied? ==> Published(l, r).progress.healthy == Some(false);
  }

  function After(l: Loop, rounds: seq<Round>, lifetime: Time): Loop
    decreases |rounds|
  {
    if rounds == [] then l else After(Iterated(l, rounds[0], lifetime), rounds[1..], lifetime)
  }

  lemma FaultStays(l: Loop, r: Round, lifetime: Time)
    requires l.status.fault.Some?
    ensures Iterated(l, r, lifetime).status.fault.Some? && !HealthyIn(l, r)
  {}

  /** Once a bind fault is latched, no later iteration of any run authorizes new bindings. */
  lemma {:induction false} FaultEndsPermission(
      l: Loop, rounds: seq<Round>, lifetime: Time, identity: nat, hasLeader: bool, at: F.Instant)
    requires l.status.fault.Some? && rounds != [] && forall k :: 0 <= k < |rounds| ==> Truthful(rounds[k])
    ensures F.Acquire(After(l, rounds, lifetime).proof, identity, hasLeader, lifetime, at).None?
    decreases |rounds|
  {
    FaultStays(l, rounds[0], lifetime);
    if |rounds| == 1 {
      OnlyAuthorizedRoundsPermit(l, rounds[0], lifetime, identity, hasLeader, at);
      assert Truthful(rounds[0]);
    } else {
      FaultEndsPermission(Iterated(l, rounds[0], lifetime), rounds[1..], lifetime, identity, hasLeader, at);
    }
  }

  /** Withdrawals by other tasks only take permission away. */
  lemma WithdrawalNeverPermits(p: F.Proof, identity: nat, hasLeader: bool, lifetime: Time, at: F.Instant)
    ensures F.Acquire(F.AfterOutage(p), identity, hasLeader, lifetime, at).None?
    ensures F.Acquire(F.AfterDrop(p), identity, hasLeader, lifetime, at).None?
  {}
}
