/**
 The quorum-proof lease and its permits.

 A proof is timed from the start of its request. The invalidation epoch separates one unbroken
 stretch of proofs from the next; the acquisition epoch separates stretches in which new bindings
 may be created. A permit remembers the epochs it was issued under.
 */
module Freshness {
  import opened Prelude
  import opened Identity

  datatype Progress = Progress(
    started: Time, context: AdmissionContext, logId: LogId, healthy: Option<bool>, acceptedDeadline: Time)

  datatype Proof = Proof(
    started: Option<Time>, invalidationEpoch: nat, acquisitionEpoch: nat, available: bool, progress: Option<Progress>)

  /** One clock reading together with the contexts the runtime authority stands for then. */
  datatype Instant = Instant(now: Time, holds: AdmissionContext -> bool)

  datatype Verdict = Accepted | NotHealthy | Revoked | Overflow | OutsideLifetime | NotAdvancing

  datatype Stamp = Stamp(identity: nat, context: AdmissionContext, epoch: nat)

  datatype Permit = Permit(stamp: Stamp, acquisitionEpoch: Option<nat>, deadline: Time, progress: Progress)

  const NO_PROOF := Proof(None, 0, 0, false, None)

  /** `VerifiedProgress::check` */
  predicate Live(p: Progress, at: Instant) {
    at.holds(p.context) && at.now < p.acceptedDeadline
  }

  function Deadline(p: Proof, lifetime: Time): Option<Time> {
    if p.started.None? then None else
      match CheckedAdd(p.started.value, lifetime)
      case None => None
      case Some(end) => Some(if p.progress.None? then end else Min(end, p.progress.value.acceptedDeadline))
  }

  predicate Fresh(p: Proof, lifetime: Time, at: Instant) {
    && Deadline(p, lifetime).Some?
    && at.now < Deadline(p, lifetime).value
    && (p.progress.Some? ==> Live(p.progress.value, at))
  }

  /** The tests `record_applied` makes on the new progress alone. */
  function Screen(progress: Progress, lifetime: Time, at: Instant): Verdict {
    if progress.healthy != Some(true) then NotHealthy
    else if !Live(progress, at) then Revoked
    else
      match CheckedAdd(progress.started, lifetime)
      case None => Overflow
      case Some(end) =>
        if progress.started > at.now || at.now >= Min(end, progress.acceptedDeadline) then OutsideLifetime else Accepted
  }

  predicate BehindLog(progress: Progress, previous: Progress) {
    && previous.context == progress.context
    && (progress.logId.index <= previous.logId.index || AtMost(progress.logId, previous.logId))
  }

  function RecordVerdict(p: Proof, progress: Progress, lifetime: Time, at: Instant): Verdict {
    var screened := Screen(progress, lifetime, at);
    if screened != Accepted then screened
    else if (p.started.Some? && progress.started < p.started.value)
              || (p.progress.Some? && BehindLog(progress, p.progress.value)) then NotAdvancing
    else Accepted
  }

  /** Whether accepting `progress` starts a new stretch. */
  predicate Restarts(p: Proof, progress: Progress, lifetime: Time, at: Instant) {
    !Fresh(p, lifetime, at) || p.progress.None? || p.progress.value.context != progress.context
  }

  function AfterRecord(p: Proof, progress: Progress, lifetime: Time, at: Instant): Proof {
    if RecordVerdict(p, progress, lifetime, at) != Accepted then p
    else
      Proof(
        Some(progress.started),
        if Restarts(p, progress, lifetime, at) then WrappingIncrement(p.invalidationEpoch) else p.invalidationEpoch,
        p.acquisitionEpoch,
        true,
        Some(progress))
  }

  function AfterOutage(p: Proof): Proof {
    if p.available then p.(available := false, acquisitionEpoch := WrappingIncrement(p.acquisitionEpoch)) else p
  }

  function AfterDrop(p: Proof): Proof {
    p.(started := None, available := false, invalidationEpoch := WrappingIncrement(p.invalidationEpoch))
  }

  function Acquire(p: Proof, identity: nat, hasLeader: bool, lifetime: Time, at: Instant): Option<Permit> {
    if !hasLeader || !p.available || !Fresh(p, lifetime, at) || p.progress.None? then None else
      var progress := p.progress.value;
      Some(Permit(
             Stamp(identity, progress.context, p.invalidationEpoch),
             Some(p.acquisitionEpoch),
             Deadline(p, lifetime).value,
             progress))
  }

  function Retain(p: Proof, identity: nat, stamp: Stamp, lifetime: Time, at: Instant): Option<Permit> {
    if || p.progress.None?
       || identity != stamp.identity
       || p.invalidationEpoch != stamp.epoch
       || p.progress.value.context != stamp.context
       || !Fresh(p, lifetime, at)
    then None
    else Some(Permit(stamp, None, Deadline(p, lifetime).value, p.progress.value))
  }

  predicate Check(permit: Permit, p: Proof, at: Instant) {
    && at.now < permit.deadline
    && Live(permit.progress, at)
    && p.invalidationEpoch == permit.stamp.epoch
    && p.progress.Some?
    && p.progress.value.context == permit.stamp.context
    && Live(p.progress.value, at)
    && (permit.acquisitionEpoch.Some? ==> p.available && p.acquisitionEpoch == permit.acquisitionEpoch.value)
  }

  class ConsensusFreshness {
    const lifetime: Time
    const identity: nat
    var proof: Proof

    constructor (lifetime: Time, identity: nat)
      ensures proof == NO_PROOF && this.lifetime == lifetime && this.identity == identity
    {
      this.lifetime := lifetime;
      this.identity := identity;
      proof := NO_PROOF;
    }

    method RecordApplied(progress: Progress, at: Instant) returns (verdict: Verdict)
      modifies this
      ensures proof == AfterRecord(old(proof), progress, lifetime, at)
      ensures verdict == RecordVerdict(old(proof), progress, lifetime, at)
    {
      verdict := Screen(progress, lifetime, at);
      if verdict != Accepted {
        return;
      }
      if proof.started.Some? && progress.started < proof.started.value {
        return NotAdvancing;
      }
      if proof.progress.Some? && BehindLog(progress, proof.progress.value) {
        return NotAdvancing;
      }
      var next := proof;
      if !Fresh(proof, lifetime, at) || proof.progress.None? || proof.progress.value.context != progress.context {
        next := next.(invalidationEpoch := WrappingIncrement(proof.invalidationEpoch));
      }
      next := next.(started := Some(progress.started));
      next := next.(progress := Some(progress));
      next := next.(available := true);
      proof := next;
    }

    method MarkUnavailable()
      modifies this
      ensures proof == AfterOutage(old(proof))
    {
      if !proof.available {
        return;
      }
      proof := proof.(available := false);
      proof := proof.(acquisitionEpoch := WrappingIncrement(proof.acquisitionEpoch));
    }

    method Invalidate()
      modifies this
      ensures proof == AfterDrop(old(proof))
    {
      proof := proof.(started := None);
      proof := proof.(available := false);
      proof := proof.(invalidationEpoch := WrappingIncrement(proof.invalidationEpoch));
    }
  }

  // ---- Runs ----

  datatype Op = Record(progress: Progress) | Unavailable | Drop

  datatype Event = Event(at: Instant, op: Op)

  function Apply(p: Proof, lifetime: Time, e: Event): Proof {
    match e.op
    case Record(progress) => AfterRecord(p, progress, lifetime, e.at)
    case Unavailable => AfterOutage(p)
    case Drop => AfterDrop(p)
  }

  function After(p: Proof, lifetime: Time, run: seq<Event>): Proof
    decreases |run|
  {
    if run == [] then p else After(Apply(p, lifetime, run[0]), lifetime, run[1..])
  }

  /** Facts every reachable proof has. */
  predicate Coherent(p: Proof) {
    && p.invalidationEpoch < TWO_TO_64
    && p.acquisitionEpoch < TWO_TO_64
    && (p.started.Some? ==> p.progress.Some? && p.started.value == p.progress.value.started)
    && (p.available ==> p.started.Some?)
  }

  predicate Accepts(p: Proof, lifetime: Time, e: Event) {
    e.op.Record? && RecordVerdict(p, e.op.progress, lifetime, e.at) == Accepted
  }

  /** Whether the event moves the invalidation epoch. */
  predicate Breaks(p: Proof, lifetime: Time, e: Event) {
    e.op.Drop? || (Accepts(p, lifetime, e) && Restarts(p, e.op.progress, lifetime, e.at))
  }

  function BreakCount(p: Proof, lifetime: Time, run: seq<Event>): nat
    decreases |run|
  {
    if run == [] then 0
    else (if Breaks(p, lifetime, run[0]) then 1 else 0) + BreakCount(Apply(p, lifetime, run[0]), lifetime, run[1..])
  }

  function OutageCount(p: Proof, lifetime: Time, run: seq<Event>): nat
    decreases |run|
  {
    if run == [] then 0
    else
      (if run[0].op.Unavailable? && p.available then 1 else 0)
      + OutageCount(Apply(p, lifetime, run[0]), lifetime, run[1..])
  }

  lemma ApplyCoherent(p: Proof, lifetime: Time, e: Event)
    requires Coherent(p)
    ensures Coherent(Apply(p, lifetime, e))
  {
  }

  lemma WrapAdd(e: nat, n: nat)
    requires e < TWO_TO_64
    ensures (WrappingIncrement(e) + n) % TWO_TO_64 == (e + (1 + n)) % TWO_TO_64
  {
    if e + 1 == TWO_TO_64 {
      assert e + (1 + n) == TWO_TO_64 + n;
    }
  }

  /** Both epochs count, modulo the counter width, exactly the events that change them. */
  lemma {:induction false} EpochsCount(p: Proof, lifetime: Time, run: seq<Event>)
    requires Coherent(p)
    ensures var q := After(p, lifetime, run);
            && Coherent(q)
            && q.invalidationEpoch == (p.invalidationEpoch + BreakCount(p, lifetime, run)) % TWO_TO_64
            && q.acquisitionEpoch == (p.acquisitionEpoch + OutageCount(p, lifetime, run)) % TWO_TO_64
    decreases |run|
  {
    if run != [] {
      var next := Apply(p, lifetime, run[0]);
      ApplyCoherent(p, lifetime, run[0]);
      EpochsCount(next, lifetime, run[1..]);
      WrapAdd(p.invalidationEpoch, BreakCount(next, lifetime, run[1..]));
      WrapAdd(p.acquisitionEpoch, OutageCount(next, lifetime, run[1..]));
    }
  }

  lemma NoWrap(e: nat, n: nat)
    requires e < TWO_TO_64 && n < TWO_TO_64
    ensures (e + n) % TWO_TO_64 == e <==> n == 0
  {
    if n > 0 && e + n >= TWO_TO_64 {
      assert (e + n) % TWO_TO_64 == e + n - TWO_TO_64;
    }
  }

  /** Short of a full turn of the counters, equal epochs mean that nothing happened in between. */
  lemma EqualEpochs(p: Proof, lifetime: Time, run: seq<Event>)
    requires Coherent(p)
    ensures Coherent(After(p, lifetime, run))
    ensures BreakCount(p, lifetime, run) < TWO_TO_64 ==>
              (After(p, lifetime, run).invalidationEpoch == p.invalidationEpoch <==> BreakCount(p, lifetime, run) == 0)
    ensures OutageCount(p, lifetime, run) < TWO_TO_64 ==>
              (After(p, lifetime, run).acquisitionEpoch == p.acquisitionEpoch <==> OutageCount(p, lifetime, run) == 0)
  {
    EpochsCount(p, lifetime, run);
    if BreakCount(p, lifetime, run) < TWO_TO_64 {
      NoWrap(p.invalidationEpoch, BreakCount(p, lifetime, run));
    }
    if OutageCount(p, lifetime, run) < TWO_TO_64 {
      NoWrap(p.acquisitionEpoch, OutageCount(p, lifetime, run));
    }
  }

  // ---- History, told without epochs ----

  /** `last` is still inside its own request lifetime, its certificate and its authority. */
  predicate Unexpired(last: Progress, lifetime: Time, at: Instant) {
    at.now < last.started + lifetime && Live(last, at)
  }

  /** A proof that would be accepted right after `last`. */
  predicate Succeeds(last: Progress, next: Progress, lifetime: Time, at: Instant) {
    && next.healthy == Some(true)
    && Unexpired(next, lifetime, at)
    && next.started + lifetime <= LAST_INSTANT
    && last.started <= next.started <= at.now
    && !BehindLog(next, last)
  }

  /**
   Since `last` was accepted nothing was invalidated, and every accepted proof found its
   predecessor unexpired, unrevoked and in its own context.
   */
  predicate Unbroken(last: Progress, lifetime: Time, run: seq<Event>)
    decreases |run|
  {
    run == [] ||
    match run[0].op
    case Drop => false
    case Unavailable => Unbroken(last, lifetime, run[1..])
    case Record(next) =>
      if !Succeeds(last, next, lifetime, run[0].at) then Unbroken(last, lifetime, run[1..])
      else Unexpired(last, lifetime, run[0].at) && next.context == last.context && Unbroken(next, lifetime, run[1..])
  }

  /** The proof in force at the end of the run when `last` was in force at its start. */
  function InForce(last: Progress, lifetime: Time, run: seq<Event>): Progress
    decreases |run|
  {
    if run == [] then last
    else if run[0].op.Record? && Succeeds(last, run[0].op.progress, lifetime, run[0].at)
    then InForce(run[0].op.progress, lifetime, run[1..])
    else InForce(last, lifetime, run[1..])
  }

  predicate NoOutage(run: seq<Event>) {
    forall i :: 0 <= i < |run| ==> !run[i].op.Unavailable?
  }

  /** `last` is the proof in force and has never overflowed the clock. */
  predicate Carries(p: Proof, last: Progress, lifetime: Time) {
    && Coherent(p)
    && p.started == Some(last.started)
    && p.progress == Some(last)
    && last.started + lifetime <= LAST_INSTANT
  }

  lemma {:induction false} HistoryMatchesProof(p: Proof, last: Progress, lifetime: Time, run: seq<Event>)
    requires Carries(p, last, lifetime)
    ensures Unbroken(last, lifetime, run) <==> BreakCount(p, lifetime, run) == 0
    ensures Unbroken(last, lifetime, run) ==>
              && Carries(After(p, lifetime, run), InForce(last, lifetime, run), lifetime)
              && InForce(last, lifetime, run).context == last.context
    ensures Unbroken(last, lifetime, run) && p.available ==>
              (NoOutage(run) <==> OutageCount(p, lifetime, run) == 0)
    ensures Unbroken(last, lifetime, run) && p.available && NoOutage(run) ==> After(p, lifetime, run).available
    decreases |run|
  {
    if run != [] {
      var next := Apply(p, lifetime, run[0]);
      ApplyCoherent(p, lifetime, run[0]);
      assert NoOutage(run) <==> !run[0].op.Unavailable? && NoOutage(run[1..]) by {
        if !run[0].op.Unavailable? && NoOutage(run[1..]) {
          forall i | 0 <= i < |run| ensures !run[i].op.Unavailable? {
            if i > 0 { assert run[i] == run[1..][i - 1]; }
          }
        }
        if NoOutage(run) {
          assert forall i :: 0 <= i < |run| - 1 ==> run[1..][i] == run[i + 1];
        }
      }
      match run[0].op {
        case Drop =>
        case Unavailable => HistoryMatchesProof(next, last, lifetime, run[1..]);
        case Record(progress) =>
          if Succeeds(last, progress, lifetime, run[0].at) {
            assert Accepts(p, lifetime, run[0]);
            if Unexpired(last, lifetime, run[0].at) && progress.context == last.context {
              HistoryMatchesProof(next, progress, lifetime, run[1..]);
            }
          } else {
            assert !Accepts(p, lifetime, run[0]);
            HistoryMatchesProof(p, last, lifetime, run[1..]);
          }
      }
    }
  }

  ghost predicate IssuedBy(permit: Permit, p: Proof, identity: nat, lifetime: Time, at: Instant) {
    || Acquire(p, identity, true, lifetime, at) == Some(permit)
    || Retain(p, identity, permit.stamp, lifetime, at) == Some(permit)
  }

  /**
   A permit checks true exactly when its own deadline has not passed, authority still holds, the
   certificate of the proof in force has not run out, and the stretch it was issued in was never
   broken; a permit to acquire also needs that no outage was marked since.
   */
  lemma PermitMatchesHistory(
    permit: Permit, p: Proof, identity: nat, lifetime: Time, issued: Instant, run: seq<Event>, at: Instant)
    requires Coherent(p) && IssuedBy(permit, p, identity, lifetime, issued)
    requires BreakCount(p, lifetime, run) < TWO_TO_64 && OutageCount(p, lifetime, run) < TWO_TO_64
    ensures Check(permit, After(p, lifetime, run), at) <==>
              && at.now < permit.deadline
              && at.holds(permit.stamp.context)
              && at.now < InForce(permit.progress, lifetime, run).acceptedDeadline
              && Unbroken(permit.progress, lifetime, run)
              && (permit.acquisitionEpoch.Some? ==> NoOutage(run))
  {
    HistoryMatchesProof(p, permit.progress, lifetime, run);
    EqualEpochs(p, lifetime, run);
  }

  /** When no recorded proof has an earlier certificate, neither has the proof in force. */
  lemma {:induction false} CertificatesOnlyGrow(last: Progress, floor: Time, lifetime: Time, run: seq<Event>)
    requires floor <= last.acceptedDeadline
    requires forall i :: 0 <= i < |run| && run[i].op.Record? ==> floor <= run[i].op.progress.acceptedDeadline
    ensures floor <= InForce(last, lifetime, run).acceptedDeadline
    decreases |run|
  {
    if run != [] {
      var rest := run[1..];
      assert forall i :: 0 <= i < |rest| ==> rest[i] == run[i + 1];
      if run[0].op.Record? && Succeeds(last, run[0].op.progress, lifetime, run[0].at) {
        CertificatesOnlyGrow(run[0].op.progress, floor, lifetime, rest);
      } else {
        CertificatesOnlyGrow(last, floor, lifetime, rest);
      }
    }
  }

  // ---- No revival ----

  /** `b` is not earlier than `a`, and authority over `context` was not restored in between. */
  predicate NotBefore(a: Instant, b: Instant, context: AdmissionContext) {
    a.now <= b.now && (b.holds(context) ==> a.holds(context))
  }

  lemma {:induction false} StaleStaysStale(
    p: Proof, last: Progress, lifetime: Time, a: Instant, run: seq<Event>, b: Instant)
    requires Carries(p, last, lifetime) && !Fresh(p, lifetime, a)
    requires forall i :: 0 <= i < |run| ==> NotBefore(a, run[i].at, last.context)
    requires NotBefore(a, b, last.context)
    ensures BreakCount(p, lifetime, run) > 0 || !Fresh(After(p, lifetime, run), lifetime, b)
    decreases |run|
  {
    if run != [] {
      var next := Apply(p, lifetime, run[0]);
      ApplyCoherent(p, lifetime, run[0]);
      assert NotBefore(a, run[0].at, last.context);
      if !Breaks(p, lifetime, run[0]) {
        assert forall i :: 0 <= i < |run| - 1 ==> run[1..][i] == run[i + 1];
        StaleStaysStale(next, last, lifetime, a, run[1..], b);
      }
    }
  }

  lemma {:induction false} BreaksAdd(p: Proof, lifetime: Time, run: seq<Event>, more: seq<Event>)
    ensures After(p, lifetime, run + more) == After(After(p, lifetime, run), lifetime, more)
    ensures BreakCount(p, lifetime, run + more)
         == BreakCount(p, lifetime, run) + BreakCount(After(p, lifetime, run), lifetime, more)
    decreases |run|
  {
    if run == [] {
      assert run + more == more;
    } else {
      assert (run + more)[1..] == run[1..] + more;
      BreaksAdd(Apply(p, lifetime, run[0]), lifetime, run[1..], more);
    }
  }

  /**
   Once a stamp is refused it stays refused, whatever proofs are accepted later and even if no call
   ever saw the expiry itself.
   */
  lemma NoRevival(
    permit: Permit, p: Proof, identity: nat, lifetime: Time, issued: Instant,
    run: seq<Event>, refused: Instant, more: seq<Event>, later: Instant)
    requires Coherent(p) && Acquire(p, identity, true, lifetime, issued) == Some(permit)
    requires BreakCount(p, lifetime, run + more) < TWO_TO_64
    requires Retain(After(p, lifetime, run), identity, permit.stamp, lifetime, refused) == None
    requires forall i :: 0 <= i < |more| ==> NotBefore(refused, more[i].at, permit.stamp.context)
    requires NotBefore(refused, later, permit.stamp.context)
    ensures Retain(After(p, lifetime, run + more), identity, permit.stamp, lifetime, later) == None
  {
    var mid := After(p, lifetime, run);
    BreaksAdd(p, lifetime, run, more);
    EqualEpochs(p, lifetime, run);
    EqualEpochs(p, lifetime, run + more);
    if BreakCount(p, lifetime, run) == 0 {
      HistoryMatchesProof(p, permit.progress, lifetime, run);
      StaleStaysStale(mid, InForce(permit.progress, lifetime, run), lifetime, refused, more, later);
    }
  }

  /** An outage changes neither whether a completed binding may be kept nor for how long. */
  lemma OutageKeepsRetention(p: Proof, identity: nat, stamp: Stamp, lifetime: Time, at: Instant)
    ensures Retain(AfterOutage(p), identity, stamp, lifetime, at) == Retain(p, identity, stamp, lifetime, at)
  {
  }
}
