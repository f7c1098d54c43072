/**
 The runtime authority and the proof lease of one process, run together.

 The lease asks the authority whether a proof's context is still held; the authority activates at
 most one context in the life of the process and never restores it.
 */
module Lineage {
  import opened Prelude
  import opened Identity
  import Permission
  import A = Authority
  import F = Freshness

  datatype Process = Process(runtime: A.Runtime, proof: F.Proof)

  datatype Op = Admission(call: A.Call) | Lease(op: F.Op)

  datatype Event = Event(at: Time, op: Op)

  /** `AdmissionSession::check` on a session of `context`. */
  predicate Holds(hash: Hash, r: A.Runtime, now: Time, context: AdmissionContext) {
    var checked := A.Checked(hash, r, context, now).1;
    checked.Some? && now < checked.value
  }

  function Reading(hash: Hash, r: A.Runtime, now: Time): F.Instant {
    F.Instant(now, context => Holds(hash, r, now, context))
  }

  /** A healthy proof is checked against the authority, which notices its own expiry by that. */
  function Step(hash: Hash, s: Process, lifetime: Time, e: Event): Process {
    match e.op
    case Admission(call) => s.(runtime := A.Step(hash, s.runtime, A.Event(e.at, call)))
    case Lease(op) =>
      Process(
        if op.Record? && op.progress.healthy == Some(true) then A.Expire(s.runtime, e.at) else s.runtime,
        F.Apply(s.proof, lifetime, F.Event(Reading(hash, s.runtime, e.at), op)))
  }

  function After(hash: Hash, s: Process, lifetime: Time, run: seq<Event>): Process
    decreases |run|
  {
    if run == [] then s else After(hash, Step(hash, s, lifetime, run[0]), lifetime, run[1..])
  }

  function Boot(local: ReplicaId, quarantine: Time): Process {
    Process(A.Boot(local, quarantine), F.NO_PROOF)
  }

  /** Every proof accepted by the run, in order. */
  function AcceptedProofs(hash: Hash, s: Process, lifetime: Time, run: seq<Event>): seq<F.Progress>
    decreases |run|
  {
    if run == [] then [] else
      var e := run[0];
      var rest := AcceptedProofs(hash, Step(hash, s, lifetime, e), lifetime, run[1..]);
      if e.op.Lease? && F.Accepts(s.proof, lifetime, F.Event(Reading(hash, s.runtime, e.at), e.op.op))
      then [e.op.op.progress] + rest
      else rest
  }

  /** The proof in force belongs to the context the process activated. */
  ghost predicate Rooted(hash: Hash, s: Process) {
    && A.Bound(s.runtime)
    && (s.proof.progress.Some? ==>
          var context := s.proof.progress.value.context;
          || s.runtime.permission.Sealed?
          || A.Authorizes(hash, s.runtime, context))
  }

  lemma StepRooted(hash: Hash, s: Process, lifetime: Time, e: Event)
    requires Rooted(hash, s)
    ensures Rooted(hash, Step(hash, s, lifetime, e))
  {
    if e.op.Admission? {
      A.StepKeeps(hash, s.runtime, A.Event(e.at, e.op.call));
    }
  }

  ghost predicate Above(q: F.Progress, floor: Option<F.Progress>) {
    floor.Some? ==> q.context == floor.value.context && floor.value.logId.index < q.logId.index
  }

  ghost predicate Ascending(floor: Option<F.Progress>, proofs: seq<F.Progress>) {
    && (forall i :: 0 <= i < |proofs| ==> Above(proofs[i], floor))
    && (forall i, j :: 0 <= i < j < |proofs| ==> Above(proofs[j], Some(proofs[i])))
  }

  lemma AscendingCons(floor: Option<F.Progress>, first: F.Progress, rest: seq<F.Progress>)
    requires Above(first, floor) && Ascending(Some(first), rest)
    ensures Ascending(floor, [first] + rest)
  {
    var proofs := [first] + rest;
    forall i | 0 <= i < |proofs| ensures Above(proofs[i], floor) {
      if i > 0 { assert Above(rest[i - 1], Some(first)); }
    }
    forall i, j | 0 <= i < j < |proofs| ensures Above(proofs[j], Some(proofs[i])) {
      if i == 0 { assert Above(rest[j - 1], Some(first)); } else { assert Above(rest[j - 1], Some(rest[i - 1])); }
    }
  }

  lemma {:induction false} AcceptedAscend(hash: Hash, s: Process, lifetime: Time, run: seq<Event>)
    requires CollisionFree(hash) && Rooted(hash, s)
    ensures Ascending(s.proof.progress, AcceptedProofs(hash, s, lifetime, run))
    decreases |run|
  {
    if run != [] {
      var e := run[0];
      var t := Step(hash, s, lifetime, e);
      StepRooted(hash, s, lifetime, e);
      AcceptedAscend(hash, t, lifetime, run[1..]);
      if e.op.Lease? && F.Accepts(s.proof, lifetime, F.Event(Reading(hash, s.runtime, e.at), e.op.op)) {
        var first := e.op.op.progress;
        assert Holds(hash, s.runtime, e.at, first.context);
        AscendingCons(s.proof.progress, first, AcceptedProofs(hash, t, lifetime, run[1..]));
      }
    }
  }

  /**
   All proofs a process ever accepts share one context and have strictly increasing log indexes,
   whatever outages, invalidations and admissions come between them.
   */
  lemma OneContextPerProcess(hash: Hash, local: ReplicaId, quarantine: Time, lifetime: Time, run: seq<Event>)
    requires CollisionFree(hash)
    ensures var proofs := AcceptedProofs(hash, Boot(local, quarantine), lifetime, run);
            forall i, j :: 0 <= i < j < |proofs| ==>
                             && proofs[i].context == proofs[j].context
                             && proofs[i].logId.index < proofs[j].logId.index
  {
    AcceptedAscend(hash, Boot(local, quarantine), lifetime, run);
    var proofs := AcceptedProofs(hash, Boot(local, quarantine), lifetime, run);
    assert forall i, j :: 0 <= i < j < |proofs| ==> Above(proofs[j], Some(proofs[i]));
  }

  // ---- Authority is never restored ----

  predicate FromOn(t: Time, run: seq<Event>, end: Time) {
    && t <= end
    && (forall i :: 0 <= i < |run| ==> t <= run[i].at <= end)
    && (forall i, j :: 0 <= i < j < |run| ==> run[i].at <= run[j].at)
  }

  lemma {:induction false} DeadStaysDead(hash: Hash, s: Process, lifetime: Time, t: Time, run: seq<Event>, end: Time)
    requires A.Expire(s.runtime, t).permission.Sealed? && FromOn(t, run, end)
    ensures A.Expire(After(hash, s, lifetime, run).runtime, end).permission.Sealed?
    decreases |run|
  {
    if run != [] {
      assert t <= run[0].at;
      var next := Step(hash, s, lifetime, run[0]);
      assert A.Expire(next.runtime, t).permission.Sealed?;
      assert forall i :: 0 <= i < |run| - 1 ==> run[1..][i] == run[i + 1];
      DeadStaysDead(hash, next, lifetime, t, run[1..], end);
    }
  }

  lemma {:induction false} RunFollows(hash: Hash, s: Process, lifetime: Time, run: seq<Event>)
    requires A.Bound(s.runtime)
    ensures var r := After(hash, s, lifetime, run).runtime;
            A.Bound(r) && r.local == s.runtime.local && Permission.Follows(s.runtime.permission, r.permission)
    decreases |run|
  {
    if run != [] {
      var next := Step(hash, s, lifetime, run[0]);
      if run[0].op.Admission? {
        A.StepKeeps(hash, s.runtime, A.Event(run[0].at, run[0].op.call));
      }
      RunFollows(hash, next, lifetime, run[1..]);
    }
  }

  /** A context held at the end of a run was held all along by a process that is past quarantine. */
  lemma HeldAllAlong(
    hash: Hash, s: Process, lifetime: Time, t: Time, run: seq<Event>, end: Time, context: AdmissionContext)
    requires A.Bound(s.runtime) && !s.runtime.permission.Quarantined? && FromOn(t, run, end)
    requires Holds(hash, After(hash, s, lifetime, run).runtime, end, context)
    ensures Holds(hash, s.runtime, t, context)
  {
    RunFollows(hash, s, lifetime, run);
    if A.Expire(s.runtime, t).permission.Sealed? {
      DeadStaysDead(hash, s, lifetime, t, run, end);
    }
  }

  // ---- No revival, with the authority's own history in place of an assumption ----

  function LeaseEvents(hash: Hash, s: Process, lifetime: Time, run: seq<Event>): seq<F.Event>
    decreases |run|
  {
    if run == [] then [] else
      var rest := LeaseEvents(hash, Step(hash, s, lifetime, run[0]), lifetime, run[1..]);
      if run[0].op.Lease? then [F.Event(Reading(hash, s.runtime, run[0].at), run[0].op.op)] + rest else rest
  }

  lemma {:induction false} LeaseProjection(hash: Hash, s: Process, lifetime: Time, run: seq<Event>)
    ensures After(hash, s, lifetime, run).proof == F.After(s.proof, lifetime, LeaseEvents(hash, s, lifetime, run))
    decreases |run|
  {
    if run != [] {
      LeaseProjection(hash, Step(hash, s, lifetime, run[0]), lifetime, run[1..]);
    }
  }

  lemma {:induction false} AfterAppends(hash: Hash, s: Process, lifetime: Time, run: seq<Event>, more: seq<Event>)
    ensures After(hash, s, lifetime, run + more) == After(hash, After(hash, s, lifetime, run), lifetime, more)
    ensures LeaseEvents(hash, s, lifetime, run + more)
         == LeaseEvents(hash, s, lifetime, run) + LeaseEvents(hash, After(hash, s, lifetime, run), lifetime, more)
    decreases |run|
  {
    if run == [] {
      assert run + more == more;
    } else {
      assert (run + more)[1..] == run[1..] + more;
      AfterAppends(hash, Step(hash, s, lifetime, run[0]), lifetime, run[1..], more);
    }
  }

  lemma {:induction false} LaterReadingsNotBefore(
    hash: Hash, s: Process, lifetime: Time, t: Time, run: seq<Event>, end: Time, context: AdmissionContext)
    requires A.Bound(s.runtime) && !s.runtime.permission.Quarantined? && FromOn(t, run, end)
    ensures forall i :: 0 <= i < |LeaseEvents(hash, s, lifetime, run)| ==>
                          F.NotBefore(Reading(hash, s.runtime, t), LeaseEvents(hash, s, lifetime, run)[i].at, context)
    decreases |run|
  {
    if run != [] {
      var e := run[0];
      var next := Step(hash, s, lifetime, e);
      var rest := LeaseEvents(hash, next, lifetime, run[1..]);
      var all := LeaseEvents(hash, s, lifetime, run);
      RunFollows(hash, s, lifetime, [e]);
      assert After(hash, s, lifetime, [e]) == next by { assert [e][1..] == []; }
      assert forall i :: 0 <= i < |run| - 1 ==> run[1..][i] == run[i + 1];
      LaterReadingsNotBefore(hash, next, lifetime, e.at, run[1..], end, context);
      forall i | 0 <= i < |all| ensures F.NotBefore(Reading(hash, s.runtime, t), all[i].at, context) {
        if e.op.Lease? && i == 0 {
          if all[0].at.holds(context) { HeldAllAlong(hash, s, lifetime, t, [], e.at, context); }
        } else {
          var k := if e.op.Lease? then i - 1 else i;
          assert all[i] == rest[k];
          assert F.NotBefore(Reading(hash, next.runtime, e.at), rest[k].at, context);
          if rest[k].at.holds(context) {
            assert Holds(hash, next.runtime, e.at, context);
            HeldAllAlong(hash, s, lifetime, t, [e], e.at, context);
          }
        }
      }
    }
  }

  /**
   Retention refused once is refused for the rest of the process: no later admission, renewal or
   proof revives a stamp.
   */
  lemma RefusalIsFinal(
    hash: Hash, s: Process, identity: nat, lifetime: Time, issued: Time, permit: F.Permit,
    run: seq<Event>, refused: Time, more: seq<Event>, later: Time)
    requires A.Bound(s.runtime) && F.Coherent(s.proof)
    requires F.Acquire(s.proof, identity, true, lifetime, Reading(hash, s.runtime, issued)) == Some(permit)
    requires FromOn(issued, run, refused) && FromOn(refused, more, later)
    requires F.BreakCount(s.proof, lifetime, LeaseEvents(hash, s, lifetime, run + more)) < TWO_TO_64
    requires var mid := After(hash, s, lifetime, run);
             F.Retain(mid.proof, identity, permit.stamp, lifetime, Reading(hash, mid.runtime, refused)) == None
    ensures var end := After(hash, s, lifetime, run + more);
            F.Retain(end.proof, identity, permit.stamp, lifetime, Reading(hash, end.runtime, later)) == None
  {
    var mid := After(hash, s, lifetime, run);
    var end := After(hash, s, lifetime, run + more);
    var context := permit.stamp.context;
    assert Holds(hash, s.runtime, issued, context);
    RunFollows(hash, s, lifetime, run);
    AfterAppends(hash, s, lifetime, run, more);
    LeaseProjection(hash, s, lifetime, run);
    LeaseProjection(hash, s, lifetime, run + more);
    LaterReadingsNotBefore(hash, mid, lifetime, refused, more, later, context);
    if Holds(hash, end.runtime, later, context) {
      HeldAllAlong(hash, mid, lifetime, refused, more, later, context);
    }
    F.NoRevival(
      permit, s.proof, identity, lifetime, Reading(hash, s.runtime, issued),
      LeaseEvents(hash, s, lifetime, run), Reading(hash, mid.runtime, refused),
      LeaseEvents(hash, mid, lifetime, more), Reading(hash, end.runtime, later));
  }

  // ---- Permits agree with history, with the certificates the authority really accepts ----

  predicate IsRecord(run: seq<Event>, j: nat) {
    j < |run| && run[j].op.Lease? && run[j].op.op.Record?
  }

  predicate IsRenewal(run: seq<Event>, i: nat) {
    i < |run| && run[i].op.Admission? && run[i].op.call.AcceptAdmission? && run[i].op.call.verified.mode.Renew?
  }

  /** The renewal listed at `i` was accepted there. */
  ghost predicate Renewed(hash: Hash, s: Process, lifetime: Time, run: seq<Event>, i: nat)
    requires IsRenewal(run, i)
  {
    A.Accepted(hash, After(hash, s, lifetime, run[..i]).runtime, run[i].op.call.verified, run[i].at).1
  }

  /** A proof carries the context, log position and deadline of a renewal accepted before it. */
  ghost predicate CertifiedBy(hash: Hash, s: Process, lifetime: Time, run: seq<Event>, j: nat, i: nat)
    requires IsRecord(run, j)
  {
    && i < j && IsRenewal(run, i) && Renewed(hash, s, lifetime, run, i)
    && var q, v := run[j].op.op.progress, run[i].op.call.verified;
       v.mode == A.Renew(Some(q.logId)) && v.context == q.context && v.deadline == q.acceptedDeadline
  }

  /** Proofs are recorded one after another, in the order in which their renewals were accepted. */
  ghost predicate InIssueOrder(hash: Hash, s: Process, lifetime: Time, run: seq<Event>, origin: nat -> nat) {
    && (forall j: nat :: IsRecord(run, j) ==> CertifiedBy(hash, s, lifetime, run, j, origin(j)))
    && (forall j: nat, k: nat :: IsRecord(run, j) && IsRecord(run, k) && j < k ==> origin(j) <= origin(k))
  }

  /** An accepted renewal sets the authority's deadline, which is never earlier than the one before. */
  lemma RenewalSetsDeadline(hash: Hash, s: Process, lifetime: Time, e: Event)
    requires e.op.Admission? && e.op.call.AcceptAdmission? && e.op.call.verified.mode.Renew?
    requires A.Accepted(hash, s.runtime, e.op.call.verified, e.at).1
    ensures s.runtime.permission.Active? && s.runtime.permission.until <= e.op.call.verified.deadline
    ensures var p := Step(hash, s, lifetime, e).runtime.permission; p.Active? && p.until == e.op.call.verified.deadline
  {}

  /** The deadlines of two accepted renewals of one process never run backwards. */
  lemma RenewalsAscend(hash: Hash, s: Process, lifetime: Time, run: seq<Event>, i: nat, k: nat)
    requires A.Bound(s.runtime) && i <= k
    requires IsRenewal(run, i) && IsRenewal(run, k)
    requires Renewed(hash, s, lifetime, run, i) && Renewed(hash, s, lifetime, run, k)
    ensures run[i].op.call.verified.deadline <= run[k].op.call.verified.deadline
  {
    if i < k {
      var before, rest := run[..i], run[i + 1..k];
      var mid := After(hash, s, lifetime, before);
      var next := Step(hash, mid, lifetime, run[i]);
      assert run[..k] == before + ([run[i]] + rest);
      AfterAppends(hash, s, lifetime, before, [run[i]] + rest);
      assert ([run[i]] + rest)[1..] == rest;
      RunFollows(hash, s, lifetime, before);
      A.StepKeeps(hash, mid.runtime, A.Event(run[i].at, run[i].op.call));
      RunFollows(hash, next, lifetime, rest);
      RenewalSetsDeadline(hash, mid, lifetime, run[i]);
      RenewalSetsDeadline(hash, After(hash, s, lifetime, run[..k]), lifetime, run[k]);
    }
  }

  /** Certificates of recorded proofs never run backwards. */
  lemma CertificatesAscend(hash: Hash, s: Process, lifetime: Time, run: seq<Event>, origin: nat -> nat, j: nat, k: nat)
    requires A.Bound(s.runtime) && InIssueOrder(hash, s, lifetime, run, origin)
    requires IsRecord(run, j) && IsRecord(run, k) && j < k
    ensures run[j].op.op.progress.acceptedDeadline <= run[k].op.op.progress.acceptedDeadline
  {
    assert CertifiedBy(hash, s, lifetime, run, j, origin(j)) && CertifiedBy(hash, s, lifetime, run, k, origin(k));
    RenewalsAscend(hash, s, lifetime, run, origin(j), origin(k));
  }

  /** The proof in force was recorded by the run, or was there before it. */
  lemma {:induction false} ProgressWasRecorded(hash: Hash, s: Process, lifetime: Time, run: seq<Event>)
    ensures var last := After(hash, s, lifetime, run).proof.progress;
            last == s.proof.progress || exists j: nat :: IsRecord(run, j) && last == Some(run[j].op.op.progress)
    decreases |run|
  {
    if run != [] {
      var next := Step(hash, s, lifetime, run[0]);
      ProgressWasRecorded(hash, next, lifetime, run[1..]);
      var last := After(hash, s, lifetime, run).proof.progress;
      if last != next.proof.progress {
        var j: nat :| IsRecord(run[1..], j) && last == Some(run[1..][j].op.op.progress);
        assert IsRecord(run, j + 1) && run[j + 1] == run[1..][j];
      } else if last != s.proof.progress {
        assert IsRecord(run, 0);
      }
    }
  }

  /** Every proof the lease sees was recorded by the run. */
  lemma {:induction false} LeaseRecords(hash: Hash, s: Process, lifetime: Time, run: seq<Event>, k: nat)
    requires k < |LeaseEvents(hash, s, lifetime, run)| && LeaseEvents(hash, s, lifetime, run)[k].op.Record?
    ensures exists j: nat :: IsRecord(run, j) && run[j].op.op == LeaseEvents(hash, s, lifetime, run)[k].op
    decreases |run|
  {
    if run[0].op.Lease? && k == 0 {
      assert IsRecord(run, 0);
    } else {
      var i := if run[0].op.Lease? then k - 1 else k;
      var next := Step(hash, s, lifetime, run[0]);
      LeaseRecords(hash, next, lifetime, run[1..], i);
      var j: nat :| IsRecord(run[1..], j) && run[1..][j].op.op == LeaseEvents(hash, next, lifetime, run[1..])[i].op;
      assert IsRecord(run, j + 1) && run[j + 1] == run[1..][j];
    }
  }

  /** No proof recorded after the permit's has an earlier certificate. */
  lemma LaterCertificates(
    hash: Hash, boot: Process, lifetime: Time, before: seq<Event>, after: seq<Event>, origin: nat -> nat,
    last: F.Progress)
    requires A.Bound(boot.runtime) && boot.proof == F.NO_PROOF
    requires InIssueOrder(hash, boot, lifetime, before + after, origin)
    requires After(hash, boot, lifetime, before).proof.progress == Some(last)
    ensures var events := LeaseEvents(hash, After(hash, boot, lifetime, before), lifetime, after);
            forall k :: 0 <= k < |events| && events[k].op.Record? ==>
              last.acceptedDeadline <= events[k].op.progress.acceptedDeadline
  {
    var run := before + after;
    var s := After(hash, boot, lifetime, before);
    var events := LeaseEvents(hash, s, lifetime, after);
    ProgressWasRecorded(hash, boot, lifetime, before);
    var j: nat :| IsRecord(before, j) && before[j].op.op.progress == last;
    hide After, LeaseEvents, InIssueOrder;
    assert IsRecord(run, j) && run[j] == before[j];
    forall k | 0 <= k < |events| && events[k].op.Record?
      ensures last.acceptedDeadline <= events[k].op.progress.acceptedDeadline
    {
      LeaseRecords(hash, s, lifetime, after, k);
      var m: nat :| IsRecord(after, m) && after[m].op.op == events[k].op;
      assert run[|before| + m] == after[m];
      CertificatesAscend(hash, boot, lifetime, run, origin, j, |before| + m);
    }
  }

  /**
   In a process whose proofs carry the certificates its authority accepted, in issue order: a permit
   checks true exactly when its own deadline has not passed, authority still holds and the stretch it
   was issued in was never broken; a permit to acquire also needs that no outage was marked since.
   */
  lemma PermitIsItsHistory(
    hash: Hash, local: ReplicaId, quarantine: Time, identity: nat, lifetime: Time, origin: nat -> nat,
    before: seq<Event>, issued: Time, permit: F.Permit, after: seq<Event>, now: Time)
    requires InIssueOrder(hash, Boot(local, quarantine), lifetime, before + after, origin)
    requires var s := After(hash, Boot(local, quarantine), lifetime, before);
             var events := LeaseEvents(hash, s, lifetime, after);
             && F.IssuedBy(permit, s.proof, identity, lifetime, Reading(hash, s.runtime, issued))
             && F.BreakCount(s.proof, lifetime, events) < TWO_TO_64
             && F.OutageCount(s.proof, lifetime, events) < TWO_TO_64
    ensures var s := After(hash, Boot(local, quarantine), lifetime, before);
            var events := LeaseEvents(hash, s, lifetime, after);
            var end := After(hash, s, lifetime, after);
            F.Check(permit, end.proof, Reading(hash, end.runtime, now)) <==>
              && now < permit.deadline
              && Holds(hash, end.runtime, now, permit.stamp.context)
              && F.Unbroken(permit.progress, lifetime, events)
              && (permit.acquisitionEpoch.Some? ==> F.NoOutage(events))
  {
    var boot := Boot(local, quarantine);
    var s := After(hash, boot, lifetime, before);
    var events := LeaseEvents(hash, s, lifetime, after);
    var end := After(hash, s, lifetime, after);
    LeaseProjection(hash, boot, lifetime, before);
    LeaseProjection(hash, s, lifetime, after);
    F.EpochsCount(boot.proof, lifetime, LeaseEvents(hash, boot, lifetime, before));
    assert s.proof.progress == Some(permit.progress) && permit.deadline <= permit.progress.acceptedDeadline;
    LaterCertificates(hash, boot, lifetime, before, after, origin, permit.progress);
    F.CertificatesOnlyGrow(permit.progress, permit.deadline, lifetime, events);
    F.PermitMatchesHistory(
      permit, s.proof, identity, lifetime, Reading(hash, s.runtime, issued), events, Reading(hash, end.runtime, now));
  }
}
