/**
 The runtime authority binds verified quorum results to the single permission cell and pins the
 join operation it was admitted for.
 */
module Authority {
  import opened Prelude
  import opened Identity
  import Permission

  datatype Mode =
    | Cold
    | Join(prepared: Option<JoinBinding>)
    | Renew(progress: Option<LogId>)

  datatype VerifiedAdmission = VerifiedAdmission(context: AdmissionContext, mode: Mode, deadline: Time)

  datatype Runtime = Runtime(local: ReplicaId, permission: Permission.State, binding: Option<JoinBinding>)

  /** The locally applied storage state that promotion reads. */
  datatype AppliedState = AppliedState(
    admission: Option<AdmissionContext>,
    genesis: Option<Genesis>,
    completedJoins: map<nat, CompletedJoin>,
    preparedJoin: Option<PreparedJoin>,
    membershipLog: Option<LogId>,
    jointConfig: seq<set<ReplicaId>>,
    lastApplied: Option<LogId>)

  function BindingOf(hash: Hash, prepared: PreparedJoin): JoinBinding {
    JoinBinding(prepared.prepared, hash.plan(prepared.plan))
  }

  function IdentityOf(hash: Hash, local: ReplicaId, context: AdmissionContext): Permission.AuthorityContext {
    Permission.AuthorityContext(local.bootNonce, context.genesis.epoch, hash.genesis(context.genesis), 1)
  }

  /** Whether the (unexpired) runtime currently stands for `expected`. */
  predicate Authorizes(hash: Hash, r: Runtime, expected: AdmissionContext) {
    && r.permission.Active?
    && expected.localReplica == r.local
    && r.permission.context == IdentityOf(hash, r.local, expected)
  }

  function Expire(r: Runtime, now: Time): Runtime {
    r.(permission := Permission.SealExpired(r.permission, now))
  }

  function Accepted(hash: Hash, r: Runtime, v: VerifiedAdmission, now: Time): (Runtime, bool) {
    if v.context.localReplica != r.local then (r, false) else
      var context := IdentityOf(hash, r.local, v.context);
      match v.mode
      case Cold =>
        var (p, reply) := Permission.Handle(r.permission, Permission.Admit(context, v.deadline), now);
        (r.(permission := p), reply.ok)
      case Join(Some(prepared)) =>
        if r.binding.Some? && r.binding.value != prepared then (r, false) else
          var (p, reply) := Permission.Handle(r.permission, Permission.Join(context, prepared.logId, v.deadline), now);
          (r.(permission := p, binding := if reply.ok then Some(prepared) else r.binding), reply.ok)
      case Renew(Some(_)) =>
        var (p, reply) := Permission.Handle(r.permission, Permission.Renew(context, v.deadline), now);
        (r.(permission := p), reply.ok)
      case _ => (r, false)
  }

  predicate ValidPlan(plan: JoinPlan) {
    var physical := set v | v in plan.previousVoters :: v.physicalId;
    var expected := (set v | v in plan.previousVoters && v.physicalId != plan.consumer.physicalId) + {plan.consumer};
    && plan.previousVoters != {}
    && |physical| == |plan.previousVoters|
    && plan.consumer !in plan.previousVoters
    && plan.nextVoters == expected
  }

  predicate CompletionEvidence(
    hash: Hash, r: Runtime, expected: AdmissionContext, prepared: PreparedJoin, state: AppliedState)
  {
    && state.admission == Some(expected)
    && prepared.learnerApplied.Some?
    && state.membershipLog.Some?
    && r.local.physicalId in state.completedJoins
    && var acknowledged := prepared.learnerApplied.value;
       var membershipLog := state.membershipLog.value;
       var completed := state.completedJoins[r.local.physicalId];
       var boots := set i, v | 0 <= i < |state.jointConfig| && v in state.jointConfig[i]
                               && v.physicalId == r.local.physicalId :: v;
       && state.genesis == Some(expected.genesis)
       && r.binding == Some(BindingOf(hash, prepared))
       && completed.prepared == prepared
       && !(state.preparedJoin.Some? && state.preparedJoin.value.prepared == prepared.prepared
            && state.preparedJoin.value.plan == prepared.plan)
       && state.jointConfig != []
       && (forall i :: 0 <= i < |state.jointConfig| ==> r.local in state.jointConfig[i])
       && |boots| == 1
       && prepared.prepared.index < acknowledged.index < completed.promoted.index <= membershipLog.index
       && (membershipLog.index == completed.promoted.index ==> membershipLog == completed.promoted)
       && state.lastApplied.Some?
       && membershipLog.index <= state.lastApplied.value.index
       && (membershipLog.index == state.lastApplied.value.index ==> membershipLog == state.lastApplied.value)
  }

  function Promoted(hash: Hash, r: Runtime, prepared: PreparedJoin, state: AppliedState, now: Time): (Runtime, bool) {
    if !ValidPlan(prepared.plan) then (r, false) else
      var expected := AdmissionContext(prepared.plan.consumer, prepared.plan.genesis);
      var t := Expire(r, now);
      if !Authorizes(hash, t, expected) || !CompletionEvidence(hash, t, expected, prepared, state) then (t, false) else
        var (p, reply) := Permission.Handle(
          t.permission, Permission.MarkPromoted(IdentityOf(hash, t.local, expected), prepared.prepared), now);
        (t.(permission := p), reply.ok)
  }

  /** `AdmissionFence::check`: the deadline of the authority that stands for `expected`. */
  function Checked(hash: Hash, r: Runtime, expected: AdmissionContext, now: Time): (Runtime, Option<Time>) {
    var t := Expire(r, now);
    (t, if Authorizes(hash, t, expected) then Some(t.permission.until) else None)
  }

  class RuntimeAuthority {
    const hash: Hash
    const local: ReplicaId
    const permission: Permission.RuntimePermission
    var joinBinding: Option<JoinBinding>

    ghost function View(): Runtime
      reads this, permission
    {
      Runtime(local, permission.state, joinBinding)
    }

    constructor (hash: Hash, local: ReplicaId, quarantine: Time)
      ensures View() == Runtime(local, Permission.Quarantined(quarantine), None)
      ensures this.hash == hash && fresh(permission)
    {
      this.hash := hash;
      this.local := local;
      permission := new Permission.RuntimePermission(quarantine);
      joinBinding := None;
    }

    method Accept(v: VerifiedAdmission, now: Time) returns (accepted: bool)
      modifies this, permission
      ensures (View(), accepted) == Accepted(hash, old(View()), v, now)
    {
      if v.context.localReplica != local {
        return false;
      }
      var context := IdentityOf(hash, local, v.context);
      match v.mode {
        case Cold =>
          accepted := permission.Admit(context, v.deadline, now);
        case Join(Some(prepared)) =>
          if joinBinding.Some? && joinBinding.value != prepared {
            return false;
          }
          accepted := permission.Join(context, prepared.logId, v.deadline, now);
          if accepted {
            joinBinding := Some(prepared);
          }
        case Renew(Some(_)) =>
          accepted := permission.Renew(context, v.deadline, now);
        case _ =>
          accepted := false;
      }
    }

    method Check(expected: AdmissionContext, now: Time) returns (until: Option<Time>)
      modifies permission
      ensures (View(), until) == Checked(hash, old(View()), expected, now)
    {
      var current := permission.Current(now);
      match current {
        case None => until := None;
        case Some((context, deadline)) =>
          if expected.localReplica != local || context != IdentityOf(hash, local, expected) {
            until := None;
          } else {
            until := Some(deadline);
          }
      }
    }

    method MarkPromoted(prepared: PreparedJoin, state: AppliedState, now: Time) returns (promoted: bool)
      modifies this, permission
      ensures (View(), promoted) == Promoted(hash, old(View()), prepared, state, now)
    {
      promoted := false;
      if !ValidPlan(prepared.plan) {
        return;
      }
      var expected := AdmissionContext(prepared.plan.consumer, prepared.plan.genesis);
      var until := Check(expected, now);
      var current := Runtime(local, permission.state, joinBinding);
      if until.None? || !CompletionEvidence(hash, current, expected, prepared, state) {
        return;
      }
      promoted := permission.MarkPromoted(IdentityOf(hash, local, expected), prepared.prepared, now);
    }
  }

  // ---- Runs ----

  datatype Call =
    | AcceptAdmission(verified: VerifiedAdmission)
    | Promote(prepared: PreparedJoin, state: AppliedState)
    | Inspect(expected: AdmissionContext)
    | SealNow

  datatype Event = Event(at: Time, call: Call)

  function Step(hash: Hash, r: Runtime, e: Event): Runtime {
    match e.call
    case AcceptAdmission(v) => Accepted(hash, r, v, e.at).0
    case Promote(prepared, state) => Promoted(hash, r, prepared, state, e.at).0
    case Inspect(expected) => Checked(hash, r, expected, e.at).0
    case SealNow => r.(permission := Permission.Sealed)
  }

  function After(hash: Hash, r: Runtime, run: seq<Event>): Runtime
    decreases |run|
  {
    if run == [] then r else Step(hash, After(hash, r, run[..|run| - 1]), run[|run| - 1])
  }

  function Boot(local: ReplicaId, quarantine: Time): Runtime {
    Runtime(local, Permission.Quarantined(quarantine), None)
  }

  predicate IsVoting(r: Runtime) {
    r.permission.Active? && r.permission.stage == Permission.Voting
  }

  /** The two doors into voting, in terms of the state before the event. */
  ghost predicate MayEnterVoting(hash: Hash, r: Runtime, e: Event) {
    || (&& e.call.AcceptAdmission?
        && e.call.verified.mode == Cold
        && r.permission.Quarantined?
        && r.binding == None)
    || (&& e.call.Promote?
        && r.binding == Some(BindingOf(hash, e.call.prepared))
        && r.permission.Active?
        && r.permission.stage == Permission.Joining(e.call.prepared.prepared))
  }

  /** A learner is bound to its operation and a quarantined process to none. */
  predicate Bound(r: Runtime) {
    && (r.permission.Quarantined? ==> r.binding == None)
    && (r.permission.Active? && r.permission.stage.Joining? ==>
          r.binding.Some? && r.binding.value.logId == r.permission.stage.operation)
  }

  lemma StepKeeps(hash: Hash, r: Runtime, e: Event)
    requires Bound(r)
    ensures var t := Step(hash, r, e);
            && Bound(t)
            && t.local == r.local
            && Permission.Follows(r.permission, t.permission)
            && (r.binding.Some? ==> t.binding == r.binding)
            && (IsVoting(t) && !IsVoting(r) ==> MayEnterVoting(hash, r, e))
  {
    var now := e.at;
    match e.call {
      case AcceptAdmission(v) =>
        var context := IdentityOf(hash, r.local, v.context);
        match v.mode {
          case Cold => Permission.FollowsStep(r.permission, Permission.Admit(context, v.deadline), now);
          case Join(Some(p)) =>
            Permission.FollowsStep(r.permission, Permission.Join(context, p.logId, v.deadline), now);
          case Renew(Some(_)) => Permission.FollowsStep(r.permission, Permission.Renew(context, v.deadline), now);
          case _ =>
        }
      case Promote(prepared, state) =>
      case Inspect(_) =>
      case SealNow =>
    }
  }

  /**
   Every run from boot: the binding, once set, is the binding at every later point; a joining
   runtime joins exactly its bound operation; and a voting runtime passed through one of the
   two doors, a cold admission without binding or the promotion of the bound operation.
   */
  lemma {:induction false} RouteToVoting(hash: Hash, local: ReplicaId, quarantine: Time, run: seq<Event>)
    ensures var end := After(hash, Boot(local, quarantine), run);
            Bound(end) && end.local == local
    ensures forall i :: 0 <= i <= |run| ==>
              var mid := After(hash, Boot(local, quarantine), run[..i]);
              var end := After(hash, Boot(local, quarantine), run);
              && Permission.Follows(mid.permission, end.permission)
              && (mid.binding.Some? ==> end.binding == mid.binding)
    ensures IsVoting(After(hash, Boot(local, quarantine), run)) ==>
              exists i :: 0 <= i < |run| && MayEnterVoting(hash, After(hash, Boot(local, quarantine), run[..i]), run[i])
    decreases |run|
  {
    var boot := Boot(local, quarantine);
    if run != [] {
      var n := |run| - 1;
      var front := run[..n];
      var before := After(hash, boot, front);
      RouteToVoting(hash, local, quarantine, front);
      StepKeeps(hash, before, run[n]);
      forall i | 0 <= i <= |run|
        ensures var mid := After(hash, boot, run[..i]);
                var end := After(hash, boot, run);
                && Permission.Follows(mid.permission, end.permission)
                && (mid.binding.Some? ==> end.binding == mid.binding)
      {
        if i <= n {
          assert front[..i] == run[..i];
        } else {
          assert run[..i] == run;
        }
      }
      if IsVoting(After(hash, boot, run)) {
        if IsVoting(before) {
          var i :| 0 <= i < n && MayEnterVoting(hash, After(hash, boot, front[..i]), front[i]);
          assert front[..i] == run[..i];
        } else {
          assert MayEnterVoting(hash, After(hash, boot, run[..n]), run[n]);
        }
      }
    } else {
      assert forall i :: 0 <= i <= |run| ==> run[..i] == run;
    }
  }

  /** An accepted admission is live at once, so the session built from it passes its own check. */
  lemma AcceptedSessionIsLive(hash: Hash, r: Runtime, v: VerifiedAdmission, now: Time)
    requires Accepted(hash, r, v, now).1
    ensures var t := Accepted(hash, r, v, now).0;
            Checked(hash, t, v.context, now) == (t, Some(v.deadline)) && now < v.deadline
  {
  }
}
