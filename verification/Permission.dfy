/**
 Process-local runtime authority: quarantined, joining, voting, sealed.

 The daemon keeps one cell and notices an expired deadline only when somebody calls it. The
 reference machine below has a timer instead and seals at the exact deadline; the two answer
 every call alike.
 */
module Permission {
  import opened Prelude
  import opened Identity

  datatype AuthorityContext = AuthorityContext(
    bootNonce: seq<Byte>, clusterEpoch: nat, genesisDigest: Digest, admissionGeneration: nat)

  datatype Stage = Joining(operation: LogId) | Voting

  datatype State =
    | Quarantined(ready: Time)
    | Active(context: AuthorityContext, stage: Stage, until: Time)
    | Sealed

  datatype Call =
    | Admit(context: AuthorityContext, until: Time)
    | Join(context: AuthorityContext, prepared: LogId, until: Time)
    | MarkPromoted(context: AuthorityContext, prepared: LogId)
    | Renew(context: AuthorityContext, until: Time)
    | Current
    | Seal

  /** What a caller learns. The Boolean of `seal` only drives watchers and is not part of it. */
  datatype Reply =
    | Decision(ok: bool)
    | Authority(current: Option<(AuthorityContext, Time)>)
    | Done

  function SealExpired(s: State, now: Time): State {
    if s.Active? && now >= s.until then Sealed else s
  }

  /** The daemon's transition: expiry is noticed by the call itself. */
  function Handle(s: State, call: Call, now: Time): (State, Reply) {
    match call
    case Admit(context, until) =>
      if s.Quarantined? && now >= s.ready && now < until
      then (Active(context, Voting, until), Decision(true))
      else (SealExpired(s, now), Decision(false))
    case Join(context, prepared, until) =>
      var t := SealExpired(s, now);
      var accepted :=
        match t
        case Quarantined(ready) => now >= ready && now < until
        case Active(current, Joining(operation), previous) =>
          current == context && operation == prepared && until > previous
        case _ => false;
      (if accepted then Active(context, Joining(prepared), until) else t, Decision(accepted))
    case MarkPromoted(context, prepared) =>
      var t := SealExpired(s, now);
      if t.Active? && t.context == context && t.stage == Joining(prepared)
      then (t.(stage := Voting), Decision(true))
      else (t, Decision(false))
    case Renew(context, until) =>
      var t := SealExpired(s, now);
      if t.Active? && t.stage == Voting && t.context == context && until >= t.until
      then (t.(until := until), Decision(true))
      else (t, Decision(false))
    case Current =>
      var t := SealExpired(s, now);
      (t, Authority(if t.Active? then Some((t.context, t.until)) else None))
    case Seal => (Sealed, Done)
  }

  /** The single authority cell. */
  class RuntimePermission {
    var state: State

    constructor (until: Time)
      ensures state == Quarantined(until)
    {
      state := Quarantined(until);
    }

    method NoticeExpiry(now: Time) returns (changed: bool)
      modifies this
      ensures state == SealExpired(old(state), now)
      ensures changed <==> state != old(state)
    {
      changed := false;
      match state {
        case Active(_, _, until) =>
          if now >= until {
            state := Sealed;
            changed := true;
          }
        case _ =>
      }
    }

    method Admit(context: AuthorityContext, until: Time, now: Time) returns (admitted: bool)
      modifies this
      ensures (state, Decision(admitted)) == Handle(old(state), Call.Admit(context, until), now)
    {
      match state {
        case Quarantined(ready) =>
          if now >= ready && now < until {
            state := Active(context, Voting, until);
            return true;
          }
        case _ =>
      }
      var _ := NoticeExpiry(now);
      admitted := false;
    }

    method Join(context: AuthorityContext, prepared: LogId, until: Time, now: Time) returns (accepted: bool)
      modifies this
      ensures (state, Decision(accepted)) == Handle(old(state), Call.Join(context, prepared, until), now)
    {
      var expired := NoticeExpiry(now);
      accepted := false;
      if expired {
        return;
      }
      match state {
        case Quarantined(ready) => accepted := now >= ready && now < until;
        case Active(current, Joining(operation), previous) =>
          accepted := current == context && operation == prepared && until > previous;
        case _ =>
      }
      if accepted {
        state := Active(context, Joining(prepared), until);
      }
    }

    method MarkPromoted(context: AuthorityContext, prepared: LogId, now: Time) returns (promoted: bool)
      modifies this
      ensures (state, Decision(promoted)) == Handle(old(state), Call.MarkPromoted(context, prepared), now)
    {
      var expired := NoticeExpiry(now);
      promoted := false;
      if expired {
        return;
      }
      match state {
        case Active(current, Joining(operation), until) =>
          if current == context && operation == prepared {
            state := Active(current, Voting, until);
            promoted := true;
          }
        case _ =>
      }
    }

    method Renew(context: AuthorityContext, until: Time, now: Time) returns (renewed: bool)
      modifies this
      ensures (state, Decision(renewed)) == Handle(old(state), Call.Renew(context, until), now)
    {
      var expired := NoticeExpiry(now);
      renewed := false;
      if expired {
        return;
      }
      match state {
        case Active(current, Voting, previous) =>
          if current == context && until >= previous {
            renewed := true;
            if until > previous {
              state := Active(context, Voting, until);
            }
          }
        case _ =>
      }
    }

    method Current(now: Time) returns (current: Option<(AuthorityContext, Time)>)
      modifies this
      ensures (state, Authority(current)) == Handle(old(state), Call.Current, now)
    {
      var _ := NoticeExpiry(now);
      match state {
        case Active(context, _, until) => current := Some((context, until));
        case _ => current := None;
      }
    }

    method Seal() returns (changed: bool)
      modifies this
      ensures state == Sealed
      ensures changed <==> old(state) != Sealed
    {
      changed := state != Sealed;
      state := Sealed;
    }
  }

  // ---- Lazy expiry against a machine with a timer ----

  datatype Event = Tick(at: Time) | Invoke(at: Time, call: Call)

  ghost predicate Ordered(run: seq<Event>) {
    forall i, j :: 0 <= i < j < |run| ==> run[i].at <= run[j].at
  }

  /** A transition that never looks at the deadline of an active state. */
  function Prompt(s: State, call: Call, now: Time): (State, Reply) {
    match (call, s)
    case (Admit(context, until), Quarantined(ready)) =>
      if ready <= now < until then (Active(context, Voting, until), Decision(true)) else (s, Decision(false))
    case (Join(context, prepared, until), Quarantined(ready)) =>
      if ready <= now < until then (Active(context, Joining(prepared), until), Decision(true)) else (s, Decision(false))
    case (Join(context, prepared, until), Active(current, Joining(operation), previous)) =>
      if (context, prepared) == (current, operation) && previous < until
      then (Active(current, Joining(operation), until), Decision(true))
      else (s, Decision(false))
    case (MarkPromoted(context, prepared), Active(current, Joining(operation), until)) =>
      if (context, prepared) == (current, operation)
      then (Active(current, Voting, until), Decision(true))
      else (s, Decision(false))
    case (Renew(context, until), Active(current, Voting, previous)) =>
      if context == current && previous <= until
      then (Active(current, Voting, until), Decision(true))
      else (s, Decision(false))
    case (Current, Active(context, _, until)) => (s, Authority(Some((context, until))))
    case (Current, _) => (s, Authority(None))
    case (Seal, _) => (Sealed, Done)
    case (_, _) => (s, Decision(false))
  }

  /** The timer fires at every instant the run mentions. */
  function TimerReplies(s: State, run: seq<Event>): seq<Reply>
    decreases |run|
  {
    if run == [] then [] else
      var t := if s.Active? && s.until <= run[0].at then Sealed else s;
      match run[0]
      case Tick(_) => TimerReplies(t, run[1..])
      case Invoke(at, call) =>
        var (u, reply) := Prompt(t, call, at);
        [reply] + TimerReplies(u, run[1..])
  }

  /** The daemon sees the calls only. */
  function LazyReplies(s: State, run: seq<Event>): seq<Reply>
    decreases |run|
  {
    if run == [] then [] else
      match run[0]
      case Tick(_) => LazyReplies(s, run[1..])
      case Invoke(at, call) =>
        var (u, reply) := Handle(s, call, at);
        [reply] + LazyReplies(u, run[1..])
  }

  lemma PromptAgrees(s: State, call: Call, now: Time)
    ensures Handle(s, call, now) == Prompt(SealExpired(s, now), call, now)
  {
  }

  lemma {:induction false} LazyFollowsTimer(lazy: State, timed: State, seen: Time, run: seq<Event>)
    requires timed == SealExpired(lazy, seen)
    requires Ordered(run) && (run != [] ==> seen <= run[0].at)
    ensures LazyReplies(lazy, run) == TimerReplies(timed, run)
    decreases |run|
  {
    if run != [] {
      var at := run[0].at;
      assert SealExpired(timed, at) == SealExpired(lazy, at);
      match run[0] {
        case Tick(_) =>
          LazyFollowsTimer(lazy, SealExpired(timed, at), at, run[1..]);
        case Invoke(_, call) =>
          PromptAgrees(lazy, call, at);
          var (u, _) := Handle(lazy, call, at);
          assert SealExpired(u, at) == u;
          LazyFollowsTimer(u, u, at, run[1..]);
      }
    }
  }

  /** A daemon that boots into quarantine answers every call as if a timer had sealed it on time. */
  lemma LazyExpiryIsExact(ready: Time, run: seq<Event>)
    requires Ordered(run)
    ensures LazyReplies(Quarantined(ready), run) == TimerReplies(Quarantined(ready), run)
  {
    LazyFollowsTimer(Quarantined(ready), Quarantined(ready), 0, run);
  }

  // ---- What every run keeps ----

  /** The order in which one authority may move. */
  predicate Follows(earlier: State, later: State) {
    match (earlier, later)
    case (Sealed, _) => later.Sealed?
    case (Active(context, stage, until), Active(context', stage', until')) =>
      context' == context && until <= until' && (stage' == stage || stage' == Voting)
    case (Active(_, _, _), Quarantined(_)) => false
    case (Quarantined(ready), Quarantined(ready')) => ready == ready'
    case (_, _) => true
  }

  lemma FollowsStep(s: State, call: Call, now: Time)
    ensures Follows(s, Handle(s, call, now).0)
  {
  }

  function After(s: State, run: seq<Event>): State
    decreases |run|
  {
    if run == [] then s
    else
      After(match run[0] case Tick(_) => s case Invoke(at, call) => Handle(s, call, at).0, run[1..])
  }

  /**
   Sealed is terminal, an active deadline never shrinks, a voter never becomes a learner again and
   an activated context is never replaced.
   */
  lemma {:induction false} RunFollows(s: State, run: seq<Event>)
    ensures Follows(s, After(s, run))
    decreases |run|
  {
    if run != [] {
      var t := match run[0] case Tick(_) => s case Invoke(at, call) => Handle(s, call, at).0;
      if run[0].Invoke? {
        FollowsStep(s, run[0].call, run[0].at);
      }
      RunFollows(t, run[1..]);
    }
  }
}
