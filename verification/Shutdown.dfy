/**
 Acknowledged releases.

 A release of an address may be acknowledged when no killed command was unaccounted for before its
 cleanup and the cleanup reported success. Then nothing is left of the address, and nothing can bring
 it back until this process binds it again.
 */
module Shutdown {
  import opened Prelude
  import opened LocalVip
  import opened Release
  import C = Children

  /**
   Nobody can add to the address and no bind is under way; the unbind in progress, if any, will end
   with nothing left; and nothing is left once one has ended (`done`).
   */
  predicate Fading(v: Scene, done: bool) {
    && v.quiet
    && (done ==> Clear(v))
    && match v.slot.pc
       case Idle => true
       case Bind(_, _) => false
       case Unbind(_, at) => UnbindOk(v, true, at)
  }

  lemma FadingActs(v: Scene, done: bool, kind: Kind, own: bool, w: Scene)
    requires Fading(v, done) && !Adds(kind)
    requires w == v.(slot := Changed(v.slot, kind), quiet := true, alone := w.alone, acted := w.acted)
    requires own && v.command.Some? ==> v.command == Some(kind) && w.acted
    requires !own ==> w.acted == v.acted
    ensures Fading(w, done)
  {}

  lemma FadingProceeds(v: Scene, done: bool, settled: bool, at: UnbindPoint, next: nat, w: Scene)
    requires Good(v) && Fading(v, done) && v.slot.pc == Unbind(settled, at) && UnbindChild(at).None?
    requires Proceeded(v, w, UnbindProceeding(v.slot, settled, at, next))
    ensures Fading(w, done || at.Forgotten? || (at.Started? && !Tracked(v.slot)))
  {
    match at case Started => case Deleted => case Cleared => case Noted => case Disowned => case Forgotten =>
  }

  lemma FadingEnds(v: Scene, done: bool, settled: bool, at: UnbindPoint, exit: Exit)
    requires Good(v) && Fading(v, done) && v.slot.pc == Unbind(settled, at) && UnbindChild(at).Some?
    requires Ended(v, exit)
    ensures Fading(AfterEnd(v, UnbindEnding(v.slot, settled, at, exit)), done)
  {
    match at case Deleting(_) => case Clearing(_) =>
  }

  lemma FadingProceedsAt(s: State, ip: Ip, done: bool)
    requires Enabled(s, Proceed(ip)) && Good(SceneOf(s, ip)) && Fading(SceneOf(s, ip), done)
    ensures Fading(SceneOf(Do(s, Proceed(ip)), ip), done || Unbinds(s, Proceed(ip), ip))
  {
    var v, w := SceneOf(s, ip), SceneOf(Do(s, Proceed(ip)), ip);
    ProceedScene(s, ip);
    assert v.slot.pc.Unbind?;
    var settled, at := v.slot.pc.settled, v.slot.pc.unbind;
    assert Proceeded(v, w, UnbindProceeding(v.slot, settled, at, |s.jobs|));
    hide Good, Fading, Proceeded;
    FadingProceeds(v, done, settled, at, |s.jobs|, w);
  }

  lemma FadingEndsAt(s: State, ip: Ip, exit: Exit, done: bool)
    requires Enabled(s, CommandEnds(ip, exit)) && exit != TimedOut(false)
    requires Good(SceneOf(s, ip)) && Fading(SceneOf(s, ip), done)
    ensures Fading(SceneOf(Do(s, CommandEnds(ip, exit)), ip), done)
  {
    var v := SceneOf(s, ip);
    CommandScene(s, ip, exit);
    assert v.slot.pc.Unbind?;
    hide Good, Fading, Ended, AfterEnd;
    FadingEnds(v, done, v.slot.pc.settled, v.slot.pc.unbind, exit);
  }

  lemma FadingCancels(s: State, ip: Ip, keep: bool, done: bool)
    requires Enabled(s, Cancel(ip, keep)) && Good(SceneOf(s, ip)) && Fading(SceneOf(s, ip), done)
    ensures Fading(SceneOf(Do(s, Cancel(ip, keep)), ip), done)
  {
    var v := SceneOf(s, ip);
    var x := Interrupted(v.slot, keep);
    if Current(v.slot.pc).None? {
      PutScene(s, ip, x);
    } else {
      WaitedChild(s, ip);
      DropScene(s, ip, x, Current(v.slot.pc).value);
    }
  }

  lemma FadingActsAt(s: State, c: nat, ip: Ip, done: bool)
    requires Enabled(s, Act(c)) && s.jobs[c].ip == ip && Fading(SceneOf(s, ip), done)
    ensures Fading(SceneOf(Do(s, Act(c)), ip), done)
  {
    var v, w := SceneOf(s, ip), SceneOf(Do(s, Act(c)), ip);
    ActScene(s, c, ip);
    assert v.quiet;
    hide Fading;
    FadingActs(v, done, s.jobs[c].kind, Current(v.slot.pc) == Some(c), w);
  }

  lemma FadingSlot(s: State, e: Event, ip: Ip, done: bool)
    requires Enabled(s, e) && Subject(s, e) == Some(ip) && (e.BeginUnbind? || e.CannotRun? || e.Withdraw?)
    requires Fading(SceneOf(s, ip), done)
    ensures Fading(SceneOf(Do(s, e), ip), done)
  {
    PutScene(s, ip, SlotOf(Do(s, e), ip));
  }

  lemma FadingReaps(s: State, c: nat, ip: Ip, done: bool)
    requires Enabled(s, Reap(c, true)) && s.jobs[c].ip == ip && Fading(SceneOf(s, ip), done)
    ensures Fading(SceneOf(Do(s, Reap(c, true)), ip), done)
  {
    ReapScene(s, c, ip);
  }

  lemma OwnFades(s: State, e: Event, ip: Ip, done: bool)
    requires Enabled(s, e) && Subject(s, e) == Some(ip) && e != BeginBind(ip) && !Do(s, e).ledger.tracker.lost
    requires Good(SceneOf(s, ip)) && Fading(SceneOf(s, ip), done)
    ensures Fading(SceneOf(Do(s, e), ip), done || Unbinds(s, e, ip))
  {
    assert !e.GiveUp?;
    hide Good, Fading, SceneOf;
    match e {
      case Act(c) => FadingActsAt(s, c, ip, done);
      case Reap(c, _) => FadingReaps(s, c, ip, done);
      case Proceed(_) => FadingProceedsAt(s, ip, done);
      case CommandEnds(_, exit) => FadingEndsAt(s, ip, exit, done);
      case Cancel(_, keep) => FadingCancels(s, ip, keep, done);
      case _ => FadingSlot(s, e, ip, done);
    }
  }

  /** No event but a bind of the address itself takes it back; a reported unbind clears it. */
  lemma FadingStep(s: State, e: Event, ip: Ip, done: bool)
    requires Inv(s) && Enabled(s, e) && e != BeginBind(ip) && !Do(s, e).ledger.tracker.lost
    requires Fading(SceneOf(s, ip), done)
    ensures Fading(SceneOf(Do(s, e), ip), done || Unbinds(s, e, ip))
  {
    LedgerStep(s, e);
    assert forall other: Ip :: Good(SceneOf(s, other));
    hide Good, Fading;
    if Subject(s, e) == Some(ip) { OwnFades(s, e, ip, done); } else { OthersKeep(s, e, ip); }
  }

  /** Once lost, always lost. */
  lemma {:induction false} LossIsFinal(s: State, events: seq<Event>)
    requires Inv(s) && s.ledger.tracker.lost
    ensures After(s, events).ledger.tracker.lost
    decreases |events|
  {
    if events == [] {
    } else if Enabled(s, events[0]) {
      LedgerStep(s, events[0]);
      StepKeeps(s, events[0]);
      LossIsFinal(Do(s, events[0]), events[1..]);
    } else {
      LossIsFinal(s, events[1..]);
    }
  }

  /** The run does not bind `ip`: it contains no such event, or binding has stopped. */
  predicate NeverBinds(s: State, events: seq<Event>, ip: Ip) {
    s.stopped || BeginBind(ip) !in events
  }

  lemma {:induction false} RunFades(s: State, events: seq<Event>, ip: Ip, done: bool)
    requires Inv(s) && NeverBinds(s, events, ip) && Fading(SceneOf(s, ip), done)
    requires !After(s, events).ledger.tracker.lost
    ensures Fading(SceneOf(After(s, events), ip), done || Reports(s, events, ip))
    decreases |events|
  {
    if events == [] {
    } else if Enabled(s, events[0]) {
      var t := Do(s, events[0]);
      StepKeeps(s, events[0]);
      if t.ledger.tracker.lost { LossIsFinal(t, events[1..]); }
      FadingStep(s, events[0], ip, done);
      RunFades(t, events[1..], ip, done || Unbinds(s, events[0], ip));
    } else {
      RunFades(s, events[1..], ip, done);
    }
  }

  /** From any state in which no child may add the address, a reported unbind is final. */
  lemma QuietReleases(s: State, events: seq<Event>, ip: Ip)
    requires Reachable(s) && Quiet(s, ip) && SlotOf(s, ip).pc.Idle?
    requires NeverBinds(s, events, ip) && Reports(s, events, ip)
    requires !After(s, events).ledger.tracker.lost
    ensures !Exposed(After(s, events), ip)
  {
    ReachableInv(s);
    RunFades(s, events, ip, false);
  }

  /**
   A settled process with no operation on the address, whatever it then does short of binding it:
   after a reported unbind the address and its marker are gone and no child can add either, at every
   later point of the run, as long as no killed child was lost. Both the reconcile worker and the
   shutdown path acknowledge only in this situation.
   */
  lemma ReleaseIsFinal(s: State, events: seq<Event>, ip: Ip)
    requires Reachable(s) && Settled(s) && SlotOf(s, ip).pc.Idle?
    requires NeverBinds(s, events, ip) && Reports(s, events, ip)
    requires !After(s, events).ledger.tracker.lost
    ensures !Exposed(After(s, events), ip)
  {
    ReachableInv(s);
    if s.ledger.tracker.lost { LossIsFinal(s, events); }
    assert Good(SceneOf(s, ip));
    SettledIsQuiet(s, ip);
    QuietReleases(s, events, ip);
  }

  // ---- Cleanup of the whole table ----

  const SHUTDOWN_UNBIND_ATTEMPTS := 3

  lemma {:induction false} RunsConcatenate(s: State, a: seq<Event>, b: seq<Event>, ip: Ip)
    ensures After(s, a + b) == After(After(s, a), b)
    ensures Reports(s, a + b, ip) <==> Reports(s, a, ip) || Reports(After(s, a), b, ip)
    decreases |a|
  {
    if a == [] {
      assert a + b == b;
    } else {
      assert (a + b)[0] == a[0] && (a + b)[1..] == a[1..] + b;
      RunsConcatenate(if Enabled(s, a[0]) then Do(s, a[0]) else s, a[1..], b, ip);
    }
  }

  lemma SettledNotLost(s: State)
    requires Inv(s) && Settled(s)
    ensures !s.ledger.tracker.lost
  {
    C.NoOrphans(s.ledger.runs);
  }

  /** Everything that happens while attempt `n` on the `i`-th address waits is `script(i, n)`. */
  type Script = (nat, nat) -> seq<Event>

  /** After at most `n` attempts, the last of them the first that reports. */
  function Tried(s: State, ip: Ip, i: nat, script: Script, n: nat): (State, bool) {
    if n == 0 then (s, false)
    else
      var (t, done) := Tried(s, ip, i, script, n - 1);
      if done then (t, true) else (After(t, script(i, n)), Reports(t, script(i, n), ip))
  }

  /** After the first `k` addresses. */
  function Cleaned(s: State, table: seq<Ip>, script: Script, k: nat): State
    requires k <= |table|
  {
    if k == 0 then s
    else Tried(Cleaned(s, table, script, k - 1), table[k - 1], k - 1, script, SHUTDOWN_UNBIND_ATTEMPTS).0
  }

  /** No attempt on the `i`-th address reports. */
  predicate FailsAt(s: State, table: seq<Ip>, script: Script, i: nat) {
    i < |table| && !Tried(Cleaned(s, table, script, i), table[i], i, script, SHUTDOWN_UNBIND_ATTEMPTS).1
  }

  /** Up to three attempts on one address. */
  method UnbindOne(s: State, ip: Ip, i: nat, script: Script) returns (t: State, unbound: bool, ghost trace: seq<Event>)
    ensures (t, unbound) == Tried(s, ip, i, script, SHUTDOWN_UNBIND_ATTEMPTS)
    ensures t == After(s, trace) && (unbound ==> Reports(s, trace, ip))
  {
    t, unbound, trace := s, false, [];
    for attempt := 1 to SHUTDOWN_UNBIND_ATTEMPTS + 1
      invariant (t, unbound) == Tried(s, ip, i, script, attempt - 1)
      invariant t == After(s, trace) && (unbound ==> Reports(s, trace, ip))
    {
      if !unbound {
        var events := script(i, attempt);
        RunsConcatenate(s, trace, events, ip);
        t, unbound, trace := After(t, events), Reports(t, events, ip), trace + events;
      }
    }
  }

  /** Every address in turn; one is listed exactly when no attempt at some position of it reports. */
  method UnbindAll(s: State, table: seq<Ip>, script: Script)
    returns (t: State, failures: seq<Ip>, ghost trace: seq<Event>)
    ensures t == Cleaned(s, table, script, |table|) == After(s, trace)
    ensures forall ip :: ip in failures <==> exists i: nat :: FailsAt(s, table, script, i) && table[i] == ip
    ensures forall ip :: ip in table && ip !in failures ==> Reports(s, trace, ip)
  {
    t, failures, trace := s, [], [];
    hide Tried, Reports;
    for i := 0 to |table|
      invariant t == Cleaned(s, table, script, i) == After(s, trace)
      invariant forall ip :: ip in failures <==>
                  exists j: nat :: j < i && FailsAt(s, table, script, j) && table[j] == ip
      invariant forall ip :: ip in table[..i] && ip !in failures ==> Reports(s, trace, ip)
    {
      var unbound;
      ghost var events;
      ghost var start := t;
      t, unbound, events := UnbindOne(t, table[i], i, script);
      forall ip: Ip ensures Reports(s, trace + events, ip) <==> Reports(s, trace, ip) || Reports(start, events, ip) {
        RunsConcatenate(s, trace, events, ip);
      }
      RunsConcatenate(s, trace, events, table[i]);
      trace := trace + events;
      assert FailsAt(s, table, script, i) <==> !unbound;
      if !unbound {
        failures := failures + [table[i]];
      }
    }
  }

  /**
   Shutdown: reconciliation has been stopped. When the cleanup succeeded and the releases may be
   acknowledged, nothing of any address in the table is left and nothing can bring it back.
   */
  method ReleaseLocalVips(s: State, table: seq<Ip>, script: Script)
    returns (t: State, cleanup: bool, acknowledge: bool)
    requires Reachable(s) && s.stopped && forall ip :: ip in table ==> SlotOf(s, ip).pc.Idle?
    ensures cleanup && acknowledge ==> forall ip :: ip in table ==> !Exposed(t, ip)
    ensures cleanup <==> forall i: nat :: !FailsAt(s, table, script, i)
    ensures acknowledge <==> Settled(s) && Settled(t)
  {
    var settledBefore := Settled(s);
    ghost var trace;
    var failures;
    t, failures, trace := UnbindAll(s, table, script);
    cleanup := failures == [];
    assert failures != [] ==> failures[0] in failures;
    assert forall i: nat :: FailsAt(s, table, script, i) ==> table[i] in failures;
    acknowledge := settledBefore && Settled(t);
    if cleanup && acknowledge {
      ReachableInv(s);
      RunKeeps(s, trace);
      SettledNotLost(t);
      forall ip | ip in table ensures !Exposed(t, ip) {
        ReleaseIsFinal(s, trace, ip);
      }
    }
  }
}
