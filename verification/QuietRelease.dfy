/**
 When a reported unbind can be trusted: exactly when no child that may still add the address was left
 behind before it.
 */
module QuietRelease {
  import opened Prelude
  import opened LocalVip
  import opened Release
  import opened Shutdown
  import opened Completion
  import C = Children

  /** Whatever happens short of a bind and of a loss, a reported unbind leaves nothing behind. */
  ghost predicate Trustworthy(s: State, ip: Ip) {
    forall events ::
      NeverBinds(s, events, ip) && Reports(s, events, ip) && !After(s, events).ledger.tracker.lost ==>
        !Exposed(After(s, events), ip)
  }

  /** A child left behind adds the address after a complete, reported unbind. */
  lemma LateWriterReturns(s: State, c: nat, ip: Ip) returns (events: seq<Event>)
    requires Reachable(s) && !s.ledger.tracker.lost && SlotOf(s, ip).pc.Idle? && MayAdd(s, c, ip)
    ensures BeginBind(ip) !in events && Reports(s, events, ip) && !After(s, events).ledger.tracker.lost
    ensures SlotOf(After(s, events), ip).address || SlotOf(After(s, events), ip).marker
  {
    assert Exposed(s, ip);
    TrackingIsComplete(s, ip);
    var cleanup := UnbindCompletes(s, ip);
    var t := After(s, cleanup);
    assert Spared(s, t) && Steady(t);
    assert t.jobs[c] == s.jobs[c] && t.ledger.runs[c] == s.ledger.runs[c];
    assert MayAdd(t, c, ip) && Enabled(t, Act(c));
    hide After, Reports, Reaches;
    StepAfter(t, Act(c));
    RunsConcatenate(s, cleanup, [Act(c)], ip);
    events := cleanup + [Act(c)];
  }

  /** For a reachable process without an operation on the address and without a lost child. */
  lemma TrustworthyExactlyWhenQuiet(s: State, ip: Ip)
    requires Reachable(s) && !s.ledger.tracker.lost && SlotOf(s, ip).pc.Idle?
    ensures Trustworthy(s, ip) <==> Quiet(s, ip)
  {
    if Quiet(s, ip) {
      forall events | NeverBinds(s, events, ip) && Reports(s, events, ip) && !After(s, events).ledger.tracker.lost
        ensures !Exposed(After(s, events), ip)
      {
        QuietReleases(s, events, ip);
      }
    } else {
      var c :| 0 <= c < |s.jobs| && MayAdd(s, c, ip);
      var events := LateWriterReturns(s, c, ip);
      assert NeverBinds(s, events, ip) && Exposed(After(s, events), ip);
    }
  }

  /** A bind cancelled while its address command runs leaves such a child, for every address. */
  lemma AbandonedWriter(ip: Ip) returns (s: State)
    ensures Reachable(s) && !s.ledger.tracker.lost && SlotOf(s, ip).pc.Idle?
    ensures !Settled(s) && !Quiet(s, ip)
  {
    var t, events := MarkedFirst(ip);
    var n := |t.jobs|;
    var waiting := SlotOf(t, ip).(pc := Bind(true, Adding(n)));
    Starts(t, ip, AddAddress, waiting);
    var a := Launched(t, ip, AddAddress, waiting);
    assert SlotOf(a, ip) == waiting && Enabled(a, Cancel(ip, false));
    s := Do(a, Cancel(ip, false));
    assert MayAdd(s, n, ip);
    hide Do, Enabled;
    StepAfter(t, Proceed(ip));
    StepAfter(a, Cancel(ip, false));
    Joined(INITIAL, events, t, [Proceed(ip)], a);
    Joined(INITIAL, events + [Proceed(ip)], a, [Cancel(ip, false)], s);
  }

  lemma MarkedFirst(ip: Ip) returns (t: State, events: seq<Event>)
    ensures t == After(INITIAL, events) && Steady(t) && !t.ledger.tracker.lost
    ensures SlotOf(t, ip).pc == Bind(true, Marked)
  {
    StepAfter(INITIAL, BeginBind(ip));
    events := [BeginBind(ip)];
    t := After(INITIAL, events);
    assert SlotOf(t, ip) == BindBegun(CLEAN);
    var more := BindMarks(t, ip);
    Joined(INITIAL, events, t, more, After(t, more));
    events, t := events + more, After(t, more);
  }
}
