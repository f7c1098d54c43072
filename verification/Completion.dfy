/**
 Operations nobody disturbs: a bind puts address and marker in place and is confirmed, an unbind takes
 everything away and forgets it.
 */
module Completion {
  import opened Prelude
  import opened LocalVip
  import C = Children
  import Shutdown

  /** One step later, the slot of `ip` is `x` and every other slot is as before. */
  predicate Moved(s: State, t: State, ip: Ip, x: Slot) {
    SlotOf(t, ip) == x && t.slots == s.slots[ip := x]
  }

  /** The command due starts, takes effect and ends successfully. */
  function Command(ip: Ip, child: nat): seq<Event> {
    [Proceed(ip), Act(child), CommandEnds(ip, Success)]
  }

  /** Older children are left alone, and none is lost. */
  ghost predicate Spared(s: State, t: State) {
    && |s.jobs| <= |t.jobs| && |s.ledger.runs| <= |t.ledger.runs|
    && (forall c :: 0 <= c < |s.jobs| ==> t.jobs[c] == s.jobs[c])
    && (forall c :: 0 <= c < |s.ledger.runs| ==> t.ledger.runs[c] == s.ledger.runs[c])
    && t.ledger.tracker.lost == s.ledger.tracker.lost
  }

  predicate NeverBegins(events: seq<Event>) {
    forall e :: e in events ==> !e.BeginBind?
  }

  predicate Steady(s: State) {
    |s.jobs| == |s.ledger.runs|
  }

  lemma StepAfter(s: State, e: Event)
    requires Enabled(s, e)
    ensures After(s, [e]) == Do(s, e)
  {
    assert [e][1..] == [];
    assert After(Do(s, e), []) == Do(s, e);
  }

  lemma QuietStep(s: State, ip: Ip) returns (t: State)
    requires Steady(s) && !SlotOf(s, ip).pc.Idle? && Current(SlotOf(s, ip).pc).None?
    requires Proceeding(SlotOf(s, ip), |s.jobs|).1.None?
    ensures t == After(s, [Proceed(ip)]) && Steady(t)
    ensures Moved(s, t, ip, Proceeding(SlotOf(s, ip), |s.jobs|).0)
    ensures t.ledger == s.ledger && t.jobs == s.jobs
  {
    StepAfter(s, Proceed(ip));
    t := Do(s, Proceed(ip));
  }

  /** The command has started. */
  function Launched(s: State, ip: Ip, kind: Kind, waiting: Slot): State {
    State(s.slots[ip := waiting], C.Step(s.ledger, C.Spawn), s.jobs + [Job(kind, ip, false)], s.stopped)
  }

  /** It has taken effect. */
  function Effective(s: State, ip: Ip, kind: Kind, waiting: Slot): State {
    Launched(s, ip, kind, waiting).(
      slots := s.slots[ip := Changed(waiting, kind)],
      jobs := s.jobs + [Job(kind, ip, true)])
  }

  lemma Starts(s: State, ip: Ip, kind: Kind, waiting: Slot)
    requires Steady(s) && !SlotOf(s, ip).pc.Idle? && Current(SlotOf(s, ip).pc).None?
    requires Proceeding(SlotOf(s, ip), |s.jobs|) == (waiting, Some(kind))
    ensures Enabled(s, Proceed(ip)) && Do(s, Proceed(ip)) == Launched(s, ip, kind, waiting)
  {
    hide Proceeding;
  }

  lemma TakesEffect(s: State, ip: Ip, kind: Kind, waiting: Slot)
    requires Steady(s)
    ensures var a := Launched(s, ip, kind, waiting);
            Enabled(a, Act(|s.jobs|)) && Do(a, Act(|s.jobs|)) == Effective(s, ip, kind, waiting)
  {
    hide Changed;
    var a := Launched(s, ip, kind, waiting);
    assert a.jobs[|s.jobs| := Job(kind, ip, true)] == s.jobs + [Job(kind, ip, true)];
    assert a.slots[ip := Changed(waiting, kind)] == s.slots[ip := Changed(waiting, kind)];
  }

  lemma Finishes(s: State, ip: Ip, kind: Kind, waiting: Slot, done: Slot)
    requires Steady(s)
    requires Current(Changed(waiting, kind).pc) == Some(|s.jobs|) && done == Ending(Changed(waiting, kind), Success)
    ensures var b := Effective(s, ip, kind, waiting);
            && Enabled(b, CommandEnds(ip, Success))
            && var t := Do(b, CommandEnds(ip, Success)); Steady(t) && Moved(s, t, ip, done) && Spared(s, t)
  {
    hide Changed, Ending;
    var b := Effective(s, ip, kind, waiting);
    assert SlotOf(b, ip) == Changed(waiting, kind);
    assert b.slots[ip := done] == s.slots[ip := done];
  }

  lemma CommandStep(s: State, ip: Ip, kind: Kind, waiting: Slot, done: Slot) returns (t: State)
    requires Steady(s) && !SlotOf(s, ip).pc.Idle? && Current(SlotOf(s, ip).pc).None?
    requires Proceeding(SlotOf(s, ip), |s.jobs|) == (waiting, Some(kind))
    requires Current(Changed(waiting, kind).pc) == Some(|s.jobs|) && done == Ending(Changed(waiting, kind), Success)
    ensures t == After(s, Command(ip, |s.jobs|)) && Steady(t)
    ensures Moved(s, t, ip, done) && Spared(s, t)
  {
    hide Do, Enabled, Proceeding, Changed, Ending, Moved, Spared;
    var n := |s.jobs|;
    Starts(s, ip, kind, waiting);
    TakesEffect(s, ip, kind, waiting);
    Finishes(s, ip, kind, waiting, done);
    var b := Effective(s, ip, kind, waiting);
    t := Do(b, CommandEnds(ip, Success));
    var events := Command(ip, n);
    assert events[1..] == [Act(n), CommandEnds(ip, Success)] && events[1..][1..] == [CommandEnds(ip, Success)];
    assert After(b, [CommandEnds(ip, Success)]) == t by { StepAfter(b, CommandEnds(ip, Success)); }
  }

  lemma Joined(s: State, a: seq<Event>, mid: State, b: seq<Event>, t: State)
    requires After(s, a) == mid && After(mid, b) == t
    ensures After(s, a + b) == t
  {
    Shutdown.RunsConcatenate(s, a, b, 0);
  }

  /** The address is on the interface, marked, owned and confirmed. */
  function Placed(x: Slot): Slot {
    Slot(true, true, true, false, x.recleanup, Idle, Worker(false, true))
  }

  /** A run from `s` that ends with slot `x` for `ip`, every other slot as it was. */
  ghost predicate Reaches(s: State, events: seq<Event>, ip: Ip, x: Slot) {
    Steady(After(s, events)) && Moved(s, After(s, events), ip, x) && Spared(s, After(s, events))
  }

  lemma Then(s: State, a: seq<Event>, ip: Ip, x: Slot, b: seq<Event>, y: Slot)
    requires Reaches(s, a, ip, x) && Reaches(After(s, a), b, ip, y)
    ensures Reaches(s, a + b, ip, y)
  {
    Joined(s, a, After(s, a), b, After(After(s, a), b));
  }

  lemma Quietly(s: State, ip: Ip, y: Slot)
    requires Steady(s) && !SlotOf(s, ip).pc.Idle? && Current(SlotOf(s, ip).pc).None?
    requires Proceeding(SlotOf(s, ip), |s.jobs|) == (y, None)
    ensures Reaches(s, [Proceed(ip)], ip, y)
  {
    hide Do, Enabled, Proceeding;
    var t := QuietStep(s, ip);
  }

  lemma WithCommand(s: State, ip: Ip, kind: Kind, waiting: Slot, done: Slot) returns (events: seq<Event>)
    requires Steady(s) && !SlotOf(s, ip).pc.Idle? && Current(SlotOf(s, ip).pc).None?
    requires Proceeding(SlotOf(s, ip), |s.jobs|) == (waiting, Some(kind))
    requires Current(Changed(waiting, kind).pc) == Some(|s.jobs|) && done == Ending(Changed(waiting, kind), Success)
    ensures Reaches(s, events, ip, done) && NeverBegins(events)
  {
    events := Command(ip, |s.jobs|);
    assert NeverBegins(events);
    hide Do, Enabled, Proceeding, Ending, Changed, After, Command, Spared;
    var t := CommandStep(s, ip, kind, waiting, done);
  }

  lemma BindMarks(s: State, ip: Ip) returns (events: seq<Event>)
    requires Steady(s) && SlotOf(s, ip).pc.Bind? && SlotOf(s, ip).pc.bind.Owned?
    ensures var x := SlotOf(s, ip);
            var first := x.pc.first;
            Reaches(s, events, ip, x.(marker := true, pending := x.pending || first, pc := Bind(first, Marked)))
  {
    hide Do, Enabled, After, Reaches;
    var x := SlotOf(s, ip);
    var first, was := x.pc.first, x.pc.bind.wasPending;
    var prepared := x.(pending := x.pending || first, pc := Bind(first, Prepared(was)));
    Quietly(s, ip, prepared);
    var t := After(s, [Proceed(ip)]);
    ReachedSlot(s, [Proceed(ip)], ip, prepared);
    var more := WithCommand(t, ip, AddMarker, prepared.(pc := Bind(first, Marking(was, |t.jobs|))),
                            prepared.(marker := true, pc := Bind(first, Marked)));
    Then(s, [Proceed(ip)], ip, prepared, more, prepared.(marker := true, pc := Bind(first, Marked)));
    events := [Proceed(ip)] + more;
  }

  lemma ReachedSlot(s: State, events: seq<Event>, ip: Ip, x: Slot)
    requires Reaches(s, events, ip, x)
    ensures SlotOf(After(s, events), ip) == x && Steady(After(s, events))
  {}

  lemma BindAdds(s: State, ip: Ip) returns (events: seq<Event>)
    requires Steady(s) && SlotOf(s, ip).pc.Bind? && SlotOf(s, ip).pc.bind.Marked?
    ensures var x := SlotOf(s, ip); Reaches(s, events, ip, x.(address := true, pc := Bind(x.pc.first, Added)))
  {
    hide Do, Enabled, After, Reaches;
    var x := SlotOf(s, ip);
    var first := x.pc.first;
    events := WithCommand(s, ip, AddAddress, x.(pc := Bind(first, Adding(|s.jobs|))),
                          x.(address := true, pc := Bind(first, Added)));
  }

  lemma BindConfirms(s: State, ip: Ip) returns (events: seq<Event>)
    requires Steady(s) && SlotOf(s, ip).pc.Bind? && SlotOf(s, ip).pc.bind.Added?
    ensures var x := SlotOf(s, ip);
            Reaches(s, events, ip, Returned(x.(pending := x.pending && !x.pc.first), false, true))
  {
    hide Do, Enabled, After, Reaches;
    var x := SlotOf(s, ip);
    var y := x.(pending := x.pending && !x.pc.first, pc := Bind(x.pc.first, Confirmed));
    Quietly(s, ip, y);
    ReachedSlot(s, [Proceed(ip)], ip, y);
    Quietly(After(s, [Proceed(ip)]), ip, Returned(y, false, true));
    Then(s, [Proceed(ip)], ip, y, [Proceed(ip)], Returned(y, false, true));
    events := [Proceed(ip)] + [Proceed(ip)];
  }

  /** From every state in which a bind may begin, the undisturbed bind ends with the address placed. */
  lemma BindCompletes(s: State, ip: Ip) returns (events: seq<Event>)
    requires Steady(s) && Enabled(s, BeginBind(ip))
    ensures Reaches(s, events, ip, Placed(SlotOf(s, ip)))
  {
    var x := SlotOf(s, ip);
    var first := x.pending || !x.bound;
    StepAfter(s, BeginBind(ip));
    events := [BeginBind(ip)];
    assert Reaches(s, events, ip, BindBegun(x));
    hide Do, Enabled, After, Reaches;
    ReachedSlot(s, events, ip, BindBegun(x));
    var more := BindMarks(After(s, events), ip);
    var marked := BindBegun(x).(marker := true, pending := x.pending || first, pc := Bind(first, Marked));
    Then(s, events, ip, BindBegun(x), more, marked);
    events := events + more;
    ReachedSlot(s, events, ip, marked);
    more := BindAdds(After(s, events), ip);
    var added := marked.(address := true, pc := Bind(first, Added));
    Then(s, events, ip, marked, more, added);
    events := events + more;
    ReachedSlot(s, events, ip, added);
    more := BindConfirms(After(s, events), ip);
    Then(s, events, ip, added, more, Placed(x));
    events := events + more;
  }

  lemma UnbindDeletes(s: State, ip: Ip) returns (events: seq<Event>)
    requires Steady(s) && SlotOf(s, ip).pc.Unbind? && SlotOf(s, ip).pc.unbind.Started? && Tracked(SlotOf(s, ip))
    ensures var x := SlotOf(s, ip); Reaches(s, events, ip, x.(address := false, pc := Unbind(x.pc.settled, Deleted)))
    ensures NeverBegins(events)
  {
    hide Do, Enabled, After, Reaches;
    var x := SlotOf(s, ip);
    var settled := x.pc.settled;
    events := WithCommand(s, ip, DeleteAddress, x.(pc := Unbind(settled, Deleting(|s.jobs|))),
                          x.(address := false, pc := Unbind(settled, Deleted)));
  }

  lemma UnbindClears(s: State, ip: Ip) returns (events: seq<Event>)
    requires Steady(s) && SlotOf(s, ip).pc.Unbind? && SlotOf(s, ip).pc.unbind.Deleted?
    ensures var x := SlotOf(s, ip); Reaches(s, events, ip, x.(marker := false, pc := Unbind(x.pc.settled, Cleared)))
    ensures NeverBegins(events)
  {
    hide Do, Enabled, After, Reaches;
    var x := SlotOf(s, ip);
    var settled := x.pc.settled;
    events := WithCommand(s, ip, DeleteMarker, x.(pc := Unbind(settled, Clearing(|s.jobs|))),
                          x.(marker := false, pc := Unbind(settled, Cleared)));
  }

  lemma NextQuietly(s: State, events: seq<Event>, ip: Ip, x: Slot, y: Slot)
    requires Reaches(s, events, ip, x) && x.pc.Unbind? && UnbindChild(x.pc.unbind).None?
    requires forall next: nat :: UnbindProceeding(x, x.pc.settled, x.pc.unbind, next) == (y, None)
    ensures Reaches(s, events + [Proceed(ip)], ip, y)
  {
    hide Do, Enabled, After, Reaches, UnbindProceeding;
    ReachedSlot(s, events, ip, x);
    Quietly(After(s, events), ip, y);
    Then(s, events, ip, x, [Proceed(ip)], y);
  }

  lemma UnbindForgets(s: State, ip: Ip) returns (events: seq<Event>)
    requires Steady(s) && SlotOf(s, ip).pc.Unbind? && SlotOf(s, ip).pc.unbind.Cleared?
    ensures var x := SlotOf(s, ip);
            var retry := !x.pc.settled;
            Reaches(s, events, ip, Returned(x.(bound := false, pending := false, recleanup := retry), retry, false))
    ensures NeverBegins(events) && Reports(s, events, ip)
  {
    hide Do, Enabled, After, Reaches;
    var x := SlotOf(s, ip);
    var settled := x.pc.settled;
    var noted := x.(recleanup := x.recleanup || !settled, pc := Unbind(settled, Noted));
    Quietly(s, ip, noted);
    events := [Proceed(ip)];
    var disowned := noted.(bound := false, pc := Unbind(settled, Disowned));
    NextQuietly(s, events, ip, noted, disowned);
    events := events + [Proceed(ip)];
    var forgotten := disowned.(pending := false, pc := Unbind(settled, Forgotten));
    NextQuietly(s, events, ip, disowned, forgotten);
    events := events + [Proceed(ip)];
    NextQuietly(s, events, ip, forgotten, Returned(forgotten.(recleanup := !settled), !settled, false));
    ReachedSlot(s, events, ip, forgotten);
    ReportedLast(s, events, ip);
    events := events + [Proceed(ip)];
  }

  lemma ReportedLast(s: State, events: seq<Event>, ip: Ip)
    requires var t := After(s, events); Steady(t) && Unbinds(t, Proceed(ip), ip)
    ensures Reports(s, events + [Proceed(ip)], ip)
  {
    Shutdown.RunsConcatenate(s, events, [Proceed(ip)], ip);
  }

  lemma UnbindStarts(s: State, ip: Ip)
    requires Steady(s) && SlotOf(s, ip).pc.Idle?
    ensures Reaches(s, [BeginUnbind(ip)], ip, UnbindBegun(SlotOf(s, ip), Settled(s)))
  {
    StepAfter(s, BeginUnbind(ip));
  }

  /** Nothing is left; only an unsettled start keeps the address for another cleanup. */
  function Removed(settled: bool): Slot {
    Slot(false, false, false, false, !settled, Idle, Worker(!settled, false))
  }

  /** From every idle state that tracks the address, the undisturbed unbind ends with nothing left. */
  lemma UnbindCompletes(s: State, ip: Ip) returns (events: seq<Event>)
    requires Steady(s) && SlotOf(s, ip).pc.Idle? && Tracked(SlotOf(s, ip))
    ensures Reaches(s, events, ip, Removed(Settled(s)))
    ensures NeverBegins(events) && Reports(s, events, ip)
  {
    hide Do, Enabled, After, Reaches, Reports, Settled;
    var x := SlotOf(s, ip);
    var settled := Settled(s);
    events := [BeginUnbind(ip)];
    var begun := UnbindBegun(x, settled);
    UnbindStarts(s, ip);
    ReachedSlot(s, events, ip, begun);
    var more := UnbindDeletes(After(s, events), ip);
    var deleted := begun.(address := false, pc := Unbind(settled, Deleted));
    Then(s, events, ip, begun, more, deleted);
    events := events + more;
    ReachedSlot(s, events, ip, deleted);
    more := UnbindClears(After(s, events), ip);
    var cleared := deleted.(marker := false, pc := Unbind(settled, Cleared));
    Then(s, events, ip, deleted, more, cleared);
    events := events + more;
    ReachedSlot(s, events, ip, cleared);
    more := UnbindForgets(After(s, events), ip);
    Then(s, events, ip, cleared, more, Removed(settled));
    Shutdown.RunsConcatenate(s, events, more, ip);
    events := events + more;
  }
}
