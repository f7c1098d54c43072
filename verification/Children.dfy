/**
 Address-changing children of the process.

 A child is counted from the moment its caller stops waiting for it until it is proven reaped. A
 child whose reap failed stays counted for the life of the process.
 */
module Children {
  import opened Prelude

  datatype Phase = WaitedFor | Abandoned | Finished

  datatype Tracker = Tracker(unsettled: nat, lost: bool)

  function Counted(t: Tracker): Tracker {
    t.(unsettled := t.unsettled + 1)
  }

  function Uncounted(t: Tracker): Tracker {
    t.(unsettled := SaturatingSub(t.unsettled, 1))
  }

  function MarkedLost(t: Tracker): Tracker {
    t.(lost := true)
  }

  /** The caller stopped waiting. */
  function Abandon(t: Tracker, phase: Phase): (Tracker, Phase) {
    if phase == WaitedFor then (Counted(t), Abandoned) else (t, phase)
  }

  /** The waiter is done with the child, which is reaped or lost. */
  function Finish(t: Tracker, phase: Phase, reaped: bool): (Tracker, Phase) {
    var counted :=
      match (phase, reaped)
      case (Abandoned, true) => Uncounted(t)
      case (WaitedFor, false) => Counted(t)
      case _ => t;
    (if reaped then counted else MarkedLost(counted), Finished)
  }

  class ChildTracker {
    var state: Tracker

    constructor ()
      ensures state == Tracker(0, false)
    {
      state := Tracker(0, false);
    }

    method Begin()
      modifies this
      ensures state == Counted(old(state))
    {
      state := state.(unsettled := state.unsettled + 1);
    }

    method Settle()
      modifies this
      ensures state == Uncounted(old(state))
    {
      state := state.(unsettled := SaturatingSub(state.unsettled, 1));
    }

    method Lose()
      modifies this
      ensures state == MarkedLost(old(state))
    {
      state := state.(lost := true);
    }
  }

  class TrackedRun {
    const tracker: ChildTracker
    var phase: Phase

    constructor (tracker: ChildTracker)
      ensures phase == WaitedFor && this.tracker == tracker
    {
      this.tracker := tracker;
      phase := WaitedFor;
    }

    method AbandonRun()
      modifies this, tracker
      ensures (tracker.state, phase) == Abandon(old(tracker.state), old(phase))
    {
      if phase == WaitedFor {
        tracker.Begin();
        phase := Abandoned;
      }
    }

    method FinishRun(reaped: bool)
      modifies this, tracker
      ensures (tracker.state, phase) == Finish(old(tracker.state), old(phase), reaped)
    {
      match (phase, reaped) {
        case (Abandoned, true) => tracker.Settle();
        case (WaitedFor, false) => tracker.Begin();
        case (_, _) =>
      }
      if !reaped {
        tracker.Lose();
      }
      phase := Finished;
    }
  }

  // ---- Any number of runs, in any interleaving ----

  /** `reaped` tells how a finished run ended. */
  datatype Run = Run(phase: Phase, reaped: bool)

  datatype Ledger = Ledger(tracker: Tracker, runs: seq<Run>)

  datatype Event = Spawn | Dropped(run: nat) | Ended(run: nat, reaped: bool)

  const EMPTY := Ledger(Tracker(0, false), [])

  /** Each run has one waiter, so it ends once; its caller may be dropped at any time. */
  predicate Possible(l: Ledger, e: Event) {
    match e
    case Spawn => true
    case Dropped(i) => i < |l.runs|
    case Ended(i, _) => i < |l.runs| && l.runs[i].phase != Finished
  }

  function Step(l: Ledger, e: Event): Ledger
    requires Possible(l, e)
  {
    match e
    case Spawn => l.(runs := l.runs + [Run(WaitedFor, false)])
    case Dropped(i) =>
      var (t, phase) := Abandon(l.tracker, l.runs[i].phase);
      Ledger(t, l.runs[i := l.runs[i].(phase := phase)])
    case Ended(i, reaped) =>
      var (t, phase) := Finish(l.tracker, l.runs[i].phase, reaped);
      Ledger(t, l.runs[i := Run(phase, reaped)])
  }

  /** Lost for good. */
  predicate IsLost(r: Run) {
    r.phase == Finished && !r.reaped
  }

  /** Unreaped and without a caller. */
  predicate IsOrphan(r: Run) {
    r.phase == Abandoned || IsLost(r)
  }

  function Orphans(runs: seq<Run>): nat {
    if runs == [] then 0 else Orphans(runs[..|runs| - 1]) + if IsOrphan(runs[|runs| - 1]) then 1 else 0
  }

  ghost predicate Conserved(l: Ledger) {
    && l.tracker.unsettled == Orphans(l.runs)
    && (l.tracker.lost <==> exists i :: 0 <= i < |l.runs| && IsLost(l.runs[i]))
  }

  lemma {:induction false} OrphansAt(runs: seq<Run>, i: nat, r: Run)
    requires i < |runs|
    ensures Orphans(runs[i := r]) + (if IsOrphan(runs[i]) then 1 else 0)
            == Orphans(runs) + (if IsOrphan(r) then 1 else 0)
    decreases |runs|
  {
    var n := |runs| - 1;
    if i < n {
      OrphansAt(runs[..n], i, r);
      assert runs[i := r][..n] == runs[..n][i := r];
    } else {
      assert runs[i := r][..n] == runs[..n];
    }
  }

  lemma {:induction false} NoOrphans(runs: seq<Run>)
    ensures Orphans(runs) == 0 <==> forall i :: 0 <= i < |runs| ==> !IsOrphan(runs[i])
    decreases |runs|
  {
    if runs != [] {
      var n := |runs| - 1;
      NoOrphans(runs[..n]);
      assert forall i :: 0 <= i < n ==> runs[..n][i] == runs[i];
    }
  }

  /** One event keeps the books, and its subtraction finds something to subtract. */
  lemma StepConserves(l: Ledger, e: Event)
    requires Conserved(l) && Possible(l, e)
    ensures Conserved(Step(l, e))
    ensures e.Ended? && e.reaped && l.runs[e.run].phase == Abandoned ==> l.tracker.unsettled > 0
    ensures l.tracker.lost ==> Step(l, e).tracker.lost
  {
    var m := Step(l, e);
    match e {
      case Spawn =>
        assert m.runs[..|l.runs|] == l.runs;
        forall i | 0 <= i < |l.runs| ensures m.runs[i] == l.runs[i] {}
      case Dropped(i) =>
        OrphansAt(l.runs, i, m.runs[i]);
        forall j | 0 <= j < |l.runs| ensures IsLost(m.runs[j]) <==> IsLost(l.runs[j]) {}
      case Ended(i, reaped) =>
        OrphansAt(l.runs, i, m.runs[i]);
        if l.runs[i].phase == Abandoned { NoOrphans(l.runs); }
        forall j | 0 <= j < |l.runs| && j != i ensures m.runs[j] == l.runs[j] {}
    }
  }

  predicate Runs(l: Ledger, events: seq<Event>, m: Ledger)
    decreases |events|
  {
    if events == [] then l == m else Possible(l, events[0]) && Runs(Step(l, events[0]), events[1..], m)
  }

  /**
   After any interleaving the count is exactly the number of abandoned unfinished runs plus the
   runs that ended unreaped; a settled tracker has no unreaped child without a caller; and once a
   child is lost the tracker is never settled again.
   */
  lemma {:induction false} CountIsConserved(l: Ledger, events: seq<Event>, m: Ledger)
    requires Conserved(l) && Runs(l, events, m)
    ensures Conserved(m)
    ensures m.tracker.unsettled == 0 <==> forall i :: 0 <= i < |m.runs| ==> !IsOrphan(m.runs[i])
    ensures l.tracker.lost ==> m.tracker.lost && m.tracker.unsettled > 0
    decreases |events|
  {
    NoOrphans(m.runs);
    if events != [] {
      StepConserves(l, events[0]);
      CountIsConserved(Step(l, events[0]), events[1..], m);
    }
  }
}
