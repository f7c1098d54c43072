/**
 The replicated assignment state of one VIP as a fold over the committed log.

 Placement is left open: every entry that recomputes holders carries the holder that placement
 chose for this VIP, so the results below hold for any placement policy.
 */
module Assignments {
  import opened Prelude
  import opened BindPolicy

  const ACTIVATION_HOLDOFF_TICKS: nat := 1

  datatype Entry =
    /** A committed, accepted `HealthProgress` of `node` whose request started at `started`. */
    | Progress(node: NodeId, started: Time, healthy: Option<bool>, placed: Option<NodeId>)
    /** `VipReleased` for this VIP. */
    | Release(node: NodeId, generation: nat)
    /** Membership, genesis and semantics entries; the first genesis also forgets the probe ticks. */
    | Recompute(forget: bool, placed: Option<NodeId>)
    /** Blank and rejected entries. */
    | Blank

  datatype View = View(
    assignment: Option<Assignment>, generation: nat, lastHolder: Option<NodeId>, ticks: map<NodeId, nat>, frontier: nat)

  const EMPTY := View(None, 0, None, map[], 0)

  function SightOf(v: View): Sight {
    Sight(v.assignment, v.ticks, v.frontier)
  }

  /** `next_probe_tick` and `apply_health` */
  function WithProbe(v: View, node: NodeId): View {
    var next := Max(SaturatingAdd(if node in v.ticks then v.ticks[node] else 0, 1), v.frontier);
    v.(ticks := v.ticks[node := next], frontier := next)
  }

  /** `reconcile_vip_assignments` for this VIP */
  function Reconciled(v: View, placed: Option<NodeId>): View {
    var last := if v.assignment.Some? then Some(v.assignment.value.holder) else v.lastHolder;
    if placed.None? then v.(assignment := None, lastHolder := last)
    else if v.assignment.Some? && v.assignment.value.holder == placed.value then v.(lastHolder := placed)
    else
      var generation := SaturatingAdd(v.generation, 1);
      var activation :=
        if v.assignment.None? && v.generation == 0 then v.frontier
        else SaturatingAdd(v.frontier, ACTIVATION_HOLDOFF_TICKS);
      v.(
      assignment := Some(Assignment(placed.value, generation, last, last.None?, activation)),
      generation := generation,
      lastHolder := placed)
  }

  function Applied(v: View, e: Entry): View {
    match e
    case Progress(node, _, healthy, placed) => if healthy.None? then v else Reconciled(WithProbe(v, node), placed)
    case Release(node, generation) =>
      if && v.assignment.Some?
         && v.assignment.value.generation == generation
         && v.assignment.value.previousHolder == Some(node)
      then v.(assignment := Some(v.assignment.value.(previousHolderReleased := true)))
      else v
    case Recompute(forget, placed) => Reconciled(if forget then v.(ticks := map[]) else v, placed)
    case Blank => v
  }

  function ViewAt(log: seq<Entry>, n: nat): View
    requires n <= |log|
  {
    if n == 0 then EMPTY else Applied(ViewAt(log, n - 1), log[n - 1])
  }

  /** Generations and ticks never outgrow the log index, so their 64-bit counters never saturate. */
  predicate Sane(v: View, n: nat) {
    && v.generation <= n
    && v.frontier <= n
    && (forall node :: node in v.ticks ==> v.ticks[node] <= v.frontier)
    && (v.generation == 0 <==> v.lastHolder.None?)
    && (v.assignment.Some? ==>
          && v.assignment.value.generation == v.generation >= 1
          && v.lastHolder == Some(v.assignment.value.holder)
          && (v.assignment.value.previousHolder.None? <==> v.generation == 1))
  }

  /** How one entry may move the assignment. */
  predicate Moves(v: View, w: View) {
    || (&& w.generation == v.generation
        && w.lastHolder == v.lastHolder
        && (w.assignment.Some? ==>
              && v.assignment.Some?
              && w.assignment.value.previousHolder == v.assignment.value.previousHolder))
    || (&& w.generation == v.generation + 1
        && w.assignment.Some?
        && w.assignment.value.previousHolder == v.lastHolder)
  }

  lemma AppliedMoves(v: View, e: Entry, n: nat)
    requires Sane(v, n) && n < U64_MAX
    ensures Sane(Applied(v, e), n + 1) && Moves(v, Applied(v, e))
  {
  }

  lemma {:induction false} ViewIsSane(log: seq<Entry>, n: nat)
    requires n <= |log| <= U64_MAX
    ensures Sane(ViewAt(log, n), n)
  {
    if n > 0 {
      ViewIsSane(log, n - 1);
      AppliedMoves(ViewAt(log, n - 1), log[n - 1], n - 1);
    }
  }

  /** Generations only grow along the log, and one generation has one holder. */
  lemma {:induction false} GenerationsGrow(log: seq<Entry>, m: nat, n: nat)
    requires m <= n <= |log| <= U64_MAX
    ensures ViewAt(log, m).generation <= ViewAt(log, n).generation
    ensures ViewAt(log, m).generation == ViewAt(log, n).generation ==>
              ViewAt(log, m).lastHolder == ViewAt(log, n).lastHolder
    decreases n
  {
    if m < n {
      GenerationsGrow(log, m, n - 1);
      ViewIsSane(log, n - 1);
      AppliedMoves(ViewAt(log, n - 1), log[n - 1], n - 1);
    }
  }

  /** The recorded previous holder is the holder of the generation just before. */
  lemma {:induction false} PreviousIsPredecessor(log: seq<Entry>, m: nat, n: nat)
    requires m <= n <= |log| <= U64_MAX
    requires ViewAt(log, m).generation + 1 == ViewAt(log, n).generation && ViewAt(log, n).assignment.Some?
    ensures ViewAt(log, n).assignment.value.previousHolder == ViewAt(log, m).lastHolder
    decreases n
  {
    ViewIsSane(log, n - 1);
    AppliedMoves(ViewAt(log, n - 1), log[n - 1], n - 1);
    if ViewAt(log, n - 1).generation == ViewAt(log, n).generation {
      PreviousIsPredecessor(log, m, n - 1);
    } else {
      GenerationsGrow(log, m, n - 1);
    }
  }

  /** A released handoff was released by its own previous holder for its own generation. */
  lemma {:induction false} ReleaseIsLogged(log: seq<Entry>, n: nat)
    requires n <= |log| <= U64_MAX
    ensures var a := ViewAt(log, n).assignment;
            a.Some? && a.value.previousHolder.Some? && a.value.previousHolderReleased ==>
              Release(a.value.previousHolder.value, a.value.generation) in log[..n]
  {
    if n > 0 {
      ReleaseIsLogged(log, n - 1);
      ViewIsSane(log, n - 1);
      assert log[..n] == log[..n - 1] + [log[n - 1]];
    }
  }

  lemma {:induction false} ViewIsStable(log: seq<Entry>, e: Entry, n: nat)
    requires n <= |log|
    ensures ViewAt(log + [e], n) == ViewAt(log, n)
  {
    if n > 0 {
      ViewIsStable(log, e, n - 1);
    }
  }

  // ---- The activation holdoff ----

  predicate IsProbe(e: Entry) {
    e.Progress? && e.healthy.Some?
  }

  /** Only a probe moves the frontier. */
  lemma {:induction false} FrontierNeedsProbe(log: seq<Entry>, m: nat, n: nat)
    requires m <= n <= |log| && forall i :: m <= i < n ==> !IsProbe(log[i])
    ensures ViewAt(log, n).frontier == ViewAt(log, m).frontier
    decreases n
  {
    if m < n { FrontierNeedsProbe(log, m, n - 1); }
  }

  lemma AppliedActivation(v: View, e: Entry, n: nat)
    requires Sane(v, n) && n + 1 < U64_MAX
    ensures var w := Applied(v, e);
            && v.generation <= w.generation <= v.generation + 1
            && (w.generation > v.generation >= 1 && w.assignment.Some? ==>
                  w.assignment.value.activationTick == w.frontier + ACTIVATION_HOLDOFF_TICKS)
            && (w.generation == v.generation && w.assignment.Some? ==>
                  v.assignment.Some? && w.assignment.value.activationTick == v.assignment.value.activationTick)
  {}

  /** While a generation lasts, its assignment keeps the tick it was given at birth. */
  lemma {:induction false} ActivationStays(log: seq<Entry>, m: nat, n: nat)
    requires 0 < m <= n <= |log| < U64_MAX
    requires ViewAt(log, m - 1).generation < ViewAt(log, m).generation == ViewAt(log, n).generation
    requires ViewAt(log, m).generation >= 2 && ViewAt(log, n).assignment.Some?
    ensures ViewAt(log, n).assignment.value.activationTick == ViewAt(log, m).frontier + ACTIVATION_HOLDOFF_TICKS
    decreases n
  {
    hide Applied, Sane;
    var v := ViewAt(log, n - 1);
    assert ViewAt(log, n) == Applied(v, log[n - 1]);
    hide ViewAt;
    ViewIsSane(log, n - 1);
    AppliedActivation(v, log[n - 1], n - 1);
    if m < n {
      GenerationsGrow(log, m, n - 1);
      ActivationStays(log, m, n - 1);
    }
  }

  /**
   A VIP that moved is not bound, under any gates and at any prefix, before another probe has been
   committed after the move.
   */
  lemma HoldoffIsServed(
    log: seq<Entry>, m: nat, n: nat, gates: BindGates, node: NodeId, stale: nat, activated: Option<nat>)
    requires 0 < m <= n <= |log| < U64_MAX
    requires ViewAt(log, m - 1).generation < ViewAt(log, m).generation == ViewAt(log, n).generation
    requires ViewAt(log, m).generation >= 2
    requires ShouldBindOrKeep(gates, node, SightOf(ViewAt(log, n)), stale, activated)
    ensures exists i :: m <= i < n && IsProbe(log[i])
  {
    ActivationStays(log, m, n);
    if forall i :: m <= i < n ==> !IsProbe(log[i]) { FrontierNeedsProbe(log, m, n); }
  }
}
