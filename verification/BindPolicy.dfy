/**
 The local decisions about one assigned VIP: the bind policy, the captured intent of an effect in
 flight, and the wait for a predecessor that never acknowledged its release.
 */
module BindPolicy {
  import opened Prelude

  type NodeId = nat

  datatype Assignment = Assignment(
    holder: NodeId, generation: nat, previousHolder: Option<NodeId>, previousHolderReleased: bool, activationTick: nat)

  datatype BindGates = BindGates(hasLeader: bool, localHealthy: bool, consensusFresh: bool)

  /** What a node reads from its applied state about one VIP. */
  datatype Sight = Sight(assignment: Option<Assignment>, ticks: map<NodeId, nat>, frontier: nat)

  const ALL_OPEN := BindGates(true, true, true)

  predicate IsNodeProbeFresh(node: NodeId, ticks: map<NodeId, nat>, frontier: nat, stale: nat) {
    node in ticks && SaturatingSub(frontier, ticks[node]) <= stale
  }

  predicate ShouldBindOrKeep(gates: BindGates, node: NodeId, sight: Sight, stale: nat, activated: Option<nat>) {
    && gates == ALL_OPEN
    && sight.assignment.Some?
    && var a := sight.assignment.value;
       && a.holder == node
       && a.activationTick <= sight.frontier
       && (|| activated == Some(a.generation)
           || a.previousHolder.None?
           || a.previousHolderReleased
           || !IsNodeProbeFresh(a.previousHolder.value, sight.ticks, sight.frontier, stale))
  }

  // ---- Intents ----

  datatype Intent = Intent(
    assignment: Option<Assignment>, bindPolicy: bool, node: NodeId, gates: BindGates,
    activated: Option<nat>, previousTick: Option<nat>)

  function PreviousTick(sight: Sight): Option<nat> {
    if sight.assignment.Some? && sight.assignment.value.previousHolder.Some?
       && sight.assignment.value.previousHolder.value in sight.ticks
    then Some(sight.ticks[sight.assignment.value.previousHolder.value])
    else None
  }

  function Capture(node: NodeId, gates: BindGates, sight: Sight, stale: nat, activated: Option<nat>): Intent {
    Intent(
      sight.assignment, ShouldBindOrKeep(gates, node, sight, stale, activated), node, gates, activated,
      PreviousTick(sight))
  }

  /** The intent of the completed binding. */
  function Activated(i: Intent): Intent {
    i.(activated := if i.assignment.Some? then Some(i.assignment.value.generation) else None)
  }

  predicate RemainsValid(i: Intent, sight: Sight, stale: nat, gates: BindGates) {
    var current := Capture(i.node, gates, sight, stale, i.activated);
    var expected :=
      if && i.assignment.Some?
         && i.assignment.value.holder == i.node
         && i.activated == Some(i.assignment.value.generation)
         && current.assignment.Some?
         && current.assignment.value.previousHolderReleased
      then Some(i.assignment.value.(previousHolderReleased := true))
      else i.assignment;
    var waiting :=
      && i.assignment.Some?
      && i.assignment.value.holder == i.node
      && i.assignment.value.previousHolder.Some?
      && !i.assignment.value.previousHolderReleased
      && i.activated != Some(i.assignment.value.generation);
    && expected == current.assignment
    && i.gates == gates
    && i.bindPolicy == current.bindPolicy
    && (waiting ==> i.previousTick == current.previousTick)
  }

  // ---- Takeover without an acknowledged release ----

  datatype Wait = Wait(generation: nat, previousTick: Option<nat>, since: Time)

  function Await(
    pending: Option<Wait>, node: NodeId, sight: Sight, stale: nat, activated: Option<nat>, lifetime: Time, now: Time)
    : (Option<Wait>, bool)
  {
    if sight.assignment.None? || sight.assignment.value.holder != node then (None, false) else
      var a := sight.assignment.value;
      if || activated == Some(a.generation)
         || (a.previousHolder.Some? && a.previousHolderReleased)
         || (a.previousHolder.None? && a.generation == 1)
      then (None, true)
      else if a.previousHolder.Some? && IsNodeProbeFresh(a.previousHolder.value, sight.ticks, sight.frontier, stale)
      then (None, false)
      else
        var tick := PreviousTick(sight);
        var wait :=
          if pending.Some? && pending.value.generation == a.generation && pending.value.previousTick == tick
          then pending.value
          else Wait(a.generation, tick, now);
        (Some(wait), SaturatingSub(now, wait.since) >= lifetime)
  }

  class TakeoverDelay {
    const lifetime: Time
    var waiting: map<nat, Wait>

    constructor (lifetime: Time)
      ensures this.lifetime == lifetime && waiting == map[]
    {
      this.lifetime := lifetime;
      waiting := map[];
    }

    ghost function Pending(vip: nat): Option<Wait>
      reads this
    {
      if vip in waiting then Some(waiting[vip]) else None
    }

    method Ready(vip: nat, node: NodeId, sight: Sight, stale: nat, activated: Option<nat>, now: Time)
      returns (ready: bool)
      modifies this
      ensures (Pending(vip), ready) == Await(old(Pending(vip)), node, sight, stale, activated, lifetime, now)
      ensures waiting - {vip} == old(waiting) - {vip}
    {
      if sight.assignment.None? || sight.assignment.value.holder != node {
        waiting := waiting - {vip};
        return false;
      }
      var a := sight.assignment.value;
      if activated == Some(a.generation)
         || (a.previousHolder.Some? && a.previousHolderReleased)
         || (a.previousHolder.None? && a.generation == 1) {
        waiting := waiting - {vip};
        return true;
      }
      if a.previousHolder.Some? && IsNodeProbeFresh(a.previousHolder.value, sight.ticks, sight.frontier, stale) {
        waiting := waiting - {vip};
        return false;
      }
      var tick := PreviousTick(sight);
      if vip !in waiting {
        waiting := waiting[vip := Wait(a.generation, tick, now)];
      }
      if waiting[vip].generation != a.generation || waiting[vip].previousTick != tick {
        waiting := waiting[vip := Wait(a.generation, tick, now)];
      }
      ready := SaturatingSub(now, waiting[vip].since) >= lifetime;
    }
  }

  /** A wait that ends was served in full on one generation and one predecessor tick. */
  lemma WaitIsServed(
    pending: Option<Wait>, node: NodeId, sight: Sight, stale: nat, activated: Option<nat>, lifetime: Time, now: Time)
    requires Await(pending, node, sight, stale, activated, lifetime, now).1
    requires sight.assignment.value.previousHolder.Some?
    requires !sight.assignment.value.previousHolderReleased && activated != Some(sight.assignment.value.generation)
    requires lifetime > 0
    ensures pending.Some?
         && pending.value.generation == sight.assignment.value.generation
         && pending.value.previousTick == PreviousTick(sight)
         && pending.value.since + lifetime <= now
         && !IsNodeProbeFresh(sight.assignment.value.previousHolder.value, sight.ticks, sight.frontier, stale)
  {
  }
}
