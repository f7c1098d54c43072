/**
 The placement rule for a single VIP over three voters, and steps towards a reachable state: commit,
 apply, and bind at once what the applied view allows.
 */
module HandoffGap {
  import opened Prelude
  import opened Identity
  import opened BindPolicy
  import opened Assignments
  import opened Handoff
  import F = Freshness

  // ---- Placement of a single VIP over three voters ----

  function HealthAt(log: seq<Entry>, n: nat): map<NodeId, bool>
    requires n <= |log|
  {
    if n == 0 then map[]
    else if log[n - 1].Progress? && log[n - 1].healthy.Some?
    then HealthAt(log, n - 1)[log[n - 1].node := log[n - 1].healthy.value]
    else if log[n - 1].Recompute? && log[n - 1].forget then map[]
    else HealthAt(log, n - 1)
  }

  /** `is_node_base_eligible`, which decides alone when failback is off or has no delay. */
  predicate Eligible(node: NodeId, health: map<NodeId, bool>, ticks: map<NodeId, nat>, frontier: nat, stale: nat) {
    node in health && health[node] && IsNodeProbeFresh(node, ticks, frontier, stale)
  }

  /** Minimal movement of one VIP: keep an eligible holder, else take the lowest eligible id. */
  function Place(v: View, health: map<NodeId, bool>, stale: nat): Option<NodeId> {
    if v.assignment.Some? && Eligible(v.assignment.value.holder, health, v.ticks, v.frontier, stale)
    then Some(v.assignment.value.holder)
    else if Eligible(1, health, v.ticks, v.frontier, stale) then Some(1)
    else if Eligible(2, health, v.ticks, v.frontier, stale) then Some(2)
    else if Eligible(3, health, v.ticks, v.frontier, stale) then Some(3)
    else None
  }

  /** The view a recomputing entry places from. */
  function BeforePlacing(v: View, e: Entry): View {
    match e
    case Progress(node, _, Some(_), _) => WithProbe(v, node)
    case Recompute(true, _) => v.(ticks := map[])
    case _ => v
  }

  predicate Recomputes(e: Entry) {
    (e.Progress? && e.healthy.Some?) || e.Recompute?
  }

  /** Every recomputation in the log chose what placement chooses. */
  predicate PlacedByRule(log: seq<Entry>, stale: nat) {
    PlacedUpTo(log, |log|, stale)
  }

  predicate PlacedUpTo(log: seq<Entry>, n: nat, stale: nat) {
    forall i :: 0 <= i < n <= |log| && Recomputes(log[i]) ==>
                  log[i].placed == Place(BeforePlacing(ViewAt(log, i), log[i]), HealthAt(log, i + 1), stale)
  }

  // ---- Reachability, one step at a time ----

  lemma {:induction false} RunsSnoc(cfg: Config, s: State, steps: seq<Step>, t: State, step: Step)
    requires Runs(cfg, s, steps, t) && Shaped(t) && Enabled(cfg, t, step) && Shaped(Do(cfg, t, step))
    ensures Runs(cfg, s, steps + [step], Do(cfg, t, step))
    decreases |steps|
  {
    if steps == [] {
      assert ([step])[1..] == [];
      assert steps + [step] == [step];
    } else {
      assert (steps + [step])[1..] == steps[1..] + [step];
      RunsSnoc(cfg, Do(cfg, s, steps[0]), steps[1..], t, step);
    }
  }

  lemma Next(cfg: Config, s: State, step: Step)
    requires Reachable(cfg, s) && Shaped(s) && Enabled(cfg, s, step)
    ensures Reachable(cfg, Do(cfg, s, step)) && Shaped(Do(cfg, s, step))
  {
    var now: Time, contexts: map<NodeId, AdmissionContext>, steps: seq<Step> :|
      Runs(cfg, Init(now, contexts), steps, s);
    ReachableOk(cfg, s);
    StepKeeps(cfg, s, step);
    InvShaped(cfg, Do(cfg, s, step));
    RunsSnoc(cfg, Init(now, contexts), steps, s, step);
  }

  lemma {:induction false} ApplyUpTo(cfg: Config, s: State, id: NodeId, n: nat) returns (t: State)
    requires Reachable(cfg, s) && Shaped(s) && id in s.nodes && s.nodes[id].applied <= n <= |s.world.log|
    ensures Reachable(cfg, t) && Shaped(t)
    ensures t == s.(nodes := s.nodes[id := s.nodes[id].(applied := n)])
    decreases n - s.nodes[id].applied
  {
    if s.nodes[id].applied == n {
      t := s;
      assert s.nodes == s.nodes[id := s.nodes[id].(applied := n)];
    } else {
      Next(cfg, s, Apply(id));
      t := ApplyUpTo(cfg, Do(cfg, s, Apply(id)), id, n);
      assert t.nodes == s.nodes[id := s.nodes[id].(applied := n)];
    }
  }

  lemma Extend(cfg: Config, s: State, e: Entry) returns (t: State)
    requires Reachable(cfg, s) && Shaped(s) && Enabled(cfg, s, Append(e))
    ensures Reachable(cfg, t) && Shaped(t)
    ensures t == s.(world := s.world.(log := s.world.log + [e], times := s.world.times + [s.world.now]))
  {
    Next(cfg, s, Append(e));
    t := Do(cfg, s, Append(e));
  }

  // ---- Committing and binding ----

  lemma {:induction false} PrefixView(log: seq<Entry>, more: seq<Entry>, n: nat)
    requires n <= |log|
    ensures ViewAt(log + more, n) == ViewAt(log, n)
  {
    if n > 0 {
      PrefixView(log, more, n - 1);
    }
  }

  lemma {:induction false} ExtendAll(cfg: Config, s: State, entries: seq<Entry>) returns (t: State)
    requires Reachable(cfg, s) && Shaped(s) && |s.world.log| + |entries| <= U64_MAX
    requires forall e :: e in entries ==> !e.Release? && (e.Progress? ==> e.started == 0)
    ensures Reachable(cfg, t) && Shaped(t)
    ensures t.nodes == s.nodes && t.world.log == s.world.log + entries
    ensures t.world == s.world.(log := t.world.log, times := t.world.times)
    decreases |entries|
  {
    if entries == [] {
      t := s;
    } else {
      var u := Extend(cfg, s, entries[0]);
      t := ExtendAll(cfg, u, entries[1..]);
      assert s.world.log + entries == (s.world.log + [entries[0]]) + entries[1..];
    }
  }

  /** The node in charge, with an open fence and a proof from the start of the run, binds at once. */
  ghost predicate Ripe(s: State, id: NodeId, index: nat) {
    && Shaped(s)
    && id in s.nodes
    && s.world.now == 0
    && var n := s.nodes[id];
       && n == Fresh(n.context).(applied := n.applied)
       && index < n.applied
       && s.world.log[index].Progress?
       && s.world.log[index].node == id
       && s.world.log[index].started == 0
       && s.world.log[index].healthy == Some(true)
       && var v := ViewAt(s.world.log, n.applied);
          && v.assignment.Some?
          && v.assignment.value.generation == v.generation
          && v.assignment.value.holder == id
          && v.assignment.value.activationTick <= v.frontier
          && v.assignment.value.previousHolderReleased
          && (v.assignment.value.previousHolder.None? ==> v.generation == 1)
  }

  function Proven(s: State, id: NodeId, index: nat): Node
    requires Ripe(s, id, index)
  {
    var n := s.nodes[id];
    n.(proof := F.Proof(Some(0), 1, 0, true, Some(ProofOf(s.world, n, index, 0, 100))))
  }

  /** A lease that can run at all. */
  predicate Leases(cfg: Config) {
    0 < cfg.lifetime <= LAST_INSTANT
  }

  lemma Prove(cfg: Config, s: State, id: NodeId, index: nat) returns (t: State)
    requires Leases(cfg) && Reachable(cfg, s) && Ripe(s, id, index)
    ensures Reachable(cfg, t) && Shaped(t) && t == s.(nodes := s.nodes[id := Proven(s, id, index)])
  {
    hide ViewAt;
    var step := Accept(id, index, 0, 100);
    Next(cfg, s, step);
    t := Do(cfg, s, step);
  }

  lemma BindAtOnce(cfg: Config, s: State, id: NodeId, index: nat) returns (t: State)
    requires Leases(cfg) && Reachable(cfg, s) && Ripe(s, id, index)
    ensures Reachable(cfg, t) && Shaped(t)
    ensures t.world.now == 0 && t.world.log == s.world.log
    ensures t.nodes.Keys == s.nodes.Keys
    ensures forall other :: other in s.nodes && other != id ==> t.nodes[other] == s.nodes[other]
    ensures var g := ViewAt(s.world.log, s.nodes[id].applied).generation;
            t.nodes[id].bound == Some(g) && MayHold(t.world, id, t.nodes[id], cfg, g)
  {
    hide ViewAt, Reachable;
    t := Captured(cfg, s, id, index);
    Next(cfg, t, Start(id));
    t := Do(cfg, t, Start(id));
    Next(cfg, t, Complete(id));
    t := Do(cfg, t, Complete(id));
  }

  lemma Captured(cfg: Config, s: State, id: NodeId, index: nat) returns (t: State)
    requires Leases(cfg) && Reachable(cfg, s) && Ripe(s, id, index)
    ensures Reachable(cfg, t) && Shaped(t) && t.world == s.world
    ensures id in t.nodes && t.nodes == s.nodes[id := t.nodes[id]] && t.nodes[id].applied == s.nodes[id].applied
    ensures MayAct(t.world, t.nodes[id], cfg)
    ensures var n := t.nodes[id];
            && n.proof == Proven(s, id, index).proof
            && n.authority
            && n.effect.value.permit == F.Acquire(n.proof, id, true, cfg.lifetime, At(t.world, n)).value
            && n.effect.value.intent
               == BindPolicy.Capture(id, ALL_OPEN, SightOf(ViewOf(t.world, n)), cfg.stale, None)
            && n.effect.value.intent.bindPolicy
  {
    hide ViewAt, Reachable;
    t := Prove(cfg, s, id, index);
    assert F.Acquire(t.nodes[id].proof, id, true, cfg.lifetime, At(t.world, t.nodes[id])).Some?;
    Next(cfg, t, Capture(id));
    t := Do(cfg, t, Capture(id));
  }

  function Contexts(): map<NodeId, AdmissionContext> {
    map id | id in {1, 2, 3} :: AdmissionContext(ReplicaId(id, []), Genesis([], 0, {}))
  }
}
