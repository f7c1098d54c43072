/**
 Handoff of one VIP across the cluster.

 Nodes share one committed log, each has applied a prefix of it, and all clocks run at one rate. A
 node binds under a permit to acquire and its own applied view, keeps a completed binding under a
 retained permit, and acknowledges a release only after its address is gone. The steps interleave
 freely; placement, message delay and the loss of authority are unconstrained.
 */
module Handoff {
  import opened Prelude
  import opened Identity
  import opened BindPolicy
  import opened Assignments
  import F = Freshness

  /**
   `lifetime` is the proof lifetime and `allowance` the reconcile tick plus the cleanup budget of
   the configured VIPs. With `promptCleanup` a node is assumed to have removed its address within
   the allowance after the last instant it was entitled to it.
   */
  datatype Config = Config(lifetime: Time, allowance: Time, stale: nat, promptCleanup: bool)

  /** A bind in flight. */
  datatype Effect = Effect(intent: Intent, permit: F.Permit)

  /** A completed binding. */
  datatype Witness = Witness(intent: Intent, stamp: F.Stamp)

  /**
   `bound` is the generation for which the address may be on the interface. `liveAt` and `liveProof`
   record the last instant of entitlement and the log index of the proof it rested on.
   */
  datatype Node = Node(
    context: AdmissionContext, authority: bool, applied: nat, proof: F.Proof, wait: Option<Wait>,
    activated: Option<nat>, effect: Option<Effect>, completed: Option<Witness>, bound: Option<nat>,
    liveAt: Time, liveProof: nat)

  /** A release submitted by `node` for the assignment it read at prefix `read`. */
  datatype Submission = Submission(node: NodeId, generation: nat, read: nat)

  /** `everBound` maps each generation that was ever bound to a prefix its holder bound it under. */
  datatype World = World(
    now: Time, log: seq<Entry>, times: seq<Time>, submitted: set<Submission>, everBound: map<nat, nat>)

  datatype State = State(world: World, nodes: map<NodeId, Node>)

  datatype Step =
    | Tick
    | Append(entry: Entry)
    | Apply(node: NodeId)
    | Accept(node: NodeId, index: nat, leader: nat, acceptedDeadline: Time)
    | Outage(node: NodeId)
    | Drop(node: NodeId)
    | Revoke(node: NodeId)
    | Capture(node: NodeId)
    | Start(node: NodeId)
    | Complete(node: NodeId)
    | Forget(node: NodeId)
    | Unbind(node: NodeId)
    | Submit(node: NodeId, read: nat)

  // ---- Reading a node ----

  function At(w: World, n: Node): F.Instant {
    F.Instant(w.now, context => n.authority && context == n.context)
  }

  function ViewOf(w: World, n: Node): View
    requires n.applied <= |w.log|
  {
    ViewAt(w.log, n.applied)
  }

  predicate Valid(i: Intent, w: World, n: Node, cfg: Config)
    requires n.applied <= |w.log|
  {
    RemainsValid(i, SightOf(ViewOf(w, n)), cfg.stale, ALL_OPEN)
  }

  /** The bind in flight may still act. */
  predicate MayAct(w: World, n: Node, cfg: Config)
    requires n.applied <= |w.log|
  {
    n.effect.Some? && F.Check(n.effect.value.permit, n.proof, At(w, n)) && Valid(n.effect.value.intent, w, n, cfg)
  }

  /** The completed binding may still be kept. */
  predicate MayKeep(w: World, id: NodeId, n: Node, cfg: Config)
    requires n.applied <= |w.log|
  {
    && n.completed.Some?
    && F.Retain(n.proof, id, n.completed.value.stamp, cfg.lifetime, At(w, n)).Some?
    && Valid(n.completed.value.intent, w, n, cfg)
  }

  /** The node may put or keep the address on its interface for the generation its own view shows. */
  predicate MayHold(w: World, id: NodeId, n: Node, cfg: Config, generation: nat)
    requires n.applied <= |w.log|
  {
    ViewOf(w, n).generation == generation && (MayAct(w, n, cfg) || MayKeep(w, id, n, cfg))
  }

  function Basis(w: World, id: NodeId, n: Node, cfg: Config): nat
    requires n.applied <= |w.log| && (MayAct(w, n, cfg) || MayKeep(w, id, n, cfg))
  {
    if MayKeep(w, id, n, cfg) then n.proof.progress.value.logId.index else n.effect.value.permit.progress.logId.index
  }

  /** Time passes: a node that is entitled right now gets that recorded. */
  function Witnessed(w: World, id: NodeId, n: Node, cfg: Config): Node
    requires n.applied <= |w.log|
  {
    if n.bound.Some? && MayHold(w, id, n, cfg, n.bound.value)
    then n.(liveAt := w.now, liveProof := Basis(w, id, n, cfg))
    else n
  }

  function ProofOf(w: World, n: Node, index: nat, leader: nat, acceptedDeadline: Time): F.Progress
    requires index < |w.log| && w.log[index].Progress?
  {
    F.Progress(w.log[index].started, n.context, LogId(leader, index), w.log[index].healthy, acceptedDeadline)
  }

  // ---- Steps ----

  predicate Shaped(s: State) {
    forall id :: id in s.nodes ==> s.nodes[id].applied <= |s.world.log|
  }

  predicate Enabled(cfg: Config, s: State, step: Step)
    requires Shaped(s)
  {
    var w := s.world;
    match step
    case Tick =>
      cfg.promptCleanup ==>
        forall id :: id in s.nodes && s.nodes[id].bound.Some? ==>
                       w.now + 1 <= Witnessed(w, id, s.nodes[id], cfg).liveAt + cfg.allowance
    case Append(entry) =>
      && |w.log| < U64_MAX
      && (entry.Progress? ==> entry.started <= w.now)
      && (entry.Release? ==> exists t :: t in w.submitted && t.node == entry.node && t.generation == entry.generation)
    case Apply(id) => id in s.nodes && s.nodes[id].applied < |w.log|
    case Accept(id, index, _, _) =>
      id in s.nodes && index < s.nodes[id].applied && w.log[index].Progress? && w.log[index].node == id
    case Outage(id) => id in s.nodes
    case Drop(id) => id in s.nodes
    case Revoke(id) => id in s.nodes
    case Capture(id) =>
      id in s.nodes && F.Acquire(s.nodes[id].proof, id, true, cfg.lifetime, At(w, s.nodes[id])).Some?
    case Start(id) => id in s.nodes && MayAct(w, s.nodes[id], cfg)
    case Complete(id) =>
      && id in s.nodes
      && MayAct(w, s.nodes[id], cfg)
      && s.nodes[id].bound == Some(ViewOf(w, s.nodes[id]).generation)
    case Forget(id) => id in s.nodes
    case Unbind(id) => id in s.nodes
    case Submit(id, read) =>
      && id in s.nodes
      && read <= s.nodes[id].applied
      && s.nodes[id].bound.None?
      && s.nodes[id].effect.None?
      && ViewAt(w.log, read).assignment.Some?
      && ViewAt(w.log, read).assignment.value.previousHolder == Some(id)
  }

  function CaptureOn(cfg: Config, w: World, id: NodeId, n: Node): Node
    requires n.applied <= |w.log|
    requires F.Acquire(n.proof, id, true, cfg.lifetime, At(w, n)).Some?
  {
    var sight := SightOf(ViewOf(w, n));
    var (wait, ready) := Await(n.wait, id, sight, cfg.stale, n.activated, cfg.lifetime + cfg.allowance, w.now);
    var intent := BindPolicy.Capture(id, ALL_OPEN, sight, cfg.stale, n.activated);
    var permit := F.Acquire(n.proof, id, true, cfg.lifetime, At(w, n)).value;
    n.(wait := wait, effect := if intent.bindPolicy && ready then Some(Effect(intent, permit)) else None)
  }

  function NodeStep(cfg: Config, s: State, id: NodeId, step: Step): Node
    requires Shaped(s) && Enabled(cfg, s, step)
    requires step.Apply? || step.Accept? || step.Outage? || step.Drop? || step.Revoke? || step.Capture? || step.Start?
          || step.Complete? || step.Forget? || step.Unbind?
    requires id == step.node
  {
    var w := s.world;
    var n := s.nodes[id];
    match step
    case Apply(_) => n.(applied := n.applied + 1)
    case Accept(_, index, leader, deadline) =>
      n.(proof := F.AfterRecord(n.proof, ProofOf(w, n, index, leader, deadline), cfg.lifetime, At(w, n)))
    case Outage(_) => n.(proof := F.AfterOutage(n.proof))
    case Drop(_) => n.(proof := F.AfterDrop(n.proof))
    case Revoke(_) => n.(authority := false)
    case Capture(_) => CaptureOn(cfg, w, id, n)
    case Start(_) =>
      n.(
        bound := Some(ViewOf(w, n).generation),
        liveAt := w.now,
        liveProof := n.effect.value.permit.progress.logId.index)
    case Complete(_) =>
      n.(
      completed := Some(Witness(Activated(n.effect.value.intent), n.effect.value.permit.stamp)),
      activated := n.bound,
      effect := None)
    case Forget(_) => n.(completed := None, activated := None, effect := None)
    case Unbind(_) => n.(bound := None, completed := None, activated := None, effect := None)
  }

  function FirstBound(w: World, generation: nat, applied: nat): map<nat, nat> {
    if generation in w.everBound then w.everBound else w.everBound[generation := applied]
  }

  function Do(cfg: Config, s: State, step: Step): (t: State)
    requires Shaped(s) && Enabled(cfg, s, step)
  {
    var w := s.world;
    match step
    case Tick =>
      State(w.(now := w.now + 1), map id | id in s.nodes :: Witnessed(w, id, s.nodes[id], cfg))
    case Append(entry) =>
      s.(world := w.(log := w.log + [entry], times := w.times + [w.now]))
    case Submit(id, read) =>
      var submission := Submission(id, ViewAt(w.log, read).assignment.value.generation, read);
      s.(world := w.(submitted := w.submitted + {submission}))
    case Start(id) =>
      State(
        w.(everBound := FirstBound(w, ViewOf(w, s.nodes[id]).generation, s.nodes[id].applied)),
        s.nodes[id := NodeStep(cfg, s, id, step)])
    case _ =>
      s.(nodes := s.nodes[step.node := NodeStep(cfg, s, step.node, step)])
  }

  function Fresh(context: AdmissionContext): Node {
    Node(context, true, 0, F.NO_PROOF, None, None, None, None, None, 0, 0)
  }

  /** Nothing is committed, nothing is bound. */
  function Init(now: Time, contexts: map<NodeId, AdmissionContext>): State {
    State(World(now, [], [], {}, map[]), map id | id in contexts :: Fresh(contexts[id]))
  }

  predicate Runs(cfg: Config, s: State, steps: seq<Step>, t: State)
    decreases |steps|
  {
    Shaped(s) &&
    if steps == [] then s == t
    else Enabled(cfg, s, steps[0]) && Runs(cfg, Do(cfg, s, steps[0]), steps[1..], t)
  }

  ghost predicate Reachable(cfg: Config, s: State) {
    exists now: Time, contexts: map<NodeId, AdmissionContext>, steps: seq<Step> ::
      Runs(cfg, Init(now, contexts), steps, s)
  }

  // ---- The invariant ----

  function GenerationAt(w: World, n: nat): nat
    requires n <= |w.log|
  {
    ViewAt(w.log, n).generation
  }

  /** Every proof logged before generation `h` existed has outlived its lease and the allowance. */
  ghost predicate Outlived(cfg: Config, w: World, h: nat) {
    && h <= GenerationAt(w, |w.log|)
    && forall i :: 0 <= i < |w.log| && w.log[i].Progress? && GenerationAt(w, i + 1) < h ==>
                     w.log[i].started + cfg.lifetime + cfg.allowance <= w.now
  }

  /** Generation `h` may be bound: its predecessor released, or its predecessor's proofs are dead. */
  ghost predicate Cleared(cfg: Config, w: World, h: nat) {
    (exists t :: t in w.submitted && t.generation == h) || Outlived(cfg, w, h)
  }

  ghost predicate Awaited(w: World, wait: Wait) {
    && wait.since <= w.now
    && wait.generation <= GenerationAt(w, |w.log|)
    && |w.times| == |w.log|
    && forall i :: 0 <= i < |w.log| && GenerationAt(w, i + 1) < wait.generation ==> w.times[i] <= wait.since
  }

  ghost predicate Logged(w: World, id: NodeId, applied: nat, q: F.Progress) {
    && q.logId.index < applied <= |w.log|
    && w.log[q.logId.index].Progress?
    && w.log[q.logId.index].node == id
    && w.log[q.logId.index].started == q.started
  }

  ghost predicate Holder(w: World, n: nat, generation: nat, id: NodeId) {
    n <= |w.log| && GenerationAt(w, n) == generation && ViewAt(w.log, n).lastHolder == Some(id)
  }

  ghost predicate WorldOk(cfg: Config, w: World) {
    && |w.times| == |w.log| <= U64_MAX
    && (forall i :: 0 <= i < |w.log| ==> w.times[i] <= w.now && (w.log[i].Progress? ==> w.log[i].started <= w.times[i]))
    && (forall i :: 0 <= i < |w.log| && w.log[i].Release? ==>
                      exists t :: t in w.submitted && t.node == w.log[i].node && t.generation == w.log[i].generation)
    && (forall t :: t in w.submitted ==>
                      && t.read <= |w.log|
                      && ViewAt(w.log, t.read).assignment.Some?
                      && ViewAt(w.log, t.read).assignment.value.generation == t.generation
                      && ViewAt(w.log, t.read).assignment.value.previousHolder == Some(t.node))
    && (forall b :: b in w.everBound ==> BoundFairly(cfg, w, b))
  }

  /** A generation that was bound was assigned, and cleared if it had a predecessor. */
  ghost predicate BoundFairly(cfg: Config, w: World, b: nat)
    requires b in w.everBound
  {
    && w.everBound[b] <= |w.log|
    && ViewAt(w.log, w.everBound[b]).assignment.Some?
    && ViewAt(w.log, w.everBound[b]).assignment.value.generation == b
    && (b >= 2 ==> Cleared(cfg, w, b))
  }

  ghost predicate EffectOk(cfg: Config, w: World, id: NodeId, n: Node, e: Effect)
    requires n.applied <= |w.log|
  {
    && Logged(w, id, n.applied, e.permit.progress)
    && e.permit.deadline <= e.permit.progress.started + cfg.lifetime
    && e.intent.node == id
    && e.intent.bindPolicy
    && e.intent.assignment.Some?
    && e.intent.assignment.value.holder == id
    && e.intent.assignment.value.generation <= GenerationAt(w, n.applied)
    && (e.intent.assignment.value.generation >= 2 ==> Cleared(cfg, w, e.intent.assignment.value.generation))
  }

  ghost predicate BoundOk(cfg: Config, w: World, id: NodeId, n: Node, b: nat)
    requires n.applied <= |w.log|
  {
    && b in w.everBound
    && Holder(w, w.everBound[b], b, id)
    && b <= GenerationAt(w, n.applied)
    && n.liveProof < |w.log|
    && w.log[n.liveProof].Progress?
    && GenerationAt(w, n.liveProof + 1) <= b
    && n.liveAt < w.log[n.liveProof].started + cfg.lifetime
  }

  ghost predicate WitnessOk(w: World, id: NodeId, x: Witness) {
    && x.intent.node == id
    && x.intent.assignment.Some?
    && x.intent.assignment.value.holder == id
    && x.intent.assignment.value.generation in w.everBound
  }

  ghost predicate ReleasesKept(w: World, id: NodeId, n: Node) {
    forall t :: t in w.submitted && t.node == id ==>
                  && t.read <= n.applied
                  && (n.bound.Some? ==> t.generation <= n.bound.value)
                  && (n.effect.Some? && n.effect.value.intent.assignment.Some? ==>
                        t.generation <= n.effect.value.intent.assignment.value.generation)
  }

  ghost predicate NodeOk(cfg: Config, w: World, id: NodeId, n: Node) {
    && n.applied <= |w.log|
    && F.Coherent(n.proof)
    && (n.proof.progress.Some? ==> Logged(w, id, n.applied, n.proof.progress.value))
    && (n.wait.Some? ==> Awaited(w, n.wait.value))
    && (n.effect.Some? ==> EffectOk(cfg, w, id, n, n.effect.value))
    && (n.bound.Some? ==> BoundOk(cfg, w, id, n, n.bound.value))
    && (n.activated.Some? ==> n.activated.value in w.everBound)
    && (n.completed.Some? ==> WitnessOk(w, id, n.completed.value))
    && ReleasesKept(w, id, n)
  }

  predicate OnTime(cfg: Config, w: World, n: Node) {
    cfg.promptCleanup && n.bound.Some? ==> w.now <= n.liveAt + cfg.allowance
  }

  ghost predicate Inv(cfg: Config, s: State) {
    && WorldOk(cfg, s.world)
    && (forall id :: id in s.nodes ==> NodeOk(cfg, s.world, id, s.nodes[id]) && OnTime(cfg, s.world, s.nodes[id]))
  }

  // ---- The world only grows ----

  ghost predicate Grows(w: World, v: World) {
    && w.now <= v.now
    && (v.log == w.log || (|w.log| < U64_MAX && exists e :: v.log == w.log + [e]))
    && w.submitted <= v.submitted
    && w.everBound.Keys <= v.everBound.Keys
    && |v.times| == |v.log|
    && |w.times| == |w.log|
    && (forall i :: 0 <= i < |w.times| ==> v.times[i] == w.times[i])
  }

  lemma ViewsStay(w: World, v: World, n: nat)
    requires Grows(w, v) && n <= |w.log|
    ensures ViewAt(v.log, n) == ViewAt(w.log, n)
  {
    if v.log != w.log {
      var e :| v.log == w.log + [e];
      ViewIsStable(w.log, e, n);
    }
  }

  lemma EntriesStay(w: World, v: World, i: nat)
    requires Grows(w, v) && i < |w.log|
    ensures i < |v.log| && v.log[i] == w.log[i] && GenerationAt(v, i + 1) == GenerationAt(w, i + 1)
  {
    ViewsStay(w, v, i + 1);
  }

  /** An entry committed after generation `h` appeared is logged at `h` or later. */
  lemma LateEntries(w: World, v: World, h: nat, i: nat)
    requires Grows(w, v) && |v.log| <= U64_MAX && h <= GenerationAt(w, |w.log|) && |w.log| <= i < |v.log|
    ensures h <= GenerationAt(v, i + 1)
  {
    ViewsStay(w, v, |w.log|);
    GenerationsGrow(v.log, |w.log|, i + 1);
  }

  lemma OutlivedStays(cfg: Config, w: World, v: World, h: nat)
    requires Grows(w, v) && |v.log| <= U64_MAX && Outlived(cfg, w, h)
    ensures Outlived(cfg, v, h)
  {
    hide ViewAt;
    ViewsStay(w, v, |w.log|);
    GenerationsGrow(v.log, |w.log|, |v.log|);
    forall i | 0 <= i < |v.log| && v.log[i].Progress? && GenerationAt(v, i + 1) < h
      ensures v.log[i].started + cfg.lifetime + cfg.allowance <= v.now
    {
      if i < |w.log| { EntriesStay(w, v, i); } else { LateEntries(w, v, h, i); }
    }
  }

  lemma ClearedStays(cfg: Config, w: World, v: World, h: nat)
    requires Grows(w, v) && |v.log| <= U64_MAX && Cleared(cfg, w, h)
    ensures Cleared(cfg, v, h)
  {
    hide ViewAt;
    if Outlived(cfg, w, h) {
      OutlivedStays(cfg, w, v, h);
    }
  }

  lemma AwaitedStays(w: World, v: World, wait: Wait)
    requires Grows(w, v) && |v.log| <= U64_MAX && Awaited(w, wait)
    ensures Awaited(v, wait)
  {
    hide ViewAt;
    ViewsStay(w, v, |w.log|);
    GenerationsGrow(v.log, |w.log|, |v.log|);
    forall i | 0 <= i < |v.log| && GenerationAt(v, i + 1) < wait.generation ensures v.times[i] <= wait.since {
      if i < |w.log| { EntriesStay(w, v, i); } else { LateEntries(w, v, wait.generation, i); }
    }
  }

  /** What a node has established survives anything the rest of the world does. */
  lemma NodeStays(cfg: Config, w: World, v: World, id: NodeId, n: Node)
    requires Grows(w, v) && |v.log| <= U64_MAX && NodeOk(cfg, w, id, n)
    requires forall b :: b in w.everBound ==> v.everBound[b] == w.everBound[b]
    requires forall t :: t in v.submitted && t.node == id ==> t in w.submitted
    ensures NodeOk(cfg, v, id, n)
  {
    hide ViewAt;
    ViewsStay(w, v, n.applied);
    if n.proof.progress.Some? { EntriesStay(w, v, n.proof.progress.value.logId.index); }
    if n.wait.Some? { AwaitedStays(w, v, n.wait.value); }
    if n.effect.Some? {
      var e := n.effect.value;
      EntriesStay(w, v, e.permit.progress.logId.index);
      if e.intent.assignment.value.generation >= 2 { ClearedStays(cfg, w, v, e.intent.assignment.value.generation); }
    }
    if n.bound.Some? {
      EntriesStay(w, v, n.liveProof);
      ViewsStay(w, v, w.everBound[n.bound.value]);
    }
  }

  // ---- Each step keeps the invariant ----

  lemma InitOk(cfg: Config, now: Time, contexts: map<NodeId, AdmissionContext>)
    ensures Shaped(Init(now, contexts)) && Inv(cfg, Init(now, contexts))
  {
  }

  lemma InvShaped(cfg: Config, s: State)
    requires Inv(cfg, s)
    ensures Shaped(s)
  {
    forall id | id in s.nodes ensures s.nodes[id].applied <= |s.world.log| {
      assert NodeOk(cfg, s.world, id, s.nodes[id]);
    }
  }

  lemma AppendKeeps(cfg: Config, s: State, entry: Entry)
    requires Inv(cfg, s) && Shaped(s) && Enabled(cfg, s, Append(entry))
    ensures Inv(cfg, Do(cfg, s, Append(entry)))
  {
    hide ViewAt;
    var w := s.world;
    var v := Do(cfg, s, Append(entry)).world;
    assert v.log == w.log + [entry];
    assert Grows(w, v);
    forall t | t in v.submitted ensures ViewAt(v.log, t.read) == ViewAt(w.log, t.read) {
      ViewsStay(w, v, t.read);
    }
    forall b | b in v.everBound ensures BoundFairly(cfg, v, b) {
      assert BoundFairly(cfg, w, b);
      ViewsStay(w, v, w.everBound[b]);
      if b >= 2 { ClearedStays(cfg, w, v, b); }
    }
    forall id | id in s.nodes ensures NodeOk(cfg, v, id, s.nodes[id]) {
      NodeStays(cfg, w, v, id, s.nodes[id]);
    }
  }

  lemma SubmitKeeps(cfg: Config, s: State, id: NodeId, read: nat)
    requires Inv(cfg, s) && Shaped(s) && Enabled(cfg, s, Submit(id, read))
    ensures Inv(cfg, Do(cfg, s, Submit(id, read)))
  {
    hide ViewAt;
    var w := s.world;
    var v := Do(cfg, s, Submit(id, read)).world;
    assert Grows(w, v);
    forall b | b in v.everBound ensures BoundFairly(cfg, v, b) {
      assert BoundFairly(cfg, w, b);
      if b >= 2 { ClearedStays(cfg, w, v, b); }
    }
    forall other | other in s.nodes ensures NodeOk(cfg, v, other, s.nodes[other]) {
      if other != id {
        NodeStays(cfg, w, v, other, s.nodes[other]);
      } else {
        var n := s.nodes[id];
        NodeStays(cfg, w, w.(everBound := v.everBound), id, n);
        if n.wait.Some? { AwaitedStays(w, v, n.wait.value); }
      }
    }
  }

  lemma OneNodeKeeps(cfg: Config, s: State, id: NodeId, n: Node)
    requires Inv(cfg, s) && NodeOk(cfg, s.world, id, n) && OnTime(cfg, s.world, n)
    ensures Inv(cfg, s.(nodes := s.nodes[id := n]))
  {
    hide ViewAt;
  }

  lemma ApplyKeeps(cfg: Config, w: World, id: NodeId, n: Node)
    requires WorldOk(cfg, w) && NodeOk(cfg, w, id, n) && n.applied < |w.log|
    ensures NodeOk(cfg, w, id, n.(applied := n.applied + 1))
  {
    hide ViewAt;
    GenerationsGrow(w.log, n.applied, n.applied + 1);
  }

  lemma AcceptKeeps(cfg: Config, w: World, id: NodeId, n: Node, index: nat, leader: nat, deadline: Time)
    requires WorldOk(cfg, w) && NodeOk(cfg, w, id, n)
    requires index < n.applied && w.log[index].Progress? && w.log[index].node == id
    ensures NodeOk(cfg, w, id,
                   n.(proof := F.AfterRecord(n.proof, ProofOf(w, n, index, leader, deadline), cfg.lifetime, At(w, n))))
  {
    hide ViewAt;
    F.ApplyCoherent(n.proof, cfg.lifetime, F.Event(At(w, n), F.Record(ProofOf(w, n, index, leader, deadline))));
  }

  /** A node's own reading of the log is sane and at least as new as anything it submitted. */
  lemma OwnView(cfg: Config, w: World, id: NodeId, n: Node)
    requires WorldOk(cfg, w) && NodeOk(cfg, w, id, n)
    ensures Sane(ViewOf(w, n), n.applied)
    ensures forall t :: t in w.submitted && t.node == id ==> t.generation <= GenerationAt(w, n.applied)
  {
    ViewIsSane(w.log, n.applied);
    forall t | t in w.submitted && t.node == id ensures t.generation <= GenerationAt(w, n.applied) {
      ViewIsSane(w.log, t.read);
      GenerationsGrow(w.log, t.read, n.applied);
    }
  }

  /** A valid intent names the generation the node's view is at. */
  lemma ValidIntent(cfg: Config, w: World, id: NodeId, n: Node, i: Intent)
    requires WorldOk(cfg, w) && NodeOk(cfg, w, id, n) && Valid(i, w, n, cfg)
    requires i.assignment.Some?
    ensures ViewOf(w, n).assignment.Some?
    ensures i.assignment.value.generation == ViewOf(w, n).generation
    ensures ViewOf(w, n).lastHolder == Some(i.assignment.value.holder)
  {
    OwnView(cfg, w, id, n);
  }

  /** The policy together with the takeover wait admits only cleared generations. */
  lemma ReadyMeansCleared(cfg: Config, w: World, id: NodeId, n: Node)
    requires WorldOk(cfg, w) && NodeOk(cfg, w, id, n)
    ensures var sight := SightOf(ViewOf(w, n));
            var (wait, ready) := Await(n.wait, id, sight, cfg.stale, n.activated, cfg.lifetime + cfg.allowance, w.now);
            && (wait.Some? ==> Awaited(w, wait.value))
            && (ready && sight.assignment.value.generation >= 2 ==> Cleared(cfg, w, sight.assignment.value.generation))
  {
    hide ViewAt;
    var sight := SightOf(ViewOf(w, n));
    var (wait, ready) := Await(n.wait, id, sight, cfg.stale, n.activated, cfg.lifetime + cfg.allowance, w.now);
    OwnView(cfg, w, id, n);
    GenerationsGrow(w.log, n.applied, |w.log|);
    if ready && sight.assignment.value.generation >= 2 {
      var a := sight.assignment.value;
      if n.activated == Some(a.generation) {
        assert BoundFairly(cfg, w, a.generation);
      } else if a.previousHolderReleased {
        ReleaseIsLogged(w.log, n.applied);
        var r :| 0 <= r < n.applied && w.log[r] == Release(a.previousHolder.value, a.generation);
      } else {
        assert Outlived(cfg, w, a.generation);
      }
    }
  }

  lemma CaptureKeeps(cfg: Config, w: World, id: NodeId, n: Node)
    requires WorldOk(cfg, w) && NodeOk(cfg, w, id, n)
    requires F.Acquire(n.proof, id, true, cfg.lifetime, At(w, n)).Some?
    ensures NodeOk(cfg, w, id, CaptureOn(cfg, w, id, n))
  {
    hide ViewAt;
    ReadyMeansCleared(cfg, w, id, n);
    OwnView(cfg, w, id, n);
  }

  /** Entitlement rests on a proof that is logged before the generation was taken over and still inside its lifetime. */
  lemma HoldingNeedsProof(cfg: Config, w: World, id: NodeId, n: Node, generation: nat)
    requires WorldOk(cfg, w) && NodeOk(cfg, w, id, n) && MayHold(w, id, n, cfg, generation)
    ensures var k := Basis(w, id, n, cfg);
            && k < n.applied
            && w.log[k].Progress?
            && GenerationAt(w, k + 1) <= generation
            && w.now < w.log[k].started + cfg.lifetime
    ensures Holder(w, n.applied, generation, id)
    ensures generation >= 2 ==> Cleared(cfg, w, generation)
  {
    hide ViewAt;
    var k := Basis(w, id, n, cfg);
    GenerationsGrow(w.log, k + 1, n.applied);
    if MayKeep(w, id, n, cfg) {
      ValidIntent(cfg, w, id, n, n.completed.value.intent);
      assert BoundFairly(cfg, w, generation);
    } else {
      ValidIntent(cfg, w, id, n, n.effect.value.intent);
    }
  }

  lemma StartKeeps(cfg: Config, s: State, id: NodeId)
    requires Inv(cfg, s) && Shaped(s) && Enabled(cfg, s, Start(id))
    ensures Inv(cfg, Do(cfg, s, Start(id)))
  {
    hide ViewAt;
    var w := s.world;
    var n := s.nodes[id];
    var t := Do(cfg, s, Start(id));
    var v := t.world;
    var g := ViewOf(w, n).generation;
    assert NodeOk(cfg, w, id, n);
    ValidIntent(cfg, w, id, n, n.effect.value.intent);
    OwnView(cfg, w, id, n);
    assert Grows(w, v);
    forall b | b in v.everBound ensures BoundFairly(cfg, v, b) {
      if b in w.everBound {
        assert BoundFairly(cfg, w, b);
        if b >= 2 { ClearedStays(cfg, w, v, b); }
      } else {
        if b >= 2 { ClearedStays(cfg, w, v, b); }
      }
    }
    forall other | other in s.nodes ensures NodeOk(cfg, v, other, s.nodes[other]) {
      NodeStays(cfg, w, v, other, s.nodes[other]);
    }
    StartedHolds(cfg, w, v, id, n, g);
    OneNodeKeeps(cfg, s.(world := v), id, t.nodes[id]);
  }

  lemma StartedHolds(cfg: Config, w: World, v: World, id: NodeId, n: Node, g: nat)
    requires WorldOk(cfg, w) && WorldOk(cfg, v) && NodeOk(cfg, w, id, n) && NodeOk(cfg, v, id, n)
    requires MayAct(w, n, cfg) && g == ViewOf(w, n).generation
    requires v == w.(everBound := FirstBound(w, g, n.applied))
    ensures NodeOk(cfg, v, id,
                   n.(bound := Some(g), liveAt := w.now, liveProof := n.effect.value.permit.progress.logId.index))
  {
    hide ViewAt;
    var k := n.effect.value.permit.progress.logId.index;
    ValidIntent(cfg, w, id, n, n.effect.value.intent);
    OwnView(cfg, w, id, n);
    GenerationsGrow(w.log, k + 1, n.applied);
    assert BoundFairly(cfg, v, g);
    ViewIsSane(v.log, v.everBound[g]);
    if v.everBound[g] <= n.applied {
      GenerationsGrow(v.log, v.everBound[g], n.applied);
    } else {
      GenerationsGrow(v.log, n.applied, v.everBound[g]);
    }
  }

  lemma CompleteKeeps(cfg: Config, s: State, id: NodeId)
    requires Inv(cfg, s) && Shaped(s) && Enabled(cfg, s, Complete(id))
    ensures NodeOk(cfg, s.world, id, NodeStep(cfg, s, id, Complete(id)))
  {
    hide ViewAt;
    var n := s.nodes[id];
    assert NodeOk(cfg, s.world, id, n);
    ValidIntent(cfg, s.world, id, n, n.effect.value.intent);
  }

  lemma WitnessedKeeps(cfg: Config, w: World, v: World, id: NodeId, n: Node)
    requires WorldOk(cfg, w) && NodeOk(cfg, w, id, n) && v == w.(now := w.now + 1)
    ensures NodeOk(cfg, v, id, Witnessed(w, id, n, cfg))
  {
    hide ViewAt;
    if n.bound.Some? && MayHold(w, id, n, cfg, n.bound.value) {
      HoldingNeedsProof(cfg, w, id, n, n.bound.value);
    }
    NodeStays(cfg, w, v, id, Witnessed(w, id, n, cfg));
  }

  lemma TickKeeps(cfg: Config, s: State)
    requires Inv(cfg, s) && Shaped(s) && Enabled(cfg, s, Tick)
    ensures Inv(cfg, Do(cfg, s, Tick))
  {
    hide ViewAt;
    var w := s.world;
    var t := Do(cfg, s, Tick);
    var v := t.world;
    assert WorldOk(cfg, v) by {
      assert Grows(w, v);
      forall b | b in v.everBound ensures BoundFairly(cfg, v, b) {
        assert BoundFairly(cfg, w, b);
        if b >= 2 { ClearedStays(cfg, w, v, b); }
      }
    }
    forall id | id in t.nodes ensures NodeOk(cfg, v, id, t.nodes[id]) && OnTime(cfg, v, t.nodes[id]) {
      WitnessedKeeps(cfg, w, v, id, s.nodes[id]);
      assert t.nodes[id].bound == s.nodes[id].bound;
    }
  }

  lemma QuietKeeps(cfg: Config, w: World, id: NodeId, n: Node, authority: bool, proof: F.Proof)
    requires NodeOk(cfg, w, id, n) && F.Coherent(proof) && proof.progress == n.proof.progress
    ensures NodeOk(cfg, w, id, n.(authority := authority, proof := proof))
    ensures NodeOk(cfg, w, id, n.(completed := None, activated := None, effect := None))
    ensures NodeOk(cfg, w, id, n.(bound := None, completed := None, activated := None, effect := None))
  {
    hide ViewAt;
  }

  /** Steps that touch one node and nothing else. */
  lemma LocalKeeps(cfg: Config, s: State, step: Step)
    requires Inv(cfg, s) && Shaped(s) && Enabled(cfg, s, step)
    requires step.Apply? || step.Accept? || step.Outage? || step.Drop? || step.Revoke? || step.Capture?
          || step.Complete? || step.Forget? || step.Unbind?
    ensures NodeOk(cfg, s.world, step.node, NodeStep(cfg, s, step.node, step))
    ensures OnTime(cfg, s.world, NodeStep(cfg, s, step.node, step))
  {
    hide NodeOk, WorldOk, ViewAt, F.AfterRecord, Await, RemainsValid;
    var id := step.node;
    var n := s.nodes[id];
    assert NodeOk(cfg, s.world, id, n) && OnTime(cfg, s.world, n);
    match step {
      case Apply(_) => ApplyKeeps(cfg, s.world, id, n);
      case Accept(_, index, leader, deadline) => AcceptKeeps(cfg, s.world, id, n, index, leader, deadline);
      case Capture(_) => CaptureKeeps(cfg, s.world, id, n);
      case Complete(_) => CompleteKeeps(cfg, s, id);
      case Outage(_) =>
        CoherentNode(cfg, s.world, id, n);
        QuietKeeps(cfg, s.world, id, n, n.authority, F.AfterOutage(n.proof));
      case Drop(_) =>
        CoherentNode(cfg, s.world, id, n);
        QuietKeeps(cfg, s.world, id, n, n.authority, F.AfterDrop(n.proof));
      case _ =>
        CoherentNode(cfg, s.world, id, n);
        QuietKeeps(cfg, s.world, id, n, false, n.proof);
    }
  }

  lemma CoherentNode(cfg: Config, w: World, id: NodeId, n: Node)
    requires NodeOk(cfg, w, id, n)
    ensures F.Coherent(n.proof) && F.Coherent(F.AfterOutage(n.proof)) && F.Coherent(F.AfterDrop(n.proof))
  {
  }

  lemma StepKeeps(cfg: Config, s: State, step: Step)
    requires Inv(cfg, s) && Shaped(s) && Enabled(cfg, s, step)
    ensures Inv(cfg, Do(cfg, s, step))
  {
    hide ViewAt, NodeOk, WorldOk, NodeStep, Witnessed;
    match step {
      case Tick => TickKeeps(cfg, s);
      case Append(entry) => AppendKeeps(cfg, s, entry);
      case Submit(id, read) => SubmitKeeps(cfg, s, id, read);
      case Start(id) => StartKeeps(cfg, s, id);
      case _ =>
        LocalKeeps(cfg, s, step);
        OneNodeKeeps(cfg, s, step.node, NodeStep(cfg, s, step.node, step));
    }
  }

  lemma {:induction false} RunKeeps(cfg: Config, s: State, steps: seq<Step>, t: State)
    requires Inv(cfg, s) && Runs(cfg, s, steps, t)
    ensures Inv(cfg, t)
    decreases |steps|
  {
    if steps != [] {
      StepKeeps(cfg, s, steps[0]);
      RunKeeps(cfg, Do(cfg, s, steps[0]), steps[1..], t);
    }
  }

  lemma ReachableOk(cfg: Config, s: State)
    requires Reachable(cfg, s)
    ensures Inv(cfg, s) && Shaped(s)
  {
    var now: Time, contexts: map<NodeId, AdmissionContext>, steps: seq<Step> :|
      Runs(cfg, Init(now, contexts), steps, s);
    InitOk(cfg, now, contexts);
    RunKeeps(cfg, Init(now, contexts), steps, s);
    InvShaped(cfg, s);
  }

  // ---- Exclusion ----

  /** Only the holder of generation `g` can have been asked to release for `g + 1`. */
  lemma ReleaserIsHolder(cfg: Config, w: World, g: nat, m: nat, id: NodeId, t: Submission)
    requires WorldOk(cfg, w) && Holder(w, m, g, id) && t in w.submitted && t.generation == g + 1
    ensures t.node == id
  {
    ViewIsSane(w.log, t.read);
    if m <= t.read {
      PreviousIsPredecessor(w.log, m, t.read);
    } else {
      GenerationsGrow(w.log, t.read, m);
    }
  }

  /** Once `g + 1` is cleared, the holder of `g` is out: it may not act, and its address is gone. */
  lemma ClearedExcludes(cfg: Config, w: World, id: NodeId, n: Node, g: nat)
    requires WorldOk(cfg, w) && NodeOk(cfg, w, id, n) && Cleared(cfg, w, g + 1)
    ensures !MayHold(w, id, n, cfg, g)
    ensures cfg.promptCleanup && OnTime(cfg, w, n) ==> n.bound != Some(g)
  {
    hide ViewAt;
    if MayHold(w, id, n, cfg, g) {
      HoldingNeedsProof(cfg, w, id, n, g);
      if !Outlived(cfg, w, g + 1) {
        var t :| t in w.submitted && t.generation == g + 1;
        ReleaserIsHolder(cfg, w, g, n.applied, id, t);
        OwnView(cfg, w, id, n);
      }
    }
    if n.bound == Some(g) && !Outlived(cfg, w, g + 1) {
      var t :| t in w.submitted && t.generation == g + 1;
      ReleaserIsHolder(cfg, w, g, w.everBound[g], id, t);
    }
  }

  lemma OneHolder(cfg: Config, w: World, g: nat, m: nat, a: NodeId, n: nat, b: NodeId)
    requires WorldOk(cfg, w) && Holder(w, m, g, a) && Holder(w, n, g, b)
    ensures a == b
  {
    if m <= n { GenerationsGrow(w.log, m, n); } else { GenerationsGrow(w.log, n, m); }
  }

  lemma PermissionsExclude(cfg: Config, w: World, a: NodeId, na: Node, g: nat, b: NodeId, nb: Node, h: nat)
    requires WorldOk(cfg, w) && NodeOk(cfg, w, a, na) && NodeOk(cfg, w, b, nb) && a != b && g <= h
    requires MayHold(w, a, na, cfg, g) && MayHold(w, b, nb, cfg, h)
    ensures 1 <= g && g + 2 <= h && !Cleared(cfg, w, g + 1)
  {
    hide ViewAt;
    assert Holder(w, na.applied, g, a) by { HoldingNeedsProof(cfg, w, a, na, g); }
    assert Holder(w, nb.applied, h, b) && (h >= 2 ==> Cleared(cfg, w, h)) by { HoldingNeedsProof(cfg, w, b, nb, h); }
    assert g >= 1 by { ViewIsSane(w.log, na.applied); }
    if g == h {
      OneHolder(cfg, w, g, na.applied, a, nb.applied, b);
    }
    if Cleared(cfg, w, g + 1) {
      ClearedExcludes(cfg, w, a, na, g);
    }
  }

  /**
   Two nodes may hold the VIP at once only across a skipped generation: the later one is at least
   two generations ahead, and the generation right after the earlier one was neither released by it
   nor outlived by its proofs, so nobody ever bound it. In particular a holder and its direct
   successor exclude each other.
   */
  lemma NoRivalPermission(cfg: Config, s: State, a: NodeId, g: nat, b: NodeId, h: nat)
    requires Reachable(cfg, s) && Shaped(s) && a in s.nodes && b in s.nodes && a != b && g <= h
    requires MayHold(s.world, a, s.nodes[a], cfg, g) && MayHold(s.world, b, s.nodes[b], cfg, h)
    ensures 1 <= g && g + 2 <= h && !Cleared(cfg, s.world, g + 1) && g + 1 !in s.world.everBound
  {
    ReachableOk(cfg, s);
    assert NodeOk(cfg, s.world, a, s.nodes[a]) && NodeOk(cfg, s.world, b, s.nodes[b]);
    assert g + 1 in s.world.everBound ==> BoundFairly(cfg, s.world, g + 1);
    PermissionsExclude(cfg, s.world, a, s.nodes[a], g, b, s.nodes[b], h);
  }

  /** The same for addresses on interfaces, when withdrawals finish within the allowance. */
  lemma NoRivalAddress(cfg: Config, s: State, a: NodeId, g: nat, b: NodeId, h: nat)
    requires Reachable(cfg, s) && cfg.promptCleanup && a in s.nodes && b in s.nodes && a != b && g <= h
    requires s.nodes[a].bound == Some(g) && s.nodes[b].bound == Some(h)
    ensures 1 <= g && g + 2 <= h && !Cleared(cfg, s.world, g + 1) && g + 1 !in s.world.everBound
  {
    hide ViewAt;
    ReachableOk(cfg, s);
    var w := s.world;
    assert NodeOk(cfg, w, a, s.nodes[a]) && NodeOk(cfg, w, b, s.nodes[b]);
    assert OnTime(cfg, w, s.nodes[a]);
    assert BoundFairly(cfg, w, g);
    ViewIsSane(w.log, w.everBound[g]);
    assert g + 1 in w.everBound ==> BoundFairly(cfg, w, g + 1);
    if Cleared(cfg, w, g + 1) {
      ClearedExcludes(cfg, w, a, s.nodes[a], g);
    }
  }
}
