/**
 The cluster guard: a node that keeps seeing one coherent foreign majority stops itself.
 */
module Guard {
  import opened Prelude
  import Sets

  // ---- The largest foreign group ----

  function Count<T(==)>(reports: seq<Option<T>>, id: T): nat {
    if reports == [] then 0
    else Count(reports[..|reports| - 1], id) + if reports[|reports| - 1] == Some(id) then 1 else 0
  }

  /** The size of the largest group of reports naming one identity other than `local`. */
  function Largest<T(==)>(local: T, reports: seq<Option<T>>): nat {
    if reports == [] then 0
    else
      var rest := Largest(local, reports[..|reports| - 1]);
      match reports[|reports| - 1]
      case None => rest
      case Some(id) => if id == local then rest else Max(rest, Count(reports, id))
  }

  predicate IsForeign<T(==)>(local: T, reports: seq<Option<T>>, id: T, size: nat) {
    id != local && Count(reports, id) == size
  }

  /** `size` is the maximum: no foreign identity has more reports, and one has that many. */
  ghost predicate IsLargest<T(!new)>(local: T, reports: seq<Option<T>>, size: nat) {
    && (forall id :: id != local ==> Count(reports, id) <= size)
    && (size == 0 || exists id :: IsForeign(local, reports, id, size))
  }

  lemma {:induction false} LargestIsMaximum<T(!new)>(local: T, reports: seq<Option<T>>)
    ensures IsLargest(local, reports, Largest(local, reports))
    decreases |reports|
  {
    if reports != [] {
      LargestIsMaximum(local, reports[..|reports| - 1]);
      var size := Largest(local, reports);
      if size != 0 {
        if size == Largest(local, reports[..|reports| - 1]) {
          var id :| IsForeign(local, reports[..|reports| - 1], id, size);
          assert IsForeign(local, reports, id, size);
        } else {
          assert IsForeign(local, reports, reports[|reports| - 1].value, size);
        }
      }
    }
  }

  lemma MaximumIsUnique<T(!new)>(local: T, reports: seq<Option<T>>, a: nat, b: nat)
    requires IsLargest(local, reports, a) && IsLargest(local, reports, b)
    ensures a == b
  {}

  /** The counts, kept in a map, and their maximum. */
  method LargestForeignGroup<T(==, !new)>(local: T, reports: seq<Option<T>>) returns (size: nat)
    ensures size == Largest(local, reports)
  {
    var groups: map<T, nat> := map[];
    for i := 0 to |reports|
      invariant forall id :: id in groups <==> id != local && Count(reports[..i], id) > 0
      invariant forall id :: id in groups ==> groups[id] == Count(reports[..i], id)
    {
      assert reports[..i + 1][..i] == reports[..i];
      match reports[i] {
        case None =>
        case Some(id) =>
          if id != local {
            groups := groups[id := 1 + if id in groups then groups[id] else 0];
          }
      }
    }
    assert reports[..|reports|] == reports;
    size := 0;
    var keys := groups.Keys;
    while keys != {}
      invariant keys <= groups.Keys
      invariant forall id :: id in groups && id !in keys ==> groups[id] <= size
      invariant size == 0 || exists id :: id in groups && groups[id] == size
      decreases keys
    {
      var id :| id in keys;
      size := Max(size, groups[id]);
      keys := keys - {id};
    }
    assert forall id :: id in groups && groups[id] == size ==> IsForeign(local, reports, id, size);
    LargestIsMaximum(local, reports);
    MaximumIsUnique(local, reports, size, Largest(local, reports));
  }

  lemma {:induction false} LargestAtMostReports<T>(local: T, reports: seq<Option<T>>, id: T)
    ensures Largest(local, reports) <= |reports| && Count(reports, id) <= |reports|
    decreases |reports|
  {
    if reports != [] {
      var last := reports[|reports| - 1];
      LargestAtMostReports(local, reports[..|reports| - 1], id);
      if last.Some? { LargestAtMostReports(local, reports[..|reports| - 1], last.value); }
    }
  }

  // ---- Strikes ----

  datatype GuardRound = GuardRound(localEpochKnown: bool, foreignConfig: nat, foreignEpoch: nat)

  datatype Verdict = Continue | FenceConfig | FenceEpoch

  datatype Strikes = Strikes(config: nat, epoch: nat)

  const GUARD_STRIKES_TO_RESET := 3

  function Majority(roster: nat): nat {
    roster / 2 + 1
  }

  function Struck(strikes: nat, hit: bool): nat {
    if hit then Min(strikes + 1, U32_MAX) else 0
  }

  predicate ConfigHit(r: GuardRound, majority: nat) {
    r.foreignConfig >= majority
  }

  /** The majority is never zero, so an unknown local epoch never counts. */
  predicate EpochHit(r: GuardRound, majority: nat) {
    (if r.localEpochKnown then r.foreignEpoch else 0) >= majority
  }

  /** One round: a configuration fence leaves the epoch strikes alone. */
  function Observed(s: Strikes, r: GuardRound, majority: nat, required: nat): (Strikes, Verdict) {
    var config := Struck(s.config, ConfigHit(r, majority));
    if config >= required then (s.(config := config), FenceConfig)
    else
      var epoch := Struck(s.epoch, EpochHit(r, majority));
      (Strikes(config, epoch), if epoch >= required then FenceEpoch else Continue)
  }

  class ConsecutiveMajority {
    var strikes: nat
    const required: nat

    constructor (required: nat)
      ensures strikes == 0 && this.required == required
    {
      strikes := 0;
      this.required := required;
    }

    method Observe(largest: nat, majority: nat) returns (held: bool)
      modifies this
      ensures strikes == Struck(old(strikes), largest >= majority) && held == (strikes >= required)
    {
      if largest >= majority {
        strikes := Min(strikes + 1, U32_MAX);
      } else {
        strikes := 0;
      }
      held := strikes >= required;
    }
  }

  class ClusterGuard {
    const majority: nat
    const config: ConsecutiveMajority
    const epoch: ConsecutiveMajority

    constructor (roster: nat, required: nat)
      ensures majority == Majority(roster) && config.required == epoch.required == required
      ensures config != epoch && fresh(config) && fresh(epoch) && config.strikes == epoch.strikes == 0
    {
      majority := roster / 2 + 1;
      config := new ConsecutiveMajority(required);
      epoch := new ConsecutiveMajority(required);
    }

    method Observe(r: GuardRound) returns (verdict: Verdict)
      requires config != epoch && config.required == epoch.required
      modifies config, epoch
      ensures (Strikes(config.strikes, epoch.strikes), verdict)
           == Observed(old(Strikes(config.strikes, epoch.strikes)), r, majority, config.required)
    {
      var held := config.Observe(r.foreignConfig, majority);
      if held {
        return FenceConfig;
      }
      var foreignEpoch := if r.localEpochKnown then r.foreignEpoch else 0;
      held := epoch.Observe(foreignEpoch, majority);
      return if held then FenceEpoch else Continue;
    }
  }

  function Ran(rounds: seq<GuardRound>, majority: nat, required: nat): Strikes
    decreases |rounds|
  {
    if rounds == [] then Strikes(0, 0)
    else Observed(Ran(rounds[..|rounds| - 1], majority, required), rounds[|rounds| - 1], majority, required).0
  }

  /** The verdict of the last round. */
  function Latest(rounds: seq<GuardRound>, majority: nat, required: nat): Verdict
    requires rounds != []
  {
    Observed(Ran(rounds[..|rounds| - 1], majority, required), rounds[|rounds| - 1], majority, required).1
  }

  /** No round but perhaps the last one fenced. */
  ghost predicate Unfenced(rounds: seq<GuardRound>, majority: nat, required: nat) {
    forall k :: 0 < k < |rounds| ==> Latest(rounds[..k], majority, required) == Continue
  }

  /** The last `n` rounds all hit. */
  ghost predicate LastHit(rounds: seq<GuardRound>, n: nat, hit: GuardRound -> bool) {
    n <= |rounds| && forall k :: |rounds| - n <= k < |rounds| ==> hit(rounds[k])
  }

  /** The length of the trailing stretch of hits. */
  function Streak(rounds: seq<GuardRound>, hit: GuardRound -> bool): nat
    decreases |rounds|
  {
    if rounds == [] || !hit(rounds[|rounds| - 1]) then 0 else Streak(rounds[..|rounds| - 1], hit) + 1
  }

  lemma {:induction false} StreakIsLastHits(rounds: seq<GuardRound>, n: nat, hit: GuardRound -> bool)
    ensures Streak(rounds, hit) >= n <==> LastHit(rounds, n, hit)
    decreases |rounds|
  {
    if rounds != [] && n > 0 {
      var front := rounds[..|rounds| - 1];
      StreakIsLastHits(front, n - 1, hit);
      if hit(rounds[|rounds| - 1]) && LastHit(front, n - 1, hit) {
        assert forall k :: 0 <= k < |front| ==> front[k] == rounds[k];
      }
      if LastHit(rounds, n, hit) {
        assert forall k :: 0 <= k < |front| ==> front[k] == rounds[k];
        assert hit(rounds[|rounds| - 1]);
      }
    }
  }

  lemma {:induction false} StrikesAreStreaks(rounds: seq<GuardRound>, majority: nat, required: nat)
    requires Unfenced(rounds, majority, required)
    requires rounds == [] || Latest(rounds, majority, required) != FenceConfig
    ensures var s := Ran(rounds, majority, required);
            && s.config == Min(Streak(rounds, r => ConfigHit(r, majority)), U32_MAX)
            && s.epoch == Min(Streak(rounds, r => EpochHit(r, majority)), U32_MAX)
    decreases |rounds|
  {
    if rounds != [] {
      var front := rounds[..|rounds| - 1];
      forall k | 0 < k < |front| ensures Latest(front[..k], majority, required) == Continue {
        assert front[..k] == rounds[..k];
      }
      assert front != [] ==> Latest(rounds[..|front|], majority, required) == Continue;
      StrikesAreStreaks(front, majority, required);
    }
  }

  /**
   Up to the first fence the verdict is exactly what the last `required` rounds showed: all a foreign
   configuration majority, else all a foreign epoch majority with a known local epoch; configuration
   wins when both hold.
   */
  lemma VerdictIsTheLastRounds(rounds: seq<GuardRound>, majority: nat, required: nat)
    requires rounds != [] && Unfenced(rounds, majority, required) && 1 <= required <= U32_MAX
    ensures var verdict := Latest(rounds, majority, required);
            && (verdict == FenceConfig <==> LastHit(rounds, required, r => ConfigHit(r, majority)))
            && (verdict == FenceEpoch <==>
                !LastHit(rounds, required, r => ConfigHit(r, majority))
                && LastHit(rounds, required, r => EpochHit(r, majority)))
  {
    var front := rounds[..|rounds| - 1];
    forall k | 0 < k < |front| ensures Latest(front[..k], majority, required) == Continue {
      assert front[..k] == rounds[..k];
    }
    assert front != [] ==> Latest(rounds[..|front|], majority, required) == Continue;
    StrikesAreStreaks(front, majority, required);
    StreakIsLastHits(rounds, required, r => ConfigHit(r, majority));
    StreakIsLastHits(rounds, required, r => EpochHit(r, majority));
  }

  // ---- A whole cluster with a static roster ----

  /** What one node sees in one round: the peers that answered and what they reported. */
  datatype Probing = Probing(
    peers: seq<nat>, configs: seq<Option<nat>>, localEpoch: Option<nat>, epochs: seq<Option<nat>>)

  ghost predicate Distinct(peers: seq<nat>) {
    forall j, k :: 0 <= j < k < |peers| ==> peers[j] != peers[k]
  }

  lemma DistinctFront(peers: seq<nat>)
    requires Distinct(peers) && peers != []
    ensures Distinct(peers[..|peers| - 1]) && peers[|peers| - 1] !in peers[..|peers| - 1]
  {}

  /**
   Each answer comes from another member, at most one each, and reports its identity or nothing; a
   member may have no identity to report. The node itself has one.
   */
  ghost predicate Truthful(ids: seq<Option<nat>>, me: nat, peers: seq<nat>, reports: seq<Option<nat>>) {
    && me < |ids| && ids[me].Some? && |peers| == |reports|
    && Distinct(peers)
    && (forall k :: 0 <= k < |peers| ==> peers[k] < |ids| && peers[k] != me)
    && (forall k :: 0 <= k < |peers| ==> reports[k] == None || reports[k] == ids[peers[k]])
  }

  ghost predicate Possible(configs: seq<Option<nat>>, me: nat, p: Probing) {
    Truthful(configs, me, p.peers, p.configs) && |p.epochs| == |p.peers|
  }

  function RoundOf(config: nat, p: Probing): GuardRound {
    GuardRound(
      p.localEpoch.Some?,
      Largest(config, p.configs),
      if p.localEpoch.None? then 0 else Largest(p.localEpoch.value, p.epochs))
  }

  function RoundsOf(config: nat, run: seq<Probing>): seq<GuardRound> {
    seq(|run|, k requires 0 <= k < |run| => RoundOf(config, run[k]))
  }

  ghost predicate PossibleRun(configs: seq<Option<nat>>, me: nat, run: seq<Probing>) {
    me < |configs| && configs[me].Some? && forall k :: 0 <= k < |run| ==> Possible(configs, me, run[k])
  }

  /** The members that hold one identity. */
  function Members(ids: seq<Option<nat>>, id: nat): set<nat> {
    set i | i in Sets.Below(|ids|) && ids[i] == Some(id)
  }

  /** The peers that reported `id`. */
  function Reporters(peers: seq<nat>, reports: seq<Option<nat>>, id: nat): (r: set<nat>)
    requires |peers| == |reports|
    ensures forall i :: i in r ==> i in peers
  {
    if peers == [] then {}
    else
      var n := |peers| - 1;
      var rest := Reporters(peers[..n], reports[..n], id);
      if reports[n] == Some(id) then rest + {peers[n]} else rest
  }

  lemma {:induction false} ReportersAreCounted(peers: seq<nat>, reports: seq<Option<nat>>, id: nat)
    requires |peers| == |reports| && Distinct(peers)
    ensures |Reporters(peers, reports, id)| == Count(reports, id)
    decreases |peers|
  {
    if peers != [] {
      var n := |peers| - 1;
      DistinctFront(peers);
      ReportersAreCounted(peers[..n], reports[..n], id);
    }
  }

  lemma {:induction false} ReportersAreMembers(
    ids: seq<Option<nat>>, me: nat, peers: seq<nat>, reports: seq<Option<nat>>, id: nat)
    requires Truthful(ids, me, peers, reports)
    ensures Reporters(peers, reports, id) <= Members(ids, id)
    decreases |peers|
  {
    if peers != [] {
      var n := |peers| - 1;
      DistinctFront(peers);
      hide Distinct;
      ReportersAreMembers(ids, me, peers[..n], reports[..n], id);
    }
  }

  function Elements(peers: seq<nat>): (r: set<nat>)
    ensures forall i :: i in r <==> i in peers
  {
    if peers == [] then {} else Elements(peers[..|peers| - 1]) + {peers[|peers| - 1]}
  }

  lemma {:induction false} DistinctSize(peers: seq<nat>)
    requires Distinct(peers)
    ensures |Elements(peers)| == |peers|
    decreases |peers|
  {
    if peers != [] {
      var n := |peers| - 1;
      DistinctFront(peers);
      DistinctSize(peers[..n]);
    }
  }

  /** A node gets at most one answer from each other member. */
  lemma FewerAnswersThanMembers(ids: seq<Option<nat>>, me: nat, peers: seq<nat>, reports: seq<Option<nat>>)
    requires Truthful(ids, me, peers, reports)
    ensures |peers| < |ids|
  {
    DistinctSize(peers);
    Sets.DisjointSizes(Elements(peers), {me}, |ids|);
  }

  lemma CountAtMostMembers(ids: seq<Option<nat>>, me: nat, peers: seq<nat>, reports: seq<Option<nat>>, id: nat)
    requires Truthful(ids, me, peers, reports)
    ensures Count(reports, id) <= |Members(ids, id)|
  {
    ReportersAreCounted(peers, reports, id);
    ReportersAreMembers(ids, me, peers, reports, id);
    Sets.SubsetSize(Reporters(peers, reports, id), Members(ids, id));
  }

  /** A foreign group of `size` reports is a group of at least that many members. */
  lemma ForeignGroup(ids: seq<Option<nat>>, me: nat, peers: seq<nat>, reports: seq<Option<nat>>) returns (id: nat)
    requires Truthful(ids, me, peers, reports) && Largest(ids[me].value, reports) > 0
    ensures Some(id) != ids[me] && |Members(ids, id)| >= Largest(ids[me].value, reports)
  {
    LargestIsMaximum(ids[me].value, reports);
    id :| IsForeign(ids[me].value, reports, id, Largest(ids[me].value, reports));
    CountAtMostMembers(ids, me, peers, reports, id);
  }

  /** A member of a majority group never sees a foreign majority. */
  lemma MajoritySeesNoMajority(ids: seq<Option<nat>>, me: nat, peers: seq<nat>, reports: seq<Option<nat>>)
    requires Truthful(ids, me, peers, reports) && |Members(ids, ids[me].value)| >= Majority(|ids|)
    ensures Largest(ids[me].value, reports) < Majority(|ids|)
  {
    if Largest(ids[me].value, reports) >= Majority(|ids|) {
      var id := ForeignGroup(ids, me, peers, reports);
      Sets.DisjointSizes(Members(ids, id), Members(ids, ids[me].value), |ids|);
    }
  }

  lemma {:induction false} UnhitNeverStrikes(rounds: seq<GuardRound>, majority: nat, required: nat)
    requires required > 0 && forall k :: 0 <= k < |rounds| ==> !ConfigHit(rounds[k], majority)
    ensures Ran(rounds, majority, required).config == 0
    ensures rounds != [] ==> Latest(rounds, majority, required) != FenceConfig
    decreases |rounds|
  {
    if rounds != [] {
      UnhitNeverStrikes(rounds[..|rounds| - 1], majority, required);
    }
  }

  /** No member holding `id` ever fences itself over configuration, in any possible run. */
  ghost predicate Spared(configs: seq<Option<nat>>, id: nat, required: nat) {
    forall me: nat, run: seq<Probing> :: me in Members(configs, id) && PossibleRun(configs, me, run) && run != [] ==>
      Latest(RoundsOf(id, run), Majority(|configs|), required) != FenceConfig
  }

  lemma MajorityIsSpared(configs: seq<Option<nat>>, id: nat, required: nat)
    requires required > 0 && |Members(configs, id)| >= Majority(|configs|)
    ensures Spared(configs, id, required)
  {
    forall me: nat, run: seq<Probing> | me in Members(configs, id) && PossibleRun(configs, me, run) && run != []
      ensures Latest(RoundsOf(id, run), Majority(|configs|), required) != FenceConfig
    {
      forall k | 0 <= k < |run| ensures !ConfigHit(RoundsOf(id, run)[k], Majority(|configs|)) {
        MajoritySeesNoMajority(configs, me, run[k].peers, run[k].configs);
      }
      UnhitNeverStrikes(RoundsOf(id, run), Majority(|configs|), required);
    }
  }

  /**
   Whoever answers in whichever round: when a node fences itself over configuration, a coherent
   majority of the roster holds one other configuration, and none of that majority's members ever
   fences itself over configuration. The group that survives is the majority.
   */
  lemma ConfigFenceSparesTheMajority(configs: seq<Option<nat>>, me: nat, run: seq<Probing>, required: nat)
    returns (id: nat)
    requires required > 0 && PossibleRun(configs, me, run) && run != []
    requires Latest(RoundsOf(configs[me].value, run), Majority(|configs|), required) == FenceConfig
    ensures Some(id) != configs[me] && |Members(configs, id)| >= Majority(|configs|)
    ensures Spared(configs, id, required)
  {
    var last := run[|run| - 1];
    assert Possible(configs, me, last);
    id := ForeignGroup(configs, me, last.peers, last.configs);
    MajorityIsSpared(configs, id, required);
  }

  /** In a snapshot of the roster's epochs, what `me` sees when it probes. */
  ghost predicate Sees(epochs: seq<Option<nat>>, me: nat, p: Probing) {
    Truthful(epochs, me, p.peers, p.epochs) && p.localEpoch == epochs[me]
  }

  /** No member at epoch `id` of the snapshot sees a foreign epoch majority in it. */
  ghost predicate SparedNow(epochs: seq<Option<nat>>, id: nat) {
    forall me: nat, config: nat, p: Probing :: me in Members(epochs, id) && Sees(epochs, me, p) ==>
      !EpochHit(RoundOf(config, p), Majority(|epochs|))
  }

  /**
   The same for epochs, which change while the guard runs, round by round: a node that fences itself
   over its epoch sees in that round one coherent majority at another epoch, and no member of it sees
   a foreign epoch majority then, so none of them takes a strike.
   */
  lemma EpochFenceSparesTheMajority(
    epochs: seq<Option<nat>>, me: nat, config: nat, run: seq<Probing>, required: nat) returns (id: nat)
    requires required > 0 && run != [] && Sees(epochs, me, run[|run| - 1])
    requires Latest(RoundsOf(config, run), Majority(|epochs|), required) == FenceEpoch
    ensures Some(id) != epochs[me] && |Members(epochs, id)| >= Majority(|epochs|)
    ensures SparedNow(epochs, id)
  {
    var last := run[|run| - 1];
    id := ForeignGroup(epochs, me, last.peers, last.epochs);
    forall other: nat, c: nat, p: Probing | other in Members(epochs, id) && Sees(epochs, other, p)
      ensures !EpochHit(RoundOf(c, p), Majority(|epochs|))
    {
      MajoritySeesNoMajority(epochs, other, p.peers, p.epochs);
    }
  }

  lemma {:induction false} QuietNeverFences(rounds: seq<GuardRound>, majority: nat, required: nat)
    requires required > 0
    requires forall k :: 0 <= k < |rounds| ==> !ConfigHit(rounds[k], majority) && !EpochHit(rounds[k], majority)
    ensures Ran(rounds, majority, required) == Strikes(0, 0)
    ensures rounds != [] ==> Latest(rounds, majority, required) == Continue
    decreases |rounds|
  {
    if rounds != [] {
      QuietNeverFences(rounds[..|rounds| - 1], majority, required);
    }
  }

  /** A node has at most `roster - 1` answers, which is no majority of one or two. */
  lemma SmallRostersNeverFence(configs: seq<Option<nat>>, me: nat, run: seq<Probing>, required: nat)
    requires required > 0 && 1 <= |configs| <= 2 && PossibleRun(configs, me, run) && run != []
    ensures Latest(RoundsOf(configs[me].value, run), Majority(|configs|), required) == Continue
  {
    var rounds := RoundsOf(configs[me].value, run);
    forall k | 0 <= k < |run|
      ensures !ConfigHit(rounds[k], Majority(|configs|)) && !EpochHit(rounds[k], Majority(|configs|))
    {
      var p := run[k];
      assert Possible(configs, me, p);
      FewerAnswersThanMembers(configs, me, p.peers, p.configs);
      LargestAtMostReports(configs[me].value, p.configs, 0);
      if p.localEpoch.Some? { LargestAtMostReports(p.localEpoch.value, p.epochs, 0); }
    }
    QuietNeverFences(rounds, Majority(|configs|), required);
  }

  // ---- The guard loop ----

  lemma PrefixRounds(config: nat, run: seq<Probing>, n: nat)
    requires n < |run|
    ensures RoundsOf(config, run[..n + 1]) == RoundsOf(config, run[..n]) + [RoundOf(config, run[n])]
  {}

  lemma UnfencedNext(rounds: seq<GuardRound>, r: GuardRound, majority: nat, required: nat)
    requires Unfenced(rounds, majority, required)
    requires rounds != [] ==> Latest(rounds, majority, required) == Continue
    ensures Unfenced(rounds + [r], majority, required)
    ensures (Ran(rounds + [r], majority, required), Latest(rounds + [r], majority, required))
         == Observed(Ran(rounds, majority, required), r, majority, required)
  {
    assert (rounds + [r])[..|rounds|] == rounds;
    forall k | 0 < k < |rounds| + 1 ensures Latest((rounds + [r])[..k], majority, required) == Continue {
      assert (rounds + [r])[..k] == if k == |rounds| then rounds else rounds[..k];
    }
  }

  /** The verdict after these rounds, none of which fenced before the last. */
  ghost predicate Stands(verdict: Verdict, rounds: seq<GuardRound>, majority: nat) {
    && Unfenced(rounds, majority, GUARD_STRIKES_TO_RESET)
    && verdict == if rounds == [] then Continue else Latest(rounds, majority, GUARD_STRIKES_TO_RESET)
  }

  lemma StandsForTheLastRounds(verdict: Verdict, rounds: seq<GuardRound>, majority: nat)
    requires Stands(verdict, rounds, majority)
    ensures verdict == FenceConfig <==> LastHit(rounds, GUARD_STRIKES_TO_RESET, r => ConfigHit(r, majority))
    ensures verdict == FenceEpoch <==>
            !LastHit(rounds, GUARD_STRIKES_TO_RESET, r => ConfigHit(r, majority))
            && LastHit(rounds, GUARD_STRIKES_TO_RESET, r => EpochHit(r, majority))
  {
    if rounds != [] {
      VerdictIsTheLastRounds(rounds, majority, GUARD_STRIKES_TO_RESET);
    }
  }

  /**
   Probe round after probe round until the first fence, with the hold-down of three rounds: the
   verdict is exactly what the last three rounds showed, and no earlier round would have fenced.
   */
  method RunClusterGuard(roster: nat, config: nat, run: seq<Probing>) returns (verdict: Verdict, n: nat)
    ensures n <= |run| && (verdict == Continue ==> n == |run|)
    ensures Stands(verdict, RoundsOf(config, run[..n]), Majority(roster))
    ensures verdict == FenceConfig <==>
            LastHit(RoundsOf(config, run[..n]), GUARD_STRIKES_TO_RESET, r => ConfigHit(r, Majority(roster)))
    ensures verdict == FenceEpoch <==>
            !LastHit(RoundsOf(config, run[..n]), GUARD_STRIKES_TO_RESET, r => ConfigHit(r, Majority(roster)))
            && LastHit(RoundsOf(config, run[..n]), GUARD_STRIKES_TO_RESET, r => EpochHit(r, Majority(roster)))
  {
    var guard := new ClusterGuard(roster, GUARD_STRIKES_TO_RESET);
    verdict, n := Continue, 0;
    ghost var rounds: seq<GuardRound> := [];
    assert Ran(rounds, Majority(roster), GUARD_STRIKES_TO_RESET) == Strikes(0, 0);
    hide Observed, Ran, Latest, Unfenced, LastHit, RoundsOf, Majority, Largest;
    NoRounds(config, run);
    while n < |run| && verdict == Continue
      invariant n <= |run| && rounds == RoundsOf(config, run[..n])
      invariant guard.majority == Majority(roster) && guard.config != guard.epoch
      invariant guard.config.required == guard.epoch.required == GUARD_STRIKES_TO_RESET
      invariant fresh(guard.config) && fresh(guard.epoch)
      invariant Strikes(guard.config.strikes, guard.epoch.strikes)
                == Ran(rounds, Majority(roster), GUARD_STRIKES_TO_RESET)
      invariant Stands(verdict, rounds, Majority(roster))
    {
      var p := run[n];
      var foreignConfig := LargestForeignGroup(config, p.configs);
      var foreignEpoch := 0;
      if p.localEpoch.Some? {
        foreignEpoch := LargestForeignGroup(p.localEpoch.value, p.epochs);
      }
      verdict := guard.Observe(GuardRound(p.localEpoch.Some?, foreignConfig, foreignEpoch));
      PrefixRounds(config, run, n);
      UnfencedNext(rounds, RoundOf(config, p), Majority(roster), GUARD_STRIKES_TO_RESET);
      rounds := rounds + [RoundOf(config, p)];
      n := n + 1;
    }
    StandsForTheLastRounds(verdict, rounds, Majority(roster));
  }

  lemma NoRounds(config: nat, run: seq<Probing>)
    ensures RoundsOf(config, run[..0]) == [] && forall majority :: Unfenced([], majority, GUARD_STRIKES_TO_RESET)
  {}
}
