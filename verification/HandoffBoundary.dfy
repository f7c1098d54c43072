/**
 The exact boundary of handoff exclusion: for every configuration and any two generations, two nodes
 can hold the VIP at once, in a run that follows the placement rule, exactly when a generation lies
 between theirs.

 The run: nodes 1 and 2 hand the VIP back and forth, each reporting ill and well again, until node 1
 has generation g. Node 1 binds it and falls silent. Nodes 2 and 3 go on, the VIP moves to node 2 and
 back and forth between them up to generation h, and nobody binds in between. The last predecessor
 releases what it never held, so generation h is bound at once.
 */
module HandoffBoundary {
  import opened Prelude
  import opened Identity
  import opened BindPolicy
  import opened Assignments
  import opened Handoff
  import opened HandoffGap

  // ---- Logs that follow the rule ----

  function Now(log: seq<Entry>): View {
    ViewAt(log, |log|)
  }

  function HealthNow(log: seq<Entry>): map<NodeId, bool> {
    HealthAt(log, |log|)
  }

  /** Node `node` reports, and placement does what it does. */
  function Report(log: seq<Entry>, stale: nat, node: NodeId, ok: bool): Entry {
    Progress(node, 0, Some(ok), Place(WithProbe(Now(log), node), HealthNow(log)[node := ok], stale))
  }

  function Reported(log: seq<Entry>, stale: nat, node: NodeId, ok: bool): seq<Entry> {
    log + [Report(log, stale, node, ok)]
  }

  lemma {:induction false} PrefixHealth(log: seq<Entry>, more: seq<Entry>, n: nat)
    requires n <= |log|
    ensures HealthAt(log + more, n) == HealthAt(log, n)
  {
    if n > 0 { PrefixHealth(log, more, n - 1); }
  }

  lemma Appended(log: seq<Entry>, e: Entry)
    ensures Now(log + [e]) == Applied(Now(log), e)
    ensures e.Progress? && e.healthy.Some? ==> HealthNow(log + [e]) == HealthNow(log)[e.node := e.healthy.value]
    ensures e.Release? ==> HealthNow(log + [e]) == HealthNow(log)
  {
    PrefixView(log, [e], |log|);
    PrefixHealth(log, [e], |log|);
  }

  lemma StillPlaced(log: seq<Entry>, e: Entry, stale: nat)
    requires PlacedByRule(log, stale)
    requires Recomputes(e) ==> e.placed == Place(BeforePlacing(Now(log), e), HealthNow(log + [e]), stale)
    ensures PlacedByRule(log + [e], stale)
  {
    hide ViewAt, HealthAt, Place, BeforePlacing;
    forall i | 0 <= i <= |log| && Recomputes((log + [e])[i])
      ensures (log + [e])[i].placed
           == Place(BeforePlacing(ViewAt(log + [e], i), (log + [e])[i]), HealthAt(log + [e], i + 1), stale)
    {
      PrefixView(log, [e], i);
      if i < |log| { PrefixHealth(log, [e], i + 1); }
    }
  }

  type Health = map<NodeId, bool>

  function After(v: View, health: Health, stale: nat, node: NodeId, ok: bool): View {
    Reconciled(WithProbe(v, node), Place(WithProbe(v, node), health[node := ok], stale))
  }

  /** What one report does to the view, the health and the rule. */
  lemma ReportShows(log: seq<Entry>, stale: nat, node: NodeId, ok: bool)
    ensures var next := Reported(log, stale, node, ok);
            && Now(next) == After(Now(log), HealthNow(log), stale, node, ok)
            && HealthNow(next) == HealthNow(log)[node := ok]
            && (PlacedByRule(log, stale) ==> PlacedByRule(next, stale))
  {
    hide ViewAt, HealthAt, Place, PlacedByRule;
    Appended(log, Report(log, stale, node, ok));
    if PlacedByRule(log, stale) { StillPlaced(log, Report(log, stale, node, ok), stale); }
  }

  // ---- One report, on views ----

  predicate IsEligible(v: View, health: Health, stale: nat, node: NodeId) {
    Eligible(node, health, v.ticks, v.frontier, stale)
  }

  /** An eligible holder keeps the VIP. */
  lemma Keeps(v: View, health: Health, stale: nat, node: NodeId, ok: bool)
    requires v.assignment.Some? && v.lastHolder == Some(v.assignment.value.holder)
    requires IsEligible(WithProbe(v, node), health[node := ok], stale, v.assignment.value.holder)
    ensures After(v, health, stale, node, ok) == WithProbe(v, node)
  {}

  /** The only eligible node takes it over. */
  lemma TakesOver(v: View, health: Health, stale: nat, node: NodeId, ok: bool, next: NodeId)
    requires v.assignment.Some? && v.generation < U64_MAX && WithProbe(v, node).frontier < U64_MAX && next in {1, 2, 3}
    requires var w, after := WithProbe(v, node), health[node := ok];
             && IsEligible(w, after, stale, next)
             && !IsEligible(w, after, stale, v.assignment.value.holder)
             && forall other :: other in {1, 2, 3} && other < next ==> !IsEligible(w, after, stale, other)
    ensures var w := WithProbe(v, node);
            After(v, health, stale, node, ok)
            == w.(
              assignment := Some(
                Assignment(next, v.generation + 1, Some(v.assignment.value.holder), false, w.frontier + 1)),
              generation := v.generation + 1,
              lastHolder := Some(next))
  {
    hide Eligible;
    var w, after := WithProbe(v, node), health[node := ok];
    assert Place(w, after, stale) == Some(next) by {
      assert (1 < next ==> !IsEligible(w, after, stale, 1)) && (2 < next ==> !IsEligible(w, after, stale, 2));
      assert !IsEligible(w, after, stale, v.assignment.value.holder) && IsEligible(w, after, stale, next);
    }
  }

  // ---- A duel of two nodes ----

  /** The node's last report is too old to count, now and for as long as it stays silent. */
  predicate Silent(v: View, stale: nat, node: NodeId) {
    node in v.ticks ==> v.ticks[node] + stale < v.frontier
  }

  predicate Reporting(v: View, health: Health, node: NodeId) {
    node in v.ticks && v.ticks[node] == v.frontier && node in health && health[node]
  }

  /** Node `x` has the VIP in generation `g`, `y` is well too, and nobody else counts. */
  ghost predicate Duel(v: View, health: Health, stale: nat, x: NodeId, y: NodeId, g: nat) {
    && x in {1, 2, 3} && y in {1, 2, 3} && x != y
    && v.generation == g && v.lastHolder == Some(x)
    && v.assignment.Some? && v.assignment.value.holder == x && v.assignment.value.generation == g
    && v.frontier >= 1 && Reporting(v, health, x) && Reporting(v, health, y)
    && (forall z :: z in {1, 2, 3} && z != x && z != y ==> Silent(v, stale, z))
  }

  /** `x` reports ill and loses the VIP to `y`. */
  lemma Falls(v: View, health: Health, stale: nat, x: NodeId, y: NodeId, g: nat)
    requires Duel(v, health, stale, x, y, g) && stale >= 1 && v.frontier + 1 < U64_MAX && g < U64_MAX
    ensures After(v, health, stale, x, false)
         == View(Some(Assignment(y, g + 1, Some(x), false, v.frontier + 2)), g + 1, Some(y),
                 v.ticks[x := v.frontier + 1], v.frontier + 1)
  {
    var w, after := WithProbe(v, x), health[x := false];
    forall other | other in {1, 2, 3} && other < y ensures !IsEligible(w, after, stale, other) {
      assert other == x || Silent(v, stale, other);
    }
    TakesOver(v, health, stale, x, false, y);
  }

  /** The volley: `x` ill, `y` well, `x` well, `y` well. */
  function Volley(v: View, health: Health, stale: nat, x: NodeId, y: NodeId): View {
    var h1 := health[x := false];
    var h2 := h1[y := true];
    var h3 := h2[x := true];
    After(After(After(After(v, health, stale, x, false), h1, stale, y, true), h2, stale, x, true), h3, stale, y, true)
  }

  /** It moves the VIP from `x` to `y` and the frontier two ticks on. */
  function Volleyed(v: View, x: NodeId, y: NodeId): View {
    var f := v.frontier;
    View(Some(Assignment(y, v.generation + 1, Some(x), false, f + 2)), v.generation + 1, Some(y),
         v.ticks[x := f + 1][y := f + 1][x := f + 2][y := f + 2], f + 2)
  }

  lemma VolleyMoves(v: View, health: Health, stale: nat, x: NodeId, y: NodeId, g: nat)
    requires Duel(v, health, stale, x, y, g) && stale >= 1 && v.frontier + 2 < U64_MAX && g < U64_MAX
    ensures Volley(v, health, stale, x, y) == Volleyed(v, x, y)
  {
    Falls(v, health, stale, x, y, g);
    var f := v.frontier;
    var h1 := health[x := false];
    var v1 := View(Some(Assignment(y, g + 1, Some(x), false, f + 2)), g + 1, Some(y), v.ticks[x := f + 1], f + 1);
    hide After;
    Keeps(v1, h1, stale, y, true);
    var v2 := v1.(ticks := v1.ticks[y := f + 1]);
    assert WithProbe(v1, y) == v2;
    Keeps(v2, h1[y := true], stale, x, true);
    var v3 := v2.(ticks := v2.ticks[x := f + 2], frontier := f + 2);
    assert WithProbe(v2, x) == v3;
    Keeps(v3, h1[y := true][x := true], stale, y, true);
    assert WithProbe(v3, y) == v3.(ticks := v3.ticks[y := f + 2]);
  }

  lemma VolleyDuel(v: View, health: Health, stale: nat, x: NodeId, y: NodeId, g: nat)
    requires Duel(v, health, stale, x, y, g)
    ensures Duel(Volleyed(v, x, y), health[x := false][y := true][x := true][y := true], stale, y, x, g + 1)
  {
    forall z | z in {1, 2, 3} && z != x && z != y ensures Silent(Volleyed(v, x, y), stale, z) {
      assert Silent(v, stale, z);
    }
  }

  // ---- Volleys in the log ----

  ghost predicate Stands(log: seq<Entry>, stale: nat, x: NodeId, y: NodeId, g: nat) {
    Duel(Now(log), HealthNow(log), stale, x, y, g) && PlacedByRule(log, stale)
  }

  /** The log went on by reports alone. */
  ghost predicate Grew(log: seq<Entry>, more: seq<Entry>) {
    && |log| <= |more| && more[..|log|] == log
    && forall i :: |log| <= i < |more| ==> more[i].Progress? && more[i].started == 0
  }

  lemma GrewTwice(a: seq<Entry>, b: seq<Entry>, c: seq<Entry>)
    requires Grew(a, b) && Grew(b, c)
    ensures Grew(a, c)
  {
    forall i | |a| <= i < |c| ensures c[i].Progress? && c[i].started == 0 {
      if i < |b| { assert c[i] == c[..|b|][i]; }
    }
    assert c[..|a|] == c[..|b|][..|a|];
  }

  /** The last entry is a good report of `node`. */
  predicate Well(log: seq<Entry>, node: NodeId) {
    log != [] && ReportsWell(log, |log| - 1, node)
  }

  function OneVolley(log: seq<Entry>, stale: nat, x: NodeId, y: NodeId): seq<Entry> {
    Reported(Reported(Reported(Reported(log, stale, x, false), stale, y, true), stale, x, true), stale, y, true)
  }

  /** `y` has just taken the VIP over from `x` and may activate it. */
  predicate TakenOver(v: View, x: NodeId, released: bool) {
    && v.assignment.Some?
    && v.assignment.value.previousHolder == Some(x)
    && v.assignment.value.previousHolderReleased == released
    && v.assignment.value.activationTick <= v.frontier
  }

  lemma VolleyShows(log: seq<Entry>, stale: nat, x: NodeId, y: NodeId)
    ensures var next := OneVolley(log, stale, x, y);
            && Now(next) == Volley(Now(log), HealthNow(log), stale, x, y)
            && HealthNow(next) == HealthNow(log)[x := false][y := true][x := true][y := true]
            && (PlacedByRule(log, stale) ==> PlacedByRule(next, stale))
            && |next| == |log| + 4 && Grew(log, next) && Well(next, y)
  {
    hide Now, HealthNow, After, PlacedByRule, Place;
    var a := Reported(log, stale, x, false);
    var b := Reported(a, stale, y, true);
    var c := Reported(b, stale, x, true);
    ReportShows(log, stale, x, false);
    ReportShows(a, stale, y, true);
    ReportShows(b, stale, x, true);
    ReportShows(c, stale, y, true);
  }

  lemma VolleyStands(log: seq<Entry>, stale: nat, x: NodeId, y: NodeId, g: nat)
    requires Stands(log, stale, x, y, g) && stale >= 1 && |log| + 2 < U64_MAX
    ensures var next := OneVolley(log, stale, x, y);
            && Stands(next, stale, y, x, g + 1) && TakenOver(Now(next), x, false)
            && |next| == |log| + 4 && Grew(log, next) && Well(next, y)
  {
    ViewIsSane(log, |log|);
    assert Now(log).frontier <= |log| && Now(log).generation <= |log|;
    hide ViewAt, HealthAt, PlacedByRule, Volley, OneVolley;
    VolleyShows(log, stale, x, y);
    VolleyMoves(Now(log), HealthNow(log), stale, x, y, g);
    VolleyDuel(Now(log), HealthNow(log), stale, x, y, g);
  }

  function Volleys(log: seq<Entry>, stale: nat, x: NodeId, y: NodeId, n: nat): seq<Entry>
    decreases n
  {
    if n == 0 then log else Volleys(OneVolley(log, stale, x, y), stale, y, x, n - 1)
  }

  /** Who has the VIP after `n` moves between `x` and `y`. */
  function Turn(x: NodeId, y: NodeId, n: nat): NodeId {
    if n % 2 == 0 then x else y
  }

  lemma {:induction false} VolleysStand(log: seq<Entry>, stale: nat, x: NodeId, y: NodeId, g: nat, n: nat)
    requires Stands(log, stale, x, y, g) && stale >= 1 && |log| + 4 * n < U64_MAX
    ensures var next := Volleys(log, stale, x, y, n);
            && Stands(next, stale, Turn(x, y, n), Turn(y, x, n), g + n)
            && |next| == |log| + 4 * n && Grew(log, next)
            && (n > 0 ==> TakenOver(Now(next), Turn(y, x, n), false) && Well(next, Turn(x, y, n)))
    decreases n
  {
    hide Stands, Now, OneVolley, TakenOver, Well;
    if n > 0 {
      VolleyStands(log, stale, x, y, g);
      VolleysStand(OneVolley(log, stale, x, y), stale, y, x, g + 1, n - 1);
    }
  }

  // ---- Node 1 at generation g ----

  function Opening(stale: nat, x: NodeId, y: NodeId): seq<Entry> {
    Reported(Reported([], stale, x, true), stale, y, true)
  }

  lemma OpeningStands(stale: nat, x: NodeId, y: NodeId)
    requires stale >= 1 && x in {1, 2} && y in {1, 2} && x != y
    ensures var log := Opening(stale, x, y);
            && Stands(log, stale, x, y, 1) && |log| == 2 && Grew([], log)
            && Now(log).assignment == Some(Assignment(x, 1, None, true, 1)) && Now(log).frontier == 1
            && log[0] == Progress(x, 0, Some(true), Some(x))
  {
    var a := Reported([], stale, x, true);
    ReportShows([], stale, x, true);
    assert Now([]) == EMPTY && HealthNow([]) == map[];
    var v := View(Some(Assignment(x, 1, None, true, 1)), 1, Some(x), map[x := 1], 1);
    assert After(EMPTY, map[], stale, x, true) == v;
    assert PlacedByRule([], stale);
    hide Now, HealthNow, PlacedByRule;
    ReportShows(a, stale, y, true);
    Keeps(v, map[x := true], stale, y, true);
  }

  /** The VIP reaches node 1 in generation `g`. */
  function Arrival(stale: nat, g: nat): seq<Entry>
    requires g >= 1
  {
    if g % 2 == 1
    then Volleys(Opening(stale, 1, 2), stale, 1, 2, g - 1)
    else Volleys(Opening(stale, 2, 1), stale, 2, 1, g - 1)
  }

  /** A good report of `node` in the log. */
  predicate ReportsWell(log: seq<Entry>, index: nat, node: NodeId) {
    index < |log| && log[index].Progress? && log[index].node == node && log[index].started == 0
    && log[index].healthy == Some(true)
  }

  /** The assignment of generation `g`, ready to bind as soon as its predecessor has released. */
  predicate Awaits(v: View, g: nat, released: bool) {
    && v.assignment.Some?
    && v.assignment.value.activationTick <= v.frontier
    && v.assignment.value.previousHolder == (if g == 1 then None else Some(2))
    && v.assignment.value.previousHolderReleased == (released || g == 1)
  }

  lemma ArrivalStands(stale: nat, g: nat) returns (index: nat)
    requires stale >= 1 && g >= 1 && 4 * g < U64_MAX
    ensures var log := Arrival(stale, g);
            && Stands(log, stale, 1, 2, g) && |log| == 4 * g - 2 && Grew([], log) && ReportsWell(log, index, 1)
            && Awaits(Now(log), g, false)
  {
    hide Stands, Now, Opening, Grew, Volleys;
    var x, y := if g % 2 == 1 then 1 else 2, if g % 2 == 1 then 2 else 1;
    var open, log := Opening(stale, x, y), Arrival(stale, g);
    OpeningStands(stale, x, y);
    VolleysStand(open, stale, x, y, 1, g - 1);
    assert log == Volleys(open, stale, x, y, g - 1);
    assert Turn(x, y, g - 1) == 1 && Turn(y, x, g - 1) == 2;
    GrewTwice([], open, log);
    if g == 1 {
      assert log == open by { NoVolley(open, stale, x, y); }
      index := 0;
    } else {
      index := |log| - 1;
    }
  }

  lemma NoVolley(log: seq<Entry>, stale: nat, x: NodeId, y: NodeId)
    ensures Volleys(log, stale, x, y, 0) == log
  {}

  /** Node 2 has released. */
  function First(stale: nat, g: nat): seq<Entry>
    requires g >= 1
  {
    if g == 1 then Arrival(stale, g) else Arrival(stale, g) + [Release(2, g)]
  }

  lemma ReleaseStands(log: seq<Entry>, stale: nat, x: NodeId, y: NodeId, g: nat)
    requires Stands(log, stale, x, y, g) && Now(log).assignment.value.previousHolder == Some(y)
    ensures var next := log + [Release(y, g)];
            && Stands(next, stale, x, y, g)
            && Now(next) == Now(log).(assignment := Some(Now(log).assignment.value.(previousHolderReleased := true)))
  {
    Appended(log, Release(y, g));
    hide Now, HealthNow, PlacedByRule;
    StillPlaced(log, Release(y, g), stale);
    forall z | z in {1, 2, 3} && z != x && z != y ensures Silent(Now(log + [Release(y, g)]), stale, z) {
      assert Silent(Now(log), stale, z);
    }
  }

  lemma FirstStands(stale: nat, g: nat) returns (index: nat)
    requires stale >= 1 && g >= 1 && 4 * g < U64_MAX
    ensures var log := First(stale, g);
            && Stands(log, stale, 1, 2, g) && |log| <= 4 * g - 1
            && ReportsWell(log, index, 1) && Awaits(Now(log), g, true)
  {
    hide Stands, Now, Arrival, Grew;
    index := ArrivalStands(stale, g);
    if g > 1 {
      ReleaseStands(Arrival(stale, g), stale, 1, 2, g);
    }
  }

  // ---- Node 1 falls silent ----

  /** `j` ticks after its last report node 1 still has the VIP, and nodes 2 and 3 report. */
  ghost predicate Trio(v: View, health: Health, f: nat, j: nat, g: nat) {
    && v.generation == g && v.lastHolder == Some(1)
    && v.assignment.Some? && v.assignment.value.holder == 1 && v.assignment.value.generation == g
    && f >= 1 && v.frontier == f + j && 1 in v.ticks && v.ticks[1] == f && 1 in health && health[1]
    && Reporting(v, health, 2) && Reporting(v, health, 3)
  }

  lemma Enters(v: View, health: Health, stale: nat, g: nat)
    requires Duel(v, health, stale, 1, 2, g)
    ensures Trio(After(v, health, stale, 3, true), health[3 := true], v.frontier, 0, g)
  {
    assert Silent(v, stale, 3);
    Keeps(v, health, stale, 3, true);
    hide After;
  }

  function Pair(v: View, health: Health, stale: nat): View {
    After(After(v, health, stale, 2, true), health[2 := true], stale, 3, true)
  }

  lemma PairKeeps(v: View, health: Health, stale: nat, f: nat, j: nat, g: nat)
    requires Trio(v, health, f, j, g) && j < stale && f + stale < U64_MAX
    ensures Trio(Pair(v, health, stale), health[2 := true][3 := true], f, j + 1, g)
  {
    Keeps(v, health, stale, 2, true);
    var w := v.(ticks := v.ticks[2 := f + j + 1], frontier := f + j + 1);
    assert WithProbe(v, 2) == w;
    Keeps(w, health[2 := true], stale, 3, true);
    hide After;
  }

  lemma PairMoves(v: View, health: Health, stale: nat, f: nat, g: nat)
    requires Trio(v, health, f, stale, g) && stale >= 1 && f + stale + 2 < U64_MAX && g < U64_MAX
    ensures Duel(Pair(v, health, stale), health[2 := true][3 := true], stale, 2, 3, g + 1)
  {
    var n := f + stale + 1;
    TakesOver(v, health, stale, 2, true, 2);
    var w := View(Some(Assignment(2, g + 1, Some(1), false, n + 1)), g + 1, Some(2), v.ticks[2 := n], n);
    assert After(v, health, stale, 2, true) == w;
    Keeps(w, health[2 := true], stale, 3, true);
    hide After;
  }

  function OnePair(log: seq<Entry>, stale: nat): seq<Entry> {
    Reported(Reported(log, stale, 2, true), stale, 3, true)
  }

  function Pairs(log: seq<Entry>, stale: nat, n: nat): seq<Entry>
    decreases n
  {
    if n == 0 then log else Pairs(OnePair(log, stale), stale, n - 1)
  }

  lemma PairShows(log: seq<Entry>, stale: nat)
    ensures var next := OnePair(log, stale);
            && Now(next) == Pair(Now(log), HealthNow(log), stale)
            && HealthNow(next) == HealthNow(log)[2 := true][3 := true]
            && (PlacedByRule(log, stale) ==> PlacedByRule(next, stale))
            && |next| == |log| + 2 && Grew(log, next)
  {
    hide Now, HealthNow, After, PlacedByRule, Place;
    ReportShows(log, stale, 2, true);
    ReportShows(Reported(log, stale, 2, true), stale, 3, true);
  }

  ghost predicate Fades(log: seq<Entry>, stale: nat, f: nat, j: nat, g: nat) {
    Trio(Now(log), HealthNow(log), f, j, g) && PlacedByRule(log, stale)
  }

  lemma {:induction false} PairsFade(log: seq<Entry>, stale: nat, f: nat, j: nat, g: nat)
    requires Fades(log, stale, f, j, g) && 1 <= stale && j <= stale && f + stale + 2 < U64_MAX && g < U64_MAX
    ensures var n := stale + 1 - j;
            var next := Pairs(log, stale, n);
            Stands(next, stale, 2, 3, g + 1) && |next| == |log| + 2 * n && Grew(log, next)
    decreases stale - j
  {
    hide Now, HealthNow, PlacedByRule, OnePair, Pair, Trio, Duel;
    var next := OnePair(log, stale);
    PairShows(log, stale);
    if j == stale {
      PairMoves(Now(log), HealthNow(log), stale, f, g);
      assert Pairs(next, stale, 0) == next;
    } else {
      PairKeeps(Now(log), HealthNow(log), stale, f, j, g);
      PairsFade(next, stale, f, j + 1, g);
    }
  }

  /** Nodes 2 and 3 report until the VIP has left node 1 for node 2. */
  function Departure(stale: nat, g: nat): seq<Entry>
    requires g >= 1
  {
    Pairs(Reported(First(stale, g), stale, 3, true), stale, stale + 1)
  }

  lemma DepartureStands(stale: nat, g: nat)
    requires stale >= 1 && g >= 1 && 4 * g + 2 * stale + 12 < U64_MAX
    ensures var log := Departure(stale, g);
            Stands(log, stale, 2, 3, g + 1) && |log| <= 4 * g + 2 * stale + 2 && Grew(First(stale, g), log)
  {
    hide First, Stands, Fades, Grew, Reported, Pairs;
    var first := First(stale, g);
    var index := FirstStands(stale, g);
    EntryFades(first, stale, g);
    var entered := Reported(first, stale, 3, true);
    PairsFade(entered, stale, Now(first).frontier, 0, g);
    GrewTwice(first, entered, Departure(stale, g));
  }

  lemma EntryFades(log: seq<Entry>, stale: nat, g: nat)
    requires Stands(log, stale, 1, 2, g) && |log| <= U64_MAX
    ensures var next := Reported(log, stale, 3, true);
            && Fades(next, stale, Now(log).frontier, 0, g) && |next| == |log| + 1 && Grew(log, next)
            && Now(log).frontier <= |log|
  {
    ViewIsSane(log, |log|);
    assert Now(log).frontier <= |log|;
    hide ViewAt, HealthAt, PlacedByRule, After, Trio, Duel, Place;
    ReportShows(log, stale, 3, true);
    Enters(Now(log), HealthNow(log), stale, g);
  }

  // ---- Node 2 or 3 at generation h ----

  function Winner(g: nat, h: nat): NodeId
    requires g < h
  {
    Turn(2, 3, h - g - 1)
  }

  function Loser(g: nat, h: nat): NodeId
    requires g < h
  {
    Turn(3, 2, h - g - 1)
  }

  function Later(stale: nat, g: nat, h: nat): seq<Entry>
    requires 1 <= g < h
  {
    Volleys(Departure(stale, g), stale, 2, 3, h - g - 1)
  }

  predicate Fits(stale: nat, g: nat, h: nat) {
    stale >= 1 && 1 <= g && g + 2 <= h && 4 * h + 2 * stale + 12 < U64_MAX
  }

  lemma LaterStands(stale: nat, g: nat, h: nat)
    requires Fits(stale, g, h)
    ensures var log := Later(stale, g, h);
            && Stands(log, stale, Winner(g, h), Loser(g, h), h) && TakenOver(Now(log), Loser(g, h), false)
            && |log| <= 4 * h + 2 * stale && Grew(First(stale, g), log) && Well(log, Winner(g, h))
  {
    hide Stands, Now, First, Departure, TakenOver, Well, Grew, Volleys;
    DepartureStands(stale, g);
    VolleysStand(Departure(stale, g), stale, 2, 3, g + 1, h - g - 1);
    GrewTwice(First(stale, g), Departure(stale, g), Later(stale, g, h));
  }

  function Whole(stale: nat, g: nat, h: nat): seq<Entry>
    requires 1 <= g < h
  {
    Later(stale, g, h) + [Release(Loser(g, h), h)]
  }

  lemma WholeStands(stale: nat, g: nat, h: nat)
    requires Fits(stale, g, h)
    ensures var log := Whole(stale, g, h);
            Stands(log, stale, Winner(g, h), Loser(g, h), h) && TakenOver(Now(log), Loser(g, h), true)
  {
    LaterStands(stale, g, h);
    hide Stands, Now, Later;
    ReleaseStands(Later(stale, g, h), stale, Winner(g, h), Loser(g, h), h);
  }

  // ---- The run ----

  /** At time zero `log` is committed, node 1 has applied nothing and nobody has bound anything. */
  ghost predicate Staged(cfg: Config, s: State, log: seq<Entry>) {
    && Reachable(cfg, s) && Shaped(s) && s.world.now == 0 && s.world.log == log
    && s.nodes.Keys == {1, 2, 3} && s.nodes[1].applied == 0
    && Untouched(1, s.nodes[1]) && Untouched(2, s.nodes[2]) && Untouched(3, s.nodes[3])
  }

  /** The node has applied something and done nothing. */
  predicate Untouched(id: NodeId, n: Node)
    requires id in {1, 2, 3}
  {
    n == Fresh(Contexts()[id]).(applied := n.applied)
  }

  lemma Stage(cfg: Config) returns (s: State)
    ensures Staged(cfg, s, [])
  {
    s := Init(0, Contexts());
    assert Runs(cfg, s, [], s);
  }

  lemma Commits(cfg: Config, s: State, log: seq<Entry>, more: seq<Entry>) returns (t: State)
    requires Staged(cfg, s, log) && |more| <= U64_MAX && Grew(log, more)
    ensures Staged(cfg, t, more)
  {
    hide Reachable, Enabled, Do;
    var entries := more[|log|..];
    assert more == log + entries;
    t := ExtendAll(cfg, s, entries);
  }

  predicate Quiet(n: Node) {
    n.bound.None? && n.effect.None?
  }

  lemma FreshIsQuiet(id: NodeId, n: Node, applied: nat)
    requires id in {1, 2, 3} && Untouched(id, n)
    ensures Quiet(n.(applied := applied)) && Untouched(id, n.(applied := applied))
  {}

  /** A node that has nothing to release reads that it is asked to and acknowledges. */
  lemma Releases(cfg: Config, s: State, log: seq<Entry>, node: NodeId, generation: nat) returns (t: State)
    requires Staged(cfg, s, log) && |log| < U64_MAX && node in {2, 3}
    requires Now(log).assignment.Some?
    requires Now(log).assignment.value.generation == generation
    requires Now(log).assignment.value.previousHolder == Some(node)
    ensures Staged(cfg, t, log + [Release(node, generation)])
  {
    hide ViewAt, Reachable, Fresh, Contexts;
    t := ApplyUpTo(cfg, s, node, |log|);
    assert Quiet(t.nodes[node]) by { FreshIsQuiet(node, s.nodes[node], |log|); }
    Next(cfg, t, Submit(node, |log|));
    t := Do(cfg, t, Submit(node, |log|));
    assert Submission(node, generation, |log|) in t.world.submitted;
    t := Extend(cfg, t, Release(node, generation));
  }

  lemma FirstStage(cfg: Config, g: nat) returns (s: State)
    requires cfg.stale >= 1 && g >= 1 && 4 * g < U64_MAX
    ensures Staged(cfg, s, First(cfg.stale, g))
  {
    var log := Arrival(cfg.stale, g);
    var index := ArrivalStands(cfg.stale, g);
    hide Now, HealthNow, PlacedByRule, Staged, Arrival, Grew;
    s := Stage(cfg);
    s := Commits(cfg, s, [], log);
    if g > 1 { s := Releases(cfg, s, log, 2, g); }
  }

  lemma WholeStage(cfg: Config, g: nat, h: nat) returns (s: State)
    requires Fits(cfg.stale, g, h)
    ensures Staged(cfg, s, Whole(cfg.stale, g, h))
  {
    LaterStands(cfg.stale, g, h);
    hide Now, HealthNow, PlacedByRule, Staged, First, Later, Grew;
    s := FirstStage(cfg, g);
    s := Commits(cfg, s, First(cfg.stale, g), Later(cfg.stale, g, h));
    s := Releases(cfg, s, Later(cfg.stale, g, h), Loser(g, h), h);
  }

  /** A view in which `node` may bind generation `g` at once. */
  predicate ReadyAt(v: View, node: NodeId, g: nat) {
    && v.generation == g
    && v.assignment.Some?
    && v.assignment.value.generation == g
    && v.assignment.value.holder == node
    && v.assignment.value.activationTick <= v.frontier
    && v.assignment.value.previousHolderReleased
    && (v.assignment.value.previousHolder.None? ==> g == 1)
  }

  lemma FirstReady(stale: nat, g: nat) returns (index: nat)
    requires stale >= 1 && g >= 1 && 4 * g < U64_MAX
    ensures var log := First(stale, g); ReadyAt(Now(log), 1, g) && ReportsWell(log, index, 1)
  {
    hide Now, HealthNow, PlacedByRule, First;
    index := FirstStands(stale, g);
  }

  lemma WholeReady(stale: nat, g: nat, h: nat)
    requires Fits(stale, g, h)
    ensures var log := Whole(stale, g, h);
            ReadyAt(Now(log), Winner(g, h), h) && PlacedByRule(log, stale) && |log| < U64_MAX
  {
    hide Now, HealthNow, PlacedByRule, Later;
    WholeStands(stale, g, h);
    LaterStands(stale, g, h);
  }

  /** Node 1 reads its own part of the log, whatever comes after it. */
  lemma WholePrefix(stale: nat, g: nat, h: nat)
    requires Fits(stale, g, h)
    ensures var first, log := First(stale, g), Whole(stale, g, h);
            |first| <= |log| && log[..|first|] == first && ViewAt(log, |first|) == Now(first)
  {
    hide ViewAt, Stands, Well, TakenOver, First, Later;
    var first, later := First(stale, g), Later(stale, g, h);
    LaterStands(stale, g, h);
    var more := later[|first|..] + [Release(Loser(g, h), h)];
    assert Whole(stale, g, h) == first + more by { assert later == first + later[|first|..]; }
    PrefixView(first, more, |first|);
  }

  /** The later holder's own report is the last but one entry. */
  lemma WholeReports(stale: nat, g: nat, h: nat)
    requires Fits(stale, g, h)
    ensures var log := Whole(stale, g, h); |log| >= 2 && ReportsWell(log, |log| - 2, Winner(g, h))
  {
    hide Stands, TakenOver, Later, First, Now, Grew, Winner, Loser;
    LaterStands(stale, g, h);
  }

  lemma Ripens(s: State, id: NodeId, index: nat, g: nat)
    requires Shaped(s) && s.world.now == 0 && id in {1, 2, 3} && id in s.nodes && Untouched(id, s.nodes[id])
    requires index < s.nodes[id].applied && ReportsWell(s.world.log, index, id)
    requires ReadyAt(ViewAt(s.world.log, s.nodes[id].applied), id, g)
    ensures Ripe(s, id, index)
  {
    hide ViewAt;
  }

  /** Both may hold the VIP at once, after placements by the rule alone. */
  ghost predicate BothMayHold(cfg: Config, s: State, a: NodeId, g: nat, b: NodeId, h: nat) {
    && Reachable(cfg, s) && Shaped(s) && PlacedByRule(s.world.log, cfg.stale)
    && a in s.nodes && b in s.nodes && a != b
    && MayHold(s.world, a, s.nodes[a], cfg, g) && MayHold(s.world, b, s.nodes[b], cfg, h)
  }

  /** Both have the address at once, after placements by the rule alone. */
  ghost predicate BothBound(cfg: Config, s: State, a: NodeId, g: nat, b: NodeId, h: nat) {
    && Reachable(cfg, s) && PlacedByRule(s.world.log, cfg.stale)
    && a in s.nodes && b in s.nodes && a != b
    && s.nodes[a].bound == Some(g) && s.nodes[b].bound == Some(h)
  }

  /** Node 1 binds generation `g` while the others have bound nothing. */
  lemma FirstBinds(cfg: Config, g: nat, h: nat) returns (s: State)
    requires Leases(cfg) && Fits(cfg.stale, g, h)
    ensures Reachable(cfg, s) && Shaped(s) && s.world.now == 0 && s.world.log == Whole(cfg.stale, g, h)
    ensures {1, 2, 3} <= s.nodes.Keys && s.nodes[1].bound == Some(g) && MayHold(s.world, 1, s.nodes[1], cfg, g)
    ensures Untouched(2, s.nodes[2]) && Untouched(3, s.nodes[3])
  {
    hide ViewAt, Reachable, First, Whole, MayHold;
    var first := First(cfg.stale, g);
    var index := FirstReady(cfg.stale, g);
    WholePrefix(cfg.stale, g, h);
    s := WholeStage(cfg, g, h);
    FreshIsQuiet(1, s.nodes[1], |first|);
    s := ApplyUpTo(cfg, s, 1, |first|);
    assert s.world.log[index] == s.world.log[..|first|][index];
    Ripens(s, 1, index, g);
    s := BindAtOnce(cfg, s, 1, index);
  }

  /** What a node may hold depends on the clock, the log and itself. */
  lemma HoldStays(cfg: Config, w: World, v: World, id: NodeId, n: Node, g: nat)
    requires n.applied <= |w.log| && w.now == v.now && w.log == v.log && MayHold(w, id, n, cfg, g)
    ensures MayHold(v, id, n, cfg, g)
  {
    hide ViewAt;
  }

  /** Every gap lets two nodes in, in no time at all and with every withdrawal prompt. */
  lemma GapSplits(cfg: Config, g: nat, h: nat) returns (s: State)
    requires Leases(cfg) && Fits(cfg.stale, g, h)
    ensures BothMayHold(cfg, s, 1, g, Winner(g, h), h) && BothBound(cfg, s, 1, g, Winner(g, h), h)
  {
    hide ViewAt, PlacedByRule, Reachable, Whole, MayHold;
    var log, b := Whole(cfg.stale, g, h), Winner(g, h);
    WholeReady(cfg.stale, g, h);
    WholeReports(cfg.stale, g, h);
    s := FirstBinds(cfg, g, h);
    FreshIsQuiet(b, s.nodes[b], |log|);
    var t := ApplyUpTo(cfg, s, b, |log|);
    Ripens(t, b, |log| - 2, h);
    var w := s.world;
    s := BindAtOnce(cfg, t, b, |log| - 2);
    HoldStays(cfg, w, s.world, 1, s.nodes[1], g);
  }

  /** The smallest gap: one skipped generation is enough. */
  lemma SkippedGenerationSplits(cfg: Config)
    requires Leases(cfg) && cfg.stale >= 1 && 2 * cfg.stale + 24 < U64_MAX
    ensures exists s: State :: BothMayHold(cfg, s, 1, 1, 3, 3) && BothBound(cfg, s, 1, 1, 3, 3)
  {
    hide BothMayHold, BothBound;
    var s := GapSplits(cfg, 1, 3);
  }

  /**
   For every configuration and any two generations that fit the log: some reachable state whose log
   follows the placement rule lets two nodes hold them at once exactly when a generation lies between
   them; with prompt withdrawals the same is exact for the addresses on the interfaces.
   */
  lemma RivalsExactlyAcrossAGap(cfg: Config, g: nat, h: nat)
    requires Leases(cfg) && cfg.stale >= 1 && g <= h && 4 * h + 2 * cfg.stale + 12 < U64_MAX
    ensures (exists s, a, b :: BothMayHold(cfg, s, a, g, b, h)) <==> 1 <= g && g + 2 <= h
    ensures cfg.promptCleanup ==> ((exists s, a, b :: BothBound(cfg, s, a, g, b, h)) <==> 1 <= g && g + 2 <= h)
  {
    if s, a, b :| BothMayHold(cfg, s, a, g, b, h) {
      NoRivalPermission(cfg, s, a, g, b, h);
    }
    if cfg.promptCleanup {
      if s, a, b :| BothBound(cfg, s, a, g, b, h) {
        NoRivalAddress(cfg, s, a, g, b, h);
      }
    }
    hide BothMayHold, BothBound;
    if 1 <= g && g + 2 <= h {
      var s := GapSplits(cfg, g, h);
    }
  }
}
