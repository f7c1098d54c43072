# keepAfloatD in Dafny

keepAfloatD moves virtual IP addresses (VIPs) between nodes of a Raft cluster. This project models the
state machines its safety rests on and proves what they promise over all inputs and all runs.
`dafny verify dfyconfig.toml` checks everything.

## What is modelled

* **Authority** (`Permission`, `Authority`, `Lineage`): the quarantine, joining, voting, sealed cell with
  lazy expiry; the join binding on top of it; and both together with the proof lease of one process.
* **Proof lease** (`Freshness`): proofs timed from request start, two wrapping epochs, permits to acquire
  and to retain. Permits are compared with a history that knows no epochs.
* **Handoff** (`BindPolicy`, `Assignments`, `Handoff`, `HandoffGap`, `HandoffBoundary`): one committed log,
  a prefix applied by each node, the bind policy, captured intents and the takeover wait, as one step machine
  of the cluster.
* **Kernel effects** (`Children`, `LocalVip`, `Release`, `Shutdown`, `Completion`,
  `QuietRelease`): binds and unbinds as commands of children that can be killed and may act late,
  with the tracking sets and the child count.
* **Health** (`Health`, `Publication`): dampening, the latched bind fault, continuity tokens, and the loop
  that turns an applied proof into permission.
* **Agreement and codecs** (`Guard`, `Roster`, `VipTable`, `Fingerprint`, `Hello`, `ReplicaText`,
  `Connections`): the strike guard, quorum rosters, VIP normalization, canonical configuration bytes, the
  greeting and identity codecs, and permit counting.
* `Prelude`, `Identity`, `Sets`, `Order`, `Radix`, `Layout` and `Utf8` hold shared values and lemmas.

Objects whose methods update fields are classes whose methods are proved equal to a specification function;
the theorems are about those functions over every run. Time is a parameter of every step. Locks and watch
channels are atomic steps. `hide` statements only keep definitions out of a proof that does not need them.

## How the main results fit together

`PermitIsItsHistory` says what a permit means, `NoRevival` and `RefusalIsFinal` that a lapsed one never
returns. `NoRivalPermission` and `NoRivalAddress` keep an old holder and its direct successor apart under the
same permits: `HoldingNeedsProof` ties entitlement to a logged proof, `ReadyMeansCleared` a takeover to its end.
`Handoff` lets a node acknowledge a release only after its address is gone; `ReleaseIsFinal` and
`ReleaseLocalVips` show that the daemon acknowledges only then, and `TrackingIsComplete` that nothing it may
have placed is ever forgotten on the way.

Two properties are false as one might first state them, and each has its exact condition.

Exclusion of *every* two holders fails when a generation is assigned and moved on before anyone binds it;
`SkippedGenerationSplits` is the shortest such run. `RivalsExactlyAcrossAGap` is the boundary: in runs that
follow the placement rule, two nodes can hold generations g and h at once if and only if a generation lies
between them.

A reported unbind does not always mean the address stays away. `TrustworthyExactlyWhenQuiet` says when it does:
if and only if no child that may add it was left behind. A settled process has none (`SettledIsQuiet`), and
`AbandonedWriter` shows that an unsettled one may.

The proofs also show states a reader may not expect: an operation dropped between two tracking updates can
leave an address pending without being owned, and the next bind then counts as a first bind. The invariant
admits that state, and nothing is lost by it.

## Model

| member | source | states |
|---|---|---|
| `Permission.RuntimePermission.NoticeExpiry` | src/runtime_permission.rs:35-44 | an active cell at or past its deadline becomes sealed, and nothing else changes; the reply says whether it changed |
| `Permission.RuntimePermission.Admit` | src/runtime_permission.rs:59-74 | cold admission: out of quarantine, on time, into voting; every other case refuses and notices expiry |
| `Permission.RuntimePermission.Join` | src/runtime_permission.rs:77-102 | a learner starts out of quarantine, or extends exactly its own operation to a later deadline |
| `Permission.RuntimePermission.MarkPromoted` | src/runtime_permission.rs:105-125 | only an unexpired learner of exactly this operation becomes a voter, with the same deadline |
| `Permission.RuntimePermission.Renew` | src/runtime_permission.rs:128-147 | only an unexpired voter of the same context, never to an earlier deadline |
| `Permission.RuntimePermission.Current` | src/runtime_permission.rs:150-160 | the unexpired context and deadline, or none; the query itself seals an expired cell |
| `Permission.RuntimePermission.Seal` | src/runtime_permission.rs:163-172 | sealed from any state |
| `Permission.LazyExpiryIsExact` | src/runtime_permission.rs:35-172 | for every call sequence with nondecreasing times, the replies equal those of an independently written machine whose timer seals at the exact deadline |
| `Permission.RunFollows` | src/runtime_permission.rs:35-172 | over every run: sealed is terminal, an active deadline never shrinks, a voter never becomes a learner, an activated context is never replaced |
| `Authority.RuntimeAuthority.Accept` | src/runtime_permission/admission.rs:30-72 | a verified admission moves the permission cell and pins the join binding exactly as the specification function says, including every refusal |
| `Authority.RuntimeAuthority.MarkPromoted` | src/runtime_permission/admission.rs:75-149 | promotion needs a valid plan, a live authority for the consumer, the applied completion evidence and the pinned binding |
| `Authority.RuntimeAuthority.Check` | src/runtime_permission/admission.rs:178-186 | the deadline of the live authority that stands for exactly this context, or nothing |
| `Authority.StepKeeps` | src/runtime_permission/admission.rs:30-149 | each call keeps: a learner is bound to its operation, a binding never changes, and voting is entered only through a cold admission without binding or the promotion of the bound operation |
| `Authority.RouteToVoting` | src/runtime_permission/admission.rs:30-149 | every run from boot: the binding once set never changes, a learner's stage names its binding's log id, and a voting runtime passed one of the two doors |
| `Authority.AcceptedSessionIsLive` | src/runtime_permission/admission.rs:30-72 | an accepted admission passes its own check at once, with the accepted deadline |
| `Freshness.ConsensusFreshness.RecordApplied` | src/consensus_freshness.rs:105-157 | an applied proof is screened, ordered against its predecessor and installed; a stale or foreign predecessor starts a new invalidation epoch; the verdict is exact |
| `Freshness.ConsensusFreshness.MarkUnavailable` | src/consensus_freshness.rs:159-168 | an outage stops new acquisitions once and changes nothing else |
| `Freshness.ConsensusFreshness.Invalidate` | src/consensus_freshness.rs:170-176 | the proof is withdrawn and a new invalidation epoch begins |
| `Freshness.EpochsCount` | src/consensus_freshness.rs:105-176 | after any run both 64-bit epochs equal, modulo their width, the number of events that break a stretch or mark an outage |
| `Freshness.HistoryMatchesProof` | src/consensus_freshness.rs:105-176 | a stretch told without epochs (no invalidation, every accepted proof found its predecessor fresh and in its own context) is unbroken exactly when the epoch did not move |
| `Freshness.PermitMatchesHistory` | src/consensus_freshness/permits.rs:27-83 | for the lease alone, below 2^64 epoch changes: a permit checks true exactly when its deadline and authority hold, the certificate in force has not run out, its stretch is unbroken, and for an acquire permit no outage was marked since |
| `Freshness.CertificatesOnlyGrow` | src/consensus_freshness.rs:105-157 | whatever is recorded, the proof in force never has an earlier certificate than the earliest one recorded |
| `Freshness.NoRevival` | src/consensus_freshness/permits.rs:48-67 | a stamp refused once is refused after every later run, even if no call saw the expiry |
| `Freshness.OutageKeepsRetention` | src/consensus_freshness.rs:159-168 | an outage changes neither whether a binding may be kept nor until when |
| `Lineage.OneContextPerProcess` | src/consensus_freshness.rs:125-148 | authority and lease together: all proofs a process ever accepts share one context and have strictly increasing log indexes, across outages, invalidations and admissions |
| `Lineage.HeldAllAlong` | src/runtime_permission/admission.rs:178-186 | a context held at the end of a run was held at every earlier time past quarantine: authority is never restored |
| `Lineage.RefusalIsFinal` | src/consensus_freshness/permits.rs:48-67 | no revival with the authority's own history in place of an assumption about it |
| `Lineage.RenewalsAscend` | src/runtime_permission.rs:128-147 | any two renewals one process accepts, whatever happens between them, have nondecreasing deadlines |
| `Lineage.CertificatesAscend` | src/raft/admission/runtime/driver.rs:242-265 | proofs that carry the certificates of accepted renewals, in issue order, have nondecreasing certificates |
| `Lineage.PermitIsItsHistory` | src/consensus_freshness/permits.rs:27-83 | for a whole process from boot: a permit checks true exactly when its issue-time deadline has not passed, authority holds, its stretch is unbroken, and for an acquire permit no outage was marked since |
| `BindPolicy.TakeoverDelay.Ready` | src/vip/takeover.rs:22-66 | the wait for an unacknowledged predecessor: started, restarted and ended exactly as specified, and only this VIP's entry changes |
| `BindPolicy.WaitIsServed` | src/vip/takeover.rs:22-66 | a takeover without acknowledgement has waited the whole lifetime on one generation and one predecessor tick, with the predecessor's probe stale |
| `Assignments.AppliedMoves` | src/raft/store/state_machine.rs:130-315 | one log entry keeps generations and ticks below the log index and either keeps the generation and its holder or starts the next one with the last holder as predecessor |
| `Assignments.GenerationsGrow` | src/raft/store/vip_logic.rs:355-421 | along the log generations only grow and one generation has one holder |
| `Assignments.PreviousIsPredecessor` | src/raft/store/vip_logic.rs:355-421 | the recorded previous holder is the holder of the generation just before, across ownerless gaps |
| `Assignments.ReleaseIsLogged` | src/raft/store/state_machine.rs:130-293 | a handoff marked released was released by its own previous holder for its own generation |
| `Assignments.HoldoffIsServed` | src/bind_policy.rs:74-109 | a VIP that moved is not bound, under any gates and at any prefix, before another probe was committed after the move |
| `Handoff.ReadyMeansCleared` | src/vip/reconcile/worker.rs:138-170 | bind policy and takeover wait admit only a generation whose predecessor released, or all of whose predecessor's proofs have outlived lease and allowance |
| `Handoff.HoldingNeedsProof` | src/vip/witness.rs:23-59 | whoever may act or keep rests on a locally applied proof, logged no later than its own generation and inside its lifetime |
| `Handoff.ClearedExcludes` | src/bind_policy.rs:74-109 | once a generation is cleared, the holder of the one before may neither act nor keep, and with timely withdrawal its address is gone |
| `Handoff.StepKeeps` | src/vip/reconcile/worker.rs:40-303 | every step of every node keeps the cluster invariant |
| `Handoff.NoRivalPermission` | src/consensus_freshness/timing_tests.rs:85-174 | in every reachable state two nodes may hold a VIP at once only across a skipped generation that was neither released to nor outlived, so never bound; a holder and its direct successor exclude each other |
| `Handoff.NoRivalAddress` | README.md:202-215 | the same for addresses on interfaces when withdrawals finish within the reserved allowance |
| `HandoffBoundary.GapSplits` | src/raft/store/vip_logic.rs:109-203 | for every configuration and any two generations with one between them, a run in which every placement follows the rule reaches a state where two nodes may hold them and have bound them at once |
| `HandoffBoundary.SkippedGenerationSplits` | src/raft/store/vip_logic.rs:109-203 | one skipped generation is enough: for every configuration, placement by the rule reaches a state where node 1 holds generation 1 and node 3 holds generation 3 |
| `HandoffBoundary.RivalsExactlyAcrossAGap` | src/bind_policy.rs:74-109 | the exact boundary under the placement rule: some reachable state whose log follows it lets two nodes hold generations g and h at once if and only if a generation lies between them, and with prompt withdrawals the same for addresses |
| `Children.ChildTracker.Begin` | src/process.rs:338-340 | one more unsettled child |
| `Children.ChildTracker.Settle` | src/process.rs:342-345 | one fewer, saturating at zero |
| `Children.ChildTracker.Lose` | src/process.rs:348-350 | the loss is recorded and the count stays |
| `Children.TrackedRun.AbandonRun` | src/process.rs:405-411 | the first abandonment of a waited-for run counts it; any other changes nothing |
| `Children.TrackedRun.FinishRun` | src/process.rs:414-426 | the end of a run uncounts it when it was abandoned and reaped, counts it when its caller waited and it was not reaped, and records a loss |
| `Children.CountIsConserved` | src/process.rs:337-469 | after any interleaving of any number of runs the count is the abandoned unfinished runs plus the unreaped ones, settled means no unreaped child without a caller, a loss keeps the tracker unsettled for good |
| `Children.StepConserves` | src/process.rs:337-441 | one event keeps that account, and its subtraction never saturates |
| `LocalVip.TrackingSets.OwnAddress` | src/vip.rs:244-253 | ownership is recorded before the first command; whether this is a first bind is read before that |
| `LocalVip.TrackingSets.AwaitFirstBind` | src/vip.rs:254-256 | a first bind is pending until confirmed |
| `LocalVip.TrackingSets.MarkerFailed` | src/vip.rs:282-295 | an ambiguous marker failure keeps the address owned and pending, a clean one disowns it, a failed reassertion changes nothing |
| `LocalVip.TrackingSets.FinishBind` | src/vip.rs:341-361 | a confirmed first bind is no longer pending |
| `LocalVip.TrackingSets.NoteRecleanup` | src/vip.rs:464-468 | an unsettled cleanup is remembered before tracking goes |
| `LocalVip.TrackingSets.Disown` | src/vip.rs:469-469 | the address is no longer owned |
| `LocalVip.TrackingSets.ForgetPending` | src/vip.rs:470-470 | the address is no longer pending |
| `LocalVip.TrackingSets.ForgetRecleanup` | src/vip.rs:471-473 | only a cleanup that began settled forgets the earlier need for another |
| `Release.SettledIsQuiet` | src/vip.rs:426-430 | a settled process without an operation on an address has no child that could still add it |
| `Release.Proceeds` | src/vip.rs:227-475 | each step of a bind or unbind keeps what the operation relies on |
| `Release.Ends` | src/vip/ownership.rs:34-100 | each way a command can end keeps it, with delete results verified by the probe |
| `Release.StepKeeps` | src/vip.rs:227-475 | every event on every address (step, command end, cancellation, spawn failure, late kernel effect, reap) keeps the invariant of all addresses |
| `Release.TrackingIsComplete` | src/vip.rs:227-475 | in every reachable state, unless a killed child could not be reaped, an address or marker that is present or that a child may still add is tracked for cleanup |
| `Shutdown.FadingStep` | src/vip.rs:426-475 | once nobody can add an address, no event but a bind of that address brings it back, and a reported unbind leaves nothing |
| `Shutdown.ReleaseIsFinal` | src/vip/reconcile/worker.rs:88-128 | an unbind reported after a settled start leaves address and marker absent with no child able to add either, at every later point until the next bind |
| `Shutdown.QuietReleases` | src/vip.rs:426-475 | the same from any state in which no child may add the address |
| `QuietRelease.LateWriterReturns` | src/main.rs:130-139 | in every reachable state that left such a child behind, a run without a bind completes and reports the unbind and then has the address or its marker back |
| `QuietRelease.TrustworthyExactlyWhenQuiet` | src/vip.rs:426-475 | for a reachable, unlost process idle on the address, every run without a bind that reports an unbind ends with nothing left if and only if no child may still add the address at its start |
| `QuietRelease.AbandonedWriter` | src/main.rs:127-139 | the settled check is needed: for every address a bind cancelled at its address command leaves a reachable, unsettled process in which such a child remains |
| `Shutdown.UnbindOne` | src/vip.rs:504-528 | up to three attempts on one address, stopping at the first that reports; success means a reported unbind in the run |
| `Shutdown.UnbindAll` | src/vip.rs:492-544 | every address in turn; one is listed as failed if and only if none of its three attempts reported, and every other had a reported unbind |
| `Shutdown.ReleaseLocalVips` | src/main.rs:130-149 | cleanup succeeds exactly when every address had a reporting attempt, the acknowledgement is given exactly when the process was settled before and after, and both together mean every address is absent and no writer can re-add it |
| `Completion.BindCompletes` | src/vip.rs:227-339 | from every state in which a bind may begin, the undisturbed bind ends with address and marker in place, owned and confirmed, and no other address touched |
| `Completion.UnbindCompletes` | src/vip.rs:426-475 | from every idle state that tracks the address, the undisturbed unbind leaves nothing; only an unsettled start keeps it for another cleanup |
| `Health.FailureDampener.Observe` | src/health.rs:39-54 | one probe: success resets, an established node gets its grace, a node that never succeeded does not |
| `Health.DampenerIsItsHistory` | src/health.rs:28-60 | for every probe sequence health is true exactly when a success occurred and at most the delay many failures follow the latest one |
| `Health.FailuresSinceLatest` | src/health.rs:28-60 | what that count means: the latest success and nothing but failures after it |
| `Health.UnboundedGrace` | src/health.rs:28-60 | at the counter's limit the grace would never end, so the bound on the delay is needed |
| `Health.ProbeRounds` | src/config.rs:417-424 | the least number of probe intervals that covers a duration, below the counter's limit for every loadable configuration |
| `Health.LocalHealth.ObserveProbe` | src/health/local.rs:85-95 | the probe result is stored, a loss of effective health starts a new epoch, the previous health is returned |
| `Health.LocalHealth.FailBinding` | src/health/local.rs:99-110 | the first fault latches and ends health; later ones change nothing |
| `Health.ContinuityIsUnbroken` | src/health/local.rs:38-42 | a token checks after any run exactly when health is good now, never dropped since and the epoch has not run out; one taken while healthy checks only if health held throughout |
| `Health.FirstFaultDecides` | src/health/local.rs:97-130 | a fault is permanent, the first one decides, and a restart is requested exactly when it was a timeout |
| `Publication.Publisher.RecordProbe` | src/health_publication.rs:161-174 | an applied proof is recorded only when activation is ready; a rejected or unready one withdraws permission |
| `Publication.Publisher.Sense` | src/health_publication.rs:97-116 | the probe half of an iteration: an unreported bind fault comes before the probe, the dampener before local health |
| `Publication.Publisher.Iterate` | src/health_publication.rs:96-158 | one turn of the loop for any probe, readiness and publish outcome |
| `Publication.OnlyAuthorizedRoundsPermit` | src/health_publication.rs:96-174 | after an iteration a new binding can be authorized exactly when that same iteration published, was activation-ready afterwards and had its healthy proof accepted, and the permit is for that proof |
| `Publication.UnhealthyRoundRevokes` | src/health_publication.rs:112-116 | an unhealthy iteration authorizes nothing and ends every permit issued before it |
| `Publication.FaultEndsPermission` | src/health_publication.rs:96-158 | once a bind fault is latched no later iteration of any run authorizes new bindings |
| `Publication.WithdrawalNeverPermits` | src/vip/reconcile.rs:144-148 | withdrawals by other tasks only take permission away |
| `Guard.LargestForeignGroup` | src/raft/probe.rs:82-95 | the map loop returns the size of the largest group of reports naming one foreign identity |
| `Guard.LargestIsMaximum` | src/raft/probe.rs:82-112 | that size is a maximum: no foreign identity has more reports and, unless zero, one has exactly that many |
| `Guard.ConsecutiveMajority.Observe` | src/raft/probe.rs:131-138 | a majority round adds a saturating strike, any other resets |
| `Guard.ClusterGuard.Observe` | src/raft/guard.rs:65-81 | configuration first, then epochs for a node that knows its own; a configuration fence leaves the epoch strikes alone |
| `Guard.VerdictIsTheLastRounds` | src/raft/guard.rs:42-81 | up to the first fence the verdict says exactly what the last required rounds all showed, and configuration wins ties |
| `Guard.ConfigFenceSparesTheMajority` | src/raft/control.rs:41-108 | with truthful peers and any pattern of silence, a configuration fence implies one coherent majority none of whose members ever fences itself over configuration |
| `Guard.EpochFenceSparesTheMajority` | src/raft/control.rs:17-17 | an epoch fence implies, in the round of the fence, one coherent majority at another epoch none of whose members sees a foreign epoch majority |
| `Guard.RunClusterGuard` | src/raft/control.rs:41-108 | the loop stops at the first fence, with the verdict the last three rounds showed |
| `Guard.MajoritySeesNoMajority` | src/raft/probe.rs:82-95 | a member of a majority group never sees a foreign majority |
| `Guard.SmallRostersNeverFence` | src/raft/guard.rs:10-12 | rosters of one or two never fence, over configuration or epoch |
| `ReplicaText.Print` | src/raft/admission.rs:44-52 | sixteen hexadecimal digits, a colon, two digits for each nonce byte |
| `ReplicaText.Parse` | src/raft/admission.rs:54-81 | exactly the canonical 81-byte texts are accepted |
| `ReplicaText.PrintedParses` | src/raft/admission.rs:44-81 | every valid identity is parsed back from its text |
| `ReplicaText.ParsedPrints` | src/raft/admission.rs:44-81 | every accepted text is the printed form of what it parses to |
| `Hello.WriteGreeting` | src/auth.rs:138-160 | the 110 bytes are written field by field at the source's offsets |
| `Hello.ReadGreeting` | src/auth.rs:162-216 | the three reads, each refusal in order, and the decoded peer |
| `Hello.GreetingIsRead` | src/auth.rs:138-216 | every greeting is read back as the same bytes and sender, whatever follows it |
| `Hello.AcceptedIsGreeting` | src/auth.rs:138-216 | every accepted greeting is exactly the encoding of what it decodes to |
| `Connections.PhaseAdmission.TryBegin` | src/connection_admission.rs:22-31 | an unauthenticated permit, or nothing taken |
| `Connections.PhaseAdmission.TryAuthenticate` | src/connection_admission.rs:40-45 | success exchanges one permit for the other; a refusal takes nothing |
| `Connections.SourceLimits` | src/admission.rs:22-32 | eight connections for every configured peer behind an address, and no budget for any other address |
| `Connections.StepConserves` | src/submit.rs:318-325 | each acquire, exchange, refusal or drop keeps available plus held equal to the limit of every pool |
| `Connections.PermitsAreConserved` | src/submit.rs:400-405 | over every interleaving of global and per-source permits no limit is exceeded, nothing leaks, and all capacity is back once every connection is closed |
| `Roster.RostersIntersect` | src/raft/admission.rs:121-132 | two rosters valid for one configured set have boots of one physical member in common |
| `Roster.OneBootPerMember` | src/raft/admission.rs:121-132 | a valid roster never holds two boots of one member |
| `VipTable.Config.NormalizeVips` | src/config/vip_validation.rs:15-78 | accepts exactly the lists whose entries are all valid and agree on each address, and then holds the canonical, sorted, deduplicated list |
| `VipTable.TableHoldsEveryBinding` | src/config.rs:409-414 | the table has strictly increasing addresses and holds every canonical binding exactly once |
| `VipTable.OnlyBindingsMatter` | src/config/vip_validation.rs:15-78 | acceptance of valid entries and the resulting table depend only on the set of canonical bindings, not on order, repetition, mapped notation or VLAN spelling |
| `VipTable.OrderDoesNotMatter` | src/config/vip_validation.rs:74-75 | lists with the same entries in any order and number are accepted alike and yield the same table |
| `VipTable.NormalizationIsIdempotent` | src/config/vip_validation.rs:15-78 | normalizing again accepts and changes nothing |
| `Fingerprint.CanonicalBytes.PutSocket` | src/config/fingerprint.rs:84-98 | address family tag, address, port, and for IPv6 flow and scope |
| `Fingerprint.CanonicalBytes.PutPeers` | src/config/fingerprint.rs:115-131 | the counted list of peers with canonical endpoints |
| `Fingerprint.CanonicalBytes.PutTable` | src/config/fingerprint.rs:136-142 | the counted list of effective bindings |
| `Fingerprint.CanonicalBytes.PutConfig` | src/config/fingerprint.rs:112-163 | the loops fill the buffer with the canonical bytes of the configuration |
| `Fingerprint.EncodingIsExact` | src/config/fingerprint.rs:32-99 | the tagged, counted and length-prefixed encoding is injective |
| `Fingerprint.BytesIdentifyTheCluster` | src/config/fingerprint.rs:112-164 | two loaded configurations have the same canonical bytes exactly when they agree on peers up to order and notation, effective VIP table, probe rounds, Raft timing, frame cap and effective delays |

## Left out

- RivalsExactlyAcrossAGap: leaves out generations near the 64-bit limit, since the run across the gap takes about four log entries for each generation and two for each round of staleness.
- GapSplits: under the same bound on generations, and with proofs that live at least one instant.
- NoRivalAddress: assumes that a withdrawal finishes within the reconcile tick and cleanup budget the daemon reserves; commands that outlast their budget are not modelled there.
- PermitMatchesHistory: speaks about the lease alone, where nothing keeps certificates from running backwards; `PermitIsItsHistory` states the result for a whole process without that clause.
- PermitIsItsHistory: takes from the publication loop that proofs are recorded one after another, in the order in which their renewals were accepted.
- ReleaseIsFinal: speaks about runs in which no killed child was lost; after a loss the tracker never settles again and the daemon never acknowledges.
- UnbindAll: what happens while an attempt waits is a parameter, since every wait is a point where other tasks run.
- UnhealthyRoundRevokes: leaves out withdrawals by other tasks inside the iteration; `WithdrawalNeverPermits` covers their effect.
- NormalizeVips: the text of an error and the half-rewritten list after one are not specified, since the caller discards the configuration.
- EpochFenceSparesTheMajority: speaks about the round of the fence and takes the peers' answers of that round as one snapshot, since epochs change while the guard runs.
- Binds and unbinds are a step machine on values rather than methods that run to completion, because the caller can be dropped at every wait; the sets they update are the class `TrackingSets`.
- Dry-run mode, neighbor announcements, notify hooks and interface names play no part in kernel effects.
- Presence probes are atomic with the end of the command they verify; a probe that fails to run is an unverified result.
- OpenRaft, elections and snapshots. The safety results hold whatever the log says placement chose.
- Placement is spelled out in `Place` for one VIP over three voters, where two nodes hold at once. The recovery delay of failback is not part of it: `Place` is exact when failback is off or has no delay. Several VIPs and their balance are not modelled.
- Restarts: a node of the handoff model runs once; crash recovery from kernel markers is not part of this model.
- Clocks of different nodes run at one rate in the handoff model.
- Text parsing of addresses, YAML, SHA-256, HMAC and entropy: digests are abstract functions, and collision freedom on genesis descriptors is assumed only where a lemma names it.
- The authentication handshake beyond the greeting, sockets, framing, reconnects, listener backoff and the frame byte budget.
- Reading the secret, the roster family and endpoint checks of configuration loading, and systemd notification.
- The proof lifetime is a parameter; how it is derived from the probe cadence is not modelled.
- The log-only flag for a committed bind fault in the publication loop.
