/** Volatile replica identities, the immutable admission context and log positions. */
module Identity {
  import opened Prelude

  type Digest = seq<Byte>

  /** A configured physical member and one exact boot of it. */
  datatype ReplicaId = ReplicaId(physicalId: nat, bootNonce: seq<Byte>)

  /** A log position; `leader` is the rank of the proposing leader in the leaders' total order. */
  datatype LogId = LogId(leader: nat, index: nat)

  /** The derived order of log positions: leader first, then index. */
  predicate AtMost(a: LogId, b: LogId) {
    a.leader < b.leader || (a.leader == b.leader && a.index <= b.index)
  }

  datatype Genesis = Genesis(config: Digest, epoch: nat, voters: set<ReplicaId>)

  datatype AdmissionContext = AdmissionContext(localReplica: ReplicaId, genesis: Genesis)

  datatype JoinPlan = JoinPlan(
    genesis: Genesis,
    consumer: ReplicaId,
    requestNonce: seq<Byte>,
    previousVoters: set<ReplicaId>,
    nextVoters: set<ReplicaId>)

  datatype PreparedJoin = PreparedJoin(plan: JoinPlan, prepared: LogId, learnerApplied: Option<LogId>)

  datatype CompletedJoin = CompletedJoin(prepared: PreparedJoin, promoted: LogId)

  datatype JoinBinding = JoinBinding(logId: LogId, planDigest: Digest)

  /** SHA-256 over the canonical genesis and over the canonical join plan, kept abstract. */
  datatype Hash = Hash(genesis: Genesis -> Digest, plan: JoinPlan -> Digest)

  /** Collision freedom on genesis descriptors, assumed only where a theorem names it. */
  ghost predicate CollisionFree(hash: Hash) {
    forall a: Genesis, b: Genesis :: hash.genesis(a) == hash.genesis(b) ==> a == b
  }
}
