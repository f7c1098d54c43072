/** Genesis rosters: exact boots of a distinct configured physical majority. */
module Roster {
  import opened Identity
  import Sets

  function Physical(voters: set<ReplicaId>): set<nat> {
    set v | v in voters :: v.physicalId
  }

  /** One boot for each physical member, all configured, more than half of the configured set. */
  predicate ValidRoster(voters: set<ReplicaId>, configured: set<nat>) {
    && |Physical(voters)| == |voters|
    && Physical(voters) <= configured
    && |Physical(voters)| > |configured| / 2
  }

  /** Any two rosters valid for one configured set have boots of one physical member in common. */
  lemma RostersIntersect(a: set<ReplicaId>, b: set<ReplicaId>, configured: set<nat>)
    returns (x: ReplicaId, y: ReplicaId)
    requires ValidRoster(a, configured) && ValidRoster(b, configured)
    ensures x in a && y in b && x.physicalId == y.physicalId
  {
    if Physical(a) !! Physical(b) {
      Sets.DisjointWithin(Physical(a), Physical(b), configured);
      assert false;
    }
    var id :| id in Physical(a) && id in Physical(b);
    x :| x in a && x.physicalId == id;
    y :| y in b && y.physicalId == id;
  }

  /** A valid roster never holds two boots of one member. */
  lemma {:induction false} OneBootPerMember(voters: set<ReplicaId>, x: ReplicaId, y: ReplicaId)
    requires |Physical(voters)| == |voters| && x in voters && y in voters && x.physicalId == y.physicalId
    ensures x == y
  {
    if x != y {
      assert Physical(voters) == Physical(voters - {x}) by {
        forall id | id in Physical(voters) ensures id in Physical(voters - {x}) {
          var v :| v in voters && v.physicalId == id;
          assert (if v == x then y else v) in voters - {x};
        }
      }
      ImageSize(voters - {x});
    }
  }

  lemma {:induction false} ImageSize(voters: set<ReplicaId>)
    ensures |Physical(voters)| <= |voters|
    decreases voters
  {
    if voters != {} {
      var v :| v in voters;
      ImageSize(voters - {v});
      assert Physical(voters) == Physical(voters - {v}) + {v.physicalId};
    }
  }
}
