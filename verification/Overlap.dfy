/** What the invariant of the resolver is for: commits and elections always share a node. */
module Overlap {
  import opened Names
  import opened QuorumState

  /** A group of `/sync` members big enough to elect: the quorum, and one more. */
  predicate Elects(s: State, electors: set<Name>) {
    electors <= Electorate(s) && |electors| >= s.quorum + 1
  }

  /** The nodes holding a commit that was acknowledged: the primary and `numsync` listed standbys, perhaps others. */
  predicate Acknowledges(s: State, holders: set<Name>) {
    s.leaderWanted in holders && |holders * s.sync| >= s.numsync
  }

  /** No election can be won without a holder of every acknowledged commit. */
  ghost predicate Overlaps(s: State) {
    forall electors, holders :: Elects(s, electors) && Acknowledges(s, holders) ==> electors * holders != {}
  }

  /** The two sets together are small enough. Without voters the check itself skips this. */
  predicate FewEnough(s: State) {
    |Electorate(s) + Holders(s)| <= s.quorum + s.numsync + 1
  }

  /** The states a cluster is meant to be in: counts in range, nobody its own standby, and the invariant,
      with the size check waived only when the primary alone can be elected. */
  predicate Guarded(s: State) {
    && Invariant(s)
    && s.quorum >= 0 && s.numsync <= |s.sync|
    && s.leader !in s.voters && s.leaderWanted !in s.sync
    && (FewEnough(s) || (s.voters == {} && s.leader == s.leaderWanted))
  }

  lemma {:induction false} FewEnoughOverlaps(s: State)
    requires FewEnough(s) && s.leaderWanted !in s.sync
    ensures Overlaps(s)
  {
    forall electors, holders | Elects(s, electors) && Acknowledges(s, holders)
      ensures electors * holders != {}
    {
      var acked := holders * Holders(s);
      assert acked == holders * s.sync + {s.leaderWanted};
      assert |acked| == |holders * s.sync| + 1;
      Pigeonhole(electors, acked, Electorate(s) + Holders(s));
      var node :| node in electors * acked;
      assert node in electors * holders;
    }
  }

  /** When all members of the key must agree, the primary is among them. */
  lemma AllNeededOverlaps(s: State)
    requires s.leader == s.leaderWanted && s.quorum >= |s.voters|
    ensures Overlaps(s)
  {
    forall electors, holders | Elects(s, electors) && Acknowledges(s, holders)
      ensures electors * holders != {}
    {
      SubsetCard(electors, Electorate(s));
      assert |Electorate(s)| <= |s.voters| + 1;
      assert s.leader in electors * holders;
    }
  }

  lemma GuardedOverlaps(s: State)
    requires Guarded(s)
    ensures Overlaps(s)
  {
    if FewEnough(s) {
      FewEnoughOverlaps(s);
    } else {
      AllNeededOverlaps(s);
    }
  }

  /** A pair of disjoint groups, when the counts leave room for one. */
  lemma DisjointGroups(s: State) returns (electors: set<Name>, holders: set<Name>)
    requires s.leader == s.leaderWanted && s.leader !in s.voters + s.sync
    requires 0 <= s.quorum < |s.voters| && 0 <= s.numsync <= |s.sync|
    requires |s.voters + s.sync| > s.quorum + s.numsync
    ensures Elects(s, electors) && Acknowledges(s, holders) && electors * holders == {}
  {
    var unlisted := s.voters - s.sync;
    PairCard(s.voters, s.sync);
    if |unlisted| > s.quorum {
      electors := SubsetOfSize(unlisted, s.quorum + 1);
    } else {
      var listed := SubsetOfSize(s.voters * s.sync, s.quorum + 1 - |unlisted|);
      electors := unlisted + listed;
      DisjointCard(unlisted, listed);
    }
    assert |s.sync - electors| >= s.numsync by {
      RestOfList(s, electors, unlisted);
    }
    holders := SubsetOfSize(s.sync - electors, s.numsync);
    assert (holders + {s.leader}) * s.sync == holders;
    holders := holders + {s.leader};
  }

  /** Electors taken from outside the list first leave as much of it as possible. */
  lemma RestOfList(s: State, electors: set<Name>, unlisted: set<Name>)
    requires unlisted == s.voters - s.sync && electors <= s.voters && |electors| == s.quorum + 1
    requires electors <= unlisted || unlisted <= electors
    requires |s.voters + s.sync| > s.quorum + s.numsync && s.numsync <= |s.sync|
    ensures |s.sync - electors| >= s.numsync
  {
    PairCard(s.sync, electors);
    PairCard(electors, s.sync);
    PairCard(s.voters, s.sync);
    assert s.sync * electors == electors * s.sync;
    if electors <= unlisted {
      assert electors * s.sync == {};
    } else {
      assert electors - s.sync == unlisted;
    }
  }

  lemma InvariantPlaced(s: State)
    requires s.leader == s.leaderWanted && s.leader !in s.voters + s.sync
    ensures Invariant(s) <==>
            && (s.voters != {} ==> |s.voters + s.sync| <= s.quorum + s.numsync)
            && (s.voters <= s.sync || s.sync <= s.voters)
    ensures FewEnough(s) <==> |s.voters + s.sync| <= s.quorum + s.numsync
  {
    assert Electorate(s) + Holders(s) == (s.voters + s.sync) + {s.leader};
    assert Electorate(s) <= Holders(s) ==> s.voters <= s.sync by {
      if Electorate(s) <= Holders(s) {
        forall x | x in s.voters
          ensures x in s.sync
        {
          assert x in Electorate(s);
        }
      }
    }
    assert Holders(s) <= Electorate(s) ==> s.sync <= s.voters by {
      if Holders(s) <= Electorate(s) {
        forall x | x in s.sync
          ensures x in s.voters
        {
          assert x in Holders(s);
        }
      }
    }
  }

  /** Where a node of the electorate can really be out-voted, the check is exact: it accepts a state
      precisely when every electing group meets every acknowledging group. */
  lemma InvariantIsOverlap(s: State)
    requires s.leader == s.leaderWanted && s.leader !in s.voters + s.sync
    requires 0 <= s.quorum < |s.voters| && 0 <= s.numsync <= |s.sync|
    requires s.voters <= s.sync || s.sync <= s.voters
    ensures Invariant(s) <==> Overlaps(s)
  {
    InvariantPlaced(s);
    if Invariant(s) {
      assert s.voters != {};
      GuardedOverlaps(s);
    } else {
      var electors, holders := DisjointGroups(s);
      assert Elects(s, electors) && Acknowledges(s, holders);
    }
  }
}
