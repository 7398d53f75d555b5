/** The leader race: how a node counts votes, and what winning them proves about its WAL position. */
module Election {
  import opened Names
  import opened QuorumState
  import opened Overlap

  /** What a node answered, or failed to answer. */
  datatype MemberStatus = MemberStatus(
    name: Name, reachable: bool, nofailover: bool, watchdogFailed: bool,
    inRecovery: Option<bool>, wal: int, priority: int)
  {
    /** Nothing keeps this node from being promoted. */
    predicate CanPromote() {
      reachable && !nofailover && !watchdogFailed
    }
  }

  /** The candidate, and the `/sync` key it read. */
  datatype Contest = Contest(
    me: Name, wal: int, priority: int,
    syncActive: bool, quorumActive: bool,
    keyLeader: Option<Name>, voters: set<Name>, quorum: int,
    formerLeader: Option<Name>)
  {
    function VotingSet(): set<Name> {
      if !quorumActive then {} else if keyLeader.Some? then voters + {keyLeader.value} else {}
    }

    function LeaderName(): Option<Name> {
      if syncActive then keyLeader else formerLeader
    }
  }

  predicate Ahead(c: Contest, st: MemberStatus) {
    st.CanPromote() && c.wal < st.wal
  }

  /** A node that is up, is not ahead, and is asked for its vote. */
  predicate Votes(c: Contest, st: MemberStatus) {
    st.CanPromote() && !Ahead(c, st) && st.wal > 0 && st.name in c.VotingSet()
  }

  /** An equally advanced node with a higher priority, unless it is the former leader. */
  predicate Preferred(c: Contest, st: MemberStatus) {
    && st.CanPromote() && st.wal > 0
    && c.wal == st.wal && c.priority < st.priority
    && c.LeaderName() != Some(st.name)
  }

  /** A status that ends the race for this candidate. */
  predicate Vetoes(c: Contest, st: MemberStatus) {
    st.CanPromote() &&
    ( || st.inRecovery == Some(false)
      || (Ahead(c, st) && !(c.syncActive && c.keyLeader == Some(st.name)))
      || (Preferred(c, st) && (!c.quorumActive || st.name in c.VotingSet())))
  }

  function Supporters(c: Contest, statuses: seq<MemberStatus>): set<Name> {
    set st | st in statuses && Votes(c, st) :: st.name
  }

  /** One answer per member, and the candidate does not ask itself. */
  predicate Answers(c: Contest, statuses: seq<MemberStatus>) {
    && (forall i :: 0 <= i < |statuses| ==> statuses[i].name != c.me)
    && (forall i, j :: 0 <= i < j < |statuses| ==> statuses[i].name != statuses[j].name)
  }

  /** Enough members of the key agree that the candidate is not behind them. */
  predicate WinsVotes(c: Contest, statuses: seq<MemberStatus>) {
    |Supporters(c, statuses)| - (if c.me in c.VotingSet() then 0 else 1) >= c.quorum
  }

  /** The former leader needs no votes when it sees nobody ahead. */
  predicate KeepsLead(c: Contest, statuses: seq<MemberStatus>) {
    c.keyLeader == Some(c.me) && forall st :: st in statuses ==> !Ahead(c, st)
  }

  lemma SupportersStep(c: Contest, statuses: seq<MemberStatus>, i: nat)
    requires Answers(c, statuses) && i < |statuses|
    ensures Supporters(c, statuses[..i + 1]) ==
            Supporters(c, statuses[..i]) + (if Votes(c, statuses[i]) then {statuses[i].name} else {})
    ensures statuses[i].name !in Supporters(c, statuses[..i])
  {
    assert statuses[..i + 1] == statuses[..i] + [statuses[i]];
  }

  /** What the answer of one node means for the candidate. */
  method Ask(c: Contest, st: MemberStatus) returns (veto: bool, ahead: bool, vote: bool)
    ensures veto == Vetoes(c, st) && ahead == Ahead(c, st)
    ensures !veto ==> vote == Votes(c, st)
  {
    veto, ahead, vote := false, false, false;
    if st.CanPromote() {
      ahead := c.wal < st.wal;
      if st.inRecovery == Some(false) {
        veto := true;
      } else if ahead {
        veto := !c.syncActive || c.keyLeader != Some(st.name);
      } else if st.wal > 0 {
        vote := st.name in c.VotingSet();
        var lowPriority := c.wal == st.wal && c.priority < st.priority;
        if lowPriority && c.LeaderName() == Some(st.name) {
          lowPriority := false;
        }
        veto := lowPriority && (!c.quorumActive || vote);
      }
    }
  }

  // ---------------------------------------------------------------- what the answers mean

  /** A node in the key that was read. */
  predicate Member(c: Contest, name: Name) {
    c.keyLeader.Some? && (name in c.voters || name == c.keyLeader.value)
  }

  /** The node that was primary before: by the key in synchronous mode, else by what this node remembers. */
  predicate WasLeader(c: Contest, name: Name) {
    if c.syncActive then c.keyLeader == Some(name) else c.formerLeader == Some(name)
  }

  /** An answer from a node that can be promoted. One that still runs as a primary ends the race; so does one that is
      ahead, unless it is the key's leader in synchronous mode; and so does an equally advanced one with a higher
      priority, unless it was the leader or, under quorum commit, has no vote. Nothing else does. */
  predicate Lets(c: Contest, st: MemberStatus) {
    && st.inRecovery != Some(false)
    && (st.wal <= c.wal || (c.syncActive && c.keyLeader == Some(st.name)))
    && (st.wal == c.wal && st.wal > 0 && st.priority > c.priority ==>
          WasLeader(c, st.name) || (c.quorumActive && !Member(c, st.name)))
  }

  lemma NobodyVetoes(c: Contest, statuses: seq<MemberStatus>)
    ensures (forall st :: st in statuses ==> !Vetoes(c, st)) <==>
              forall st :: st in statuses && st.reachable && !st.nofailover && !st.watchdogFailed ==> Lets(c, st)
  {
    forall st | st in statuses
      ensures Vetoes(c, st) <==> st.reachable && !st.nofailover && !st.watchdogFailed && !Lets(c, st)
    {}
  }

  /** Nobody becomes primary beside a running one, or with less than a node that could take over instead. */
  lemma NoSecondPrimary(c: Contest, statuses: seq<MemberStatus>, st: MemberStatus)
    requires st in statuses && st.reachable && !st.nofailover && !st.watchdogFailed
    requires forall x :: x in statuses ==> !Vetoes(c, x)
    ensures st.inRecovery != Some(false)
    ensures st.wal <= c.wal || (c.syncActive && c.keyLeader == Some(st.name))
  {
    assert !Vetoes(c, st);
  }

  /** A vote comes from a member of the key, under quorum commit, that can be promoted, reports a position, and is not
      ahead. */
  lemma WhoVotes(c: Contest, statuses: seq<MemberStatus>, name: Name)
    ensures name in Supporters(c, statuses) <==>
              c.quorumActive && Member(c, name) &&
              exists st :: st in statuses && st.name == name
                           && st.reachable && !st.nofailover && !st.watchdogFailed && 0 < st.wal <= c.wal
  {
    if c.quorumActive && Member(c, name) {
      if st :| st in statuses && st.name == name
               && st.reachable && !st.nofailover && !st.watchdogFailed && 0 < st.wal <= c.wal {
        assert Votes(c, st);
      }
    }
  }

  /** The former leader keeps the lead if the key names it and nobody that can be promoted is ahead. */
  lemma WhoKeepsLead(c: Contest, statuses: seq<MemberStatus>)
    ensures KeepsLead(c, statuses) <==>
              && c.keyLeader == Some(c.me)
              && forall st :: st in statuses && st.reachable && !st.nofailover && !st.watchdogFailed ==> st.wal <= c.wal
  {
    assert forall st :: Ahead(c, st) <==> st.reachable && !st.nofailover && !st.watchdogFailed && c.wal < st.wal;
  }

  // ---------------------------------------------------------------- the vote loop

  /** The vote loop decides exactly this: every node that can be promoted lets this one, and under quorum commit the votes
      suffice or the former leader keeps its lead. */
  method IsHealthiestNode(c: Contest, lagging: bool, timelineBehind: bool, statuses: seq<MemberStatus>) returns (healthy: bool)
    requires Answers(c, statuses)
    ensures healthy <==>
              && !lagging && !timelineBehind
              && (forall st :: st in statuses && st.reachable && !st.nofailover && !st.watchdogFailed ==> Lets(c, st))
              && (!c.quorumActive || WinsVotes(c, statuses) || KeepsLead(c, statuses))
  {
    hide Vetoes, Ahead, Votes, Supporters, Lets;
    NobodyVetoes(c, statuses);
    if lagging || timelineBehind {
      return false;
    }
    var quorumVotes := if c.me in c.VotingSet() then 0 else -1;
    var nodesAhead := 0;
    NoSupporters(c);
    assert statuses[..0] == [];
    for i := 0 to |statuses|
      invariant forall j :: 0 <= j < i ==> !Vetoes(c, statuses[j])
      invariant quorumVotes == |Supporters(c, statuses[..i])| - (if c.me in c.VotingSet() then 0 else 1)
      invariant nodesAhead >= 0
      invariant nodesAhead == 0 <==> forall j :: 0 <= j < i ==> !Ahead(c, statuses[j])
    {
      SupportersStep(c, statuses, i);
      var veto, ahead, vote := Ask(c, statuses[i]);
      if veto {
        assert statuses[i] in statuses;
        return false;
      }
      if ahead {
        nodesAhead := nodesAhead + 1;
      }
      if vote {
        quorumVotes := quorumVotes + 1;
      }
    }
    assert statuses[..|statuses|] == statuses;
    healthy := !c.quorumActive || quorumVotes >= c.quorum || (nodesAhead == 0 && c.keyLeader == Some(c.me));
  }

  lemma NoSupporters(c: Contest)
    ensures Supporters(c, []) == {}
  {}

  /** The candidate read this key. */
  predicate Reads(c: Contest, s: State) {
    c.quorumActive && c.syncActive && c.keyLeader == Some(s.leader) && c.voters == s.voters && c.quorum == s.quorum
  }

  /** No node reports less than the position it acknowledged. */
  predicate Truthful(c: Contest, statuses: seq<MemberStatus>, holders: set<Name>, position: int) {
    && (c.me in holders ==> c.wal >= position)
    && (forall st :: st in statuses && st.name in holders ==> st.wal >= position)
  }

  /** Every group that can elect under this key contains one of the holders. */
  ghost predicate Meets(s: State, holders: set<Name>) {
    forall electors :: Elects(s, electors) ==> electors * holders != {}
  }

  /** A node that gathers the quorum has asked a holder, or is one. */
  lemma WinnerAsksHolder(s: State, c: Contest, statuses: seq<MemberStatus>, holders: set<Name>, position: int)
    requires Meets(s, holders) && Reads(c, s) && Answers(c, statuses) && WinsVotes(c, statuses)
    requires Truthful(c, statuses, holders, position)
    ensures c.wal >= position
  {
    var mine: set<Name> := if c.me in c.VotingSet() then {c.me} else {};
    var supporters := Supporters(c, statuses);
    var electors := supporters + mine;
    assert c.me !in supporters;
    assert c.VotingSet() == Electorate(s);
    assert Elects(s, electors);
    assert electors * holders != {};
    var node :| node in electors * holders;
    if node != c.me {
      var st :| st in statuses && Votes(c, st) && st.name == node;
    }
  }

  lemma WinnerMeetsHolders(s: State, c: Contest, statuses: seq<MemberStatus>, holders: set<Name>, position: int)
    requires Overlaps(s) && Reads(c, s) && Answers(c, statuses) && WinsVotes(c, statuses)
    requires Acknowledges(s, holders) && Truthful(c, statuses, holders, position)
    ensures c.wal >= position
  {
    assert Meets(s, holders);
    WinnerAsksHolder(s, c, statuses, holders, position);
  }

  /** No committed position is lost by an election won on votes: in every guarded state, whoever gathers the
      quorum holds each position acknowledged by the primary and `numsync` of its standbys. */
  lemma VotesHoldCommits(s: State, c: Contest, statuses: seq<MemberStatus>, holders: set<Name>, position: int)
    requires Guarded(s) && Reads(c, s) && Answers(c, statuses) && WinsVotes(c, statuses)
    requires Acknowledges(s, holders) && Truthful(c, statuses, holders, position)
    ensures c.wal >= position
  {
    hide Invariant, FewEnough, Guarded, WinsVotes, Answers, Truthful, Acknowledges, Overlaps;
    GuardedOverlaps(s);
    WinnerMeetsHolders(s, c, statuses, holders, position);
  }

  /** Whoever wins on votes holds every acknowledged position, whatever the nodes report. */
  ghost predicate Safe(s: State) {
    forall c, statuses, holders, position ::
      (Reads(c, s) && Answers(c, statuses) && WinsVotes(c, statuses)
       && Acknowledges(s, holders) && Truthful(c, statuses, holders, position)) ==> c.wal >= position
  }

  /** One answer of an equally advanced standby from each of the nodes. */
  lemma {:induction false} Ballots(nodes: set<Name>) returns (statuses: seq<MemberStatus>)
    ensures forall i :: 0 <= i < |statuses| ==> statuses[i].name in nodes
    ensures forall i, j :: 0 <= i < j < |statuses| ==> statuses[i].name != statuses[j].name
    ensures forall n :: n in nodes ==> MemberStatus(n, true, false, false, Some(true), 1, 0) in statuses
    decreases |nodes|
  {
    statuses := [];
    if nodes != {} {
      var n :| n in nodes;
      statuses := Ballots(nodes - {n});
      statuses := statuses + [MemberStatus(n, true, false, false, Some(true), 1, 0)];
    }
  }

  /** A group that elects can really make one of its members win, with nothing but its own position. */
  lemma GroupWins(s: State, electors: set<Name>) returns (c: Contest, statuses: seq<MemberStatus>)
    requires Elects(s, electors) && electors != {}
    ensures Reads(c, s) && Answers(c, statuses) && WinsVotes(c, statuses)
    ensures c.wal == 1 && c.me in electors && forall st :: st in statuses ==> st.name in electors
  {
    hide Preferred, Vetoes;
    var me :| me in electors;
    c := Contest(me, 1, 0, true, true, Some(s.leader), s.voters, s.quorum, None);
    statuses := Ballots(electors - {me});
    assert c.VotingSet() == Electorate(s);
    forall n | n in electors - {me}
      ensures n in Supporters(c, statuses)
    {
      assert Votes(c, MemberStatus(n, true, false, false, Some(true), 1, 0));
    }
    SubsetCard(electors - {me}, Supporters(c, statuses));
  }

  /** Votes are safe when all members of the key are needed, or when key and list are small enough together. */
  predicate Covered(s: State) {
    s.quorum >= |s.voters| || |s.voters + s.sync| <= s.quorum + s.numsync
  }

  /** Under a key that names the primary, and for any two sets, this is exact. */
  lemma SafeExact(s: State)
    requires s.leader == s.leaderWanted && s.leader !in s.voters + s.sync
    requires s.quorum >= 0 && 0 <= s.numsync <= |s.sync|
    ensures Safe(s) <==> Covered(s)
  {
    if Covered(s) {
      assert Overlaps(s) by {
        CoveredOverlaps(s);
      }
      forall c, statuses, holders, position |
        Reads(c, s) && Answers(c, statuses) && WinsVotes(c, statuses)
        && Acknowledges(s, holders) && Truthful(c, statuses, holders, position)
        ensures c.wal >= position
      {
        WinnerMeetsHolders(s, c, statuses, holders, position);
      }
    } else {
      var electors, holders := DisjointGroups(s);
      var c, statuses := GroupWins(s, electors);
      assert Truthful(c, statuses, holders, 2);
    }
  }

  lemma CoveredOverlaps(s: State)
    requires Covered(s) && s.leader == s.leaderWanted && s.leader !in s.voters + s.sync
    ensures Overlaps(s)
  {
    if s.quorum >= |s.voters| {
      AllNeededOverlaps(s);
    } else {
      InvariantPlaced(s);
      FewEnoughOverlaps(s);
    }
  }

  /** The check of the resolver is exact for the vote count: it accepts the registers precisely when no
      node can win the race without all acknowledged positions. */
  lemma InvariantIsSafety(s: State)
    requires s.leader == s.leaderWanted && s.leader !in s.voters + s.sync
    requires 0 <= s.quorum < |s.voters| && 0 <= s.numsync <= |s.sync|
    requires s.voters <= s.sync || s.sync <= s.voters
    ensures Invariant(s) <==> Safe(s)
  {
    hide Safe;
    InvariantPlaced(s);
    SafeExact(s);
  }

  /** Once the key names the running primary, the same holds however the race was won. */
  lemma WinnerHoldsCommits(s: State, c: Contest, statuses: seq<MemberStatus>, holders: set<Name>, position: int)
    requires Guarded(s) && Reads(c, s) && Answers(c, statuses)
    requires WinsVotes(c, statuses) || KeepsLead(c, statuses)
    requires s.leader == s.leaderWanted
    requires Acknowledges(s, holders) && Truthful(c, statuses, holders, position)
    ensures c.wal >= position
  {
    if WinsVotes(c, statuses) {
      VotesHoldCommits(s, c, statuses, holders, position);
    }
  }

  /** Whoever keeps the lead without votes holds every acknowledged position. */
  ghost predicate LeadSafe(s: State) {
    forall c, statuses, holders, position ::
      (Reads(c, s) && Answers(c, statuses) && KeepsLead(c, statuses)
       && Acknowledges(s, holders) && Truthful(c, statuses, holders, position)) ==> c.wal >= position
  }

  /** The former leader may keep the lead without votes exactly when it is the running primary, or when the
      running primary waits for every standby of a list that names it. */
  lemma LeadSafeExact(s: State)
    requires Guarded(s)
    ensures LeadSafe(s) <==> s.leader == s.leaderWanted || (s.leader in s.sync && s.numsync == |s.sync|)
  {
    hide Invariant, FewEnough;
    if s.leader == s.leaderWanted {
    } else if s.leader in s.sync && s.numsync == |s.sync| {
      forall holders | Acknowledges(s, holders)
        ensures s.leader in holders
      {
        SubsetCard(holders * s.sync, s.sync);
        assert s.leader in holders * s.sync;
      }
    } else {
      var others := s.sync - {s.leader};
      assert s.leader !in s.sync ==> others == s.sync;
      var chosen := SubsetOfSize(others, if s.numsync >= 0 then s.numsync else 0);
      var holders := chosen + {s.leaderWanted};
      assert holders * s.sync == chosen;
      var c := Contest(s.leader, 1, 0, true, true, Some(s.leader), s.voters, s.quorum, None);
      assert Reads(c, s) && Answers(c, []) && KeepsLead(c, []);
      assert Acknowledges(s, holders) && Truthful(c, [], holders, 2);
    }
  }

  /** While the key still names the previous leader, that leader can win without votes and without the
      commits of its successor: here node 2 took over from node 1 and committed with node 3. */
  lemma FormerLeaderMissesCommits()
    ensures exists s: State, c, holders ::
              && Guarded(s) && Reads(c, s) && s.leader != s.leaderWanted && KeepsLead(c, [])
              && Acknowledges(s, holders) && Truthful(c, [], holders, 200) && c.wal < 200
  {
    var s := State(1, 1, {2, 3}, 1, {1, 3}, 0, {}, 1, 2, []);
    var c := Contest(1, 100, 1, true, true, Some(1), {2, 3}, 1, None);
    assert Electorate(s) + Holders(s) == {1, 2, 3};
    assert Electorate(s) <= Holders(s);
    var holders: set<Name> := {2, 3};
    assert holders * s.sync == {3};
    assert Guarded(s) && Reads(c, s) && KeepsLead(c, []);
    assert Acknowledges(s, holders) && Truthful(c, [], holders, 200) && c.wal < 200;
  }
}
