/** Whose votes and timeouts a node has counted. For every round it has not left, the makers hold
    exactly the authors of the verified messages delivered to it, with its own; hence a node never
    misses a quorum it has heard. */
module Tallies {
  import opened Committees
  import opened Messages
  import opened Aggregation
  import opened Safety
  import opened LeaderElection
  import opened Chains
  import opened Replicas
  import opened Protocol
  import opened Duties

  /** A run together with which node handled what. */
  ghost predicate IsTrace(sys: System, run: seq<Global>, moves: seq<(Key, Event)>) {
    && |run| == |moves| + 1 && Init(sys, run[0])
    && (forall i :: 0 <= i < |moves| ==>
          Enabled(sys, run[i], moves[i].0, moves[i].1) && run[i + 1] == Apply(sys, run[i], moves[i].0, moves[i].1))
  }

  /** Every run is one with some moves, and nothing else is. */
  lemma TraceIsRun(sys: System, run: seq<Global>, moves: seq<(Key, Event)>)
    requires IsTrace(sys, run, moves)
    ensures IsRun(sys, run)
  {
    hide Deliverable, Handle, Init;
    forall i | 0 < i < |run| ensures Next(sys, run[i - 1], run[i]) {
      var k, e := moves[i - 1].0, moves[i - 1].1;
      assert run[i - 1 + 1] == run[i];
      assert Enabled(sys, run[i - 1], k, e) && run[i] == Apply(sys, run[i - 1], k, e);
    }
  }

  lemma {:induction false} RunHasTrace(sys: System, run: seq<Global>) returns (moves: seq<(Key, Event)>)
    requires IsRun(sys, run)
    ensures IsTrace(sys, run, moves)
    decreases |run|
  {
    hide Deliverable, Handle, Init;
    if |run| == 1 {
      moves := [];
    } else {
      var front := run[..|run| - 1];
      forall i | 0 < i < |front| ensures Next(sys, front[i - 1], front[i]) {
        assert Next(sys, run[i - 1], run[i]);
      }
      var before := RunHasTrace(sys, front);
      var g, g' := run[|run| - 2], run[|run| - 1];
      assert Next(sys, g, g');
      var k, e :| Enabled(sys, g, k, e) && g' == Apply(sys, g, k, e);
      moves := before + [(k, e)];
      forall i | 0 <= i < |moves|
        ensures Enabled(sys, run[i], moves[i].0, moves[i].1) && run[i + 1] == Apply(sys, run[i], moves[i].0, moves[i].1)
      {
        if i < |before| {
          assert front[i] == run[i] && front[i + 1] == run[i + 1];
        }
      }
    }
  }

  // ----- who has been heard -----

  ghost predicate HearsVote(c: Committee, e: Event, r: nat, d: Digest) {
    e.VoteMsg? && ValidVote(c, e.vote) && e.vote.round == r && VoteDigestOf(e.vote) == d
  }

  ghost predicate HearsTimeout(c: Committee, e: Event, r: nat) {
    e.TimeoutMsg? && ValidTimeout(c, e.timeout) && e.timeout.round == r
  }

  /** Authors of the verified votes for this round and digest that were delivered to the node. */
  ghost function VotesHeard(c: Committee, moves: seq<(Key, Event)>, k: Key, r: nat, d: Digest): set<Key> {
    set i | 0 <= i < |moves| && moves[i].0 == k && HearsVote(c, moves[i].1, r, d) :: moves[i].1.vote.author
  }

  ghost function TimeoutsHeard(c: Committee, moves: seq<(Key, Event)>, k: Key, r: nat): set<Key> {
    set i | 0 <= i < |moves| && moves[i].0 == k && HearsTimeout(c, moves[i].1, r) :: moves[i].1.timeout.author
  }

  ghost predicate VoteSigned(signings: seq<Signing>, r: nat, d: Digest) {
    exists x :: x in signings && x.VoteFor? && x.block.round == r && SignedDigest(x) == d
  }

  ghost predicate TimeoutSigned(signings: seq<Signing>, r: nat) {
    exists x :: x in signings && x.TimeoutAt? && x.round == r
  }

  /** The node counts its own vote if it leads the next round; it must have stake. */
  ghost function OwnVote(n: Node, signings: seq<Signing>, r: nat, d: Digest): set<Key> {
    if VoteSigned(signings, r, d) && Leader(n.committee, r + 1) == n.name && n.committee.StakeOf(n.name) > 0
    then {n.name} else {}
  }

  ghost function OwnTimeout(n: Node, signings: seq<Signing>, r: nat): set<Key> {
    if TimeoutSigned(signings, r) && n.committee.StakeOf(n.name) > 0 then {n.name} else {}
  }

  ghost function VoteTally(s: Replica, r: nat, d: Digest): set<Key> { VoteMaker(s.aggregator, r, d).used }
  ghost function TimeoutTally(s: Replica, r: nat): set<Key> { TimeoutMaker(s.aggregator, r).used }

  // ----- handlers -----

  lemma AppendUsed(c: Committee, m: QcMaker, v: Vote)
    ensures AppendVote(c, m, v).0.used == m.used + {v.author}
    ensures AppendVote(c, m, v).1.Made? ==> AppendVote(c, m, v).1.certificate.round == v.round
  {
    hide Threshold;
    if v.author in m.used {
      assert m.used + {v.author} == m.used;
    }
  }

  lemma AppendTimeoutUsed(c: Committee, m: TcMaker, t: Timeout)
    ensures AppendTimeout(c, m, t).0.used == m.used + {t.author}
    ensures AppendTimeout(c, m, t).1.Made? ==> AppendTimeout(c, m, t).1.certificate.round == t.round
  {
    hide Threshold;
    if t.author in m.used {
      assert m.used + {t.author} == m.used;
    }
  }

  lemma ProposeKeepsMakers(n: Node, s: Replica, tc: Option<TC>)
    ensures var s' := ProposeIfLeader(n, s, tc);
            && s'.aggregator == s.aggregator && s'.round == s.round
            && s'.signings == s.signings && s'.lastVoted == s.lastVoted
  {
    hide Leader;
  }

  lemma VoteCounts(n: Node, s: Replica, v: Vote, r: nat, d: Digest)
    requires r >= HandleVote(n, s, v).round
    ensures var s' := HandleVote(n, s, v);
            && s'.round >= s.round && s'.signings == s.signings && s'.lastVoted == s.lastVoted
            && (s'.round == s.round || s'.round == v.round + 1)
            && VoteTally(s', r, d)
               == VoteTally(s, r, d) + (if HearsVote(n.committee, VoteMsg(v), r, d) then {v.author} else {})
            && TimeoutTally(s', r) == TimeoutTally(s, r)
  {
    hide ValidVote, AddVote, AppendVote, ProcessQC, ProposeIfLeader, VoteMaker, TimeoutMaker;
    if v.round >= s.round && ValidVote(n.committee, v) {
      var (aggregator, out) := AddVote(n.committee, s.aggregator, v);
      AddVoteExact(n.committee, s.aggregator, v, r, d);
      AddVoteExact(n.committee, s.aggregator, v, v.round, VoteDigestOf(v));
      AppendUsed(n.committee, VoteMaker(s.aggregator, v.round, VoteDigestOf(v)), v);
      var added := s.(aggregator := aggregator);
      if out.Made? {
        ProcessQCKeepsMakers(added, out.certificate);
        ProcessQCFrame(added, out.certificate);
        ProposeKeepsMakers(n, ProcessQC(added, out.certificate), None);
      }
    }
  }

  lemma TimeoutCounts(n: Node, s: Replica, t: Timeout, r: nat, d: Digest)
    requires r >= HandleTimeout(n, s, t).round
    ensures var s' := HandleTimeout(n, s, t);
            && s'.round >= s.round && s'.signings == s.signings && s'.lastVoted == s.lastVoted
            && VoteTally(s', r, d) == VoteTally(s, r, d)
            && TimeoutTally(s', r)
               == TimeoutTally(s, r) + (if HearsTimeout(n.committee, TimeoutMsg(t), r) then {t.author} else {})
  {
    hide ValidTimeout, AddTimeout, AppendTimeout, ProcessQC, AdvanceRound, ProposeIfLeader, VoteMaker, TimeoutMaker;
    if t.round >= s.round && ValidTimeout(n.committee, t) {
      var informed := ProcessQC(s, t.highQC);
      ProcessQCKeepsMakers(s, t.highQC);
      ProcessQCFrame(s, t.highQC);
      var (aggregator, out) := AddTimeout(n.committee, informed.aggregator, t);
      AddTimeoutExact(n.committee, informed.aggregator, t, r, d);
      AddTimeoutExact(n.committee, informed.aggregator, t, t.round, d);
      AppendTimeoutUsed(n.committee, TimeoutMaker(informed.aggregator, t.round), t);
      var added := informed.(aggregator := aggregator);
      if out.Made? {
        AdvanceKeepsMakers(added, out.certificate.round);
        AdvanceFrame(added, out.certificate.round);
        ProposeKeepsMakers(n, AdvanceRound(added, out.certificate.round), Some(out.certificate));
      }
    }
  }

  lemma TCCounts(n: Node, s: Replica, tc: TC, r: nat, d: Digest)
    requires r >= HandleTC(n, s, tc).round
    ensures var s' := HandleTC(n, s, tc);
            && s'.round >= s.round && s'.signings == s.signings
            && VoteTally(s', r, d) == VoteTally(s, r, d) && TimeoutTally(s', r) == TimeoutTally(s, r)
  {
    hide ValidTC, AdvanceRound, ProposeIfLeader, VoteMaker, TimeoutMaker;
    AdvanceKeepsMakers(s, tc.round);
    AdvanceFrame(s, tc.round);
    ProposeKeepsMakers(n, AdvanceRound(s, tc.round), Some(tc));
  }

  lemma OwnVoteIsValid(n: Node, b: Block)
    ensures ValidVote(n.committee, NewVote(n, b)) <==> n.committee.StakeOf(n.name) > 0
  {
  }

  /** Signing a vote for a block, counting it if the node leads the next round. */
  lemma OwnVoteCounts(n: Node, a: Replica, b: Block, r: nat, d: Digest)
    requires var s' := VoteIfSafe(n, a, b); r >= s'.round && s'.lastVoted <= s'.round
    ensures var s' := VoteIfSafe(n, a, b);
            && s'.round >= a.round && a.signings <= s'.signings
            && VoteTally(s', r, d) == VoteTally(a, r, d) + OwnVote(n, s'.signings[|a.signings|..], r, d)
            && TimeoutTally(s', r) == TimeoutTally(a, r) && OwnTimeout(n, s'.signings[|a.signings|..], r) == {}
  {
    hide HandleVote, Leader, VoteMaker, TimeoutMaker, CanVote, ValidVote;
    var s' := VoteIfSafe(n, a, b);
    if CanVote(a, b) {
      CanVoteRound(a, b);
      OwnVoteIsValid(n, b);
      var signed := SignVote(n, a, b);
      assert signed.signings[|a.signings|..] == [VoteFor(n.name, b)];
      OneSigned(b, n.name, r, d);
      if n.name == Leader(n.committee, a.round + 1) {
        VoteCounts(n, signed, NewVote(n, b), r, d);
      }
    } else {
      assert s'.signings[|a.signings|..] == [];
    }
  }

  lemma CanVoteRound(a: Replica, b: Block)
    requires CanVote(a, b)
    ensures Max(a.lastVoted, b.round) == b.round
  {
  }

  lemma OneSigned(b: Block, k: Key, r: nat, d: Digest)
    ensures VoteSigned([VoteFor(k, b)], r, d) <==> b.round == r && VoteDigest(DigestOf(b), b.round) == d
    ensures !TimeoutSigned([VoteFor(k, b)], r)
  {
    assert VoteFor(k, b) in [VoteFor(k, b)];
  }

  /** Processing an admitted block counts at most the node's own vote. */
  lemma BlockCounts(n: Node, a: Replica, b: Block, r: nat, d: Digest)
    requires var s' := ProcessBlock(n, a, b); r >= s'.round && s'.lastVoted <= s'.round
    ensures var s' := ProcessBlock(n, a, b);
            && s'.round >= a.round && a.signings <= s'.signings
            && VoteTally(s', r, d) == VoteTally(a, r, d) + OwnVote(n, s'.signings[|a.signings|..], r, d)
            && TimeoutTally(s', r) == TimeoutTally(a, r) && OwnTimeout(n, s'.signings[|a.signings|..], r) == {}
  {
    hide VoteIfSafe, VoteTally, TimeoutTally, OwnVote, OwnTimeout, CommitWalk;
    NothingSigned(n, a.signings, r, d);
    if Parent(a.store, b).Some? && Parent(a.store, Parent(a.store, b).value).Some? {
      var b1 := Parent(a.store, b).value;
      var committed := StoreAndCommit(a, b, b1, Parent(a.store, b1).value);
      SameTallies(a, committed, r, d);
      if committed.health.Running? {
        OwnVoteCounts(n, committed, b, r, d);
      }
    } else {
      SameTallies(a, ProcessBlock(n, a, b), r, d);
    }
  }

  lemma SameTallies(s: Replica, s': Replica, r: nat, d: Digest)
    requires s'.aggregator == s.aggregator
    ensures VoteTally(s', r, d) == VoteTally(s, r, d) && TimeoutTally(s', r) == TimeoutTally(s, r)
  {
  }

  lemma ProposalCounts(n: Node, s: Replica, b: Block, ready: bool, r: nat, d: Digest)
    requires var s' := HandleProposal(n, s, b, ready); r >= s'.round && s'.lastVoted <= s'.round
    ensures var s' := HandleProposal(n, s, b, ready);
            && s'.round >= s.round && s.signings <= s'.signings
            && VoteTally(s', r, d) == VoteTally(s, r, d) + OwnVote(n, s'.signings[|s.signings|..], r, d)
            && TimeoutTally(s', r) == TimeoutTally(s, r) && OwnTimeout(n, s'.signings[|s.signings|..], r) == {}
  {
    hide ProcessBlock, ProcessCertificates, VoteMaker, TimeoutMaker, ValidBlock, Leader;
    var a := Admit(ProcessCertificates(s, b), b);
    CertificatesExact(s, b);
    assert s.signings[|s.signings|..] == [];
    if ready && b.author == Leader(n.committee, b.round) && ValidBlock(n.committee, b) {
      BlockCounts(n, a, b, r, d);
    }
  }

  lemma TimerCounts(n: Node, s: Replica, r: nat, d: Digest)
    requires AcceptableQC(n.committee, s.highQC) && r >= LocalTimeoutRound(n, s).round
    ensures var s' := LocalTimeoutRound(n, s);
            && s'.round >= s.round && s.signings <= s'.signings
            && VoteTally(s', r, d) == VoteTally(s, r, d) && OwnVote(n, s'.signings[|s.signings|..], r, d) == {}
            && TimeoutTally(s', r) == TimeoutTally(s, r) + OwnTimeout(n, s'.signings[|s.signings|..], r)
  {
    hide HandleTimeout, VoteMaker, TimeoutMaker, AcceptableQC, Leader;
    TimeoutCounts(n, SignTimeout(n, s), NewTimeout(n, s), r, d);
    var x := TimeoutAt(n.name, s.round, s.highQC.round);
    assert (s.signings + [x])[|s.signings|..] == [x] && x in [x];
  }

  /** What one event adds to the tallies of the rounds the node has not left. */
  ghost predicate Counts(n: Node, s: Replica, e: Event, s': Replica, r: nat, d: Digest) {
    && s'.round >= s.round && s.signings <= s'.signings
    && VoteTally(s', r, d) == VoteTally(s, r, d) + (if HearsVote(n.committee, e, r, d) then {e.vote.author} else {})
                              + OwnVote(n, s'.signings[|s.signings|..], r, d)
    && TimeoutTally(s', r) == TimeoutTally(s, r) + (if HearsTimeout(n.committee, e, r) then {e.timeout.author} else {})
                              + OwnTimeout(n, s'.signings[|s.signings|..], r)
  }

  lemma NothingSigned(n: Node, signings: seq<Signing>, r: nat, d: Digest)
    ensures OwnVote(n, signings[|signings|..], r, d) == {} && OwnTimeout(n, signings[|signings|..], r) == {}
  {
    assert signings[|signings|..] == [];
  }

  lemma EventCounts(n: Node, s: Replica, e: Event, r: nat, d: Digest)
    requires AcceptableQC(n.committee, s.highQC)
    requires var s' := Handle(n, s, e); r >= s'.round && s'.lastVoted <= s'.round
    ensures Counts(n, s, e, Handle(n, s, e), r, d)
  {
    hide HandleProposal, HandleVote, HandleTimeout, HandleTC, LocalTimeoutRound, ProcessBlock, AcceptableQC, OwnVote,
         OwnTimeout,
         ValidVote, ValidTimeout, VoteMaker, TimeoutMaker;
    NothingSigned(n, s.signings, r, d);
    match e
    case ProposeMsg(b, ready) => ProposalCounts(n, s, b, ready, r, d);
    case Loopback(b) => BlockCounts(n, Admit(s, b), b, r, d);
    case VoteMsg(v) => VoteCounts(n, s, v, r, d);
    case TimeoutMsg(t) => TimeoutCounts(n, s, t, r, d);
    case TcMsg(tc) => TCCounts(n, s, tc, r, d);
    case TimerFired => TimerCounts(n, s, r, d);
  }

  // ----- the law over whole runs -----

  ghost predicate TallyLaw(n: Node, s: Replica, moves: seq<(Key, Event)>) {
    && (forall r: nat, d: Digest :: r >= s.round ==>
          VoteTally(s, r, d) == VotesHeard(n.committee, moves, n.name, r, d) + OwnVote(n, s.signings, r, d))
    && (forall r: nat :: r >= s.round ==>
          TimeoutTally(s, r) == TimeoutsHeard(n.committee, moves, n.name, r) + OwnTimeout(n, s.signings, r))
  }

  lemma HeardSnoc(c: Committee, moves: seq<(Key, Event)>, x: (Key, Event), k: Key, r: nat, d: Digest)
    ensures VotesHeard(c, moves + [x], k, r, d)
            == VotesHeard(c, moves, k, r, d) + (if x.0 == k && HearsVote(c, x.1, r, d) then {x.1.vote.author} else {})
  {
    hide ValidVote;
    var more := moves + [x];
    forall i | 0 <= i < |moves| ensures more[i] == moves[i] {
    }
    forall a | a in VotesHeard(c, moves, k, r, d) ensures a in VotesHeard(c, more, k, r, d) {
      var i :| 0 <= i < |moves| && moves[i].0 == k && HearsVote(c, moves[i].1, r, d) && moves[i].1.vote.author == a;
      assert more[i] == moves[i];
    }
    assert more[|moves|] == x;
  }

  lemma TimeoutsHeardSnoc(c: Committee, moves: seq<(Key, Event)>, x: (Key, Event), k: Key, r: nat)
    ensures TimeoutsHeard(c, moves + [x], k, r)
            == TimeoutsHeard(c, moves, k, r)
               + (if x.0 == k && HearsTimeout(c, x.1, r) then {x.1.timeout.author} else {})
  {
    hide ValidTimeout;
    var more := moves + [x];
    forall i | 0 <= i < |moves| ensures more[i] == moves[i] {
    }
    forall a | a in TimeoutsHeard(c, moves, k, r) ensures a in TimeoutsHeard(c, more, k, r) {
      var i :| 0 <= i < |moves| && moves[i].0 == k && HearsTimeout(c, moves[i].1, r) && moves[i].1.timeout.author == a;
      assert more[i] == moves[i];
    }
    assert more[|moves|] == x;
  }

  lemma OwnSplits(n: Node, signings: seq<Signing>, signings': seq<Signing>, r: nat, d: Digest)
    requires signings <= signings'
    ensures OwnVote(n, signings', r, d) == OwnVote(n, signings, r, d) + OwnVote(n, signings'[|signings|..], r, d)
    ensures OwnTimeout(n, signings', r) == OwnTimeout(n, signings, r) + OwnTimeout(n, signings'[|signings|..], r)
  {
    hide Leader;
    var rest := signings'[|signings|..];
    assert signings' == signings + rest;
    assert forall x :: x in signings' <==> x in signings || x in rest;
  }

  lemma LawStep(n: Node, s: Replica, e: Event, moves: seq<(Key, Event)>)
    requires TallyLaw(n, s, moves) && AcceptableQC(n.committee, s.highQC)
    requires Handle(n, s, e).lastVoted <= Handle(n, s, e).round
    ensures TallyLaw(n, Handle(n, s, e), moves + [(n.name, e)])
  {
    hide Handle, AcceptableQC, OwnVote, OwnTimeout, VotesHeard, TimeoutsHeard, HearsVote, HearsTimeout, VoteTally,
         TimeoutTally;
    var s', more := Handle(n, s, e), moves + [(n.name, e)];
    forall r: nat, d: Digest | r >= s'.round
      ensures VoteTally(s', r, d) == VotesHeard(n.committee, more, n.name, r, d) + OwnVote(n, s'.signings, r, d)
    {
      LawStepAt(n, s, e, moves, r, d);
    }
    forall r: nat | r >= s'.round
      ensures TimeoutTally(s', r) == TimeoutsHeard(n.committee, more, n.name, r) + OwnTimeout(n, s'.signings, r)
    {
      LawStepAt(n, s, e, moves, r, Zero);
    }
  }

  lemma LawStepAt(n: Node, s: Replica, e: Event, moves: seq<(Key, Event)>, r: nat, d: Digest)
    requires TallyLaw(n, s, moves) && AcceptableQC(n.committee, s.highQC)
    requires var s' := Handle(n, s, e); r >= s'.round && s'.lastVoted <= s'.round
    ensures var s', more := Handle(n, s, e), moves + [(n.name, e)];
            && VoteTally(s', r, d) == VotesHeard(n.committee, more, n.name, r, d) + OwnVote(n, s'.signings, r, d)
            && TimeoutTally(s', r) == TimeoutsHeard(n.committee, more, n.name, r) + OwnTimeout(n, s'.signings, r)
  {
    hide Handle, AcceptableQC, OwnVote, OwnTimeout, VotesHeard, TimeoutsHeard, HearsVote, HearsTimeout, VoteTally,
         TimeoutTally;
    EventCounts(n, s, e, r, d);
    HeardSnoc(n.committee, moves, (n.name, e), n.name, r, d);
    TimeoutsHeardSnoc(n.committee, moves, (n.name, e), n.name, r);
    OwnSplits(n, s.signings, Handle(n, s, e).signings, r, d);
  }

  /** An event elsewhere changes nothing a node has heard. */
  lemma LawElsewhere(n: Node, s: Replica, moves: seq<(Key, Event)>, x: (Key, Event))
    requires TallyLaw(n, s, moves) && x.0 != n.name
    ensures TallyLaw(n, s, moves + [x])
  {
    hide OwnVote, OwnTimeout, VotesHeard, TimeoutsHeard, HearsVote, HearsTimeout, VoteTally, TimeoutTally;
    forall r: nat, d: Digest
      ensures VotesHeard(n.committee, moves + [x], n.name, r, d) == VotesHeard(n.committee, moves, n.name, r, d)
    {
      HeardSnoc(n.committee, moves, x, n.name, r, d);
    }
    forall r: nat
      ensures TimeoutsHeard(n.committee, moves + [x], n.name, r) == TimeoutsHeard(n.committee, moves, n.name, r)
    {
      TimeoutsHeardSnoc(n.committee, moves, x, n.name, r);
    }
  }

  lemma LawStarts(n: Node)
    ensures TallyLaw(n, Start(n), [])
  {
    hide Leader;
    assert Start(n).aggregator == NEW_AGGREGATOR && Start(n).signings == [];
  }

  lemma LadderFacts(sys: System, g: Global, k: Key)
    requires GlobalInv(sys, g) && k in g.nodes
    ensures AcceptableQC(sys.committee, g.nodes[k].highQC) && g.nodes[k].lastVoted <= g.nodes[k].round
  {
    hide LogInv, EvidenceOf, AggregatorInv, BlocksInv, StoreInv, ProposalsInv, LogRemembered, AcceptableQC, GenuineQC;
    assert Inv(NodeOf(sys, k), EvidenceOf(sys, g.log), g.nodes[k]);
  }

  /** In every state of every run: for each round a node has not left, its makers hold exactly the
      authors of the verified votes and timeouts delivered to it, with its own. */
  lemma {:induction false} TalliesExact(sys: System, run: seq<Global>, moves: seq<(Key, Event)>, i: nat, k: Key)
    requires ValidSystem(sys) && IsTrace(sys, run, moves) && i < |run| && k in run[i].nodes
    ensures TallyLaw(NodeOf(sys, k), run[i].nodes[k], moves[..i])
  {
    hide ValidSystem, GlobalInv, Handle, Deliverable, Start, TallyLaw, AcceptableQC;
    if i == 0 {
      LawStarts(NodeOf(sys, k));
      assert moves[..0] == [];
    } else {
      var g, x := run[i - 1], moves[i - 1];
      assert run[i] == run[i - 1 + 1] == Apply(sys, g, x.0, x.1);
      assert moves[..i] == moves[..i - 1] + [x];
      TraceIsRun(sys, run, moves);
      RunInv(sys, run, i - 1);
      RunInv(sys, run, i);
      TalliesExact(sys, run, moves, i - 1, k);
      if x.0 == k {
        LadderFacts(sys, g, k);
        LadderFacts(sys, run[i], k);
        LawStep(NodeOf(sys, k), g.nodes[k], x.1, moves[..i - 1]);
      } else {
        LawElsewhere(NodeOf(sys, k), g.nodes[k], moves[..i - 1], x);
      }
    }
  }

  // ----- no quorum is missed -----

  /** No maker of a round the node has not left holds a quorum. */
  ghost predicate NoQuorum(n: Node, s: Replica) {
    && (forall r: nat, d: Digest :: r >= s.round ==> !IsQuorum(n.committee, VoteTally(s, r, d)))
    && (forall r: nat :: r >= s.round ==> !IsQuorum(n.committee, TimeoutTally(s, r)))
  }

  lemma NoQuorumKept(n: Node, s: Replica, a: Replica)
    requires NoQuorum(n, s) && a.round >= s.round && MakersKept(s, a)
    ensures NoQuorum(n, a)
  {
    hide IsQuorum, VoteMaker, TimeoutMaker;
    forall r: nat, d: Digest | r >= a.round ensures VoteTally(a, r, d) == VoteTally(s, r, d) {
    }
    forall r: nat | r >= a.round ensures TimeoutTally(a, r) == TimeoutTally(s, r) {
    }
  }

  lemma VoteMissesNothing(n: Node, ok: Evidence, s: Replica, v: Vote)
    requires Sound(n.committee) && Inv(n, ok, s) && NoQuorum(n, s)
    ensures NoQuorum(n, HandleVote(n, s, v))
  {
    hide Sound, Inv, HandleVote, IsQuorum, ValidVote, VoteMaker, TimeoutMaker, Leader;
    var s' := HandleVote(n, s, v);
    VoteQuorumAdvances(n, ok, s, v);
    forall r: nat, d: Digest | r >= s'.round ensures !IsQuorum(n.committee, VoteTally(s', r, d)) {
      VoteCounts(n, s, v, r, d);
      assert VoteTally(s, r, d) + {} == VoteTally(s, r, d);
    }
    forall r: nat | r >= s'.round ensures !IsQuorum(n.committee, TimeoutTally(s', r)) {
      VoteCounts(n, s, v, r, Zero);
    }
  }

  lemma TimeoutMissesNothing(n: Node, ok: Evidence, s: Replica, t: Timeout)
    requires Sound(n.committee) && Inv(n, ok, s) && NoQuorum(n, s)
    requires ValidTimeout(n.committee, t) ==> CertificatesOk(n.committee, ok, t.highQC, None)
    ensures NoQuorum(n, HandleTimeout(n, s, t))
  {
    hide Sound, Inv, HandleTimeout, IsQuorum, ValidTimeout, CertificatesOk, VoteMaker, TimeoutMaker, Leader, ProcessQC,
         TimeoutProposal;
    var s' := HandleTimeout(n, s, t);
    TimeoutQuorumAdvances(n, ok, s, t);
    ProcessQCKeepsMakers(s, t.highQC);
    forall r: nat, d: Digest | r >= s'.round ensures !IsQuorum(n.committee, VoteTally(s', r, d)) {
      TimeoutCounts(n, s, t, r, d);
    }
    forall r: nat | r >= s'.round ensures !IsQuorum(n.committee, TimeoutTally(s', r)) {
      TimeoutCounts(n, s, t, r, Zero);
      assert TimeoutTally(s, r) + {} == TimeoutTally(s, r);
    }
  }

  lemma TCMissesNothing(n: Node, s: Replica, tc: TC)
    requires NoQuorum(n, s)
    ensures NoQuorum(n, HandleTC(n, s, tc))
  {
    hide HandleTC, IsQuorum, VoteTally, TimeoutTally;
    var s' := HandleTC(n, s, tc);
    forall r: nat, d: Digest | r >= s'.round ensures !IsQuorum(n.committee, VoteTally(s', r, d)) {
      TCCounts(n, s, tc, r, d);
    }
    forall r: nat | r >= s'.round ensures !IsQuorum(n.committee, TimeoutTally(s', r)) {
      TCCounts(n, s, tc, r, Zero);
    }
  }

  lemma NoQuorumSame(n: Node, s: Replica, a: Replica)
    requires NoQuorum(n, s) && a.round == s.round && a.aggregator == s.aggregator
    ensures NoQuorum(n, a)
  {
    hide IsQuorum;
    forall r: nat, d: Digest ensures VoteTally(a, r, d) == VoteTally(s, r, d) {
    }
    forall r: nat ensures TimeoutTally(a, r) == TimeoutTally(s, r) {
    }
  }

  lemma OwnVoteMissesNothing(n: Node, ok: Evidence, a: Replica, b: Block)
    requires Sound(n.committee) && Inv(n, ok, a) && b in a.admitted && NoQuorum(n, a)
    ensures NoQuorum(n, VoteIfSafe(n, a, b))
  {
    hide Sound, Inv, HandleVote, NoQuorum, CanVote, Leader;
    if CanVote(a, b) {
      SignVoteKeeps(n, ok, a, b);
      NoQuorumSame(n, a, SignVote(n, a, b));
      VoteMissesNothing(n, ok, SignVote(n, a, b), NewVote(n, b));
    }
  }

  lemma BlockMissesNothing(n: Node, ok: Evidence, a: Replica, b: Block)
    requires Sound(n.committee) && Inv(n, ok, a) && b in a.admitted && NoQuorum(n, a)
    ensures NoQuorum(n, ProcessBlock(n, a, b))
  {
    hide Sound, Inv, NoQuorum, VoteIfSafe, StoreAndCommit;
    if Parent(a.store, b).Some? && Parent(a.store, Parent(a.store, b).value).Some? {
      var b1 := Parent(a.store, b).value;
      var b0 := Parent(a.store, b1).value;
      StoreAndCommitKeeps(n, ok, a, b, b1, b0);
      var committed := StoreAndCommit(a, b, b1, b0);
      NoQuorumSame(n, a, committed);
      OwnVoteMissesNothing(n, ok, committed, b);
    } else if Parent(a.store, b).Some? {
      NoQuorumSame(n, a, a.(health := Fatal));
    } else {
      NoQuorumSame(n, a, a.(waiting := a.waiting + {b}));
    }
  }

  lemma ProposalMissesNothing(n: Node, ok: Evidence, s: Replica, b: Block, ready: bool)
    requires Sound(n.committee) && Inv(n, ok, s) && NoQuorum(n, s)
    requires ValidBlock(n.committee, b) ==> GenuineQC(ok, b.qc) && (b.tc.Some? ==> GenuineTC(ok, b.tc.value))
    ensures NoQuorum(n, HandleProposal(n, s, b, ready))
  {
    hide Sound, Inv, NoQuorum, ProcessBlock, ProcessCertificates, ValidBlock, GenuineQC, GenuineTC, Leader, MakersKept;
    if b.author == Leader(n.committee, b.round) && ValidBlock(n.committee, b) {
      var a := Admit(ProcessCertificates(s, b), b);
      CertificatesExact(s, b);
      NoQuorumKept(n, s, a);
      ProposalAdmits(n, ok, s, b);
      BlockMissesNothing(n, ok, a, b);
      NoQuorumSame(n, a, a.(waiting := a.waiting + {b}));
    }
  }

  lemma EventMissesNothing(n: Node, ok: Evidence, s: Replica, e: Event)
    requires Sound(n.committee) && Inv(n, ok, s) && Deliverable(n, ok, s, e) && NoQuorum(n, s)
    ensures NoQuorum(n, Handle(n, s, e))
  {
    hide Sound, Inv, NoQuorum, HandleVote, HandleTimeout, HandleTC, HandleProposal, ProcessBlock, ValidBlock,
         ValidTimeout,
         CertificatesOk, GenuineQC, GenuineTC, Unforged;
    match e
    case ProposeMsg(b, ready) =>
      if ValidBlock(n.committee, b) {
        VerifiedBlockIsGenuine(n.committee, ok, b);
      }
      ProposalMissesNothing(n, ok, s, b, ready);
    case Loopback(b) =>
      LoopbackAdmits(n, ok, s, b);
      NoQuorumSame(n, s, Admit(s, b));
      BlockMissesNothing(n, ok, Admit(s, b), b);
    case VoteMsg(v) => VoteMissesNothing(n, ok, s, v);
    case TimeoutMsg(t) =>
      if ValidTimeout(n.committee, t) {
        VerifiedTimeoutIsGenuine(n.committee, ok, t);
        TimeoutCertificateOk(n.committee, ok, t);
      }
      TimeoutMissesNothing(n, ok, s, t);
    case TcMsg(tc) => TCMissesNothing(n, s, tc);
    case TimerFired =>
      SignTimeoutKeeps(n, ok, s);
      NoQuorumSame(n, s, SignTimeout(n, s));
      HighQCOk(n, ok, s);
      TimeoutMissesNothing(n, ok, SignTimeout(n, s), NewTimeout(n, s));
  }

  lemma HighQCOk(n: Node, ok: Evidence, s: Replica)
    requires Inv(n, ok, s)
    ensures CertificatesOk(n.committee, ok, s.highQC, None)
  {
    hide CertificatesOk, AggregatorInv, BlocksInv, StoreInv, ProposalsInv;
  }

  lemma StartMissesNothing(n: Node)
    ensures NoQuorum(n, Start(n))
  {
    hide Leader, Weight, TotalStake;
    EmptyWeight(n.committee);
    assert Start(n).aggregator == NEW_AGGREGATOR;
  }

  lemma {:induction false} RunMissesNothing(sys: System, run: seq<Global>, i: nat, k: Key)
    requires ValidSystem(sys) && IsRun(sys, run) && i < |run| && k in run[i].nodes
    ensures NoQuorum(NodeOf(sys, k), run[i].nodes[k])
  {
    hide GlobalInv, Handle, Deliverable, Start, NoQuorum, Inv, EvidenceOf, Weight, TotalStake;
    if i == 0 {
      StartMissesNothing(NodeOf(sys, k));
    } else {
      var g := run[i - 1];
      assert Next(sys, g, run[i]);
      var k', e :| Enabled(sys, g, k', e) && run[i] == Apply(sys, g, k', e);
      RunMissesNothing(sys, run, i - 1, k);
      RunInv(sys, run, i - 1);
      if k == k' {
        NodeInv(sys, g, k);
        EventMissesNothing(NodeOf(sys, k), EvidenceOf(sys, g.log), g.nodes[k], e);
      }
    }
  }

  lemma NodeInv(sys: System, g: Global, k: Key)
    requires GlobalInv(sys, g) && k in g.nodes
    ensures Inv(NodeOf(sys, k), EvidenceOf(sys, g.log), g.nodes[k])
  {
    hide Inv, EvidenceOf, LogInv, LogRemembered;
  }

  /** No quorum is missed: a node to which a quorum of verified votes for one block, its own included,
      has been delivered has left that round, and so has one that has heard a quorum of timeouts. */
  lemma QuorumNeverMissed(sys: System, run: seq<Global>, moves: seq<(Key, Event)>, i: nat, k: Key, r: nat, d: Digest)
    requires ValidSystem(sys) && IsTrace(sys, run, moves) && i < |run| && k in run[i].nodes
    ensures var s, n, c := run[i].nodes[k], NodeOf(sys, k), sys.committee;
            && (IsQuorum(c, VotesHeard(c, moves[..i], k, r, d) + OwnVote(n, s.signings, r, d)) ==> s.round > r)
            && (IsQuorum(c, TimeoutsHeard(c, moves[..i], k, r) + OwnTimeout(n, s.signings, r)) ==> s.round > r)
  {
    hide ValidSystem, IsTrace, IsRun, IsQuorum, VotesHeard, TimeoutsHeard, OwnVote, OwnTimeout, VoteTally, TimeoutTally;
    TraceIsRun(sys, run, moves);
    TalliesExact(sys, run, moves, i, k);
    RunMissesNothing(sys, run, i, k);
  }
}
