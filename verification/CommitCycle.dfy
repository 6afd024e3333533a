/** Two runs that start alike. Node 3 alone holds a quorum and times out in rounds 1 and 3. In one
    continuation a later block of the digest it voted for in round 2 closes a cycle of parents, and
    the next commit loops forever. In the other, the honest leader of round 4 is handed the second
    timeout certificate and asks for a proposal nobody can vote for. */
module CommitCycles {
  import opened Committees
  import opened Messages
  import opened Aggregation
  import opened Safety
  import opened Chains
  import opened LeaderElection
  import opened Replicas
  import opened Protocol
  import opened Agreement
  import opened Counterexamples
  import Runs

  /** Only node 3 is honest, with nine of twelve units of stake. */
  const ALONE: System := System(COMMITTEE, {0, 1, 2})
  /** Nodes 0 and 3 are honest. */
  const PAIR: System := System(COMMITTEE, {1, 2})

  lemma SystemsValid()
    ensures ValidSystem(ALONE) && ValidSystem(PAIR)
  {
    hide TotalStake, Threshold;
    Stakes();
    EmptyWeight(COMMITTEE);
    WeightAdd(COMMITTEE, {}, 1);
    WeightAdd(COMMITTEE, {1}, 2);
    WeightAdd(COMMITTEE, {1, 2}, 0);
    assert {} + {1} == {1} && {1} + {2} == {1, 2} && {1, 2} + {0} == {0, 1, 2};
  }

  // ----- blocks and certificates -----

  /** Node 3 alone timed out. */
  function TimeoutOf3(round: nat, high: nat): TC {
    TC(round, [TimeoutVote(3, high)], Sign(3, TimeoutDigest(round, high)))
  }

  function P(): Block { Proposed(GENESIS_QC, 2, 2).(tc := Some(TimeoutOf3(1, 0))) }
  function Q(): Block { Proposed(Certificate(P()), 0, 4).(tc := Some(TimeoutOf3(3, 2))) }
  function X(): Block { Proposed(Certificate(Q()), 1, 5) }
  /** Same author, round and payload as P, so the same digest, but on top of Q. */
  function TwinP(): Block { Proposed(Certificate(Q()), 2, 2) }
  function Y(): Block { Proposed(Certificate(X()), 2, 6) }

  lemma TimeoutValid(round: nat, high: nat)
    ensures ValidTC(COMMITTEE, TimeoutOf3(round, high))
  {
    var tc := TimeoutOf3(round, high);
    Stakes();
    assert TimeoutNames(tc.votes) == [3];
    assert Names([3]) == {3};
    assert tc.votes[..0] == [];
    assert TimeoutSignersOf([], round) == multiset{};
    assert TimeoutSignersOf(tc.votes, round) == multiset{} + multiset{(3, TimeoutDigest(round, high))};
  }

  /** Any member's block on a certificate of node 3, with or without a timeout certificate of node 3. */
  lemma ProposedValid(parent: Block, author: Key, round: nat, timedOut: nat, high: nat)
    requires author <= 3
    ensures ValidBlock(COMMITTEE, Proposed(Certificate(parent), author, round))
    ensures ValidBlock(COMMITTEE, Proposed(Certificate(parent), author, round).(tc := Some(TimeoutOf3(timedOut, high))))
  {
    hide ValidQC, ValidTC;
    CertificateValid(parent);
    TimeoutValid(timedOut, high);
  }

  lemma BlocksValid()
    ensures ValidBlock(COMMITTEE, P()) && ValidBlock(COMMITTEE, Q()) && ValidBlock(COMMITTEE, X())
    ensures ValidBlock(COMMITTEE, TwinP()) && ValidBlock(COMMITTEE, Y())
  {
    hide ValidQC, ValidTC;
    TimeoutValid(1, 0);
    assert ValidBlock(COMMITTEE, P());
    hide ValidBlock;
    ProposedValid(P(), 0, 4, 3, 2);
    ProposedValid(Q(), 1, 5, 0, 0);
    ProposedValid(Q(), 2, 2, 0, 0);
    ProposedValid(X(), 2, 6, 0, 0);
  }

  // ----- node 3 -----

  /** Its own timeout is a quorum, so the timer takes node 3 to the next round. */
  lemma TimerAdvances(s: Replica)
    requires s.aggregator == NEW_AGGREGATOR && s.highQC.round < s.round && AcceptableQC(COMMITTEE, s.highQC)
    requires (s.round + 1) % 4 != 3
    ensures LocalTimeoutRound(N3, s)
            == SignTimeout(N3, s).(round := s.round + 1)
  {
    hide Threshold, Leader, TotalStake, AcceptableQC;
    Stakes();
    Leaders(s.round + 1);
    var t := NewTimeout(N3, s);
    assert NEW_TC_MAKER.sum + t.signature.parts == t.signature.parts;
    assert NEW_TC_MAKER.votes + [TimeoutVote(3, s.highQC.round)] == [TimeoutVote(3, s.highQC.round)];
    assert AddStake(0, COMMITTEE.StakeOf(3)) == 9;
    var out := AppendTimeout(COMMITTEE, NEW_TC_MAKER, t).1;
    assert out == Aggregation.Made(TimeoutOf3(s.round, s.highQC.round));
    var added := AddTimeout(COMMITTEE, s.aggregator, t).0;
    assert Cleanup(added, s.round + 1) == NEW_AGGREGATOR;
  }

  function U1(): Replica {
    INITIAL.(round := 2, lastVoted := 1, signings := [TimeoutAt(3, 1, 0)])
  }

  function U2(): Replica {
    U1().(round := 3, lastVoted := 2, highQC := Certificate(P()), store := map[DigestOf(P()) := P()], admitted := {P()},
          written := {P()}, proposals := [Proposal(3, Certificate(P()), None)],
          signings := U1().signings + [VoteFor(3, P())])
  }

  function U3(): Replica {
    U2().(round := 4, lastVoted := 3, signings := U2().signings + [TimeoutAt(3, 3, 2)])
  }

  function U4(): Replica {
    U3().(lastVoted := 4, store := U3().store[DigestOf(Q()) := Q()], admitted := {P(), Q()}, written := {P(), Q()},
          signings := U3().signings + [VoteFor(3, Q())])
  }

  function U5(): Replica {
    U4().(round := 5, lastVoted := 5, highQC := Certificate(Q()), store := U4().store[DigestOf(X()) := X()],
          admitted := {P(), Q(), X()}, written := {P(), Q(), X()}, signings := U4().signings + [VoteFor(3, X())])
  }

  function U6(): Replica {
    U5().(store := U5().store[DigestOf(P()) := TwinP()], admitted := {P(), Q(), X(), TwinP()},
          written := {P(), Q(), X(), TwinP()})
  }

  lemma TimesOutInRound1()
    ensures LocalTimeoutRound(N3, INITIAL) == U1()
  {
    hide LocalTimeoutRound, ValidQC;
    TimerAdvances(INITIAL);
    assert INITIAL.signings + [TimeoutAt(3, 1, 0)] == [TimeoutAt(3, 1, 0)];
  }

  lemma SeesP()
    ensures HandleProposal(N3, U1(), P(), true) == U2()
  {
    hide ValidBlock, Leader, CommitWalk, HandleVote;
    BlocksValid();
    Leaders(2);
    Leaders(3);
    var informed := Admit(ProcessCertificates(U1(), P()), P());
    assert informed == U1().(admitted := {P()});
    var stored := informed.(store := U2().store, written := U2().written);
    assert StoreAndCommit(informed, P(), GENESIS, GENESIS) == stored;
    var signed := SignVote(N3, stored, P());
    OwnVoteCertifies(signed, P());
    assert ProcessBlock(N3, informed, P()) == HandleVote(N3, signed, NewVote(N3, P()));
    assert [] + [Proposal(3, Certificate(P()), None)] == [Proposal(3, Certificate(P()), None)];
  }

  lemma TimesOutInRound3()
    ensures LocalTimeoutRound(N3, U2()) == U3()
  {
    hide LocalTimeoutRound, ValidQC;
    CertificateValid(P());
    TimerAdvances(U2());
  }

  lemma SeesQ()
    ensures HandleProposal(N3, U3(), Q(), true) == U4()
  {
    hide ValidBlock, Leader, CommitWalk, HandleVote;
    BlocksValid();
    Leaders(4);
    Leaders(5);
    var informed := Admit(ProcessCertificates(U3(), Q()), Q());
    assert informed == U3().(admitted := {P(), Q()});
    assert Parent(informed.store, Q()) == Some(P()) && Parent(informed.store, P()) == Some(GENESIS);
    var stored := informed.(store := U4().store, written := U4().written);
    assert StoreAndCommit(informed, Q(), P(), GENESIS) == stored;
    assert VoteIfSafe(N3, stored, Q()) == SignVote(N3, stored, Q());
  }

  lemma SeesX()
    ensures HandleProposal(N3, U4(), X(), true) == U5()
  {
    hide ValidBlock, Leader, CommitWalk, HandleVote;
    BlocksValid();
    Leaders(5);
    Leaders(6);
    CleanupNew(5);
    var informed := Admit(ProcessCertificates(U4(), X()), X());
    assert informed == U4().(round := 5, highQC := Certificate(Q()), admitted := {P(), Q(), X()});
    assert Parent(informed.store, X()) == Some(Q()) && Parent(informed.store, Q()) == Some(P());
    var stored := informed.(store := U5().store, written := U5().written);
    assert StoreAndCommit(informed, X(), Q(), P()) == stored;
    assert VoteIfSafe(N3, stored, X()) == SignVote(N3, stored, X());
  }

  lemma SeesTwinP()
    ensures HandleProposal(N3, U5(), TwinP(), true) == U6()
  {
    hide ValidBlock, Leader, CommitWalk, HandleVote;
    BlocksValid();
    Leaders(2);
    var informed := Admit(ProcessCertificates(U5(), TwinP()), TwinP());
    assert informed == U5().(admitted := {P(), Q(), X(), TwinP()});
    assert Parent(informed.store, TwinP()) == Some(Q()) && Parent(informed.store, Q()) == Some(P());
    var stored := informed.(store := U6().store, written := U6().written);
    assert StoreAndCommit(informed, TwinP(), Q(), P()) == stored;
    assert VoteIfSafe(N3, stored, TwinP()) == stored;
  }

  /** The block of round 6 makes node 3 commit Q, from which parents go Q, twin, Q, twin, ... */
  lemma YHangs()
    ensures ReachesProcessBlock(N3, ProposeMsg(Y(), true)) && CommitHangs(U6(), Y())
  {
    hide ValidBlock, Leader;
    BlocksValid();
    Leaders(6);
    var s := U6();
    assert Parent(s.store, Y()) == Some(X()) && Parent(s.store, X()) == Some(Q());
    var store := s.store[DigestOf(Y()) := Y()];
    assert Parent(store, Q()) == Some(TwinP()) && Parent(store, TwinP()) == Some(Q());
    var lasso := [Q(), TwinP(), Q()];
    assert lasso[0] == lasso[|lasso| - 1];
    assert IsLasso(store, 0, lasso);
  }

  // ----- the runs -----

  /** Node 3 in the given state, the other honest nodes as given; only node 3 has signed anything. */
  function At(others: map<Key, Replica>, s: Replica): Global {
    Global(others[3 := s], s.signings)
  }

  lemma StepOf3(sys: System, others: map<Key, Replica>, s: Replica, s': Replica, e: Event)
    requires sys.committee == COMMITTEE && s.health.Running? && s.signings <= s'.signings
    requires Deliverable(N3, EvidenceOf(sys, s.signings), s, e) && Handle(N3, s, e) == s'
    ensures Next(sys, At(others, s), At(others, s'))
  {
    hide Deliverable, Handle, EvidenceOf;
    var g := At(others, s);
    assert NodeOf(sys, 3) == N3;
    assert g.nodes[3 := s'] == At(others, s').nodes;
    assert s.signings + NewSignings(s, s') == s'.signings;
    assert Enabled(sys, g, 3, e) && At(others, s') == Apply(sys, g, 3, e);
  }

  lemma TimeoutFrom3(sys: System, round: nat, high: nat, log: seq<Signing>, i: nat)
    requires i < |log| && log[i] == TimeoutAt(3, round, high)
    ensures Unforged(EvidenceOf(sys, log), TimeoutOf3(round, high).signature)
  {
    assert SignedDigest(log[i]) == TimeoutDigest(round, high);
  }

  lemma CommonSteps(sys: System, others: map<Key, Replica>)
    requires sys.committee == COMMITTEE
    ensures Next(sys, At(others, INITIAL), At(others, U1()))
    ensures Next(sys, At(others, U1()), At(others, U2()))
    ensures Next(sys, At(others, U2()), At(others, U3()))
  {
    hide HandleProposal, ProcessBlock, EvidenceOf, HandleVote, HandleTimeout, HandleTC, LocalTimeoutRound, Next;
    TimesOutInRound1();
    StepOf3(sys, others, INITIAL, U1(), TimerFired);
    SeesP();
    TimeoutFrom3(sys, 1, 0, U1().signings, 0);
    StepOf3(sys, others, U1(), U2(), ProposeMsg(P(), true));
    TimesOutInRound3();
    StepOf3(sys, others, U2(), U3(), TimerFired);
  }

  lemma CycleSteps(sys: System, others: map<Key, Replica>)
    requires sys.committee == COMMITTEE
    ensures Next(sys, At(others, U3()), At(others, U4()))
    ensures Next(sys, At(others, U4()), At(others, U5()))
    ensures Next(sys, At(others, U5()), At(others, U6()))
  {
    hide HandleProposal, ProcessBlock, EvidenceOf, HandleVote, HandleTimeout, HandleTC, LocalTimeoutRound, Next;
    SeesQ();
    FromNode3(sys, P(), U3().signings, 1);
    TimeoutFrom3(sys, 3, 2, U3().signings, 2);
    StepOf3(sys, others, U3(), U4(), ProposeMsg(Q(), true));
    SeesX();
    FromNode3(sys, Q(), U4().signings, 3);
    StepOf3(sys, others, U4(), U5(), ProposeMsg(X(), true));
    SeesTwinP();
    FromNode3(sys, Q(), U5().signings, 3);
    StepOf3(sys, others, U5(), U6(), ProposeMsg(TwinP(), true));
  }

  lemma AloneStarts()
    ensures Init(ALONE, At(map[], INITIAL))
  {
    hide Start;
    Node3Starts();
    assert NodeOf(ALONE, 3) == N3;
  }

  lemma ReachesCycle()
    ensures Reachable(ALONE, At(map[], U6()))
  {
    hide Next, Init;
    AloneStarts();
    CommonSteps(ALONE, map[]);
    CycleSteps(ALONE, map[]);
    var run := [At(map[], INITIAL), At(map[], U1()), At(map[], U2()), At(map[], U3()), At(map[], U4()),
                At(map[], U5()), At(map[], U6())];
    assert IsRun(ALONE, run) && run[|run| - 1] == At(map[], U6());
  }

  lemma OneMoreStep(sys: System, g: Global, k: Key, e: Event)
    requires Reachable(sys, g) && Enabled(sys, g, k, e)
    ensures Next(sys, g, Apply(sys, g, k, e)) && Reachable(sys, Apply(sys, g, k, e))
  {
    hide Deliverable, Handle, Init;
    var run :| IsRun(sys, run) && run[|run| - 1] == g;
    var g' := Apply(sys, g, k, e);
    assert Next(sys, g, g');
    var longer := run + [g'];
    assert IsRun(sys, longer) && longer[|longer| - 1] == g';
  }

  lemma LastStepHangs() returns (g: Global)
    ensures Reachable(ALONE, g) && Next(ALONE, At(map[], U6()), g) && 3 in g.nodes && g.nodes[3].health.Endless?
  {
    hide Reachable, ValidSystem, Next, Handle, EvidenceOf, CommitHangs, ReachesProcessBlock;
    SystemsValid();
    ReachesCycle();
    var before, e := At(map[], U6()), ProposeMsg(Y(), true);
    FromNode3(ALONE, X(), U6().signings, 4);
    assert Enabled(ALONE, before, 3, e);
    OneMoreStep(ALONE, before, 3, e);
    g := Apply(ALONE, before, 3, e);
    YHangs();
    Runs.StopsExactlyOnCycle(ALONE, before, 3, e);
  }

  /** Without the premise on digests a commit loop need not end, and a stored block of a certified
      digest need not have a certificate of a lower round: both fail in a state that a run reaches. */
  lemma CommitCanHang() returns (g: Global, b: Block)
    ensures ValidSystem(ALONE) && Reachable(ALONE, g) && 3 in g.nodes && g.nodes[3].health.Endless?
    ensures b in Seen(g) && Certified(ALONE, g.log, DigestOf(b), b.round) && b.qc.round > b.round
    ensures !OneCertifiedParent(ALONE, g.log, Seen(g))
  {
    hide Reachable, ValidSystem, Certified, Next, OneCertifiedParent, Seen, GlobalInv;
    SystemsValid();
    ReachesCycle();
    var before := At(map[], U6());
    g := LastStepHangs();
    b := TwinP();
    ReachableFacts(ALONE, before);
    NextGrows(ALONE, before, g);
    InSeen(before, 3, b);
    CertifiedBy3(ALONE, P(), before.log, 1);
    CertifiedGrows(ALONE, before.log, g.log, DigestOf(b), b.round);
    if OneCertifiedParent(ALONE, g.log, Seen(g)) {
      NeverStuck(ALONE, g, 3);
    }
  }

  // ----- a proposal nobody can vote for -----

  lemma PairStarts()
    ensures Init(PAIR, At(map[0 := INITIAL], INITIAL))
  {
    hide Start, Leader;
    Node3Starts();
    Node0Starts();
    assert NodeOf(PAIR, 3) == N3 && NodeOf(PAIR, 0) == Node(0, COMMITTEE);
  }

  lemma Node0Starts()
    ensures Start(Node(0, COMMITTEE)) == INITIAL
  {
    hide Leader;
    Leaders(1);
  }

  lemma ReachesTimeout()
    ensures Reachable(PAIR, At(map[0 := INITIAL], U3()))
  {
    hide Next, Init;
    var others: map<Key, Replica> := map[0 := INITIAL];
    PairStarts();
    CommonSteps(PAIR, others);
    var run := [At(others, INITIAL), At(others, U1()), At(others, U2()), At(others, U3())];
    assert IsRun(PAIR, run) && run[|run| - 1] == At(others, U3());
  }

  /** Node 0 leads round 4 and has seen nothing yet: on receiving node 3's TC it asks for a proposal
      on top of genesis, which safety rule 2 forbids everyone to vote for. */
  lemma RelayedProposalCanBeUnvotable() returns (g: Global, e: Event)
    ensures ValidSystem(PAIR) && Reachable(PAIR, g) && Enabled(PAIR, g, 0, e) && e.TcMsg?
    ensures var s' := Apply(PAIR, g, 0, e).nodes[0];
            g.nodes[0].proposals == [] && |s'.proposals| == 1 && !Votable(s'.proposals[0])
  {
    hide Reachable, ValidSystem, ValidTC, Leader, EvidenceOf;
    SystemsValid();
    ReachesTimeout();
    var tc := TimeoutOf3(3, 2);
    g, e := At(map[0 := INITIAL], U3()), TcMsg(tc);
    TimeoutFrom3(PAIR, 3, 2, U3().signings, 2);
    TimeoutValid(3, 2);
    Leaders(4);
    assert tc.votes[0].round == 2;
    assert NodeOf(PAIR, 0) == Node(0, COMMITTEE);
  }
}
