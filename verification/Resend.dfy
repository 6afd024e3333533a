/** A run, with one block per digest, in which a block goes out on the commit channel twice. After the
    blocks Q and X of rounds 4 and 5, node 3 times out in round 5 without having seen the certificate
    of X. It commits Q on a block that carries this certificate, and then votes for a chain that
    extends Q directly; the next commit finds no block of round 5 and sends Q again. */
module Resends {
  import opened Committees
  import opened Messages
  import opened Aggregation
  import opened Safety
  import opened Chains
  import opened LeaderElection
  import opened Replicas
  import opened Protocol
  import opened Agreement
  import opened Emissions
  import opened Counterexamples
  import opened CommitCycles

  /** Carries the certificate of X; nobody votes for it. */
  function Carrier(): Block { Proposed(Certificate(X()), 1, 9) }
  function Sixth(): Block { Proposed(Certificate(Q()), 2, 6).(tc := Some(TimeoutOf3(5, 4))) }
  function Seventh(): Block { Proposed(Certificate(Sixth()), 3, 7) }
  function Eighth(): Block { Proposed(Certificate(Seventh()), 0, 8) }

  lemma ResendBlocksValid()
    ensures ValidBlock(COMMITTEE, Carrier()) && ValidBlock(COMMITTEE, Sixth()) && ValidBlock(COMMITTEE, Eighth())
  {
    hide ValidBlock;
    ProposedValid(X(), 1, 9, 0, 0);
    ProposedValid(Q(), 2, 6, 5, 4);
    ProposedValid(Seventh(), 0, 8, 0, 0);
  }

  // ----- node 3 -----

  function R1(): Replica {
    U5().(round := 6, signings := U5().signings + [TimeoutAt(3, 5, 4)])
  }

  function R2(): Replica {
    R1().(highQC := Certificate(X()), lastCommitted := 4, store := R1().store[DigestOf(Carrier()) := Carrier()],
          admitted := {P(), Q(), X(), Carrier()}, written := {P(), Q(), X(), Carrier()},
          emitted := [P(), GENESIS, Q()], commits := [Q()])
  }

  function R3(): Replica {
    R2().(round := 7, lastVoted := 6, highQC := Certificate(Sixth()), store := R2().store[DigestOf(Sixth()) := Sixth()],
          admitted := {P(), Q(), X(), Carrier(), Sixth()}, written := {P(), Q(), X(), Carrier(), Sixth()},
          proposals := R2().proposals + [Proposal(7, Certificate(Sixth()), None)],
          signings := R2().signings + [VoteFor(3, Sixth())])
  }

  function R4(): Replica {
    R3().(lastVoted := 7, store := R3().store[DigestOf(Seventh()) := Seventh()],
          admitted := R3().admitted + {Seventh()}, written := R3().written + {Seventh()},
          signings := R3().signings + [VoteFor(3, Seventh())])
  }

  lemma TimesOutInRound5()
    ensures LocalTimeoutRound(N3, U5()) == R1()
  {
    hide LocalTimeoutRound, ValidQC;
    CertificateValid(Q());
    TimerAdvances(U5());
  }

  lemma CommitOfQ(store: BlockStore)
    requires Parent(store, Q()) == Some(P())
    ensures CommitWalk(store, 0, Q()) == Some([Q(), P(), GENESIS])
  {
    var walk := [Q(), P(), GENESIS];
    assert IsWalk(store, 0, walk);
    WalkUnique(store, 0, CommitWalk(store, 0, Q()).value, walk);
  }

  lemma SeesCarrier()
    ensures HandleProposal(N3, R1(), Carrier(), true) == R2()
  {
    hide ValidBlock, Leader, CommitWalk, HandleVote;
    ResendBlocksValid();
    Leaders(9);
    var informed := Admit(ProcessCertificates(R1(), Carrier()), Carrier());
    assert informed == R1().(highQC := Certificate(X()), admitted := {P(), Q(), X(), Carrier()});
    assert Parent(informed.store, Carrier()) == Some(X()) && Parent(informed.store, X()) == Some(Q());
    CommitOfQ(R2().store);
    assert Emission([Q(), P(), GENESIS]) == [P(), GENESIS, Q()];
    var committed := StoreAndCommit(informed, Carrier(), X(), Q());
    assert committed == R2();
    assert VoteIfSafe(N3, committed, Carrier()) == committed;
  }

  lemma SeesSixth()
    ensures HandleProposal(N3, R2(), Sixth(), true) == R3()
  {
    hide ValidBlock, Leader, CommitWalk, HandleVote;
    ResendBlocksValid();
    Leaders(6);
    Leaders(7);
    var informed := Admit(ProcessCertificates(R2(), Sixth()), Sixth());
    assert informed == R2().(admitted := R3().admitted);
    assert Parent(informed.store, Sixth()) == Some(Q()) && Parent(informed.store, Q()) == Some(P());
    var stored := informed.(store := R3().store, written := R3().written);
    assert StoreAndCommit(informed, Sixth(), Q(), P()) == stored;
    var signed := SignVote(N3, stored, Sixth());
    OwnVoteCertifies(signed, Sixth());
    assert ProcessBlock(N3, informed, Sixth()) == HandleVote(N3, signed, NewVote(N3, Sixth()));
  }

  /** A node in round 7 that has not voted in it, and whose last committed block is Q. */
  lemma VotesForSeventh(s: Replica)
    requires s.round == 7 && s.lastVoted == 6 && s.health.Running?
    requires Parent(s.store, Seventh()) == Some(Sixth()) && Parent(s.store, Sixth()) == Some(Q())
    ensures Handle(N3, s, Loopback(Seventh()))
            == SignVote(N3, s.(store := s.store[DigestOf(Seventh()) := Seventh()], admitted := s.admitted + {Seventh()},
                               written := s.written + {Seventh()}), Seventh())
  {
    hide Leader, CommitWalk, HandleVote, SignVote;
    Leaders(8);
  }

  /** What storing one block more changes. */
  lemma ParentAfter(store: BlockStore, b: Block, child: Block)
    requires !IsGenesisQC(child.qc)
    ensures Parent(store[DigestOf(b) := b], child)
            == if child.qc.hash == DigestOf(b) then Some(b) else Parent(store, child)
  {
  }

  lemma ParentsInR3()
    ensures Parent(R3().store, Seventh()) == Some(Sixth()) && Parent(R3().store, Sixth()) == Some(Q())
  {
    hide Parent, U4, DigestOf;
    Digests();
    var b := Sixth();
    ParentAfter(R2().store, Sixth(), Seventh());
    ParentAfter(R2().store, Sixth(), b);
    ParentAfter(U5().store, Carrier(), b);
    ParentAfter(U4().store, X(), b);
    QInU4();
  }

  lemma QInU4()
    ensures Parent(U4().store, Sixth()) == Some(Q())
  {
    hide U3;
    ParentAfter(U3().store, Q(), Sixth());
  }

  lemma Digests()
    ensures DigestOf(Q()) != DigestOf(X()) && DigestOf(Q()) != DigestOf(Carrier()) && DigestOf(Q()) != DigestOf(Sixth())
    ensures Sixth().qc.hash == DigestOf(Q()) && Seventh().qc.hash == DigestOf(Sixth())
  {
  }

  lemma SeesSeventh()
    ensures Handle(N3, R3(), Loopback(Seventh())) == R4()
  {
    hide Handle, Parent;
    ParentsInR3();
    VotesForSeventh(R3());
  }

  lemma CommitOfSixth(store: BlockStore)
    requires Parent(store, Sixth()) == Some(Q())
    ensures CommitWalk(store, 4, Sixth()) == Some([Sixth(), Q()])
  {
    var walk := [Sixth(), Q()];
    assert IsWalk(store, 4, walk);
    WalkUnique(store, 4, CommitWalk(store, 4, Sixth()).value, walk);
  }

  lemma CommitsSixth(s: Replica)
    requires s.lastCommitted == 4 && s.health.Running?
    requires Parent(s.store, Eighth()) == Some(Seventh()) && Parent(s.store, Seventh()) == Some(Sixth())
    requires Parent(s.store, Sixth()) == Some(Q())
    ensures var s' := ProcessBlock(N3, s, Eighth());
            && s'.emitted == s.emitted + [Q(), Sixth()] && s'.commits == s.commits + [Sixth()]
            && s'.written == s.written + {Eighth()}
  {
    hide CommitWalk, VoteIfSafe;
    var store := s.store[DigestOf(Eighth()) := Eighth()];
    assert Parent(store, Sixth()) == Some(Q());
    CommitOfSixth(store);
    assert Emission([Sixth(), Q()]) == [Q(), Sixth()];
    VoteIfSafeFrame(N3, StoreAndCommit(s, Eighth(), Seventh(), Sixth()), Eighth());
  }

  lemma ParentsInR4()
    ensures Parent(R4().store, Eighth()) == Some(Seventh()) && Parent(R4().store, Seventh()) == Some(Sixth())
    ensures Parent(R4().store, Sixth()) == Some(Q())
  {
    hide R3;
    ParentsInR3();
    assert R4().store == R3().store[DigestOf(Seventh()) := Seventh()];
  }

  lemma SeesEighth()
    ensures var s := HandleProposal(N3, R4(), Eighth(), true);
            && s.emitted == [P(), GENESIS, Q(), Q(), Sixth()] && s.commits == [Q(), Sixth()]
            && s.written == R4().written + {Eighth()}
  {
    hide ValidBlock, Leader, ProcessBlock, ProcessCertificates, Parent;
    ResendBlocksValid();
    Leaders(8);
    ParentsInR4();
    CertificatesFrame(R4(), Eighth());
    CommitsSixth(Admit(ProcessCertificates(R4(), Eighth()), Eighth()));
  }

  // ----- the run -----

  lemma CommitSteps()
    ensures Next(ALONE, At(map[], U5()), At(map[], R1()))
    ensures Next(ALONE, At(map[], R1()), At(map[], R2()))
  {
    hide HandleProposal, ProcessBlock, EvidenceOf, HandleVote, HandleTimeout, HandleTC, LocalTimeoutRound, Next;
    TimesOutInRound5();
    StepOf3(ALONE, map[], U5(), R1(), TimerFired);
    SeesCarrier();
    FromNode3(ALONE, X(), R1().signings, 4);
    StepOf3(ALONE, map[], R1(), R2(), ProposeMsg(Carrier(), true));
  }

  lemma SixthStep()
    ensures Next(ALONE, At(map[], R2()), At(map[], R3()))
  {
    hide HandleProposal, EvidenceOf, Next;
    SeesSixth();
    FromNode3(ALONE, Q(), R2().signings, 3);
    TimeoutFrom3(ALONE, 5, 4, R2().signings, 5);
    StepOf3(ALONE, map[], R2(), R3(), ProposeMsg(Sixth(), true));
  }

  lemma SeventhStep()
    ensures Next(ALONE, At(map[], R3()), At(map[], R4()))
  {
    hide Handle, EvidenceOf, Next;
    SeesSeventh();
    StepOf3(ALONE, map[], R3(), R4(), Loopback(Seventh()));
  }

  lemma ReachesR4()
    ensures Reachable(ALONE, At(map[], R4()))
  {
    hide Next, Init, R1, R2, R3, R4, U1, U2, U3, U4, U5, U6;
    AloneStarts();
    CommonSteps(ALONE, map[]);
    CycleSteps(ALONE, map[]);
    CommitSteps();
    SixthStep();
    SeventhStep();
    var run := [At(map[], INITIAL), At(map[], U1()), At(map[], U2()), At(map[], U3()), At(map[], U4()), At(map[], U5()),
                At(map[], R1()), At(map[], R2()), At(map[], R3()), At(map[], R4())];
    assert IsRun(ALONE, run) && run[|run| - 1] == At(map[], R4());
  }

  lemma EighthDelivered()
    ensures Enabled(ALONE, At(map[], R4()), 3, ProposeMsg(Eighth(), true))
  {
    hide EvidenceOf;
    var log := R4().signings;
    assert log[7] == VoteFor(3, Seventh()) by {
      assert |R3().signings| == 7;
    }
    FromNode3(ALONE, Seventh(), log, 7);
  }

  lemma LastStepResends() returns (g: Global)
    ensures Reachable(ALONE, g) && g.nodes.Keys == {3}
    ensures g.nodes[3].emitted == [P(), GENESIS, Q(), Q(), Sixth()] && g.nodes[3].commits == [Q(), Sixth()]
    ensures g.nodes[3].written == R4().written + {Eighth()}
  {
    hide Reachable, Next, HandleProposal, Enabled, R4;
    ReachesR4();
    EighthDelivered();
    var before, e := At(map[], R4()), ProposeMsg(Eighth(), true);
    OneMoreStep(ALONE, before, 3, e);
    SeesEighth();
    g := Apply(ALONE, before, 3, e);
  }

  function ByRound(round: nat): Block {
    match round
    case 2 => P()
    case 4 => Q()
    case 5 => X()
    case 6 => Sixth()
    case 7 => Seventh()
    case 8 => Eighth()
    case _ => Carrier()
  }

  /** All seven blocks of the run are of different rounds. */
  lemma FoundByRound(b: Block)
    requires b in R4().written + {Eighth()}
    ensures b == ByRound(b.round)
  {
    assert R3().written == {P(), Q(), X(), Carrier(), Sixth()};
    assert R4().written == R3().written + {Seventh()};
  }

  lemma PremiseHolds(g: Global)
    requires g.nodes.Keys == {3} && g.nodes[3].written == R4().written + {Eighth()}
    ensures OneCertifiedParent(ALONE, g.log, Seen(g))
  {
    hide R4, Certified, ByRound;
    forall b, b' | b in Seen(g) && b' in Seen(g) && DigestOf(b) == DigestOf(b') ensures b == b' {
      FoundByRound(b);
      FoundByRound(b');
    }
  }

  /** One block per digest does not make the commit channel free of repetitions: Q is sent twice. */
  lemma HeadCanBeSentAgain() returns (g: Global)
    ensures ValidSystem(ALONE) && Reachable(ALONE, g) && OneCertifiedParent(ALONE, g.log, Seen(g))
    ensures 3 in g.nodes && Times(g.nodes[3].emitted, DigestOf(Q())) == 2
  {
    hide Reachable, ValidSystem, OneCertifiedParent, R4, Times;
    SystemsValid();
    g := LastStepResends();
    PremiseHolds(g);
    QSentTwice();
  }

  lemma QSentTwice()
    ensures Times([P(), GENESIS, Q(), Q(), Sixth()], DigestOf(Q())) == 2
  {
    var a, sent := DigestOf(Q()), [P(), GENESIS, Q(), Q(), Sixth()];
    assert sent[..4] == [P(), GENESIS, Q(), Q()] && [P(), GENESIS, Q(), Q()][..3] == [P(), GENESIS, Q()];
    assert [P(), GENESIS, Q()][..2] == [P(), GENESIS] && [P(), GENESIS][..1] == [P()] && [P()][..0] == [];
    assert Times([P()], a) == 0 && Times([P(), GENESIS], a) == 0 && Times([P(), GENESIS, Q()], a) == 1;
    assert Times([P(), GENESIS, Q(), Q()], a) == 2;
  }
}
