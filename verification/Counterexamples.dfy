/** The premise on digests is needed for agreement: a run in which a leader sends two blocks of one
    digest that extend different parents, and two honest nodes end up with different committed
    chains. It is not necessary: an earlier state of the same run breaks it and still agrees. */
module Counterexamples {
  import opened Committees
  import opened Messages
  import opened Aggregation
  import opened Safety
  import opened Chains
  import opened LeaderElection
  import opened Replicas
  import opened Protocol
  import opened Agreement

  /** Authorities 0 and 2 are faulty; 3 alone holds a quorum. */
  const COMMITTEE: Committee := Committee(map[0 := 1, 1 := 1, 2 := 1, 3 := 9])
  const SYS: System := System(COMMITTEE, {0, 2})

  function Certificate(b: Block): QC {
    QC(DigestOf(b), b.round, [3], Sign(3, VoteDigest(DigestOf(b), b.round)))
  }

  function Proposed(qc: QC, author: Key, round: nat): Block {
    Block(qc, None, author, round, [], Sign(author, BlockDigest(author, round, [])))
  }

  function A(): Block { Proposed(GENESIS_QC, 1, 1) }
  function B(): Block { Proposed(Certificate(A()), 2, 2) }
  /** Same author, round and payload as B, so the same digest, but on top of genesis. */
  function TwinB(): Block { Proposed(GENESIS_QC, 2, 2) }
  function C(): Block { Proposed(Certificate(B()), 3, 3) }
  function D(): Block { Proposed(Certificate(C()), 0, 4) }

  // ----- the committee -----

  lemma Stakes()
    ensures TotalStake(COMMITTEE) == 12 && Threshold(COMMITTEE) == 9
    ensures Weight(COMMITTEE, {3}) == 9 && Weight(COMMITTEE, {0, 2}) == 2
    ensures ValidSystem(SYS)
  {
    EmptyWeight(COMMITTEE);
    WeightAdd(COMMITTEE, {}, 0);
    WeightAdd(COMMITTEE, {0}, 2);
    WeightAdd(COMMITTEE, {0, 2}, 1);
    WeightAdd(COMMITTEE, {0, 1, 2}, 3);
    WeightAdd(COMMITTEE, {}, 3);
    assert {} + {0} == {0} && {0} + {2} == {0, 2} && {0, 2} + {1} == {0, 1, 2};
    assert COMMITTEE.authorities.Keys == {0, 1, 2} + {3};
    assert {} + {3} == {3};
  }

  lemma Order()
    ensures SortedKeys(COMMITTEE.authorities.Keys) == [0, 1, 2, 3]
  {
    hide SortedKeys;
    var names := COMMITTEE.authorities.Keys;
    assert names == {0, 1, 2, 3};
    AscendingIsUnique(SortedKeys(names), [0, 1, 2, 3]);
  }

  lemma Leaders(round: nat)
    ensures Leader(COMMITTEE, round) == round % 4
  {
    hide SortedKeys;
    Order();
  }

  lemma CertificateValid(b: Block)
    ensures ValidQC(COMMITTEE, Certificate(b))
  {
    Stakes();
    assert Names([3]) == {3};
    var d := VoteDigest(DigestOf(b), b.round);
    assert [3][..0] == [];
    assert SignersOf([], d) == multiset{};
    assert SignersOf([3], d) == multiset{} + multiset{(3, d)} == multiset{(3, d)};
  }

  lemma BlocksValid()
    ensures ValidBlock(COMMITTEE, A()) && ValidBlock(COMMITTEE, B()) && ValidBlock(COMMITTEE, TwinB())
    ensures ValidBlock(COMMITTEE, C()) && ValidBlock(COMMITTEE, D())
  {
    hide ValidQC;
    CertificateValid(A());
    CertificateValid(B());
    CertificateValid(C());
  }

  // ----- node 3 -----

  const N3: Node := Node(3, COMMITTEE)
  const N1: Node := Node(1, COMMITTEE)

  function S1(): Replica {
    INITIAL.(lastVoted := 1, store := map[DigestOf(A()) := A()], admitted := {A()}, written := {A()},
             signings := [VoteFor(3, A())])
  }

  function S2(): Replica {
    S1().(round := 3, lastVoted := 2, highQC := Certificate(B()), store := S1().store[DigestOf(B()) := B()],
          admitted := {A(), B()}, written := {A(), B()}, proposals := [Proposal(3, Certificate(B()), None)],
          signings := [VoteFor(3, A()), VoteFor(3, B())])
  }

  function S3(): Replica {
    S2().(lastVoted := 3, lastCommitted := 1, store := S2().store[DigestOf(C()) := C()],
          admitted := {A(), B(), C()}, written := {A(), B(), C()},
          emitted := [A()], commits := [A()], signings := [VoteFor(3, A()), VoteFor(3, B()), VoteFor(3, C())])
  }

  lemma CleanupNew(round: nat)
    ensures Cleanup(NEW_AGGREGATOR, round) == NEW_AGGREGATOR
  {
  }

  lemma Node3Starts()
    ensures Start(N3) == INITIAL
  {
    hide Leader;
    Leaders(1);
  }

  lemma SignsA(stored: Replica)
    requires stored == INITIAL.(admitted := {A()}, written := {A()}, store := map[DigestOf(A()) := A()])
    ensures CanVote(stored, A()) && SignVote(N3, stored, A()) == S1()
  {
    assert INITIAL.signings + [VoteFor(3, A())] == [VoteFor(3, A())];
  }

  lemma AcceptsA(stored: Replica)
    requires stored == INITIAL.(admitted := {A()}, written := {A()}, store := map[DigestOf(A()) := A()])
    ensures VoteIfSafe(N3, stored, A()) == S1()
  {
    hide Leader, HandleVote, SignVote, CanVote, SortedKeys;
    Leaders(2);
    SignsA(stored);
  }

  lemma Node3SeesA()
    ensures HandleProposal(N3, INITIAL, A(), true) == S1()
  {
    hide ValidBlock, Leader, CommitWalk, VoteIfSafe;
    BlocksValid();
    Leaders(1);
    var informed := Admit(ProcessCertificates(INITIAL, A()), A());
    assert informed == INITIAL.(admitted := {A()});
    var stored := StoreAndCommit(informed, A(), GENESIS, GENESIS);
    AcceptsA(stored);
  }

  /** Where node 3 leads the next round, its own vote completes the certificate for a block. */
  lemma OwnVoteCertifies(s: Replica, b: Block)
    requires s.round == b.round && s.round % 4 == 2 && s.aggregator == NEW_AGGREGATOR && s.highQC.round < s.round
    ensures HandleVote(N3, s, NewVote(N3, b))
            == s.(round := s.round + 1, highQC := Certificate(b),
                  proposals := s.proposals + [Proposal(s.round + 1, Certificate(b), None)])
  {
    hide Threshold, Leader, TotalStake;
    Stakes();
    Leaders(s.round + 1);
    var v := NewVote(N3, b);
    assert NEW_QC_MAKER.sum + v.signature.parts == v.signature.parts;
    assert NEW_QC_MAKER.voters + [3] == [3];
    assert AddStake(0, COMMITTEE.StakeOf(3)) == 9;
    var out := AppendVote(COMMITTEE, NEW_QC_MAKER, v).1;
    assert out == Aggregation.Made(Certificate(b));
    var added := s.(aggregator := AddVote(COMMITTEE, s.aggregator, v).0);
    assert Cleanup(added.aggregator, s.round + 1) == NEW_AGGREGATOR;
  }

  lemma Node3SeesB()
    ensures HandleProposal(N3, S1(), B(), true) == S2()
  {
    hide ValidBlock, Leader, CommitWalk, HandleVote;
    BlocksValid();
    Leaders(2);
    Leaders(3);
    CleanupNew(2);
    var informed := Admit(ProcessCertificates(S1(), B()), B());
    assert informed == S1().(round := 2, highQC := Certificate(A()), admitted := {A(), B()});
    var stored := informed.(store := S2().store, written := {A(), B()});
    assert StoreAndCommit(informed, B(), A(), GENESIS) == stored;
    var signed := SignVote(N3, stored, B());
    OwnVoteCertifies(signed, B());
    assert ProcessBlock(N3, informed, B()) == HandleVote(N3, signed, NewVote(N3, B()));
  }

  lemma CommitOfA(store: BlockStore)
    ensures CommitWalk(store, 0, A()) == Some([A()])
  {
    assert IsWalk(store, 0, [A()]);
    WalkUnique(store, 0, CommitWalk(store, 0, A()).value, [A()]);
  }

  lemma Node3SeesC()
    ensures Handle(N3, S2(), Loopback(C())) == S3()
  {
    hide Leader, CommitWalk, HandleVote;
    Leaders(4);
    var admitted := Admit(S2(), C());
    assert Parent(admitted.store, C()) == Some(B()) && Parent(admitted.store, B()) == Some(A());
    CommitOfA(S3().store);
    assert Emission([A()]) == [A()];
    var committed := StoreAndCommit(admitted, C(), B(), A());
    assert committed == S3().(lastVoted := 2, signings := S2().signings);
    assert VoteIfSafe(N3, committed, C()) == SignVote(N3, committed, C());
  }

  // ----- node 1 -----

  function T0(): Replica { INITIAL.(proposals := [Proposal(1, GENESIS_QC, None)]) }

  function T1(): Replica {
    T0().(store := map[DigestOf(TwinB()) := TwinB()], admitted := {TwinB()}, written := {TwinB()})
  }

  function T2(): Replica {
    T1().(round := 3, lastVoted := 3, highQC := Certificate(B()), store := T1().store[DigestOf(C()) := C()],
          admitted := {TwinB(), C()}, written := {TwinB(), C()}, signings := [VoteFor(1, C())])
  }

  lemma Node1SeesTwin()
    ensures Start(N1) == T0()
    ensures HandleProposal(N1, T0(), TwinB(), true) == T1()
  {
    hide ValidBlock, Leader, CommitWalk;
    BlocksValid();
    Leaders(1);
    Leaders(2);
  }

  lemma Node1SeesC()
    ensures HandleProposal(N1, T1(), C(), true) == T2()
  {
    hide ValidBlock, Leader, CommitWalk, HandleVote;
    BlocksValid();
    Leaders(3);
    Leaders(4);
    CleanupNew(3);
    var informed := Admit(ProcessCertificates(T1(), C()), C());
    assert informed == T1().(round := 3, highQC := Certificate(B()), admitted := {TwinB(), C()});
    assert Parent(informed.store, C()) == Some(TwinB()) && Parent(informed.store, TwinB()) == Some(GENESIS);
    var stored := StoreAndCommit(informed, C(), TwinB(), GENESIS);
    assert stored == informed.(store := T2().store, written := {TwinB(), C()});
  }

  lemma CommitOfTwin(store: BlockStore)
    ensures CommitWalk(store, 0, TwinB()) == Some([TwinB(), GENESIS])
  {
    assert IsWalk(store, 0, [TwinB(), GENESIS]);
    WalkUnique(store, 0, CommitWalk(store, 0, TwinB()).value, [TwinB(), GENESIS]);
  }

  lemma Node1SeesD()
    ensures HandleProposal(N1, T2(), D(), true).emitted == [GENESIS, TwinB()]
    ensures HandleProposal(N1, T2(), D(), true).lastCommitted == 2
  {
    hide ValidBlock, Leader, CommitWalk, VoteIfSafe;
    BlocksValid();
    Leaders(4);
    var informed := Admit(ProcessCertificates(T2(), D()), D());
    assert Parent(informed.store, D()) == Some(C()) && Parent(informed.store, C()) == Some(TwinB());
    CommitOfTwin(informed.store[DigestOf(D()) := D()]);
    assert Emission([TwinB(), GENESIS]) == [GENESIS, TwinB()];
    var committed := StoreAndCommit(informed, D(), C(), TwinB());
    VoteIfSafeFrame(N1, committed, D());
  }

  // ----- the run -----

  function G(s: Replica, t: Replica, log: seq<Signing>): Global {
    Global(map[1 := t, 3 := s], log)
  }

  function RunStates(): seq<Global> {
    [G(INITIAL, T0(), []), G(S1(), T0(), S1().signings), G(S2(), T0(), S2().signings), G(S3(), T0(), S3().signings),
     G(S3(), T1(), S3().signings), G(S3(), T2(), S3().signings + [VoteFor(1, C())])]
  }

  lemma FromNode3(sys: System, b: Block, log: seq<Signing>, i: nat)
    requires i < |log| && log[i] == VoteFor(3, b)
    ensures Unforged(EvidenceOf(sys, log), Certificate(b).signature)
  {
    assert SignedDigest(log[i]) == VoteDigest(DigestOf(b), b.round);
  }

  /** What node 3 has voted for is certified. */
  lemma CertifiedBy3(sys: System, b: Block, log: seq<Signing>, i: nat)
    requires sys.committee == COMMITTEE && i < |log| && log[i] == VoteFor(3, b)
    ensures Certified(sys, log, DigestOf(b), b.round)
  {
    hide Weight, Threshold;
    Stakes();
    assert SignedDigest(log[i]) == VoteDigest(DigestOf(b), b.round);
    assert Backers(sys, log, {3}, DigestOf(b), b.round);
  }

  lemma RunStarts()
    ensures Init(SYS, RunStates()[0])
  {
    hide Start, Leader;
    Node3Starts();
    Node1SeesTwin();
    assert NodeOf(SYS, 3) == N3 && NodeOf(SYS, 1) == N1;
  }

  lemma Steps3()
    ensures Next(SYS, G(INITIAL, T0(), []), G(S1(), T0(), S1().signings))
    ensures Next(SYS, G(S1(), T0(), S1().signings), G(S2(), T0(), S2().signings))
    ensures Next(SYS, G(S2(), T0(), S2().signings), G(S3(), T0(), S3().signings))
  {
    hide HandleProposal, ProcessBlock, EvidenceOf, HandleVote, HandleTimeout, HandleTC, LocalTimeoutRound;
    assert NodeOf(SYS, 3) == N3;
    Node3SeesA();
    StepBy(INITIAL, T0(), [], S1(), S1().signings, ProposeMsg(A(), true));
    Node3SeesB();
    FromNode3(SYS, A(), S1().signings, 0);
    StepBy(S1(), T0(), S1().signings, S2(), S2().signings, ProposeMsg(B(), true));
    StepC();
  }

  lemma StepC()
    ensures Next(SYS, G(S2(), T0(), S2().signings), G(S3(), T0(), S3().signings))
  {
    hide ProcessBlock, EvidenceOf, Next, Handle;
    Node3SeesC();
    assert MadeByProposer(N3, S2().proposals, C());
    assert NewSignings(S2(), S3()) == [VoteFor(3, C())];
    StepBy(S2(), T0(), S2().signings, S3(), S3().signings, Loopback(C()));
  }

  lemma StepBy(s: Replica, t: Replica, log: seq<Signing>, s': Replica, log': seq<Signing>, e: Event)
    requires s.health.Running? && Deliverable(N3, EvidenceOf(SYS, log), s, e) && Handle(N3, s, e) == s'
    requires log' == log + NewSignings(s, s')
    ensures Next(SYS, G(s, t, log), G(s', t, log'))
  {
    hide Deliverable, Handle, EvidenceOf;
    var g := G(s, t, log);
    assert g.nodes[3 := s'] == G(s', t, log').nodes;
    assert Enabled(SYS, g, 3, e) && G(s', t, log') == Apply(SYS, g, 3, e);
  }

  lemma StepBy1(s: Replica, t: Replica, log: seq<Signing>, t': Replica, log': seq<Signing>, e: Event)
    requires t.health.Running? && Deliverable(N1, EvidenceOf(SYS, log), t, e) && Handle(N1, t, e) == t'
    requires log' == log + NewSignings(t, t')
    ensures Next(SYS, G(s, t, log), G(s, t', log'))
  {
    hide Deliverable, Handle, EvidenceOf;
    var g := G(s, t, log);
    assert g.nodes[1 := t'] == G(s, t', log').nodes;
    assert Enabled(SYS, g, 1, e) && G(s, t', log') == Apply(SYS, g, 1, e);
  }

  lemma TwinStep()
    ensures Next(SYS, G(S3(), T0(), S3().signings), G(S3(), T1(), S3().signings))
  {
    hide HandleProposal, EvidenceOf, Start, S3;
    Node1SeesTwin();
    assert S3().signings + NewSignings(T0(), T1()) == S3().signings;
    StepBy1(S3(), T0(), S3().signings, T1(), S3().signings, ProposeMsg(TwinB(), true));
  }

  lemma Steps1()
    ensures Next(SYS, G(S3(), T0(), S3().signings), G(S3(), T1(), S3().signings))
    ensures Next(SYS, G(S3(), T1(), S3().signings), G(S3(), T2(), S3().signings + [VoteFor(1, C())]))
  {
    hide HandleProposal, EvidenceOf, Next;
    TwinStep();
    Node1SeesC();
    FromNode3(SYS, B(), S3().signings, 1);
    assert NewSignings(T1(), T2()) == [VoteFor(1, C())];
    StepBy1(S3(), T1(), S3().signings, T2(), S3().signings + [VoteFor(1, C())], ProposeMsg(C(), true));
  }

  /** The last step: node 1 commits the twin. */
  lemma LastStep() returns (g: Global)
    ensures Next(SYS, RunStates()[5], g)
    ensures 1 in g.nodes && 3 in g.nodes && g.nodes[3] == S3()
    ensures g.nodes[1].emitted == [GENESIS, TwinB()] && g.nodes[1].lastCommitted == 2
  {
    hide HandleProposal, EvidenceOf, NewSignings;
    var log := S3().signings + [VoteFor(1, C())];
    var t := HandleProposal(N1, T2(), D(), true);
    Node1SeesD();
    FromNode3(SYS, C(), log, 2);
    var log' := log + NewSignings(T2(), t);
    StepBy1(S3(), T2(), log, t, log', ProposeMsg(D(), true));
    g := G(S3(), t, log');
  }

  /** Without the premise on digests agreement fails: block A of round 1 is committed by node 3,
      while node 1 has committed up to round 2 and never sends A. */
  lemma AgreementNeedsPremise() returns (g: Global, a: Block)
    ensures ValidSystem(SYS) && Reachable(SYS, g)
    ensures 1 in g.nodes && 3 in g.nodes && a in g.nodes[3].emitted && a != GENESIS
    ensures a.round <= g.nodes[1].lastCommitted && !Sent(g.nodes[1].emitted, DigestOf(a))
    ensures !OneCertifiedParent(SYS, g.log, Seen(g))
  {
    hide Next, Init, ValidSystem, OneCertifiedParent, Seen;
    Stakes();
    g := LastStep();
    a := A();
    RunStarts();
    Steps3();
    Steps1();
    var run := RunStates() + [g];
    assert IsRun(SYS, run) && run[|run| - 1] == g;
    if OneCertifiedParent(SYS, g.log, Seen(g)) {
      EmissionsAgree(SYS, g, 3, 1, a);
    }
  }

  lemma InSeen(g: Global, k: Key, b: Block)
    requires k in g.nodes && b in g.nodes[k].written
    ensures b in Seen(g)
  {
  }

  lemma TwinBreaksPremise(log: seq<Signing>)
    requires |log| > 1 && log[1] == VoteFor(3, B())
    ensures var g := G(S3(), T1(), log); !OneCertifiedParent(SYS, log, Seen(g))
  {
    hide Certified, Seen;
    var g := G(S3(), T1(), log);
    CertifiedBy3(SYS, B(), log, 1);
    InSeen(g, 3, B());
    InSeen(g, 1, TwinB());
    assert DigestOf(B()) == DigestOf(TwinB()) && B().qc.hash != TwinB().qc.hash;
  }

  /** What one honest node has sent, every other that has committed that far has sent too. */
  ghost predicate SentByAll(g: Global) {
    forall k, k', e ::
      k in g.nodes && k' in g.nodes && e in g.nodes[k].emitted && e != GENESIS ==>
      e.round <= g.nodes[k'].lastCommitted ==>
        Sent(g.nodes[k'].emitted, DigestOf(e))
  }

  /** Node 3 has sent block A alone, and node 1 has committed nothing. */
  lemma AgreesSoFar(log: seq<Signing>)
    ensures SentByAll(G(S3(), T1(), log))
  {
    hide S2;
    assert S3().emitted == [A()] && S3().lastCommitted == 1;
    assert T1().emitted == [] && T1().lastCommitted == 0;
    assert Sent([A()], DigestOf(A())) by {
      assert [A()][0] == A();
    }
  }

  lemma ReachesTwin()
    ensures Reachable(SYS, G(S3(), T1(), S3().signings))
  {
    hide Next, Init, S3, T1;
    RunStarts();
    Steps3();
    Steps1();
    var run := RunStates()[..5];
    assert IsRun(SYS, run) && run[|run| - 1] == G(S3(), T1(), S3().signings);
  }

  /** The premise is not necessary: once the twin is stored, and before anything is committed on
      top of it, the premise fails and agreement still holds. */
  lemma PremiseNotNecessary() returns (g: Global)
    ensures ValidSystem(SYS) && Reachable(SYS, g) && !OneCertifiedParent(SYS, g.log, Seen(g)) && SentByAll(g)
    ensures 3 in g.nodes && g.nodes[3].commits != []
  {
    hide Reachable, ValidSystem, OneCertifiedParent, Seen, SentByAll;
    Stakes();
    g := G(S3(), T1(), S3().signings);
    ReachesTwin();
    TwinBreaksPremise(g.log);
    AgreesSoFar(g.log);
  }
}
