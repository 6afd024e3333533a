/** What a node must do with a block, a certificate and a request, stated without the handlers: the
    exact effect of every block that reaches it, in every reachable state. */
module Duties {
  import opened Committees
  import opened Messages
  import opened Aggregation
  import opened Safety
  import opened Chains
  import opened LeaderElection
  import opened Replicas
  import opened Protocol
  import opened Agreement
  import Runs

  // ----- voting -----

  /** Both safety rules, as the protocol states them. */
  ghost predicate Safe(lastVoted: nat, b: Block) {
    && b.round > lastVoted
    && (b.qc.round + 1 == b.round
        || (b.tc.Some? && b.tc.value.round + 1 == b.round
            && forall v :: v in b.tc.value.votes ==> v.round <= b.qc.round))
  }

  /** The rest of the ladder, which only an own vote handled on the spot can move. */
  predicate SameRounds(s: Replica, s': Replica) {
    s'.round == s.round && s'.highQC == s.highQC && s'.aggregator == s.aggregator && s'.proposals == s.proposals
  }

  /** One vote is signed exactly if both rules hold; the node counts it itself if it leads the next
      round, and otherwise moves no further. */
  ghost predicate VoteEffect(n: Node, a: Replica, b: Block, s': Replica) {
    && (Safe(a.lastVoted, b) ==> s'.signings == a.signings + [VoteFor(n.name, b)] && s'.lastVoted == b.round)
    && (!Safe(a.lastVoted, b) ==> s'.signings == a.signings && s'.lastVoted == a.lastVoted)
    && if Safe(a.lastVoted, b) && Leader(n.committee, a.round + 1) == n.name then
         SameRounds(HandleVote(n, a, NewVote(n, b)), s')
       else SameRounds(a, s')
  }

  lemma SafeIsCanVote(s: Replica, b: Block)
    ensures CanVote(s, b) <==> Safe(s.lastVoted, b)
  {
    if b.tc.Some? {
      var votes := b.tc.value.votes;
      assert (forall v :: v in votes ==> v.round <= b.qc.round)
             <==> (forall i :: 0 <= i < |votes| ==> votes[i].round <= b.qc.round);
    }
  }

  /** What handling a vote does to the rounds does not depend on what was signed or stored. */
  lemma SameHandling(n: Node, s: Replica, t: Replica, v: Vote)
    requires SameRounds(s, t)
    ensures SameRounds(HandleVote(n, s, v), HandleVote(n, t, v))
    ensures HandleVote(n, t, v).signings == t.signings && HandleVote(n, t, v).lastVoted == t.lastVoted
    ensures HandleVote(n, t, v).admitted == t.admitted && HandleVote(n, t, v).waiting == t.waiting
  {
    hide ValidVote, AddVote, Leader;
  }

  lemma VoteIfSafeExact(n: Node, a: Replica, b: Block)
    ensures VoteEffect(n, a, b, VoteIfSafe(n, a, b)) && SameChain(a, VoteIfSafe(n, a, b))
    ensures VoteIfSafe(n, a, b).admitted == a.admitted && VoteIfSafe(n, a, b).waiting == a.waiting
  {
    hide HandleVote, Leader, CanVote, Safe;
    SafeIsCanVote(a, b);
    VoteIfSafeFrame(n, a, b);
    if CanVote(a, b) {
      SafeRound(a.lastVoted, b);
      SameHandling(n, a, SignVote(n, a, b), NewVote(n, b));
    }
  }

  lemma SafeRound(lastVoted: nat, b: Block)
    requires Safe(lastVoted, b)
    ensures Max(lastVoted, b.round) == b.round
  {
  }

  // ----- committing -----

  /** The 2-chain rule: the grandparent is committed exactly if it and the parent are of consecutive
      rounds and it is above what is committed already; then exactly its walk is sent. */
  ghost predicate CommitEffect(a: Replica, b1: Block, b0: Block, s': Replica) {
    if b0.round + 1 == b1.round && b0.round > a.lastCommitted then
      && s'.commits == a.commits + [b0] && s'.lastCommitted == b0.round
      && exists walk ::
           IsWalk(s'.store, a.lastCommitted, walk) && walk[0] == b0 && s'.emitted == a.emitted + Emission(walk)
    else
      s'.commits == a.commits && s'.lastCommitted == a.lastCommitted && s'.emitted == a.emitted
  }

  /** Nothing but the store has changed. */
  predicate OnlyStored(a: Replica, s': Replica) {
    && SameRounds(a, s') && s'.signings == a.signings && s'.lastVoted == a.lastVoted
    && s'.commits == a.commits && s'.lastCommitted == a.lastCommitted && s'.emitted == a.emitted
  }

  /** Everything processing an admitted block does. */
  ghost predicate BlockEffect(n: Node, a: Replica, b: Block, s': Replica) {
    match Parent(a.store, b)
    case None => s' == a.(waiting := a.waiting + {b})
    case Some(b1) =>
      && s'.store == a.store[DigestOf(b) := b] && s'.written == a.written + {b}
      && s'.waiting == a.waiting && s'.admitted == a.admitted && Parent(a.store, b1).Some?
      && if CommitHangs(a, b) then s'.health.Endless? && OnlyStored(a, s')
         else
           && s'.health.Running? && CommitEffect(a, b1, Parent(a.store, b1).value, s')
           && VoteEffect(n, a, b, s')
  }

  lemma CommitExact(a: Replica, b: Block, b1: Block, b0: Block)
    requires StoreInv(a.store, a.written) && a.health.Running?
    requires Parent(a.store, b) == Some(b1) && Parent(a.store, b1) == Some(b0)
    ensures var s' := StoreAndCommit(a, b, b1, b0);
            && s'.store == a.store[DigestOf(b) := b] && s'.written == a.written + {b}
            && s' == a.(store := s'.store, written := s'.written, lastCommitted := s'.lastCommitted,
                        emitted := s'.emitted, commits := s'.commits, health := s'.health)
            && if CommitHangs(a, b) then s'.health.Endless? && OnlyStored(a, s')
               else s'.health.Running? && CommitEffect(a, b1, b0, s')
  {
    hide StoreInv, LeadsIntoCycle, Panics, IsWalk;
    StoreKeeps(a.store, a.written, b);
    AncestorsFound(a.store, a.written, b1);
    CommitHealth(a.(store := a.store[DigestOf(b) := b], written := a.written + {b}), b0);
  }

  lemma ProcessBlockExact(n: Node, a: Replica, b: Block)
    requires StoreInv(a.store, a.written) && a.health.Running?
    ensures BlockEffect(n, a, b, ProcessBlock(n, a, b))
  {
    hide StoreInv, CommitHangs, StoreAndCommit, VoteIfSafe, CommitEffect, Safe, Leader, HandleVote;
    if Parent(a.store, b).Some? {
      AncestorsFound(a.store, a.written, b);
      var b1 := Parent(a.store, b).value;
      var b0 := Parent(a.store, b1).value;
      CommitExact(a, b, b1, b0);
      var committed := StoreAndCommit(a, b, b1, b0);
      VoteIfSafeExact(n, committed, b);
      SameHandling(n, a, committed, NewVote(n, b));
      CommitEffectSame(a, b1, b0, committed, VoteIfSafe(n, committed, b));
    }
  }

  lemma CommitEffectSame(a: Replica, b1: Block, b0: Block, s: Replica, s': Replica)
    requires SameChain(s, s')
    ensures CommitEffect(a, b1, b0, s) <==> CommitEffect(a, b1, b0, s')
  {
    hide IsWalk;
  }

  // ----- receiving a proposal -----

  predicate Accepts(b: Block, s: Replica, a: Replica) {
    var past := if b.tc.Some? then b.tc.value.round + 1 else 0;
    && a.round == Max(Max(s.round, b.qc.round + 1), past)
    && a.highQC == (if b.qc.round > s.highQC.round then b.qc else s.highQC)
    && a == s.(round := a.round, highQC := a.highQC, aggregator := a.aggregator, admitted := s.admitted + {b})
  }

  /** The makers of the rounds the node has not left are as they were. */
  ghost predicate MakersKept(s: Replica, a: Replica) {
    && (forall r: nat, d: Digest :: r >= a.round ==> VoteMaker(a.aggregator, r, d) == VoteMaker(s.aggregator, r, d))
    && (forall r: nat :: r >= a.round ==> TimeoutMaker(a.aggregator, r) == TimeoutMaker(s.aggregator, r))
  }

  lemma AdvanceKeepsMakers(s: Replica, round: nat)
    ensures MakersKept(s, AdvanceRound(s, round)) && AdvanceRound(s, round).round == Max(s.round, round + 1)
  {
    hide VoteMaker, TimeoutMaker, Cleanup;
    var a := Cleanup(s.aggregator, round + 1);
    forall r: nat, d: Digest | r >= round + 1 ensures VoteMaker(a, r, d) == VoteMaker(s.aggregator, r, d) {
      CleanupExact(s.aggregator, round + 1, r, d);
    }
    forall r: nat | r >= round + 1 ensures TimeoutMaker(a, r) == TimeoutMaker(s.aggregator, r) {
      CleanupExact(s.aggregator, round + 1, r, Zero);
    }
  }

  lemma ProcessQCKeepsMakers(s: Replica, qc: QC)
    ensures MakersKept(s, ProcessQC(s, qc)) && ProcessQC(s, qc).round == Max(s.round, qc.round + 1)
    ensures ProcessQC(s, qc).highQC == if qc.round > s.highQC.round then qc else s.highQC
  {
    hide VoteMaker, TimeoutMaker, AdvanceRound;
    AdvanceKeepsMakers(s, qc.round);
    AdvanceFrame(s, qc.round);
  }

  lemma AdvanceFrame(s: Replica, round: nat)
    ensures AdvanceRound(s, round)
            == s.(round := AdvanceRound(s, round).round, aggregator := AdvanceRound(s, round).aggregator)
  {
  }

  lemma CertificatesExact(s: Replica, b: Block)
    ensures var a := Admit(ProcessCertificates(s, b), b); Accepts(b, s, a) && MakersKept(s, a)
  {
    hide VoteMaker, TimeoutMaker, AdvanceRound, ProcessQC;
    ProcessQCKeepsMakers(s, b.qc);
    ProcessQCFrame(s, b.qc);
    if b.tc.Some? {
      AdvanceKeepsMakers(ProcessQC(s, b.qc), b.tc.value.round);
      AdvanceFrame(ProcessQC(s, b.qc), b.tc.value.round);
    }
  }

  lemma ProcessQCFrame(s: Replica, qc: QC)
    ensures var a := ProcessQC(s, qc); a == s.(round := a.round, highQC := a.highQC, aggregator := a.aggregator)
  {
  }

  /** Everything an event that carries a block does to the node. */
  ghost predicate DeliveryEffect(n: Node, s: Replica, e: Event, s': Replica)
    requires e.ProposeMsg? || e.Loopback?
  {
    var b := e.block;
    if e.Loopback? then BlockEffect(n, s.(admitted := s.admitted + {b}), b, s')
    else if b.author != Leader(n.committee, b.round) || !ValidBlock(n.committee, b) then s' == s
    else
      exists a :: Accepts(b, s, a) && MakersKept(s, a)
                  && if e.payloadReady then BlockEffect(n, a, b, s') else s' == a.(waiting := s.waiting + {b})
  }

  lemma DeliveryExact(n: Node, s: Replica, e: Event)
    requires (e.ProposeMsg? || e.Loopback?) && StoreInv(s.store, s.written) && s.health.Running?
    ensures DeliveryEffect(n, s, e, Handle(n, s, e))
  {
    hide ProcessBlock, ProcessCertificates, BlockEffect, StoreInv, ValidBlock, Leader, MakersKept;
    var b := e.block;
    if e.Loopback? {
      ProcessBlockExact(n, Admit(s, b), b);
    } else {
      var a := Admit(ProcessCertificates(s, b), b);
      CertificatesExact(s, b);
      ProcessBlockExact(n, a, b);
    }
  }

  /** In every reachable state, every block that reaches an honest node has exactly this effect: it is
      suspended if its parent is missing, and otherwise stored, its grandparent is committed by the
      2-chain rule, and it is voted for by the safety rules, unless the commit follows a cycle. */
  lemma BlocksHandledExactly(sys: System, g: Global, k: Key, e: Event)
    requires ValidSystem(sys) && Reachable(sys, g) && Enabled(sys, g, k, e) && (e.ProposeMsg? || e.Loopback?)
    ensures DeliveryEffect(NodeOf(sys, k), g.nodes[k], e, Apply(sys, g, k, e).nodes[k])
  {
    hide ValidSystem, Reachable, GlobalInv, Deliverable, Handle, DeliveryEffect, StoreInv;
    ReachableFacts(sys, g);
    Runs.StoreKept(sys, g, k);
    DeliveryExact(NodeOf(sys, k), g.nodes[k], e);
  }

  // ----- nothing admitted is lost -----

  /** Every admitted block is stored or has a waiter that will loop it back. */
  predicate NothingForgotten(s: Replica) {
    s.admitted <= s.written + s.waiting
  }

  /** Votes, timeouts, TCs and timers admit no block and forget none. */
  lemma MessageAdmitsNothing(n: Node, s: Replica, e: Event)
    requires !e.ProposeMsg? && !e.Loopback?
    ensures Handle(n, s, e).admitted == s.admitted && Handle(n, s, e).waiting == s.waiting
  {
    hide ValidVote, ValidTimeout, ValidTC, AddVote, AddTimeout, Leader;
  }

  lemma StepForgetsNothing(n: Node, s: Replica, e: Event)
    requires StoreInv(s.store, s.written) && s.health.Running? && NothingForgotten(s)
    ensures NothingForgotten(Handle(n, s, e))
  {
    hide Handle, StoreInv, ValidBlock, Leader, CommitHangs, CommitEffect, VoteEffect, MakersKept, OnlyStored;
    if e.ProposeMsg? || e.Loopback? {
      DeliveryExact(n, s, e);
    } else {
      MessageAdmitsNothing(n, s, e);
      MessageFrame(n, s, e);
    }
  }

  /** Over whole runs: no block an honest node has admitted is lost. */
  lemma {:induction false} NoBlockForgotten(sys: System, run: seq<Global>, i: nat, k: Key)
    requires ValidSystem(sys) && IsRun(sys, run) && i < |run| && k in run[i].nodes
    ensures NothingForgotten(run[i].nodes[k])
  {
    hide ValidSystem, GlobalInv, Handle, Deliverable, Start, StoreInv, EvidenceOf;
    if i == 0 {
      StartAdmitsNothing(NodeOf(sys, k));
    } else {
      var g := run[i - 1];
      assert Next(sys, g, run[i]);
      var k', e :| Enabled(sys, g, k', e) && run[i] == Apply(sys, g, k', e);
      NoBlockForgotten(sys, run, i - 1, k);
      RunInv(sys, run, i - 1);
      if k == k' {
        Runs.StoreKept(sys, g, k);
        StepForgetsNothing(NodeOf(sys, k), g.nodes[k], e);
      }
    }
  }

  /** At start-up the leader of round 1, and nobody else, asks for a proposal on genesis. */
  lemma StartProposes(n: Node)
    ensures Start(n).proposals == if Leader(n.committee, 1) == n.name then [Proposal(1, GENESIS_QC, None)] else []
  {
    hide Leader;
  }

  lemma StartAdmitsNothing(n: Node)
    ensures Start(n).admitted == {}
  {
    hide Leader;
  }

  // ----- proposals are accepted by peers -----

  ghost predicate LedByNode(n: Node, ps: seq<Proposal>) {
    forall i :: 0 <= i < |ps| ==> Leader(n.committee, ps[i].round) == n.name
  }

  lemma ProposeAsLeader(n: Node, s: Replica, tc: Option<TC>)
    requires LedByNode(n, s.proposals)
    ensures LedByNode(n, ProposeIfLeader(n, s, tc).proposals)
  {
    hide Leader;
  }

  lemma VoteProposesAsLeader(n: Node, s: Replica, v: Vote)
    requires LedByNode(n, s.proposals)
    ensures LedByNode(n, HandleVote(n, s, v).proposals)
  {
    hide ProposeIfLeader, ValidVote, AddVote, LedByNode;
    var (aggregator, out) := AddVote(n.committee, s.aggregator, v);
    if out.Made? {
      var added := s.(aggregator := aggregator);
      ProposeAsLeader(n, ProcessQC(added, out.certificate), None);
    }
  }

  lemma TimeoutProposesAsLeader(n: Node, s: Replica, t: Timeout)
    requires LedByNode(n, s.proposals)
    ensures LedByNode(n, HandleTimeout(n, s, t).proposals)
  {
    hide ProposeIfLeader, ValidTimeout, AddTimeout, LedByNode, AdvanceRound, ProcessQC;
    var informed := ProcessQC(s, t.highQC);
    ProcessQCFrame(s, t.highQC);
    var (aggregator, out) := AddTimeout(n.committee, informed.aggregator, t);
    if out.Made? {
      var added := informed.(aggregator := aggregator);
      AdvanceFrame(added, out.certificate.round);
      ProposeAsLeader(n, AdvanceRound(added, out.certificate.round), Some(out.certificate));
    }
  }

  lemma BlockProposesAsLeader(n: Node, s: Replica, b: Block)
    requires LedByNode(n, s.proposals)
    ensures LedByNode(n, ProcessBlock(n, s, b).proposals)
  {
    hide HandleVote, CommitWalk, LedByNode, Leader, CanVote;
    if Parent(s.store, b).Some? && Parent(s.store, Parent(s.store, b).value).Some? {
      var b1 := Parent(s.store, b).value;
      var committed := StoreAndCommit(s, b, b1, Parent(s.store, b1).value);
      VoteProposesAsLeader(n, SignVote(n, committed, b), NewVote(n, b));
    }
  }

  lemma HandleProposesAsLeader(n: Node, s: Replica, e: Event)
    requires LedByNode(n, s.proposals)
    ensures LedByNode(n, Handle(n, s, e).proposals)
  {
    hide LedByNode, HandleVote, HandleTimeout, ProcessBlock, ProcessCertificates, ProposeIfLeader, AdvanceRound,
         ValidBlock, ValidTC,
         Leader;
    match e
    case ProposeMsg(b, _) =>
      CertificatesExact(s, b);
      BlockProposesAsLeader(n, Admit(ProcessCertificates(s, b), b), b);
    case Loopback(b) => BlockProposesAsLeader(n, Admit(s, b), b);
    case VoteMsg(v) => VoteProposesAsLeader(n, s, v);
    case TimeoutMsg(t) => TimeoutProposesAsLeader(n, s, t);
    case TcMsg(tc) =>
      AdvanceFrame(s, tc.round);
      ProposeAsLeader(n, AdvanceRound(s, tc.round), Some(tc));
    case TimerFired => TimeoutProposesAsLeader(n, SignTimeout(n, s), NewTimeout(n, s));
  }

  lemma {:induction false} ProposesOnlyAsLeader(sys: System, run: seq<Global>, i: nat, k: Key)
    requires ValidSystem(sys) && IsRun(sys, run) && i < |run| && k in run[i].nodes
    ensures LedByNode(NodeOf(sys, k), run[i].nodes[k].proposals)
  {
    hide ValidSystem, Handle, Deliverable, Start, EvidenceOf, Leader;
    if i == 0 {
      StartProposes(NodeOf(sys, k));
    } else {
      var g := run[i - 1];
      assert Next(sys, g, run[i]);
      var k', e :| Enabled(sys, g, k', e) && run[i] == Apply(sys, g, k', e);
      ProposesOnlyAsLeader(sys, run, i - 1, k);
      if k == k' {
        HandleProposesAsLeader(NodeOf(sys, k), g.nodes[k], e);
      }
    }
  }

  /** The block the proposer makes of a request. */
  function Made(k: Key, p: Proposal, payload: seq<Digest>): Block {
    Block(p.qc, p.tc, k, p.round, payload, Sign(k, BlockDigest(k, p.round, payload)))
  }

  lemma MadeIsValid(sys: System, g: Global, k: Key, i: nat, payload: seq<Digest>)
    requires ValidSystem(sys) && GlobalInv(sys, g) && k in g.nodes && i < |g.nodes[k].proposals|
    requires sys.committee.StakeOf(k) > 0
    ensures ValidBlock(sys.committee, Made(k, g.nodes[k].proposals[i], payload))
  {
    hide ValidSystem, LogInv, EvidenceOf, AggregatorInv, BlocksInv, StoreInv, LogRemembered, AcceptableQC, ValidTC,
         GenuineQC,
         GenuineTC;
    var s := g.nodes[k];
    assert Inv(NodeOf(sys, k), EvidenceOf(sys, g.log), s);
    assert ProposalOk(sys.committee, EvidenceOf(sys, g.log), s.round, s.highQC.round, s.proposals[i]);
  }

  /** Whatever an honest node with stake proposes, with any payload, every honest node admits, in
      whatever state it is. */
  lemma PeersAdmitProposals(sys: System, run: seq<Global>, i: nat, k: Key, j: nat, payload: seq<Digest>, peer: Key,
                            s: Replica,
                            ready: bool)
    requires ValidSystem(sys) && IsRun(sys, run) && i < |run| && k in run[i].nodes && j < |run[i].nodes[k].proposals|
    requires sys.committee.StakeOf(k) > 0
    ensures var b := Made(k, run[i].nodes[k].proposals[j], payload);
            b in HandleProposal(NodeOf(sys, peer), s, b, ready).admitted
  {
    hide ValidSystem, GlobalInv, IsRun, ValidBlock, Leader, ProcessBlock, ProcessCertificates;
    RunInv(sys, run, i);
    MadeIsValid(sys, run[i], k, j, payload);
    ProposesOnlyAsLeader(sys, run, i, k);
    var b := Made(k, run[i].nodes[k].proposals[j], payload);
    BlockStaysAdmitted(NodeOf(sys, peer), Admit(ProcessCertificates(s, b), b), b);
  }

  lemma BlockStaysAdmitted(n: Node, s: Replica, b: Block)
    ensures ProcessBlock(n, s, b).admitted == s.admitted
  {
    hide HandleVote, CommitWalk, Leader, CanVote;
    if Parent(s.store, b).Some? && Parent(s.store, Parent(s.store, b).value).Some? {
      var b1 := Parent(s.store, b).value;
      var committed := StoreAndCommit(s, b, b1, Parent(s.store, b1).value);
      SameHandling(n, committed, SignVote(n, committed, b), NewVote(n, b));
    }
  }

  // ----- messages in general -----

  /** A received TC, whatever state the node is in. */
  lemma TCsHandledExactly(sys: System, g: Global, k: Key, tc: TC)
    requires k in g.nodes
    ensures var s, s' := g.nodes[k], Apply(sys, g, k, TcMsg(tc)).nodes[k];
            if tc.round < s.round || !ValidTC(sys.committee, tc) then s' == s
            else
              && s'.round == tc.round + 1 && s'.highQC == s.highQC
              && s'.proposals == s.proposals
                 + (if Leader(sys.committee, tc.round + 1) != k then []
                    else [Proposal(tc.round + 1, s.highQC, Some(tc))])
  {
    hide ValidTC, Leader, HandleTC;
    TCAdvances(NodeOf(sys, k), g.nodes[k], tc);
  }
}
