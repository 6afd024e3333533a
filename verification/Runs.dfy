/** Results over whole runs that do not need the premise on digests, except where stated. */
module Runs {
  import opened Committees
  import opened Messages
  import opened Aggregation
  import opened Safety
  import opened Chains
  import opened Replicas
  import opened Protocol
  import opened Agreement

  /** Any two certificates that verify, anywhere in a run: same round, same block; and round 0
      belongs to the genesis marker alone. */
  lemma OneCertifiedHashPerRound(sys: System, g: Global, qc: QC, qc': QC)
    requires ValidSystem(sys) && Reachable(sys, g)
    requires ValidQC(sys.committee, qc) && Unforged(EvidenceOf(sys, g.log), qc.signature)
    requires ValidQC(sys.committee, qc') && Unforged(EvidenceOf(sys, g.log), qc'.signature)
    ensures qc.round > 0
    ensures qc.round == qc'.round ==> qc.hash == qc'.hash
  {
    hide ValidSystem, Reachable, ValidQC, EvidenceOf, Unforged, GenuineQC, Certified, LogInv, NodesInv, LogRemembered;
    ReachableFacts(sys, g);
    assert AcceptableQC(sys.committee, qc) && AcceptableQC(sys.committee, qc');
    VerifiedQCIsGenuine(sys.committee, EvidenceOf(sys, g.log), qc);
    VerifiedQCIsGenuine(sys.committee, EvidenceOf(sys, g.log), qc');
    QCIsCertified(sys, g.log, qc);
    QCIsCertified(sys, g.log, qc');
    var _ := HonestVoter(sys, g.log, qc.hash, qc.round);
    if qc.round == qc'.round {
      CertifiedUnique(sys, g.log, qc.hash, qc'.hash, qc.round);
    }
  }

  /** A block that an honest node admitted and a quorum certified extends a lower round, though no
      line of the node compares the two. The block need not have been stored; the premise then
      covers it along with the stored ones. */
  lemma CertifiedBlockDescends(sys: System, g: Global, k: Key, b: Block)
    requires ValidSystem(sys) && Reachable(sys, g) && OneCertifiedParent(sys, g.log, Seen(g) + {b})
    requires k in g.nodes && b in g.nodes[k].admitted && Certified(sys, g.log, DigestOf(b), b.round)
    ensures b.qc.round < b.round
  {
    hide ValidSystem, Reachable, Certified, GlobalInv, OneCertifiedParent, Seen, Justified, ChainInv, World;
    ReachableFacts(sys, g);
    AdmittedIsJustified(sys, g, k, b);
    SeenIsJustified(sys, g);
    assert LogInv(sys, g.log) by {
      LogKept(sys, g);
    }
    CertifiedDescends(sys, g.log, Seen(g) + {b}, b);
  }

  lemma LogKept(sys: System, g: Global)
    requires GlobalInv(sys, g)
    ensures LogInv(sys, g.log)
  {
  }

  lemma AdmittedIsJustified(sys: System, g: Global, k: Key, b: Block)
    requires GlobalInv(sys, g) && k in g.nodes && b in g.nodes[k].admitted
    ensures Justified(sys, g.log, b)
  {
    hide EvidenceOf, LogInv, AggregatorInv, StoreInv, ProposalsInv, LogRemembered, AcceptableQC, AcceptableTC,
         GenuineQC, GenuineTC;
    assert Inv(NodeOf(sys, k), EvidenceOf(sys, g.log), g.nodes[k]);
    assert BlockOk(sys.committee, EvidenceOf(sys, g.log), g.nodes[k].round, g.nodes[k].highQC.round, b);
  }

  /** Locking: after a certificate for round k+1 whose honest voters all extended round k, honest
      nodes only vote for blocks extending round k or above. */
  lemma VotesStayLocked(sys: System, g: Global, d: Digest, k: nat, i: nat)
    requires ValidSystem(sys) && Reachable(sys, g) && Certified(sys, g.log, d, k + 1)
    requires forall j: nat :: VotedAt(g.log, j, d, k + 1) ==> g.log[j].block.qc.round == k
    requires i < |g.log| && g.log[i].VoteFor? && g.log[i].block.round > k + 1
    ensures g.log[i].block.qc.round >= k
  {
    hide ValidSystem, Reachable, Certified, LogInv, NodesInv, LogRemembered;
    ReachableFacts(sys, g);
    Locking(sys, g.log, d, k, i);
  }

  /** The replica ladder in every reachable state. */
  lemma Ladder(sys: System, g: Global, k: Key)
    requires ValidSystem(sys) && Reachable(sys, g) && k in g.nodes
    ensures g.nodes[k].highQC.round < g.nodes[k].round && g.nodes[k].lastVoted <= g.nodes[k].round
    ensures forall i :: 0 <= i < |g.log| && g.log[i].author == k && g.log[i].VoteFor? ==>
              g.log[i].block.qc.round <= g.nodes[k].highQC.round && g.log[i].block.round <= g.nodes[k].lastVoted
    ensures VoteRoundsFrom(g.nodes[k].aggregator, g.nodes[k].round)
  {
    hide ValidSystem, Reachable, LogInv, EvidenceOf, CertificatesOk, BlocksInv, StoreInv, ProposalsInv, VotesInv,
         TimeoutsInv;
    ReachableFacts(sys, g);
    assert Inv(NodeOf(sys, k), EvidenceOf(sys, g.log), g.nodes[k]);
    forall i | 0 <= i < |g.log| && g.log[i].author == k && g.log[i].VoteFor? ensures
      g.log[i].block.qc.round <= g.nodes[k].highQC.round && g.log[i].block.round <= g.nodes[k].lastVoted
    {
      assert Remembered(g.nodes[k], g.log[i]);
    }
  }

  /** Along a run nothing a node has reached or sent is ever lost. */
  lemma {:induction false} NothingDecreases(sys: System, run: seq<Global>, i: nat, j: nat, k: Key)
    requires ValidSystem(sys) && IsRun(sys, run) && i <= j < |run| && k in run[i].nodes
    ensures k in run[j].nodes && Grows(run[i].nodes[k], run[j].nodes[k])
    decreases j
  {
    hide ValidSystem, GlobalInv, Next, Init, Seen;
    if i < j {
      NothingDecreases(sys, run, i, j - 1, k);
      RunInv(sys, run, j - 1);
      assert Next(sys, run[j - 1], run[j]);
      NextGrows(sys, run[j - 1], run[j]);
    }
  }

  /** A node asks for proposals at strictly increasing rounds, hence at most once per round. */
  lemma ProposalRoundsIncrease(sys: System, g: Global, k: Key, i: nat, j: nat)
    requires ValidSystem(sys) && Reachable(sys, g) && k in g.nodes && i < j < |g.nodes[k].proposals|
    ensures g.nodes[k].proposals[i].round < g.nodes[k].proposals[j].round <= g.nodes[k].round
  {
    hide ValidSystem, Reachable, LogInv, EvidenceOf, CertificatesOk, BlocksInv, StoreInv, AggregatorInv, LogRemembered;
    ReachableFacts(sys, g);
    assert Inv(NodeOf(sys, k), EvidenceOf(sys, g.log), g.nodes[k]);
    var s := g.nodes[k];
    assert ProposalOk(sys.committee, EvidenceOf(sys, g.log), s.round, s.highQC.round, s.proposals[j]);
  }

  /** Whatever a node proposes at start-up, or in answer to any event but a received TC, its peers
      may vote for. */
  lemma OwnProposalsVotable(sys: System, g: Global, k: Key, e: Event)
    requires ValidSystem(sys) && Reachable(sys, g) && Enabled(sys, g, k, e) && !e.TcMsg?
    ensures NewProposalsVotable(g.nodes[k], Apply(sys, g, k, e).nodes[k])
    ensures forall i :: 0 <= i < |Start(NodeOf(sys, k)).proposals| ==> Votable(Start(NodeOf(sys, k)).proposals[i])
  {
    hide ValidSystem, Reachable, GlobalInv, Deliverable, Step, Start, Votable, Handle, NewProposalsVotable,
         EvidenceOf, Inv;
    ReachableFacts(sys, g);
    ApplyStep(sys, g, k, e);
    StartKeeps(NodeOf(sys, k), EvidenceOf(sys, g.log));
  }

  /** The store is ancestor-closed in every reachable state, so a delivered block either waits for
      its parent or finds both ancestors. */
  lemma StoreAncestorClosed(sys: System, g: Global, k: Key, b: Block)
    requires ValidSystem(sys) && Reachable(sys, g) && k in g.nodes
    ensures forall d :: d in g.nodes[k].store ==>
              DigestOf(g.nodes[k].store[d]) == d && Parent(g.nodes[k].store, g.nodes[k].store[d]).Some?
    ensures Parent(g.nodes[k].store, b).Some? ==>
              Parent(g.nodes[k].store, Parent(g.nodes[k].store, b).value).Some?
  {
    hide ValidSystem, Reachable, LogInv, EvidenceOf, CertificatesOk, BlocksInv, ProposalsInv, AggregatorInv,
         LogRemembered;
    ReachableFacts(sys, g);
    assert Inv(NodeOf(sys, k), EvidenceOf(sys, g.log), g.nodes[k]);
    if Parent(g.nodes[k].store, b).Some? {
      AncestorsFound(g.nodes[k].store, g.nodes[k].written, b);
    }
  }

  /** Without any premise: in every reachable state, following parents in a node's store from a
      block whose parent is found never runs into a missing one. */
  lemma ParentsNeverMissing(sys: System, g: Global, k: Key, last: nat, b: Block)
    requires ValidSystem(sys) && Reachable(sys, g) && k in g.nodes && Parent(g.nodes[k].store, b).Some?
    ensures !Panics(g.nodes[k].store, last, b)
    ensures CommitWalk(g.nodes[k].store, last, b).Some? <==> !LeadsIntoCycle(g.nodes[k].store, last, b)
  {
    hide ValidSystem, Reachable, Panics, LeadsIntoCycle, IsWalk;
    StoreAncestorClosed(sys, g, k, b);
    ClosedNeverPanics(g.nodes[k].store, last, b);
  }

  /** Without any premise: an event stops a node exactly if it makes the node commit a block from
      which parents lead into a cycle. The fatal branch and the panic are never taken. */
  lemma StopsExactlyOnCycle(sys: System, g: Global, k: Key, e: Event)
    requires ValidSystem(sys) && Reachable(sys, g) && Enabled(sys, g, k, e)
    ensures var s, s' := g.nodes[k], Apply(sys, g, k, e).nodes[k];
            s'.health == if ReachesProcessBlock(NodeOf(sys, k), e) && CommitHangs(s, e.block) then Endless else Running
  {
    hide ValidSystem, Reachable, GlobalInv, Deliverable, Handle, ReachesProcessBlock, CommitHangs, StoreInv;
    ReachableFacts(sys, g);
    StoreKept(sys, g, k);
    HandleHealth(NodeOf(sys, k), g.nodes[k], e);
  }

  lemma StoreKept(sys: System, g: Global, k: Key)
    requires GlobalInv(sys, g) && k in g.nodes
    ensures StoreInv(g.nodes[k].store, g.nodes[k].written)
  {
    hide LogInv, EvidenceOf, CertificatesOk, BlocksInv, ProposalsInv, AggregatorInv, LogRemembered, StoreInv;
    assert Inv(NodeOf(sys, k), EvidenceOf(sys, g.log), g.nodes[k]);
  }

  /** The node runs, or it is going round a cycle of blocks above its committed round. */
  ghost predicate RunsOrCycles(s: Replica) {
    s.health.Running? || (s.health.Endless? && exists b :: LeadsIntoCycle(s.store, s.lastCommitted, b))
  }

  lemma StepRunsOrCycles(n: Node, s: Replica, e: Event)
    requires StoreInv(s.store, s.written) && s.health.Running?
    ensures RunsOrCycles(Handle(n, s, e))
  {
    hide Handle, LeadsIntoCycle, StoreInv, ValidBlock, LeaderElection.Leader;
    HandleHealth(n, s, e);
    if !Handle(n, s, e).health.Running? {
      var b0 := Parent(s.store, Parent(s.store, e.block).value).value;
      assert LeadsIntoCycle(Handle(n, s, e).store, Handle(n, s, e).lastCommitted, b0);
    }
  }

  /** Without any premise, over whole runs: no honest node ever meets the fatal branch or the panic;
      a node that has stopped is going round a cycle in its store. */
  lemma {:induction false} OnlyCyclesStop(sys: System, run: seq<Global>, i: nat, k: Key)
    requires ValidSystem(sys) && IsRun(sys, run) && i < |run| && k in run[i].nodes
    ensures RunsOrCycles(run[i].nodes[k])
  {
    hide ValidSystem, GlobalInv, Handle, Deliverable, Start, RunsOrCycles, StoreInv, EvidenceOf;
    if i == 0 {
      StartKeeps(NodeOf(sys, k), EvidenceOf(sys, []));
      StartRuns(run[0].nodes[k]);
    } else {
      var g := run[i - 1];
      assert Next(sys, g, run[i]);
      var k', e :| Enabled(sys, g, k', e) && run[i] == Apply(sys, g, k', e);
      OnlyCyclesStop(sys, run, i - 1, k);
      RunInv(sys, run, i - 1);
      if k == k' {
        StoreKept(sys, g, k);
        StepRunsOrCycles(NodeOf(sys, k), g.nodes[k], e);
      }
    }
  }

  lemma StartRuns(s: Replica)
    requires s.health.Running?
    ensures RunsOrCycles(s)
  {
  }

  /** One commit call on a certified block of a node's store, in any reachable state: the loop ends,
      every ancestor-or-self above the old committed round is sent exactly once, nearest ancestor
      first and the block itself last, and at most one block at or below the old round. */
  lemma CommitCallExact(sys: System, g: Global, k: Key, b: Block, last: nat) returns (line: seq<Block>)
    requires ValidSystem(sys) && Reachable(sys, g) && OneCertifiedParent(sys, g.log, Seen(g)) && k in g.nodes
    requires b in Seen(g) && Certified(sys, g.log, DigestOf(b), b.round) && Parent(g.nodes[k].store, b).Some?
    requires b.round > last
    ensures IsLine(g.nodes[k].store, line) && line[0] == b
    ensures CommitWalk(g.nodes[k].store, last, b).Some?
    ensures var sent := Emission(CommitWalk(g.nodes[k].store, last, b).value);
            && (forall i :: 0 <= i < |line| && line[i].round > last ==> multiset(sent)[line[i]] == 1)
            && (forall j :: 0 <= j < |sent| - 2 ==> sent[j].round > last)
            && 0 < |sent| <= |line| && sent == line[1..|sent|] + [b]
  {
    hide ValidSystem, Reachable, Certified, LogInv, OneCertifiedParent, Seen, SeenInv, GlobalInv, StoreIn,
         GenesisMarked, ChainInv;
    ReachableFacts(sys, g);
    WorldOf(sys, g);
    line := LineExists(sys, g.log, g.nodes[k].store, g.nodes[k].written, Seen(g), b);
    CommitEmission(g.nodes[k].store, last, line);
  }
}
