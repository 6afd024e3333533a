/** The consensus core as an object whose methods update its fields in place (consensus/core.go).
    Every method is proved to do to the object what the function of the same name in module
    Replicas does to its view, so all results about runs hold of the object. */
module CoreObject {
  import opened Committees
  import opened Messages
  import opened Aggregation
  import opened AggregatorObjects
  import opened Safety
  import opened Chains
  import opened LeaderElection
  import R = Replicas

  class Core {
    const name: Key
    const committee: Committee
    const aggregator: AggregatorObject
    var round: nat
    var lastVotedRound: nat
    var lastCommittedRound: nat
    var highQC: QC
    var store: BlockStore
    var suspended: set<Block>         // handed to the synchronizer or the payload waiter
    var proposals: seq<R.Proposal>    // sent to the proposer
    var emitted: seq<Block>           // sent on the commit channel
    var health: R.Health
    ghost var admitted: set<Block>
    ghost var written: set<Block>
    ghost var commits: seq<Block>
    ghost var signings: seq<Signing>

    ghost predicate Valid()
      reads this, aggregator, aggregator.Repr()
    {
      aggregator.Valid() && committee.authorities.Keys != {}
    }

    ghost function Repr(): set<object>
      reads this, aggregator, aggregator.votes, aggregator.timeouts
    {
      {this} + aggregator.Repr()
    }

    ghost function View(): R.Replica
      reads this, aggregator, aggregator.votes, aggregator.timeouts
    {
      R.Replica(round, lastVotedRound, lastCommittedRound, highQC, store, aggregator.View(), admitted, written,
                suspended, proposals, emitted, commits, signings, health)
    }

    ghost function Identity(): R.Node { R.Node(name, committee) }

    /** SpawnCore and the start of run. */
    constructor (name: Key, committee: Committee)
      requires committee.authorities.Keys != {}
      ensures Valid() && fresh(Repr()) && Identity() == R.Node(name, committee)
      ensures View() == R.Start(R.Node(name, committee))
    {
      hide R.ProposeIfLeader, AggregatorObject.Valid, AggregatorObject.View;
      this.name, this.committee := name, committee;
      aggregator := new AggregatorObject();
      round, lastVotedRound, lastCommittedRound, highQC := 1, 0, 0, GENESIS_QC;
      store, suspended, proposals, emitted, health := map[], {}, [], [], R.Running;
      admitted, written, commits, signings := {}, {}, [], [];
      new;
      assert View() == R.INITIAL;
      ProposeIfLeader(None);
    }

    method AdvanceRound(r: nat)
      requires Valid()
      modifies Repr()
      ensures Valid() && fresh(Repr() - old(Repr()))
      ensures View() == R.AdvanceRound(old(View()), r)
    {
      hide Cleanup, AggregatorObject.Valid, AggregatorObject.View;
      if r < round {
        return;
      }
      round := r + 1;
      aggregator.DropBefore(round);
    }

    method UpdateHighQC(qc: QC)
      modifies this`highQC
      ensures View() == R.UpdateHighQC(old(View()), qc)
    {
      if qc.round > highQC.round {
        highQC := qc;
      }
    }

    method ProcessQC(qc: QC)
      requires Valid()
      modifies Repr()
      ensures Valid() && fresh(Repr() - old(Repr()))
      ensures View() == R.ProcessQC(old(View()), qc)
    {
      AdvanceRound(qc.round);
      UpdateHighQC(qc);
    }

    method ProposeIfLeader(tc: Option<TC>)
      requires committee.authorities.Keys != {}
      modifies this`proposals
      ensures View() == R.ProposeIfLeader(Identity(), old(View()), tc)
    {
      var leader := GetLeader(committee, round);
      if name == leader {
        proposals := proposals + [R.Proposal(round, highQC, tc)];
      }
    }

    /** Act on a QC the node has just assembled. */
    method ActOnQC(qc: QC)
      requires Valid()
      modifies Repr()
      ensures Valid() && fresh(Repr() - old(Repr()))
      ensures View() == R.ProposeIfLeader(Identity(), R.ProcessQC(old(View()), qc), None)
    {
      hide Leader, R.ProcessQC, AggregatorObject.Valid, AggregatorObject.View;
      ProcessQC(qc);
      ProposeIfLeader(None);
    }

    /** Act on a TC, assembled or received. */
    method ActOnTC(tc: TC)
      requires Valid()
      modifies Repr()
      ensures Valid() && fresh(Repr() - old(Repr()))
      ensures View() == R.ProposeIfLeader(Identity(), R.AdvanceRound(old(View()), tc.round), Some(tc))
    {
      hide Leader, R.AdvanceRound, AggregatorObject.Valid, AggregatorObject.View;
      AdvanceRound(tc.round);
      ProposeIfLeader(Some(tc));
    }

    method HandleVote(v: Vote)
      requires Valid()
      modifies Repr()
      ensures Valid() && fresh(Repr() - old(Repr()))
      ensures View() == R.HandleVote(Identity(), old(View()), v)
    {
      hide AddVote, R.ProposeIfLeader, R.ProcessQC, AggregatorObject.Valid, AggregatorObject.View;
      if v.round < round {
        return;
      }
      if committee.StakeOf(v.author) == 0 || !SignatureVerifies(v.signature, VoteDigestOf(v), v.author) {
        return;
      }
      var out := aggregator.AddVote(committee, v);
      if out.Made? {
        ActOnQC(out.certificate);
      }
    }

    /** Aggregate a timeout, and act on the TC it completes. */
    method AggregateTimeout(t: Timeout)
      requires Valid()
      modifies Repr()
      ensures Valid() && fresh(Repr() - old(Repr()))
      ensures var (collected, out) := AddTimeout(committee, old(View()).aggregator, t);
              var added := old(View()).(aggregator := collected);
              View() == if out.Made? then
                          var tc := out.certificate;
                          R.ProposeIfLeader(Identity(), R.AdvanceRound(added, tc.round), Some(tc))
                        else added
    {
      hide AddTimeout, R.ProposeIfLeader, R.AdvanceRound, AggregatorObject.Valid, AggregatorObject.View;
      var out := aggregator.AddTimeout(committee, t);
      if out.Made? {
        ActOnTC(out.certificate);
      }
    }

    /** A timeout that is not stale and verifies. */
    method AbsorbTimeout(t: Timeout)
      requires Valid() && t.round >= round && ValidTimeout(committee, t)
      modifies Repr()
      ensures Valid() && fresh(Repr() - old(Repr()))
      ensures View() == R.HandleTimeout(Identity(), old(View()), t)
    {
      hide AddTimeout, ValidTimeout, R.ProposeIfLeader, R.ProcessQC, R.AdvanceRound, AggregatorObject.Valid,
           AggregatorObject.View;
      ProcessQC(t.highQC);
      AggregateTimeout(t);
    }

    method HandleTimeout(t: Timeout)
      requires Valid()
      modifies Repr()
      ensures Valid() && fresh(Repr() - old(Repr()))
      ensures View() == R.HandleTimeout(Identity(), old(View()), t)
    {
      hide AddTimeout, ValidTimeout, R.ProposeIfLeader, R.ProcessQC, R.AdvanceRound, AggregatorObject.Valid,
           AggregatorObject.View;
      if t.round < round {
        return;
      }
      var ok := VerifyTimeout(committee, t);
      if ok {
        AbsorbTimeout(t);
      }
    }

    method HandleTC(tc: TC)
      requires Valid()
      modifies Repr()
      ensures Valid() && fresh(Repr() - old(Repr()))
      ensures View() == R.HandleTC(Identity(), old(View()), tc)
    {
      hide R.ProposeIfLeader, ValidTC, R.AdvanceRound, AggregatorObject.Valid, AggregatorObject.View;
      var verdict := VerifyTC(committee, tc);
      if verdict.Rejected? || tc.round < round {
        return;
      }
      ActOnTC(tc);
    }

    method LocalTimeoutRound()
      requires Valid()
      modifies Repr()
      ensures Valid() && fresh(Repr() - old(Repr()))
      ensures View() == R.LocalTimeoutRound(Identity(), old(View()))
    {
      hide R.HandleTimeout, AggregatorObject.Valid, AggregatorObject.View;
      var t := Timeout(highQC, round, name, Sign(name, TimeoutDigest(round, highQC.round)));
      signings := signings + [TimeoutAt(name, round, highQC.round)];
      if round > lastVotedRound {
        lastVotedRound := round;
      }
      HandleTimeout(t);
    }

    /** make_vote; a TC without votes would make the source panic. */
    method MakeVote(b: Block) returns (v: Option<Vote>)
      requires b.tc.Some? ==> b.tc.value.votes != []
      modifies this`lastVotedRound, this`signings
      ensures v.Some? <==> R.CanVote(old(View()), b)
      ensures v.Some? ==> v.value == R.NewVote(Identity(), b) && View() == R.SignVote(Identity(), old(View()), b)
      ensures v.None? ==> View() == old(View())
    {
      var safetyRule1 := b.round > lastVotedRound;
      var safetyRule2 := b.qc.round + 1 == b.round;
      if b.tc.Some? {
        var highest := MaxHighQCRound(b.tc.value);
        safetyRule2 := safetyRule2 || (b.tc.value.round + 1 == b.round && b.qc.round >= highest);
      }
      if !(safetyRule1 && safetyRule2) {
        return None;
      }
      lastVotedRound := b.round;
      signings := signings + [VoteFor(name, b)];
      v := Some(Vote(DigestOf(b), b.round, name, Sign(name, VoteDigest(DigestOf(b), b.round))));
    }

    method GetParentBlock(b: Block) returns (p: Option<Block>)
      ensures p == Parent(store, b)
      ensures IsGenesisQC(b.qc) ==> p == Some(GENESIS)
      ensures !IsGenesisQC(b.qc) ==> (p.Some? <==> b.qc.hash in store) && (p.Some? ==> p.value == store[b.qc.hash])
    {
      if IsGenesisQC(b.qc) {
        return Some(GENESIS);
      }
      p := if b.qc.hash in store then Some(store[b.qc.hash]) else None;
    }

    /** The loop of commit. A missing parent is the panic. A loop that has taken more steps than the
        store has blocks has been somewhere twice, so the source would never leave it; here it is
        cut off and the node counts as hung. */
    method WalkDown(b: Block) returns (outcome: R.Health, toCommit: seq<Block>)
      ensures outcome.Running? ==>
                var walk := CommitWalk(store, lastCommittedRound, b);
                walk.Some? && toCommit + [b] == Emission(walk.value)
      ensures outcome.Panicked? ==>
                Panics(store, lastCommittedRound, b) && CommitWalk(store, lastCommittedRound, b).None?
      ensures outcome.Endless? ==> LeadsIntoCycle(store, lastCommittedRound, b)
      ensures !outcome.Fatal?
    {
      hide LeadsIntoCycle;
      var last := lastCommittedRound;
      ghost var trail := [b];
      toCommit := [];
      var parent := b;
      while last + 1 < parent.round
        invariant IsTrail(store, last, trail) && trail[0] == b
        invariant parent == trail[|trail| - 1] && toCommit == trail[1..]
        decreases |store| + 2 - |trail|
      {
        if |toCommit| > |store| {
          LongTrailRepeats(store, last, trail);
          return R.Endless, toCommit;
        }
        var ancestor := GetParentBlock(parent);
        if ancestor.None? {
          assert IsStopped(store, last, trail);
          PanicExcludes(store, last, b);
          return R.Panicked, toCommit;
        }
        toCommit := toCommit + [ancestor.value];
        parent := ancestor.value;
        trail := trail + [parent];
      }
      assert IsWalk(store, last, trail);
      WalkUnique(store, last, trail, CommitWalk(store, last, b).value);
      outcome := R.Running;
    }

    method Commit(b: Block)
      modifies this`lastCommittedRound, this`emitted, this`commits, this`health
      ensures View() == R.Commit(old(View()), b)
    {
      hide LeadsIntoCycle, Panics, IsWalk;
      if lastCommittedRound >= b.round {
        return;
      }
      var outcome, toCommit := WalkDown(b);
      if !outcome.Running? {
        if outcome.Endless? {
          CycleExcludes(store, lastCommittedRound, b);
        }
        health := outcome;
        return;
      }
      lastCommittedRound := b.round;
      commits := commits + [b];
      Emit(toCommit + [b]);
    }

    method Emit(blocks: seq<Block>)
      modifies this`emitted
      ensures emitted == old(emitted) + blocks
    {
      for i := 0 to |blocks|
        invariant emitted == old(emitted) + blocks[..i]
      {
        emitted := emitted + [blocks[i]];
      }
    }

    method StoreAndCommit(b: Block, b1: Block, b0: Block)
      modifies this`store, this`written, this`lastCommittedRound, this`emitted, this`commits, this`health
      ensures View() == R.StoreAndCommit(old(View()), b, b1, b0)
    {
      hide R.Commit;
      store, written := store[DigestOf(b) := b], written + {b};
      if b0.round + 1 == b1.round {
        Commit(b0);
      }
    }

    method VoteIfSafe(b: Block)
      requires Valid() && (b.tc.Some? ==> b.tc.value.votes != [])
      modifies Repr()
      ensures Valid() && fresh(Repr() - old(Repr()))
      ensures View() == R.VoteIfSafe(Identity(), old(View()), b)
    {
      hide R.HandleVote, R.CanVote, Leader, AggregatorObject.Valid, AggregatorObject.View;
      var nextLeader := GetLeader(committee, round + 1);
      var v := MakeVote(b);
      if v.Some? && nextLeader == name {
        HandleVote(v.value);
      }
    }

    /** processBlock; a missing grandparent is the fatal branch of getAncestors. */
    method ProcessBlock(b: Block)
      requires Valid() && (b.tc.Some? ==> b.tc.value.votes != [])
      modifies Repr()
      ensures Valid() && fresh(Repr() - old(Repr()))
      ensures View() == R.ProcessBlock(Identity(), old(View()), b)
    {
      hide R.VoteIfSafe, R.StoreAndCommit, AggregatorObject.Valid, AggregatorObject.View;
      var b1 := GetParentBlock(b);
      if b1.None? {
        suspended := suspended + {b};
        return;
      }
      var b0 := GetParentBlock(b1.value);
      if b0.None? {
        health := R.Fatal;
        return;
      }
      StoreAndCommit(b, b1.value, b0.value);
      if health.Running? {
        VoteIfSafe(b);
      }
    }

    /** The certificates of a verified block. */
    method ProcessCertificates(b: Block)
      requires Valid()
      modifies Repr()
      ensures Valid() && fresh(Repr() - old(Repr()))
      ensures View() == R.ProcessCertificates(old(View()), b)
    {
      hide R.ProcessQC, R.AdvanceRound, AggregatorObject.Valid, AggregatorObject.View;
      ProcessQC(b.qc);
      if b.tc.Some? {
        AdvanceRound(b.tc.value.round);
      }
    }

    /** Process an admitted block, or suspend it until its payload is there. */
    method ProcessOrSuspend(b: Block, payloadReady: bool)
      requires Valid() && (b.tc.Some? ==> b.tc.value.votes != [])
      modifies Repr()
      ensures Valid() && fresh(Repr() - old(Repr()))
      ensures View() == if payloadReady then R.ProcessBlock(Identity(), old(View()), b)
                        else old(View()).(waiting := old(View()).waiting + {b})
    {
      hide R.ProcessBlock, AggregatorObject.Valid, AggregatorObject.View;
      if payloadReady {
        ProcessBlock(b);
      } else {
        suspended := suspended + {b};
      }
    }

    /** A block of the right leader that verifies. */
    method AbsorbProposal(b: Block, payloadReady: bool)
      requires Valid() && b.author == Leader(committee, b.round) && ValidBlock(committee, b)
      modifies Repr()
      ensures Valid() && fresh(Repr() - old(Repr()))
      ensures View() == R.HandleProposal(Identity(), old(View()), b, payloadReady)
    {
      hide R.ProcessBlock, Leader, R.ProcessCertificates, ValidBlock, AggregatorObject.Valid, AggregatorObject.View;
      VerifiedTCHasVotes(committee, b);
      ProcessCertificates(b);
      admitted := admitted + {b};
      ProcessOrSuspend(b, payloadReady);
    }

    /** handleProposal; whether the payload is at hand is the mempool driver's answer. */
    method HandleProposal(b: Block, payloadReady: bool)
      requires Valid()
      modifies Repr()
      ensures Valid() && fresh(Repr() - old(Repr()))
      ensures View() == R.HandleProposal(Identity(), old(View()), b, payloadReady)
    {
      hide R.ProcessBlock, Leader, R.ProcessCertificates, ValidBlock, AggregatorObject.Valid, AggregatorObject.View;
      var leader := GetLeader(committee, b.round);
      if b.author != leader {
        return;
      }
      var ok := VerifyBlock(committee, b);
      if ok {
        AbsorbProposal(b, payloadReady);
      }
    }

    /** A looped-back block. */
    method HandleLoopback(b: Block)
      requires Valid() && (b.tc.Some? ==> b.tc.value.votes != [])
      modifies Repr()
      ensures Valid() && fresh(Repr() - old(Repr()))
      ensures View() == R.Handle(Identity(), old(View()), R.Loopback(b))
    {
      hide R.ProcessBlock, AggregatorObject.Valid, AggregatorObject.View;
      admitted := admitted + {b};
      ProcessBlock(b);
    }
  }

  lemma VerifiedTCHasVotes(c: Committee, b: Block)
    requires ValidBlock(c, b)
    ensures b.tc.Some? ==> b.tc.value.votes != []
  {
    assert Names([]) == {};
    EmptyWeight(c);
  }
}
