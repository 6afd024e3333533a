/** The quorum arguments of 2-chain HotStuff, over the one global log of what honest nodes signed.
    Nothing here looks at a node: the log facts are what every node step keeps (module Protocol). */
module Safety {
  import opened Committees
  import opened Messages
  import opened Aggregation

  /** A committee and the names that may behave arbitrarily. */
  datatype System = System(committee: Committee, faulty: set<Key>)

  ghost predicate ValidSystem(sys: System) {
    Sound(sys.committee) && 3 * Weight(sys.committee, sys.faulty) < TotalStake(sys.committee)
  }

  predicate Honest(sys: System, k: Key) {
    k in sys.committee.authorities && k !in sys.faulty
  }

  /** One signature made by an honest node: on a block it votes for, or on a timeout. */
  datatype Signing = VoteFor(author: Key, block: Block) | TimeoutAt(author: Key, round: nat, high: nat)

  function SignedDigest(s: Signing): Digest {
    match s
    case VoteFor(_, b) => VoteDigest(DigestOf(b), b.round)
    case TimeoutAt(_, round, high) => TimeoutDigest(round, high)
  }

  ghost predicate Signed(log: seq<Signing>, k: Key, d: Digest) {
    exists i :: 0 <= i < |log| && log[i].author == k && SignedDigest(log[i]) == d
  }

  /** Unforgeability: honest names signed only what the log says; the others anything. */
  ghost function EvidenceOf(sys: System, log: seq<Signing>): Evidence {
    iset p: (Key, Digest) | Honest(sys, p.0) ==> Signed(log, p.0, p.1)
  }

  /** Safety rule 2 of make_vote, for a TC that lists at least one round. */
  predicate Rule2(b: Block) {
    || b.qc.round + 1 == b.round
    || (b.tc.Some? && b.tc.value.round + 1 == b.round
        && forall i :: 0 <= i < |b.tc.value.votes| ==> b.tc.value.votes[i].round <= b.qc.round)
  }

  /** What two signatures of one node, the first made before the second, owe each other. */
  predicate InOrder(first: Signing, second: Signing) {
    match (first, second)
    case (VoteFor(_, b), VoteFor(_, b')) => b.round < b'.round
    case (TimeoutAt(_, round, _), VoteFor(_, b)) => round < b.round
    case (VoteFor(_, b), TimeoutAt(_, _, high)) => b.qc.round <= high
    case (TimeoutAt(_, _, _), TimeoutAt(_, _, _)) => true
  }

  /** A block whose certificates verify against the signatures that exist. */
  ghost predicate Justified(sys: System, log: seq<Signing>, b: Block) {
    && AcceptableQC(sys.committee, b.qc) && GenuineQC(EvidenceOf(sys, log), b.qc)
    && AcceptableTC(sys.committee, b.tc) && (b.tc.Some? ==> GenuineTC(EvidenceOf(sys, log), b.tc.value))
  }

  ghost predicate VoteJustified(sys: System, log: seq<Signing>, i: nat)
    requires i < |log|
  {
    log[i].VoteFor? ==> Rule2(log[i].block) && Justified(sys, log[..i], log[i].block)
  }

  ghost predicate LogInv(sys: System, log: seq<Signing>) {
    && (forall i :: 0 <= i < |log| ==> Honest(sys, log[i].author))
    && (forall i, j :: 0 <= i < j < |log| && log[i].author == log[j].author ==> InOrder(log[i], log[j]))
    && (forall i :: 0 <= i < |log| ==> VoteJustified(sys, log, i))
  }

  // ----- certificates and the honest votes behind them -----

  ghost predicate Backers(sys: System, log: seq<Signing>, q: set<Key>, d: Digest, round: nat) {
    && IsQuorum(sys.committee, q)
    && (forall k :: k in q ==> k in sys.committee.authorities && (k, VoteDigest(d, round)) in EvidenceOf(sys, log))
  }

  /** A quorum stands behind this block digest at this round. */
  ghost predicate Certified(sys: System, log: seq<Signing>, d: Digest, round: nat) {
    exists q :: Backers(sys, log, q, d, round)
  }

  ghost predicate VotedAt(log: seq<Signing>, i: nat, d: Digest, round: nat) {
    i < |log| && log[i].VoteFor? && DigestOf(log[i].block) == d && log[i].block.round == round
  }

  lemma QCIsCertified(sys: System, log: seq<Signing>, qc: QC)
    requires ValidSystem(sys) && ValidQC(sys.committee, qc) && GenuineQC(EvidenceOf(sys, log), qc)
    ensures Backers(sys, log, Names(qc.voters), qc.hash, qc.round)
    ensures Certified(sys, log, qc.hash, qc.round)
  {
    hide Threshold, Weight, TotalStake, EvidenceOf;
    QuorumNamesAreQuorum(sys.committee, qc.voters);
  }

  lemma EvidenceGrows(sys: System, log: seq<Signing>, log': seq<Signing>)
    requires log <= log'
    ensures EvidenceOf(sys, log) <= EvidenceOf(sys, log')
  {
    forall p: (Key, Digest) | p in EvidenceOf(sys, log) ensures p in EvidenceOf(sys, log') {
      if Honest(sys, p.0) {
        var i :| 0 <= i < |log| && log[i].author == p.0 && SignedDigest(log[i]) == p.1;
        assert log'[i] == log[i];
      }
    }
  }

  lemma CertifiedGrows(sys: System, log: seq<Signing>, log': seq<Signing>, d: Digest, round: nat)
    requires log <= log' && Certified(sys, log, d, round)
    ensures Certified(sys, log', d, round)
  {
    hide IsQuorum, EvidenceOf;
    EvidenceGrows(sys, log, log');
    var q :| Backers(sys, log, q, d, round);
    assert Backers(sys, log', q, d, round);
  }

  /** The log entry behind an honest backer. */
  lemma BackerVoted(sys: System, log: seq<Signing>, q: set<Key>, d: Digest, round: nat, k: Key) returns (i: nat)
    requires Backers(sys, log, q, d, round) && k in q && k !in sys.faulty
    ensures VotedAt(log, i, d, round) && log[i].author == k
  {
    assert (k, VoteDigest(d, round)) in EvidenceOf(sys, log);
    i :| 0 <= i < |log| && log[i].author == k && SignedDigest(log[i]) == VoteDigest(d, round);
  }

  lemma HonestVoter(sys: System, log: seq<Signing>, d: Digest, round: nat) returns (i: nat)
    requires ValidSystem(sys) && LogInv(sys, log) && Certified(sys, log, d, round)
    ensures VotedAt(log, i, d, round)
    ensures d.BlockDigest? && d.height == round && round > 0
  {
    hide Threshold, Weight, TotalStake, EvidenceOf, Justified;
    var q :| Backers(sys, log, q, d, round);
    var k := QuorumsShareOutside(sys.committee, q, q, sys.faulty);
    i := BackerVoted(sys, log, q, d, round, k);
    assert VoteJustified(sys, log, i);
  }

  /** At most one block digest per round ever gathers a quorum. */
  lemma CertifiedUnique(sys: System, log: seq<Signing>, d: Digest, d': Digest, round: nat)
    requires ValidSystem(sys) && LogInv(sys, log)
    requires Certified(sys, log, d, round) && Certified(sys, log, d', round)
    ensures d == d'
  {
    hide Threshold, Weight, TotalStake, EvidenceOf, VoteJustified;
    var q :| Backers(sys, log, q, d, round);
    var q' :| Backers(sys, log, q', d', round);
    var k := QuorumsShareOutside(sys.committee, q, q', sys.faulty);
    var i := BackerVoted(sys, log, q, d, round, k);
    var j := BackerVoted(sys, log, q', d', round, k);
    assert i == j;
  }

  // ----- no check of Qc.Round < Round is needed -----

  ghost predicate FirstVote(log: seq<Signing>, i: nat, d: Digest, round: nat) {
    VotedAt(log, i, d, round) && forall j :: 0 <= j < i ==> !VotedAt(log, j, d, round)
  }

  lemma {:induction false} FindFirstVote(log: seq<Signing>, i: nat, d: Digest, round: nat) returns (f: nat)
    requires VotedAt(log, i, d, round)
    ensures f <= i && FirstVote(log, f, d, round)
  {
    if j :| 0 <= j < i && VotedAt(log, j, d, round) {
      f := FindFirstVote(log, j, d, round);
    } else {
      f := i;
    }
  }

  /** The first honest vote on a digest that ends up certified extends a certificate of a lower
      round: the certificate's quorum and the block's own share an honest node, which had voted
      in the certificate's round before anyone voted for this block. */
  lemma FirstVoteDescends(sys: System, log: seq<Signing>, i: nat, d: Digest, round: nat)
    requires ValidSystem(sys) && LogInv(sys, log) && Certified(sys, log, d, round) && FirstVote(log, i, d, round)
    ensures log[i].block.qc.round < round
  {
    hide Threshold, Weight, TotalStake, EvidenceOf;
    var qc := log[i].block.qc;
    assert VoteJustified(sys, log, i);
    if !IsGenesisQC(qc) {
      QCIsCertified(sys, log[..i], qc);
      var q :| Backers(sys, log, q, d, round);
      var k := QuorumsShareOutside(sys.committee, q, Names(qc.voters), sys.faulty);
      var m := BackerVoted(sys, log, q, d, round, k);
      var j := BackerVoted(sys, log[..i], Names(qc.voters), qc.hash, qc.round, k);
      assert log[..i][j] == log[j];
      assert InOrder(log[j], log[m]);
    }
  }

  // ----- blocks, parents and the premise on digests -----

  /** The digest of a block does not bind its parent. Chain-level claims hold for runs in which
      blocks of one certified digest name the same parent. */
  ghost predicate OneCertifiedParent(sys: System, log: seq<Signing>, seen: set<Block>) {
    forall b, b' ::
      b in seen && b' in seen && DigestOf(b) == DigestOf(b') && Certified(sys, log, DigestOf(b), b.round) ==>
        b.qc.hash == b'.qc.hash
  }

  /** The premise at a state implies it at every earlier one. */
  lemma ParentsFewer(sys: System, log: seq<Signing>, log': seq<Signing>, seen: set<Block>, seen': set<Block>)
    requires OneCertifiedParent(sys, log', seen') && log <= log' && seen <= seen'
    ensures OneCertifiedParent(sys, log, seen)
  {
    hide Certified;
    forall b, b' | b in seen && b' in seen && DigestOf(b) == DigestOf(b') && Certified(sys, log, DigestOf(b), b.round)
      ensures b.qc.hash == b'.qc.hash
    {
      CertifiedGrows(sys, log, log', DigestOf(b), b.round);
    }
  }

  /** All blocks ever stored by honest nodes, with what their certificates rest on. */
  ghost predicate SeenInv(sys: System, log: seq<Signing>, seen: set<Block>) {
    && (forall b :: b in seen ==> Justified(sys, log, b))
    && (forall i :: 0 <= i < |log| && log[i].VoteFor? ==> log[i].block in seen)
  }

  /** A justified certificate's round is fixed by its hash. */
  lemma CertificateRound(sys: System, log: seq<Signing>, b: Block)
    requires ValidSystem(sys) && LogInv(sys, log) && Justified(sys, log, b)
    ensures IsGenesisQC(b.qc) <==> b.qc.hash == Zero
    ensures IsGenesisQC(b.qc) <==> b.qc.round == 0
    ensures !IsGenesisQC(b.qc) ==>
              && b.qc.hash.BlockDigest? && b.qc.hash.height == b.qc.round
              && Certified(sys, log, b.qc.hash, b.qc.round)
  {
    hide LogInv, ValidSystem, ValidQC, GenuineQC, EvidenceOf, ValidTC, Certified;
    if !IsGenesisQC(b.qc) {
      QCIsCertified(sys, log, b.qc);
      var _ := HonestVoter(sys, log, b.qc.hash, b.qc.round);
    }
  }

  /** Every stored block of a certified digest extends a certificate of a lower round. */
  lemma CertifiedDescends(sys: System, log: seq<Signing>, seen: set<Block>, b: Block)
    requires ValidSystem(sys) && LogInv(sys, log) && SeenInv(sys, log, seen) && OneCertifiedParent(sys, log, seen)
    requires b in seen && Certified(sys, log, DigestOf(b), b.round)
    ensures b.qc.round < b.round
  {
    hide ValidSystem, LogInv, Justified, EvidenceOf, Certified;
    var i := HonestVoter(sys, log, DigestOf(b), b.round);
    var f := FindFirstVote(log, i, DigestOf(b), b.round);
    FirstVoteDescends(sys, log, f, DigestOf(b), b.round);
    CertificateRound(sys, log, b);
    CertificateRound(sys, log, log[f].block);
  }

  // ----- locking -----

  /** If every honest vote behind a certificate of round k+1 was cast on a block extending round k,
      then every honest vote of a later round was cast on a block extending round k or above. */
  lemma Locking(sys: System, log: seq<Signing>, d: Digest, k: nat, i: nat)
    requires ValidSystem(sys) && LogInv(sys, log) && Certified(sys, log, d, k + 1)
    requires forall j: nat :: VotedAt(log, j, d, k + 1) ==> log[j].block.qc.round == k
    requires i < |log| && log[i].VoteFor? && log[i].block.round > k + 1
    ensures log[i].block.qc.round >= k
  {
    hide Threshold, Weight, TotalStake, EvidenceOf;
    var b := log[i].block;
    assert VoteJustified(sys, log, i);
    if b.qc.round + 1 != b.round {
      var tc := b.tc.value;
      var _ := TimeoutBound(sys, log, d, k, log[..i], tc);
    }
  }

  /** The TC quorum and the round k+1 quorum share an honest node that timed out after voting. */
  lemma TimeoutBound(sys: System, log: seq<Signing>, d: Digest, k: nat, before: seq<Signing>, tc: TC) returns (e: nat)
    requires ValidSystem(sys) && LogInv(sys, log) && Certified(sys, log, d, k + 1)
    requires forall j: nat :: VotedAt(log, j, d, k + 1) ==> log[j].block.qc.round == k
    requires before <= log && tc.round > k
    requires ValidTC(sys.committee, tc) && GenuineTC(EvidenceOf(sys, before), tc)
    ensures e < |tc.votes| && tc.votes[e].round >= k
  {
    hide Threshold, Weight, TotalStake, VoteJustified;
    var names := TimeoutNames(tc.votes);
    QuorumNamesAreQuorum(sys.committee, names);
    var q :| Backers(sys, log, q, d, k + 1);
    var h := QuorumsShareOutside(sys.committee, q, Names(names), sys.faulty);
    e :| 0 <= e < |names| && names[e] == h;
    var v := BackerVoted(sys, log, q, d, k + 1, h);
    var digest := TimeoutDigest(tc.round, tc.votes[e].round);
    assert (h, digest) in EvidenceOf(sys, before);
    var t :| 0 <= t < |before| && before[t].author == h && SignedDigest(before[t]) == digest;
    assert before[t] == log[t];
    assert v < t;
    assert InOrder(log[v], log[t]);
  }

  // ----- chains -----

  /** `path` lists the blocks from digest `d` down to, and without, digest `a`. */
  ghost predicate IsPath(seen: set<Block>, path: seq<Block>, d: Digest, a: Digest)
    decreases |path|
  {
    if path == [] then d == a
    else path[0] in seen && DigestOf(path[0]) == d && IsPath(seen, path[1..], path[0].qc.hash, a)
  }

  /** The block of digest `a` is an ancestor of, or is, the block of digest `d`. */
  ghost predicate Extends(seen: set<Block>, d: Digest, a: Digest) {
    exists path :: IsPath(seen, path, d, a)
  }

  lemma ExtendsSelf(seen: set<Block>, d: Digest)
    ensures Extends(seen, d, d)
  {
    assert IsPath(seen, [], d, d);
  }

  lemma ExtendsStep(seen: set<Block>, b: Block, a: Digest)
    requires b in seen && Extends(seen, b.qc.hash, a)
    ensures Extends(seen, DigestOf(b), a)
  {
    var path :| IsPath(seen, path, b.qc.hash, a);
    assert ([b] + path)[1..] == path;
    assert IsPath(seen, [b] + path, DigestOf(b), a);
  }

  lemma {:induction false} PathsJoin(seen: set<Block>, p: seq<Block>, p': seq<Block>, d: Digest, m: Digest, a: Digest)
    requires IsPath(seen, p, d, m) && IsPath(seen, p', m, a)
    ensures IsPath(seen, p + p', d, a)
    decreases |p|
  {
    if p == [] {
      assert p + p' == p';
    } else {
      PathsJoin(seen, p[1..], p', p[0].qc.hash, m, a);
      assert (p + p')[1..] == p[1..] + p';
    }
  }

  lemma ExtendsTransitive(seen: set<Block>, d: Digest, m: Digest, a: Digest)
    requires Extends(seen, d, m) && Extends(seen, m, a)
    ensures Extends(seen, d, a)
  {
    var p :| IsPath(seen, p, d, m);
    var p' :| IsPath(seen, p', m, a);
    PathsJoin(seen, p, p', d, m, a);
  }

  lemma {:induction false} PathGrows(seen: set<Block>, seen': set<Block>, p: seq<Block>, d: Digest, a: Digest)
    requires IsPath(seen, p, d, a) && seen <= seen'
    ensures IsPath(seen', p, d, a)
    decreases |p|
  {
    if p != [] {
      PathGrows(seen, seen', p[1..], p[0].qc.hash, a);
    }
  }

  lemma ExtendsGrows(seen: set<Block>, seen': set<Block>, d: Digest, a: Digest)
    requires Extends(seen, d, a) && seen <= seen'
    ensures Extends(seen', d, a)
  {
    var p :| IsPath(seen, p, d, a);
    PathGrows(seen, seen', p, d, a);
  }

  /** Ancestors of one certified block lie on one line. */
  lemma {:induction false} PathsNest(sys: System, log: seq<Signing>, seen: set<Block>, p: seq<Block>, p': seq<Block>,
                                     d: Digest, a: Digest, a': Digest)
    requires ValidSystem(sys) && LogInv(sys, log) && SeenInv(sys, log, seen) && OneCertifiedParent(sys, log, seen)
    requires d.BlockDigest? && Certified(sys, log, d, d.height) && IsPath(seen, p, d, a) && IsPath(seen, p', d, a')
    ensures Extends(seen, a, a') || Extends(seen, a', a)
    decreases |p|
  {
    hide ValidSystem, LogInv, Justified, Certified;
    if p != [] && p' != [] {
      var b := p[0];
      CertificateRound(sys, log, b);
      if IsGenesisQC(b.qc) {
        ZeroHasNoPath(seen, p[1..], a);
        ZeroHasNoPath(seen, p'[1..], a');
      } else {
        PathsNest(sys, log, seen, p[1..], p'[1..], b.qc.hash, a, a');
      }
    }
  }

  lemma AncestorsComparable(sys: System, log: seq<Signing>, seen: set<Block>, d: Digest, a: Digest, a': Digest)
    requires ValidSystem(sys) && LogInv(sys, log) && SeenInv(sys, log, seen) && OneCertifiedParent(sys, log, seen)
    requires d.BlockDigest? && Certified(sys, log, d, d.height) && Extends(seen, d, a) && Extends(seen, d, a')
    ensures Extends(seen, a, a') || Extends(seen, a', a)
  {
    hide ValidSystem, LogInv, SeenInv, OneCertifiedParent, Certified, IsPath;
    var p :| IsPath(seen, p, d, a);
    var p' :| IsPath(seen, p', d, a');
    PathsNest(sys, log, seen, p, p', d, a, a');
  }

  /** Going up a certified chain loses rounds; the chain ends at the genesis marker `Zero`. */
  lemma {:induction false} PathDescends(sys: System, log: seq<Signing>, seen: set<Block>, p: seq<Block>, d: Digest,
                                        a: Digest)
    requires ValidSystem(sys) && LogInv(sys, log) && SeenInv(sys, log, seen) && OneCertifiedParent(sys, log, seen)
    requires d.BlockDigest? && Certified(sys, log, d, d.height) && IsPath(seen, p, d, a)
    ensures a == Zero || (a.BlockDigest? && Certified(sys, log, a, a.height))
    ensures p != [] ==> a == Zero || a.height < d.height
    decreases |p|
  {
    hide ValidSystem, LogInv, Justified, OneCertifiedParent, Certified;
    if p != [] {
      var b := p[0];
      CertifiedDescends(sys, log, seen, b);
      CertificateRound(sys, log, b);
      if IsGenesisQC(b.qc) {
        ZeroHasNoPath(seen, p[1..], a);
      } else {
        PathDescends(sys, log, seen, p[1..], b.qc.hash, a);
      }
    }
  }

  lemma ZeroHasNoPath(seen: set<Block>, p: seq<Block>, a: Digest)
    requires IsPath(seen, p, Zero, a)
    ensures p == [] && a == Zero
  {
  }

  // ----- agreement -----

  /** `top` certifies that its parent heads a committed 2-chain: both blocks are certified and the
      rounds are consecutive. */
  ghost predicate TwoChain(sys: System, log: seq<Signing>, seen: set<Block>, top: Block) {
    && top in seen && !IsGenesisQC(top.qc)
    && top.qc.round + 1 == top.round
    && Certified(sys, log, DigestOf(top), top.round)
  }

  /** The digest heads some committed 2-chain. */
  ghost predicate Final(sys: System, log: seq<Signing>, seen: set<Block>, d: Digest) {
    exists top :: TwoChain(sys, log, seen, top) && top.qc.hash == d
  }

  /** Whatever is certified at or above a final block's round extends it. */
  lemma {:induction false} CertifiedExtendsFinal(sys: System, log: seq<Signing>, seen: set<Block>, top: Block,
                                                 d: Digest, round: nat)
    requires ValidSystem(sys) && LogInv(sys, log) && SeenInv(sys, log, seen) && OneCertifiedParent(sys, log, seen)
    requires TwoChain(sys, log, seen, top)
    requires Certified(sys, log, d, round) && round >= top.qc.round
    ensures Extends(seen, d, top.qc.hash)
    decreases round
  {
    hide ValidSystem, LogInv, Justified, OneCertifiedParent, Certified, Extends;
    CertificateRound(sys, log, top);
    if round == top.qc.round {
      CertifiedUnique(sys, log, d, top.qc.hash, round);
      ExtendsSelf(seen, d);
    } else if round == top.round {
      CertifiedUnique(sys, log, d, DigestOf(top), round);
      ExtendsSelf(seen, top.qc.hash);
      ExtendsStep(seen, top, top.qc.hash);
    } else {
      var i := HonestVoter(sys, log, d, round);
      var b := log[i].block;
      LockedVote(sys, log, seen, top, i);
      CertificateRound(sys, log, b);
      CertifiedDescends(sys, log, seen, b);
      CertifiedExtendsFinal(sys, log, seen, top, b.qc.hash, b.qc.round);
      ExtendsStep(seen, b, top.qc.hash);
    }
  }

  lemma LockedVote(sys: System, log: seq<Signing>, seen: set<Block>, top: Block, i: nat)
    requires ValidSystem(sys) && LogInv(sys, log) && SeenInv(sys, log, seen) && OneCertifiedParent(sys, log, seen)
    requires TwoChain(sys, log, seen, top) && i < |log| && log[i].VoteFor? && log[i].block.round > top.round
    ensures log[i].block.qc.round >= top.qc.round
  {
    hide ValidSystem, LogInv, Justified, Certified;
    CertificateRound(sys, log, top);
    forall j: nat | VotedAt(log, j, DigestOf(top), top.qc.round + 1) ensures log[j].block.qc.round == top.qc.round {
      CertificateRound(sys, log, log[j].block);
    }
    Locking(sys, log, DigestOf(top), top.qc.round, i);
  }

  /** Final blocks carry their round in their digest and are certified at it. */
  lemma FinalIsCertified(sys: System, log: seq<Signing>, seen: set<Block>, d: Digest)
    requires ValidSystem(sys) && LogInv(sys, log) && SeenInv(sys, log, seen) && Final(sys, log, seen, d)
    ensures d.BlockDigest? && d.height > 0 && Certified(sys, log, d, d.height)
  {
    hide ValidSystem, LogInv, Justified, Certified;
    var top :| TwoChain(sys, log, seen, top) && top.qc.hash == d;
    CertificateRound(sys, log, top);
  }

  /** Two final blocks: the higher one extends the lower. */
  lemma FinalsAgree(sys: System, log: seq<Signing>, seen: set<Block>, d: Digest, d': Digest)
    requires ValidSystem(sys) && LogInv(sys, log) && SeenInv(sys, log, seen) && OneCertifiedParent(sys, log, seen)
    requires Final(sys, log, seen, d) && Final(sys, log, seen, d')
    ensures d.BlockDigest? && d'.BlockDigest?
    ensures d.height <= d'.height ==> Extends(seen, d', d)
    ensures d.height >= d'.height ==> Extends(seen, d, d')
  {
    hide ValidSystem, LogInv, SeenInv, OneCertifiedParent, Certified, Extends, TwoChain;
    FinalIsCertified(sys, log, seen, d);
    FinalIsCertified(sys, log, seen, d');
    var top :| TwoChain(sys, log, seen, top) && top.qc.hash == d;
    var top' :| TwoChain(sys, log, seen, top') && top'.qc.hash == d';
    TwoChainRound(sys, log, seen, top);
    TwoChainRound(sys, log, seen, top');
    if d.height <= d'.height {
      CertifiedExtendsFinal(sys, log, seen, top, d', d'.height);
    }
    if d.height >= d'.height {
      CertifiedExtendsFinal(sys, log, seen, top', d, d.height);
    }
  }

  lemma TwoChainRound(sys: System, log: seq<Signing>, seen: set<Block>, top: Block)
    requires ValidSystem(sys) && LogInv(sys, log) && SeenInv(sys, log, seen) && TwoChain(sys, log, seen, top)
    ensures top.qc.hash.BlockDigest? && top.qc.hash.height == top.qc.round
  {
    hide ValidSystem, LogInv, Justified, Certified;
    CertificateRound(sys, log, top);
  }

  /** Ancestors of final blocks at the same round are the same block. */
  lemma SameRoundSameBlock(sys: System, log: seq<Signing>, seen: set<Block>, d: Digest, d': Digest, a: Digest,
                           a': Digest)
    requires ValidSystem(sys) && LogInv(sys, log) && SeenInv(sys, log, seen) && OneCertifiedParent(sys, log, seen)
    requires Final(sys, log, seen, d) && Final(sys, log, seen, d')
    requires Extends(seen, d, a) && Extends(seen, d', a')
    requires a.BlockDigest? && a'.BlockDigest? && a.height == a'.height
    ensures a == a'
  {
    hide ValidSystem, LogInv, SeenInv, OneCertifiedParent, Certified, Extends, Final, IsPath;
    FinalsAgree(sys, log, seen, d, d');
    var top := if d.height >= d'.height then d else d';
    if d.height >= d'.height {
      ExtendsTransitive(seen, d, d', a');
    } else {
      ExtendsTransitive(seen, d', d, a);
    }
    FinalIsCertified(sys, log, seen, top);
    AncestorsComparable(sys, log, seen, top, a, a');
    AncestorCertified(sys, log, seen, top, a);
    AncestorCertified(sys, log, seen, top, a');
    if Extends(seen, a, a') {
      AncestorLower(sys, log, seen, a, a');
    } else {
      AncestorLower(sys, log, seen, a', a);
    }
  }

  lemma AncestorCertified(sys: System, log: seq<Signing>, seen: set<Block>, d: Digest, a: Digest)
    requires ValidSystem(sys) && LogInv(sys, log) && SeenInv(sys, log, seen) && OneCertifiedParent(sys, log, seen)
    requires d.BlockDigest? && Certified(sys, log, d, d.height) && Extends(seen, d, a)
    ensures a == Zero || (a.BlockDigest? && Certified(sys, log, a, a.height))
  {
    hide ValidSystem, LogInv, SeenInv, OneCertifiedParent, Certified, IsPath;
    var p :| IsPath(seen, p, d, a);
    PathDescends(sys, log, seen, p, d, a);
  }

  lemma AncestorLower(sys: System, log: seq<Signing>, seen: set<Block>, d: Digest, a: Digest)
    requires ValidSystem(sys) && LogInv(sys, log) && SeenInv(sys, log, seen) && OneCertifiedParent(sys, log, seen)
    requires d.BlockDigest? && Certified(sys, log, d, d.height) && Extends(seen, d, a)
    ensures a == d || a == Zero || (a.BlockDigest? && a.height < d.height)
  {
    hide ValidSystem, LogInv, SeenInv, OneCertifiedParent, Certified;
    var p :| IsPath(seen, p, d, a);
    PathDescends(sys, log, seen, p, d, a);
  }
}
