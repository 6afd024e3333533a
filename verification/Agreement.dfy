/** What honest nodes commit, over whole runs in which blocks of one certified digest name the same
    parent: commit loops end, commits agree, and the commit channel carries exactly the chain below
    the last committed block. */
module Agreement {
  import opened Committees
  import opened Messages
  import opened Aggregation
  import opened Safety
  import opened Chains
  import opened Replicas
  import opened Protocol

  // ----- one store -----

  ghost function Blocks(store: BlockStore): set<Block> {
    set d | d in store :: store[d]
  }

  /** Only the genesis marker has the zero digest as parent; other parents are of a positive round. */
  ghost predicate GenesisMarked(seen: set<Block>) {
    forall b :: b in seen ==>
      && (IsGenesisQC(b.qc) <==> b.qc.hash == Zero)
      && (b.qc.hash == Zero || (b.qc.hash.BlockDigest? && b.qc.hash.height > 0))
  }

  /** A state of the world in which blocks of one certified digest name the same parent. */
  ghost predicate World(sys: System, log: seq<Signing>, seen: set<Block>) {
    && ValidSystem(sys) && LogInv(sys, log) && SeenInv(sys, log, seen)
    && OneCertifiedParent(sys, log, seen) && GenesisMarked(seen)
  }

  /** A well-kept store of blocks of that world. */
  ghost predicate StoreIn(store: BlockStore, written: set<Block>, seen: set<Block>) {
    StoreInv(store, written) && written <= seen
  }

  lemma BlocksSeen(store: BlockStore, written: set<Block>, seen: set<Block>)
    requires StoreIn(store, written, seen)
    ensures Blocks(store) <= seen
  {
  }

  /** Ancestors of a certified stored block, seen anywhere in the system, are in this store. */
  lemma {:induction false} PathInStore(sys: System, log: seq<Signing>, seen: set<Block>, store: BlockStore,
                                       written: set<Block>, p: seq<Block>, d: Digest, a: Digest)
    requires World(sys, log, seen) && StoreIn(store, written, seen) && IsPath(seen, p, d, a)
    requires d in store && d.BlockDigest? && Certified(sys, log, d, d.height)
    ensures Extends(Blocks(store), d, a)
    ensures a == Zero || a in store
    decreases |p|
  {
    hide Extends, ValidSystem, LogInv, Justified, Certified;
    if p == [] {
      ExtendsSelf(Blocks(store), d);
    } else {
      var x := store[d];
      assert p[0].qc.hash == x.qc.hash;
      CertificateRound(sys, log, x);
      if x.qc.hash == Zero {
        ZeroHasNoPath(seen, p[1..], a);
        ExtendsSelf(Blocks(store), Zero);
      } else {
        assert Parent(store, x).Some?;
        PathInStore(sys, log, seen, store, written, p[1..], x.qc.hash, a);
      }
      ExtendsStep(Blocks(store), x, a);
    }
  }

  lemma ExtendsInStore(sys: System, log: seq<Signing>, seen: set<Block>, store: BlockStore, written: set<Block>,
                       d: Digest, a: Digest)
    requires World(sys, log, seen) && StoreIn(store, written, seen) && Extends(seen, d, a)
    requires d in store && d.BlockDigest? && Certified(sys, log, d, d.height)
    ensures Extends(Blocks(store), d, a)
    ensures a == Zero || a in store
  {
    hide World, StoreIn, IsPath, Certified;
    var p :| IsPath(seen, p, d, a);
    PathInStore(sys, log, seen, store, written, p, d, a);
  }

  lemma ExtendsFromStore(store: BlockStore, written: set<Block>, seen: set<Block>, d: Digest, a: Digest)
    requires StoreIn(store, written, seen) && Extends(Blocks(store), d, a)
    ensures Extends(seen, d, a)
  {
    hide Extends;
    BlocksSeen(store, written, seen);
    ExtendsGrows(Blocks(store), seen, d, a);
  }

  /** The ancestry of a certified block is complete and its rounds fall, so commit terminates. */
  lemma {:induction false} LineExists(sys: System, log: seq<Signing>, store: BlockStore, written: set<Block>,
                                      seen: set<Block>, b: Block)
      returns (line: seq<Block>)
    requires World(sys, log, seen) && StoreIn(store, written, seen)
    requires b in seen && Certified(sys, log, DigestOf(b), b.round) && Parent(store, b).Some?
    ensures IsLine(store, line) && line[0] == b
    decreases b.round
  {
    hide ValidSystem, LogInv, Certified, OneCertifiedParent, Justified, GenesisMarked;
    CertifiedDescends(sys, log, seen, b);
    CertificateRound(sys, log, b);
    var y := Parent(store, b).value;
    if IsGenesisQC(b.qc) {
      line := [b, GENESIS];
    } else {
      var rest := LineExists(sys, log, store, written, seen, y);
      line := [b] + rest;
      LineCons(store, b, rest);
    }
  }

  lemma LineCons(store: BlockStore, b: Block, rest: seq<Block>)
    requires IsLine(store, rest) && Parent(store, b) == Some(rest[0]) && rest[0].round < b.round
    ensures IsLine(store, [b] + rest)
  {
    var line := [b] + rest;
    forall i | 0 <= i < |line| - 1
      ensures Parent(store, line[i]) == Some(line[i + 1]) && line[i + 1].round < line[i].round
    {
      if i > 0 {
        assert line[i] == rest[i - 1] && line[i + 1] == rest[i - 1 + 1];
      }
    }
  }

  /** Members of the line, genesis aside, are ancestors ... */
  lemma {:induction false} LineExtends(store: BlockStore, written: set<Block>, seen: set<Block>, line: seq<Block>,
                                       i: nat)
    requires StoreIn(store, written, seen) && GenesisMarked(seen) && IsLine(store, line) && line[0] in seen
    requires i < |line| && line[i] != GENESIS
    ensures line[i] in seen && Extends(seen, DigestOf(line[0]), DigestOf(line[i]))
  {
    hide Extends;
    if i == 0 {
      ExtendsSelf(seen, DigestOf(line[0]));
    } else {
      assert Parent(store, line[i - 1]) == Some(line[i - 1 + 1]);
      var prev := line[i - 1];
      GenesisIsLast(store, line, i - 1);
      LineExtends(store, written, seen, line, i - 1);
      ExtendsSelf(seen, prev.qc.hash);
      ExtendsStep(seen, prev, prev.qc.hash);
      ExtendsTransitive(seen, DigestOf(line[0]), DigestOf(prev), prev.qc.hash);
    }
  }

  lemma GenesisIsLast(store: BlockStore, line: seq<Block>, i: nat)
    requires IsLine(store, line) && i < |line| - 1
    ensures line[i] != GENESIS
  {
    LineFalls(store, line, i, |line| - 1);
  }

  /** ... and every ancestor is on the line. */
  lemma {:induction false} AncestorOnLine(sys: System, log: seq<Signing>, seen: set<Block>, store: BlockStore,
                                          written: set<Block>,
                                         line: seq<Block>, j: nat, p: seq<Block>, a: Digest) returns (i: nat)
    requires World(sys, log, seen) && StoreIn(store, written, seen) && IsLine(store, line)
    requires j < |line| && line[j] in seen && line[j] != GENESIS
    requires Certified(sys, log, DigestOf(line[j]), line[j].round)
    requires IsPath(seen, p, DigestOf(line[j]), a) && a != Zero
    ensures i < |line| && line[i] != GENESIS && DigestOf(line[i]) == a
    decreases |p|
  {
    hide ValidSystem, LogInv, Justified, Certified, GenesisMarked;
    if p == [] {
      i := j;
    } else {
      var b := line[j];
      assert p[0].qc.hash == b.qc.hash;
      CertificateRound(sys, log, b);
      if b.qc.hash == Zero {
        ZeroHasNoPath(seen, p[1..], a);
      }
      assert Parent(store, line[j]) == Some(line[j + 1]);
      assert line[j + 1] == store[b.qc.hash];
      assert DigestOf(line[j + 1]) == b.qc.hash;
      i := AncestorOnLine(sys, log, seen, store, written, line, j + 1, p[1..], a);
    }
  }

  // ----- what a node has committed -----

  /** Some block of this digest, other than genesis, went out on the commit channel. */
  ghost predicate Sent(emitted: seq<Block>, a: Digest) {
    exists i :: 0 <= i < |emitted| && emitted[i] != GENESIS && DigestOf(emitted[i]) == a
  }

  function Head(s: Replica): Digest
    requires s.commits != []
  {
    DigestOf(s.commits[|s.commits| - 1])
  }

  ghost predicate HeadOk(s: Replica) {
    if s.commits == [] then s.lastCommitted == 0 && s.emitted == []
    else Head(s).height == s.lastCommitted && Head(s) in s.store
  }

  /** The commit channel has carried exactly the chain that ends at the last committed block. */
  ghost predicate Complete(s: Replica) {
    s.commits != [] ==>
      forall a :: Sent(s.emitted, a) <==> a != Zero && Extends(Blocks(s.store), Head(s), a)
  }

  ghost predicate CommitsFinal(sys: System, log: seq<Signing>, seen: set<Block>, commits: seq<Block>) {
    forall i :: 0 <= i < |commits| ==> Final(sys, log, seen, DigestOf(commits[i]))
  }

  ghost predicate NodeChain(sys: System, log: seq<Signing>, seen: set<Block>, s: Replica) {
    s.health.Running? && HeadOk(s) && Complete(s) && CommitsFinal(sys, log, seen, s.commits)
  }

  lemma FinalGrows(sys: System, log: seq<Signing>, log': seq<Signing>, seen: set<Block>, seen': set<Block>, d: Digest)
    requires Final(sys, log, seen, d) && log <= log' && seen <= seen'
    ensures Final(sys, log', seen', d)
  {
    hide Certified;
    var top :| TwoChain(sys, log, seen, top) && top.qc.hash == d;
    CertifiedGrows(sys, log, log', DigestOf(top), top.round);
    assert TwoChain(sys, log', seen', top);
  }

  lemma NodeChainGrows(sys: System, log: seq<Signing>, log': seq<Signing>, seen: set<Block>, seen': set<Block>,
                       s: Replica)
    requires NodeChain(sys, log, seen, s) && log <= log' && seen <= seen'
    ensures NodeChain(sys, log', seen', s)
  {
    hide Final, HeadOk, Complete;
    forall i | 0 <= i < |s.commits| ensures Final(sys, log', seen', DigestOf(s.commits[i])) {
      FinalGrows(sys, log, log', seen, seen', DigestOf(s.commits[i]));
    }
  }

  /** Storing another block does not change the chain below a certified stored one. */
  lemma SameAncestors(sys: System, log: seq<Signing>, seen: set<Block>, store: BlockStore, written: set<Block>,
                      d: Digest, a: Digest)
    requires World(sys, log, seen) && StoreIn(store, written, seen)
    requires d in store && d.BlockDigest? && Certified(sys, log, d, d.height)
    ensures Extends(Blocks(store), d, a) <==> Extends(seen, d, a)
  {
    hide World, StoreIn, Extends, Blocks, Certified;
    if Extends(Blocks(store), d, a) {
      ExtendsFromStore(store, written, seen, d, a);
    }
    if Extends(seen, d, a) {
      ExtendsInStore(sys, log, seen, store, written, d, a);
    }
  }

  lemma StoringKeepsChain(sys: System, log: seq<Signing>, seen: set<Block>, s: Replica, s': Replica)
    requires World(sys, log, seen) && NodeChain(sys, log, seen, s)
    requires StoreIn(s.store, s.written, seen) && StoreIn(s'.store, s'.written, seen) && s.store.Keys <= s'.store.Keys
    requires s'.commits == s.commits && s'.emitted == s.emitted && s'.lastCommitted == s.lastCommitted
    requires s'.health.Running?
    ensures NodeChain(sys, log, seen, s')
  {
    hide ValidSystem, LogInv, SeenInv, OneCertifiedParent, GenesisMarked, StoreIn, Extends, Blocks, Sent, Final,
         Certified;
    if s.commits != [] {
      assert Final(sys, log, seen, DigestOf(s.commits[|s.commits| - 1]));
      FinalIsCertified(sys, log, seen, Head(s));
      forall a ensures Extends(Blocks(s'.store), Head(s), a) <==> Extends(Blocks(s.store), Head(s), a) {
        SameAncestors(sys, log, seen, s.store, s.written, Head(s), a);
        SameAncestors(sys, log, seen, s'.store, s'.written, Head(s), a);
      }
    }
  }

  /** The commit rule: the block under consideration certifies a 2-chain with head b0. */
  lemma CommitRuleIsFinal(sys: System, log: seq<Signing>, seen: set<Block>, store: BlockStore, written: set<Block>,
                          b: Block, b1: Block, b0: Block)
    requires World(sys, log, seen) && StoreIn(store, written, seen) && b in seen
    requires Parent(store, b) == Some(b1) && Parent(store, b1) == Some(b0) && b0.round + 1 == b1.round && b0.round > 0
    ensures Final(sys, log, seen, DigestOf(b0)) && Certified(sys, log, DigestOf(b0), b0.round)
    ensures b0 in seen && DigestOf(b0) in store && Parent(store, b0).Some?
  {
    hide ValidSystem, LogInv, Justified, Certified, OneCertifiedParent, GenesisMarked;
    CertificateRound(sys, log, b);
    CertificateRound(sys, log, b1);
    assert TwoChain(sys, log, seen, b1);
  }

  /** What one commit call sends, in terms of ancestors. */
  lemma CommitSends(sys: System, log: seq<Signing>, seen: set<Block>, store: BlockStore, written: set<Block>,
                    last: nat, b0: Block)
    requires World(sys, log, seen) && StoreIn(store, written, seen)
    requires b0 in seen && Certified(sys, log, DigestOf(b0), b0.round) && Parent(store, b0).Some? && b0.round > last
    ensures CommitWalk(store, last, b0).Some?
    ensures var sent := Emission(CommitWalk(store, last, b0).value);
            && (forall a :: Sent(sent, a) ==> a != Zero && Extends(seen, DigestOf(b0), a))
            && (forall a :: a != Zero && Extends(seen, DigestOf(b0), a) ==>
                  Sent(sent, a) || (a.BlockDigest? && a.height <= last))
  {
    hide ValidSystem, LogInv, SeenInv, Certified, OneCertifiedParent, GenesisMarked, Extends, StoreIn;
    var line := LineExists(sys, log, store, written, seen, b0);
    CommitEmission(store, last, line);
    var sent := Emission(CommitWalk(store, last, b0).value);
    forall a | Sent(sent, a) ensures a != Zero && Extends(seen, DigestOf(b0), a) {
      var j :| 0 <= j < |sent| && sent[j] != GENESIS && DigestOf(sent[j]) == a;
      var i := if j < |sent| - 1 then j + 1 else 0;
      assert line[i] == sent[j];
      LineExtends(store, written, seen, line, i);
    }
    forall a | a != Zero && Extends(seen, DigestOf(b0), a)
      ensures Sent(sent, a) || (a.BlockDigest? && a.height <= last)
    {
      AncestorSent(sys, log, seen, store, written, last, line, sent, a);
    }
  }

  lemma AncestorSent(sys: System, log: seq<Signing>, seen: set<Block>, store: BlockStore, written: set<Block>,
                     last: nat,
                     line: seq<Block>, sent: seq<Block>, a: Digest)
    requires World(sys, log, seen) && StoreIn(store, written, seen) && IsLine(store, line)
    requires line[0] in seen && line[0].round > last && Certified(sys, log, DigestOf(line[0]), line[0].round)
    requires forall i :: 0 <= i < |line| && line[i].round > last ==> multiset(sent)[line[i]] == 1
    requires a != Zero && Extends(seen, DigestOf(line[0]), a)
    ensures Sent(sent, a) || (a.BlockDigest? && a.height <= last)
  {
    hide World, StoreIn, IsPath, Certified;
    assert line[0] != GENESIS;
    var p :| IsPath(seen, p, DigestOf(line[0]), a);
    var i := AncestorOnLine(sys, log, seen, store, written, line, 0, p, a);
    if line[i].round > last {
      assert line[i] in multiset(sent);
      var j :| 0 <= j < |sent| && sent[j] == line[i];
    }
  }

  /** Old commits lie below the new one, so nothing is missing between them. */
  lemma BelowNewHead(sys: System, log: seq<Signing>, seen: set<Block>, d: Digest, lower: Digest, a: Digest)
    requires World(sys, log, seen) && Final(sys, log, seen, d) && Final(sys, log, seen, lower)
    requires lower.BlockDigest? && d.BlockDigest? && lower.height <= d.height
    requires Extends(seen, d, a) && a.BlockDigest? && a.height <= lower.height
    ensures Extends(seen, lower, a)
  {
    hide ValidSystem, LogInv, SeenInv, OneCertifiedParent, GenesisMarked, Final, Extends, Certified;
    FinalsAgree(sys, log, seen, lower, d);
    FinalIsCertified(sys, log, seen, d);
    AncestorsComparable(sys, log, seen, d, lower, a);
    if !Extends(seen, lower, a) {
      AncestorCertified(sys, log, seen, d, a);
      AncestorLower(sys, log, seen, a, lower);
      ExtendsSelf(seen, lower);
    }
  }

  lemma SentSplits(xs: seq<Block>, ys: seq<Block>, a: Digest)
    ensures Sent(xs + ys, a) <==> Sent(xs, a) || Sent(ys, a)
  {
    if Sent(xs + ys, a) {
      var i :| 0 <= i < |xs + ys| && (xs + ys)[i] != GENESIS && DigestOf((xs + ys)[i]) == a;
      if i >= |xs| {
        assert ys[i - |xs|] == (xs + ys)[i];
      }
    }
    if Sent(xs, a) {
      var i :| 0 <= i < |xs| && xs[i] != GENESIS && DigestOf(xs[i]) == a;
      assert (xs + ys)[i] == xs[i];
    }
    if Sent(ys, a) {
      var i :| 0 <= i < |ys| && ys[i] != GENESIS && DigestOf(ys[i]) == a;
      assert (xs + ys)[|xs| + i] == ys[i];
    }
  }

  /** After a commit the channel has carried exactly the new head's chain. */
  lemma CommitCompletes(sys: System, log: seq<Signing>, seen: set<Block>, s: Replica, store': BlockStore,
                        written': set<Block>, b0: Block, sent: seq<Block>, a: Digest)
    requires World(sys, log, seen) && NodeChain(sys, log, seen, s)
    requires StoreIn(s.store, s.written, seen) && StoreIn(store', written', seen)
    requires Final(sys, log, seen, DigestOf(b0)) && b0.round > s.lastCommitted && DigestOf(b0) in store'
    requires Sent(sent, a) ==> a != Zero && Extends(seen, DigestOf(b0), a)
    requires a != Zero && Extends(seen, DigestOf(b0), a) ==>
               Sent(sent, a) || (a.BlockDigest? && a.height <= s.lastCommitted)
    ensures Sent(s.emitted + sent, a) <==> a != Zero && Extends(Blocks(store'), DigestOf(b0), a)
  {
    hide ValidSystem, LogInv, SeenInv, OneCertifiedParent, GenesisMarked, StoreIn, Final, Extends, Blocks, Sent,
         Certified;
    var d := DigestOf(b0);
    SentSplits(s.emitted, sent, a);
    FinalIsCertified(sys, log, seen, d);
    SameAncestors(sys, log, seen, store', written', d, a);
    if s.commits == [] {
      NothingSent(a);
      if a != Zero && Extends(seen, d, a) {
        AncestorCertified(sys, log, seen, d, a);
        CertifiedPositive(sys, log, a);
      }
    } else {
      var h := Head(s);
      assert Final(sys, log, seen, DigestOf(s.commits[|s.commits| - 1]));
      FinalIsCertified(sys, log, seen, h);
      SameAncestors(sys, log, seen, s.store, s.written, h, a);
      FinalsAgree(sys, log, seen, h, d);
      if Extends(seen, h, a) {
        ExtendsTransitive(seen, d, h, a);
      }
      if a != Zero && Extends(seen, d, a) && !Sent(sent, a) {
        BelowNewHead(sys, log, seen, d, h, a);
      }
    }
  }

  lemma NothingSent(a: Digest)
    ensures !Sent([], a)
  {
  }

  lemma CertifiedPositive(sys: System, log: seq<Signing>, a: Digest)
    requires ValidSystem(sys) && LogInv(sys, log)
    requires a != Zero ==> a.BlockDigest? && Certified(sys, log, a, a.height)
    ensures a != Zero ==> a.height > 0
  {
    if a != Zero {
      var _ := HonestVoter(sys, log, a, a.height);
    }
  }

  /** A block delivery keeps the node's chain facts: commit ends, and the channel stays complete. */
  lemma DeliveryKeepsChain(sys: System, log: seq<Signing>, seen: set<Block>, s: Replica, s': Replica, b: Block)
    requires World(sys, log, seen) && NodeChain(sys, log, seen, s) && b in seen
    requires StoreIn(s.store, s.written, seen) && StoreIn(s'.store, s'.written, seen)
    requires ChainStep(s, s', b)
    ensures NodeChain(sys, log, seen, s')
  {
    hide World, StoreIn, Commit, HeadOk, Complete, CommitsFinal;
    var b1, b0 :| Parent(s.store, b) == Some(b1) && Parent(s.store, b1) == Some(b0)
                  && SameChain(StoreAndCommit(s, b, b1, b0), s');
    var stored := s.(store := s.store[DigestOf(b) := b], written := s.written + {b});
    CommitFrame(stored, b0);
    if b0.round + 1 == b1.round && b0.round > s.lastCommitted {
      CommitKeepsChain(sys, log, seen, s, s', b, b1, b0);
    } else {
      StoringKeepsChain(sys, log, seen, s, s');
    }
  }

  lemma CommitFrame(s: Replica, b0: Block)
    ensures Commit(s, b0).store == s.store && Commit(s, b0).written == s.written
    ensures b0.round <= s.lastCommitted ==> Commit(s, b0) == s
  {
  }

  lemma CommitKeepsChain(sys: System, log: seq<Signing>, seen: set<Block>, s: Replica, s': Replica, b: Block,
                         b1: Block, b0: Block)
    requires World(sys, log, seen) && NodeChain(sys, log, seen, s) && b in seen
    requires StoreIn(s.store, s.written, seen) && StoreIn(s'.store, s'.written, seen)
    requires Parent(s.store, b) == Some(b1) && Parent(s.store, b1) == Some(b0)
    requires b0.round + 1 == b1.round && b0.round > s.lastCommitted
    requires s'.store == s.store[DigestOf(b) := b]
    requires SameChain(Commit(s.(written := s'.written, store := s'.store), b0), s')
    ensures NodeChain(sys, log, seen, s')
  {
    hide World, StoreIn, Sent, Extends, Blocks, Final, Complete, Certified;
    CommitRuleIsFinal(sys, log, seen, s.store, s.written, b, b1, b0);
    CommitSends(sys, log, seen, s'.store, s'.written, s.lastCommitted, b0);
    var sent := Emission(CommitWalk(s'.store, s.lastCommitted, b0).value);
    assert s'.commits == s.commits + [b0] && s'.emitted == s.emitted + sent;
    forall a ensures Sent(s'.emitted, a) <==> a != Zero && Extends(Blocks(s'.store), DigestOf(b0), a) {
      CommitCompletes(sys, log, seen, s, s'.store, s'.written, b0, sent, a);
    }
    CompleteIntro(s', DigestOf(b0));
  }

  lemma CompleteIntro(s: Replica, d: Digest)
    requires s.commits != [] && Head(s) == d
    requires forall a :: Sent(s.emitted, a) <==> a != Zero && Extends(Blocks(s.store), d, a)
    ensures Complete(s)
  {
  }

  // ----- whole runs -----

  ghost predicate ChainInv(sys: System, g: Global) {
    forall k :: k in g.nodes ==> NodeChain(sys, g.log, Seen(g), g.nodes[k])
  }

  lemma WorldOf(sys: System, g: Global)
    requires ValidSystem(sys) && GlobalInv(sys, g) && OneCertifiedParent(sys, g.log, Seen(g))
    ensures World(sys, g.log, Seen(g))
    ensures forall k :: k in g.nodes ==> StoreIn(g.nodes[k].store, g.nodes[k].written, Seen(g))
  {
    hide ValidSystem, LogInv, EvidenceOf, AggregatorInv, BlocksInv, ProposalsInv, CertificatesOk, OneCertifiedParent,
         StoreInv, LogRemembered, Justified;
    SeenIsJustified(sys, g);
    forall b | b in Seen(g)
      ensures IsGenesisQC(b.qc) <==> b.qc.hash == Zero
      ensures b.qc.hash == Zero || (b.qc.hash.BlockDigest? && b.qc.hash.height > 0)
    {
      CertificateRound(sys, g.log, b);
    }
    forall k | k in g.nodes ensures StoreIn(g.nodes[k].store, g.nodes[k].written, Seen(g)) {
      assert Inv(NodeOf(sys, k), EvidenceOf(sys, g.log), g.nodes[k]);
    }
  }

  lemma SeenGrows(g: Global, k: Key, s': Replica, log': seq<Signing>)
    requires k in g.nodes && g.nodes[k].written <= s'.written
    ensures Seen(g) <= Seen(Global(g.nodes[k := s'], log'))
  {
    var g' := Global(g.nodes[k := s'], log');
    forall b | b in Seen(g) ensures b in Seen(g') {
      var j :| j in g.nodes && b in g.nodes[j].written;
      assert j in g'.nodes && b in g'.nodes[j].written;
    }
  }

  lemma ApplyKeepsChain(sys: System, g: Global, k: Key, e: Event)
    requires ValidSystem(sys) && GlobalInv(sys, g) && Enabled(sys, g, k, e) && ChainInv(sys, g)
    requires var g' := Apply(sys, g, k, e); OneCertifiedParent(sys, g'.log, Seen(g'))
    ensures ChainInv(sys, Apply(sys, g, k, e))
  {
    hide ValidSystem, GlobalInv, Handle, Deliverable, NodeChain, World, Inv, ProposesOnce, SigningStep, StoreInv, Seen,
         OneCertifiedParent, ChainStep, EvidenceOf;
    var g' := Apply(sys, g, k, e);
    var s, s' := g.nodes[k], g'.nodes[k];
    ApplyStep(sys, g, k, e);
    ApplyKeeps(sys, g, k, e);
    SeenGrows(g, k, s', g'.log);
    WorldOf(sys, g');
    ParentsFewer(sys, g.log, g'.log, Seen(g), Seen(g'));
    WorldOf(sys, g);
    forall j | j in g'.nodes ensures NodeChain(sys, g'.log, Seen(g'), g'.nodes[j]) {
      NodeChainGrows(sys, g.log, g'.log, Seen(g), Seen(g'), g.nodes[j]);
      if j == k {
        assert StoreIn(s.store, s.written, Seen(g)) && StoreIn(s.store, s.written, Seen(g'));
        NodeStepKeepsChain(sys, g'.log, Seen(g'), s, s');
      }
    }
  }

  lemma NodeStepKeepsChain(sys: System, log: seq<Signing>, seen: set<Block>, s: Replica, s': Replica)
    requires World(sys, log, seen) && NodeChain(sys, log, seen, s)
    requires StoreIn(s.store, s.written, seen) && StoreIn(s'.store, s'.written, seen)
    requires ChainEffect(s, s')
    ensures NodeChain(sys, log, seen, s')
  {
    hide World, StoreInv, OneCertifiedParent, GenesisMarked, ChainStep, HeadOk, Complete, CommitsFinal;
    if ChainUnchanged(s, s') {
      StoringKeepsChain(sys, log, seen, s, s');
    } else {
      var b :| b in s'.written && ChainStep(s, s', b);
      DeliveryKeepsChain(sys, log, seen, s, s', b);
    }
  }

  lemma NextGrows(sys: System, g: Global, g': Global)
    requires ValidSystem(sys) && GlobalInv(sys, g) && Next(sys, g, g')
    ensures Seen(g) <= Seen(g') && g.log <= g'.log && g'.nodes.Keys == g.nodes.Keys
    ensures forall k :: k in g.nodes ==> Grows(g.nodes[k], g'.nodes[k])
  {
    hide ValidSystem, GlobalInv, Handle, Deliverable, Inv, ProposesOnce, SigningStep, Seen, ChainEffect;
    var k, e :| Enabled(sys, g, k, e) && g' == Apply(sys, g, k, e);
    ApplyStep(sys, g, k, e);
    SeenGrows(g, k, g'.nodes[k], g'.log);
    forall j | j in g.nodes ensures Grows(g.nodes[j], g'.nodes[j]) {
      if j != k {
        assert g'.nodes[j] == g.nodes[j];
      }
    }
  }

  /** The chain facts hold in every state of every run in which blocks of one certified digest
      agree on their parent. */
  lemma {:induction false} RunChain(sys: System, run: seq<Global>, i: nat)
    requires ValidSystem(sys) && IsRun(sys, run) && i < |run| && OneCertifiedParent(sys, run[i].log, Seen(run[i]))
    ensures GlobalInv(sys, run[i]) && ChainInv(sys, run[i])
  {
    hide ValidSystem, GlobalInv, Handle, Deliverable, Start, NodeChain, OneCertifiedParent, Seen;
    RunInv(sys, run, i);
    if i == 0 {
      forall k | k in run[0].nodes ensures NodeChain(sys, run[0].log, Seen(run[0]), run[0].nodes[k]) {
        StartChain(sys, NodeOf(sys, k), run[0].log, Seen(run[0]));
      }
    } else {
      var g, g' := run[i - 1], run[i];
      RunInv(sys, run, i - 1);
      assert Next(sys, g, g');
      NextGrows(sys, g, g');
      ParentsFewer(sys, g.log, g'.log, Seen(g), Seen(g'));
      RunChain(sys, run, i - 1);
      var k, e :| Enabled(sys, g, k, e) && g' == Apply(sys, g, k, e);
      ApplyKeepsChain(sys, g, k, e);
    }
  }

  lemma StartChain(sys: System, n: Node, log: seq<Signing>, seen: set<Block>)
    ensures NodeChain(sys, log, seen, Start(n))
  {
    hide Start, Inv;
    StartKeeps(n, EvidenceOf(sys, log));
  }

  // ----- main results -----

  /** A state that some run reaches. */
  ghost predicate Reachable(sys: System, g: Global) {
    exists run :: IsRun(sys, run) && run[|run| - 1] == g
  }

  lemma ReachableFacts(sys: System, g: Global)
    requires ValidSystem(sys) && Reachable(sys, g)
    ensures GlobalInv(sys, g)
    ensures OneCertifiedParent(sys, g.log, Seen(g)) ==> ChainInv(sys, g) && World(sys, g.log, Seen(g))
  {
    hide ValidSystem, GlobalInv, ChainInv, World, OneCertifiedParent, Seen, Init, Next;
    var run :| IsRun(sys, run) && run[|run| - 1] == g;
    RunInv(sys, run, |run| - 1);
    if OneCertifiedParent(sys, g.log, Seen(g)) {
      RunChain(sys, run, |run| - 1);
      WorldOf(sys, g);
    }
  }

  /** In runs in which blocks of one certified digest name the same parent, no honest node ever
      stops. Runs.StopsExactlyOnCycle and CommitCycles.CommitCanHang say what happens without. */
  lemma NeverStuck(sys: System, g: Global, k: Key)
    requires ValidSystem(sys) && Reachable(sys, g) && OneCertifiedParent(sys, g.log, Seen(g)) && k in g.nodes
    ensures g.nodes[k].health.Running?
  {
    hide ValidSystem, GlobalInv, World, OneCertifiedParent, Seen, Reachable, HeadOk, Complete, CommitsFinal;
    ReachableFacts(sys, g);
    assert NodeChain(sys, g.log, Seen(g), g.nodes[k]);
  }

  /** Agreement: of any two blocks committed by honest nodes, one extends the other. */
  lemma CommitsAgree(sys: System, g: Global, k: Key, k': Key, b: Block, b': Block)
    requires ValidSystem(sys) && Reachable(sys, g) && OneCertifiedParent(sys, g.log, Seen(g))
    requires k in g.nodes && k' in g.nodes && b in g.nodes[k].commits && b' in g.nodes[k'].commits
    ensures b.round <= b'.round ==> Extends(Seen(g), DigestOf(b'), DigestOf(b))
    ensures b.round >= b'.round ==> Extends(Seen(g), DigestOf(b), DigestOf(b'))
  {
    hide ValidSystem, GlobalInv, OneCertifiedParent, Seen, Reachable, HeadOk, Complete, LogInv, SeenInv,
         GenesisMarked, Final, Extends;
    ReachableFacts(sys, g);
    assert NodeChain(sys, g.log, Seen(g), g.nodes[k]) && NodeChain(sys, g.log, Seen(g), g.nodes[k']);
    FinalsAgree(sys, g.log, Seen(g), DigestOf(b), DigestOf(b'));
  }

  /** The commit channel has carried exactly the non-genesis chain of the last committed block. */
  lemma ChannelIsChain(sys: System, g: Global, k: Key, a: Digest)
    requires ValidSystem(sys) && Reachable(sys, g) && OneCertifiedParent(sys, g.log, Seen(g))
    requires k in g.nodes && g.nodes[k].commits != []
    ensures Sent(g.nodes[k].emitted, a) <==> a != Zero && Extends(Seen(g), Head(g.nodes[k]), a)
    ensures Head(g.nodes[k]).height == g.nodes[k].lastCommitted && Final(sys, g.log, Seen(g), Head(g.nodes[k]))
  {
    hide ValidSystem, GlobalInv, LogInv, SeenInv, GenesisMarked, OneCertifiedParent, Seen, Reachable, Extends, Sent,
         StoreIn, Blocks, Final, Certified;
    ReachableFacts(sys, g);
    WorldOf(sys, g);
    var s := g.nodes[k];
    assert NodeChain(sys, g.log, Seen(g), s);
    FinalIsCertified(sys, g.log, Seen(g), Head(s));
    SameAncestors(sys, g.log, Seen(g), s.store, s.written, Head(s), a);
  }

  lemma NothingBeforeCommit(sys: System, g: Global, k: Key)
    requires ValidSystem(sys) && Reachable(sys, g) && OneCertifiedParent(sys, g.log, Seen(g))
    requires k in g.nodes && g.nodes[k].emitted != []
    ensures g.nodes[k].commits != []
  {
    hide ValidSystem, GlobalInv, World, OneCertifiedParent, Seen, Reachable, Complete, CommitsFinal;
    ReachableFacts(sys, g);
    assert NodeChain(sys, g.log, Seen(g), g.nodes[k]);
  }

  /** No two honest nodes ever send different blocks of the same round to the application. */
  lemma SameRoundSameEmission(sys: System, g: Global, k: Key, k': Key, e: Block, e': Block)
    requires ValidSystem(sys) && Reachable(sys, g) && OneCertifiedParent(sys, g.log, Seen(g))
    requires k in g.nodes && k' in g.nodes && e in g.nodes[k].emitted && e' in g.nodes[k'].emitted
    requires e != GENESIS && e' != GENESIS && e.round == e'.round
    ensures DigestOf(e) == DigestOf(e')
  {
    hide ValidSystem, GlobalInv, OneCertifiedParent, Seen, Reachable, Extends, Final, LogInv, SeenInv, GenesisMarked,
         ChainInv;
    ReachableFacts(sys, g);
    NothingBeforeCommit(sys, g, k);
    NothingBeforeCommit(sys, g, k');
    ChannelIsChain(sys, g, k, DigestOf(e));
    ChannelIsChain(sys, g, k', DigestOf(e'));
    SameRoundSameBlock(sys, g.log, Seen(g), Head(g.nodes[k]), Head(g.nodes[k']), DigestOf(e), DigestOf(e'));
  }

  /** A block one honest node has sent is sent by every other that has committed that far. */
  lemma EmissionsAgree(sys: System, g: Global, k: Key, k': Key, e: Block)
    requires ValidSystem(sys) && Reachable(sys, g) && OneCertifiedParent(sys, g.log, Seen(g))
    requires k in g.nodes && k' in g.nodes && e in g.nodes[k].emitted && e != GENESIS
    requires e.round <= g.nodes[k'].lastCommitted
    ensures Sent(g.nodes[k'].emitted, DigestOf(e))
  {
    hide ValidSystem, GlobalInv, OneCertifiedParent, Seen, Reachable, Extends, Final, LogInv, SeenInv, GenesisMarked,
         Certified, Complete, CommitsFinal;
    ReachableFacts(sys, g);
    NothingBeforeCommit(sys, g, k);
    var a, h := DigestOf(e), Head(g.nodes[k]);
    ChannelIsChain(sys, g, k, a);
    FinalIsCertified(sys, g.log, Seen(g), h);
    AncestorCertified(sys, g.log, Seen(g), h, a);
    CertifiedPositive(sys, g.log, a);
    assert NodeChain(sys, g.log, Seen(g), g.nodes[k']);
    var h' := Head(g.nodes[k']);
    ChannelIsChain(sys, g, k', a);
    FinalsAgree(sys, g.log, Seen(g), h, h');
    if h.height <= h'.height {
      ExtendsTransitive(Seen(g), h', h, a);
    } else {
      BelowNewHead(sys, g.log, Seen(g), h, h', a);
    }
  }
}
