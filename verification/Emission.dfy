/** How often each block goes out on the commit channel. A commit whose chain has no block of the
    round after the last committed one sends the previous head again (consensus/core.go:115-136), so
    a block can be sent twice, and no block is sent more often. */
module Emissions {
  import opened Committees
  import opened Messages
  import opened Safety
  import opened Chains
  import opened Replicas
  import opened Protocol
  import opened Agreement

  /** How often a block of this digest, other than genesis, was sent. */
  function Times(sent: seq<Block>, a: Digest): nat {
    if sent == [] then 0
    else
      var last := sent[|sent| - 1];
      Times(sent[..|sent| - 1], a) + (if last != GENESIS && DigestOf(last) == a then 1 else 0)
  }

  lemma {:induction false} TimesConcat(xs: seq<Block>, ys: seq<Block>, a: Digest)
    ensures Times(xs + ys, a) == Times(xs, a) + Times(ys, a)
    decreases |ys|
  {
    if ys == [] {
      assert xs + ys == xs;
    } else {
      TimesConcat(xs, ys[..|ys| - 1], a);
      assert (xs + ys)[..|xs + ys| - 1] == xs + ys[..|ys| - 1];
    }
  }

  ghost predicate Falling(xs: seq<Block>) {
    forall i, j :: 0 <= i < j < |xs| ==> xs[j].round < xs[i].round
  }

  lemma {:induction false} FallingTimes(xs: seq<Block>, a: Digest)
    requires Falling(xs)
    ensures Times(xs, a) == if Sent(xs, a) then 1 else 0
    decreases |xs|
  {
    if xs != [] {
      var front, last := xs[..|xs| - 1], xs[|xs| - 1];
      FallingTimes(front, a);
      assert xs == front + [last];
      SentSplits(front, [last], a);
      assert Sent([last], a) <==> last != GENESIS && DigestOf(last) == a by {
        assert [last][0] == last;
      }
      if Sent(front, a) {
        var i :| 0 <= i < |front| && front[i] != GENESIS && DigestOf(front[i]) == a;
        assert xs[i].round > xs[|xs| - 1].round;
      }
    }
  }

  // ----- one commit -----

  /** The chain that ends at the digest has no block of this round. */
  ghost predicate Skips(seen: set<Block>, round: nat, d: Digest) {
    forall x :: Extends(seen, d, x) && x.BlockDigest? ==> x.height != round
  }

  /** The part of the ancestry that one commit call sends. */
  lemma WalkOnLine(store: BlockStore, last: nat, line: seq<Block>, a: Digest) returns (n: nat)
    requires IsLine(store, line)
    ensures 0 < n <= |line| && line[n - 1].round <= last + 1
    ensures forall i :: 0 <= i < n - 1 ==> line[i].round > last + 1
    ensures CommitWalk(store, last, line[0]).Some?
    ensures Times(Emission(CommitWalk(store, last, line[0]).value), a) == if Sent(line[..n], a) then 1 else 0
  {
    hide Times, Sent;
    n := WalkIsPrefix(store, last, line);
    var walk := line[..n];
    assert walk[0] == line[0] && walk[n - 1] == line[n - 1];
    assert forall i :: 0 <= i < n - 1 ==> line[i] == walk[i];
    WalkUnique(store, last, CommitWalk(store, last, line[0]).value, walk);
    forall i, j | 0 <= i < j < n ensures walk[j].round < walk[i].round {
      LineFalls(store, line, i, j);
    }
    FallingTimes(walk, a);
    EmissionTimes(walk, a);
  }

  /** Emission only changes the order. */
  lemma EmissionTimes(walk: seq<Block>, a: Digest)
    requires walk != []
    ensures Times(Emission(walk), a) == Times(walk, a)
  {
    hide Times;
    assert walk == [walk[0]] + walk[1..];
    TimesConcat([walk[0]], walk[1..], a);
    TimesConcat(walk[1..], [walk[0]], a);
  }

  lemma LineRounds(store: BlockStore, line: seq<Block>, i: nat, j: nat)
    requires IsLine(store, line) && i <= j < |line|
    ensures line[j].round <= line[i].round && (line[j].round == line[i].round ==> i == j)
  {
    if i < j {
      LineFalls(store, line, i, j);
    }
  }

  lemma InPrefix(line: seq<Block>, n: nat, i: nat)
    requires i < n <= |line| && line[i] != GENESIS
    ensures Sent(line[..n], DigestOf(line[i]))
  {
    assert line[..n][i] == line[i];
  }

  /** Where a digest stands on the line, if it is on the chain. */
  lemma OnLine(sys: System, log: seq<Signing>, seen: set<Block>, store: BlockStore, written: set<Block>,
               line: seq<Block>, a: Digest)
      returns (i: nat)
    requires World(sys, log, seen) && StoreIn(store, written, seen) && IsLine(store, line)
    requires line[0] in seen && line[0] != GENESIS && Certified(sys, log, DigestOf(line[0]), line[0].round)
    requires a != Zero && Extends(seen, DigestOf(line[0]), a)
    ensures i < |line| && line[i] != GENESIS && DigestOf(line[i]) == a
  {
    hide World, StoreIn, IsPath, Certified;
    var p :| IsPath(seen, p, DigestOf(line[0]), a);
    i := AncestorOnLine(sys, log, seen, store, written, line, 0, p, a);
  }

  /** The stopping block of the walk: of the round just above the last committed one, or that one. */
  lemma StopsAtHead(sys: System, log: seq<Signing>, seen: set<Block>, store: BlockStore, written: set<Block>,
                    line: seq<Block>,
                    n: nat, h: Digest)
    requires World(sys, log, seen) && StoreIn(store, written, seen) && IsLine(store, line)
    requires line[0] in seen && line[0] != GENESIS && Certified(sys, log, DigestOf(line[0]), line[0].round)
    requires h.BlockDigest? && Extends(seen, DigestOf(line[0]), h)
    requires 0 < n <= |line| && line[n - 1].round <= h.height + 1
    requires forall i :: 0 <= i < n - 1 ==> line[i].round > h.height + 1
    ensures line[n - 1].round == h.height + 1 || (line[n - 1] != GENESIS && DigestOf(line[n - 1]) == h)
    ensures line[n - 1].round <= h.height <==> Skips(seen, h.height + 1, DigestOf(line[0]))
  {
    hide World, StoreIn, Extends, Certified;
    var d := DigestOf(line[0]);
    var j := OnLine(sys, log, seen, store, written, line, h);
    assert j >= n - 1;
    LineRounds(store, line, n - 1, j);
    if line[n - 1].round <= h.height {
      forall x | Extends(seen, d, x) && x.BlockDigest? ensures x.height != h.height + 1 {
        var i := OnLine(sys, log, seen, store, written, line, x);
        if i >= n - 1 {
          LineRounds(store, line, n - 1, i);
        }
      }
    } else {
      assert line[n - 1].round == h.height + 1;
      AncestorByLine(sys, log, seen, store, written, line, n - 1);
    }
  }

  lemma AncestorByLine(sys: System, log: seq<Signing>, seen: set<Block>, store: BlockStore, written: set<Block>,
                       line: seq<Block>, i: nat)
    requires World(sys, log, seen) && StoreIn(store, written, seen) && IsLine(store, line) && line[0] in seen
    requires i < |line| && line[i] != GENESIS
    ensures Extends(seen, DigestOf(line[0]), DigestOf(line[i]))
  {
    hide ValidSystem, LogInv, SeenInv, OneCertifiedParent, GenesisMarked, StoreIn, Extends;
    LineExtends(store, written, seen, line, i);
  }

  /** How often one commit sends a block: those of the chain above the last committed round once, and
      the previous head again exactly if the chain skips the round after it. */
  ghost predicate SentByCommit(seen: set<Block>, commits: seq<Block>, last: nat, d: Digest, a: Digest) {
    && a != Zero && Extends(seen, d, a)
    && (|| (a.BlockDigest? && a.height > last)
        || (commits != [] && a == DigestOf(commits[|commits| - 1]) && Skips(seen, last + 1, d)))
  }

  lemma CommitTimes(sys: System, log: seq<Signing>, seen: set<Block>, s: Replica, store': BlockStore,
                    written': set<Block>,
                    b0: Block, a: Digest)
    requires World(sys, log, seen) && NodeChain(sys, log, seen, s) && StoreIn(store', written', seen)
    requires b0 in seen && Final(sys, log, seen, DigestOf(b0)) && Parent(store', b0).Some? && b0.round > s.lastCommitted
    ensures CommitWalk(store', s.lastCommitted, b0).Some?
    ensures Times(Emission(CommitWalk(store', s.lastCommitted, b0).value), a)
            == if SentByCommit(seen, s.commits, s.lastCommitted, DigestOf(b0), a) then 1 else 0
  {
    hide ValidSystem, LogInv, SeenInv, OneCertifiedParent, GenesisMarked, StoreIn, Final, Extends, Certified,
         Complete, IsWalk, Sent;
    var d, last := DigestOf(b0), s.lastCommitted;
    FinalIsCertified(sys, log, seen, d);
    var line := LineExists(sys, log, store', written', seen, b0);
    assert line[0] != GENESIS;
    var n := WalkOnLine(store', last, line, a);
    if Sent(line[..n], a) {
      SentOnlyThese(sys, log, seen, s, store', written', line, n, a);
    }
    if SentByCommit(seen, s.commits, last, d, a) {
      TheseSent(sys, log, seen, s, store', written', line, n, a);
    }
  }

  lemma SentOnlyThese(sys: System, log: seq<Signing>, seen: set<Block>, s: Replica, store': BlockStore,
                      written': set<Block>,
                      line: seq<Block>, n: nat, a: Digest)
    requires World(sys, log, seen) && NodeChain(sys, log, seen, s) && StoreIn(store', written', seen)
    requires IsLine(store', line) && line[0] in seen && line[0] != GENESIS && Final(sys, log, seen, DigestOf(line[0]))
    requires line[0].round > s.lastCommitted
    requires 0 < n <= |line| && line[n - 1].round <= s.lastCommitted + 1
    requires forall i :: 0 <= i < n - 1 ==> line[i].round > s.lastCommitted + 1
    requires Sent(line[..n], a)
    ensures SentByCommit(seen, s.commits, s.lastCommitted, DigestOf(line[0]), a)
  {
    hide ValidSystem, LogInv, SeenInv, OneCertifiedParent, GenesisMarked, StoreIn, Final, Extends, Certified,
         Complete, IsLine;
    var d, last := DigestOf(line[0]), s.lastCommitted;
    FinalIsCertified(sys, log, seen, d);
    var i :| 0 <= i < n && line[..n][i] != GENESIS && DigestOf(line[..n][i]) == a;
    AncestorByLine(sys, log, seen, store', written', line, i);
    if line[i].round <= last {
      AncestorCertified(sys, log, seen, d, a);
      CertifiedPositive(sys, log, a);
      HeadIsFinal(sys, log, seen, s);
      FinalsAgree(sys, log, seen, Head(s), d);
      StopsAtHead(sys, log, seen, store', written', line, n, Head(s));
    }
  }

  lemma HeadIsFinal(sys: System, log: seq<Signing>, seen: set<Block>, s: Replica)
    requires NodeChain(sys, log, seen, s)
    ensures s.commits != [] ==> Final(sys, log, seen, Head(s)) && Head(s).height == s.lastCommitted
    ensures s.commits == [] ==> s.lastCommitted == 0 && s.emitted == []
  {
    hide Final, Complete;
  }

  lemma TheseSent(sys: System, log: seq<Signing>, seen: set<Block>, s: Replica, store': BlockStore,
                  written': set<Block>,
                  line: seq<Block>, n: nat, a: Digest)
    requires World(sys, log, seen) && NodeChain(sys, log, seen, s) && StoreIn(store', written', seen)
    requires IsLine(store', line) && line[0] in seen && line[0] != GENESIS && Final(sys, log, seen, DigestOf(line[0]))
    requires 0 < n <= |line| && line[n - 1].round <= s.lastCommitted + 1
    requires forall i :: 0 <= i < n - 1 ==> line[i].round > s.lastCommitted + 1
    requires SentByCommit(seen, s.commits, s.lastCommitted, DigestOf(line[0]), a)
    ensures Sent(line[..n], a)
  {
    hide ValidSystem, LogInv, SeenInv, OneCertifiedParent, GenesisMarked, StoreIn, Final, Extends, Certified,
         NodeChain, Sent, IsLine;
    var d, last := DigestOf(line[0]), s.lastCommitted;
    FinalIsCertified(sys, log, seen, d);
    var i := OnLine(sys, log, seen, store', written', line, a);
    if i >= n {
      LineRounds(store', line, n - 1, i);
      HeadIsFinal(sys, log, seen, s);
      StopsAtHead(sys, log, seen, store', written', line, n, Head(s));
    }
    InPrefix(line, n, i);
  }

  // ----- whole runs -----

  /** The block was the committed head when the next commit's chain skipped the round after it. */
  ghost predicate AgainAt(seen: set<Block>, commits: seq<Block>, i: nat, a: Digest) {
    && i + 1 < |commits| && DigestOf(commits[i]) == a
    && Skips(seen, commits[i].round + 1, DigestOf(commits[i + 1]))
  }

  ghost predicate SentAgain(seen: set<Block>, commits: seq<Block>, a: Digest) {
    exists i: nat :: AgainAt(seen, commits, i, a)
  }

  ghost predicate OnChain(seen: set<Block>, commits: seq<Block>, a: Digest) {
    commits != [] && a != Zero && Extends(seen, DigestOf(commits[|commits| - 1]), a)
  }

  ghost predicate Ascending(commits: seq<Block>) {
    forall i, j :: 0 <= i < j < |commits| ==> commits[i].round < commits[j].round
  }

  /** How often the commits so far have sent a block. */
  ghost function Expected(seen: set<Block>, commits: seq<Block>, a: Digest): nat {
    (if OnChain(seen, commits, a) then 1 else 0) + (if SentAgain(seen, commits, a) then 1 else 0)
  }

  ghost predicate Counted(seen: set<Block>, commits: seq<Block>, emitted: seq<Block>) {
    forall a :: Times(emitted, a) == Expected(seen, commits, a)
  }

  ghost predicate NodeCount(seen: set<Block>, s: Replica) {
    && Ascending(s.commits) && Counted(seen, s.commits, s.emitted)
    && forall i :: 0 <= i < |s.commits| ==> DigestOf(s.commits[i]) in s.store
  }

  lemma AgainSnoc(seen: set<Block>, commits: seq<Block>, b0: Block, a: Digest)
    requires Ascending(commits) && commits != []
    ensures var head := commits[|commits| - 1];
            && (SentAgain(seen, commits + [b0], a) <==>
                SentAgain(seen, commits, a) || (a == DigestOf(head) && Skips(seen, head.round + 1, DigestOf(b0))))
            && (SentAgain(seen, commits, a) ==> a != DigestOf(head))
  {
    hide Skips;
    var more, last := commits + [b0], |commits| - 1;
    forall i: nat
      ensures AgainAt(seen, more, i, a) <==> AgainAt(seen, commits, i, a) || (i == last && AgainAt(seen, more, last, a))
    {
      SameBefore(seen, commits, b0, i, a);
    }
    assert more[last] == commits[last] && more[last + 1] == b0;
    assert AgainAt(seen, more, last, a) <==>
           a == DigestOf(commits[last]) && Skips(seen, commits[last].round + 1, DigestOf(b0));
  }

  lemma SameBefore(seen: set<Block>, commits: seq<Block>, b0: Block, i: nat, a: Digest)
    ensures i + 1 < |commits| ==> (AgainAt(seen, commits + [b0], i, a) <==> AgainAt(seen, commits, i, a))
    ensures i + 1 > |commits| ==> !AgainAt(seen, commits + [b0], i, a)
  {
    hide Skips;
    var more := commits + [b0];
    if i + 1 < |commits| {
      assert more[i] == commits[i] && more[i + 1] == commits[i + 1];
    }
  }

  /** The chain of a new head is that of the old one and what lies above the old round. */
  lemma ChainSplits(sys: System, log: seq<Signing>, seen: set<Block>, h: Digest, d: Digest, a: Digest)
    requires World(sys, log, seen) && Final(sys, log, seen, h) && Final(sys, log, seen, d)
    requires h.BlockDigest? && d.BlockDigest? && h.height < d.height && a != Zero
    ensures Extends(seen, h, a) ==> a.BlockDigest? && a.height <= h.height
    ensures Extends(seen, d, a) <==>
            Extends(seen, h, a) || (Extends(seen, d, a) && a.BlockDigest? && a.height > h.height)
  {
    hide ValidSystem, LogInv, SeenInv, OneCertifiedParent, GenesisMarked, Final, Extends, Certified;
    FinalIsCertified(sys, log, seen, h);
    FinalIsCertified(sys, log, seen, d);
    FinalsAgree(sys, log, seen, h, d);
    if Extends(seen, h, a) {
      ExtendsTransitive(seen, d, h, a);
      AncestorCertified(sys, log, seen, h, a);
      AncestorLower(sys, log, seen, h, a);
    }
    if Extends(seen, d, a) {
      AncestorCertified(sys, log, seen, d, a);
      if a.height <= h.height {
        BelowNewHead(sys, log, seen, d, h, a);
      }
    }
  }

  lemma FirstCommitCounts(sys: System, log: seq<Signing>, seen: set<Block>, d: Digest, a: Digest)
    requires World(sys, log, seen) && Final(sys, log, seen, d) && a != Zero && Extends(seen, d, a)
    ensures a.BlockDigest? && a.height > 0
  {
    hide ValidSystem, LogInv, SeenInv, OneCertifiedParent, GenesisMarked, Final, Extends, Certified;
    FinalIsCertified(sys, log, seen, d);
    AncestorCertified(sys, log, seen, d, a);
    CertifiedPositive(sys, log, a);
  }

  /** One commit keeps the count of every digest right. */
  lemma CommitCounts(sys: System, log: seq<Signing>, seen: set<Block>, s: Replica, b0: Block, sent: seq<Block>,
                     a: Digest)
    requires World(sys, log, seen) && NodeChain(sys, log, seen, s) && NodeCount(seen, s)
    requires Final(sys, log, seen, DigestOf(b0)) && b0.round > s.lastCommitted
    requires Times(sent, a) == if SentByCommit(seen, s.commits, s.lastCommitted, DigestOf(b0), a) then 1 else 0
    ensures Times(s.emitted + sent, a) == Expected(seen, s.commits + [b0], a)
  {
    hide World, NodeChain, Final, Extends, Times, Skips, SentAgain;
    var d := DigestOf(b0);
    TimesConcat(s.emitted, sent, a);
    HeadIsFinal(sys, log, seen, s);
    assert (s.commits + [b0])[|s.commits|] == b0;
    assert Times(s.emitted, a) == Expected(seen, s.commits, a);
    if s.commits == [] {
      assert s.commits + [b0] == [b0];
      NothingAgain(seen, b0, a);
      if a != Zero && Extends(seen, d, a) {
        FirstCommitCounts(sys, log, seen, d, a);
      }
    } else {
      AgainSnoc(seen, s.commits, b0, a);
      if a != Zero {
        ChainSplits(sys, log, seen, Head(s), d, a);
      }
      OldHeadOnChain(sys, log, seen, s, d);
    }
  }

  lemma OldHeadOnChain(sys: System, log: seq<Signing>, seen: set<Block>, s: Replica, d: Digest)
    requires World(sys, log, seen) && NodeChain(sys, log, seen, s) && s.commits != []
    requires Final(sys, log, seen, d) && d.BlockDigest? && d.height > s.lastCommitted
    ensures Extends(seen, d, Head(s))
  {
    hide ValidSystem, LogInv, SeenInv, OneCertifiedParent, GenesisMarked, NodeChain, Final, Extends;
    HeadIsFinal(sys, log, seen, s);
    FinalsAgree(sys, log, seen, Head(s), d);
  }

  lemma NothingAgain(seen: set<Block>, b0: Block, a: Digest)
    ensures !SentAgain(seen, [], a) && !SentAgain(seen, [b0], a)
  {
  }

  lemma DeliveryKeepsCount(sys: System, log: seq<Signing>, seen: set<Block>, s: Replica, s': Replica, b: Block)
    requires World(sys, log, seen) && NodeChain(sys, log, seen, s) && NodeCount(seen, s) && b in seen
    requires StoreIn(s.store, s.written, seen) && StoreIn(s'.store, s'.written, seen)
    requires ChainStep(s, s', b)
    ensures NodeCount(seen, s')
  {
    hide World, StoreIn, Commit, NodeChain, Counted;
    var b1, b0 :| Parent(s.store, b) == Some(b1) && Parent(s.store, b1) == Some(b0)
                  && SameChain(StoreAndCommit(s, b, b1, b0), s');
    CommitFrame(s.(store := s.store[DigestOf(b) := b], written := s.written + {b}), b0);
    if b0.round + 1 == b1.round && b0.round > s.lastCommitted {
      CommitKeepsCount(sys, log, seen, s, s', b, b1, b0);
    }
  }

  lemma CommitKeepsCount(sys: System, log: seq<Signing>, seen: set<Block>, s: Replica, s': Replica, b: Block,
                         b1: Block, b0: Block)
    requires World(sys, log, seen) && NodeChain(sys, log, seen, s) && NodeCount(seen, s) && b in seen
    requires StoreIn(s.store, s.written, seen) && StoreIn(s'.store, s'.written, seen)
    requires Parent(s.store, b) == Some(b1) && Parent(s.store, b1) == Some(b0)
    requires b0.round + 1 == b1.round && b0.round > s.lastCommitted
    requires s'.store == s.store[DigestOf(b) := b]
    requires SameChain(Commit(s.(written := s'.written, store := s'.store), b0), s')
    ensures NodeCount(seen, s')
  {
    hide World, StoreIn, NodeChain, Final, Certified, Times, Expected, SentByCommit;
    CommitRuleIsFinal(sys, log, seen, s.store, s.written, b, b1, b0);
    CommitTimes(sys, log, seen, s, s'.store, s'.written, b0, Zero);
    var sent := Emission(CommitWalk(s'.store, s.lastCommitted, b0).value);
    assert s'.commits == s.commits + [b0] && s'.emitted == s.emitted + sent;
    forall a ensures Times(s'.emitted, a) == Expected(seen, s'.commits, a) {
      CommitTimes(sys, log, seen, s, s'.store, s'.written, b0, a);
      CommitCounts(sys, log, seen, s, b0, sent, a);
    }
    LastIsHighest(sys, log, seen, s, b0);
  }

  lemma LastIsHighest(sys: System, log: seq<Signing>, seen: set<Block>, s: Replica, b0: Block)
    requires NodeChain(sys, log, seen, s) && Ascending(s.commits) && b0.round > s.lastCommitted
    ensures Ascending(s.commits + [b0])
  {
    hide NodeChain;
    HeadIsFinal(sys, log, seen, s);
  }

  /** What a certified stored block extends does not change as more blocks are stored. */
  lemma SameChainLater(sys: System, log: seq<Signing>, log': seq<Signing>, seen: set<Block>, seen': set<Block>,
                       store: BlockStore, written: set<Block>, d: Digest, a: Digest)
    requires World(sys, log, seen) && World(sys, log', seen') && log <= log' && seen <= seen'
    requires StoreIn(store, written, seen) && d in store && Final(sys, log, seen, d)
    ensures Extends(seen', d, a) <==> Extends(seen, d, a)
  {
    hide ValidSystem, LogInv, SeenInv, OneCertifiedParent, GenesisMarked, StoreInv, Final, Extends, Certified, Blocks;
    FinalIsCertified(sys, log, seen, d);
    CertifiedGrows(sys, log, log', d, d.height);
    SameAncestors(sys, log, seen, store, written, d, a);
    SameAncestors(sys, log', seen', store, written, d, a);
  }

  lemma CountGrows(sys: System, log: seq<Signing>, log': seq<Signing>, seen: set<Block>, seen': set<Block>, s: Replica)
    requires World(sys, log, seen) && World(sys, log', seen') && log <= log' && seen <= seen'
    requires StoreIn(s.store, s.written, seen) && NodeChain(sys, log, seen, s) && NodeCount(seen, s)
    ensures NodeCount(seen', s)
  {
    hide World, StoreIn, Final, Extends, Times, HeadOk, Complete, SentAgain;
    forall i, a | 0 <= i < |s.commits|
      ensures Extends(seen', DigestOf(s.commits[i]), a) <==> Extends(seen, DigestOf(s.commits[i]), a)
    {
      SameChainLater(sys, log, log', seen, seen', s.store, s.written, DigestOf(s.commits[i]), a);
    }
    forall a ensures SentAgain(seen', s.commits, a) <==> SentAgain(seen, s.commits, a) {
      SameAgain(seen, seen', s.commits, a);
    }
  }

  lemma SameAgain(seen: set<Block>, seen': set<Block>, commits: seq<Block>, a: Digest)
    requires forall i, x :: 0 <= i < |commits| ==>
               (Extends(seen', DigestOf(commits[i]), x) <==> Extends(seen, DigestOf(commits[i]), x))
    ensures SentAgain(seen', commits, a) <==> SentAgain(seen, commits, a)
  {
    hide Extends;
    forall i: nat ensures AgainAt(seen', commits, i, a) <==> AgainAt(seen, commits, i, a) {
    }
  }

  ghost predicate CountInv(g: Global) {
    forall k :: k in g.nodes ==> NodeCount(Seen(g), g.nodes[k])
  }

  lemma NodeStepKeepsCount(sys: System, log: seq<Signing>, seen: set<Block>, s: Replica, s': Replica)
    requires World(sys, log, seen) && NodeChain(sys, log, seen, s) && NodeCount(seen, s)
    requires StoreIn(s.store, s.written, seen) && StoreIn(s'.store, s'.written, seen)
    requires ChainEffect(s, s')
    ensures NodeCount(seen, s')
  {
    hide World, StoreInv, ChainStep, NodeChain, Counted;
    if !ChainUnchanged(s, s') {
      var b :| b in s'.written && ChainStep(s, s', b);
      DeliveryKeepsCount(sys, log, seen, s, s', b);
    }
  }

  lemma ApplyKeepsCount(sys: System, g: Global, k: Key, e: Event)
    requires ValidSystem(sys) && GlobalInv(sys, g) && Enabled(sys, g, k, e) && ChainInv(sys, g) && CountInv(g)
    requires var g' := Apply(sys, g, k, e); OneCertifiedParent(sys, g'.log, Seen(g'))
    ensures CountInv(Apply(sys, g, k, e))
  {
    hide ValidSystem, GlobalInv, Handle, Deliverable, NodeChain, NodeCount, World, Inv, ProposesOnce, SigningStep,
         StoreInv, Seen,
         OneCertifiedParent, ChainStep, EvidenceOf;
    var g' := Apply(sys, g, k, e);
    var s, s' := g.nodes[k], g'.nodes[k];
    ApplyStep(sys, g, k, e);
    ApplyKeeps(sys, g, k, e);
    SeenGrows(g, k, s', g'.log);
    WorldOf(sys, g');
    ParentsFewer(sys, g.log, g'.log, Seen(g), Seen(g'));
    WorldOf(sys, g);
    forall j | j in g'.nodes ensures NodeCount(Seen(g'), g'.nodes[j]) {
      CountGrows(sys, g.log, g'.log, Seen(g), Seen(g'), g.nodes[j]);
      if j == k {
        NodeChainGrows(sys, g.log, g'.log, Seen(g), Seen(g'), s);
        NodeStepKeepsCount(sys, g'.log, Seen(g'), s, s');
      }
    }
  }

  lemma StartCounts(sys: System, n: Node, log: seq<Signing>, seen: set<Block>)
    ensures NodeCount(seen, Start(n))
  {
    hide Start, Inv, Extends;
    StartKeeps(n, EvidenceOf(sys, log));
    forall a ensures Times([], a) == 0 && !SentAgain(seen, [], a) {
    }
  }

  lemma {:induction false} RunCounts(sys: System, run: seq<Global>, i: nat)
    requires ValidSystem(sys) && IsRun(sys, run) && i < |run| && OneCertifiedParent(sys, run[i].log, Seen(run[i]))
    ensures CountInv(run[i])
  {
    hide ValidSystem, GlobalInv, ChainInv, Handle, Deliverable, Start, NodeCount, OneCertifiedParent, Seen;
    if i == 0 {
      forall k | k in run[0].nodes ensures NodeCount(Seen(run[0]), run[0].nodes[k]) {
        StartCounts(sys, NodeOf(sys, k), run[0].log, Seen(run[0]));
      }
    } else {
      var g, g' := run[i - 1], run[i];
      RunInv(sys, run, i - 1);
      assert Next(sys, g, g');
      NextGrows(sys, g, g');
      ParentsFewer(sys, g.log, g'.log, Seen(g), Seen(g'));
      RunChain(sys, run, i - 1);
      RunCounts(sys, run, i - 1);
      var k, e :| Enabled(sys, g, k, e) && g' == Apply(sys, g, k, e);
      ApplyKeepsCount(sys, g, k, e);
    }
  }

  /** Exactly how often a node has sent a block: never if it is not on the chain of the last committed
      block; twice if it was the committed head when the next commit's chain had no block of the
      round after it; and once otherwise. */
  lemma SentHowOften(sys: System, g: Global, k: Key, a: Digest)
    requires ValidSystem(sys) && Reachable(sys, g) && OneCertifiedParent(sys, g.log, Seen(g)) && k in g.nodes
    ensures var s := g.nodes[k];
            Times(s.emitted, a)
            == if !OnChain(Seen(g), s.commits, a) then 0 else if SentAgain(Seen(g), s.commits, a) then 2 else 1
  {
    hide ValidSystem, Reachable, GlobalInv, OneCertifiedParent, Seen, ChainInv, OnChain, SentAgain, Times, Init,
         Next, LogInv, SeenInv, GenesisMarked;
    ReachableFacts(sys, g);
    CountReachable(sys, g, k);
    if SentAgain(Seen(g), g.nodes[k].commits, a) {
      AgainOnChain(sys, g, k, a);
    }
  }

  lemma CountReachable(sys: System, g: Global, k: Key)
    requires ValidSystem(sys) && Reachable(sys, g) && OneCertifiedParent(sys, g.log, Seen(g)) && k in g.nodes
    ensures NodeCount(Seen(g), g.nodes[k])
  {
    hide ValidSystem, OneCertifiedParent, Seen, Init, Next, NodeCount;
    var run :| IsRun(sys, run) && run[|run| - 1] == g;
    RunCounts(sys, run, |run| - 1);
  }

  lemma AgainOnChain(sys: System, g: Global, k: Key, a: Digest)
    requires ValidSystem(sys) && ChainInv(sys, g) && World(sys, g.log, Seen(g)) && k in g.nodes
    requires NodeCount(Seen(g), g.nodes[k]) && SentAgain(Seen(g), g.nodes[k].commits, a)
    ensures OnChain(Seen(g), g.nodes[k].commits, a)
  {
    hide ValidSystem, OneCertifiedParent, Seen, Extends, Final, Skips, Counted, Complete, HeadOk, LogInv, SeenInv,
         GenesisMarked;
    var s := g.nodes[k];
    assert NodeChain(sys, g.log, Seen(g), s);
    var i: nat :| AgainAt(Seen(g), s.commits, i, a);
    FinalsAgree(sys, g.log, Seen(g), a, DigestOf(s.commits[|s.commits| - 1]));
  }
}
