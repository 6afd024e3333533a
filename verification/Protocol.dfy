/** Runs of the whole system: honest nodes execute their handlers in any order on anything an
    adversary can put on the network without forging honest signatures. */
module Protocol {
  import opened Committees
  import opened Messages
  import opened Aggregation
  import opened Safety
  import opened Replicas

  /** The honest nodes and everything they signed, in the order they signed it. */
  datatype Global = Global(nodes: map<Key, Replica>, log: seq<Signing>)

  function NodeOf(sys: System, k: Key): Node { Node(k, sys.committee) }

  ghost predicate Init(sys: System, g: Global) {
    && (forall k :: k in g.nodes <==> Honest(sys, k))
    && (forall k :: k in g.nodes ==> g.nodes[k] == Start(NodeOf(sys, k)))
    && g.log == []
  }

  function NewSignings(s: Replica, s': Replica): seq<Signing> {
    if |s.signings| <= |s'.signings| then s'.signings[|s.signings|..] else []
  }

  ghost function Apply(sys: System, g: Global, k: Key, e: Event): Global
    requires k in g.nodes
  {
    var s' := Handle(NodeOf(sys, k), g.nodes[k], e);
    Global(g.nodes[k := s'], g.log + NewSignings(g.nodes[k], s'))
  }

  ghost predicate Enabled(sys: System, g: Global, k: Key, e: Event) {
    && k in g.nodes && g.nodes[k].health.Running?
    && Deliverable(NodeOf(sys, k), EvidenceOf(sys, g.log), g.nodes[k], e)
  }

  ghost predicate Next(sys: System, g: Global, g': Global) {
    exists k, e :: Enabled(sys, g, k, e) && g' == Apply(sys, g, k, e)
  }

  ghost predicate IsRun(sys: System, run: seq<Global>) {
    && run != [] && Init(sys, run[0])
    && (forall i :: 0 < i < |run| ==> Next(sys, run[i - 1], run[i]))
  }

  /** Every block an honest node has ever written to its store. */
  ghost function Seen(g: Global): set<Block> {
    set k, b | k in g.nodes && b in g.nodes[k].written :: b
  }

  // ----- invariant -----

  /** What a node's counters say about a signature it made earlier. */
  ghost predicate Remembered(s: Replica, x: Signing) {
    match x
    case VoteFor(_, b) => b.round <= s.lastVoted && b.qc.round <= s.highQC.round && b in s.written
    case TimeoutAt(_, round, _) => round <= s.lastVoted
  }

  ghost predicate LogRemembered(g: Global) {
    forall i :: 0 <= i < |g.log| ==> g.log[i].author in g.nodes && Remembered(g.nodes[g.log[i].author], g.log[i])
  }

  ghost predicate NodesInv(sys: System, nodes: map<Key, Replica>, log: seq<Signing>) {
    forall k :: k in nodes ==> Inv(NodeOf(sys, k), EvidenceOf(sys, log), nodes[k])
  }

  ghost predicate GlobalInv(sys: System, g: Global) {
    && (forall k :: k in g.nodes <==> Honest(sys, k))
    && NodesInv(sys, g.nodes, g.log)
    && LogInv(sys, g.log) && LogRemembered(g)
  }

  lemma StartKeeps(n: Node, ok: Evidence)
    ensures Inv(n, ok, Start(n)) && Start(n).signings == [] && Start(n).health.Running?
    ensures Start(n).written == {} && Start(n).commits == [] && Start(n).emitted == [] && Start(n).lastCommitted == 0
    ensures forall i :: 0 <= i < |Start(n).proposals| ==> Votable(Start(n).proposals[i])
  {
    hide LeaderElection.Leader;
    assert CertificatesOk(n.committee, ok, GENESIS_QC, None);
    assert Inv(n, ok, INITIAL);
    ProposeKeeps(n, ok, INITIAL, None);
  }

  lemma InitInv(sys: System, g: Global)
    requires Init(sys, g)
    ensures GlobalInv(sys, g)
  {
    hide Inv, Start, EvidenceOf;
    forall k | k in g.nodes ensures Inv(NodeOf(sys, k), EvidenceOf(sys, g.log), g.nodes[k]) {
      StartKeeps(NodeOf(sys, k), EvidenceOf(sys, g.log));
    }
  }

  /** Appending a signature made under the rules keeps the log facts. */
  lemma LogSnoc(sys: System, log: seq<Signing>, x: Signing)
    requires LogInv(sys, log) && Honest(sys, x.author)
    requires forall i :: 0 <= i < |log| && log[i].author == x.author ==> InOrder(log[i], x)
    requires x.VoteFor? ==> Rule2(x.block) && Justified(sys, log, x.block)
    ensures LogInv(sys, log + [x])
  {
    hide Justified, Rule2, InOrder;
    var log' := log + [x];
    forall i | 0 <= i < |log'| ensures VoteJustified(sys, log', i) {
      if i < |log| {
        assert log'[..i] == log[..i];
        assert VoteJustified(sys, log, i);
      } else {
        assert log'[..i] == log;
      }
    }
  }

  /** Before the event, the signing node remembered everything it had signed. */
  lemma SigningInOrder(g: Global, n: Node, ok: Evidence, s': Replica, x: Signing)
    requires LogRemembered(g) && n.name in g.nodes
    requires SignsByRules(n, ok, g.nodes[n.name], s', x)
    ensures forall i :: 0 <= i < |g.log| && g.log[i].author == x.author ==> InOrder(g.log[i], x)
  {
    hide CertificatesOk, Rule2;
    forall i | 0 <= i < |g.log| && g.log[i].author == x.author ensures InOrder(g.log[i], x) {
      assert Remembered(g.nodes[n.name], g.log[i]);
    }
  }

  lemma RememberedGrows(s: Replica, s': Replica, x: Signing)
    requires Remembered(s, x) && Grows(s, s')
    ensures Remembered(s', x)
  {
  }

  lemma LogRememberedGrows(g: Global, k: Key, s': Replica)
    requires LogRemembered(g) && k in g.nodes && Grows(g.nodes[k], s')
    ensures LogRemembered(Global(g.nodes[k := s'], g.log))
  {
    hide Remembered, Grows;
    forall i | 0 <= i < |g.log| ensures
      g.log[i].author in g.nodes && Remembered(g.nodes[k := s'][g.log[i].author], g.log[i])
    {
      if g.log[i].author == k {
        RememberedGrows(g.nodes[k], s', g.log[i]);
      }
    }
  }

  lemma NodesGrow(sys: System, nodes: map<Key, Replica>, log: seq<Signing>, log': seq<Signing>)
    requires NodesInv(sys, nodes, log) && log <= log'
    ensures NodesInv(sys, nodes, log')
  {
    hide Inv, EvidenceOf;
    EvidenceGrows(sys, log, log');
    forall k | k in nodes ensures Inv(NodeOf(sys, k), EvidenceOf(sys, log'), nodes[k]) {
      InvGrows(NodeOf(sys, k), EvidenceOf(sys, log), EvidenceOf(sys, log'), nodes[k]);
    }
  }

  /** The signatures an event makes are in the log it leaves behind. */
  lemma SignaturesLogged(sys: System, k: Key, log: seq<Signing>, s: Replica, s': Replica)
    requires s.signings <= s'.signings
    requires forall i :: |s.signings| <= i < |s'.signings| ==> s'.signings[i].author == k
    ensures SignaturesCovered(NodeOf(sys, k), EvidenceOf(sys, log + NewSignings(s, s')), s, s')
  {
    var log' := log + NewSignings(s, s');
    forall i | |s.signings| <= i < |s'.signings|
      ensures (k, SignedDigest(s'.signings[i])) in EvidenceOf(sys, log')
    {
      assert log'[|log| + (i - |s.signings|)] == s'.signings[i];
    }
  }

  /** Which signatures an event makes, without any invariant. */
  lemma HandleSigns(n: Node, s: Replica, e: Event)
    ensures s.signings <= Handle(n, s, e).signings
    ensures forall i :: |s.signings| <= i < |Handle(n, s, e).signings| ==> Handle(n, s, e).signings[i].author == n.name
  {
    hide ProcessBlock, HandleTimeout, ValidBlock, ValidTC, ValidVote, AddVote, LeaderElection.Leader;
    match e
    case ProposeMsg(b, _) =>
      ProcessBlockSigns(n, Admit(ProcessCertificates(s, b), b), b);
    case Loopback(b) =>
      ProcessBlockSigns(n, Admit(s, b), b);
    case TimeoutMsg(t) =>
      HandleTimeoutSigns(n, s, t);
    case TimerFired =>
      HandleTimeoutSigns(n, SignTimeout(n, s), NewTimeout(n, s));
    case VoteMsg(_) =>
    case TcMsg(_) =>
  }

  /** Every event, at any honest node, in any state satisfying the invariant. */
  lemma ApplyStep(sys: System, g: Global, k: Key, e: Event)
    requires ValidSystem(sys) && GlobalInv(sys, g) && Enabled(sys, g, k, e)
    ensures var g' := Apply(sys, g, k, e);
            && Step(NodeOf(sys, k), EvidenceOf(sys, g.log), EvidenceOf(sys, g'.log), g.nodes[k], g'.nodes[k])
            && (!e.TcMsg? ==> NewProposalsVotable(g.nodes[k], g'.nodes[k]))
  {
    hide Inv, EvidenceOf, LogInv, LogRemembered, Handle, Step, Deliverable, Weight, TotalStake, NewProposalsVotable,
         SignaturesCovered;
    var n, s := NodeOf(sys, k), g.nodes[k];
    var s' := Handle(n, s, e);
    HandleSigns(n, s, e);
    SignaturesLogged(sys, k, g.log, s, s');
    var log' := g.log + NewSignings(s, s');
    EvidenceGrows(sys, g.log, log');
    assert NodesInv(sys, g.nodes, g.log);
    HandleKeeps(n, EvidenceOf(sys, g.log), EvidenceOf(sys, log'), s, e);
  }

  lemma ApplyKeeps(sys: System, g: Global, k: Key, e: Event)
    requires ValidSystem(sys) && GlobalInv(sys, g) && Enabled(sys, g, k, e)
    ensures GlobalInv(sys, Apply(sys, g, k, e))
  {
    hide Inv, EvidenceOf, Handle, Deliverable, ProposesOnce, ChainEffect, LogInv, LogRemembered, Grows, ValidSystem,
         SignsByRules;
    var n, s, g' := NodeOf(sys, k), g.nodes[k], Apply(sys, g, k, e);
    var s' := g'.nodes[k];
    ApplyStep(sys, g, k, e);
    NodesGrow(sys, g.nodes, g.log, g'.log);
    LogRememberedGrows(g, k, s');
    if s'.signings == s.signings {
      assert g'.log == g.log;
    } else {
      var x :| s'.signings == s.signings + [x] && SignsByRules(n, EvidenceOf(sys, g.log), s, s', x);
      assert NewSignings(s, s') == [x];
      AppendSigning(sys, g, k, s', x);
    }
  }

  lemma AppendSigning(sys: System, g: Global, k: Key, s': Replica, x: Signing)
    requires GlobalInv(sys, g) && k in g.nodes && LogRemembered(Global(g.nodes[k := s'], g.log))
    requires SignsByRules(NodeOf(sys, k), EvidenceOf(sys, g.log), g.nodes[k], s', x)
    ensures LogInv(sys, g.log + [x]) && LogRemembered(Global(g.nodes[k := s'], g.log + [x]))
  {
    hide Inv, EvidenceOf, Rule2, LogInv, AcceptableQC, AcceptableTC, GenuineQC, GenuineTC, InOrder;
    SigningInOrder(g, NodeOf(sys, k), EvidenceOf(sys, g.log), s', x);
    LogSnoc(sys, g.log, x);
  }

  /** The invariant holds in every state of every run. */
  lemma {:induction false} RunInv(sys: System, run: seq<Global>, i: nat)
    requires ValidSystem(sys) && IsRun(sys, run) && i < |run|
    ensures GlobalInv(sys, run[i])
  {
    hide GlobalInv, ValidSystem, Init, Deliverable, Handle;
    if i == 0 {
      InitInv(sys, run[0]);
    } else {
      RunInv(sys, run, i - 1);
      assert Next(sys, run[i - 1], run[i]);
      var k, e :| Enabled(sys, run[i - 1], k, e) && run[i] == Apply(sys, run[i - 1], k, e);
      ApplyKeeps(sys, run[i - 1], k, e);
    }
  }

  lemma SeenIsJustified(sys: System, g: Global)
    requires GlobalInv(sys, g)
    ensures SeenInv(sys, g.log, Seen(g))
  {
    hide EvidenceOf, LogInv, AggregatorInv, StoreInv, ProposalsInv, AcceptableQC, AcceptableTC, GenuineQC, GenuineTC;
    forall b | b in Seen(g) ensures Justified(sys, g.log, b) {
      var k :| k in g.nodes && b in g.nodes[k].written;
      assert Inv(NodeOf(sys, k), EvidenceOf(sys, g.log), g.nodes[k]);
      assert BlockOk(sys.committee, EvidenceOf(sys, g.log), g.nodes[k].round, g.nodes[k].highQC.round, b);
    }
    forall i | 0 <= i < |g.log| && g.log[i].VoteFor? ensures g.log[i].block in Seen(g) {
      assert Remembered(g.nodes[g.log[i].author], g.log[i]);
    }
  }
}
