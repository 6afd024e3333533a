/** One node's consensus state and every handler of consensus/core.go as a function on it. Class
    Core implements these functions in place. Channels are the sequences of what was sent on them. */
module Replicas {
  import opened Committees
  import opened Messages
  import opened Aggregation
  import opened Safety
  import opened Chains
  import opened LeaderElection

  datatype Node = Node(name: Key, committee: Committee)

  /** A request to the node's proposer. */
  datatype Proposal = Proposal(round: nat, qc: QC, tc: Option<TC>)

  /** Whether the node still runs: getAncestors can end the process, and commit can panic or loop
      forever. */
  datatype Health = Running | Fatal | Panicked | Endless

  datatype Replica = Replica(
    round: nat,
    lastVoted: nat,
    lastCommitted: nat,
    highQC: QC,
    store: BlockStore,
    aggregator: Aggregator,
    admitted: set<Block>,      // blocks that passed handleProposal or came from the own proposer
    written: set<Block>,       // blocks ever written to the store
    waiting: set<Block>,       // blocks handed to a waiter for a missing parent or payload
    proposals: seq<Proposal>,  // sent to the proposer
    emitted: seq<Block>,       // sent on the commit channel
    commits: seq<Block>,       // blocks on which commit took effect
    signings: seq<Signing>,    // votes and timeouts signed
    health: Health)

  function Max(a: nat, b: nat): nat { if a > b then a else b }

  // ----- handlers -----

  function AdvanceRound(s: Replica, round: nat): Replica {
    if round < s.round then s
    else s.(round := round + 1, aggregator := Cleanup(s.aggregator, round + 1))
  }

  function UpdateHighQC(s: Replica, qc: QC): Replica {
    if qc.round > s.highQC.round then s.(highQC := qc) else s
  }

  function ProcessQC(s: Replica, qc: QC): Replica {
    UpdateHighQC(AdvanceRound(s, qc.round), qc)
  }

  function GenerateProposal(s: Replica, tc: Option<TC>): Replica {
    s.(proposals := s.proposals + [Proposal(s.round, s.highQC, tc)])
  }

  ghost function ProposeIfLeader(n: Node, s: Replica, tc: Option<TC>): Replica {
    if n.name == Leader(n.committee, s.round) then GenerateProposal(s, tc) else s
  }

  ghost function HandleVote(n: Node, s: Replica, v: Vote): Replica {
    if v.round < s.round || !ValidVote(n.committee, v) then s else
      var (aggregator, out) := AddVote(n.committee, s.aggregator, v);
      var added := s.(aggregator := aggregator);
      if out.Made? then ProposeIfLeader(n, ProcessQC(added, out.certificate), None) else added
  }

  ghost function HandleTimeout(n: Node, s: Replica, t: Timeout): Replica {
    if t.round < s.round || !ValidTimeout(n.committee, t) then s else
      var informed := ProcessQC(s, t.highQC);
      var (aggregator, out) := AddTimeout(n.committee, informed.aggregator, t);
      var added := informed.(aggregator := aggregator);
      if out.Made? then
        ProposeIfLeader(n, AdvanceRound(added, out.certificate.round), Some(out.certificate))
      else added
  }

  ghost function HandleTC(n: Node, s: Replica, tc: TC): Replica {
    if !ValidTC(n.committee, tc) || tc.round < s.round then s
    else ProposeIfLeader(n, AdvanceRound(s, tc.round), Some(tc))
  }

  function SignTimeout(n: Node, s: Replica): Replica {
    s.(lastVoted := Max(s.lastVoted, s.round),
       signings := s.signings + [TimeoutAt(n.name, s.round, s.highQC.round)])
  }

  function NewTimeout(n: Node, s: Replica): Timeout {
    Timeout(s.highQC, s.round, n.name, Sign(n.name, TimeoutDigest(s.round, s.highQC.round)))
  }

  ghost function LocalTimeoutRound(n: Node, s: Replica): Replica {
    HandleTimeout(n, SignTimeout(n, s), NewTimeout(n, s))
  }

  /** make_vote: both safety rules. */
  predicate CanVote(s: Replica, b: Block) {
    b.round > s.lastVoted && Rule2(b)
  }

  function SignVote(n: Node, s: Replica, b: Block): Replica {
    s.(lastVoted := Max(s.lastVoted, b.round), signings := s.signings + [VoteFor(n.name, b)])
  }

  function NewVote(n: Node, b: Block): Vote {
    Vote(DigestOf(b), b.round, n.name, Sign(n.name, VoteDigest(DigestOf(b), b.round)))
  }

  ghost function VoteIfSafe(n: Node, s: Replica, b: Block): Replica {
    if !CanVote(s, b) then s
    else if n.name == Leader(n.committee, s.round + 1) then HandleVote(n, SignVote(n, s, b), NewVote(n, b))
    else SignVote(n, s, b)
  }

  ghost function Commit(s: Replica, b: Block): Replica {
    if s.lastCommitted >= b.round then s else
      match CommitWalk(s.store, s.lastCommitted, b)
      case None => s.(health := if Panics(s.store, s.lastCommitted, b) then Panicked else Endless)
      case Some(walk) =>
        s.(lastCommitted := b.round, emitted := s.emitted + Emission(walk), commits := s.commits + [b])
  }

  /** Storing a block both of whose ancestors are known, and committing the head of its 2-chain. */
  ghost function StoreAndCommit(s: Replica, b: Block, b1: Block, b0: Block): Replica {
    var stored := s.(store := s.store[DigestOf(b) := b], written := s.written + {b});
    if b0.round + 1 == b1.round then Commit(stored, b0) else stored
  }

  ghost function ProcessBlock(n: Node, s: Replica, b: Block): Replica {
    match Parent(s.store, b)
    case None => s.(waiting := s.waiting + {b})
    case Some(b1) =>
      match Parent(s.store, b1)
      case None => s.(health := Fatal)
      case Some(b0) =>
        var committed := StoreAndCommit(s, b, b1, b0);
        if !committed.health.Running? then committed else VoteIfSafe(n, committed, b)
  }

  function Admit(s: Replica, b: Block): Replica {
    s.(admitted := s.admitted + {b})
  }

  function ProcessCertificates(s: Replica, b: Block): Replica {
    var informed := ProcessQC(s, b.qc);
    if b.tc.Some? then AdvanceRound(informed, b.tc.value.round) else informed
  }

  ghost function HandleProposal(n: Node, s: Replica, b: Block, payloadReady: bool): Replica {
    if b.author != Leader(n.committee, b.round) || !ValidBlock(n.committee, b) then s else
      var informed := Admit(ProcessCertificates(s, b), b);
      if payloadReady then ProcessBlock(n, informed, b)
      else informed.(waiting := informed.waiting + {b})
  }

  const INITIAL: Replica :=
    Replica(1, 0, 0, GENESIS_QC, map[], NEW_AGGREGATOR, {}, {}, {}, [], [], [], [], Running)

  /** Start of the run loop. */
  ghost function Start(n: Node): Replica {
    ProposeIfLeader(n, INITIAL, None)
  }

  datatype Event =
    | ProposeMsg(block: Block, payloadReady: bool)
    | VoteMsg(vote: Vote)
    | TimeoutMsg(timeout: Timeout)
    | TcMsg(tc: TC)
    | Loopback(block: Block)
    | TimerFired

  ghost function Handle(n: Node, s: Replica, e: Event): Replica {
    match e
    case ProposeMsg(b, ready) => HandleProposal(n, s, b, ready)
    case VoteMsg(v) => HandleVote(n, s, v)
    case TimeoutMsg(t) => HandleTimeout(n, s, t)
    case TcMsg(tc) => HandleTC(n, s, tc)
    case Loopback(b) => ProcessBlock(n, Admit(s, b), b)
    case TimerFired => LocalTimeoutRound(n, s)
  }

  // ----- what every handler keeps -----

  ghost predicate CertificatesOk(c: Committee, ok: Evidence, qc: QC, tc: Option<TC>) {
    && AcceptableQC(c, qc) && GenuineQC(ok, qc)
    && AcceptableTC(c, tc) && (tc.Some? ==> GenuineTC(ok, tc.value))
  }

  /** Certificates the node has already acted on. */
  predicate Absorbed(round: nat, high: nat, qc: QC, tc: Option<TC>) {
    qc.round <= high && (tc.Some? ==> tc.value.round < round)
  }

  ghost predicate BlockOk(c: Committee, ok: Evidence, round: nat, high: nat, b: Block) {
    CertificatesOk(c, ok, b.qc, b.tc) && Absorbed(round, high, b.qc, b.tc)
  }

  ghost predicate BlocksInv(c: Committee, ok: Evidence, round: nat, high: nat, admitted: set<Block>,
                            waiting: set<Block>) {
    waiting <= admitted && (forall b :: b in admitted ==> BlockOk(c, ok, round, high, b))
  }

  /** Keys are digests, and every stored block's parent is genesis or stored. */
  ghost predicate StoreInv(store: BlockStore, written: set<Block>) {
    forall d :: d in store ==>
      DigestOf(store[d]) == d && store[d] in written && Parent(store, store[d]).Some?
  }

  ghost predicate ProposalOk(c: Committee, ok: Evidence, round: nat, high: nat, p: Proposal) {
    CertificatesOk(c, ok, p.qc, p.tc) && Absorbed(p.round, high, p.qc, p.tc) && p.qc.round < p.round <= round
  }

  ghost predicate ProposalsInv(c: Committee, ok: Evidence, round: nat, high: nat, ps: seq<Proposal>) {
    && (forall i :: 0 <= i < |ps| ==> ProposalOk(c, ok, round, high, ps[i]))
    && (forall i, j :: 0 <= i < j < |ps| ==> ps[i].round < ps[j].round)
  }

  /** The replica ladder with everything it rests on. */
  ghost predicate Inv(n: Node, ok: Evidence, s: Replica) {
    && s.highQC.round < s.round && s.lastVoted <= s.round
    && CertificatesOk(n.committee, ok, s.highQC, None)
    && AggregatorInv(n.committee, ok, s.aggregator, s.round, s.highQC.round)
    && BlocksInv(n.committee, ok, s.round, s.highQC.round, s.admitted, s.waiting)
    && StoreInv(s.store, s.written) && s.written <= s.admitted
    && ProposalsInv(n.committee, ok, s.round, s.highQC.round, s.proposals)
  }

  /** Nothing a node has done is ever undone. */
  ghost predicate Grows(s: Replica, s': Replica) {
    && s.round <= s'.round && s.lastVoted <= s'.lastVoted
    && s.lastCommitted <= s'.lastCommitted && s.highQC.round <= s'.highQC.round
    && s.admitted <= s'.admitted && s.written <= s'.written && s.store.Keys <= s'.store.Keys
    && s.proposals <= s'.proposals && s.emitted <= s'.emitted && s.commits <= s'.commits
    && s.signings <= s'.signings
  }

  // ----- monotonicity -----

  lemma CertificatesGrow(c: Committee, ok: Evidence, ok': Evidence, qc: QC, tc: Option<TC>)
    requires CertificatesOk(c, ok, qc, tc) && ok <= ok'
    ensures CertificatesOk(c, ok', qc, tc)
  {
    hide AcceptableQC, AcceptableTC;
  }

  lemma BlocksGrow(c: Committee, ok: Evidence, ok': Evidence, round: nat, round': nat, high: nat, high': nat,
                   admitted: set<Block>, waiting: set<Block>)
    requires BlocksInv(c, ok, round, high, admitted, waiting)
    requires ok <= ok' && round <= round' && high <= high'
    ensures BlocksInv(c, ok', round', high', admitted, waiting)
  {
    hide CertificatesOk;
    forall b | b in admitted ensures BlockOk(c, ok', round', high', b) {
      assert BlockOk(c, ok, round, high, b);
      CertificatesGrow(c, ok, ok', b.qc, b.tc);
    }
  }

  lemma ProposalsGrow(c: Committee, ok: Evidence, ok': Evidence, round: nat, round': nat, high: nat, high': nat,
                      ps: seq<Proposal>)
    requires ProposalsInv(c, ok, round, high, ps)
    requires ok <= ok' && round <= round' && high <= high'
    ensures ProposalsInv(c, ok', round', high', ps)
  {
    hide CertificatesOk;
    forall i | 0 <= i < |ps| ensures ProposalOk(c, ok', round', high', ps[i]) {
      assert ProposalOk(c, ok, round, high, ps[i]);
      CertificatesGrow(c, ok, ok', ps[i].qc, ps[i].tc);
    }
  }

  lemma InvGrows(n: Node, ok: Evidence, ok': Evidence, s: Replica)
    requires Inv(n, ok, s) && ok <= ok'
    ensures Inv(n, ok', s)
  {
    hide CertificatesOk, AggregatorInv, BlocksInv, StoreInv, ProposalsInv;
    var c, round, high := n.committee, s.round, s.highQC.round;
    CertificatesGrow(c, ok, ok', s.highQC, None);
    AggregatorGrows(c, ok, ok', s.aggregator, round, high, high);
    BlocksGrow(c, ok, ok', round, round, high, high, s.admitted, s.waiting);
    ProposalsGrow(c, ok, ok', round, round, high, high, s.proposals);
  }

  // ----- the building blocks -----

  lemma AdvanceRoundKeeps(n: Node, ok: Evidence, s: Replica, round: nat)
    requires Inv(n, ok, s)
    ensures var s' := AdvanceRound(s, round);
            && Inv(n, ok, s') && Grows(s, s') && s'.round > round
            && s' == s.(round := s'.round, aggregator := s'.aggregator)
            && (round >= s.round ==> s'.round == round + 1) && (round < s.round ==> s' == s)
  {
    hide CertificatesOk, AggregatorInv, BlocksInv, StoreInv, ProposalsInv;
    if round >= s.round {
      var c, high := n.committee, s.highQC.round;
      CleanupKeeps(c, ok, s.aggregator, s.round, high, round + 1);
      BlocksGrow(c, ok, ok, s.round, round + 1, high, high, s.admitted, s.waiting);
      ProposalsGrow(c, ok, ok, s.round, round + 1, high, high, s.proposals);
    }
  }

  lemma UpdateHighQCKeeps(n: Node, ok: Evidence, s: Replica, qc: QC)
    requires Inv(n, ok, s) && CertificatesOk(n.committee, ok, qc, None) && qc.round < s.round
    ensures var s' := UpdateHighQC(s, qc);
            && Inv(n, ok, s') && Grows(s, s') && s'.highQC.round == Max(s.highQC.round, qc.round)
  {
    hide CertificatesOk, AggregatorInv, BlocksInv, StoreInv, ProposalsInv;
    if qc.round > s.highQC.round {
      var c, round, high := n.committee, s.round, s.highQC.round;
      AggregatorGrows(c, ok, ok, s.aggregator, round, high, qc.round);
      BlocksGrow(c, ok, ok, round, round, high, qc.round, s.admitted, s.waiting);
      ProposalsGrow(c, ok, ok, round, round, high, qc.round, s.proposals);
    }
  }

  lemma ProcessQCKeeps(n: Node, ok: Evidence, s: Replica, qc: QC)
    requires Inv(n, ok, s) && CertificatesOk(n.committee, ok, qc, None)
    ensures var s' := ProcessQC(s, qc);
            && Inv(n, ok, s') && Grows(s, s')
            && s'.round == Max(s.round, qc.round + 1)
            && s'.highQC == (if qc.round > s.highQC.round then qc else s.highQC)
            && s' == s.(round := s'.round, aggregator := s'.aggregator, highQC := s'.highQC)
            && (qc.round >= s.round ==> s'.round == qc.round + 1 && s'.highQC == qc)
            && (qc.round < s.round ==> s'.round == s.round)
  {
    hide CertificatesOk, AggregatorInv, BlocksInv, StoreInv, ProposalsInv;
    AdvanceRoundKeeps(n, ok, s, qc.round);
    UpdateHighQCKeeps(n, ok, AdvanceRound(s, qc.round), qc);
  }

  /** All earlier requests were for lower rounds. */
  predicate FreshRound(ps: seq<Proposal>, round: nat) {
    forall i :: 0 <= i < |ps| ==> ps[i].round < round
  }

  lemma ProposeKeeps(n: Node, ok: Evidence, s: Replica, tc: Option<TC>)
    requires Inv(n, ok, s) && FreshRound(s.proposals, s.round)
    requires AcceptableTC(n.committee, tc)
    requires tc.Some? ==> GenuineTC(ok, tc.value) && tc.value.round < s.round
    ensures Inv(n, ok, ProposeIfLeader(n, s, tc)) && Grows(s, ProposeIfLeader(n, s, tc))
    ensures ProposeIfLeader(n, s, tc).proposals == s.proposals
            || ProposeIfLeader(n, s, tc).proposals == s.proposals + [Proposal(s.round, s.highQC, tc)]
  {
    hide AggregatorInv, BlocksInv, StoreInv, AcceptableQC, GenuineQC, AcceptableTC, GenuineTC, Leader;
    var p := Proposal(s.round, s.highQC, tc);
    assert ProposalOk(n.committee, ok, s.round, s.highQC.round, p);
    NewProposalKeeps(n.committee, ok, s.round, s.highQC.round, s.proposals, p);
  }

  lemma NewProposalKeeps(c: Committee, ok: Evidence, round: nat, high: nat, ps: seq<Proposal>, p: Proposal)
    requires ProposalsInv(c, ok, round, high, ps) && ProposalOk(c, ok, round, high, p) && FreshRound(ps, p.round)
    ensures ProposalsInv(c, ok, round, high, ps + [p])
  {
    hide ProposalOk;
  }

  lemma ProposalsBelow(c: Committee, ok: Evidence, round: nat, high: nat, ps: seq<Proposal>, round': nat)
    requires ProposalsInv(c, ok, round, high, ps) && round < round'
    ensures FreshRound(ps, round')
  {
    forall i | 0 <= i < |ps| ensures ps[i].round < round' {
      assert ProposalOk(c, ok, round, high, ps[i]);
    }
  }

  // ----- votes, timeouts and timeout certificates -----

  /** A proposal the node's peers may vote for under safety rule 2. */
  predicate Votable(p: Proposal) {
    || p.qc.round + 1 == p.round
    || (p.tc.Some? && p.tc.value.round + 1 == p.round
        && forall i :: 0 <= i < |p.tc.value.votes| ==> p.tc.value.votes[i].round <= p.qc.round)
  }

  /** At most one request, at the node's new round, which lies above where the handler started. */
  ghost predicate ProposesOnce(s: Replica, s': Replica) {
    || s'.proposals == s.proposals
    || (s.round < s'.round && s'.proposals == s.proposals + [Proposal(s'.round, s'.highQC, NewTC(s'))])
  }

  function NewTC(s: Replica): Option<TC> {
    if s.proposals == [] then None else s.proposals[|s.proposals| - 1].tc
  }

  ghost predicate NewProposalsVotable(s: Replica, s': Replica) {
    forall i :: |s.proposals| <= i < |s'.proposals| ==> Votable(s'.proposals[i])
  }

  lemma HandleVoteKeeps(n: Node, ok: Evidence, s: Replica, v: Vote)
    requires Sound(n.committee) && Inv(n, ok, s)
    requires ValidVote(n.committee, v) ==> (v.author, VoteDigestOf(v)) in ok
    ensures var s' := HandleVote(n, s, v);
            && Inv(n, ok, s') && Grows(s, s') && ProposesOnce(s, s') && NewProposalsVotable(s, s')
            && s' == s.(round := s'.round, aggregator := s'.aggregator, highQC := s'.highQC, proposals := s'.proposals)
  {
    hide Sound, CertificatesOk, AggregatorInv, BlocksInv, StoreInv, ProposalsInv, ValidVote, Leader, AddVote, ProcessQC;
    if v.round >= s.round && ValidVote(n.committee, v) {
      var (aggregator, out) := AddVote(n.committee, s.aggregator, v);
      AddVoteCorrect(n.committee, ok, s.aggregator, v, s.round, s.highQC.round);
      var added := s.(aggregator := aggregator);
      if out.Made? {
        QCCertificateOk(n.committee, ok, out.certificate);
        ProcessQCKeeps(n, ok, added, out.certificate);
        var informed := ProcessQC(added, out.certificate);
        ProposalsBelow(n.committee, ok, s.round, s.highQC.round, s.proposals, informed.round);
        NoTC(n.committee);
        ProposeKeeps(n, ok, informed, None);
      }
    }
  }

  /** A verified vote of the current or a later round that first completes a quorum takes the node to
      the next round with exactly that certificate, and makes it propose if it leads; another such
      vote changes no round; all other votes change nothing at all. */
  lemma VoteQuorumAdvances(n: Node, ok: Evidence, s: Replica, v: Vote)
    requires Sound(n.committee) && Inv(n, ok, s)
    ensures var used := VoteMaker(s.aggregator, v.round, VoteDigestOf(v)).used;
            var s' := HandleVote(n, s, v);
            if v.round < s.round || !ValidVote(n.committee, v) then s' == s
            else if !IsQuorum(n.committee, used) && IsQuorum(n.committee, used + {v.author}) then
              && s'.round == v.round + 1
              && s'.highQC.hash == v.hash && s'.highQC.round == v.round && Names(s'.highQC.voters) == used + {v.author}
              && s'.proposals == s.proposals
                 + (if Leader(n.committee, v.round + 1) == n.name then [Proposal(v.round + 1, s'.highQC, None)] else [])
            else
              s'.round == s.round && s'.highQC == s.highQC && s'.proposals == s.proposals
  {
    hide Sound, IsQuorum, BlocksInv, StoreInv, ProposalsInv, CertificatesOk, TimeoutsInv, Leader, ValidVote,
         AppendVote, QcMakerInv;
    if v.round >= s.round && ValidVote(n.committee, v) {
      var d := VoteDigestOf(v);
      NewEntriesOk(n.committee, ok, v.hash, v.round, 0);
      assert VoteEntryOk(n.committee, ok, v.round, d, VoteMaker(s.aggregator, v.round, d));
      AppendVoteCorrect(n.committee, VoteMaker(s.aggregator, v.round, d), v);
    }
  }

  /** A verified timeout of the current or a later round, whatever certificate it carries: first
      the node takes over the certificate, and then it moves past the timed-out round exactly when
      the quorum of timeouts is first complete, proposing with the TC of exactly these timeouts if
      it leads where that takes it. A certificate that overtakes the timeout can have moved the node
      further already. All other timeouts change nothing. */
  lemma TimeoutQuorumAdvances(n: Node, ok: Evidence, s: Replica, t: Timeout)
    requires Sound(n.committee) && Inv(n, ok, s)
    requires ValidTimeout(n.committee, t) ==> CertificatesOk(n.committee, ok, t.highQC, None)
    ensures var informed := ProcessQC(s, t.highQC);
            var used := TimeoutMaker(informed.aggregator, t.round).used;
            var s' := HandleTimeout(n, s, t);
            if t.round < s.round || !ValidTimeout(n.committee, t) then s' == s
            else
              && s'.highQC == (if t.highQC.round > s.highQC.round then t.highQC else s.highQC)
              && informed.round == Max(s.round, t.highQC.round + 1)
              && if !IsQuorum(n.committee, used) && IsQuorum(n.committee, used + {t.author}) then
                   && s'.round == Max(informed.round, t.round + 1)
                   && (Leader(n.committee, s'.round) != n.name ==> s'.proposals == s.proposals)
                   && (Leader(n.committee, s'.round) == n.name ==>
                         && |s'.proposals| == |s.proposals| + 1 && s.proposals <= s'.proposals
                         && TimeoutProposal(s', s'.proposals[|s.proposals|], t.round, used + {t.author}))
                 else
                   s'.round == informed.round && s'.proposals == s.proposals
  {
    hide Sound, IsQuorum, BlocksInv, StoreInv, ProposalsInv, CertificatesOk, VotesInv, Leader, ValidTimeout,
         AppendTimeout,
         TcMakerInv, ProcessQC;
    if t.round >= s.round && ValidTimeout(n.committee, t) {
      ProcessQCKeeps(n, ok, s, t.highQC);
      var informed := ProcessQC(s, t.highQC);
      NewEntriesOk(n.committee, ok, Zero, t.round, informed.highQC.round);
      var maker := TimeoutMaker(informed.aggregator, t.round);
      assert TimeoutEntryOk(n.committee, ok, t.round, maker, informed.highQC.round);
      AppendTimeoutCorrect(n.committee, maker, t);
    }
  }

  /** A request at the node's round, on its highest certificate, with a TC of these signers. */
  ghost predicate TimeoutProposal(s: Replica, p: Proposal, round: nat, signers: set<Key>) {
    && p.round == s.round && p.qc == s.highQC
    && p.tc.Some? && p.tc.value.round == round && Names(TimeoutNames(p.tc.value.votes)) == signers
  }

  lemma NoTC(c: Committee)
    ensures AcceptableTC(c, None)
  {
  }

  lemma QCCertificateOk(c: Committee, ok: Evidence, qc: QC)
    requires ValidQC(c, qc) && GenuineQC(ok, qc)
    ensures CertificatesOk(c, ok, qc, None)
  {
  }

  lemma HandleTimeoutKeeps(n: Node, ok: Evidence, s: Replica, t: Timeout)
    requires Sound(n.committee) && Inv(n, ok, s)
    requires ValidTimeout(n.committee, t) ==> (t.author, TimeoutDigestOf(t)) in ok && GenuineQC(ok, t.highQC)
    ensures var s' := HandleTimeout(n, s, t);
            && Inv(n, ok, s') && Grows(s, s') && ProposesOnce(s, s') && NewProposalsVotable(s, s')
            && s' == s.(round := s'.round, aggregator := s'.aggregator, highQC := s'.highQC, proposals := s'.proposals)
  {
    hide Sound, CertificatesOk, AggregatorInv, BlocksInv, StoreInv, ProposalsInv, ValidTimeout, Leader, AddTimeout,
         ProcessQC, AdvanceRound;
    if t.round >= s.round && ValidTimeout(n.committee, t) {
      TimeoutCertificateOk(n.committee, ok, t);
      ProcessQCKeeps(n, ok, s, t.highQC);
      var informed := ProcessQC(s, t.highQC);
      var (aggregator, out) := AddTimeout(n.committee, informed.aggregator, t);
      AddTimeoutCorrect(n.committee, ok, informed.aggregator, t, informed.round, informed.highQC.round);
      var added := informed.(aggregator := aggregator);
      if out.Made? {
        AdvanceRoundKeeps(n, ok, added, out.certificate.round);
        var advanced := AdvanceRound(added, out.certificate.round);
        ProposalsBelow(n.committee, ok, s.round, s.highQC.round, s.proposals, advanced.round);
        SomeTC(n.committee, out.certificate);
        ProposeKeeps(n, ok, advanced, Some(out.certificate));
        assert Votable(Proposal(advanced.round, advanced.highQC, Some(out.certificate)));
      }
    }
  }

  lemma SomeTC(c: Committee, tc: TC)
    requires ValidTC(c, tc)
    ensures AcceptableTC(c, Some(tc))
  {
  }

  lemma TimeoutCertificateOk(c: Committee, ok: Evidence, t: Timeout)
    requires ValidTimeout(c, t) && GenuineQC(ok, t.highQC)
    ensures CertificatesOk(c, ok, t.highQC, None)
  {
  }

  lemma HandleTCKeeps(n: Node, ok: Evidence, s: Replica, tc: TC)
    requires Inv(n, ok, s) && (ValidTC(n.committee, tc) ==> GenuineTC(ok, tc))
    ensures var s' := HandleTC(n, s, tc);
            && Inv(n, ok, s') && Grows(s, s') && ProposesOnce(s, s')
            && s' == s.(round := s'.round, aggregator := s'.aggregator, proposals := s'.proposals)
  {
    hide CertificatesOk, AggregatorInv, BlocksInv, StoreInv, ProposalsInv, ValidTC, Leader, AdvanceRound;
    if tc.round >= s.round && ValidTC(n.committee, tc) {
      AdvanceRoundKeeps(n, ok, s, tc.round);
      var advanced := AdvanceRound(s, tc.round);
      ProposalsBelow(n.committee, ok, s.round, s.highQC.round, s.proposals, advanced.round);
      SomeTC(n.committee, tc);
      ProposeKeeps(n, ok, advanced, Some(tc));
    }
  }

  /** A verified TC of the current or a later round takes the node past it, and makes it propose with
      this TC if it leads there; any other TC changes nothing. */
  lemma TCAdvances(n: Node, s: Replica, tc: TC)
    ensures var s' := HandleTC(n, s, tc);
            if tc.round < s.round || !ValidTC(n.committee, tc) then s' == s
            else
              && s'.round == tc.round + 1 && s'.highQC == s.highQC && s'.signings == s.signings && SameChain(s, s')
              && s'.proposals == s.proposals
                 + (if Leader(n.committee, tc.round + 1) != n.name then []
                    else [Proposal(tc.round + 1, s.highQC, Some(tc))])
  {
    hide ValidTC, Leader;
  }

  /** A proposal made for a received TC need not be votable. It is exactly when the node's own
      highest certificate reaches every round the TC lists. */
  lemma RelayedProposalVotable(n: Node, ok: Evidence, s: Replica, tc: TC)
    requires Inv(n, ok, s)
    requires HandleTC(n, s, tc).proposals != s.proposals
    ensures NewProposalsVotable(s, HandleTC(n, s, tc)) <==>
            forall i :: 0 <= i < |tc.votes| ==> tc.votes[i].round <= s.highQC.round
  {
    hide CertificatesOk, AggregatorInv, BlocksInv, StoreInv, ProposalsInv, ValidTC, Leader;
    AdvanceRoundKeeps(n, ok, s, tc.round);
    var advanced := AdvanceRound(s, tc.round);
    var p := Proposal(advanced.round, advanced.highQC, Some(tc));
    assert HandleTC(n, s, tc).proposals == s.proposals + [p];
    assert NewProposalsVotable(s, HandleTC(n, s, tc)) <==> Votable(p) by {
      assert (s.proposals + [p])[|s.proposals|] == p;
    }
  }

  // ----- timers -----

  lemma SignTimeoutKeeps(n: Node, ok: Evidence, s: Replica)
    requires Inv(n, ok, s)
    ensures Inv(n, ok, SignTimeout(n, s)) && Grows(s, SignTimeout(n, s))
  {
    hide CertificatesOk, AggregatorInv, BlocksInv, StoreInv, ProposalsInv;
  }

  lemma LocalTimeoutKeeps(n: Node, ok: Evidence, s: Replica)
    requires Sound(n.committee) && Inv(n, ok, s)
    requires (n.name, TimeoutDigest(s.round, s.highQC.round)) in ok
    ensures var s' := LocalTimeoutRound(n, s);
            && Inv(n, ok, s') && Grows(s, s') && ProposesOnce(s, s') && NewProposalsVotable(s, s')
            && s'.signings == s.signings + [TimeoutAt(n.name, s.round, s.highQC.round)]
            && s'.lastVoted == Max(s.lastVoted, s.round) && s'.admitted == s.admitted && SameChain(s, s')
  {
    hide Sound, AggregatorInv, BlocksInv, StoreInv, ProposalsInv, HandleTimeout, Votable, AcceptableQC;
    SignTimeoutKeeps(n, ok, s);
    HandleTimeoutKeeps(n, ok, SignTimeout(n, s), NewTimeout(n, s));
  }

  // ----- blocks -----

  /** The part of the state that only storing and committing touch. */
  predicate SameChain(s: Replica, s': Replica) {
    && s'.store == s.store && s'.lastCommitted == s.lastCommitted && s'.emitted == s.emitted
    && s'.commits == s.commits && s'.health == s.health && s'.written == s.written
  }

  predicate SameLadder(s: Replica, s': Replica) {
    && s'.round == s.round && s'.lastVoted == s.lastVoted && s'.highQC == s.highQC
    && s'.aggregator == s.aggregator && s'.proposals == s.proposals && s'.signings == s.signings
    && s'.admitted == s.admitted && s'.waiting == s.waiting
  }

  lemma StoreKeeps(store: BlockStore, written: set<Block>, b: Block)
    requires StoreInv(store, written) && Parent(store, b).Some?
    ensures StoreInv(store[DigestOf(b) := b], written + {b})
  {
  }

  lemma StoreAndCommitKeeps(n: Node, ok: Evidence, s: Replica, b: Block, b1: Block, b0: Block)
    requires Inv(n, ok, s) && b in s.admitted && Parent(s.store, b) == Some(b1)
    ensures var s' := StoreAndCommit(s, b, b1, b0);
            && Inv(n, ok, s') && Grows(s, s') && SameLadder(s, s')
            && s'.store == s.store[DigestOf(b) := b] && s'.written == s.written + {b}
  {
    hide CertificatesOk, AggregatorInv, BlocksInv, StoreInv, ProposalsInv, CommitWalk, IsWalk;
    StoreKeeps(s.store, s.written, b);
  }

  /** A block the rules allow a vote for is of a round the node has already reached. */
  lemma VotableIsReached(round: nat, high: nat, b: Block)
    requires high < round && Absorbed(round, high, b.qc, b.tc) && Rule2(b)
    ensures b.round <= round
  {
  }

  lemma SignVoteKeeps(n: Node, ok: Evidence, s: Replica, b: Block)
    requires Inv(n, ok, s) && b in s.admitted && CanVote(s, b)
    ensures Inv(n, ok, SignVote(n, s, b)) && Grows(s, SignVote(n, s, b))
    ensures b.round <= s.round && b.qc.round <= s.highQC.round
  {
    hide CertificatesOk, AggregatorInv, StoreInv, ProposalsInv, Rule2;
    assert BlockOk(n.committee, ok, s.round, s.highQC.round, b);
    VotableIsReached(s.round, s.highQC.round, b);
  }

  lemma VoteIfSafeKeeps(n: Node, ok: Evidence, s: Replica, b: Block)
    requires Sound(n.committee) && Inv(n, ok, s) && b in s.admitted
    requires CanVote(s, b) ==> (n.name, VoteDigest(DigestOf(b), b.round)) in ok
    ensures var s' := VoteIfSafe(n, s, b);
            && Inv(n, ok, s') && Grows(s, s') && ProposesOnce(s, s') && NewProposalsVotable(s, s')
            && SameChain(s, s') && s'.admitted == s.admitted
            && s'.signings == (if CanVote(s, b) then s.signings + [VoteFor(n.name, b)] else s.signings)
            && (CanVote(s, b) ==> b.round <= s'.lastVoted && b.qc.round <= s'.highQC.round)
  {
    hide Sound, CertificatesOk, AggregatorInv, BlocksInv, StoreInv, ProposalsInv, HandleVote, Leader, Votable, Rule2;
    if CanVote(s, b) {
      SignVoteKeeps(n, ok, s, b);
      if n.name == Leader(n.committee, s.round + 1) {
        HandleVoteKeeps(n, ok, SignVote(n, s, b), NewVote(n, b));
      }
    }
  }

  /** What one delivery of a block does to the chain part of the state, if it gets past the
      ancestor check. */
  ghost predicate ChainStep(s: Replica, s': Replica, b: Block) {
    exists b1, b0 ::
      Parent(s.store, b) == Some(b1) && Parent(s.store, b1) == Some(b0) && SameChain(StoreAndCommit(s, b, b1, b0), s')
  }

  /** Parents of stored blocks are found, so the fatal branch of getAncestors is dead. */
  lemma AncestorsFound(store: BlockStore, written: set<Block>, b: Block)
    requires StoreInv(store, written) && Parent(store, b).Some?
    ensures Parent(store, Parent(store, b).value).Some?
  {
  }

  /** Which signatures a handler makes does not depend on any invariant. */
  lemma HandleTimeoutSigns(n: Node, s: Replica, t: Timeout)
    ensures HandleTimeout(n, s, t).signings == s.signings
  {
    hide ValidTimeout, AddTimeout, Leader;
  }

  lemma VoteIfSafeSigns(n: Node, s: Replica, b: Block)
    ensures VoteIfSafe(n, s, b).signings
            == if CanVote(s, b) then s.signings + [VoteFor(n.name, b)] else s.signings
  {
    hide ValidVote, AddVote, Leader, Rule2;
  }

  lemma ProcessBlockKeeps(n: Node, ok: Evidence, s: Replica, b: Block)
    requires Sound(n.committee) && Inv(n, ok, s) && b in s.admitted
    requires ProcessBlock(n, s, b).signings != s.signings ==> (n.name, VoteDigest(DigestOf(b), b.round)) in ok
    ensures var s' := ProcessBlock(n, s, b);
            && Inv(n, ok, s') && Grows(s, s') && ProposesOnce(s, s') && NewProposalsVotable(s, s')
            && (SameChain(s, s') || (ChainStep(s, s', b) && b in s'.written)) && s'.admitted == s.admitted
            && (s'.signings == s.signings
                || (CanVote(s, b) && s'.signings == s.signings + [VoteFor(n.name, b)]
                    && b in s'.written && b.round <= s'.lastVoted && b.qc.round <= s'.highQC.round))
  {
    hide Sound, AggregatorInv, CertificatesOk, StoreInv, ProposalsInv, VoteIfSafe, Votable, Rule2, StoreAndCommit,
         BlocksInv;
    var parent := Parent(s.store, b);
    if parent.Some? {
      AncestorsFound(s.store, s.written, b);
      var b1 := parent.value;
      var b0 := Parent(s.store, b1).value;
      var committed := StoreAndCommit(s, b, b1, b0);
      StoreAndCommitKeeps(n, ok, s, b, b1, b0);
      if committed.health.Running? {
        VoteIfSafeSigns(n, committed, b);
        VoteIfSafeKeeps(n, ok, committed, b);
        assert SameChain(StoreAndCommit(s, b, b1, b0), ProcessBlock(n, s, b));
      }
    } else {
      WaitingKeeps(n, ok, s, b);
    }
  }

  /** Voting touches no part of the chain, whatever the state. */
  lemma VoteIfSafeFrame(n: Node, s: Replica, b: Block)
    ensures SameChain(s, VoteIfSafe(n, s, b))
  {
    hide ValidVote, AddVote, Leader, CanVote;
  }

  /** Handling the block makes the node commit one from which parents lead into a cycle. */
  ghost predicate CommitHangs(s: Replica, b: Block) {
    var b1 := Parent(s.store, b);
    var b0 := if b1.Some? then Parent(s.store, b1.value) else None;
    && b0.Some? && b0.value.round + 1 == b1.value.round && b0.value.round > s.lastCommitted
    && LeadsIntoCycle(s.store[DigestOf(b) := b], s.lastCommitted, b0.value)
  }

  /** A commit on a well-kept store never panics, and fails to end exactly on a cycle. */
  lemma CommitHealth(s: Replica, b0: Block)
    requires StoreInv(s.store, s.written) && Parent(s.store, b0).Some? && s.health.Running?
    ensures Commit(s, b0).health
            == if b0.round > s.lastCommitted && LeadsIntoCycle(s.store, s.lastCommitted, b0) then Endless else Running
  {
    hide LeadsIntoCycle, Panics, IsWalk;
    ClosedNeverPanics(s.store, s.lastCommitted, b0);
  }

  /** Handling a block never meets the fatal branch or the panic. It stops the node exactly if it
      makes it follow a cycle. */
  lemma ProcessBlockHealth(n: Node, s: Replica, b: Block)
    requires StoreInv(s.store, s.written) && s.health.Running?
    ensures var s' := ProcessBlock(n, s, b);
            && s'.health == (if CommitHangs(s, b) then Endless else Running)
            && (CommitHangs(s, b) ==> s'.store == s.store[DigestOf(b) := b] && s'.lastCommitted == s.lastCommitted)
  {
    hide StoreInv, LeadsIntoCycle, Panics, IsWalk, VoteIfSafe;
    if Parent(s.store, b).Some? {
      AncestorsFound(s.store, s.written, b);
      var b1 := Parent(s.store, b).value;
      var b0 := Parent(s.store, b1).value;
      AncestorsFound(s.store, s.written, b1);
      StoreKeeps(s.store, s.written, b);
      CommitHealth(s.(store := s.store[DigestOf(b) := b], written := s.written + {b}), b0);
      VoteIfSafeFrame(n, StoreAndCommit(s, b, b1, b0), b);
    }
  }

  /** The event carries a block that goes through processBlock at once. */
  ghost predicate ReachesProcessBlock(n: Node, e: Event) {
    || e.Loopback?
    || (e.ProposeMsg? && e.payloadReady && e.block.author == Leader(n.committee, e.block.round)
        && ValidBlock(n.committee, e.block))
  }

  lemma RoundFrame(s: Replica, round: nat, qc: QC)
    ensures SameChain(s, AdvanceRound(s, round)) && SameChain(s, ProcessQC(s, qc))
  {
  }

  lemma ProposeFrame(n: Node, s: Replica, tc: Option<TC>)
    ensures SameChain(s, ProposeIfLeader(n, s, tc))
  {
    hide Leader;
  }

  lemma TimeoutFrame(n: Node, s: Replica, t: Timeout)
    ensures SameChain(s, HandleTimeout(n, s, t))
  {
    hide ValidTimeout, AddTimeout, ProcessQC, AdvanceRound, ProposeIfLeader;
    var informed := ProcessQC(s, t.highQC);
    RoundFrame(s, 0, t.highQC);
    var (aggregator, out) := AddTimeout(n.committee, informed.aggregator, t);
    if out.Made? {
      var added := informed.(aggregator := aggregator);
      RoundFrame(added, out.certificate.round, GENESIS_QC);
      ProposeFrame(n, AdvanceRound(added, out.certificate.round), Some(out.certificate));
    }
  }

  lemma MessageFrame(n: Node, s: Replica, e: Event)
    requires !e.ProposeMsg? && !e.Loopback?
    ensures SameChain(s, Handle(n, s, e))
  {
    hide HandleTimeout, ValidVote, ValidTC, AddVote, Leader;
    match e
    case VoteMsg(_) =>
    case TcMsg(_) =>
    case TimeoutMsg(t) => TimeoutFrame(n, s, t);
    case TimerFired => TimeoutFrame(n, SignTimeout(n, s), NewTimeout(n, s));
  }

  lemma CertificatesFrame(s: Replica, b: Block)
    ensures SameChain(s, ProcessCertificates(s, b))
  {
  }

  /** Exactly which events stop a node, in terms of its state before them. */
  lemma HandleHealth(n: Node, s: Replica, e: Event)
    requires StoreInv(s.store, s.written) && s.health.Running?
    ensures var s' := Handle(n, s, e);
            var hangs := ReachesProcessBlock(n, e) && CommitHangs(s, e.block);
            && s'.health == (if hangs then Endless else Running)
            && (hangs ==> s'.store == s.store[DigestOf(e.block) := e.block] && s'.lastCommitted == s.lastCommitted)
  {
    hide ProcessBlock, LeadsIntoCycle, ValidBlock, ProcessCertificates, HandleVote, HandleTimeout, HandleTC,
         LocalTimeoutRound, Leader;
    match e
    case ProposeMsg(b, _) =>
      CertificatesFrame(s, b);
      ProcessBlockHealth(n, Admit(ProcessCertificates(s, b), b), b);
    case Loopback(b) =>
      ProcessBlockHealth(n, Admit(s, b), b);
    case _ =>
      MessageFrame(n, s, e);
  }

  lemma WaitingKeeps(n: Node, ok: Evidence, s: Replica, b: Block)
    requires Inv(n, ok, s) && b in s.admitted
    ensures Inv(n, ok, s.(waiting := s.waiting + {b}))
  {
    hide AggregatorInv, CertificatesOk, StoreInv, ProposalsInv;
  }

  lemma AdmitKeeps(n: Node, ok: Evidence, s: Replica, b: Block)
    requires Inv(n, ok, s) && BlockOk(n.committee, ok, s.round, s.highQC.round, b)
    ensures Inv(n, ok, Admit(s, b)) && Grows(s, Admit(s, b))
  {
    hide AggregatorInv, CertificatesOk, ProposalsInv, BlockOk;
  }

  lemma ProcessCertificatesKeeps(n: Node, ok: Evidence, s: Replica, b: Block)
    requires Inv(n, ok, s) && CertificatesOk(n.committee, ok, b.qc, b.tc)
    ensures var s' := ProcessCertificates(s, b);
            && Inv(n, ok, s') && Grows(s, s') && BlockOk(n.committee, ok, s'.round, s'.highQC.round, b)
            && s' == s.(round := s'.round, aggregator := s'.aggregator, highQC := s'.highQC)
  {
    hide AggregatorInv, BlocksInv, StoreInv, ProposalsInv, AcceptableQC, AcceptableTC, GenuineQC, GenuineTC,
         ProcessQC, AdvanceRound;
    NoTC(n.committee);
    ProcessQCKeeps(n, ok, s, b.qc);
    if b.tc.Some? {
      AdvanceRoundKeeps(n, ok, ProcessQC(s, b.qc), b.tc.value.round);
    }
  }

  // ----- every event -----

  /** Honest signatures cannot be forged: every part of a signature was really signed. */
  ghost predicate Unforged(ok: Evidence, signature: Signature) {
    signature.Decoded? ==> forall p :: p in signature.parts ==> p in ok
  }

  /** What the network and the waiters may deliver: any message without forged parts (block
      signatures are not even restricted), and only blocks that were suspended here or that
      answer a proposal request of this node. */
  ghost predicate Deliverable(n: Node, ok: Evidence, s: Replica, e: Event) {
    match e
    case ProposeMsg(b, _) => Unforged(ok, b.qc.signature) && (b.tc.Some? ==> Unforged(ok, b.tc.value.signature))
    case VoteMsg(v) => Unforged(ok, v.signature)
    case TimeoutMsg(t) => Unforged(ok, t.signature) && Unforged(ok, t.highQC.signature)
    case TcMsg(tc) => Unforged(ok, tc.signature)
    case Loopback(b) => b in s.waiting || MadeByProposer(n, s.proposals, b)
    case TimerFired => true
  }

  /** A verified certificate without forged parts is genuine. */
  lemma VerifiedQCIsGenuine(c: Committee, ok: Evidence, qc: QC)
    requires AcceptableQC(c, qc) && Unforged(ok, qc.signature)
    ensures GenuineQC(ok, qc)
  {
    hide QuorumNames;
    if !IsGenesisQC(qc) {
      forall k | k in qc.voters ensures (k, QCDigestOf(qc)) in ok {
        SignersMembers(qc.voters, QCDigestOf(qc), k);
      }
    }
  }

  lemma VerifiedTCIsGenuine(c: Committee, ok: Evidence, tc: TC)
    requires ValidTC(c, tc) && Unforged(ok, tc.signature)
    ensures GenuineTC(ok, tc)
  {
    hide QuorumNames;
    forall i | 0 <= i < |tc.votes| ensures (tc.votes[i].name, TimeoutDigest(tc.round, tc.votes[i].round)) in ok {
      TimeoutSignersMembers(tc.votes, tc.round, i);
    }
  }

  lemma VerifiedBlockIsGenuine(c: Committee, ok: Evidence, b: Block)
    requires ValidBlock(c, b)
    requires Unforged(ok, b.qc.signature) && (b.tc.Some? ==> Unforged(ok, b.tc.value.signature))
    ensures GenuineQC(ok, b.qc) && (b.tc.Some? ==> GenuineTC(ok, b.tc.value))
    ensures c.StakeOf(b.author) > 0 && (Unforged(ok, b.signature) ==> (b.author, DigestOf(b)) in ok)
  {
    hide AcceptableQC, ValidTC, GenuineQC, GenuineTC;
    assert (b.author, DigestOf(b)) in b.signature.parts;
    VerifiedQCIsGenuine(c, ok, b.qc);
    if b.tc.Some? {
      VerifiedTCIsGenuine(c, ok, b.tc.value);
    }
  }

  lemma VerifiedVoteIsGenuine(c: Committee, ok: Evidence, v: Vote)
    requires ValidVote(c, v) && Unforged(ok, v.signature)
    ensures (v.author, VoteDigestOf(v)) in ok && c.StakeOf(v.author) > 0
  {
    assert (v.author, VoteDigestOf(v)) in v.signature.parts;
  }

  lemma VerifiedTimeoutIsGenuine(c: Committee, ok: Evidence, t: Timeout)
    requires ValidTimeout(c, t) && Unforged(ok, t.signature) && Unforged(ok, t.highQC.signature)
    ensures (t.author, TimeoutDigestOf(t)) in ok && GenuineQC(ok, t.highQC) && c.StakeOf(t.author) > 0
  {
    hide AcceptableQC, GenuineQC;
    assert (t.author, TimeoutDigestOf(t)) in t.signature.parts;
    VerifiedQCIsGenuine(c, ok, t.highQC);
  }

  /** The block the proposer makes from one request, with any payload. */
  predicate MadeByProposer(n: Node, ps: seq<Proposal>, b: Block) {
    b.author == n.name && Proposal(b.round, b.qc, b.tc) in ps
  }

  /** One signature per event at most, and only under the rules. */
  ghost predicate SignsByRules(n: Node, ok: Evidence, s: Replica, s': Replica, x: Signing) {
    && x.author == n.name
    && match x
       case VoteFor(_, b) =>
         && b in s'.written && s.lastVoted < b.round <= s'.lastVoted && Rule2(b)
         && CertificatesOk(n.committee, ok, b.qc, b.tc) && b.qc.round <= s'.highQC.round
       case TimeoutAt(_, round, high) =>
         round <= s'.lastVoted && s.highQC.round <= high
  }

  ghost predicate SigningStep(n: Node, ok: Evidence, s: Replica, s': Replica) {
    || s'.signings == s.signings
    || (exists x :: s'.signings == s.signings + [x] && SignsByRules(n, ok, s, s', x))
  }

  lemma LoopbackAdmits(n: Node, ok: Evidence, s: Replica, b: Block)
    requires Inv(n, ok, s) && (b in s.waiting || MadeByProposer(n, s.proposals, b))
    ensures Inv(n, ok, Admit(s, b)) && Grows(s, Admit(s, b))
    ensures CertificatesOk(n.committee, ok, b.qc, b.tc)
  {
    hide AggregatorInv, CertificatesOk, StoreInv;
    if b in s.waiting {
      assert BlockOk(n.committee, ok, s.round, s.highQC.round, b);
    } else {
      var i :| 0 <= i < |s.proposals| && s.proposals[i] == Proposal(b.round, b.qc, b.tc);
      assert ProposalOk(n.committee, ok, s.round, s.highQC.round, s.proposals[i]);
    }
    AdmitKeeps(n, ok, s, b);
  }

  lemma ProposalAdmits(n: Node, ok: Evidence, s: Replica, b: Block)
    requires Inv(n, ok, s) && ValidBlock(n.committee, b)
    requires GenuineQC(ok, b.qc) && (b.tc.Some? ==> GenuineTC(ok, b.tc.value))
    ensures var s' := Admit(ProcessCertificates(s, b), b);
            Inv(n, ok, s') && Grows(s, s') && s'.proposals == s.proposals && s'.lastVoted == s.lastVoted
    ensures CertificatesOk(n.committee, ok, b.qc, b.tc)
  {
    hide AggregatorInv, BlocksInv, StoreInv, ProposalsInv, AcceptableQC, AcceptableTC, GenuineQC, GenuineTC,
         ProcessCertificates;
    assert CertificatesOk(n.committee, ok, b.qc, b.tc);
    ProcessCertificatesKeeps(n, ok, s, b);
    AdmitKeeps(n, ok, ProcessCertificates(s, b), b);
  }

  ghost predicate ChainUnchanged(s: Replica, s': Replica) {
    SameChain(s, s')
  }

  /** The chain part of an event: nothing, or one block gone through storing and committing. */
  ghost predicate ChainEffect(s: Replica, s': Replica) {
    || ChainUnchanged(s, s')
    || (exists b :: b in s'.written && ChainStep(s, s', b))
  }

  /** Everything one event does, in the terms the protocol proofs use. `ok` is what was signed
      before the event, `ok'` includes what the event itself signs. */
  ghost predicate Step(n: Node, ok: Evidence, ok': Evidence, s: Replica, s': Replica) {
    && Inv(n, ok', s') && Grows(s, s') && ProposesOnce(s, s')
    && SigningStep(n, ok, s, s') && ChainEffect(s, s')
  }

  /** The event's own signatures count as evidence. */
  ghost predicate SignaturesCovered(n: Node, ok: Evidence, s: Replica, s': Replica) {
    forall i :: |s.signings| <= i < |s'.signings| ==> (n.name, SignedDigest(s'.signings[i])) in ok
  }

  lemma BlockDelivered(n: Node, ok: Evidence, ok': Evidence, s: Replica, a: Replica, b: Block)
    requires Sound(n.committee) && Inv(n, ok', a) && ok <= ok'
    requires Grows(s, a) && a.proposals == s.proposals && a.signings == s.signings && a.lastVoted == s.lastVoted
    requires ChainUnchanged(s, a) && b in a.admitted && CertificatesOk(n.committee, ok, b.qc, b.tc)
    requires SignaturesCovered(n, ok', s, ProcessBlock(n, a, b))
    ensures Step(n, ok, ok', s, ProcessBlock(n, a, b))
    ensures NewProposalsVotable(s, ProcessBlock(n, a, b))
  {
    hide Sound, Inv, CertificatesOk, Votable, Rule2, StoreAndCommit;
    var s' := ProcessBlock(n, a, b);
    ProcessBlockSigns(n, a, b);
    if s'.signings != a.signings {
      assert s'.signings[|s.signings|] == VoteFor(n.name, b);
    }
    ProcessBlockKeeps(n, ok', a, b);
    if s'.signings != s.signings {
      assert SignsByRules(n, ok, s, s', VoteFor(n.name, b));
    }
    if !SameChain(a, s') {
      ChainStepOnly(s, a, s', b);
    }
  }

  lemma ProcessBlockSigns(n: Node, s: Replica, b: Block)
    ensures ProcessBlock(n, s, b).signings == s.signings
            || ProcessBlock(n, s, b).signings == s.signings + [VoteFor(n.name, b)]
  {
    hide VoteIfSafe, CommitWalk;
    if Parent(s.store, b).Some? && Parent(s.store, Parent(s.store, b).value).Some? {
      var b1 := Parent(s.store, b).value;
      VoteIfSafeSigns(n, StoreAndCommit(s, b, b1, Parent(s.store, b1).value), b);
    }
  }

  /** Only the chain part of the state decides what storing and committing do to it. */
  lemma ChainStepOnly(s: Replica, a: Replica, s': Replica, b: Block)
    requires SameChain(s, a) && ChainStep(a, s', b)
    ensures ChainStep(s, s', b)
  {
    hide IsWalk;
    var b1, b0 :| Parent(a.store, b) == Some(b1) && Parent(a.store, b1) == Some(b0)
                  && SameChain(StoreAndCommit(a, b, b1, b0), s');
    assert SameChain(StoreAndCommit(s, b, b1, b0), s');
  }

  /** Main node-level result: every event a node can meet keeps the ladder and obeys the rules. */
  lemma HandleKeeps(n: Node, ok: Evidence, ok': Evidence, s: Replica, e: Event)
    requires Sound(n.committee) && Inv(n, ok, s) && ok <= ok' && Deliverable(n, ok, s, e)
    requires SignaturesCovered(n, ok', s, Handle(n, s, e))
    ensures Step(n, ok, ok', s, Handle(n, s, e))
    ensures !e.TcMsg? ==> NewProposalsVotable(s, Handle(n, s, e))
  {
    hide Sound, Inv, CertificatesOk, Votable, ProcessBlock, HandleVote, HandleTimeout, HandleTC, LocalTimeoutRound,
         ProcessCertificates, ValidBlock, ValidVote, ValidTimeout, ValidTC, Leader, GenuineQC, GenuineTC, Unforged;
    match e
    case ProposeMsg(b, ready) =>
      if ValidBlock(n.committee, b) {
        VerifiedBlockIsGenuine(n.committee, ok, b);
      }
      ProposeDelivered(n, ok, ok', s, b, ready);
    case VoteMsg(v) =>
      InvGrows(n, ok, ok', s);
      if ValidVote(n.committee, v) {
        VerifiedVoteIsGenuine(n.committee, ok, v);
      }
      HandleVoteKeeps(n, ok', s, v);
    case TimeoutMsg(t) =>
      InvGrows(n, ok, ok', s);
      if ValidTimeout(n.committee, t) {
        VerifiedTimeoutIsGenuine(n.committee, ok, t);
        GenuineGrows(ok, ok', t.highQC);
      }
      HandleTimeoutKeeps(n, ok', s, t);
    case TcMsg(tc) =>
      InvGrows(n, ok, ok', s);
      if ValidTC(n.committee, tc) {
        VerifiedTCIsGenuine(n.committee, ok, tc);
        GenuineTCGrows(ok, ok', tc);
      }
      HandleTCKeeps(n, ok', s, tc);
    case Loopback(b) =>
      LoopbackAdmits(n, ok, s, b);
      InvGrows(n, ok, ok', Admit(s, b));
      BlockDelivered(n, ok, ok', s, Admit(s, b), b);
    case TimerFired =>
      TimerDelivered(n, ok, ok', s);
  }

  lemma GenuineGrows(ok: Evidence, ok': Evidence, qc: QC)
    requires GenuineQC(ok, qc) && ok <= ok'
    ensures GenuineQC(ok', qc)
  {
  }

  lemma GenuineTCGrows(ok: Evidence, ok': Evidence, tc: TC)
    requires GenuineTC(ok, tc) && ok <= ok'
    ensures GenuineTC(ok', tc)
  {
  }

  lemma TimerDelivered(n: Node, ok: Evidence, ok': Evidence, s: Replica)
    requires Sound(n.committee) && Inv(n, ok, s) && ok <= ok'
    requires SignaturesCovered(n, ok', s, LocalTimeoutRound(n, s))
    ensures Step(n, ok, ok', s, LocalTimeoutRound(n, s))
    ensures NewProposalsVotable(s, LocalTimeoutRound(n, s))
  {
    hide Sound, Inv, CertificatesOk, Votable, HandleTimeout;
    var x := TimeoutAt(n.name, s.round, s.highQC.round);
    var s' := LocalTimeoutRound(n, s);
    HandleTimeoutSigns(n, SignTimeout(n, s), NewTimeout(n, s));
    assert s'.signings[|s.signings|] == x;
    InvGrows(n, ok, ok', s);
    LocalTimeoutKeeps(n, ok', s);
    assert SignsByRules(n, ok, s, s', x);
  }

  lemma ProposeDelivered(n: Node, ok: Evidence, ok': Evidence, s: Replica, b: Block, ready: bool)
    requires Sound(n.committee) && Inv(n, ok, s) && ok <= ok'
    requires ValidBlock(n.committee, b) ==> GenuineQC(ok, b.qc) && (b.tc.Some? ==> GenuineTC(ok, b.tc.value))
    requires SignaturesCovered(n, ok', s, HandleProposal(n, s, b, ready))
    ensures Step(n, ok, ok', s, HandleProposal(n, s, b, ready))
    ensures NewProposalsVotable(s, HandleProposal(n, s, b, ready))
  {
    hide Sound, Inv, CertificatesOk, Votable, ProcessBlock, ValidBlock, Leader, GenuineQC, GenuineTC;
    if b.author == Leader(n.committee, b.round) && ValidBlock(n.committee, b) {
      ProposalAdmits(n, ok, s, b);
      var a := Admit(ProcessCertificates(s, b), b);
      InvGrows(n, ok, ok', a);
      if ready {
        BlockDelivered(n, ok, ok', s, a, b);
      } else {
        WaitingKeeps(n, ok', a, b);
      }
    } else {
      InvGrows(n, ok, ok', s);
    }
  }
}
