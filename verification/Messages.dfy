/** Consensus messages and their verification (consensus/messages.go). Hashing is injective and
    signatures are ideal: a signature value lists who signed what. */
module Messages {
  import opened Committees

  datatype Option<+T> = None | Some(value: T)

  /** One constructor per byte layout that the node hashes. The three signed layouts have
      different lengths and fixed-width fields, see module Encoding. `Zero` is the digest of 32
      zero bytes that marks "no block"; `DataDigest` stands for a payload batch. */
  datatype Digest =
    | Zero
    | BlockDigest(author: Key, height: nat, payload: seq<Digest>)
    | VoteDigest(block: Digest, height: nat)
    | TimeoutDigest(height: nat, high: nat)
    | DataDigest(content: seq<nat>)

  /** A signature is either bytes that do not decode to a curve point (the all-zero signature is
      `Undecodable(0)`) or the sum of individual signatures. */
  datatype Signature = Undecodable(tag: nat) | Decoded(parts: multiset<(Key, Digest)>)

  datatype QC = QC(hash: Digest, round: nat, voters: seq<Key>, signature: Signature)
  datatype TimeoutVote = TimeoutVote(name: Key, round: nat)
  datatype TC = TC(round: nat, votes: seq<TimeoutVote>, signature: Signature)
  datatype Block = Block(qc: QC, tc: Option<TC>, author: Key, round: nat, payload: seq<Digest>, signature: Signature)
  datatype Vote = Vote(hash: Digest, round: nat, author: Key, signature: Signature)
  datatype Timeout = Timeout(highQC: QC, round: nat, author: Key, signature: Signature)

  const ZERO_SIGNATURE: Signature := Undecodable(0)
  const GENESIS_QC: QC := QC(Zero, 0, [], ZERO_SIGNATURE)
  const GENESIS: Block := Block(GENESIS_QC, None, 0, 0, [], ZERO_SIGNATURE)

  predicate IsGenesisQC(qc: QC) {
    qc.hash == Zero && qc.round == 0 && |qc.voters| == 0 && qc.signature == ZERO_SIGNATURE
  }

  // The digest of a block does not cover its certificates.
  function DigestOf(b: Block): Digest { BlockDigest(b.author, b.round, b.payload) }
  function VoteDigestOf(v: Vote): Digest { VoteDigest(v.hash, v.round) }
  function QCDigestOf(qc: QC): Digest { VoteDigest(qc.hash, qc.round) }
  function TimeoutDigestOf(t: Timeout): Digest { TimeoutDigest(t.round, t.highQC.round) }

  function Sign(name: Key, d: Digest): Signature { Decoded(multiset{(name, d)}) }

  predicate SignatureVerifies(s: Signature, d: Digest, name: Key) {
    s == Sign(name, d)
  }

  /** The individual signatures of `names` over one digest. */
  function SignersOf(names: seq<Key>, d: Digest): multiset<(Key, Digest)> {
    if names == [] then multiset{}
    else SignersOf(names[..|names| - 1], d) + multiset{(names[|names| - 1], d)}
  }

  /** The individual signatures behind timeouts of one round. */
  function TimeoutSignersOf(votes: seq<TimeoutVote>, round: nat): multiset<(Key, Digest)> {
    if votes == [] then multiset{}
    else
      var last := votes[|votes| - 1];
      TimeoutSignersOf(votes[..|votes| - 1], round) + multiset{(last.name, TimeoutDigest(round, last.round))}
  }

  lemma {:induction false} SignersMembers(names: seq<Key>, d: Digest, k: Key)
    ensures (k, d) in SignersOf(names, d) <==> k in names
  {
    if names != [] {
      var front := names[..|names| - 1];
      SignersMembers(front, d, k);
      assert names == front + [names[|names| - 1]];
    }
  }

  lemma {:induction false} TimeoutSignersMembers(votes: seq<TimeoutVote>, round: nat, i: nat)
    requires i < |votes|
    ensures (votes[i].name, TimeoutDigest(round, votes[i].round)) in TimeoutSignersOf(votes, round)
  {
    var front := votes[..|votes| - 1];
    if i < |front| {
      TimeoutSignersMembers(front, round, i);
      assert front[i] == votes[i];
    }
  }

  ghost function Names(names: seq<Key>): set<Key> { set k | k in names }
  function TimeoutNames(votes: seq<TimeoutVote>): seq<Key> {
    seq(|votes|, i requires 0 <= i < |votes| => votes[i].name)
  }

  ghost predicate Distinct(names: seq<Key>) {
    forall i, j :: 0 <= i < j < |names| ==> names[i] != names[j]
  }

  /** Distinct names with voting rights whose 32-bit weight reaches the threshold. */
  ghost predicate QuorumNames(c: Committee, names: seq<Key>) {
    && Distinct(names)
    && (forall k :: k in names ==> c.StakeOf(k) > 0)
    && Weight(c, Names(names)) % U32_RANGE >= Threshold(c)
  }

  ghost predicate ValidQC(c: Committee, qc: QC) {
    && QuorumNames(c, qc.voters)
    && qc.signature == Decoded(SignersOf(qc.voters, QCDigestOf(qc)))
  }

  ghost predicate ValidTC(c: Committee, tc: TC) {
    && QuorumNames(c, TimeoutNames(tc.votes))
    && tc.signature == Decoded(TimeoutSignersOf(tc.votes, tc.round))
  }

  /** The certificate a block or timeout may carry: the genesis marker or a verified one. */
  ghost predicate AcceptableQC(c: Committee, qc: QC) {
    IsGenesisQC(qc) || ValidQC(c, qc)
  }

  ghost predicate AcceptableTC(c: Committee, tc: Option<TC>) {
    tc.Some? ==> ValidTC(c, tc.value)
  }

  ghost predicate ValidBlock(c: Committee, b: Block) {
    && c.StakeOf(b.author) != 0
    && SignatureVerifies(b.signature, DigestOf(b), b.author)
    && AcceptableQC(c, b.qc)
    && AcceptableTC(c, b.tc)
  }

  ghost predicate ValidVote(c: Committee, v: Vote) {
    c.StakeOf(v.author) != 0 && SignatureVerifies(v.signature, VoteDigestOf(v), v.author)
  }

  ghost predicate ValidTimeout(c: Committee, t: Timeout) {
    && c.StakeOf(t.author) != 0
    && SignatureVerifies(t.signature, TimeoutDigestOf(t), t.author)
    && AcceptableQC(c, t.highQC)
  }

  /** On a sound committee the 32-bit counter equals the stake it counts. */
  lemma QuorumNamesAreQuorum(c: Committee, names: seq<Key>)
    requires Sound(c) && QuorumNames(c, names)
    ensures IsQuorum(c, Names(names)) && names != []
  {
    WeightBounded(c, Names(names));
    assert Names([]) == {};
  }

  datatype VerifyError = AppearsTwice(name: Key) | UnknownAuthority(name: Key) | NoQuorum | BadSignature
  datatype Verdict = Accepted | Rejected(error: VerifyError)

  /** The counting loop shared by QC.Verify and TC.Verify. */
  method CountVotes(c: Committee, names: seq<Key>) returns (verdict: Verdict)
    ensures verdict.Accepted? <==> QuorumNames(c, names)
    ensures verdict.Accepted? || verdict == Rejected(NoQuorum) <==>
              && (forall i, j :: 0 <= i < j < |names| ==> names[i] != names[j])
              && (forall k :: k in names ==> c.StakeOf(k) > 0)
    ensures verdict.Accepted? ==> Weight(c, Names(names)) % U32_RANGE >= Threshold(c)
    ensures verdict == Rejected(NoQuorum) ==> Weight(c, Names(names)) % U32_RANGE < Threshold(c)
    ensures verdict.Rejected? && verdict.error.AppearsTwice? ==>
              exists i, j :: 0 <= i < j < |names| && names[i] == names[j] == verdict.error.name
    ensures verdict.Rejected? && verdict.error.UnknownAuthority? ==>
              verdict.error.name in names && c.StakeOf(verdict.error.name) == 0
    ensures verdict != Rejected(BadSignature)
  {
    hide Threshold, Weight, TotalStake;
    var weight: Stake := 0;
    var used: set<Key> := {};
    EmptyWeight(c);
    for i := 0 to |names|
      invariant used == Names(names[..i])
      invariant Distinct(names[..i])
      invariant forall k :: k in used ==> c.StakeOf(k) > 0
      invariant weight == Weight(c, used) % U32_RANGE
    {
      var name := names[i];
      assert names[..i + 1] == names[..i] + [name];
      if name in used {
        ghost var j :| 0 <= j < i && names[j] == name;
        return Rejected(AppearsTwice(name));
      }
      var votingRights := c.StakeOf(name);
      if votingRights == 0 {
        return Rejected(UnknownAuthority(name));
      }
      WeightAdd(c, used, name);
      WrappedSum(Weight(c, used), votingRights);
      used := used + {name};
      weight := AddStake(weight, votingRights);
    }
    assert names[..|names|] == names;
    var threshold := QuorumThreshold(c);
    if weight < threshold {
      return Rejected(NoQuorum);
    }
    return Accepted;
  }

  /** QC.Verify. */
  method VerifyQC(c: Committee, qc: QC) returns (verdict: Verdict)
    ensures verdict.Accepted? <==> ValidQC(c, qc)
    ensures verdict == Rejected(BadSignature) <==> QuorumNames(c, qc.voters) && !ValidQC(c, qc)
  {
    verdict := CountVotes(c, qc.voters);
    if verdict.Accepted? && qc.signature != Decoded(SignersOf(qc.voters, QCDigestOf(qc))) {
      verdict := Rejected(BadSignature);
    }
  }

  /** The signatures TC.Verify expects: each listed name signed the TC's round together with the
      round listed for it. */
  method ExpectedSigners(tc: TC) returns (expected: multiset<(Key, Digest)>)
    ensures expected == TimeoutSignersOf(tc.votes, tc.round)
  {
    expected := multiset{};
    for i := 0 to |tc.votes|
      invariant expected == TimeoutSignersOf(tc.votes[..i], tc.round)
    {
      assert tc.votes[..i + 1][..i] == tc.votes[..i];
      expected := expected + multiset{(tc.votes[i].name, TimeoutDigest(tc.round, tc.votes[i].round))};
    }
    assert tc.votes[..|tc.votes|] == tc.votes;
  }

  /** TC.Verify. */
  method VerifyTC(c: Committee, tc: TC) returns (verdict: Verdict)
    ensures verdict.Accepted? <==> ValidTC(c, tc)
    ensures verdict == Rejected(BadSignature) <==> QuorumNames(c, TimeoutNames(tc.votes)) && !ValidTC(c, tc)
  {
    hide QuorumNames, TimeoutSignersOf;
    verdict := CountVotes(c, TimeoutNames(tc.votes));
    if verdict.Accepted? {
      var expected := ExpectedSigners(tc);
      if tc.signature != Decoded(expected) {
        verdict := Rejected(BadSignature);
      }
    }
  }

  /** slices.Max over TC.HighQCRounds; the source panics on a TC without votes. */
  method MaxHighQCRound(tc: TC) returns (m: nat)
    requires tc.votes != []
    ensures exists i :: 0 <= i < |tc.votes| && tc.votes[i].round == m
    ensures forall i :: 0 <= i < |tc.votes| ==> tc.votes[i].round <= m
  {
    m := tc.votes[0].round;
    for i := 1 to |tc.votes|
      invariant exists j :: 0 <= j < i && tc.votes[j].round == m
      invariant forall j :: 0 <= j < i ==> tc.votes[j].round <= m
    {
      if tc.votes[i].round > m {
        m := tc.votes[i].round;
      }
    }
  }

  /** Block.Verify. */
  method VerifyBlock(c: Committee, b: Block) returns (ok: bool)
    ensures ok <==> ValidBlock(c, b)
    ensures ok <==> && c.StakeOf(b.author) > 0 && b.signature == Sign(b.author, DigestOf(b))
                    && AcceptableQC(c, b.qc) && AcceptableTC(c, b.tc)
  {
    if c.StakeOf(b.author) == 0 || !SignatureVerifies(b.signature, DigestOf(b), b.author) {
      return false;
    }
    if !IsGenesisQC(b.qc) {
      var verdict := VerifyQC(c, b.qc);
      if verdict.Rejected? {
        return false;
      }
    }
    if b.tc.Some? {
      var verdict := VerifyTC(c, b.tc.value);
      if verdict.Rejected? {
        return false;
      }
    }
    return true;
  }

  /** timeout.Verify. */
  method VerifyTimeout(c: Committee, t: Timeout) returns (ok: bool)
    ensures ok <==> ValidTimeout(c, t)
    ensures ok <==> && c.StakeOf(t.author) > 0 && t.signature == Sign(t.author, TimeoutDigest(t.round, t.highQC.round))
                    && AcceptableQC(c, t.highQC)
  {
    if c.StakeOf(t.author) == 0 || !SignatureVerifies(t.signature, TimeoutDigestOf(t), t.author) {
      return false;
    }
    if !IsGenesisQC(t.highQC) {
      var verdict := VerifyQC(c, t.highQC);
      if verdict.Rejected? {
        return false;
      }
    }
    return true;
  }
}
