/** Vote and timeout aggregation (consensus/aggregator.go) as a value: what one call returns and
    what it leaves behind. AggregatorObject holds the mutable objects that implement it. */
module Aggregation {
  import opened Committees
  import opened Messages

  datatype QcMaker = QcMaker(weight: Stake, voters: seq<Key>, used: set<Key>, sum: multiset<(Key, Digest)>)
  datatype TcMaker = TcMaker(weight: Stake, votes: seq<TimeoutVote>, used: set<Key>, sum: multiset<(Key, Digest)>)
  /** The two-level map of vote makers, by round and then by vote digest, is one map on pairs. */
  datatype Aggregator = Aggregator(votes: map<(nat, Digest), QcMaker>, timeouts: map<nat, TcMaker>)

  /** What append returns: one of its two errors, nothing yet, or a certificate. */
  datatype Added<+T> = DuplicateAuthor | MalformedSignature | Nothing | Made(certificate: T)

  const NEW_QC_MAKER: QcMaker := QcMaker(0, [], {}, multiset{})
  const NEW_TC_MAKER: TcMaker := TcMaker(0, [], {}, multiset{})
  const NEW_AGGREGATOR: Aggregator := Aggregator(map[], map[])

  ghost function AppendVote(c: Committee, m: QcMaker, v: Vote): (QcMaker, Added<QC>) {
    if v.author in m.used then (m, DuplicateAuthor) else
      var listed := m.(used := m.used + {v.author}, voters := m.voters + [v.author],
                       weight := AddStake(m.weight, c.StakeOf(v.author)));
      if v.signature.Undecodable? then (listed, MalformedSignature) else
        var summed := listed.(sum := m.sum + v.signature.parts);
        if summed.weight >= Threshold(c) then
          (summed.(weight := 0), Made(QC(v.hash, v.round, summed.voters, Decoded(summed.sum))))
        else
          (summed, Nothing)
  }

  ghost function AppendTimeout(c: Committee, m: TcMaker, t: Timeout): (TcMaker, Added<TC>) {
    if t.author in m.used then (m, DuplicateAuthor) else
      var listed := m.(used := m.used + {t.author},
                       votes := m.votes + [TimeoutVote(t.author, t.highQC.round)],
                       weight := AddStake(m.weight, c.StakeOf(t.author)));
      if t.signature.Undecodable? then (listed, MalformedSignature) else
        var summed := listed.(sum := m.sum + t.signature.parts);
        if summed.weight >= Threshold(c) then
          (summed.(weight := 0), Made(TC(t.round, summed.votes, Decoded(summed.sum))))
        else
          (summed, Nothing)
  }

  function VoteMaker(a: Aggregator, round: nat, d: Digest): QcMaker {
    if (round, d) in a.votes then a.votes[(round, d)] else NEW_QC_MAKER
  }

  function TimeoutMaker(a: Aggregator, round: nat): TcMaker {
    if round in a.timeouts then a.timeouts[round] else NEW_TC_MAKER
  }

  ghost function AddVote(c: Committee, a: Aggregator, v: Vote): (Aggregator, Added<QC>) {
    var d := VoteDigestOf(v);
    var (maker, out) := AppendVote(c, VoteMaker(a, v.round, d), v);
    (a.(votes := a.votes[(v.round, d) := maker]), out)
  }

  ghost function AddTimeout(c: Committee, a: Aggregator, t: Timeout): (Aggregator, Added<TC>) {
    var (maker, out) := AppendTimeout(c, TimeoutMaker(a, t.round), t);
    (a.(timeouts := a.timeouts[t.round := maker]), out)
  }

  function Cleanup(a: Aggregator, round: nat): Aggregator {
    Aggregator(map p | p in a.votes && p.0 >= round :: a.votes[p],
               map r | r in a.timeouts && r >= round :: a.timeouts[r])
  }

  // ----- one maker -----

  /** The counter holds the distinct signers' stake until it fires; afterwards it stays a whole
      threshold behind, so it cannot fire again. */
  ghost predicate CounterInv(c: Committee, weight: Stake, used: set<Key>) {
    if IsQuorum(c, used) then weight + Threshold(c) <= Weight(c, used) else weight == Weight(c, used)
  }

  ghost predicate QcMakerInv(c: Committee, m: QcMaker, hash: Digest, round: nat) {
    && Distinct(m.voters)
    && Names(m.voters) == m.used
    && (forall k :: k in m.voters ==> c.StakeOf(k) > 0)
    && m.sum == SignersOf(m.voters, VoteDigest(hash, round))
    && CounterInv(c, m.weight, m.used)
  }

  ghost predicate TcMakerInv(c: Committee, m: TcMaker, round: nat) {
    && Distinct(TimeoutNames(m.votes))
    && Names(TimeoutNames(m.votes)) == m.used
    && (forall k :: k in TimeoutNames(m.votes) ==> c.StakeOf(k) > 0)
    && m.sum == TimeoutSignersOf(m.votes, round)
    && CounterInv(c, m.weight, m.used)
  }

  lemma NewMakersInv(c: Committee, hash: Digest, round: nat)
    ensures QcMakerInv(c, NEW_QC_MAKER, hash, round)
    ensures TcMakerInv(c, NEW_TC_MAKER, round)
  {
    assert Names([]) == {};
    assert TimeoutNames([]) == [];
  }

  lemma CounterStep(c: Committee, weight: Stake, used: set<Key>, k: Key)
    requires Sound(c) && CounterInv(c, weight, used) && k !in used
    ensures var weight' := AddStake(weight, c.StakeOf(k));
            var used' := used + {k};
            && (weight' >= Threshold(c) <==> !IsQuorum(c, used) && IsQuorum(c, used'))
            && CounterInv(c, if weight' >= Threshold(c) then 0 else weight', used')
    ensures Weight(c, used + {k}) < U32_RANGE
  {
    hide Threshold, Weight, TotalStake, AddStake;
    WeightAdd(c, used, k);
    WeightBounded(c, used + {k});
    RemainderBelowThreshold(c);
    NoWrap(weight, c.StakeOf(k));
  }

  lemma NoWrap(a: Stake, b: Stake)
    ensures a + b < U32_RANGE ==> AddStake(a, b) == a + b
  {
  }

  /** One verified vote: the maker answers by set-based stake alone, and what it hands out verifies. */
  lemma AppendVoteCorrect(c: Committee, m: QcMaker, v: Vote)
    requires Sound(c) && QcMakerInv(c, m, v.hash, v.round) && ValidVote(c, v)
    ensures var (m', out) := AppendVote(c, m, v);
            && QcMakerInv(c, m', v.hash, v.round)
            && m'.used == m.used + {v.author}
            && (out.DuplicateAuthor? <==> v.author in m.used)
            && !out.MalformedSignature?
            && (out.Made? <==> !IsQuorum(c, m.used) && IsQuorum(c, m.used + {v.author}))
            && (out.Made? ==>
                  && out.certificate.hash == v.hash && out.certificate.round == v.round
                  && ValidQC(c, out.certificate) && Names(out.certificate.voters) == m'.used)
  {
    hide Threshold, Weight, TotalStake;
    if v.author in m.used {
      assert m.used + {v.author} == m.used;
    } else {
      CounterStep(c, m.weight, m.used, v.author);
      assert (m.voters + [v.author])[..|m.voters|] == m.voters;
      assert Names(m.voters + [v.author]) == m.used + {v.author};
    }
  }

  lemma AppendTimeoutCorrect(c: Committee, m: TcMaker, t: Timeout)
    requires Sound(c) && TcMakerInv(c, m, t.round) && ValidTimeout(c, t)
    ensures var (m', out) := AppendTimeout(c, m, t);
            && TcMakerInv(c, m', t.round)
            && m'.used == m.used + {t.author}
            && (out.DuplicateAuthor? <==> t.author in m.used)
            && !out.MalformedSignature?
            && (out.Made? <==> !IsQuorum(c, m.used) && IsQuorum(c, m.used + {t.author}))
            && (out.Made? ==>
                  && out.certificate.round == t.round && out.certificate.votes == m'.votes
                  && ValidTC(c, out.certificate) && Names(TimeoutNames(out.certificate.votes)) == m'.used)
  {
    hide Threshold, Weight, TotalStake;
    if t.author in m.used {
      assert m.used + {t.author} == m.used;
    } else {
      CounterStep(c, m.weight, m.used, t.author);
      var votes' := m.votes + [TimeoutVote(t.author, t.highQC.round)];
      assert votes'[..|m.votes|] == m.votes;
      assert TimeoutNames(votes') == TimeoutNames(m.votes) + [t.author];
      assert Names(TimeoutNames(votes')) == m.used + {t.author};
    }
  }

  // ----- whole runs of one maker -----

  ghost function VoteRun(c: Committee, vs: seq<Vote>): QcMaker {
    if vs == [] then NEW_QC_MAKER else AppendVote(c, VoteRun(c, vs[..|vs| - 1]), vs[|vs| - 1]).0
  }

  ghost function TimeoutRun(c: Committee, ts: seq<Timeout>): TcMaker {
    if ts == [] then NEW_TC_MAKER else AppendTimeout(c, TimeoutRun(c, ts[..|ts| - 1]), ts[|ts| - 1]).0
  }

  ghost function VoteAuthors(vs: seq<Vote>): set<Key> { set i | 0 <= i < |vs| :: vs[i].author }
  ghost function TimeoutAuthors(ts: seq<Timeout>): set<Key> { set i | 0 <= i < |ts| :: ts[i].author }

  ghost predicate VotesFor(c: Committee, vs: seq<Vote>, hash: Digest, round: nat) {
    forall i :: 0 <= i < |vs| ==> ValidVote(c, vs[i]) && vs[i].hash == hash && vs[i].round == round
  }

  ghost predicate TimeoutsOf(c: Committee, ts: seq<Timeout>, round: nat) {
    forall i :: 0 <= i < |ts| ==> ValidTimeout(c, ts[i]) && ts[i].round == round
  }

  lemma {:induction false} VoteRunInv(c: Committee, vs: seq<Vote>, hash: Digest, round: nat)
    requires Sound(c) && VotesFor(c, vs, hash, round)
    ensures QcMakerInv(c, VoteRun(c, vs), hash, round) && VoteRun(c, vs).used == VoteAuthors(vs)
  {
    if vs == [] {
      NewMakersInv(c, hash, round);
    } else {
      var front, last := vs[..|vs| - 1], vs[|vs| - 1];
      VoteRunInv(c, front, hash, round);
      AppendVoteCorrect(c, VoteRun(c, front), last);
      AuthorsSnoc(vs);
    }
  }

  lemma AuthorsSnoc(vs: seq<Vote>)
    requires vs != []
    ensures VoteAuthors(vs) == VoteAuthors(vs[..|vs| - 1]) + {vs[|vs| - 1].author}
  {
  }

  /** Over any sequence of verified votes for one block, the maker hands out a certificate at vote
      i exactly when the distinct authors first reach the threshold there, it names exactly those
      authors, and it verifies. */
  lemma QcMakerRefinesStake(c: Committee, vs: seq<Vote>, hash: Digest, round: nat, i: nat)
    requires Sound(c) && VotesFor(c, vs, hash, round) && i < |vs|
    ensures var out := AppendVote(c, VoteRun(c, vs[..i]), vs[i]).1;
            && (out.Made? <==> !IsQuorum(c, VoteAuthors(vs[..i])) && IsQuorum(c, VoteAuthors(vs[..i + 1])))
            && (out.DuplicateAuthor? <==> vs[i].author in VoteAuthors(vs[..i]))
            && (out.Made? ==>
                  && ValidQC(c, out.certificate) && out.certificate.hash == hash && out.certificate.round == round
                  && Names(out.certificate.voters) == VoteAuthors(vs[..i + 1]))
  {
    VoteRunInv(c, vs[..i], hash, round);
    AppendVoteCorrect(c, VoteRun(c, vs[..i]), vs[i]);
    AuthorsSnoc(vs[..i + 1]);
    assert vs[..i + 1][..i] == vs[..i];
  }

  /** Hence a maker fires at most once, although its counter restarts from zero. */
  lemma QcMakerFiresOnce(c: Committee, vs: seq<Vote>, hash: Digest, round: nat, i: nat, j: nat)
    requires Sound(c) && VotesFor(c, vs, hash, round) && i < j < |vs|
    requires AppendVote(c, VoteRun(c, vs[..i]), vs[i]).1.Made?
    ensures !AppendVote(c, VoteRun(c, vs[..j]), vs[j]).1.Made?
  {
    hide AppendVote, VoteRun, VotesFor, Threshold, Weight, TotalStake;
    QcMakerRefinesStake(c, vs, hash, round, i);
    QcMakerRefinesStake(c, vs, hash, round, j);
    assert VoteAuthors(vs[..i + 1]) <= VoteAuthors(vs[..j]) by {
      forall k | k in VoteAuthors(vs[..i + 1]) ensures k in VoteAuthors(vs[..j]) {
        var x :| 0 <= x < i + 1 && vs[..i + 1][x].author == k;
        assert vs[..j][x].author == k;
      }
    }
    WeightMonotone(c, VoteAuthors(vs[..i + 1]), VoteAuthors(vs[..j]));
  }

  lemma {:induction false} TimeoutRunInv(c: Committee, ts: seq<Timeout>, round: nat)
    requires Sound(c) && TimeoutsOf(c, ts, round)
    ensures TcMakerInv(c, TimeoutRun(c, ts), round) && TimeoutRun(c, ts).used == TimeoutAuthors(ts)
  {
    if ts == [] {
      NewMakersInv(c, Zero, round);
    } else {
      var front, last := ts[..|ts| - 1], ts[|ts| - 1];
      TimeoutRunInv(c, front, round);
      AppendTimeoutCorrect(c, TimeoutRun(c, front), last);
      TimeoutAuthorsSnoc(ts);
    }
  }

  lemma TimeoutAuthorsSnoc(ts: seq<Timeout>)
    requires ts != []
    ensures TimeoutAuthors(ts) == TimeoutAuthors(ts[..|ts| - 1]) + {ts[|ts| - 1].author}
  {
  }

  /** The same for timeouts of one round. */
  lemma TcMakerRefinesStake(c: Committee, ts: seq<Timeout>, round: nat, i: nat)
    requires Sound(c) && TimeoutsOf(c, ts, round) && i < |ts|
    ensures var out := AppendTimeout(c, TimeoutRun(c, ts[..i]), ts[i]).1;
            && (out.Made? <==> !IsQuorum(c, TimeoutAuthors(ts[..i])) && IsQuorum(c, TimeoutAuthors(ts[..i + 1])))
            && (out.DuplicateAuthor? <==> ts[i].author in TimeoutAuthors(ts[..i]))
            && (out.Made? ==>
                  && ValidTC(c, out.certificate) && out.certificate.round == round
                  && Names(TimeoutNames(out.certificate.votes)) == TimeoutAuthors(ts[..i + 1]))
  {
    TimeoutRunInv(c, ts[..i], round);
    AppendTimeoutCorrect(c, TimeoutRun(c, ts[..i]), ts[i]);
    TimeoutAuthorsSnoc(ts[..i + 1]);
    assert ts[..i + 1][..i] == ts[..i];
  }

  lemma TcMakerFiresOnce(c: Committee, ts: seq<Timeout>, round: nat, i: nat, j: nat)
    requires Sound(c) && TimeoutsOf(c, ts, round) && i < j < |ts|
    requires AppendTimeout(c, TimeoutRun(c, ts[..i]), ts[i]).1.Made?
    ensures !AppendTimeout(c, TimeoutRun(c, ts[..j]), ts[j]).1.Made?
  {
    hide AppendTimeout, TimeoutRun, TimeoutsOf, Threshold, Weight, TotalStake;
    TcMakerRefinesStake(c, ts, round, i);
    TcMakerRefinesStake(c, ts, round, j);
    assert TimeoutAuthors(ts[..i + 1]) <= TimeoutAuthors(ts[..j]) by {
      forall k | k in TimeoutAuthors(ts[..i + 1]) ensures k in TimeoutAuthors(ts[..j]) {
        var x :| 0 <= x < i + 1 && ts[..i + 1][x].author == k;
        assert ts[..j][x].author == k;
      }
    }
    WeightMonotone(c, TimeoutAuthors(ts[..i + 1]), TimeoutAuthors(ts[..j]));
  }

  // ----- the whole aggregator, with the evidence behind its signatures -----

  /** Which (name, digest) pairs can have been signed at all. */
  type Evidence = iset<(Key, Digest)>

  ghost predicate GenuineQC(ok: Evidence, qc: QC) {
    forall k :: k in qc.voters ==> (k, QCDigestOf(qc)) in ok
  }

  ghost predicate GenuineTC(ok: Evidence, tc: TC) {
    forall i :: 0 <= i < |tc.votes| ==> (tc.votes[i].name, TimeoutDigest(tc.round, tc.votes[i].round)) in ok
  }

  ghost predicate VoteEntryOk(c: Committee, ok: Evidence, r: nat, d: Digest, m: QcMaker) {
    && d.VoteDigest? && d.height == r
    && QcMakerInv(c, m, d.block, r)
    && (forall k :: k in m.voters ==> (k, d) in ok)
  }

  ghost predicate VotesInv(c: Committee, ok: Evidence, a: Aggregator) {
    forall p :: p in a.votes ==> VoteEntryOk(c, ok, p.0, p.1, a.votes[p])
  }

  /** `high` bounds every certificate round recorded in the maker. */
  ghost predicate TimeoutEntryOk(c: Committee, ok: Evidence, r: nat, m: TcMaker, high: nat) {
    && TcMakerInv(c, m, r)
    && (forall i :: 0 <= i < |m.votes| ==>
          (m.votes[i].name, TimeoutDigest(r, m.votes[i].round)) in ok && m.votes[i].round <= high)
  }

  ghost predicate TimeoutsInv(c: Committee, ok: Evidence, a: Aggregator, high: nat) {
    forall r :: r in a.timeouts ==> TimeoutEntryOk(c, ok, r, a.timeouts[r], high)
  }

  /** Vote makers exist only for current and future rounds; the same is not true of timeout makers. */
  ghost predicate VoteRoundsFrom(a: Aggregator, round: nat) {
    forall p :: p in a.votes ==> p.0 >= round
  }

  ghost predicate AggregatorInv(c: Committee, ok: Evidence, a: Aggregator, round: nat, high: nat) {
    VotesInv(c, ok, a) && TimeoutsInv(c, ok, a, high) && VoteRoundsFrom(a, round)
  }

  lemma CleanupKeeps(c: Committee, ok: Evidence, a: Aggregator, round: nat, high: nat, newRound: nat)
    requires AggregatorInv(c, ok, a, round, high)
    ensures AggregatorInv(c, ok, Cleanup(a, newRound), newRound, high)
  {
    hide VoteEntryOk, TimeoutEntryOk;
  }

  /** Cleaning up forgets exactly the makers of the rounds left behind. */
  lemma CleanupExact(a: Aggregator, round: nat, r: nat, d: Digest)
    ensures VoteMaker(Cleanup(a, round), r, d) == if r >= round then VoteMaker(a, r, d) else NEW_QC_MAKER
    ensures TimeoutMaker(Cleanup(a, round), r) == if r >= round then TimeoutMaker(a, r) else NEW_TC_MAKER
    ensures (r, d) in Cleanup(a, round).votes <==> (r, d) in a.votes && r >= round
    ensures r in Cleanup(a, round).timeouts <==> r in a.timeouts && r >= round
  {
  }

  /** Adding a vote touches the one maker of its round and digest. */
  lemma AddVoteExact(c: Committee, a: Aggregator, v: Vote, r: nat, d: Digest)
    ensures var (a', out) := AddVote(c, a, v);
            var mine := r == v.round && d == VoteDigestOf(v);
            && (mine ==> (VoteMaker(a', r, d), out) == AppendVote(c, VoteMaker(a, r, d), v))
            && (!mine ==> VoteMaker(a', r, d) == VoteMaker(a, r, d))
            && TimeoutMaker(a', r) == TimeoutMaker(a, r)
  {
    hide AppendVote;
  }

  lemma AddTimeoutExact(c: Committee, a: Aggregator, t: Timeout, r: nat, d: Digest)
    ensures var (a', out) := AddTimeout(c, a, t);
            && (r == t.round ==> (TimeoutMaker(a', r), out) == AppendTimeout(c, TimeoutMaker(a, r), t))
            && (r != t.round ==> TimeoutMaker(a', r) == TimeoutMaker(a, r))
            && VoteMaker(a', r, d) == VoteMaker(a, r, d)
  {
    hide AppendTimeout;
  }

  lemma NewEntriesOk(c: Committee, ok: Evidence, hash: Digest, round: nat, high: nat)
    ensures VoteEntryOk(c, ok, round, VoteDigest(hash, round), NEW_QC_MAKER)
    ensures TimeoutEntryOk(c, ok, round, NEW_TC_MAKER, high)
  {
    NewMakersInv(c, hash, round);
  }

  lemma VoteEntryStep(c: Committee, ok: Evidence, m: QcMaker, v: Vote)
    requires Sound(c) && VoteEntryOk(c, ok, v.round, VoteDigestOf(v), m)
    requires ValidVote(c, v) && (v.author, VoteDigestOf(v)) in ok
    ensures var (m', out) := AppendVote(c, m, v);
            && VoteEntryOk(c, ok, v.round, VoteDigestOf(v), m')
            && (out.Made? ==>
                  && out.certificate.hash == v.hash && out.certificate.round == v.round
                  && ValidQC(c, out.certificate) && GenuineQC(ok, out.certificate))
  {
    hide Threshold, Weight, TotalStake, QcMakerInv, ValidQC;
    assert QcMakerInv(c, m, v.hash, v.round);
    AppendVoteCorrect(c, m, v);
    var m' := AppendVote(c, m, v).0;
    assert forall k :: k in m'.voters ==> k in m.voters || k == v.author;
  }

  lemma TimeoutEntryStep(c: Committee, ok: Evidence, m: TcMaker, t: Timeout, high: nat)
    requires Sound(c) && TimeoutEntryOk(c, ok, t.round, m, high)
    requires ValidTimeout(c, t) && (t.author, TimeoutDigestOf(t)) in ok && t.highQC.round <= high
    ensures var (m', out) := AppendTimeout(c, m, t);
            && TimeoutEntryOk(c, ok, t.round, m', high)
            && (out.Made? ==>
                  && out.certificate.round == t.round
                  && ValidTC(c, out.certificate) && GenuineTC(ok, out.certificate)
                  && forall i :: 0 <= i < |out.certificate.votes| ==> out.certificate.votes[i].round <= high)
  {
    hide Threshold, Weight, TotalStake, TcMakerInv, ValidTC, AcceptableQC;
    AppendTimeoutCorrect(c, m, t);
  }

  lemma AddVoteCorrect(c: Committee, ok: Evidence, a: Aggregator, v: Vote, round: nat, high: nat)
    requires Sound(c) && AggregatorInv(c, ok, a, round, high) && v.round >= round
    requires ValidVote(c, v) && (v.author, VoteDigestOf(v)) in ok
    ensures var (a', out) := AddVote(c, a, v);
            && AggregatorInv(c, ok, a', round, high)
            && (out.Made? ==>
                  && out.certificate.hash == v.hash && out.certificate.round == v.round
                  && ValidQC(c, out.certificate) && GenuineQC(ok, out.certificate))
  {
    hide Sound, AppendVote, VoteEntryOk, TimeoutEntryOk, ValidVote, ValidQC, GenuineQC;
    NewEntriesOk(c, ok, v.hash, v.round, high);
    VoteEntryStep(c, ok, VoteMaker(a, v.round, VoteDigestOf(v)), v);
  }

  lemma AddTimeoutCorrect(c: Committee, ok: Evidence, a: Aggregator, t: Timeout, round: nat, high: nat)
    requires Sound(c) && AggregatorInv(c, ok, a, round, high)
    requires ValidTimeout(c, t) && (t.author, TimeoutDigestOf(t)) in ok && t.highQC.round <= high
    ensures var (a', out) := AddTimeout(c, a, t);
            && AggregatorInv(c, ok, a', round, high)
            && (out.Made? ==>
                  && out.certificate.round == t.round
                  && ValidTC(c, out.certificate) && GenuineTC(ok, out.certificate)
                  && forall i :: 0 <= i < |out.certificate.votes| ==> out.certificate.votes[i].round <= high)
  {
    hide Sound, AppendTimeout, VoteEntryOk, TimeoutEntryOk, ValidTimeout, ValidTC, GenuineTC;
    NewEntriesOk(c, ok, Zero, t.round, high);
    TimeoutEntryStep(c, ok, TimeoutMaker(a, t.round), t, high);
  }

  /** Everything above survives when more is signed and higher certificates become known. */
  lemma AggregatorGrows(c: Committee, ok: Evidence, ok': Evidence, a: Aggregator, round: nat, high: nat, high': nat)
    requires AggregatorInv(c, ok, a, round, high) && ok <= ok' && high <= high'
    ensures AggregatorInv(c, ok', a, round, high')
  {
    forall p | p in a.votes ensures VoteEntryOk(c, ok', p.0, p.1, a.votes[p]) {
      assert VoteEntryOk(c, ok, p.0, p.1, a.votes[p]);
    }
    forall r | r in a.timeouts ensures TimeoutEntryOk(c, ok', r, a.timeouts[r], high') {
      assert TimeoutEntryOk(c, ok, r, a.timeouts[r], high);
    }
  }
}
