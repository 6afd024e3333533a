/** The aggregator as the node runs it: makers are objects updated in place, reached through maps. */
module AggregatorObjects {
  import opened Committees
  import opened Messages
  import opened Aggregation

  class QcMakerObject {
    ghost const slot: (nat, Digest)  // the only key that may lead to this maker
    var weight: Stake
    var voters: seq<Key>
    var used: set<Key>
    var sum: multiset<(Key, Digest)>

    ghost function View(): QcMaker
      reads this
    {
      QcMaker(weight, voters, used, sum)
    }

    constructor (ghost slot: (nat, Digest))
      ensures View() == NEW_QC_MAKER && this.slot == slot
    {
      this.slot := slot;
      weight, voters, used, sum := 0, [], {}, multiset{};
    }

    /** qcMaker.append, including what it has already changed when a signature does not decode. */
    method Append(c: Committee, v: Vote) returns (out: Added<QC>)
      modifies this
      ensures (View(), out) == AppendVote(c, old(View()), v)
    {
      if v.author in used {
        return DuplicateAuthor;
      }
      used := used + {v.author};
      voters := voters + [v.author];
      weight := AddStake(weight, c.StakeOf(v.author));
      if v.signature.Undecodable? {
        return MalformedSignature;
      }
      sum := sum + v.signature.parts;
      var threshold := QuorumThreshold(c);
      if weight >= threshold {
        weight := 0;
        return Made(QC(v.hash, v.round, voters, Decoded(sum)));
      }
      return Nothing;
    }
  }

  class TcMakerObject {
    ghost const slot: nat  // the only key that may lead to this maker
    var weight: Stake
    var votes: seq<TimeoutVote>
    var used: set<Key>
    var sum: multiset<(Key, Digest)>

    ghost function View(): TcMaker
      reads this
    {
      TcMaker(weight, votes, used, sum)
    }

    constructor (ghost slot: nat)
      ensures View() == NEW_TC_MAKER && this.slot == slot
    {
      this.slot := slot;
      weight, votes, used, sum := 0, [], {}, multiset{};
    }

    /** tcMaker.append. */
    method Append(c: Committee, t: Timeout) returns (out: Added<TC>)
      modifies this
      ensures (View(), out) == AppendTimeout(c, old(View()), t)
    {
      if t.author in used {
        return DuplicateAuthor;
      }
      used := used + {t.author};
      votes := votes + [TimeoutVote(t.author, t.highQC.round)];
      weight := AddStake(weight, c.StakeOf(t.author));
      if t.signature.Undecodable? {
        return MalformedSignature;
      }
      sum := sum + t.signature.parts;
      var threshold := QuorumThreshold(c);
      if weight >= threshold {
        weight := 0;
        return Made(TC(t.round, votes, Decoded(sum)));
      }
      return Nothing;
    }
  }

  /** voteAggregators: makers by round and vote digest. */
  class VoteTable {
    var makers: map<(nat, Digest), QcMakerObject>
    ghost var repr: set<QcMakerObject>
    ghost var view: map<(nat, Digest), QcMaker>  // the table as a value

    ghost predicate Holds(p: (nat, Digest))
      requires p in makers && p in view
      reads this, repr
    {
      makers[p] in repr && makers[p].slot == p && makers[p].View() == view[p]
    }

    /** No maker is reached through two keys, and the makers hold what the view says. */
    ghost predicate Valid()
      reads this, repr
    {
      makers.Keys == view.Keys && forall p :: p in makers ==> Holds(p)
    }

    constructor ()
      ensures Valid() && view == map[] && repr == {}
    {
      makers, repr, view := map[], {}, map[];
    }

    lemma SameKeys()
      requires Valid()
      ensures makers.Keys == view.Keys
    {
    }

    /** Create the maker for a key that has none. */
    method Create(p: (nat, Digest))
      requires Valid() && p !in makers
      modifies this
      ensures Valid() && fresh(repr - old(repr)) && old(repr) <= repr
      ensures p in makers
      ensures view == old(view)[p := NEW_QC_MAKER]
    {
      var maker := new QcMakerObject(p);
      makers, repr := makers[p := maker], repr + {maker};
      view := view[p := NEW_QC_MAKER];
    }

    method Append(c: Committee, v: Vote) returns (out: Added<QC>)
      requires Valid() && (v.round, VoteDigestOf(v)) in makers
      modifies this, repr
      ensures Valid() && repr == old(repr)
      ensures var p := (v.round, VoteDigestOf(v));
              var (maker, expected) := AppendVote(c, old(view)[p], v);
              view == old(view)[p := maker] && out == expected
    {
      hide AppendVote;
      assert Holds((v.round, VoteDigestOf(v)));
      var maker := makers[(v.round, VoteDigestOf(v))];
      out := maker.Append(c, v);
      view := view[(v.round, VoteDigestOf(v)) := maker.View()];
    }

    /** Look the maker up, create it if there is none, append. */
    method Add(c: Committee, v: Vote) returns (out: Added<QC>)
      requires Valid()
      modifies this, repr
      ensures Valid() && fresh(repr - old(repr))
      ensures var p := (v.round, VoteDigestOf(v));
              var maker := if p in old(view) then old(view)[p] else NEW_QC_MAKER;
              && view == old(view)[(v.round, VoteDigestOf(v)) := AppendVote(c, maker, v).0]
              && out == AppendVote(c, maker, v).1
    {
      hide AppendVote, Valid, Holds;
      SameKeys();
      if (v.round, VoteDigestOf(v)) !in makers {
        Create((v.round, VoteDigestOf(v)));
      }
      out := Append(c, v);
    }

    /** Delete while ranging over the keys. */
    method DropBefore(round: nat)
      requires Valid()
      modifies this
      ensures Valid() && repr == old(repr)
      ensures view == map p | p in old(view) && p.0 >= round :: old(view)[p]
    {
      var keys := makers.Keys;
      while keys != {}
        invariant keys <= old(makers.Keys) && repr == old(repr)
        invariant makers == map p | p in old(makers) && (p.0 >= round || p in keys) :: old(makers)[p]
        invariant view == old(view)
        decreases keys
      {
        var p :| p in keys;
        if p.0 < round {
          makers := makers - {p};
        }
        keys := keys - {p};
      }
      view := map p | p in view && p.0 >= round :: view[p];
    }
  }

  /** timeoutAggregators: makers by round. */
  class TimeoutTable {
    var makers: map<nat, TcMakerObject>
    ghost var repr: set<TcMakerObject>
    ghost var view: map<nat, TcMaker>  // the table as a value

    ghost predicate Holds(r: nat)
      requires r in makers && r in view
      reads this, repr
    {
      makers[r] in repr && makers[r].slot == r && makers[r].View() == view[r]
    }

    /** No maker is reached through two keys, and the makers hold what the view says. */
    ghost predicate Valid()
      reads this, repr
    {
      makers.Keys == view.Keys && forall r :: r in makers ==> Holds(r)
    }

    constructor ()
      ensures Valid() && view == map[] && repr == {}
    {
      makers, repr, view := map[], {}, map[];
    }

    lemma SameKeys()
      requires Valid()
      ensures makers.Keys == view.Keys
    {
    }

    /** Create the maker for a key that has none. */
    method Create(r: nat)
      requires Valid() && r !in makers
      modifies this
      ensures Valid() && fresh(repr - old(repr)) && old(repr) <= repr
      ensures r in makers
      ensures view == old(view)[r := NEW_TC_MAKER]
    {
      var maker := new TcMakerObject(r);
      makers, repr := makers[r := maker], repr + {maker};
      view := view[r := NEW_TC_MAKER];
    }

    method Append(c: Committee, t: Timeout) returns (out: Added<TC>)
      requires Valid() && t.round in makers
      modifies this, repr
      ensures Valid() && repr == old(repr)
      ensures var (maker, expected) := AppendTimeout(c, old(view)[t.round], t);
              view == old(view)[t.round := maker] && out == expected
    {
      hide AppendTimeout;
      assert Holds(t.round);
      var maker := makers[t.round];
      out := maker.Append(c, t);
      view := view[t.round := maker.View()];
    }

    /** Look the maker up, create it if there is none, append. */
    method Add(c: Committee, t: Timeout) returns (out: Added<TC>)
      requires Valid()
      modifies this, repr
      ensures Valid() && fresh(repr - old(repr))
      ensures var maker := if t.round in old(view) then old(view)[t.round] else NEW_TC_MAKER;
              && view == old(view)[t.round := AppendTimeout(c, maker, t).0]
              && out == AppendTimeout(c, maker, t).1
    {
      hide AppendTimeout, Valid, Holds;
      SameKeys();
      if t.round !in makers {
        Create(t.round);
      }
      out := Append(c, t);
    }

    /** Delete while ranging over the keys. */
    method DropBefore(round: nat)
      requires Valid()
      modifies this
      ensures Valid() && repr == old(repr)
      ensures view == map r | r in old(view) && r >= round :: old(view)[r]
    {
      var keys := makers.Keys;
      while keys != {}
        invariant keys <= old(makers.Keys) && repr == old(repr)
        invariant makers == map r | r in old(makers) && (r >= round || r in keys) :: old(makers)[r]
        invariant view == old(view)
        decreases keys
      {
        var r :| r in keys;
        if r < round {
          makers := makers - {r};
        }
        keys := keys - {r};
      }
      view := map r | r in view && r >= round :: view[r];
    }
  }

  class AggregatorObject {
    const votes: VoteTable
    const timeouts: TimeoutTable

    ghost predicate Valid()
      reads this, votes, votes.repr, timeouts, timeouts.repr
    {
      votes.Valid() && timeouts.Valid()
    }

    ghost function View(): Aggregator
      reads this, votes, timeouts
    {
      Aggregator(votes.view, timeouts.view)
    }

    /** Every object whose state belongs to this aggregator. */
    ghost function Repr(): set<object>
      reads votes, timeouts
    {
      {votes, timeouts} + votes.repr + timeouts.repr
    }

    constructor ()
      ensures Valid() && View() == NEW_AGGREGATOR && fresh(Repr())
    {
      votes := new VoteTable();
      timeouts := new TimeoutTable();
    }

    method AddVote(c: Committee, v: Vote) returns (out: Added<QC>)
      requires Valid()
      modifies Repr()
      ensures Valid() && fresh(Repr() - old(Repr()))
      ensures (View(), out) == Aggregation.AddVote(c, old(View()), v)
    {
      hide AppendVote;
      out := votes.Add(c, v);
    }

    method AddTimeout(c: Committee, t: Timeout) returns (out: Added<TC>)
      requires Valid()
      modifies Repr()
      ensures Valid() && fresh(Repr() - old(Repr()))
      ensures (View(), out) == Aggregation.AddTimeout(c, old(View()), t)
    {
      hide AppendTimeout;
      out := timeouts.Add(c, t);
    }

    /** aggregator.cleanup. */
    method DropBefore(round: nat)
      requires Valid()
      modifies Repr()
      ensures Valid() && Repr() == old(Repr())
      ensures View() == Cleanup(old(View()), round)
    {
      votes.DropBefore(round);
      timeouts.DropBefore(round);
    }
  }
}
