/** Stake-weighted committees (consensus/config.go): 32-bit stake arithmetic, the quorum
    threshold, and the intersection property every safety argument rests on. */
module Committees {

  /** A 48-byte public key, read as a big-endian number: on keys of equal length the byte-wise
      order used by the node is the numeric order. */
  type Key = nat

  const U32_RANGE: int := 0x1_0000_0000

  /** A stake is a uint32. */
  type Stake = x: int | 0 <= x < 0x1_0000_0000

  datatype Committee = Committee(authorities: map<Key, Stake>) {
    function StakeOf(name: Key): Stake {
      if name in authorities then authorities[name] else 0
    }
  }

  /** uint32 addition wraps around. */
  function AddStake(a: Stake, b: Stake): Stake {
    (a + b) % U32_RANGE
  }

  ghost function Pick(s: set<Key>): (k: Key)
    requires s != {}
    ensures k in s
  {
    var k :| k in s; k
  }

  /** The exact (unbounded) stake of a set of names; unknown names weigh nothing. */
  ghost function Weight(c: Committee, s: set<Key>): nat {
    if s == {} then 0 else var k := Pick(s); c.StakeOf(k) + Weight(c, s - {k})
  }

  ghost function TotalStake(c: Committee): nat {
    Weight(c, c.authorities.Keys)
  }

  /** What the node computes, wrap-around included. */
  ghost function Threshold(c: Committee): Stake {
    (2 * (TotalStake(c) % U32_RANGE)) % U32_RANGE / 3 + 1
  }

  lemma EmptyWeight(c: Committee)
    ensures Weight(c, {}) == 0
  {
  }

  lemma {:induction false} WeightRemove(c: Committee, s: set<Key>, k: Key)
    requires k in s
    ensures Weight(c, s) == c.StakeOf(k) + Weight(c, s - {k})
    decreases |s|
  {
    var p := Pick(s);
    if p != k {
      WeightRemove(c, s - {p}, k);
      WeightRemove(c, s - {k}, p);
      assert s - {p} - {k} == s - {k} - {p};
    }
  }

  lemma WeightAdd(c: Committee, s: set<Key>, k: Key)
    requires k !in s
    ensures Weight(c, s + {k}) == Weight(c, s) + c.StakeOf(k)
  {
    WeightRemove(c, s + {k}, k);
    assert s + {k} - {k} == s;
  }

  /** Inclusion and exclusion for stake. */
  lemma {:induction false} WeightUnion(c: Committee, a: set<Key>, b: set<Key>)
    ensures Weight(c, a) + Weight(c, b) == Weight(c, a + b) + Weight(c, a * b)
    decreases |b|
  {
    if b == {} {
      assert a + b == a;
      assert a * b == {};
    } else {
      var k := Pick(b);
      var rest := b - {k};
      WeightUnion(c, a, rest);
      if k in a {
        assert a + b == a + rest;
        assert a * b == a * rest + {k};
        WeightAdd(c, a * rest, k);
      } else {
        assert a + b == a + rest + {k};
        assert a * b == a * rest;
        WeightAdd(c, a + rest, k);
      }
    }
  }

  lemma WeightMonotone(c: Committee, a: set<Key>, b: set<Key>)
    requires a <= b
    ensures Weight(c, a) <= Weight(c, b)
  {
    WeightUnion(c, a, b - a);
    assert a + (b - a) == b;
    assert a * (b - a) == {};
  }

  lemma {:induction false} WeightBounded(c: Committee, s: set<Key>)
    ensures Weight(c, s) <= TotalStake(c)
    decreases |s|
  {
    if s <= c.authorities.Keys {
      WeightMonotone(c, s, c.authorities.Keys);
    } else {
      var k :| k in s && k !in c.authorities.Keys;
      WeightRemove(c, s, k);
      WeightBounded(c, s - {k});
    }
  }

  /** The computed threshold is the intended two thirds plus one exactly when the total stake
      stays below 2^31; beyond that the doubling wraps around. */
  lemma ThresholdExact(c: Committee)
    ensures Threshold(c) == 2 * TotalStake(c) / 3 + 1 <==> TotalStake(c) < 0x8000_0000
  {
    var n := TotalStake(c);
    if n >= 0x8000_0000 {
      var doubled := (2 * (n % U32_RANGE)) % U32_RANGE;
      assert doubled % 2 == 0;
      assert doubled <= U32_RANGE - 2;
    }
  }

  /** Committees the protocol is meant for: the total stake does not overflow. */
  ghost predicate Sound(c: Committee) {
    TotalStake(c) < 0x8000_0000
  }

  /** A set of names that the node's own counting accepts as a quorum. */
  ghost predicate IsQuorum(c: Committee, s: set<Key>) {
    Weight(c, s) >= Threshold(c)
  }

  lemma ThresholdReachable(c: Committee)
    requires Sound(c) && TotalStake(c) > 0
    ensures Threshold(c) <= TotalStake(c)
    ensures IsQuorum(c, c.authorities.Keys)
  {
    ThresholdExact(c);
  }

  /** Any two quorums share more stake than a third of the committee can hold. */
  lemma QuorumIntersection(c: Committee, a: set<Key>, b: set<Key>)
    requires Sound(c) && IsQuorum(c, a) && IsQuorum(c, b)
    ensures 3 * Weight(c, a * b) > TotalStake(c)
    ensures Weight(c, a * b) > (TotalStake(c) - 1) / 3
  {
    ThresholdExact(c);
    WeightUnion(c, a, b);
    WeightBounded(c, a + b);
  }

  /** ... so they share a name outside every set holding less than a third. */
  lemma QuorumsShareOutside(c: Committee, a: set<Key>, b: set<Key>, faulty: set<Key>) returns (k: Key)
    requires Sound(c) && IsQuorum(c, a) && IsQuorum(c, b)
    requires 3 * Weight(c, faulty) < TotalStake(c)
    ensures k in a && k in b && k !in faulty
  {
    QuorumIntersection(c, a, b);
    if a * b <= faulty {
      WeightMonotone(c, a * b, faulty);
      assert false;
    }
    k :| k in a * b && k !in faulty;
  }

  /** What is left beside a quorum is not a quorum. */
  lemma RemainderBelowThreshold(c: Committee)
    requires Sound(c)
    ensures TotalStake(c) < 2 * Threshold(c)
  {
    ThresholdExact(c);
  }

  /** Reducing early does not change a wrapped sum. */
  lemma WrappedSum(a: nat, b: nat)
    ensures (a % U32_RANGE + b) % U32_RANGE == (a + b) % U32_RANGE
  {
    assert a == U32_RANGE * (a / U32_RANGE) + a % U32_RANGE;
  }

  /** The loop of the source, visiting the authorities in an arbitrary order. */
  method QuorumThreshold(c: Committee) returns (t: Stake)
    ensures t == Threshold(c)
  {
    var total: Stake := 0;
    var rest := c.authorities.Keys;
    ghost var counted: nat := 0;
    while rest != {}
      invariant rest <= c.authorities.Keys
      invariant counted + Weight(c, rest) == TotalStake(c)
      invariant total == counted % U32_RANGE
      decreases rest
    {
      var k :| k in rest;
      WeightRemove(c, rest, k);
      WrappedSum(counted, c.authorities[k]);
      total := AddStake(total, c.authorities[k]);
      counted := counted + c.authorities[k];
      rest := rest - {k};
    }
    t := (2 * total) % U32_RANGE / 3 + 1;
  }
}
