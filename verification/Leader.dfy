/** Round-robin leader election (consensus/leader.go). */
module LeaderElection {
  import opened Committees

  ghost predicate Ascending(keys: seq<Key>) {
    forall i, j :: 0 <= i < j < |keys| ==> keys[i] < keys[j]
  }

  ghost predicate ListsKeys(keys: seq<Key>, names: set<Key>) {
    |keys| == |names| && (forall k :: k in keys <==> k in names)
  }

  predicate IsLeast(names: set<Key>, k: Key) {
    k in names && forall x :: x in names ==> k <= x
  }

  ghost function Least(names: set<Key>): (k: Key)
    requires names != {}
    ensures IsLeast(names, k)
  {
    LeastExists(names);
    var k :| IsLeast(names, k); k
  }

  lemma {:induction false} LeastExists(names: set<Key>)
    requires names != {}
    ensures exists k :: IsLeast(names, k)
    decreases |names|
  {
    var p :| p in names;
    if names == {p} {
      assert IsLeast(names, p);
    } else {
      LeastExists(names - {p});
      var k :| IsLeast(names - {p}, k);
      assert forall x :: x in names ==> x == p || x in names - {p};
      assert IsLeast(names, if p <= k then p else k);
    }
  }

  /** The authorities in key order. */
  ghost function SortedKeys(names: set<Key>): (keys: seq<Key>)
    ensures Ascending(keys) && ListsKeys(keys, names)
    decreases |names|
  {
    if names == {} then [] else
      var k := Least(names);
      [k] + SortedKeys(names - {k})
  }

  /** The leader of a round; the source fails on an empty committee. */
  ghost function Leader(c: Committee, round: nat): Key {
    var keys := SortedKeys(c.authorities.Keys);
    if |keys| == 0 then 0 else keys[round % |keys|]
  }

  lemma TailOf(keys: seq<Key>)
    requires Ascending(keys) && keys != []
    ensures Ascending(keys[1..]) && forall k :: k in keys[1..] <==> k in keys && k != keys[0]
    ensures forall k :: k in keys ==> keys[0] <= k
  {
    assert keys == [keys[0]] + keys[1..];
  }

  /** Whatever order the keys were collected in, sorting them gives the same list. */
  lemma {:induction false} AscendingIsUnique(keys: seq<Key>, keys': seq<Key>)
    requires Ascending(keys) && Ascending(keys') && |keys| == |keys'|
    requires forall k :: k in keys <==> k in keys'
    ensures keys == keys'
    decreases |keys|
  {
    hide Ascending;
    if keys != [] {
      TailOf(keys);
      TailOf(keys');
      assert keys[0] in keys && keys'[0] in keys';
      AscendingIsUnique(keys[1..], keys'[1..]);
      assert keys == [keys[0]] + keys[1..];
    }
  }

  lemma MulGrows(n: nat, d: nat)
    requires d >= 1
    ensures n * d >= n
  {
    assert n * d == n * (d - 1) + n;
  }

  /** Division with remainder is unique. */
  lemma DivUnique(n: nat, q: nat, i: nat, q': nat, i': nat)
    requires n * q + i == n * q' + i' && i < n && i' < n
    ensures i == i'
  {
    if q < q' {
      assert n * (q' - q) == n * q' - n * q;
      MulGrows(n, q' - q);
    } else if q' < q {
      assert n * (q - q') == n * q - n * q';
      MulGrows(n, q - q');
    }
  }

  lemma SlotValue(n: nat, q: nat, i: nat)
    requires i < n
    ensures (n * q + i) % n == i
  {
    var v := n * q + i;
    DivUnique(n, q, i, v / n, v % n);
  }

  lemma SlotUnique(n: nat, start: nat, r: nat, r': nat)
    requires start <= r < start + n && start <= r' < start + n && r % n == r' % n
    ensures r == r'
  {
    var d := r / n - r' / n;
    assert r - r' == n * d by {
      assert r == n * (r / n) + r % n;
      assert r' == n * (r' / n) + r' % n;
    }
    if d >= 1 {
      MulGrows(n, d);
    } else if d <= -1 {
      assert n * d == -(n * (-d));
      MulGrows(n, -d);
    }
  }

  ghost function Members(keys: seq<Key>): set<Key> { set i | 0 <= i < |keys| :: keys[i] }

  lemma {:induction false} CountMembers(keys: seq<Key>)
    requires Ascending(keys)
    ensures |Members(keys)| == |keys|
    decreases |keys|
  {
    if keys != [] {
      var front, last := keys[..|keys| - 1], keys[|keys| - 1];
      CountMembers(front);
      MembersSnoc(front, last);
      assert keys == front + [last];
      assert last !in Members(front);
    }
  }

  lemma MembersSnoc(front: seq<Key>, last: Key)
    ensures Members(front + [last]) == Members(front) + {last}
  {
    var keys := front + [last];
    assert keys[|front|] == last;
    forall k | k in Members(front) ensures k in Members(keys) {
      var i :| 0 <= i < |front| && front[i] == k;
      assert keys[i] == k;
    }
  }

  /** The authorities with a smaller key. */
  ghost function Below(names: set<Key>, k: Key): set<Key> { set x | x in names && x < k }

  lemma BelowIsPrefix(keys: seq<Key>, names: set<Key>, i: nat)
    requires Ascending(keys) && ListsKeys(keys, names) && i < |keys|
    ensures Below(names, keys[i]) == Members(keys[..i])
  {
    forall k | k in Below(names, keys[i]) ensures k in Members(keys[..i]) {
      assert k in keys;
      var j :| 0 <= j < |keys| && keys[j] == k;
      assert j < i;
      assert keys[..i][j] == k;
    }
    forall k | k in Members(keys[..i]) ensures k in Below(names, keys[i]) {
      var j :| 0 <= j < i && keys[..i][j] == k;
      assert keys[j] == k && keys[j] in keys;
    }
  }

  /** The leader has as many smaller authorities as the round leaves modulo their number. */
  lemma LeaderRank(c: Committee, round: nat)
    requires c.authorities.Keys != {}
    ensures Leader(c, round) in c.authorities
    ensures |Below(c.authorities.Keys, Leader(c, round))| == round % |c.authorities|
  {
    hide Below, Members;
    var keys := SortedKeys(c.authorities.Keys);
    var i := round % |keys|;
    assert keys[i] in keys;
    BelowIsPrefix(keys, c.authorities.Keys, i);
    CountMembers(keys[..i]);
  }

  /** In any window of as many rounds as there are authorities, every authority leads exactly once. */
  lemma RoundRobin(c: Committee, start: nat, name: Key) returns (round: nat)
    requires name in c.authorities
    ensures start <= round < start + |c.authorities|
    ensures Leader(c, round) == name
    ensures forall r :: start <= r < start + |c.authorities| && Leader(c, r) == name ==> r == round
  {
    var keys := SortedKeys(c.authorities.Keys);
    var n := |keys|;
    var i :| 0 <= i < n && keys[i] == name;
    round := SlotInWindow(start, n, i);
    forall r | start <= r < start + n && Leader(c, r) == name ensures r == round {
      assert keys[r % n] == keys[i];
      SlotUnique(n, start, r, round);
    }
  }

  lemma SlotInWindow(start: nat, n: nat, i: nat) returns (round: nat)
    requires i < n
    ensures start <= round < start + n && round % n == i
  {
    var base := start % n;
    round := if i >= base then start + (i - base) else start + (n - base + i);
    var q := start / n;
    assert start == n * q + base;
    if i >= base {
      SlotValue(n, q, i);
    } else {
      SlotValue(n, q + 1, i);
      assert n * (q + 1) == n * q + n;
    }
  }

  lemma InsertionKeepsMembers(keys: seq<Key>, at: nat, k: Key)
    requires at <= |keys|
    ensures forall x :: x in keys[..at] + [k] + keys[at..] <==> x in keys || x == k
  {
    assert keys == keys[..at] + keys[at..];
  }

  /** One insertion: everything before `at` is smaller, everything from `at` on larger. */
  lemma InsertionKeepsOrder(keys: seq<Key>, at: nat, k: Key)
    requires Ascending(keys) && at <= |keys| && k !in keys
    requires forall j :: 0 <= j < at ==> keys[j] < k
    requires at < |keys| ==> keys[at] >= k
    ensures Ascending(keys[..at] + [k] + keys[at..])
    ensures forall x :: x in keys[..at] + [k] + keys[at..] <==> x in keys || x == k
  {
    InsertionKeepsMembers(keys, at, k);
    var longer := keys[..at] + [k] + keys[at..];
    forall i, j | 0 <= i < j < |longer| ensures longer[i] < longer[j] {
      assert longer[i] == if i < at then keys[i] else if i == at then k else keys[i - 1];
      assert longer[j] == if j < at then keys[j] else if j == at then k else keys[j - 1];
      assert at < |keys| ==> keys[at] != k;
    }
  }

  /** Insertion sort stands for slices.SortStableFunc. */
  method SortKeys(keys: seq<Key>) returns (sorted: seq<Key>)
    requires forall i, j :: 0 <= i < j < |keys| ==> keys[i] != keys[j]
    ensures Ascending(sorted) && |sorted| == |keys|
    ensures forall k :: k in sorted <==> k in keys
  {
    hide Ascending;
    sorted := [];
    assert Ascending(sorted) by { EmptyAscends(); }
    for i := 0 to |keys|
      invariant Ascending(sorted) && |sorted| == i
      invariant forall k :: k in sorted <==> k in keys[..i]
    {
      var at := 0;
      while at < |sorted| && sorted[at] < keys[i]
        invariant 0 <= at <= |sorted|
        invariant forall j :: 0 <= j < at ==> sorted[j] < keys[i]
      {
        at := at + 1;
      }
      assert keys[i] !in keys[..i];
      InsertionKeepsOrder(sorted, at, keys[i]);
      sorted := sorted[..at] + [keys[i]] + sorted[at..];
      assert keys[..i + 1] == keys[..i] + [keys[i]];
    }
    assert keys[..|keys|] == keys;
  }

  lemma EmptyAscends()
    ensures Ascending([])
  {
  }

  /** getLeader: collect the keys in map order, sort them, index by the round. */
  method GetLeader(c: Committee, round: nat) returns (leader: Key)
    requires c.authorities.Keys != {}
    ensures leader == Leader(c, round)
  {
    var keys: seq<Key> := [];
    var rest := c.authorities.Keys;
    while rest != {}
      invariant rest <= c.authorities.Keys
      invariant |keys| + |rest| == |c.authorities.Keys|
      invariant forall k :: k in keys <==> k in c.authorities.Keys - rest
      invariant forall i, j :: 0 <= i < j < |keys| ==> keys[i] != keys[j]
      decreases rest
    {
      var k :| k in rest;
      keys := keys + [k];
      rest := rest - {k};
    }
    var sorted := SortKeys(keys);
    AscendingIsUnique(sorted, SortedKeys(c.authorities.Keys));
    leader := sorted[round % |sorted|];
  }
}
