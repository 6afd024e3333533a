/** Fixed-width big-endian numbers, and the byte strings the node hashes and signs
    (consensus/messages.go). Module Messages represents a digest by what was hashed; the lemmas
    here say why that loses nothing: no two different signed things have the same bytes. */
module Encoding {

  type Byte = x: int | 0 <= x < 256
  type Bytes = seq<Byte>

  /** The `width` low bytes of a number, most significant first. */
  function BigEndian(n: nat, width: nat): (bytes: Bytes)
    ensures |bytes| == width
  {
    if width == 0 then [] else BigEndian(n / 256, width - 1) + [n % 256]
  }

  function Number(bytes: Bytes): nat {
    if bytes == [] then 0 else 256 * Number(bytes[..|bytes| - 1]) + bytes[|bytes| - 1]
  }

  function Power256(width: nat): nat {
    if width == 0 then 1 else 256 * Power256(width - 1)
  }

  lemma {:induction false} NumberOfBigEndian(n: nat, width: nat)
    requires n < Power256(width)
    ensures Number(BigEndian(n, width)) == n
  {
    if width > 0 {
      NumberOfBigEndian(n / 256, width - 1);
      assert BigEndian(n, width)[..width - 1] == BigEndian(n / 256, width - 1);
    }
  }

  lemma {:induction false} BigEndianOfNumber(bytes: Bytes)
    ensures BigEndian(Number(bytes), |bytes|) == bytes
    ensures Number(bytes) < Power256(|bytes|)
  {
    if bytes != [] {
      var front := bytes[..|bytes| - 1];
      BigEndianOfNumber(front);
      assert Number(bytes) / 256 == Number(front);
      assert bytes == front + [bytes[|bytes| - 1]];
    }
  }

  /** Byte i counts units of 256 to the power of the number of bytes after it. */
  lemma {:induction false} ByteAt(n: nat, width: nat, i: nat)
    requires i < width
    ensures Power256(width - 1 - i) > 0 && BigEndian(n, width)[i] == n / Power256(width - 1 - i) % 256
    decreases width
  {
    if i < width - 1 {
      ByteAt(n / 256, width - 1, i);
      DivTwice(n, Power256(width - 2 - i));
    }
  }

  lemma DivTwice(n: nat, p: nat)
    requires p > 0
    ensures n / 256 / p == n / (256 * p)
  {
    var q, r := n / 256 / p, n / 256 % p;
    assert n / 256 == p * q + r;
    assert n == 256 * (p * q + r) + n % 256;
    assert n == (256 * p) * q + (256 * r + n % 256);
    assert 256 * r + n % 256 < 256 * p;
    QuotientUnique(n, 256 * p, q, 256 * r + n % 256);
  }

  lemma AtLeast(d: nat, k: nat)
    requires k >= 1
    ensures d * k >= d
  {
    assert d * k == d * (k - 1) + d;
  }

  lemma QuotientUnique(n: nat, d: nat, q: nat, r: nat)
    requires d > 0 && n == d * q + r && r < d
    ensures n / d == q
  {
    var other := n / d;
    if other < q {
      assert d * q == d * other + d * (q - other);
      AtLeast(d, q - other);
    } else if q < other {
      assert d * other == d * q + d * (other - q);
      AtLeast(d, other - q);
    }
  }

  const U64_RANGE: nat := 0x1_0000_0000_0000_0000

  lemma EightBytes()
    ensures Power256(8) == U64_RANGE
  {
    assert Power256(4) == 0x1_0000_0000;
    assert Power256(6) == 0x1_0000_0000_0000;
  }

  /** A uint64 written in big-endian order. */
  function Word(n: nat): (bytes: Bytes)
    ensures |bytes| == 8
  {
    BigEndian(n, 8)
  }

  lemma WordInjective(n: nat, m: nat)
    requires n < U64_RANGE && m < U64_RANGE && Word(n) == Word(m)
    ensures n == m
  {
    EightBytes();
    NumberOfBigEndian(n, 8);
    NumberOfBigEndian(m, 8);
  }

  lemma WordOfNumber(bytes: Bytes)
    requires |bytes| == 8
    ensures Word(Number(bytes)) == bytes && Number(bytes) < U64_RANGE
  {
    EightBytes();
    BigEndianOfNumber(bytes);
  }

  lemma NumberOfWord(n: nat)
    requires n < U64_RANGE
    ensures Number(Word(n)) == n
  {
    EightBytes();
    NumberOfBigEndian(n, 8);
  }

  // ----- what is hashed -----

  const KEY_LEN: nat := 48
  const DIGEST_LEN: nat := 32

  function Concat(parts: seq<Bytes>): Bytes {
    if parts == [] then [] else Concat(parts[..|parts| - 1]) + parts[|parts| - 1]
  }

  ghost predicate AreDigests(parts: seq<Bytes>) {
    forall i :: 0 <= i < |parts| ==> |parts[i]| == DIGEST_LEN
  }

  function BlockBytes(author: Bytes, round: nat, payload: seq<Bytes>): Bytes {
    author + Word(round) + Concat(payload)
  }

  function VoteBytes(hash: Bytes, round: nat): Bytes {
    hash + Word(round)
  }

  function TimeoutBytes(round: nat, highRound: nat): Bytes {
    Word(round) + Word(highRound)
  }

  lemma {:induction false} ConcatLength(parts: seq<Bytes>)
    requires AreDigests(parts)
    ensures |Concat(parts)| == DIGEST_LEN * |parts|
  {
    if parts != [] {
      ConcatLength(parts[..|parts| - 1]);
    }
  }

  lemma {:induction false} ConcatInjective(parts: seq<Bytes>, parts': seq<Bytes>)
    requires AreDigests(parts) && AreDigests(parts') && Concat(parts) == Concat(parts')
    ensures parts == parts'
    decreases |parts|
  {
    ConcatLength(parts);
    ConcatLength(parts');
    if parts != [] {
      var front, front' := parts[..|parts| - 1], parts'[..|parts'| - 1];
      var last, last' := parts[|parts| - 1], parts'[|parts'| - 1];
      assert last == Concat(parts)[|Concat(parts)| - DIGEST_LEN..];
      assert last' == Concat(parts')[|Concat(parts')| - DIGEST_LEN..];
      assert Concat(front) == Concat(parts)[..|Concat(parts)| - DIGEST_LEN];
      assert Concat(front') == Concat(parts')[..|Concat(parts')| - DIGEST_LEN];
      ConcatInjective(front, front');
      assert parts == front + [last] && parts' == front' + [last'];
    }
  }

  /** Where each field stands: author, round and payload digests of a block, hash and round of a vote,
      round and certificate round of a timeout. */
  lemma Layouts(author: Bytes, round: nat, payload: seq<Bytes>, i: nat, hash: Bytes, high: nat)
    requires |author| == KEY_LEN && AreDigests(payload) && i < |payload| && |hash| == DIGEST_LEN
    ensures var bytes, at := BlockBytes(author, round, payload), KEY_LEN + 8 + DIGEST_LEN * i;
            && |bytes| == KEY_LEN + 8 + DIGEST_LEN * |payload|
            && bytes[..KEY_LEN] == author && bytes[KEY_LEN..KEY_LEN + 8] == Word(round)
            && bytes[at..at + DIGEST_LEN] == payload[i]
    ensures VoteBytes(hash, round)[..DIGEST_LEN] == hash && VoteBytes(hash, round)[DIGEST_LEN..] == Word(round)
    ensures TimeoutBytes(round, high)[..8] == Word(round) && TimeoutBytes(round, high)[8..] == Word(high)
  {
    hide Word, Concat;
    ConcatLength(payload);
    ConcatAt(payload, i);
    var bytes, at := BlockBytes(author, round, payload), KEY_LEN + 8 + DIGEST_LEN * i;
    assert bytes[KEY_LEN + 8..] == Concat(payload);
    assert bytes[at..at + DIGEST_LEN] == Concat(payload)[DIGEST_LEN * i..DIGEST_LEN * i + DIGEST_LEN];
  }

  lemma {:induction false} ConcatAt(parts: seq<Bytes>, i: nat)
    requires AreDigests(parts) && i < |parts|
    ensures |Concat(parts)| == DIGEST_LEN * |parts|
    ensures Concat(parts)[DIGEST_LEN * i..DIGEST_LEN * i + DIGEST_LEN] == parts[i]
    decreases |parts|
  {
    ConcatLength(parts);
    var front := parts[..|parts| - 1];
    ConcatLength(front);
    if i < |front| {
      ConcatAt(front, i);
    }
  }

  /** Equal block bytes: equal author, round and payload (and nothing about certificates). */
  lemma BlockBytesInjective(author: Bytes, round: nat, payload: seq<Bytes>, author': Bytes, round': nat,
                            payload': seq<Bytes>)
    requires |author| == KEY_LEN && |author'| == KEY_LEN && AreDigests(payload) && AreDigests(payload')
    requires round < U64_RANGE && round' < U64_RANGE
    requires BlockBytes(author, round, payload) == BlockBytes(author', round', payload')
    ensures author == author' && round == round' && payload == payload'
  {
    var bytes := BlockBytes(author, round, payload);
    assert author == bytes[..KEY_LEN] == author';
    assert Word(round) == bytes[KEY_LEN..KEY_LEN + 8] == Word(round');
    assert Concat(payload) == bytes[KEY_LEN + 8..] == Concat(payload');
    WordInjective(round, round');
    ConcatInjective(payload, payload');
  }

  lemma VoteBytesInjective(hash: Bytes, round: nat, hash': Bytes, round': nat)
    requires |hash| == DIGEST_LEN && |hash'| == DIGEST_LEN && round < U64_RANGE && round' < U64_RANGE
    requires VoteBytes(hash, round) == VoteBytes(hash', round')
    ensures hash == hash' && round == round'
  {
    var bytes := VoteBytes(hash, round);
    assert hash == bytes[..DIGEST_LEN] == hash';
    assert Word(round) == bytes[DIGEST_LEN..] == Word(round');
    WordInjective(round, round');
  }

  lemma TimeoutBytesInjective(round: nat, high: nat, round': nat, high': nat)
    requires round < U64_RANGE && round' < U64_RANGE && high < U64_RANGE && high' < U64_RANGE
    requires TimeoutBytes(round, high) == TimeoutBytes(round', high')
    ensures round == round' && high == high'
  {
    var bytes := TimeoutBytes(round, high);
    assert Word(round) == bytes[..8] == Word(round');
    assert Word(high) == bytes[8..] == Word(high');
    WordInjective(round, round');
    WordInjective(high, high');
  }

  /** A signature over one kind of message can never be replayed as another kind. */
  lemma KindsDisjoint(author: Bytes, blockRound: nat, payload: seq<Bytes>, hash: Bytes, voteRound: nat, round: nat,
                      high: nat)
    requires |author| == KEY_LEN && AreDigests(payload) && |hash| == DIGEST_LEN
    ensures BlockBytes(author, blockRound, payload) != VoteBytes(hash, voteRound)
    ensures BlockBytes(author, blockRound, payload) != TimeoutBytes(round, high)
    ensures VoteBytes(hash, voteRound) != TimeoutBytes(round, high)
  {
    ConcatLength(payload);
    assert |BlockBytes(author, blockRound, payload)| >= 56;
    assert |VoteBytes(hash, voteRound)| == 40;
    assert |TimeoutBytes(round, high)| == 16;
  }
}
