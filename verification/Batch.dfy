/** The batch codec and the batch maker (mempool/batchmaker.go). */
module Batches {
  import opened Encoding

  type Transaction = Bytes
  type Batch = seq<Transaction>

  datatype Decoded = Batch(batch: Batch) | Invalid

  /** Lengths are written as uint64; a Go slice is never longer. */
  ghost predicate Encodable(batch: Batch) {
    forall i :: 0 <= i < |batch| ==> |batch[i]| < U64_RANGE
  }

  function Encode(batch: Batch): Bytes {
    if batch == [] then [] else Word(|batch[0]|) + batch[0] + Encode(batch[1..])
  }

  function Decode(data: Bytes): Decoded
    decreases |data|
  {
    if data == [] then Batch([])
    else if |data| < 8 then Invalid
    else
      var length := Number(data[..8]);
      if length > |data| - 8 then Invalid
      else
        match Decode(data[8 + length..])
        case Invalid => Invalid
        case Batch(rest) => Batch([data[8..8 + length]] + rest)
  }

  /** Decoding undoes encoding, on every batch. */
  lemma {:induction false} DecodeEncode(batch: Batch)
    requires Encodable(batch)
    ensures Decode(Encode(batch)) == Batch(batch)
    decreases |batch|
  {
    if batch != [] {
      var tx, rest := batch[0], batch[1..];
      var data := Encode(batch);
      NumberOfWord(|tx|);
      assert data[..8] == Word(|tx|);
      assert data[8..8 + |tx|] == tx;
      assert data[8 + |tx|..] == Encode(rest);
      DecodeEncode(rest);
      assert batch == [tx] + rest;
    }
  }

  /** Whatever is accepted is exactly one encoding: accepted bytes re-encode to themselves. */
  lemma {:induction false} EncodeDecode(data: Bytes)
    requires Decode(data).Batch?
    ensures Encode(Decode(data).batch) == data
    ensures Encodable(Decode(data).batch)
    decreases |data|
  {
    hide Number, Word;
    if data != [] {
      var length := Number(data[..8]);
      var tx, tail := data[8..8 + length], data[8 + length..];
      WordOfNumber(data[..8]);
      EncodeDecode(tail);
      EncodeCons(tx, Decode(tail).batch);
      assert data == data[..8] + tx + tail;
    }
  }

  lemma EncodeCons(tx: Transaction, rest: Batch)
    requires |tx| < U64_RANGE && Encodable(rest)
    ensures Encode([tx] + rest) == Word(|tx|) + tx + Encode(rest) && Encodable([tx] + rest)
  {
    assert ([tx] + rest)[1..] == rest;
  }

  lemma {:induction false} EncodeSnoc(batch: Batch, tx: Transaction)
    ensures Encode(batch + [tx]) == Encode(batch) + (Word(|tx|) + tx)
    decreases |batch|
  {
    if batch == [] {
      assert ([tx])[1..] == [];
      assert batch + [tx] == [tx];
    } else {
      EncodeSnoc(batch[1..], tx);
      assert (batch + [tx])[1..] == batch[1..] + [tx];
    }
  }

  /** SerializeBatch. */
  method SerializeBatch(batch: Batch) returns (data: Bytes)
    ensures data == Encode(batch)
  {
    data := [];
    for i := 0 to |batch|
      invariant data == Encode(batch[..i])
    {
      EncodeSnoc(batch[..i], batch[i]);
      assert batch[..i + 1] == batch[..i] + [batch[i]];
      data := data + Word(|batch[i]|);
      data := data + batch[i];
    }
    assert batch[..|batch|] == batch;
  }

  /** One turn of the reader at position `at`. */
  lemma ReaderStep(data: Bytes, at: nat, batch: Batch)
    requires at < |data|
    ensures |data| - at < 8 ==> Decode(data[at..]).Invalid?
    ensures |data| - at >= 8 ==>
              var length := Number(data[at..at + 8]);
              && (length > |data| - at - 8 ==> Decode(data[at..]).Invalid?)
              && (length <= |data| - at - 8 ==>
                    Prepend(batch, Decode(data[at..]))
                    == Prepend(batch + [data[at + 8..at + 8 + length]], Decode(data[at + 8 + length..])))
  {
    hide Number;
    var rest := data[at..];
    if |data| - at >= 8 {
      assert rest[..8] == data[at..at + 8];
      var length := Number(data[at..at + 8]);
      if length <= |data| - at - 8 {
        assert rest[8..8 + length] == data[at + 8..at + 8 + length];
        assert rest[8 + length..] == data[at + 8 + length..];
        PrependSnoc(batch, data[at + 8..at + 8 + length], Decode(data[at + 8 + length..]));
      }
    }
  }

  /** DeserializeBatch: a reader position moving over the bytes. */
  method DeserializeBatch(data: Bytes) returns (r: Decoded)
    ensures r == Decode(data)
  {
    hide Number, Decode;
    var at := 0;
    var batch: Batch := [];
    assert data[0..] == data;
    PrependNothing(Decode(data));
    while at < |data|
      invariant 0 <= at <= |data|
      invariant Decode(data) == Prepend(batch, Decode(data[at..]))
    {
      ReaderStep(data, at, batch);
      if |data| - at < 8 {
        return Invalid;
      }
      var length := Number(data[at..at + 8]);
      if length > |data| - at - 8 {
        return Invalid;
      }
      batch := batch + [data[at + 8..at + 8 + length]];
      at := at + 8 + length;
    }
    assert data[at..] == [];
    DecodeNothing();
    assert batch + [] == batch;
    return Batch(batch);
  }

  lemma PrependNothing(r: Decoded)
    ensures Prepend([], r) == r
  {
  }

  lemma DecodeNothing()
    ensures Decode([]) == Batch([])
  {
  }

  function Prepend(batch: Batch, r: Decoded): Decoded {
    if r.Invalid? then Invalid else Batch(batch + r.batch)
  }

  lemma PrependSnoc(batch: Batch, tx: Transaction, r: Decoded)
    ensures Prepend(batch, Prepend([tx], r)) == Prepend(batch + [tx], r)
  {
    if r.Batch? {
      assert batch + ([tx] + r.batch) == batch + [tx] + r.batch;
    }
  }

  // ----- the maker -----

  datatype Maker = Maker(current: Batch, size: nat, sealed: seq<Bytes>)

  datatype Input = Received(tx: Transaction) | TimerFired

  function Seal(m: Maker): Maker {
    m.(current := [], sealed := m.sealed + [Encode(m.current)])
  }

  /** One turn of the loop. Sealing does not reset the size, which wraps as a uint64. */
  function Turn(batchSize: nat, m: Maker, i: Input): Maker {
    match i
    case Received(tx) =>
      var grown := m.(size := (m.size + |tx|) % U64_RANGE, current := m.current + [tx]);
      if grown.size >= batchSize then Seal(grown) else grown
    case TimerFired =>
      if m.current == [] then m else Seal(m)
  }

  function Run(batchSize: nat, inputs: seq<Input>): Maker {
    if inputs == [] then Maker([], 0, [])
    else Turn(batchSize, Run(batchSize, inputs[..|inputs| - 1]), inputs[|inputs| - 1])
  }

  function Transactions(inputs: seq<Input>): seq<Transaction> {
    if inputs == [] then []
    else
      var last := inputs[|inputs| - 1];
      Transactions(inputs[..|inputs| - 1]) + (if last.Received? then [last.tx] else [])
  }

  /** All transactions of a list of sealed batches, as a receiver decodes them. */
  function Unsealed(sealed: seq<Bytes>): seq<Transaction> {
    if sealed == [] then []
    else
      Unsealed(sealed[..|sealed| - 1])
      + (if Decode(sealed[|sealed| - 1]).Batch? then Decode(sealed[|sealed| - 1]).batch else [])
  }

  ghost predicate SealedOk(sealed: seq<Bytes>) {
    forall i :: 0 <= i < |sealed| ==> Decode(sealed[i]).Batch? && Decode(sealed[i]).batch != []
  }

  ghost predicate InputsOk(inputs: seq<Input>) {
    forall i :: 0 <= i < |inputs| && inputs[i].Received? ==> |inputs[i].tx| < U64_RANGE
  }

  lemma SealKeeps(m: Maker)
    requires SealedOk(m.sealed) && Encodable(m.current) && m.current != []
    ensures SealedOk(Seal(m).sealed)
    ensures Unsealed(Seal(m).sealed) + Seal(m).current == Unsealed(m.sealed) + m.current
  {
    DecodeEncode(m.current);
    var sealed := Seal(m).sealed;
    assert sealed[..|sealed| - 1] == m.sealed;
  }

  /** Over any run, receivers of the sealed batches get every transaction once and in order, except
      those still in the current batch; and no sealed batch is empty. */
  lemma {:induction false} NothingLostOrDuplicated(batchSize: nat, inputs: seq<Input>)
    requires InputsOk(inputs)
    ensures var m := Run(batchSize, inputs);
            && SealedOk(m.sealed) && Encodable(m.current)
            && Unsealed(m.sealed) + m.current == Transactions(inputs)
    decreases |inputs|
  {
    if inputs != [] {
      var front, last := inputs[..|inputs| - 1], inputs[|inputs| - 1];
      NothingLostOrDuplicated(batchSize, front);
      var m := Run(batchSize, front);
      if last.Received? {
        var grown := m.(size := (m.size + |last.tx|) % U64_RANGE, current := m.current + [last.tx]);
        assert Unsealed(m.sealed) + grown.current == Unsealed(m.sealed) + m.current + [last.tx];
        SealKeeps(grown);
      } else if m.current != [] {
        SealKeeps(m);
      }
    }
  }

  /** All bytes received so far. */
  function TotalBytes(inputs: seq<Input>): nat {
    if inputs == [] then 0
    else
      var last := inputs[|inputs| - 1];
      TotalBytes(inputs[..|inputs| - 1]) + (if last.Received? then |last.tx| else 0)
  }

  /** The size never goes back: it is the number of bytes received since the start, as a uint64. */
  lemma {:induction false} SizeIsTotal(batchSize: nat, inputs: seq<Input>)
    ensures Run(batchSize, inputs).size == TotalBytes(inputs) % U64_RANGE
    decreases |inputs|
  {
    if inputs != [] {
      var front, last := inputs[..|inputs| - 1], inputs[|inputs| - 1];
      SizeIsTotal(batchSize, front);
      if last.Received? {
        var total := TotalBytes(front);
        assert total == U64_RANGE * (total / U64_RANGE) + total % U64_RANGE;
        assert (total % U64_RANGE + |last.tx|) % U64_RANGE == (total + |last.tx|) % U64_RANGE;
      }
    }
  }

  /** When batches are sealed, in terms of what was received: the timer seals whatever is there, and a
      transaction seals exactly if all bytes ever received, as a uint64, reach the batch size. So
      from then on, until the count wraps, every transaction is sealed as it comes. */
  lemma SealedWhen(batchSize: nat, inputs: seq<Input>, i: Input)
    ensures var m, m' := Run(batchSize, inputs), Run(batchSize, inputs + [i]);
            var seals := if i.Received? then TotalBytes(inputs + [i]) % U64_RANGE >= batchSize else m.current != [];
            var current := m.current + (if i.Received? then [i.tx] else []);
            if seals then m'.current == [] && |m'.sealed| == |m.sealed| + 1 && m'.sealed[..|m.sealed|] == m.sealed
                          && m'.sealed[|m.sealed|] == Encode(current)
            else m'.current == current && m'.sealed == m.sealed
  {
    hide Encode;
    assert (inputs + [i])[..|inputs|] == inputs;
    SizeIsTotal(batchSize, inputs + [i]);
    assert Run(batchSize, inputs).current + [] == Run(batchSize, inputs).current;
  }

  /** The maker as the mempool runs it. */
  class BatchMaker {
    const batchSize: nat
    var currentBatch: Batch
    var currentBatchSize: nat
    var sealed: seq<Bytes>  // sent to the quorum waiter

    ghost function View(): Maker
      reads this
    {
      Maker(currentBatch, currentBatchSize, sealed)
    }

    constructor (batchSize: nat)
      ensures this.batchSize == batchSize && View() == Run(batchSize, [])
    {
      this.batchSize := batchSize;
      currentBatch, currentBatchSize, sealed := [], 0, [];
    }

    method SealBatch()
      modifies this
      ensures View() == Seal(old(View()))
    {
      var data := SerializeBatch(currentBatch);
      currentBatch := [];
      sealed := sealed + [data];
    }

    /** One select of the run loop. */
    method Handle(i: Input)
      modifies this
      ensures View() == Turn(batchSize, old(View()), i)
    {
      match i
      case Received(tx) =>
        currentBatchSize := (currentBatchSize + |tx|) % U64_RANGE;
        currentBatch := currentBatch + [tx];
        if currentBatchSize >= batchSize {
          SealBatch();
        }
      case TimerFired =>
        if |currentBatch| != 0 {
          SealBatch();
        }
    }
  }
}
