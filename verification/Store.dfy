/** The key-value store with notify-read obligations (store/store.go). Keys are digests, of blocks or
    batches, as in every use of the store. A response channel is named by the position of the
    command that created it. */
module Stores {
  import opened Encoding
  import opened Messages

  datatype Command =
    | Write(key: Digest, value: Bytes)
    | Read(key: Digest)
    | NotifyRead(key: Digest)
    | Close

  /** None is the not-found error. */
  datatype Answer = Answer(channel: nat, result: Option<Bytes>)

  datatype Store = Store(db: map<Digest, Bytes>, obligations: map<Digest, seq<nat>>, sent: seq<Answer>, open: bool)

  function Lookup(db: map<Digest, Bytes>, key: Digest): Option<Bytes> {
    if key in db then Some(db[key]) else None
  }

  function Waiters(s: Store, key: Digest): seq<nat> {
    if key in s.obligations then s.obligations[key] else []
  }

  function Notify(waiters: seq<nat>, value: Bytes): seq<Answer> {
    seq(|waiters|, i requires 0 <= i < |waiters| => Answer(waiters[i], Some(value)))
  }

  /** One command, as the loop treats it. */
  function Execute(s: Store, channel: nat, c: Command): Store {
    if !s.open then s else
      match c
      case Write(key, value) =>
        s.(db := s.db[key := value], obligations := s.obligations - {key},
           sent := s.sent + Notify(Waiters(s, key), value))
      case Read(key) =>
        s.(sent := s.sent + [Answer(channel, Lookup(s.db, key))])
      case NotifyRead(key) =>
        if key in s.db then s.(sent := s.sent + [Answer(channel, Some(s.db[key]))])
        else s.(obligations := s.obligations[key := Waiters(s, key) + [channel]])
      case Close => s.(open := false)
  }

  const EMPTY: Store := Store(map[], map[], [], true)

  function After(cs: seq<Command>, n: nat): Store
    requires n <= |cs|
  {
    if n == 0 then EMPTY else Execute(After(cs, n - 1), n - 1, cs[n - 1])
  }

  // ----- what callers are owed, in terms of the commands alone -----

  function LastWrite(cs: seq<Command>, n: nat, key: Digest): Option<Bytes>
    requires n <= |cs|
  {
    if n == 0 then None
    else if cs[n - 1].Write? && cs[n - 1].key == key then Some(cs[n - 1].value)
    else LastWrite(cs, n - 1, key)
  }

  function FirstWrite(cs: seq<Command>, from: nat, n: nat, key: Digest): Option<Bytes>
    requires n <= |cs|
    decreases n - from
  {
    if from >= n then None
    else if cs[from].Write? && cs[from].key == key then Some(cs[from].value)
    else FirstWrite(cs, from + 1, n, key)
  }

  /** Everything the caller of command `c` should have received once `n` commands ran: a read is
      answered at once; a notify-read with the value current at its time or, failing that, with the
      first value written afterwards. */
  function Owed(cs: seq<Command>, n: nat, c: nat): seq<Option<Bytes>>
    requires n <= |cs|
  {
    if c >= n then []
    else
      match cs[c]
      case Read(key) => [LastWrite(cs, c, key)]
      case NotifyRead(key) =>
        if LastWrite(cs, c, key).Some? then [LastWrite(cs, c, key)]
        else if FirstWrite(cs, c + 1, n, key).Some? then [FirstWrite(cs, c + 1, n, key)]
        else []
      case _ => []
  }

  /** Everything actually sent on one channel. */
  function Received(sent: seq<Answer>, channel: nat): seq<Option<Bytes>> {
    if sent == [] then []
    else
      Received(sent[..|sent| - 1], channel)
      + (if sent[|sent| - 1].channel == channel then [sent[|sent| - 1].result] else [])
  }

  lemma {:induction false} ReceivedConcat(xs: seq<Answer>, ys: seq<Answer>, channel: nat)
    ensures Received(xs + ys, channel) == Received(xs, channel) + Received(ys, channel)
    decreases |ys|
  {
    if ys == [] {
      assert xs + ys == xs;
    } else {
      ReceivedConcat(xs, ys[..|ys| - 1], channel);
      assert (xs + ys)[..|xs + ys| - 1] == xs + ys[..|ys| - 1];
    }
  }

  ghost predicate Ascending(waiters: seq<nat>) {
    forall i, j :: 0 <= i < j < |waiters| ==> waiters[i] < waiters[j]
  }

  lemma {:induction false} NotifiedOnce(waiters: seq<nat>, value: Bytes, channel: nat)
    requires Ascending(waiters)
    ensures Received(Notify(waiters, value), channel) == if channel in waiters then [Some(value)] else []
    decreases |waiters|
  {
    if waiters != [] {
      var front := waiters[..|waiters| - 1];
      NotifiedOnce(front, value, channel);
      assert Notify(waiters, value)[..|waiters| - 1] == Notify(front, value);
      assert waiters == front + [waiters[|waiters| - 1]];
    }
  }

  lemma {:induction false} FirstWriteGrows(cs: seq<Command>, from: nat, n: nat, key: Digest)
    requires n < |cs|
    ensures FirstWrite(cs, from, n + 1, key)
            == if FirstWrite(cs, from, n, key).Some? then FirstWrite(cs, from, n, key)
               else if from <= n && cs[n].Write? && cs[n].key == key then Some(cs[n].value)
               else None
    decreases n - from
  {
    if from < n {
      FirstWriteGrows(cs, from + 1, n, key);
    }
  }

  /** Unwritten so far: not before the command, and not since. */
  lemma {:induction false} UnwrittenSplits(cs: seq<Command>, c: nat, n: nat, key: Digest)
    requires c < n <= |cs| && !(cs[c].Write? && cs[c].key == key)
    ensures LastWrite(cs, n, key).None? <==> LastWrite(cs, c, key).None? && FirstWrite(cs, c + 1, n, key).None?
    decreases n
  {
    if c + 1 < n {
      UnwrittenSplits(cs, c, n - 1, key);
      FirstWriteGrows(cs, c + 1, n - 1, key);
    }
  }

  // ----- the invariant -----

  ghost predicate DbInv(cs: seq<Command>, n: nat, s: Store)
    requires n <= |cs|
  {
    forall key :: Lookup(s.db, key) == LastWrite(cs, n, key)
  }

  /** Exactly the callers still waiting are registered, each once, under a key not in the database. */
  ghost predicate ObligationsInv(cs: seq<Command>, n: nat, s: Store)
    requires n <= |cs|
  {
    && (forall key :: key in s.obligations ==> key !in s.db && Ascending(s.obligations[key]))
    && (forall key, c: nat :: Waits(s, key, c) <==> c < n && cs[c] == NotifyRead(key) && key !in s.db)
  }

  ghost predicate Waits(s: Store, key: Digest, c: nat) {
    c in Waiters(s, key)
  }

  ghost predicate SentInv(cs: seq<Command>, n: nat, s: Store)
    requires n <= |cs|
  {
    forall c: nat :: Received(s.sent, c) == Owed(cs, n, c)
  }

  ghost predicate NotClosed(cs: seq<Command>, n: nat)
    requires n <= |cs|
  {
    forall i :: 0 <= i < n ==> !cs[i].Close?
  }

  ghost predicate Inv(cs: seq<Command>, n: nat, s: Store)
    requires n <= |cs|
  {
    s.open && DbInv(cs, n, s) && ObligationsInv(cs, n, s) && SentInv(cs, n, s)
  }

  /** A write settles exactly the notify-reads on its key that nothing has settled before. */
  lemma OwedAfterWrite(cs: seq<Command>, n: nat, c: nat)
    requires n < |cs| && cs[n].Write?
    ensures Owed(cs, n + 1, c)
            == if c < n && cs[c] == NotifyRead(cs[n].key) && Owed(cs, n, c) == [] then [Some(cs[n].value)]
               else Owed(cs, n, c)
  {
    if c < n && cs[c].NotifyRead? {
      FirstWriteGrows(cs, c + 1, n, cs[c].key);
    }
  }

  lemma WriteSends(cs: seq<Command>, n: nat, s: Store, c: nat)
    requires n < |cs| && cs[n].Write? && Inv(cs, n, s)
    ensures Received(Execute(s, n, cs[n]).sent, c) == Owed(cs, n + 1, c)
  {
    hide Owed, Received, Notify, LastWrite, Ascending;
    var key, value := cs[n].key, cs[n].value;
    ReceivedConcat(s.sent, Notify(Waiters(s, key), value), c);
    WaitersBelow(cs, n, s, key);
    NotifiedOnce(Waiters(s, key), value, c);
    assert Received(s.sent, c) == Owed(cs, n, c);
    assert Waits(s, key, c) <==> c in Waiters(s, key);
    OwedAfterWrite(cs, n, c);
    if c < n && cs[c].NotifyRead? {
      Unwritten(cs, n, s, c);
    }
  }

  lemma Unwritten(cs: seq<Command>, n: nat, s: Store, c: nat)
    requires c < n <= |cs| && cs[c].NotifyRead? && Inv(cs, n, s)
    ensures Waits(s, cs[c].key, c) <==> Owed(cs, n, c) == []
    ensures forall key :: key != cs[c].key ==> !Waits(s, key, c)
  {
    hide SentInv;
    assert Lookup(s.db, cs[c].key) == LastWrite(cs, n, cs[c].key);
    UnwrittenSplits(cs, c, n, cs[c].key);
  }

  lemma OwedAfterOther(cs: seq<Command>, n: nat, c: nat)
    requires n < |cs| && (cs[n].Read? || cs[n].NotifyRead?)
    ensures c != n ==> Owed(cs, n + 1, c) == Owed(cs, n, c)
    ensures Owed(cs, n, n) == []
    ensures Owed(cs, n + 1, n)
            == if cs[n].Read? || LastWrite(cs, n, cs[n].key).Some? then [LastWrite(cs, n, cs[n].key)] else []
  {
    if c < n && cs[c].NotifyRead? {
      FirstWriteGrows(cs, c + 1, n, cs[c].key);
    }
  }

  lemma ReceivedOne(channel: nat, result: Option<Bytes>, c: nat)
    ensures Received([Answer(channel, result)], c) == if c == channel then [result] else []
  {
    assert [Answer(channel, result)][..0] == [];
  }

  lemma OtherSends(cs: seq<Command>, n: nat, s: Store, c: nat)
    requires n < |cs| && (cs[n].Read? || cs[n].NotifyRead?) && Inv(cs, n, s)
    ensures Received(Execute(s, n, cs[n]).sent, c) == Owed(cs, n + 1, c)
  {
    hide ObligationsInv, Owed, Received, LastWrite;
    var result := LastWrite(cs, n, cs[n].key);
    assert Lookup(s.db, cs[n].key) == result;
    assert Received(s.sent, c) == Owed(cs, n, c);
    ReceivedConcat(s.sent, [Answer(n, result)], c);
    ReceivedOne(n, result, c);
    OwedAfterOther(cs, n, c);
  }

  lemma ExecuteKeeps(cs: seq<Command>, n: nat, s: Store)
    requires n < |cs| && !cs[n].Close? && Inv(cs, n, s)
    ensures Inv(cs, n + 1, Execute(s, n, cs[n]))
  {
    hide SentInv, Owed;
    var s' := Execute(s, n, cs[n]);
    DbKeeps(cs, n, s);
    ObligationsKeep(cs, n, s);
    SentKeeps(cs, n, s);
  }

  lemma DbKeeps(cs: seq<Command>, n: nat, s: Store)
    requires n < |cs| && !cs[n].Close? && Inv(cs, n, s)
    ensures DbInv(cs, n + 1, Execute(s, n, cs[n]))
  {
    hide SentInv, ObligationsInv;
    forall key ensures Lookup(Execute(s, n, cs[n]).db, key) == LastWrite(cs, n + 1, key) {
      assert Lookup(s.db, key) == LastWrite(cs, n, key);
    }
  }

  lemma ObligationsKeep(cs: seq<Command>, n: nat, s: Store)
    requires n < |cs| && !cs[n].Close? && Inv(cs, n, s)
    ensures ObligationsInv(cs, n + 1, Execute(s, n, cs[n]))
  {
    hide SentInv, DbInv;
    var s' := Execute(s, n, cs[n]);
    forall key, c: nat ensures Waits(s', key, c) <==> c < n + 1 && cs[c] == NotifyRead(key) && key !in s'.db {
      assert Waits(s, key, c) <==> c < n && cs[c] == NotifyRead(key) && key !in s.db;
    }
    forall key | key in s'.obligations ensures key !in s'.db && Ascending(s'.obligations[key]) {
      WaitersBelow(cs, n, s, key);
    }
  }

  lemma WaitersBelow(cs: seq<Command>, n: nat, s: Store, key: Digest)
    requires n <= |cs| && ObligationsInv(cs, n, s)
    ensures forall i :: 0 <= i < |Waiters(s, key)| ==> Waiters(s, key)[i] < n
    ensures Ascending(Waiters(s, key))
  {
    forall i | 0 <= i < |Waiters(s, key)| ensures Waiters(s, key)[i] < n {
      assert Waits(s, key, Waiters(s, key)[i]);
    }
  }

  lemma SentKeeps(cs: seq<Command>, n: nat, s: Store)
    requires n < |cs| && !cs[n].Close? && Inv(cs, n, s)
    ensures SentInv(cs, n + 1, Execute(s, n, cs[n]))
  {
    hide Inv, Received, Owed;
    forall c: nat ensures Received(Execute(s, n, cs[n]).sent, c) == Owed(cs, n + 1, c) {
      if cs[n].Write? {
        WriteSends(cs, n, s, c);
      } else {
        OtherSends(cs, n, s, c);
      }
    }
  }

  lemma EmptyInv(cs: seq<Command>)
    ensures Inv(cs, 0, EMPTY)
  {
  }

  lemma {:induction false} RunInv(cs: seq<Command>, n: nat)
    requires n <= |cs| && NotClosed(cs, n)
    ensures Inv(cs, n, After(cs, n))
  {
    hide Inv;
    if n == 0 {
      EmptyInv(cs);
    } else {
      RunInv(cs, n - 1);
      ExecuteKeeps(cs, n - 1, After(cs, n - 1));
    }
  }

  /** No lost and no duplicated wake-up, over any interleaving: every caller has received exactly
      what it is owed, and keys with waiters are never in the database. */
  lemma EveryoneAnswered(cs: seq<Command>, n: nat, c: nat)
    requires n <= |cs| && NotClosed(cs, n)
    ensures Received(After(cs, n).sent, c) == Owed(cs, n, c)
    ensures forall key :: key in After(cs, n).obligations ==> key !in After(cs, n).db
  {
    hide After, DbInv, Owed, Received;
    RunInv(cs, n);
  }

  /** Some command among the first `n` wrote the key. */
  ghost predicate Written(cs: seq<Command>, n: nat, key: Digest)
    requires n <= |cs|
  {
    exists i :: 0 <= i < n && cs[i].Write? && cs[i].key == key
  }

  lemma {:induction false} WrittenHasLast(cs: seq<Command>, n: nat, key: Digest)
    requires n <= |cs|
    ensures Written(cs, n, key) <==> LastWrite(cs, n, key).Some?
  {
    if n > 0 {
      WrittenHasLast(cs, n - 1, key);
    }
  }

  /** A notify-read has its one answer, a value, exactly if its key has been written by now. */
  lemma AnsweredIffWritten(cs: seq<Command>, n: nat, c: nat)
    requires c < n <= |cs| && NotClosed(cs, n) && cs[c].NotifyRead?
    ensures var got := Received(After(cs, n).sent, c);
            && |got| == (if Written(cs, n, cs[c].key) then 1 else 0)
            && (forall i :: 0 <= i < |got| ==> got[i].Some?)
  {
    EveryoneAnswered(cs, n, c);
    UnwrittenSplits(cs, c, n, cs[c].key);
    WrittenHasLast(cs, n, cs[c].key);
  }

  /** Nothing happens after Close. */
  lemma {:induction false} ClosedForGood(cs: seq<Command>, c: nat, n: nat)
    requires c < n <= |cs| && cs[c].Close? && NotClosed(cs, c)
    ensures After(cs, n) == After(cs, c).(open := false) && After(cs, c).open
    decreases n
  {
    RunInv(cs, c);
    if c + 1 < n {
      ClosedForGood(cs, c, n - 1);
    }
  }

  /** The command loop as an object. */
  class StoreLoop {
    var db: map<Digest, Bytes>
    var obligations: map<Digest, seq<nat>>
    var sent: seq<Answer>
    var open: bool

    ghost function View(): Store
      reads this
    {
      Store(db, obligations, sent, open)
    }

    constructor ()
      ensures View() == EMPTY
    {
      db, obligations, sent, open := map[], map[], [], true;
    }

    method Run(channel: nat, c: Command)
      modifies this
      ensures View() == Execute(old(View()), channel, c)
    {
      if !open {
        return;
      }
      match c
      case Write(key, value) =>
        db := db[key := value];
        if key in obligations {
          var senders := obligations[key];
          for i := 0 to |senders|
            invariant View() == old(View()).(db := db, sent := old(sent) + Notify(senders[..i], value))
            invariant db == old(db)[key := value]
          {
            assert Notify(senders[..i + 1], value) == Notify(senders[..i], value) + [Answer(senders[i], Some(value))];
            sent := sent + [Answer(senders[i], Some(value))];
          }
          assert senders[..|senders|] == senders;
          obligations := obligations - {key};
        } else {
          assert obligations - {key} == obligations;
          assert Notify([], value) == [];
        }
      case Read(key) =>
        sent := sent + [Answer(channel, if key in db then Some(db[key]) else None)];
      case NotifyRead(key) =>
        if key !in db {
          if key !in obligations {
            obligations := obligations[key := []];
          }
          obligations := obligations[key := obligations[key] + [channel]];
          assert obligations == old(obligations)[key := Waiters(old(View()), key) + [channel]];
        } else {
          sent := sent + [Answer(channel, Some(db[key]))];
        }
      case Close =>
        open := false;
    }
  }
}
