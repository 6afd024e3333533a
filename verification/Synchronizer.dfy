/** The synchronizer's suspend-and-resume loop (consensus/synchronizer.go), on top of the store of
    module Stores: a block waiter is a goroutine that calls notify-read for the parent's key and
    hands its block over once that call is answered. */
module Synchronizers {
  import opened Messages
  import Encoding
  import Stores

  /** A block waiter, with the response channel of its notify-read once the store has taken it. */
  datatype Waiter = Waiter(block: Block, channel: Option<nat>)

  datatype Sync = Sync(
    pending: set<Digest>,
    requests: map<Digest, int>,       // parent digest to time of the first request
    waiters: map<Digest, Waiter>,     // running block waiters, by block digest
    commands: seq<Stores.Command>,    // everything the store's loop has taken, in order
    accepted: seq<Block>,             // blocks for which a waiter was started
    loopback: seq<Block>)             // blocks sent back to the core

  datatype Event =
    | Suspended(block: Block, now: int)   // the core found no parent
    | Called(digest: Digest)              // the notify-read of a waiter reaches the store
    | Other(command: Stores.Command)      // so does a command of anybody else
    | Woken(block: Block)                 // a waiter hands over its block

  function OnSuspended(s: Sync, b: Block, now: int): Sync {
    var d, parent := DigestOf(b), b.qc.hash;
    if d in s.pending then s else
      var started := s.(pending := s.pending + {d}, waiters := s.waiters[d := Waiter(b, None)],
                        accepted := s.accepted + [b]);
      if parent in s.requests then started
      else started.(requests := s.requests[parent := now])
  }

  function OnCalled(s: Sync, d: Digest): Sync
    requires d in s.waiters
  {
    var b := s.waiters[d].block;
    s.(waiters := s.waiters[d := Waiter(b, Some(|s.commands|))],
       commands := s.commands + [Stores.NotifyRead(b.qc.hash)])
  }

  function OnWoken(s: Sync, b: Block): Sync {
    s.(pending := s.pending - {DigestOf(b)}, requests := s.requests - {b.qc.hash},
       waiters := s.waiters - {DigestOf(b)}, loopback := s.loopback + [b])
  }

  /** What the store has sent on a response channel so far. */
  function Answers(s: Sync, channel: nat): seq<Option<Encoding.Bytes>> {
    Stores.Received(Stores.After(s.commands, |s.commands|).sent, channel)
  }

  /** A waiter exists for the block, and its notify-read has returned a value. */
  predicate CanWake(s: Sync, b: Block) {
    && DigestOf(b) in s.waiters && s.waiters[DigestOf(b)].block == b && s.waiters[DigestOf(b)].channel.Some?
    && var got := Answers(s, s.waiters[DigestOf(b)].channel.value); got != [] && got[0].Some?
  }

  predicate Possible(s: Sync, e: Event) {
    match e
    case Suspended(_, _) => true
    case Called(d) => d in s.waiters && s.waiters[d].channel.None?
    case Other(c) => !c.Close?
    case Woken(b) => CanWake(s, b)
  }

  function Handle(s: Sync, e: Event): Sync
    requires Possible(s, e)
  {
    match e
    case Suspended(b, now) => OnSuspended(s, b, now)
    case Called(d) => OnCalled(s, d)
    case Other(c) => s.(commands := s.commands + [c])
    case Woken(b) => OnWoken(s, b)
  }

  const EMPTY: Sync := Sync({}, map[], map[], [], [], [])

  ghost predicate Step(s: Sync, s': Sync) {
    exists e :: Possible(s, e) && s' == Handle(s, e)
  }

  /** The states of one history of the loop, its waiters and the store. */
  ghost predicate IsRun(run: seq<Sync>) {
    run != [] && run[0] == EMPTY && forall i :: 0 < i < |run| ==> Step(run[i - 1], run[i])
  }

  // ----- what every event keeps -----

  ghost function Waiting(waiters: map<Digest, Waiter>): set<Block> {
    set d | d in waiters :: waiters[d].block
  }

  /** Something was written under the key. */
  ghost predicate Stored(s: Sync, key: Digest) {
    Stores.Written(s.commands, |s.commands|, key)
  }

  ghost predicate WaiterOk(commands: seq<Stores.Command>, d: Digest, w: Waiter) {
    && DigestOf(w.block) == d
    && (w.channel.Some? ==>
          w.channel.value < |commands| && commands[w.channel.value] == Stores.NotifyRead(w.block.qc.hash))
  }

  ghost predicate WaitersOk(s: Sync) {
    && s.waiters.Keys == s.pending && Stores.NotClosed(s.commands, |s.commands|)
    && forall d :: d in s.waiters ==> WaiterOk(s.commands, d, s.waiters[d])
  }

  /** Every outstanding request still has a pending child. */
  ghost predicate RequestsOk(s: Sync) {
    forall p :: p in s.requests ==> HasChild(s.waiters, p)
  }

  ghost predicate HasChild(waiters: map<Digest, Waiter>, parent: Digest) {
    exists d :: d in waiters && waiters[d].block.qc.hash == parent
  }

  /** The parent of every waiting block is being requested, unless it is stored by now. */
  ghost predicate CoveredOk(s: Sync) {
    forall d :: d in s.waiters ==> s.waiters[d].block.qc.hash in s.requests || Stored(s, s.waiters[d].block.qc.hash)
  }

  ghost predicate LoopbackOk(s: Sync) {
    forall i :: 0 <= i < |s.loopback| ==> Stored(s, s.loopback[i].qc.hash)
  }

  /** Every accepted suspension is either still waiting or was looped back, exactly once. */
  ghost predicate Conserved(s: Sync) {
    multiset(s.accepted) == multiset(s.loopback) + multiset(Waiting(s.waiters))
  }

  ghost predicate Inv(s: Sync) {
    WaitersOk(s) && RequestsOk(s) && CoveredOk(s) && LoopbackOk(s) && Conserved(s)
  }

  /** What the store's guarantee says about a waiter: it can hand over its block exactly when the
      parent has been written, before or after the call. */
  lemma WakesIffStored(s: Sync, d: Digest)
    requires WaitersOk(s) && d in s.waiters
    ensures CanWake(s, s.waiters[d].block) <==> s.waiters[d].channel.Some? && Stored(s, s.waiters[d].block.qc.hash)
  {
    hide Stores.Received, Stores.After, Stores.Written, Stores.NotClosed;
    assert WaiterOk(s.commands, d, s.waiters[d]);
    if s.waiters[d].channel.Some? {
      Stores.AnsweredIffWritten(s.commands, |s.commands|, s.waiters[d].channel.value);
    }
  }

  lemma SuspendConserves(accepted: seq<Block>, loopback: seq<Block>, waiting: set<Block>, b: Block)
    requires multiset(accepted) == multiset(loopback) + multiset(waiting) && b !in waiting
    ensures multiset(accepted + [b]) == multiset(loopback) + multiset(waiting + {b})
  {
    assert multiset(waiting + {b}) == multiset(waiting) + multiset{b};
  }

  lemma WakeConserves(accepted: seq<Block>, loopback: seq<Block>, waiting: set<Block>, b: Block)
    requires multiset(accepted) == multiset(loopback) + multiset(waiting) && b in waiting
    ensures multiset(accepted) == multiset(loopback + [b]) + multiset(waiting - {b})
  {
    assert multiset(waiting) == multiset(waiting - {b}) + multiset{b};
  }

  lemma SuspendKeeps(s: Sync, b: Block, now: int)
    requires Inv(s)
    ensures Inv(OnSuspended(s, b, now))
  {
    hide RequestsOk, Stores.NotClosed, Stores.Written;
    if DigestOf(b) !in s.pending {
      NewWaiter(s.commands, s.waiters, DigestOf(b), Waiter(b, None));
      SuspendConserves(s.accepted, s.loopback, Waiting(s.waiters), b);
    }
    SuspendRequests(s, b, now);
  }

  lemma SuspendRequests(s: Sync, b: Block, now: int)
    requires WaitersOk(s) && RequestsOk(s)
    ensures RequestsOk(OnSuspended(s, b, now))
  {
    var d, s' := DigestOf(b), OnSuspended(s, b, now);
    if d !in s.pending {
      forall p | p in s'.requests ensures HasChild(s'.waiters, p) {
        var x := d;
        if p in s.requests {
          x :| x in s.waiters && s.waiters[x].block.qc.hash == p;
        }
        assert s'.waiters[x].block.qc.hash == p;
      }
    }
  }

  lemma NewWaiter(commands: seq<Stores.Command>, waiters: map<Digest, Waiter>, d: Digest, w: Waiter)
    requires d !in waiters && WaiterOk(commands, d, w) && forall k :: k in waiters ==> WaiterOk(commands, k, waiters[k])
    ensures Waiting(waiters[d := w]) == Waiting(waiters) + {w.block} && w.block !in Waiting(waiters)
  {
    var more := waiters[d := w];
    forall x | x in Waiting(waiters) + {w.block} ensures x in Waiting(more) {
      if x in Waiting(waiters) {
        var k :| k in waiters && waiters[k].block == x;
        assert more[k].block == x;
      } else {
        assert more[d].block == x;
      }
    }
  }

  /** Commands only add to what is stored. */
  lemma MoreStored(s: Sync, c: Stores.Command, key: Digest)
    requires Stored(s, key)
    ensures Stored(s.(commands := s.commands + [c]), key)
  {
    var i :| 0 <= i < |s.commands| && s.commands[i].Write? && s.commands[i].key == key;
    assert (s.commands + [c])[i] == s.commands[i];
  }

  lemma CommandKeeps(s: Sync, c: Stores.Command)
    requires Inv(s) && !c.Close?
    ensures Inv(s.(commands := s.commands + [c]))
  {
    hide RequestsOk, Conserved, Stored;
    var s' := s.(commands := s.commands + [c]);
    forall key | Stored(s, key) ensures Stored(s', key) {
      MoreStored(s, c, key);
    }
    forall d | d in s.waiters ensures WaiterOk(s'.commands, d, s.waiters[d]) {
      assert WaiterOk(s.commands, d, s.waiters[d]);
    }
    SameWaiters(s, s');
  }

  /** Requests and conservation only look at which blocks wait. */
  lemma SameWaiters(s: Sync, s': Sync)
    requires RequestsOk(s) && Conserved(s)
    requires s'.requests == s.requests && s'.accepted == s.accepted && s'.loopback == s.loopback
    requires s'.waiters.Keys == s.waiters.Keys
    requires forall d :: d in s.waiters ==> s'.waiters[d].block == s.waiters[d].block
    ensures RequestsOk(s') && Conserved(s')
  {
    assert Waiting(s'.waiters) == Waiting(s.waiters);
    forall p | p in s'.requests ensures HasChild(s'.waiters, p) {
      var d :| d in s.waiters && s.waiters[d].block.qc.hash == p;
      assert s'.waiters[d].block.qc.hash == p;
    }
  }

  lemma CallKeeps(s: Sync, d: Digest)
    requires Inv(s) && d in s.waiters && s.waiters[d].channel.None?
    ensures Inv(OnCalled(s, d))
  {
    hide RequestsOk, Conserved, Stores.Written, Stores.NotClosed;
    var c := Stores.NotifyRead(s.waiters[d].block.qc.hash);
    CommandKeeps(s, c);
    var s1 := s.(commands := s.commands + [c]);
    assert s1.commands[|s.commands|] == c;
    SameWaiters(s1, OnCalled(s, d));
    CoveredSame(s1, OnCalled(s, d));
  }

  lemma CoveredSame(s: Sync, s': Sync)
    requires CoveredOk(s) && s'.requests == s.requests && s'.commands == s.commands
    requires s'.waiters.Keys == s.waiters.Keys
    requires forall d :: d in s.waiters ==> s'.waiters[d].block == s.waiters[d].block
    ensures CoveredOk(s')
  {
  }

  lemma WakeKeeps(s: Sync, b: Block)
    requires Inv(s) && CanWake(s, b)
    ensures Inv(OnWoken(s, b))
  {
    hide RequestsOk, Stores.Written, Stores.NotClosed, Answers;
    var d, s' := DigestOf(b), OnWoken(s, b);
    WakesIffStored(s, d);
    assert Stored(s', b.qc.hash);
    NewWaiter(s.commands, s'.waiters, d, s.waiters[d]);
    assert s'.waiters[d := s.waiters[d]] == s.waiters;
    assert Waiting(s'.waiters) == Waiting(s.waiters) - {b};
    WakeConserves(s.accepted, s.loopback, Waiting(s.waiters), b);
    WakeRequests(s, b);
  }

  lemma WakeRequests(s: Sync, b: Block)
    requires RequestsOk(s) && DigestOf(b) in s.waiters && s.waiters[DigestOf(b)].block == b
    ensures RequestsOk(OnWoken(s, b))
  {
    hide HasChild;
    forall p | p in OnWoken(s, b).requests ensures HasChild(OnWoken(s, b).waiters, p) {
      ChildRemains(s.waiters, DigestOf(b), p);
    }
  }

  /** Removing a waiter for one parent leaves the children of the others. */
  lemma ChildRemains(waiters: map<Digest, Waiter>, d: Digest, p: Digest)
    requires HasChild(waiters, p) && d in waiters && waiters[d].block.qc.hash != p
    ensures HasChild(waiters - {d}, p)
  {
    var x :| x in waiters && waiters[x].block.qc.hash == p;
    assert x in waiters - {d} && (waiters - {d})[x].block.qc.hash == p;
  }

  lemma {:induction false} RunInv(run: seq<Sync>, i: nat)
    requires IsRun(run) && i < |run|
    ensures Inv(run[i])
  {
    hide Inv, CanWake;
    if i == 0 {
      EmptyInv();
    } else {
      RunInv(run, i - 1);
      assert Step(run[i - 1], run[i]);
      var e :| Possible(run[i - 1], e) && run[i] == Handle(run[i - 1], e);
      match e
      case Suspended(b, now) => SuspendKeeps(run[i - 1], b, now);
      case Called(d) => CallKeeps(run[i - 1], d);
      case Other(c) => CommandKeeps(run[i - 1], c);
      case Woken(b) => WakeKeeps(run[i - 1], b);
    }
  }

  lemma EmptyInv()
    ensures Inv(EMPTY)
  {
    assert Waiting(map[]) == {};
  }

  /** Over any history: each accepted suspension is looped back once or still waiting; a block is
      looped back only after its parent was stored; while the parent of a waiting block is not
      stored it is being requested, so the retry timer covers it; and every request the timer may
      repeat still has a waiting child. */
  lemma SuspendedOnceResumedOnce(run: seq<Sync>, i: nat)
    requires IsRun(run) && i < |run|
    ensures var s := run[i];
            forall b :: multiset(s.accepted)[b] == multiset(s.loopback)[b] + (if b in Waiting(s.waiters) then 1 else 0)
    ensures var s := run[i]; forall j :: 0 <= j < |s.loopback| ==> Stored(s, s.loopback[j].qc.hash)
    ensures var s := run[i]; forall b :: b in Waiting(s.waiters) ==> b.qc.hash in s.requests || Stored(s, b.qc.hash)
    ensures var s := run[i]; forall p :: p in s.requests ==> exists b :: b in Waiting(s.waiters) && b.qc.hash == p
  {
    hide Stored, WaitersOk;
    RunInv(run, i);
    var s := run[i];
    forall p | p in s.requests ensures exists b :: b in Waiting(s.waiters) && b.qc.hash == p {
      var d :| d in s.waiters && s.waiters[d].block.qc.hash == p;
      assert s.waiters[d].block in Waiting(s.waiters);
    }
  }

  /** A suspended block is accepted unless one of its digest is pending, also when its parent is being
      requested for another child; the parent is asked for exactly if nobody asked before. */
  lemma SuspensionAccepted(s: Sync, b: Block, now: int)
    requires WaitersOk(s)
    ensures var s' := OnSuspended(s, b, now);
            if exists w :: w in Waiting(s.waiters) && DigestOf(w) == DigestOf(b) then s' == s
            else
              && s'.accepted == s.accepted + [b] && Waiting(s'.waiters) == Waiting(s.waiters) + {b}
              && s'.loopback == s.loopback && s'.commands == s.commands
              && s'.requests.Keys == s.requests.Keys + {b.qc.hash}
              && (forall p :: p in s'.requests ==> s'.requests[p] == if p in s.requests then s.requests[p] else now)
  {
    if DigestOf(b) !in s.pending {
      NewWaiter(s.commands, s.waiters, DigestOf(b), Waiter(b, None));
    } else {
      assert s.waiters[DigestOf(b)].block in Waiting(s.waiters);
    }
  }

  /** No lost wake-up: a waiting block can be looped back exactly when its parent is stored, at once
      if its waiter has called the store, and otherwise as soon as it has. */
  lemma ResumableIffStored(run: seq<Sync>, i: nat, d: Digest)
    requires IsRun(run) && i < |run| && d in run[i].waiters
    ensures var s, b := run[i], run[i].waiters[d].block;
            && (s.waiters[d].channel.Some? ==> (CanWake(s, b) <==> Stored(s, b.qc.hash)))
            && (s.waiters[d].channel.None? ==> !CanWake(s, b) && (CanWake(OnCalled(s, d), b) <==> Stored(s, b.qc.hash)))
  {
    hide CanWake, Stored, RequestsOk, CoveredOk, LoopbackOk, Conserved;
    RunInv(run, i);
    var s := run[i];
    WakesIffStored(s, d);
    if s.waiters[d].channel.None? {
      CallKeeps(s, d);
      WakesIffStored(OnCalled(s, d), d);
      ReadStoresNothing(s, d);
    }
  }

  lemma ReadStoresNothing(s: Sync, d: Digest)
    requires d in s.waiters
    ensures forall key :: Stored(OnCalled(s, d), key) <==> Stored(s, key)
  {
    forall key | Stored(s, key) ensures Stored(OnCalled(s, d), key) {
      MoreStored(s, Stores.NotifyRead(s.waiters[d].block.qc.hash), key);
    }
  }

  /** The goroutine's maps. */
  class SyncLoop {
    const retryDelay: int
    var pending: set<Digest>
    var requests: map<Digest, int>
    var asked: seq<Digest>             // first requests sent to block authors
    var loopback: seq<Block>
    ghost var waiters: map<Digest, Waiter>
    ghost var commands: seq<Stores.Command>
    ghost var accepted: seq<Block>

    ghost function View(): Sync
      reads this
    {
      Sync(pending, requests, waiters, commands, accepted, loopback)
    }

    constructor (retryDelay: int)
      ensures View() == EMPTY && this.retryDelay == retryDelay
    {
      this.retryDelay := retryDelay;
      pending, requests, asked, loopback := {}, map[], [], [];
      waiters, commands, accepted := map[], [], [];
    }

    method Suspend(b: Block, now: int)
      modifies this
      ensures View() == OnSuspended(old(View()), b, now)
      ensures asked == if requests == old(requests) then old(asked) else old(asked) + [b.qc.hash]
    {
      var d := DigestOf(b);
      if d in pending {
        return;
      }
      pending := pending + {d};
      var parent := b.qc.hash;
      waiters := waiters[d := Waiter(b, None)];
      accepted := accepted + [b];
      if parent !in requests {
        requests := requests[parent := now];
        asked := asked + [parent];
      }
    }

    method Wake(b: Block)
      modifies this
      ensures View() == OnWoken(old(View()), b)
    {
      pending := pending - {DigestOf(b)};
      requests := requests - {b.qc.hash};
      waiters := waiters - {DigestOf(b)};
      loopback := loopback + [b];
    }

    /** The retry timer asks again for exactly the overdue parents, and forgets nothing. */
    method Tick(now: int) returns (retried: set<Digest>)
      ensures forall p :: p in retried <==> p in requests && requests[p] + retryDelay < now
    {
      retried := {};
      var rest := requests.Keys;
      while rest != {}
        invariant rest <= requests.Keys
        invariant forall p :: p in retried <==> p in requests.Keys - rest && requests[p] + retryDelay < now
        decreases rest
      {
        var p :| p in rest;
        if requests[p] + retryDelay < now {
          retried := retried + {p};
        }
        rest := rest - {p};
      }
    }
  }
}
