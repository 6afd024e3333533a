/** One reliable connection (network/reliablesender.go): a buffer of messages still to be written,
    and the messages written but not yet acknowledged. A message is named by its submission number. */
module ReliableConnections {

  datatype Message = Message(id: nat, data: seq<int>)
  datatype Reply = Reply(to: Message, response: seq<int>)

  datatype Connection = Connection(
    submitted: nat,           // how many messages were handed over so far
    buffer: seq<Message>,
    pending: seq<Message>,    // written, reply outstanding
    answered: seq<Reply>,
    dropped: set<nat>,        // cancelled before they were written
    wire: seq<Message>,       // written on the current stream
    acks: seq<seq<int>>)      // read from the current stream and passed on

  datatype Event =
    | Submit(data: seq<int>)                     // from the sender, connected or not
    | Flush(cancelled: set<nat>, writes: nat)    // write out the buffer; the stream breaks after `writes` messages
    | Ack(response: seq<int>)
    | Broken                                     // the reader closed

  /** The stream is given up; the next one starts afresh. */
  function Requeue(c: Connection): Connection {
    c.(buffer := c.pending + c.buffer, pending := [], wire := [], acks := [])
  }

  /** The inner loop of keepAlive: pop, skip if cancelled, write; on failure push back and break. */
  function FlushBuffer(c: Connection, cancelled: set<nat>, writes: nat): Connection
    decreases |c.buffer|
  {
    if c.buffer == [] then c
    else
      var m, rest := c.buffer[0], c.buffer[1..];
      if m.id in cancelled then
        FlushBuffer(c.(buffer := rest, dropped := c.dropped + {m.id}), cancelled, writes)
      else if writes == 0 then Requeue(c)
      else FlushBuffer(Written(c), cancelled, writes - 1)
  }

  /** The front message goes out. */
  function Written(c: Connection): Connection
    requires c.buffer != []
  {
    c.(buffer := c.buffer[1..], pending := c.pending + [c.buffer[0]], wire := c.wire + [c.buffer[0]])
  }

  function Handle(c: Connection, e: Event): Connection {
    match e
    case Submit(data) => c.(submitted := c.submitted + 1, buffer := c.buffer + [Message(c.submitted, data)])
    case Flush(cancelled, writes) => FlushBuffer(c, cancelled, writes)
    case Ack(response) =>
      if c.pending == [] then Requeue(c)
      else c.(pending := c.pending[1..], answered := c.answered + [Reply(c.pending[0], response)],
              acks := c.acks + [response])
    case Broken => Requeue(c)
  }

  const NEW: Connection := Connection(0, [], [], [], {}, [], [])

  function Run(events: seq<Event>): Connection {
    if events == [] then NEW else Handle(Run(events[..|events| - 1]), events[|events| - 1])
  }

  /** The messages handed over, in order. */
  function Submitted(events: seq<Event>): seq<Message> {
    if events == [] then []
    else
      var before := Submitted(events[..|events| - 1]);
      if events[|events| - 1].Submit? then before + [Message(|before|, events[|events| - 1].data)] else before
  }

  function Answered(replies: seq<Reply>): seq<Message> {
    seq(|replies|, i requires 0 <= i < |replies| => replies[i].to)
  }

  /** Everything the connection still knows about, oldest first. */
  function Line(c: Connection): seq<Message> {
    Answered(c.answered) + c.pending + c.buffer
  }

  /** `all` without the dropped ones, in order. */
  function Kept(all: seq<Message>, dropped: set<nat>): seq<Message> {
    if all == [] then []
    else
      var last := all[|all| - 1];
      Kept(all[..|all| - 1], dropped) + (if last.id in dropped then [] else [last])
  }

  ghost predicate Numbered(all: seq<Message>) {
    forall i :: 0 <= i < |all| ==> all[i].id == i
  }

  ghost predicate Conserves(all: seq<Message>, c: Connection) {
    && Numbered(all) && |all| == c.submitted
    && Line(c) == Kept(all, c.dropped)
    && (forall id :: id in c.dropped ==> id < |all|)
  }

  // ----- dropping from an ordered list -----

  lemma {:induction false} KeptMembers(all: seq<Message>, dropped: set<nat>)
    requires Numbered(all)
    ensures forall i :: 0 <= i < |Kept(all, dropped)| ==>
              Kept(all, dropped)[i].id < |all| && Kept(all, dropped)[i] == all[Kept(all, dropped)[i].id]
              && Kept(all, dropped)[i].id !in dropped
    ensures forall i, j :: 0 <= i < j < |Kept(all, dropped)| ==> Kept(all, dropped)[i].id < Kept(all, dropped)[j].id
  {
    if all != [] {
      KeptMembers(all[..|all| - 1], dropped);
    }
  }

  /** Removing one element of the kept list is the same as dropping its id. */
  lemma {:induction false} DropOne(all: seq<Message>, dropped: set<nat>, i: nat)
    requires Numbered(all) && i < |Kept(all, dropped)|
    ensures var kept := Kept(all, dropped);
            Kept(all, dropped + {kept[i].id}) == kept[..i] + kept[i + 1..]
    decreases |all|
  {
    var front, last := all[..|all| - 1], all[|all| - 1];
    var kept, before := Kept(all, dropped), Kept(front, dropped);
    KeptMembers(front, dropped);
    if i < |before| {
      DropOne(front, dropped, i);
      assert kept[i] == before[i];
      assert kept[..i] == before[..i];
      assert kept[i + 1..] == before[i + 1..] + (if last.id in dropped then [] else [last]);
    } else {
      DropNone(front, dropped, last.id);
      assert kept[..i] == before;
      assert kept[i + 1..] == [];
    }
  }

  lemma {:induction false} DropNone(all: seq<Message>, dropped: set<nat>, id: nat)
    requires Numbered(all) && id >= |all|
    ensures Kept(all, dropped + {id}) == Kept(all, dropped)
  {
    if all != [] {
      DropNone(all[..|all| - 1], dropped, id);
    }
  }

  // ----- every event -----

  lemma RequeueKeeps(all: seq<Message>, c: Connection)
    requires Conserves(all, c)
    ensures Conserves(all, Requeue(c))
  {
    assert Line(Requeue(c)) == Line(c);
  }

  lemma WriteKeeps(all: seq<Message>, c: Connection)
    requires Conserves(all, c) && c.buffer != []
    ensures Conserves(all, Written(c))
  {
    assert c.buffer == [c.buffer[0]] + c.buffer[1..];
    assert Line(Written(c)) == Line(c);
  }

  lemma DropKeeps(all: seq<Message>, c: Connection)
    requires Conserves(all, c) && c.buffer != []
    ensures Conserves(all, c.(buffer := c.buffer[1..], dropped := c.dropped + {c.buffer[0].id}))
  {
    var i := |c.answered| + |c.pending|;
    var line := Line(c);
    assert line[i] == c.buffer[0];
    DropOne(all, c.dropped, i);
    KeptMembers(all, c.dropped);
    var c' := c.(buffer := c.buffer[1..], dropped := c.dropped + {c.buffer[0].id});
    assert Line(c') == line[..i] + line[i + 1..];
  }

  lemma {:induction false} FlushKeeps(all: seq<Message>, c: Connection, cancelled: set<nat>, writes: nat)
    requires Conserves(all, c)
    ensures Conserves(all, FlushBuffer(c, cancelled, writes))
    ensures FlushBuffer(c, cancelled, writes).answered == c.answered
    decreases |c.buffer|
  {
    hide Conserves;
    if c.buffer != [] {
      var m, rest := c.buffer[0], c.buffer[1..];
      if m.id in cancelled {
        DropKeeps(all, c);
        FlushKeeps(all, c.(buffer := rest, dropped := c.dropped + {m.id}), cancelled, writes);
      } else if writes == 0 {
        RequeueKeeps(all, c);
      } else {
        WriteKeeps(all, c);
        FlushKeeps(all, Written(c), cancelled, writes - 1);
      }
    }
  }

  lemma SubmitKeeps(all: seq<Message>, c: Connection, data: seq<int>)
    requires Conserves(all, c)
    ensures Conserves(all + [Message(|all|, data)], Handle(c, Submit(data)))
  {
    var m := Message(|all|, data);
    assert (all + [m])[..|all|] == all;
    assert Line(Handle(c, Submit(data))) == Line(c) + [m];
  }

  lemma AckKeeps(all: seq<Message>, c: Connection, response: seq<int>)
    requires Conserves(all, c)
    ensures Conserves(all, Handle(c, Ack(response)))
  {
    if c.pending == [] {
      RequeueKeeps(all, c);
    } else {
      var c' := Handle(c, Ack(response));
      assert Answered(c'.answered) == Answered(c.answered) + [c.pending[0]];
      assert c.pending == [c.pending[0]] + c.pending[1..];
      assert Line(c') == Line(c);
    }
  }

  /** Conservation over any sequence of sends, acks, write failures, cancellations and reconnects:
      answered, outstanding and buffered messages, in this order, are the submitted messages in
      order without the cancelled ones. */
  lemma {:induction false} NothingLostOrReordered(events: seq<Event>)
    ensures Conserves(Submitted(events), Run(events))
    decreases |events|
  {
    hide Conserves, FlushBuffer;
    if events == [] {
      NewConserves();
    } else {
      var front, e := events[..|events| - 1], events[|events| - 1];
      NothingLostOrReordered(front);
      var all, c := Submitted(front), Run(front);
      match e
      case Submit(data) => SubmitKeeps(all, c, data);
      case Flush(cancelled, writes) => FlushKeeps(all, c, cancelled, writes);
      case Ack(response) => AckKeeps(all, c, response);
      case Broken => RequeueKeeps(all, c);
    }
  }

  lemma NewConserves()
    ensures Conserves([], NEW)
  {
  }

  /** Each message is answered at most once, in submission order, and no dropped message is. */
  lemma AnsweredOnceInOrder(events: seq<Event>, i: nat)
    requires i < |Run(events).answered|
    ensures var c := Run(events);
            && c.answered[i].to in Submitted(events) && c.answered[i].to.id !in c.dropped
            && forall j :: i < j < |c.answered| ==> c.answered[i].to.id < c.answered[j].to.id
  {
    hide Run, Submitted;
    var c := Run(events);
    NothingLostOrReordered(events);
    KeptMembers(Submitted(events), c.dropped);
    forall j | i <= j < |c.answered| ensures Line(c)[j] == c.answered[j].to {
    }
    assert Line(c)[i] in Kept(Submitted(events), c.dropped);
  }

  /** An ack answers the oldest message that was neither answered nor dropped. */
  lemma AckAnswersOldest(events: seq<Event>, response: seq<int>)
    requires Run(events).pending != []
    ensures var c, c' := Run(events), Run(events + [Ack(response)]);
            && |c'.answered| == |c.answered| + 1 <= |Kept(Submitted(events), c.dropped)|
            && Answered(c'.answered) == Kept(Submitted(events), c.dropped)[..|c.answered| + 1]
            && c'.answered[|c.answered|].response == response
  {
    var c := Run(events);
    NothingLostOrReordered(events);
    assert (events + [Ack(response)])[..|events|] == events;
    assert Line(c)[|c.answered|] == c.pending[0];
    assert Answered(c.answered) == Line(c)[..|c.answered|];
    assert Answered(Handle(c, Ack(response)).answered) == Answered(c.answered) + [c.pending[0]];
  }

  // ----- what is written, and when -----

  /** The messages of a buffer whose sender has not given up. */
  function Live(buffer: seq<Message>, cancelled: set<nat>): seq<Message> {
    if buffer == [] then []
    else (if buffer[0].id in cancelled then [] else [buffer[0]]) + Live(buffer[1..], cancelled)
  }

  function GivenUp(buffer: seq<Message>, cancelled: set<nat>): set<nat> {
    set i | 0 <= i < |buffer| && buffer[i].id in cancelled :: buffer[i].id
  }

  /** A stream that holds out: exactly the live messages of the buffer are written, in order, and the
      others are dropped. */
  lemma {:induction false} FlushWritesAll(c: Connection, cancelled: set<nat>, writes: nat)
    requires |Live(c.buffer, cancelled)| <= writes
    ensures var live := Live(c.buffer, cancelled);
            FlushBuffer(c, cancelled, writes)
            == c.(buffer := [], pending := c.pending + live, wire := c.wire + live,
                  dropped := c.dropped + GivenUp(c.buffer, cancelled))
    decreases |c.buffer|
  {
    if c.buffer == [] {
      assert c.dropped + GivenUp([], cancelled) == c.dropped;
    } else {
      var m, rest := c.buffer[0], c.buffer[1..];
      GivenUpFirst(c.buffer, cancelled);
      if m.id in cancelled {
        var c' := c.(buffer := rest, dropped := c.dropped + {m.id});
        FlushWritesAll(c', cancelled, writes);
        assert c.dropped + {m.id} + GivenUp(rest, cancelled) == c.dropped + GivenUp(c.buffer, cancelled);
      } else {
        FlushWritesAll(Written(c), cancelled, writes - 1);
        assert c.pending + [m] + Live(rest, cancelled) == c.pending + ([m] + Live(rest, cancelled));
        assert c.wire + [m] + Live(rest, cancelled) == c.wire + ([m] + Live(rest, cancelled));
      }
    }
  }

  lemma GivenUpFirst(buffer: seq<Message>, cancelled: set<nat>)
    requires buffer != []
    ensures GivenUp(buffer, cancelled)
            == (if buffer[0].id in cancelled then {buffer[0].id} else {}) + GivenUp(buffer[1..], cancelled)
  {
    var rest := buffer[1..];
    forall id | id in GivenUp(rest, cancelled) ensures id in GivenUp(buffer, cancelled) {
      var i :| 0 <= i < |rest| && rest[i].id in cancelled && rest[i].id == id;
      assert buffer[i + 1] == rest[i];
    }
    forall id | id in GivenUp(buffer, cancelled)
      ensures id in (if buffer[0].id in cancelled then {buffer[0].id} else {}) + GivenUp(rest, cancelled)
    {
      var i :| 0 <= i < |buffer| && buffer[i].id in cancelled && buffer[i].id == id;
      if i > 0 {
        assert rest[i - 1] == buffer[i];
      }
    }
  }

  /** The connection after a break at one message of the buffer: the live messages before it were
      written; they, the outstanding ones and everything from the failing message on are buffered
      again, in order, and only what was skipped on the way is dropped. */
  function BrokenAt(c: Connection, cancelled: set<nat>, at: nat): Connection
    requires at <= |c.buffer|
  {
    c.(buffer := c.pending + Live(c.buffer[..at], cancelled) + c.buffer[at..], pending := [], wire := [], acks := [],
       dropped := c.dropped + GivenUp(c.buffer[..at], cancelled))
  }

  /** A stream that breaks while writing fails on the first live message it has no write left for. */
  lemma {:induction false} FlushBreaks(c: Connection, cancelled: set<nat>, writes: nat) returns (at: nat)
    requires |Live(c.buffer, cancelled)| > writes
    ensures at < |c.buffer| && c.buffer[at].id !in cancelled && |Live(c.buffer[..at], cancelled)| == writes
    ensures FlushBuffer(c, cancelled, writes) == BrokenAt(c, cancelled, at)
    decreases |c.buffer|
  {
    hide BrokenAt, GivenUp;
    var m, rest := c.buffer[0], c.buffer[1..];
    if m.id !in cancelled && writes == 0 {
      at := 0;
      BreakAtOnce(c, cancelled);
    } else if m.id in cancelled {
      var i := FlushBreaks(c.(buffer := rest, dropped := c.dropped + {m.id}), cancelled, writes);
      at := i + 1;
      BreakAfterSkip(c, cancelled, i);
    } else {
      var i := FlushBreaks(Written(c), cancelled, writes - 1);
      at := i + 1;
      BreakAfterWrite(c, cancelled, i);
    }
  }

  lemma BreakAtOnce(c: Connection, cancelled: set<nat>)
    ensures BrokenAt(c, cancelled, 0) == Requeue(c) && c.buffer[..0] == []
  {
    assert c.buffer[..0] == [] && c.pending + [] + c.buffer == c.pending + c.buffer;
    assert c.dropped + GivenUp([], cancelled) == c.dropped;
  }

  lemma BreakAfterSkip(c: Connection, cancelled: set<nat>, i: nat)
    requires i + 1 < |c.buffer| && c.buffer[0].id in cancelled
    ensures var skipped := c.(buffer := c.buffer[1..], dropped := c.dropped + {c.buffer[0].id});
            BrokenAt(skipped, cancelled, i) == BrokenAt(c, cancelled, i + 1)
    ensures |Live(c.buffer[..i + 1], cancelled)| == |Live(c.buffer[1..][..i], cancelled)|
  {
    hide Live, GivenUp;
    PrefixCons(c.buffer, cancelled, i);
    var skipped := c.(buffer := c.buffer[1..], dropped := c.dropped + {c.buffer[0].id});
    assert BrokenAt(skipped, cancelled, i).dropped == BrokenAt(c, cancelled, i + 1).dropped;
    assert BrokenAt(skipped, cancelled, i).buffer == BrokenAt(c, cancelled, i + 1).buffer;
  }

  lemma BreakAfterWrite(c: Connection, cancelled: set<nat>, i: nat)
    requires i + 1 < |c.buffer| && c.buffer[0].id !in cancelled
    ensures BrokenAt(Written(c), cancelled, i) == BrokenAt(c, cancelled, i + 1)
    ensures |Live(c.buffer[..i + 1], cancelled)| == 1 + |Live(c.buffer[1..][..i], cancelled)|
  {
    hide Live, GivenUp;
    PrefixCons(c.buffer, cancelled, i);
    assert BrokenAt(Written(c), cancelled, i).dropped == BrokenAt(c, cancelled, i + 1).dropped;
    assert BrokenAt(Written(c), cancelled, i).buffer == BrokenAt(c, cancelled, i + 1).buffer;
  }

  lemma PrefixCons(buffer: seq<Message>, cancelled: set<nat>, i: nat)
    requires i + 1 < |buffer|
    ensures var m, rest, front := buffer[0], buffer[1..], buffer[..i + 1];
            && Live(front, cancelled) == (if m.id in cancelled then [] else [m]) + Live(rest[..i], cancelled)
            && GivenUp(front, cancelled) == (if m.id in cancelled then {m.id} else {}) + GivenUp(rest[..i], cancelled)
            && buffer[i + 1..] == rest[i..] && buffer[i + 1] == rest[i]
  {
    var front := buffer[..i + 1];
    assert front[0] == buffer[0] && front[1..] == buffer[1..][..i];
    GivenUpFirst(front, cancelled);
  }

  /** A stream with as many writes as there are messages empties the buffer. */
  lemma FlushEmpties(c: Connection, cancelled: set<nat>, writes: nat)
    requires writes >= |c.buffer|
    ensures FlushBuffer(c, cancelled, writes).buffer == []
  {
    LiveIsShorter(c.buffer, cancelled);
    FlushWritesAll(c, cancelled, writes);
  }

  lemma {:induction false} LiveIsShorter(buffer: seq<Message>, cancelled: set<nat>)
    ensures |Live(buffer, cancelled)| <= |buffer|
    ensures forall i :: 0 <= i < |Live(buffer, cancelled)| ==> Live(buffer, cancelled)[i].id !in cancelled
  {
    if buffer != [] {
      LiveIsShorter(buffer[1..], cancelled);
    }
  }

  // ----- replies belong to what was written -----

  /** On the current stream, the i-th response read was given to the i-th message written, and the
      messages written after those are the ones outstanding. */
  ghost predicate StreamOk(c: Connection) {
    && |c.acks| <= |c.answered| && |c.acks| <= |c.wire| && c.pending == c.wire[|c.acks|..]
    && forall i :: 0 <= i < |c.acks| ==> c.answered[|c.answered| - |c.acks| + i] == Reply(c.wire[i], c.acks[i])
  }

  lemma WrittenOk(c: Connection)
    requires StreamOk(c) && c.buffer != []
    ensures StreamOk(Written(c))
  {
    assert (c.wire + [c.buffer[0]])[|c.acks|..] == c.wire[|c.acks|..] + [c.buffer[0]];
  }

  lemma {:induction false} FlushOk(c: Connection, cancelled: set<nat>, writes: nat)
    requires StreamOk(c)
    ensures StreamOk(FlushBuffer(c, cancelled, writes))
    decreases |c.buffer|
  {
    if c.buffer != [] {
      var m, rest := c.buffer[0], c.buffer[1..];
      if m.id in cancelled {
        FlushOk(c.(buffer := rest, dropped := c.dropped + {m.id}), cancelled, writes);
      } else if writes > 0 {
        WrittenOk(c);
        FlushOk(Written(c), cancelled, writes - 1);
      }
    }
  }

  lemma AckOk(c: Connection, response: seq<int>)
    requires StreamOk(c)
    ensures StreamOk(Handle(c, Ack(response)))
  {
    if c.pending != [] {
      assert c.pending[0] == c.wire[|c.acks|];
      assert c.pending[1..] == c.wire[|c.acks| + 1..];
    }
  }

  /** Over any sequence of events, responses go to the messages they answer: the n-th one read from a
      stream to the n-th message written on it. */
  lemma {:induction false} RepliesMatchWrites(events: seq<Event>)
    ensures StreamOk(Run(events))
    decreases |events|
  {
    hide FlushBuffer, StreamOk;
    if events == [] {
      NewOk();
    } else {
      var front, e := events[..|events| - 1], events[|events| - 1];
      RepliesMatchWrites(front);
      var c := Run(front);
      match e
      case Submit(data) => SubmitOk(c, data);
      case Flush(cancelled, writes) => FlushOk(c, cancelled, writes);
      case Ack(response) => AckOk(c, response);
      case Broken => BrokenOk(c);
    }
  }

  lemma NewOk()
    ensures StreamOk(NEW)
  {
  }

  lemma SubmitOk(c: Connection, data: seq<int>)
    requires StreamOk(c)
    ensures StreamOk(Handle(c, Submit(data)))
  {
  }

  lemma BrokenOk(c: Connection)
    ensures StreamOk(Requeue(c))
  {
  }

  /** A message handed over is not written before the next flush. */
  lemma SubmitOnlyBuffers(c: Connection, data: seq<int>)
    ensures var c' := Handle(c, Submit(data));
            c'.wire == c.wire && c'.pending == c.pending && |c'.buffer| == |c.buffer| + 1 && c'.dropped == c.dropped
  {
  }

  /** The event gives up the stream: the reader closed, an ack came with nothing outstanding, or a
      write failed. */
  ghost predicate Breaks(c: Connection, e: Event) {
    match e
    case Submit(_) => false
    case Flush(cancelled, writes) => |Live(c.buffer, cancelled)| > writes
    case Ack(_) => c.pending == []
    case Broken => true
  }

  /** After a break nothing is outstanding: everything neither answered nor dropped is in the buffer,
      in submission order, to be written again on the next stream. */
  lemma BreakRequeuesAll(events: seq<Event>, e: Event)
    requires Breaks(Run(events), e)
    ensures var c := Run(events + [e]);
            && c.pending == [] && c.wire == [] && c.answered == Run(events).answered
            && |c.answered| <= |Kept(Submitted(events + [e]), c.dropped)|
            && c.buffer == Kept(Submitted(events + [e]), c.dropped)[|c.answered|..]
  {
    hide FlushBuffer, Kept, Submitted;
    assert (events + [e])[..|events|] == events;
    var c, c' := Run(events), Run(events + [e]);
    if e.Flush? {
      var _ := FlushBreaks(c, e.cancelled, e.writes);
    }
    NothingLostOrReordered(events + [e]);
    assert Line(c')[|c'.answered|..] == c'.buffer;
  }

  function EverCancelled(events: seq<Event>): set<nat> {
    if events == [] then {}
    else
      EverCancelled(events[..|events| - 1])
      + (if events[|events| - 1].Flush? then events[|events| - 1].cancelled else {})
  }

  lemma {:induction false} FlushDropsCancelled(c: Connection, cancelled: set<nat>, writes: nat)
    ensures FlushBuffer(c, cancelled, writes).dropped <= c.dropped + cancelled
    decreases |c.buffer|
  {
    if c.buffer != [] {
      var m, rest := c.buffer[0], c.buffer[1..];
      if m.id in cancelled {
        FlushDropsCancelled(c.(buffer := rest, dropped := c.dropped + {m.id}), cancelled, writes);
      } else if writes > 0 {
        FlushDropsCancelled(Written(c), cancelled, writes - 1);
      }
    }
  }

  /** Only messages whose sender gave up are ever dropped. */
  lemma {:induction false} OnlyCancelledDropped(events: seq<Event>)
    ensures Run(events).dropped <= EverCancelled(events)
    decreases |events|
  {
    hide FlushBuffer;
    if events != [] {
      var front, e := events[..|events| - 1], events[|events| - 1];
      OnlyCancelledDropped(front);
      if e.Flush? {
        FlushDropsCancelled(Run(front), e.cancelled, e.writes);
      }
    }
  }

  /** The deques of one connection, updated in place. */
  class ConnectionObject {
    var submitted: nat
    var buffer: seq<Message>
    var pendingReplies: seq<Message>
    var answered: seq<Reply>
    ghost var dropped: set<nat>
    ghost var wire: seq<Message>
    ghost var acks: seq<seq<int>>

    ghost function View(): Connection
      reads this
    {
      Connection(submitted, buffer, pendingReplies, answered, dropped, wire, acks)
    }

    constructor ()
      ensures View() == NEW
    {
      submitted, buffer, pendingReplies, answered, dropped := 0, [], [], [], {};
      wire, acks := [], [];
    }

    method Receive(data: seq<int>)
      modifies this
      ensures View() == Handle(old(View()), Submit(data))
    {
      buffer := buffer + [Message(submitted, data)];
      submitted := submitted + 1;
    }

    /** Returns whether the stream survived. */
    method WriteOut(cancelled: set<nat>, writes: nat) returns (alive: bool)
      modifies this
      ensures View() == Handle(old(View()), Flush(cancelled, writes))
      ensures alive <==> |Live(old(buffer), cancelled)| <= writes
    {
      var left := writes;
      while |buffer| != 0
        invariant FlushBuffer(View(), cancelled, left) == FlushBuffer(old(View()), cancelled, writes)
        invariant |Live(buffer, cancelled)| - left == |Live(old(buffer), cancelled)| - writes
        decreases |buffer|
      {
        var msg := buffer[0];
        buffer := buffer[1..];
        if msg.id in cancelled {
          dropped := dropped + {msg.id};
        } else if left == 0 {
          buffer := [msg] + buffer;
          PutBack();
          return false;
        } else {
          left := left - 1;
          pendingReplies, wire := pendingReplies + [msg], wire + [msg];
        }
      }
      alive := true;
    }

    method Acknowledge(response: seq<int>) returns (alive: bool)
      modifies this
      ensures View() == Handle(old(View()), Ack(response))
      ensures alive <==> old(pendingReplies) != []
    {
      if |pendingReplies| == 0 {
        PutBack();
        return false;
      }
      answered := answered + [Reply(pendingReplies[0], response)];
      pendingReplies, acks := pendingReplies[1..], acks + [response];
      alive := true;
    }

    /** The loop after the connection broke: pop from the back, push to the front. */
    method PutBack()
      modifies this`buffer, this`pendingReplies, this`wire, this`acks
      ensures View() == Requeue(old(View()))
    {
      wire, acks := [], [];
      while |pendingReplies| != 0
        invariant pendingReplies + buffer == old(pendingReplies + buffer) && wire == [] && acks == []
        decreases |pendingReplies|
      {
        var n := |pendingReplies| - 1;
        assert pendingReplies + buffer == pendingReplies[..n] + ([pendingReplies[n]] + buffer);
        buffer := [pendingReplies[n]] + buffer;
        pendingReplies := pendingReplies[..n];
      }
      assert pendingReplies + buffer == buffer;
    }
  }
}
