/** The scheduler's event channel: a buffer of 16, a producer that never blocks, and a consumer
    that may receive at any moment, also between the producer's three selects. */
module Events {

  const CAPACITY: nat := 16

  // `received` and `emitted` are what the consumer got and what the producer meant to send so far.
  datatype Channel<E> = Channel(queue: seq<E>, received: seq<E>, emitted: seq<E>, closed: bool)

  // The consumer receives n events, or all of them if there are fewer.
  function Take<E>(c: Channel<E>, n: nat): Channel<E> {
    var k := if n <= |c.queue| then n else |c.queue|;
    c.(queue := c.queue[k..], received := c.received + c.queue[..k])
  }

  // One non-blocking send.
  function Offer<E>(c: Channel<E>, e: E): Channel<E> {
    if |c.queue| < CAPACITY then c.(queue := c.queue + [e]) else c
  }

  // Dropping the oldest queued event, if there is one.
  function DropOldest<E>(c: Channel<E>): Channel<E> {
    c.(queue := if c.queue == [] then [] else c.queue[1..])
  }

  // The consumer takes `first` events after a failed send and `second` after the drop.
  function Emit<E>(c: Channel<E>, e: E, first: nat, second: nat): Channel<E> {
    if c.closed then c
    else
      var c1 := c.(emitted := c.emitted + [e]);
      if |c1.queue| < CAPACITY then Offer(c1, e)
      else
        Offer(Take(DropOldest(Take(c1, first)), second), e)
  }

  function Close<E>(c: Channel<E>): Channel<E> {
    c.(closed := true)
  }

  ghost predicate Subsequence<E(!new)>(a: seq<E>, b: seq<E>)
    decreases b
  {
    a == [] || (b != [] && ((a[0] == b[0] && Subsequence(a[1..], b[1..])) || Subsequence(a, b[1..])))
  }

  lemma {:induction false} SubsequenceGrows<E(!new)>(a: seq<E>, b: seq<E>, e: E)
    requires Subsequence(a, b)
    ensures Subsequence(a, b + [e]) && Subsequence(a + [e], b + [e])
    decreases b
  {
    if b == [] {
      assert Subsequence([e][1..], (b + [e])[1..]);
    } else {
      assert (b + [e])[1..] == b[1..] + [e];
      if a != [] && a[0] == b[0] && Subsequence(a[1..], b[1..]) {
        SubsequenceGrows(a[1..], b[1..], e);
        assert (a + [e])[1..] == a[1..] + [e];
      } else {
        if a == [] { assert Subsequence(a, b[1..]); }
        SubsequenceGrows(a, b[1..], e);
      }
    }
  }

  lemma {:induction false} SubsequenceTail<E(!new)>(a: seq<E>, b: seq<E>)
    requires a != [] && Subsequence(a, b)
    ensures Subsequence(a[1..], b)
    decreases b
  {
    if a[0] == b[0] && Subsequence(a[1..], b[1..]) {
    } else {
      SubsequenceTail(a, b[1..]);
    }
  }

  lemma {:induction false} SubsequenceDrop<E(!new)>(a: seq<E>, k: nat, b: seq<E>)
    requires k < |a| && Subsequence(a, b)
    ensures Subsequence(a[..k] + a[k + 1..], b)
    decreases b
  {
    var c := a[..k] + a[k + 1..];
    if k == 0 {
      SubsequenceTail(a, b);
      assert c == a[1..];
    } else if a[0] == b[0] && Subsequence(a[1..], b[1..]) {
      SubsequenceDrop(a[1..], k - 1, b[1..]);
      assert c[1..] == a[1..][..k - 1] + a[1..][k..];
    } else {
      SubsequenceDrop(a, k, b[1..]);
    }
  }

  function Last<E>(s: seq<E>): E
    requires s != []
  {
    s[|s| - 1]
  }

  ghost predicate Inv<E(!new)>(c: Channel<E>) {
    && |c.queue| <= CAPACITY
    && Subsequence(c.received + c.queue, c.emitted)
    && (c.emitted != [] ==> c.received + c.queue != [] && Last(c.received + c.queue) == Last(c.emitted))
  }

  lemma {:induction false} TakeKeeps<E(!new)>(c: Channel<E>, n: nat)
    ensures Take(c, n).received + Take(c, n).queue == c.received + c.queue
  {
  }

  lemma {:induction false} DropKeeps<E(!new)>(c: Channel<E>, b: seq<E>)
    requires Subsequence(c.received + c.queue, b)
    ensures Subsequence(DropOldest(c).received + DropOldest(c).queue, b)
  {
    hide Subsequence;
    if c.queue != [] {
      var all, k := c.received + c.queue, |c.received|;
      SubsequenceDrop(all, k, b);
      assert all[..k] + all[k + 1..] == c.received + c.queue[1..];
    }
  }

  lemma {:induction false} OfferKeeps<E(!new)>(c: Channel<E>, b: seq<E>, e: E)
    requires Subsequence(c.received + c.queue, b) && c.emitted == b + [e] && |c.queue| < CAPACITY
    ensures Inv(Offer(c, e)) && Offer(c, e).queue != [] && Last(Offer(c, e).queue) == e
  {
    hide Subsequence;
    SubsequenceGrows(c.received + c.queue, b, e);
    assert Offer(c, e).received + Offer(c, e).queue == c.received + c.queue + [e];
  }

  lemma {:induction false} EmitKeeps<E(!new)>(c: Channel<E>, e: E, first: nat, second: nat)
    requires Inv(c)
    ensures Inv(Emit(c, e, first, second))
    ensures !c.closed ==> var q := Emit(c, e, first, second).queue; q != [] && Last(q) == e
  {
    hide Subsequence;
    if !c.closed {
      var c1 := c.(emitted := c.emitted + [e]);
      if |c1.queue| < CAPACITY {
        OfferKeeps(c1, c.emitted, e);
      } else {
        var c2 := Take(c1, first);
        var c3 := DropOldest(c2);
        TakeKeeps(c1, first);
        DropKeeps(c2, c.emitted);
        TakeKeeps(c3, second);
        OfferKeeps(Take(c3, second), c.emitted, e);
      }
    }
  }

  // What a full channel loses to make room: its oldest event at the time of the drop.
  function Lost<E>(queue: seq<E>, taken: nat): seq<E> {
    if taken < |queue| then queue[..taken] + queue[taken + 1..] else queue
  }

  lemma {:induction false} TakeThenDrop<E(!new)>(c: Channel<E>, n: nat)
    ensures var d := DropOldest(Take(c, n));
            && d.received + d.queue == c.received + Lost(c.queue, n) && c.received <= d.received
            && |d.queue| <= if c.queue == [] then 0 else |c.queue| - 1
  {
    var t := Take(c, n);
    var k := if n <= |c.queue| then n else |c.queue|;
    assert t.queue == c.queue[k..] && t.received == c.received + c.queue[..k];
    if n < |c.queue| {
      assert t.queue[1..] == c.queue[n + 1..];
      assert t.received + c.queue[n + 1..] == c.received + (c.queue[..n] + c.queue[n + 1..]);
    } else {
      assert c.queue[..k] == c.queue;
    }
  }

  /** The effect of an emit on an open channel: with room the event joins the queue and nothing
      else changes; a full channel loses one event, the oldest of those the consumer has not taken
      by then, or none when it has taken all. What was received stays received. */
  lemma {:induction false} EmitEffect<E(!new)>(c: Channel<E>, e: E, first: nat, second: nat)
    requires |c.queue| <= CAPACITY && !c.closed
    ensures var d := Emit(c, e, first, second);
            && d.emitted == c.emitted + [e] && !d.closed && c.received <= d.received
            && (|c.queue| < CAPACITY ==> d.queue == c.queue + [e] && d.received == c.received)
            && (|c.queue| == CAPACITY ==>
                  d.queue != [] && d.received + d.queue == c.received + Lost(c.queue, first) + [e])
  {
    if |c.queue| == CAPACITY {
      var c1 := c.(emitted := c.emitted + [e]);
      var c2 := DropOldest(Take(c1, first));
      var c3 := Take(c2, second);
      TakeThenDrop(c1, first);
      TakeKeeps(c2, second);
      assert c2.received <= c3.received;
      assert Emit(c, e, first, second) == Offer(c3, e);
      assert |c3.queue| <= |c2.queue| < CAPACITY;
      hide Take, DropOldest, Lost, Emit;
      assert c3.received + (c3.queue + [e]) == (c3.received + c3.queue) + [e];
    }
  }

  datatype Action<E> = Send(event: E, first: nat, second: nat) | Receive(n: nat) | Shut

  function Act<E>(c: Channel<E>, a: Action<E>): Channel<E> {
    match a
    case Send(e, first, second) => Emit(c, e, first, second)
    case Receive(n) => Take(c, n)
    case Shut => Close(c)
  }

  function ActAll<E>(c: Channel<E>, actions: seq<Action<E>>): Channel<E>
    decreases actions
  {
    if actions == [] then c else ActAll(Act(c, actions[0]), actions[1..])
  }

  // The events sent before the first close.
  function SentWhileOpen<E>(actions: seq<Action<E>>): seq<E> {
    if actions == [] || actions[0].Shut? then []
    else (if actions[0].Send? then [actions[0].event] else []) + SentWhileOpen(actions[1..])
  }

  lemma {:induction false} ActKeeps<E(!new)>(c: Channel<E>, a: Action<E>)
    requires Inv(c)
    ensures var c' := Act(c, a);
            && Inv(c') && c'.closed == (c.closed || a.Shut?)
            && c'.emitted == (if a.Send? && !c.closed then c.emitted + [a.event] else c.emitted)
            && (c.closed || !a.Send? ==> c'.received + c'.queue == c.received + c.queue)
  {
    hide Subsequence;
    match a
    case Send(e, first, second) => EmitKeeps(c, e, first, second);
    case Receive(n) => TakeKeeps(c, n);
    case Shut =>
  }

  /** Whatever the consumer's timing: the buffer never exceeds its capacity, and what was received
      followed by what is queued is a subsequence of what was emitted, ending with the newest. */
  lemma {:induction false} ActAllKeeps<E(!new)>(c: Channel<E>, actions: seq<Action<E>>)
    requires Inv(c)
    ensures Inv(ActAll(c, actions))
    ensures c.closed ==> ActAll(c, actions).closed && ActAll(c, actions).emitted == c.emitted
                         && ActAll(c, actions).received + ActAll(c, actions).queue == c.received + c.queue
    ensures !c.closed ==> ActAll(c, actions).emitted == c.emitted + SentWhileOpen(actions)
    decreases actions
  {
    hide Inv, Emit, Take;
    if actions != [] {
      ActKeeps(c, actions[0]);
      ActAllKeeps(Act(c, actions[0]), actions[1..]);
      if !c.closed && actions[0].Send? {
        assert c.emitted + [actions[0].event] + SentWhileOpen(actions[1..]) == c.emitted + SentWhileOpen(actions);
      }
    }
  }

  /** From an empty channel: at most 16 queued, a subsequence of the sends made before the first
      close that ends with the newest of them, and nothing after that close, close it once or twice. */
  lemma {:induction false} Delivery<E(!new)>(actions: seq<Action<E>>)
    ensures var c := ActAll(Channel([], [], [], false), actions);
            var sent := SentWhileOpen(actions);
            && |c.queue| <= CAPACITY
            && Subsequence(c.received + c.queue, sent)
            && (sent != [] ==> c.received + c.queue != [] && Last(c.received + c.queue) == Last(sent))
  {
    var start: Channel<E> := Channel([], [], [], false);
    assert start.received + start.queue == [];
    ActAllKeeps(start, actions);
    assert [] + SentWhileOpen(actions) == SentWhileOpen(actions);
  }

  /** The channel as the scheduler holds it. */
  class EventChannel<E> {
    var queue: seq<E>
    var eventsClosed: bool
    ghost var received: seq<E>
    ghost var emitted: seq<E>

    ghost function Abs(): Channel<E>
      reads this
    {
      Channel(queue, received, emitted, eventsClosed)
    }

    constructor ()
      ensures Abs() == Channel([], [], [], false)
    {
      queue, eventsClosed, received, emitted := [], false, [], [];
    }

    method Consume(n: nat)
      modifies this`queue, this`received
      ensures Abs() == Take(old(Abs()), n)
    {
      var i := 0;
      while i < n && queue != []
        invariant 0 <= i <= n && i <= |old(queue)|
        invariant queue == old(queue)[i..] && received == old(received) + old(queue)[..i]
      {
        received := received + [queue[0]];
        queue := queue[1..];
        i := i + 1;
      }
      assert i == if n <= |old(queue)| then n else |old(queue)|;
    }

    method EmitLocked(e: E, first: nat, second: nat)
      modifies this
      ensures Abs() == Emit(old(Abs()), e, first, second)
    {
      if eventsClosed {
        return;
      }
      emitted := emitted + [e];
      if |queue| < CAPACITY {
        queue := queue + [e];
        return;
      }
      Consume(first);
      if queue != [] {
        queue := queue[1..];
      }
      Consume(second);
      if |queue| < CAPACITY {
        queue := queue + [e];
      }
    }

    method CloseOnce() returns (closedNow: bool)
      modifies this`eventsClosed
      ensures Abs() == Close(old(Abs())) && closedNow == !old(eventsClosed)
    {
      closedNow := !eventsClosed;
      if !eventsClosed {
        eventsClosed := true;
      }
    }
  }
}
