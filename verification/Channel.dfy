/** One subscriber's bounded channel, as the hub uses it: a send that gives up when the buffer is full
    (internal/notebook/hub/hub.go:55-60), a receive, and a close. */
module Channel {
  datatype Event = Event(notebook: int, payload: string)

  /** Everything that happens to an open channel, in order.  Publish and receive are atomic. */
  datatype Op = Offer(e: Event) | Take

  datatype Contents = Contents(received: seq<Event>, buffered: seq<Event>, dropped: seq<Event>)

  function Play(cap: nat, ops: seq<Op>): Contents {
    if ops == [] then Contents([], [], [])
    else
      var c := Play(cap, ops[..|ops| - 1]);
      match ops[|ops| - 1]
      case Offer(e) =>
        if |c.buffered| < cap then c.(buffered := c.buffered + [e]) else c.(dropped := c.dropped + [e])
      case Take =>
        if c.buffered == [] then c
        else c.(received := c.received + [c.buffered[0]], buffered := c.buffered[1..])
  }

  function Published(ops: seq<Op>): seq<Event> {
    if ops == [] then []
    else
      var p := Published(ops[..|ops| - 1]);
      if ops[|ops| - 1].Offer? then p + [ops[|ops| - 1].e] else p
  }

  /** For each published event, whether the buffer had room at that moment. */
  function HadRoom(cap: nat, ops: seq<Op>): (mask: seq<bool>)
    ensures |mask| == |Published(ops)|
  {
    if ops == [] then []
    else
      var before := ops[..|ops| - 1];
      if ops[|ops| - 1].Offer? then HadRoom(cap, before) + [|Play(cap, before).buffered| < cap]
      else HadRoom(cap, before)
  }

  /** The elements of `s` whose flag is `want`, in order: a subsequence. */
  function Select<T>(s: seq<T>, mask: seq<bool>, want: bool): seq<T>
    requires |s| == |mask|
  {
    if s == [] then []
    else
      var n := |s| - 1;
      if mask[n] == want then Select(s[..n], mask[..n], want) + [s[n]] else Select(s[..n], mask[..n], want)
  }

  lemma SelectSnoc<T>(s: seq<T>, mask: seq<bool>, want: bool, x: T, flag: bool)
    requires |s| == |mask|
    ensures Select(s + [x], mask + [flag], want) == Select(s, mask, want) + (if flag == want then [x] else [])
  {
    assert (s + [x])[..|s|] == s && (mask + [flag])[..|s|] == mask;
  }

  /** Main result.  What a subscriber has received, followed by what waits in its buffer, is exactly
      the events published while there was room, in order; the rest are dropped. */
  lemma {:induction false} DeliversWhatFits(cap: nat, ops: seq<Op>)
    ensures var c := Play(cap, ops);
            && c.received + c.buffered == Select(Published(ops), HadRoom(cap, ops), true)
            && c.dropped == Select(Published(ops), HadRoom(cap, ops), false)
            && |c.received| + |c.buffered| + |c.dropped| == |Published(ops)|
            && |c.buffered| <= cap
    decreases |ops|
  {
    if ops != [] {
      var before := ops[..|ops| - 1];
      DeliversWhatFits(cap, before);
      var c := Play(cap, before);
      match ops[|ops| - 1]
      case Offer(e) =>
        var room := |c.buffered| < cap;
        SelectSnoc(Published(before), HadRoom(cap, before), true, e, room);
        SelectSnoc(Published(before), HadRoom(cap, before), false, e, room);
        assert c.received + (c.buffered + [e]) == (c.received + c.buffered) + [e];
      case Take =>
        if c.buffered != [] {
          assert c.received + [c.buffered[0]] + c.buffered[1..] == c.received + c.buffered;
        }
    }
  }

  lemma {:induction false} SelectAll<T>(s: seq<T>, mask: seq<bool>)
    requires |s| == |mask| && forall b :: b in mask ==> b
    ensures Select(s, mask, true) == s
    decreases |s|
  {
    if s != [] {
      var n := |s| - 1;
      assert mask[n] in mask && forall b :: b in mask[..n] ==> b in mask;
      SelectAll(s[..n], mask[..n]);
      assert s == s[..n] + [s[n]];
    }
  }

  /** A subscriber whose buffer has room at every publish misses nothing. */
  lemma NeverFullMissesNothing(cap: nat, ops: seq<Op>)
    requires forall room :: room in HadRoom(cap, ops) ==> room
    ensures Play(cap, ops).received + Play(cap, ops).buffered == Published(ops)
  {
    DeliversWhatFits(cap, ops);
    SelectAll(Published(ops), HadRoom(cap, ops));
  }

  lemma PlaySnoc(cap: nat, ops: seq<Op>, op: Op)
    ensures var c := Play(cap, ops);
            Play(cap, ops + [op]) == match op
              case Offer(e) => if |c.buffered| < cap then c.(buffered := c.buffered + [e]) else c.(dropped := c.dropped + [e])
              case Take => if c.buffered == [] then c
                           else c.(received := c.received + [c.buffered[0]], buffered := c.buffered[1..])
    ensures Published(ops + [op]) == Published(ops) + (if op.Offer? then [op.e] else [])
  {
    assert (ops + [op])[..|ops|] == ops;
  }

  class Chan {
    const cap: nat
    var buffer: seq<Event>
    var closed: bool
    ghost var ops: seq<Op>  // everything since the channel was made

    ghost predicate Valid()
      reads this
    {
      buffer == Play(cap, ops).buffered
    }

    constructor (cap: nat)
      ensures Valid() && this.cap == cap && ops == [] && !closed
    {
      this.cap := cap;
      buffer, closed, ops := [], false, [];
    }

    /** A send inside a select with a default case.  Sending on a closed channel panics. */
    method TrySend(e: Event)
      requires Valid() && !closed
      modifies this
      ensures Valid() && !closed && ops == old(ops) + [Offer(e)]
    {
      PlaySnoc(cap, ops, Offer(e));
      if |buffer| < cap {
        buffer := buffer + [e];
      }
      ops := ops + [Offer(e)];
    }

    /** A receive that finds something buffered: the oldest event, even after a close. */
    method Receive() returns (e: Event)
      requires Valid() && buffer != []
      modifies this
      ensures Valid() && closed == old(closed) && ops == old(ops) + [Take] && e == old(buffer)[0]
      ensures Play(cap, ops).received == Play(cap, old(ops)).received + [e]
    {
      PlaySnoc(cap, ops, Take);
      e := buffer[0];
      buffer := buffer[1..];
      ops := ops + [Take];
    }

    /** Closing a closed channel panics. */
    method Close()
      requires Valid() && !closed
      modifies this
      ensures Valid() && closed && ops == old(ops)
    {
      closed := true;
    }
  }
}
