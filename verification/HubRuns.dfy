/** Whole runs of the hub (internal/notebook/hub/hub.go:22-61): any number of notebooks and subscribers come, go,
    publish and receive in any order, each hub method and each receive being one act. */
module HubRuns {
  import opened Channel
  import opened Hub

  /** A registered channel: how many the hub had made before it, its capacity, and all that happened to it. */
  datatype Live = Live(made: nat, cap: nat, ops: seq<Op>)

  datatype State = State(subs: Registry<Live>, made: nat)
  const INIT := State(map[], 0)

  datatype Act =
    | Sub(notebook: int, conn: string, bufSize: int)
    | Unsub(notebook: int, conn: string)
    | Pub(notebook: int, e: Event)
    | Recv(notebook: int, conn: string)

  function Offered(conns: map<string, Live>, e: Event): map<string, Live> {
    map c | c in conns :: conns[c].(ops := conns[c].ops + [Offer(e)])
  }

  /** A receive that finds nothing waits, and nothing has happened yet. */
  function Taken(ch: Live): Live {
    if Play(ch.cap, ch.ops).buffered == [] then ch else ch.(ops := ch.ops + [Take])
  }

  function Step(s: State, act: Act): State {
    match act
    case Sub(n, c, size) => State(With(s.subs, n, c, Live(s.made, Capacity(size), [])), s.made + 1)
    case Unsub(n, c) => s.(subs := Without(s.subs, n, c))
    case Pub(n, e) => if n !in s.subs then s else s.(subs := s.subs[n := Offered(s.subs[n], e)])
    case Recv(n, c) => if !Has(s.subs, n, c) then s else s.(subs := With(s.subs, n, c, Taken(s.subs[n][c])))
  }

  function RunFrom(s: State, acts: seq<Act>): State {
    if acts == [] then s else Step(RunFrom(s, acts[..|acts| - 1]), acts[|acts| - 1])
  }

  function Run(acts: seq<Act>): State {
    RunFrom(INIT, acts)
  }

  lemma RunFromSnoc(s: State, acts: seq<Act>, act: Act)
    ensures RunFrom(s, acts + [act]) == Step(RunFrom(s, acts), act)
  {
    assert (acts + [act])[..|acts|] == acts;
  }

  lemma {:induction false} RunFromConcat(s: State, acts: seq<Act>, more: seq<Act>)
    ensures RunFrom(s, acts + more) == RunFrom(RunFrom(s, acts), more)
    decreases |more|
  {
    if more == [] {
      assert acts + more == acts;
    } else {
      RunFromConcat(s, acts, more[..|more| - 1]);
      assert (acts + more)[..|acts + more| - 1] == acts + more[..|more| - 1];
    }
  }

  // ---------------------------------------------------------------- what a run owes one subscriber

  predicate Registers(act: Act, notebook: int, conn: string) {
    (act.Sub? || act.Unsub?) && act.notebook == notebook && act.conn == conn
  }

  /** The position of the last act that registered or removed this connection, if any. */
  function LastAct(acts: seq<Act>, notebook: int, conn: string): (k: int)
    ensures -1 <= k < |acts|
  {
    if acts == [] then -1
    else
      var k := |acts| - 1;
      if Registers(acts[k], notebook, conn) then k else LastAct(acts[..k], notebook, conn)
  }

  predicate SubscribedNow(acts: seq<Act>, notebook: int, conn: string) {
    LastAct(acts, notebook, conn) >= 0 && acts[LastAct(acts, notebook, conn)].Sub?
  }

  /** Everything published to the notebook since this connection last registered or was removed. */
  function PublishedSince(acts: seq<Act>, notebook: int, conn: string): seq<Event> {
    if acts == [] then []
    else
      var act, before := acts[|acts| - 1], acts[..|acts| - 1];
      if Registers(act, notebook, conn) then []
      else if act.Pub? && act.notebook == notebook then PublishedSince(before, notebook, conn) + [act.e]
      else PublishedSince(before, notebook, conn)
  }

  function SubsIn(acts: seq<Act>): nat {
    if acts == [] then 0 else SubsIn(acts[..|acts| - 1]) + (if acts[|acts| - 1].Sub? then 1 else 0)
  }

  /** Which connections an act leaves registered, and what becomes of their channels. */
  predicate Stays(s: State, act: Act, notebook: int, conn: string) {
    if Registers(act, notebook, conn) then act.Sub? else Has(s.subs, notebook, conn)
  }

  function Entry(s: State, act: Act, notebook: int, conn: string): Live
    requires Stays(s, act, notebook, conn)
  {
    if Registers(act, notebook, conn) then Live(s.made, Capacity(act.bufSize), [])
    else
      var ch := s.subs[notebook][conn];
      if act.Pub? && act.notebook == notebook then ch.(ops := ch.ops + [Offer(act.e)])
      else if act.Recv? && act.notebook == notebook && act.conn == conn then Taken(ch)
      else ch
  }

  lemma StepEntry(s: State, act: Act, notebook: int, conn: string)
    requires NoEmptyNotebook(s.subs)
    ensures var r := Step(s, act).subs;
            && NoEmptyNotebook(r)
            && (Has(r, notebook, conn) <==> Stays(s, act, notebook, conn))
            && (Has(r, notebook, conn) ==> r[notebook][conn] == Entry(s, act, notebook, conn))
  {
    match act
    case Sub(n, c, size) => WithEntries(s.subs, n, c, Live(s.made, Capacity(size), []));
    case Unsub(n, c) => WithoutEntries(s.subs, n, c);
    case Pub(n, e) =>
      if n in s.subs {
        assert s.subs[n].Keys != {};
        assert Offered(s.subs[n], e).Keys == s.subs[n].Keys;
      }
    case Recv(n, c) => if Has(s.subs, n, c) { WithEntries(s.subs, n, c, Taken(s.subs[n][c])); }
  }

  /** One subscriber in any run of the whole hub: it is registered exactly when its last registration was not
      undone, under the channel made then, and that channel has been offered exactly what was published to its
      notebook since. */
  lemma {:induction false} LiveChannel(acts: seq<Act>, notebook: int, conn: string)
    ensures NoEmptyNotebook(Run(acts).subs) && Run(acts).made == SubsIn(acts)
    ensures Has(Run(acts).subs, notebook, conn) <==> SubscribedNow(acts, notebook, conn)
    ensures Has(Run(acts).subs, notebook, conn) ==>
              var ch, k := Run(acts).subs[notebook][conn], LastAct(acts, notebook, conn);
              && ch.made == SubsIn(acts[..k])
              && ch.cap == Capacity(acts[k].bufSize)
              && Published(ch.ops) == PublishedSince(acts, notebook, conn)
    decreases |acts|
  {
    if acts != [] {
      var n := |acts| - 1;
      var before, act := acts[..n], acts[n];
      LiveChannel(before, notebook, conn);
      StepEntry(Run(before), act, notebook, conn);
      var k := LastAct(before, notebook, conn);
      if k >= 0 { assert before[..k] == acts[..k] && before[k] == acts[k]; }
      if Has(Run(before).subs, notebook, conn) {
        var ch := Run(before).subs[notebook][conn];
        if act.Pub? {
          PlaySnoc(ch.cap, ch.ops, Offer(act.e));
        } else {
          PlaySnoc(ch.cap, ch.ops, Take);
        }
      }
    }
  }

  /** Main result.  In every run of the hub, for every live subscriber: what it has received, followed by what waits
      in its buffer, is exactly, and in order, what was published to its notebook since it subscribed while its buffer
      had room; everything else since then was dropped, and nothing is unaccounted for. */
  lemma EveryLiveSubscriber(acts: seq<Act>, notebook: int, conn: string)
    requires Has(Run(acts).subs, notebook, conn)
    ensures var ch, events := Run(acts).subs[notebook][conn], PublishedSince(acts, notebook, conn);
            var c, room := Play(ch.cap, ch.ops), HadRoom(ch.cap, ch.ops);
            && |room| == |events|
            && c.received + c.buffered == Select(events, room, true)
            && c.dropped == Select(events, room, false)
            && |c.received| + |c.buffered| + |c.dropped| == |events|
            && |c.buffered| <= ch.cap
  {
    LiveChannel(acts, notebook, conn);
    var ch := Run(acts).subs[notebook][conn];
    DeliversWhatFits(ch.cap, ch.ops);
  }

  /** A live subscriber whose buffer had room at every publish has missed nothing since it subscribed. */
  lemma RoomySubscriberMissesNothing(acts: seq<Act>, notebook: int, conn: string)
    requires Has(Run(acts).subs, notebook, conn)
    requires var ch := Run(acts).subs[notebook][conn]; forall room :: room in HadRoom(ch.cap, ch.ops) ==> room
    ensures var ch := Run(acts).subs[notebook][conn];
            Play(ch.cap, ch.ops).received + Play(ch.cap, ch.ops).buffered == PublishedSince(acts, notebook, conn)
  {
    LiveChannel(acts, notebook, conn);
    var ch := Run(acts).subs[notebook][conn];
    NeverFullMissesNothing(ch.cap, ch.ops);
  }

  // ---------------------------------------------------------------- the registry as a whole

  /** A connection is registered exactly when its last registration was not undone, and then under the channel of
      that registration. */
  lemma RegisteredIffLastSubscribed(acts: seq<Act>)
    ensures NoEmptyNotebook(Run(acts).subs)
    ensures forall n, c :: Has(Run(acts).subs, n, c) <==> SubscribedNow(acts, n, c)
    ensures forall n, c :: Has(Run(acts).subs, n, c) && SubscribedNow(acts, n, c) ==>
              Run(acts).subs[n][c].made == SubsIn(acts[..LastAct(acts, n, c)])
  {
    LiveChannel(acts, 0, "");
    forall n, c ensures Has(Run(acts).subs, n, c) <==> SubscribedNow(acts, n, c) {
      LiveChannel(acts, n, c);
    }
    forall n, c | Has(Run(acts).subs, n, c) && SubscribedNow(acts, n, c)
      ensures Run(acts).subs[n][c].made == SubsIn(acts[..LastAct(acts, n, c)])
    {
      LiveChannel(acts, n, c);
    }
  }

  /** No channel is registered under two connections. */
  lemma NoChannelTwice(acts: seq<Act>, n: int, c: string, n': int, c': string)
    requires Has(Run(acts).subs, n, c) && Has(Run(acts).subs, n', c')
    requires Run(acts).subs[n][c].made == Run(acts).subs[n'][c'].made
    ensures n == n' && c == c'
  {
    LiveChannel(acts, n, c);
    LiveChannel(acts, n', c');
    var k, k' := LastAct(acts, n, c), LastAct(acts, n', c');
    LastActIsLast(acts, n, c);
    LastActIsLast(acts, n', c');
    if k < k' {
      SubsGrow(acts, k, k');
    } else if k' < k {
      SubsGrow(acts, k', k);
    }
  }

  lemma {:induction false} SubsGrow(acts: seq<Act>, k: nat, k': nat)
    requires k < k' <= |acts| && acts[k].Sub?
    ensures SubsIn(acts[..k]) < SubsIn(acts[..k'])
    decreases k'
  {
    assert acts[..k'][..k' - 1] == acts[..k' - 1];
    if k < k' - 1 { SubsGrow(acts, k, k' - 1); }
  }

  /** When everyone who subscribed has unsubscribed, the hub is empty again. */
  lemma UnsubscribingEveryoneEmpties(acts: seq<Act>)
    requires forall i :: 0 <= i < |acts| && acts[i].Sub? ==>
               exists j :: i < j < |acts| && acts[j].Unsub? && Registers(acts[j], acts[i].notebook, acts[i].conn)
    ensures Run(acts).subs == map[]
  {
    var r := Run(acts).subs;
    RegisteredIffLastSubscribed(acts);
    forall n, c ensures !Has(r, n, c) {
      LastActIsLast(acts, n, c);
    }
    forall n | n in r ensures false {
      assert r[n].Keys != {};
      var c :| c in r[n].Keys;
      assert Has(r, n, c);
    }
  }

  lemma {:induction false} LastActIsLast(acts: seq<Act>, notebook: int, conn: string)
    ensures forall j :: LastAct(acts, notebook, conn) < j < |acts| ==> !Registers(acts[j], notebook, conn)
    ensures LastAct(acts, notebook, conn) >= 0 ==> Registers(acts[LastAct(acts, notebook, conn)], notebook, conn)
    decreases |acts|
  {
    if acts != [] { LastActIsLast(acts[..|acts| - 1], notebook, conn); }
  }

  // ---------------------------------------------------------------- the hub object makes these steps

  /** The hub object is what the registry of values says. */
  ghost predicate Shows(hub: Hub, live: Registry<Live>)
    reads hub, hub.chans
  {
    && NoEmptyNotebook(live)
    && (forall n, c :: Has(hub.subs, n, c) <==> Has(live, n, c))
    && (forall n, c :: Has(hub.subs, n, c) ==> hub.subs[n][c] in hub.chans && Matches(hub.subs[n][c], live[n][c]))
  }

  ghost predicate Matches(ch: Chan, live: Live)
    reads ch
  {
    ch.cap == live.cap && ch.ops == live.ops
  }

  /** What is known of every connection after an act. */
  ghost predicate Follows(hub: Hub, s: State, act: Act)
    reads hub, hub.chans
  {
    && (forall n, c :: Has(hub.subs, n, c) <==> Stays(s, act, n, c))
    && (forall n, c :: Has(hub.subs, n, c) ==> hub.subs[n][c] in hub.chans && Matches(hub.subs[n][c], Entry(s, act, n, c)))
  }

  lemma ShowsStep(hub: Hub, s: State, act: Act)
    requires NoEmptyNotebook(s.subs) && Follows(hub, s, act)
    ensures Shows(hub, Step(s, act).subs)
  {
    var live: Registry<Live> := Step(s, act).subs;
    StepEntry(s, act, 0, "");
    forall n: int, c: string ensures Has(hub.subs, n, c) <==> Has(live, n, c) {
      StepEntry(s, act, n, c);
    }
    forall n: int, c: string | Has(hub.subs, n, c)
      ensures hub.subs[n][c] in hub.chans && Matches(hub.subs[n][c], live[n][c])
    {
      StepEntry(s, act, n, c);
    }
  }

  /** Any act, made on the hub object by its own method, is the step on values; no other connection changes its
      channel. */
  method Perform(hub: Hub, act: Act, ghost s: State)
    requires hub.Valid() && Shows(hub, s.subs)
    modifies hub, hub.chans
    ensures hub.Valid() && Shows(hub, Step(s, act).subs)
    ensures fresh(hub.chans - old(hub.chans))
    ensures act.Pub? || act.Recv? ==> hub.subs == old(hub.subs)
    ensures act.Unsub? ==> hub.subs == Without(old(hub.subs), act.notebook, act.conn)
    ensures forall n, c :: Has(hub.subs, n, c) && !Registers(act, n, c) ==>
              Has(old(hub.subs), n, c) && hub.subs[n][c] == old(hub.subs)[n][c]
    ensures act.Unsub? && Has(old(hub.subs), act.notebook, act.conn) ==>
              var ch := old(hub.subs)[act.notebook][act.conn];
              ch !in hub.chans && ch.closed && ch.Valid() && ch.ops == old(ch.ops)
  {
    match act {
      case Sub(n, c, size) => PerformSub(hub, n, c, size, s);
      case Unsub(n, c) => PerformUnsub(hub, n, c, s);
      case Pub(n, e) => PerformPub(hub, n, e, s);
      case Recv(n, c) => PerformRecv(hub, n, c, s);
    }
    ShowsStep(hub, s, act);
  }

  method PerformSub(hub: Hub, n: int, c: string, size: int, ghost s: State)
    requires hub.Valid() && Shows(hub, s.subs)
    modifies hub
    ensures hub.Valid() && Follows(hub, s, Sub(n, c, size)) && fresh(hub.chans - old(hub.chans))
    ensures forall n', c' :: Has(hub.subs, n', c') && !(n' == n && c' == c) ==>
              Has(old(hub.subs), n', c') && hub.subs[n'][c'] == old(hub.subs)[n'][c']
  {
    ghost var before := hub.subs;
    var ch := hub.Subscribe(n, c, size);
    WithEntries(before, n, c, ch);
    FollowsSub(hub, s, n, c, size);
  }

  /** One new channel; the others match as before. */
  lemma FollowsSub(hub: Hub, s: State, n: int, c: string, size: int)
    requires forall n', c' :: Has(hub.subs, n', c') <==> Has(s.subs, n', c') || (n' == n && c' == c)
    requires Has(hub.subs, n, c) && hub.subs[n][c].cap == Capacity(size) && hub.subs[n][c].ops == []
    requires forall n', c' :: Has(hub.subs, n', c') ==> hub.subs[n'][c'] in hub.chans
    requires forall n', c' :: Has(hub.subs, n', c') && !(n' == n && c' == c) ==>
               Has(s.subs, n', c') && Matches(hub.subs[n'][c'], s.subs[n'][c'])
    ensures Follows(hub, s, Sub(n, c, size))
  {}

  method PerformUnsub(hub: Hub, n: int, c: string, ghost s: State)
    requires hub.Valid() && Shows(hub, s.subs)
    modifies hub, hub.chans
    ensures hub.Valid() && Follows(hub, s, Unsub(n, c)) && hub.chans <= old(hub.chans)
    ensures hub.subs == Without(old(hub.subs), n, c)
    ensures forall n', c' :: Has(hub.subs, n', c') ==>
              Has(old(hub.subs), n', c') && hub.subs[n'][c'] == old(hub.subs)[n'][c']
    ensures Has(old(hub.subs), n, c) ==>
              var ch := old(hub.subs)[n][c]; ch !in hub.chans && ch.closed && ch.Valid() && ch.ops == old(ch.ops)
  {
    WithoutEntries(hub.subs, n, c);
    if Has(hub.subs, n, c) {
      OtherChannels(hub.subs, n, c);
    }
    hub.Unsubscribe(n, c);
    FollowsUnsub(hub, s, n, c);
  }

  /** One connection is gone; the others match as before. */
  lemma FollowsUnsub(hub: Hub, s: State, n: int, c: string)
    requires forall n', c' :: Has(hub.subs, n', c') <==> Has(s.subs, n', c') && !(n' == n && c' == c)
    requires forall n', c' :: Has(hub.subs, n', c') ==>
               hub.subs[n'][c'] in hub.chans && Has(s.subs, n', c') && Matches(hub.subs[n'][c'], s.subs[n'][c'])
    ensures Follows(hub, s, Unsub(n, c))
  {}

  method PerformPub(hub: Hub, n: int, e: Event, ghost s: State)
    requires hub.Valid() && Shows(hub, s.subs)
    modifies hub.chans
    ensures hub.Valid() && Follows(hub, s, Pub(n, e))
  {
    assert forall c :: c in Conns(hub.subs, n) ==> Has(hub.subs, n, c);
    OwnChannels(hub.subs, n);
    hub.Publish(n, e);
    FollowsPub(hub, s, n, e);
  }

  /** The channels of one notebook have been offered the event; the others match as before. */
  lemma FollowsPub(hub: Hub, s: State, n: int, e: Event)
    requires forall n', c' :: Has(hub.subs, n', c') <==> Has(s.subs, n', c')
    requires forall n', c' :: Has(hub.subs, n', c') ==> hub.subs[n'][c'] in hub.chans
    requires forall n', c' :: Has(hub.subs, n', c') ==>
               Has(s.subs, n', c')
               && hub.subs[n'][c'].cap == s.subs[n'][c'].cap
               && hub.subs[n'][c'].ops == s.subs[n'][c'].ops + (if n' == n then [Offer(e)] else [])
    ensures Follows(hub, s, Pub(n, e))
  {}

  /** No channel of another notebook is a channel of this one. */
  lemma OwnChannels<C>(subs: Registry<C>, n: int)
    requires Separate(subs)
    ensures forall n', c' :: Has(subs, n', c') && n' != n ==> subs[n'][c'] !in Conns(subs, n).Values
  {
    forall n', c' | Has(subs, n', c') && n' != n ensures subs[n'][c'] !in Conns(subs, n).Values {
      assert forall c :: c in Conns(subs, n) ==> Has(subs, n, c) && subs[n][c] == Conns(subs, n)[c];
    }
  }

  lemma OtherChannels<C>(subs: Registry<C>, n: int, c: string)
    requires Separate(subs) && Has(subs, n, c)
    ensures forall n', c' :: Has(subs, n', c') && !(n' == n && c' == c) ==> subs[n'][c'] != subs[n][c]
  {}

  method PerformRecv(hub: Hub, n: int, c: string, ghost s: State)
    requires hub.Valid() && Shows(hub, s.subs)
    modifies hub.chans
    ensures hub.Valid() && Follows(hub, s, Recv(n, c))
  {
    if Has(hub.subs, n, c) {
      OtherChannels(hub.subs, n, c);
      ReceiveIfAny(hub.subs[n][c]);
      FollowsRecv(hub, s, n, c);
    }
  }

  /** One channel has been taken from; the others match as before. */
  lemma FollowsRecv(hub: Hub, s: State, n: int, c: string)
    requires forall n', c' :: Has(hub.subs, n', c') <==> Has(s.subs, n', c')
    requires Has(hub.subs, n, c) && Has(s.subs, n, c) && Matches(hub.subs[n][c], Taken(s.subs[n][c]))
    requires forall n', c' :: Has(hub.subs, n', c') ==> hub.subs[n'][c'] in hub.chans
    requires forall n', c' :: Has(hub.subs, n', c') && !(n' == n && c' == c) ==>
               Has(s.subs, n', c') && Matches(hub.subs[n'][c'], s.subs[n'][c'])
    ensures Follows(hub, s, Recv(n, c))
  {}

  /** A receive that does not wait: it takes the oldest event if there is one. */
  method ReceiveIfAny(ch: Chan)
    requires ch.Valid() && !ch.closed
    modifies ch
    ensures ch.Valid() && !ch.closed
    ensures ch.ops == if Play(ch.cap, old(ch.ops)).buffered == [] then old(ch.ops) else old(ch.ops) + [Take]
  {
    if ch.buffer != [] {
      var _ := ch.Receive();
    }
  }
}
