/** The loop that serves one subscriber (internal/notebook/grpc/server.go:231-284): subscribe, forward until the
    client goes away, the channel is closed or a send fails, and unsubscribe on the way out.  Meanwhile others use
    the hub as they like. */
module Stream {
  import opened Channel
  import opened Hub
  import opened HubRuns

  const STREAM_BUF_SIZE := 64

  /** One round as the loop meets it: what others do to the hub first, then what the select picks. */
  datatype Turn = Turn(others: seq<Act>, pick: Pick)
  datatype Pick = Idle | Forward(sendOk: bool) | ContextDone
  datatype Outcome = Waiting | Sent | SendFailed | Closed

  /** The subscription the loop serves. */
  datatype Client = Client(notebook: int, conn: string)

  // ---------------------------------------------------------------- the loop on values

  /** The connection id is fresh: nobody else subscribes under it or takes from its channel. */
  predicate ByOthers(act: Act, me: Client) {
    !((act.Sub? || act.Recv?) && act.notebook == me.notebook && act.conn == me.conn)
  }

  ghost predicate ActsByOthers(acts: seq<Act>, me: Client) {
    forall act :: act in acts ==> ByOthers(act, me)
  }

  ghost predicate AllByOthers(turns: seq<Turn>, me: Client) {
    forall i :: 0 <= i < |turns| ==> ActsByOthers(turns[i].others, me)
  }

  /** Nobody has removed the connection. */
  predicate Listening(acts: seq<Act>, me: Client) {
    Unsub(me.notebook, me.conn) !in acts
  }

  /** Nobody comes or leaves. */
  ghost predicate Quiet(acts: seq<Act>) {
    forall act :: act in acts ==> act.Pub? || act.Recv?
  }

  predicate Hears(me: Client, past: seq<Act>, act: Act) {
    act.Pub? && act.notebook == me.notebook && Listening(past, me)
  }

  /** What one act, or several, of others after `past` do to the channel. */
  function Hear(me: Client, past: seq<Act>, act: Act, ops: seq<Op>): seq<Op> {
    if Hears(me, past, act) then ops + [Offer(act.e)] else ops
  }

  function HearAll(me: Client, past: seq<Act>, acts: seq<Act>, ops: seq<Op>): seq<Op> {
    if acts == [] then ops
    else
      var n := |acts| - 1;
      Hear(me, past + acts[..n], acts[n], HearAll(me, past, acts[..n], ops))
  }

  function Buffered(ops: seq<Op>): seq<Event> {
    Play(STREAM_BUF_SIZE, ops).buffered
  }

  function Received(ops: seq<Op>): seq<Event> {
    Play(STREAM_BUF_SIZE, ops).received
  }

  /** A closed channel still delivers what it has buffered, then reports the close. */
  function Picked(pick: Pick, ops: seq<Op>, listening: bool): Outcome {
    match pick
    case Idle => Waiting
    case ContextDone => Closed
    case Forward(sendOk) =>
      if Buffered(ops) != [] then if sendOk then Sent else SendFailed
      else if listening then Waiting else Closed
  }

  predicate Takes(pick: Pick, ops: seq<Op>) {
    pick.Forward? && Buffered(ops) != []
  }

  /** What the hub's run holds for one round: the others' acts, then the loop's receive from a registered channel. */
  function ActsOf(me: Client, turn: Turn, ready: seq<Op>, listening: bool): seq<Act> {
    turn.others + if Takes(turn.pick, ready) && listening then [Recv(me.notebook, me.conn)] else []
  }

  /** So far: what others have done, what has happened to the channel, and the hub's run with the loop's receives. */
  datatype View = View(past: seq<Act>, ops: seq<Op>, acts: seq<Act>)
  const START := View([], [], [])

  /** The channel when the round reaches its select. */
  function Ready(me: Client, v: View, turn: Turn): seq<Op> {
    HearAll(me, v.past, turn.others, v.ops)
  }

  function OutcomeOf(me: Client, v: View, turn: Turn): Outcome {
    Picked(turn.pick, Ready(me, v, turn), Listening(v.past + turn.others, me))
  }

  function Advance(me: Client, v: View, turn: Turn): View {
    var past, ready := v.past + turn.others, Ready(me, v, turn);
    View(past, if Takes(turn.pick, ready) then ready + [Take] else ready,
         v.acts + ActsOf(me, turn, ready, Listening(past, me)))
  }

  function After(me: Client, turns: seq<Turn>, k: nat): View
    requires k <= |turns|
  {
    if k == 0 then START else Advance(me, After(me, turns, k - 1), turns[k - 1])
  }

  /** How round `k` ends. */
  function EndOf(me: Client, turns: seq<Turn>, k: nat): Outcome
    requires k < |turns|
  {
    OutcomeOf(me, After(me, turns, k), turns[k])
  }

  /** The loop stops after the first round that closes or fails, and otherwise goes on. */
  ghost predicate GoesOn(me: Client, turns: seq<Turn>, rounds: nat)
    requires rounds <= |turns|
  {
    forall k :: 0 <= k < rounds ==> EndOf(me, turns, k).Waiting? || EndOf(me, turns, k).Sent?
  }

  ghost predicate StopsAfter(me: Client, turns: seq<Turn>, rounds: nat) {
    && rounds <= |turns|
    && (rounds > 0 ==> GoesOn(me, turns, rounds - 1))
    && (rounds < |turns| ==>
          rounds > 0 && (EndOf(me, turns, rounds - 1).Closed? || EndOf(me, turns, rounds - 1).SendFailed?))
  }

  /** What others publish to the notebook until somebody removes the connection. */
  function Heard(acts: seq<Act>, me: Client): seq<Event> {
    if acts == [] then []
    else
      var act, before := acts[|acts| - 1], acts[..|acts| - 1];
      if Hears(me, before, act) then Heard(before, me) + [act.e] else Heard(before, me)
  }

  /** Others only add offers: the events heard, and nothing delivered. */
  lemma {:induction false} HearAllAdds(me: Client, past: seq<Act>, acts: seq<Act>, ops: seq<Op>)
    ensures Published(ops) == Heard(past, me) ==> Published(HearAll(me, past, acts, ops)) == Heard(past + acts, me)
    ensures Received(HearAll(me, past, acts, ops)) == Received(ops)
    decreases |acts|
  {
    if acts == [] {
      assert past + acts == past;
    } else {
      var n := |acts| - 1;
      HearAllAdds(me, past, acts[..n], ops);
      assert (past + acts)[..|past + acts| - 1] == past + acts[..n];
      if acts[n].Pub? {
        PlaySnoc(STREAM_BUF_SIZE, HearAll(me, past, acts[..n], ops), Offer(acts[n].e));
      }
    }
  }

  /** One round offers the channel what there was to hear, and delivers at most the oldest event that waits. */
  lemma RoundDelivers(me: Client, v: View, turn: Turn)
    ensures var v', ready := Advance(me, v, turn), Ready(me, v, turn);
            && (Published(v.ops) == Heard(v.past, me) ==> Published(v'.ops) == Heard(v'.past, me))
            && (if Takes(turn.pick, ready) then Received(v'.ops) == Received(v.ops) + [Buffered(ready)[0]]
                else Received(v'.ops) == Received(v.ops))
  {
    HearAllAdds(me, v.past, turn.others, v.ops);
    PlaySnoc(STREAM_BUF_SIZE, Ready(me, v, turn), Take);
  }

  /** The channel is offered exactly what there is to hear. */
  lemma {:induction false} OfferedIsHeard(me: Client, turns: seq<Turn>, k: nat)
    requires k <= |turns|
    ensures Published(After(me, turns, k).ops) == Heard(After(me, turns, k).past, me)
    decreases k
  {
    if k > 0 {
      OfferedIsHeard(me, turns, k - 1);
      RoundDelivers(me, After(me, turns, k - 1), turns[k - 1]);
    }
  }

  /** What the client gets when the loop has run for so many rounds: all its channel has delivered, except the event
      whose send failed. */
  function Forwarded(me: Client, turns: seq<Turn>, rounds: nat): seq<Event>
    requires rounds <= |turns|
  {
    var got := Received(After(me, turns, rounds).ops);
    if rounds > 0 && EndOf(me, turns, rounds - 1).SendFailed? && got != [] then got[..|got| - 1] else got
  }

  /** The loop has run these rounds without stopping, and the client has got all that was delivered. */
  ghost predicate SoFar(me: Client, turns: seq<Turn>, rounds: nat, v: View, client: seq<Event>) {
    && rounds <= |turns| && GoesOn(me, turns, rounds) && v == After(me, turns, rounds)
    && client == Received(v.ops)
  }

  /** The loop has stopped when it should, the client has got what it should, and the error is that of a failed send. */
  ghost predicate Served(me: Client, turns: seq<Turn>, rounds: nat, client: seq<Event>, failed: bool) {
    && StopsAfter(me, turns, rounds)
    && client == Forwarded(me, turns, rounds)
    && (failed <==> rounds > 0 && EndOf(me, turns, rounds - 1).SendFailed?)
  }

  /** What one round adds to what the client got before it. */
  lemma RoundForwards(me: Client, turns: seq<Turn>, k: nat, v: View, client: seq<Event>)
    requires k < |turns| && SoFar(me, turns, k, v, client)
    ensures var outcome, ready, v' := OutcomeOf(me, v, turns[k]), Ready(me, v, turns[k]), Advance(me, v, turns[k]);
            && v' == After(me, turns, k + 1)
            && match outcome
               case Sent => Takes(turns[k].pick, ready) && SoFar(me, turns, k + 1, v', client + [Buffered(ready)[0]])
               case Waiting => SoFar(me, turns, k + 1, v', client)
               case _ => Served(me, turns, k + 1, client, outcome.SendFailed?)
  {
    RoundDelivers(me, v, turns[k]);
  }

  /** After `k` rounds: still going, or stopped by the last of them. */
  ghost predicate At(me: Client, turns: seq<Turn>, k: nat, v: View, client: seq<Event>, stop: bool, failed: bool) {
    if stop then Served(me, turns, k, client, failed) && v == After(me, turns, k)
    else !failed && SoFar(me, turns, k, v, client)
  }

  lemma RunsOut(me: Client, turns: seq<Turn>, k: nat, v: View, client: seq<Event>, stop: bool, failed: bool)
    requires At(me, turns, k, v, client, stop, failed) && (stop || k == |turns|)
    ensures Served(me, turns, k, client, failed) && v == After(me, turns, k)
  {
    if !stop && |turns| > 0 {
      assert !EndOf(me, turns, |turns| - 1).SendFailed?;
    }
  }

  /** Main result about the loop.  What the client gets is, in order, a prefix of what was published to its notebook
      meanwhile while its buffer had room.  And nothing is held back: when the loop finds nothing to forward, or stops
      because its channel was closed, the client has got all of that. */
  lemma ForwardedInOrder(me: Client, turns: seq<Turn>, rounds: nat)
    requires StopsAfter(me, turns, rounds)
    ensures var v := After(me, turns, rounds);
            var kept := Select(Published(v.ops), HadRoom(STREAM_BUF_SIZE, v.ops), true);
            && Published(v.ops) == Heard(v.past, me)
            && Forwarded(me, turns, rounds) <= kept
            && (rounds > 0 && turns[rounds - 1].pick.Forward?
                && (EndOf(me, turns, rounds - 1).Waiting? || EndOf(me, turns, rounds - 1).Closed?) ==>
                  Forwarded(me, turns, rounds) == kept)
  {
    OfferedIsHeard(me, turns, rounds);
    DeliversWhatFits(STREAM_BUF_SIZE, After(me, turns, rounds).ops);
  }

  // ---------------------------------------------------------------- the loop on the hub object

  /** The subscriber after `past`: registered under its channel, or removed with the channel closed. */
  ghost predicate Serving(hub: Hub, me: Client, ch: Chan, past: seq<Act>)
    reads hub, hub.chans, ch
  {
    && hub.Valid() && ch.Valid() && ch.cap == STREAM_BUF_SIZE
    && (Has(hub.subs, me.notebook, me.conn) <==> Listening(past, me))
    && (if Has(hub.subs, me.notebook, me.conn)
        then hub.subs[me.notebook][me.conn] == ch && ch in hub.chans && !ch.closed
        else ch.closed && ch !in hub.chans)
  }

  /** One act of somebody else. */
  method OtherAct(hub: Hub, me: Client, ch: Chan, act: Act, ghost past: seq<Act>, ghost s: State)
    requires Serving(hub, me, ch, past) && Shows(hub, s.subs) && ByOthers(act, me)
    modifies hub, hub.chans
    ensures Serving(hub, me, ch, past + [act]) && Shows(hub, Step(s, act).subs)
    ensures ch.ops == Hear(me, past, act, old(ch.ops))
    ensures fresh(hub.chans - old(hub.chans))
    ensures act.Pub? || act.Recv? ==> hub.subs == old(hub.subs)
  {
    StepEntry(s, act, me.notebook, me.conn);
    Perform(hub, act, s);
  }

  /** Everything others do in one round. */
  method OtherActs(hub: Hub, me: Client, ch: Chan, acts: seq<Act>, ghost past: seq<Act>, ghost s: State)
    requires Serving(hub, me, ch, past) && Shows(hub, s.subs) && ActsByOthers(acts, me)
    decreases |acts|
    modifies hub, hub.chans
    ensures Serving(hub, me, ch, past + acts) && Shows(hub, RunFrom(s, acts).subs)
    ensures ch.ops == HearAll(me, past, acts, old(ch.ops))
    ensures fresh(hub.chans - old(hub.chans))
    ensures Quiet(acts) ==> hub.subs == old(hub.subs)
  {
    if acts == [] {
      assert past + acts == past;
    } else {
      var n := |acts| - 1;
      TheLastAct(acts, past);
      OtherActs(hub, me, ch, acts[..n], past, s);
      OtherAct(hub, me, ch, acts[n], past + acts[..n], RunFrom(s, acts[..n]));
    }
  }

  lemma TheLastAct(acts: seq<Act>, past: seq<Act>)
    requires acts != []
    ensures var n := |acts| - 1;
            && acts[n] in acts && (forall act :: act in acts[..n] ==> act in acts)
            && past + acts == (past + acts[..n]) + [acts[n]]
  {}

  /** The loop takes an event from its channel.  While the channel is registered this is an act of the hub's run;
      the receive itself is the same either way. */
  method OwnReceive(hub: Hub, me: Client, ch: Chan, ghost past: seq<Act>, ghost s: State) returns (event: Event)
    requires Serving(hub, me, ch, past) && Shows(hub, s.subs) && ch.buffer != []
    modifies ch
    ensures Serving(hub, me, ch, past)
    ensures Shows(hub, (if Listening(past, me) then Step(s, Recv(me.notebook, me.conn)) else s).subs)
    ensures event == old(ch.buffer)[0] && ch.ops == old(ch.ops) + [Take]
  {
    if Has(hub.subs, me.notebook, me.conn) {
      event := ReceiveRegistered(hub, me, s);
    } else {
      event := ch.Receive();
    }
  }

  method ReceiveRegistered(hub: Hub, me: Client, ghost s: State) returns (event: Event)
    requires hub.Valid() && Shows(hub, s.subs) && Has(hub.subs, me.notebook, me.conn)
    requires hub.subs[me.notebook][me.conn].buffer != []
    modifies hub.subs[me.notebook][me.conn]
    ensures hub.Valid() && Shows(hub, Step(s, Recv(me.notebook, me.conn)).subs)
    ensures var ch := hub.subs[me.notebook][me.conn];
            ch.Valid() && !ch.closed && ch.ops == old(ch.ops) + [Take] && event == old(ch.buffer)[0]
  {
    OtherChannels(hub.subs, me.notebook, me.conn);
    event := hub.subs[me.notebook][me.conn].Receive();
    FollowsRecv(hub, s, me.notebook, me.conn);
    ShowsStep(hub, s, Recv(me.notebook, me.conn));
  }

  /** What is true of hub and channel between two rounds. */
  ghost predicate Underway(hub: Hub, me: Client, ch: Chan, v: View, s: State, entered: Registry<Chan>)
    reads hub, hub.chans, ch
  {
    && Serving(hub, me, ch, v.past) && ch.ops == v.ops
    && Shows(hub, RunFrom(s, v.acts).subs)
    && (Quiet(v.past) ==> hub.subs == entered)
  }

  /** One round: others act, then the select picks a branch that is ready. */
  method Round(hub: Hub, me: Client, ch: Chan, turn: Turn, ghost v: View, ghost s: State, ghost entered: Registry<Chan>)
    returns (outcome: Outcome, event: Event)
    requires Underway(hub, me, ch, v, s, entered) && ActsByOthers(turn.others, me)
    modifies hub, hub.chans, ch
    ensures Underway(hub, me, ch, Advance(me, v, turn), s, entered) && fresh(hub.chans - old(hub.chans))
    ensures outcome == OutcomeOf(me, v, turn)
    ensures Takes(turn.pick, Ready(me, v, turn)) ==> event == Buffered(Ready(me, v, turn))[0]
  {
    event := Event(me.notebook, "");
    outcome := if turn.pick.ContextDone? then Closed else Waiting;
    OtherActs(hub, me, ch, turn.others, v.past, RunFrom(s, v.acts));
    RoundActs(me, s, v, turn);
    if turn.pick.Forward? {
      if ch.buffer != [] {
        event := OwnReceive(hub, me, ch, v.past + turn.others, RunFrom(RunFrom(s, v.acts), turn.others));
        outcome := if turn.pick.sendOk then Sent else SendFailed;
      } else if ch.closed {
        outcome := Closed;
      }
    }
  }

  lemma RoundActs(me: Client, s: State, v: View, turn: Turn)
    ensures var ready, listening := Ready(me, v, turn), Listening(v.past + turn.others, me);
            var others := RunFrom(RunFrom(s, v.acts), turn.others);
            var after := RunFrom(s, v.acts + ActsOf(me, turn, ready, listening));
            after == if Takes(turn.pick, ready) && listening then Step(others, Recv(me.notebook, me.conn)) else others
    ensures Quiet(v.past + turn.others) ==> Quiet(v.past) && Quiet(turn.others)
  {
    var ready, listening := Ready(me, v, turn), Listening(v.past + turn.others, me);
    RunFromConcat(s, v.acts, ActsOf(me, turn, ready, listening));
    RunFromSnoc(RunFrom(s, v.acts), turn.others, Recv(me.notebook, me.conn));
    assert turn.others + [] == turn.others;
    assert forall act :: act in v.past || act in turn.others ==> act in v.past + turn.others;
  }

  /** One round as the loop uses it: to forward one more event, to wait, or to stop. */
  method ServeRound(hub: Hub, me: Client, ch: Chan, turns: seq<Turn>, k: nat, ghost v: View, ghost s: State,
                    ghost entered: Registry<Chan>, ghost client: seq<Event>)
    returns (outcome: Outcome, event: Event, ghost v': View)
    requires k < |turns| && AllByOthers(turns, me) && SoFar(me, turns, k, v, client)
    requires Underway(hub, me, ch, v, s, entered)
    modifies hub, hub.chans, ch
    ensures Underway(hub, me, ch, v', s, entered) && fresh(hub.chans - old(hub.chans))
    ensures At(me, turns, k + 1, v', if outcome.Sent? then client + [event] else client,
               outcome.Closed? || outcome.SendFailed?, outcome.SendFailed?)
  {
    RoundForwards(me, turns, k, v, client);
    outcome, event := Round(hub, me, ch, turns[k], v, s, entered);
    v' := Advance(me, v, turns[k]);
  }

  /** The loop.  `sent` counts what the client got. */
  method Serve(hub: Hub, me: Client, ch: Chan, turns: seq<Turn>, ghost s: State)
    returns (sent: nat, client: seq<Event>, failed: bool, ghost rounds: nat, ghost v: View)
    requires Underway(hub, me, ch, START, s, hub.subs) && AllByOthers(turns, me)
    modifies hub, hub.chans, ch
    ensures sent == |client| && Served(me, turns, rounds, client, failed) && v == After(me, turns, rounds)
    ensures Underway(hub, me, ch, v, s, old(hub.subs)) && fresh(hub.chans - old(hub.chans))
  {
    sent, client, failed, v := 0, [], false, START;
    ghost var entered := hub.subs;
    var k, stop := 0, false;
    while k < |turns| && !stop
      invariant Underway(hub, me, ch, v, s, entered) && fresh(hub.chans - old(hub.chans))
      invariant k <= |turns| && sent == |client| && At(me, turns, k, v, client, stop, failed)
      decreases |turns| - k
    {
      var outcome, event;
      outcome, event, v := ServeRound(hub, me, ch, turns, k, v, s, entered, client);
      if outcome.Sent? {
        client := client + [event];
        sent := sent + 1;
      }
      k, stop, failed := k + 1, outcome.Closed? || outcome.SendFailed?, outcome.SendFailed?;
    }
    RunsOut(me, turns, k, v, client, stop, failed);
    rounds := k;
  }

  /** Subscribe, serve, and unsubscribe on the way out, while others subscribe, leave, publish and receive.  The loop
      stops when it should and the client gets what it should; the hub has made exactly these acts; and if others only
      published and received, it is left as found. */
  method SubscribeNotebook(hub: Hub, notebook: int, conn: string, turns: seq<Turn>, ghost s: State)
    returns (sent: nat, client: seq<Event>, failed: bool, ghost rounds: nat)
    requires hub.Valid() && Shows(hub, s.subs) && !Has(hub.subs, notebook, conn)
    requires AllByOthers(turns, Client(notebook, conn))
    modifies hub, hub.chans
    ensures hub.Valid() && !Has(hub.subs, notebook, conn)
    ensures sent == |client| && Served(Client(notebook, conn), turns, rounds, client, failed)
    ensures var entered := Step(s, Sub(notebook, conn, STREAM_BUF_SIZE));
            var left := RunFrom(entered, After(Client(notebook, conn), turns, rounds).acts);
            Shows(hub, Step(left, Unsub(notebook, conn)).subs)
    ensures Quiet(After(Client(notebook, conn), turns, rounds).past) ==> hub.subs == old(hub.subs)
  {
    ghost var before := hub.subs;
    var me := Client(notebook, conn);
    var ch := Enter(hub, me, s);
    ghost var entered := Step(s, Sub(notebook, conn, STREAM_BUF_SIZE));
    ghost var v;
    sent, client, failed, rounds, v := Serve(hub, me, ch, turns, entered);
    Leave(hub, me, ch, v, entered, before);
  }

  /** The deferred unsubscribe, whoever has removed the connection before. */
  method Leave(hub: Hub, me: Client, ch: Chan, ghost v: View, ghost s: State, ghost before: Registry<Chan>)
    requires NoEmptyNotebook(before) && !Has(before, me.notebook, me.conn)
    requires Underway(hub, me, ch, v, s, With(before, me.notebook, me.conn, ch))
    modifies hub, hub.chans
    ensures hub.Valid() && !Has(hub.subs, me.notebook, me.conn)
    ensures Shows(hub, Step(RunFrom(s, v.acts), Unsub(me.notebook, me.conn)).subs)
    ensures Quiet(v.past) ==> hub.subs == before
  {
    WithThenWithout(before, me.notebook, me.conn, ch);
    StepEntry(RunFrom(s, v.acts), Unsub(me.notebook, me.conn), me.notebook, me.conn);
    Perform(hub, Unsub(me.notebook, me.conn), RunFrom(s, v.acts));
  }

  method Enter(hub: Hub, me: Client, ghost s: State) returns (ch: Chan)
    requires hub.Valid() && Shows(hub, s.subs)
    modifies hub
    ensures Underway(hub, me, ch, START, Step(s, Sub(me.notebook, me.conn, STREAM_BUF_SIZE)), hub.subs) && fresh(ch)
    ensures hub.subs == With(old(hub.subs), me.notebook, me.conn, ch) && fresh(hub.chans - old(hub.chans))
  {
    ghost var before := hub.subs;
    ch := hub.Subscribe(me.notebook, me.conn, STREAM_BUF_SIZE);
    WithEntries(before, me.notebook, me.conn, ch);
    FollowsSub(hub, s, me.notebook, me.conn, STREAM_BUF_SIZE);
    ShowsStep(hub, s, Sub(me.notebook, me.conn, STREAM_BUF_SIZE));
  }

  lemma WithThenWithout<C>(subs: Registry<C>, notebook: int, conn: string, ch: C)
    requires NoEmptyNotebook(subs) && !Has(subs, notebook, conn)
    ensures Without(With(subs, notebook, conn, ch), notebook, conn) == subs
  {
    var r := With(subs, notebook, conn, ch);
    assert r[notebook] - {conn} == Conns(subs, notebook);
  }
}
