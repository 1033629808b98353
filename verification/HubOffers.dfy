/** What each publish offers, in every interleaving of the hub under its lock (internal/notebook/hub/hub.go:52-61):
    an observer beside the machine of HubInterleaving, which it does not influence. */
module HubOffers {
  import opened Hub
  import opened HubInterleaving

  /** One publish: whom it found registered when it took its lock, and the channels it has sent to. */
  datatype Publication = Publication(notebook: int, audience: map<string, int>, sent: multiset<int>)

  /** The publishes under way, by thread, and those that have returned. */
  datatype Log = Log(current: map<int, Publication>, finished: seq<Publication>)

  predicate Begins(s: State, step: Step) {
    step.BeginPublish? && PcOf(s, step.t).Idle? && s.writer.None?
  }

  predicate Sends(s: State, step: Step) {
    step.Send? && PcOf(s, step.t).Publishing? && Has(s.subs, PcOf(s, step.t).notebook, step.conn)
    && step.conn !in PcOf(s, step.t).done
  }

  predicate Ends(s: State, step: Step) {
    step.EndPublish? && PcOf(s, step.t).Publishing?
    && Conns(s.subs, PcOf(s, step.t).notebook).Keys <= PcOf(s, step.t).done
  }

  function Observe(s: State, log: Log, step: Step): Log {
    var t := step.t;
    if Begins(s, step) then
      log.(current := log.current[t := Publication(step.notebook, Conns(s.subs, step.notebook), multiset{})])
    else if t !in log.current then log
    else if Sends(s, step) then
      var ch := s.subs[PcOf(s, t).notebook][step.conn];
      log.(current := log.current[t := log.current[t].(sent := log.current[t].sent + multiset{ch})])
    else if Ends(s, step) then Log(log.current - {t}, log.finished + [log.current[t]])
    else log
  }

  function LogOf(steps: seq<Step>): Log {
    if steps == [] then Log(map[], [])
    else Observe(Run(steps[..|steps| - 1]), LogOf(steps[..|steps| - 1]), steps[|steps| - 1])
  }

  // ---------------------------------------------------------------- the invariant

  /** The channels of the connections done so far. */
  function Reached(audience: map<string, int>, done: set<string>): set<int> {
    set c | c in done && c in audience :: audience[c]
  }

  /** A publish under way: nobody has come or left since it took the lock, and it has sent once to each connection
      done so far, and to nothing else. */
  ghost predicate UnderWay(subs: Registry<int>, pc: Pc, p: Publication) {
    && pc.Publishing? && p.notebook == pc.notebook
    && p.audience == Conns(subs, pc.notebook)
    && pc.done <= p.audience.Keys
    && p.sent == multiset(Reached(p.audience, pc.done))
  }

  ghost predicate LogSound(s: State, log: Log) {
    && (forall t :: PcOf(s, t).Publishing? <==> t in log.current)
    && (forall t :: t in log.current ==> UnderWay(s.subs, PcOf(s, t), log.current[t]))
    && (forall i :: 0 <= i < |log.finished| ==> log.finished[i].sent == multiset(log.finished[i].audience.Values))
  }

  /** Only the thread that steps moves, and the registry stands while anybody publishes. */
  lemma OthersStand(s: State, step: Step, t: int)
    requires Inv(s) && PcOf(Next(s, step), t).Publishing?
    ensures t != step.t ==> PcOf(Next(s, step), t) == PcOf(s, t)
    ensures Next(s, step).subs == s.subs
  {
    var s' := Next(s, step);
    NextKeepsLock(s, step);
    assert t in s'.readers && s'.writer.None?;
  }

  /** No channel is registered twice, so a connection not yet done has a channel not yet reached. */
  lemma ReachesOneMore(subs: Registry<int>, n: int, done: set<string>, c: string)
    requires Separate(subs) && Has(subs, n, c) && c !in done
    ensures var audience := Conns(subs, n);
            multiset(Reached(audience, done + {c})) == multiset(Reached(audience, done)) + multiset{subs[n][c]}
  {
    var audience := Conns(subs, n);
    forall d | d in done && d in audience ensures audience[d] != subs[n][c] {
      assert Has(subs, n, d);
    }
    assert Reached(audience, done + {c}) == Reached(audience, done) + {subs[n][c]};
  }

  /** What the thread that steps is doing afterwards, if it publishes. */
  lemma OwnStep(s: State, log: Log, step: Step)
    requires Inv(s) && LogSound(s, log)
    ensures var s', log', t := Next(s, step), Observe(s, log, step), step.t;
            && (PcOf(s', t).Publishing? <==> t in log'.current)
            && (t in log'.current ==> UnderWay(s'.subs, PcOf(s', t), log'.current[t]))
  {
    var s', log', t := Next(s, step), Observe(s, log, step), step.t;
    if Begins(s, step) {
      assert Reached(Conns(s.subs, step.notebook), {}) == {};
    } else if Sends(s, step) {
      assert UnderWay(s.subs, PcOf(s, t), log.current[t]);
      ReachesOneMore(s.subs, PcOf(s, t).notebook, PcOf(s, t).done, step.conn);
    } else if !Ends(s, step) && PcOf(s', t).Publishing? {
      assert s' == s && UnderWay(s.subs, PcOf(s, t), log.current[t]);
    }
  }

  /** A publish ends only when it has reached its whole audience. */
  lemma EndsComplete(s: State, log: Log, step: Step)
    requires Inv(s) && LogSound(s, log) && Ends(s, step)
    ensures step.t in log.current && log.current[step.t].sent == multiset(log.current[step.t].audience.Values)
  {
    var p, pc := log.current[step.t], PcOf(s, step.t);
    assert UnderWay(s.subs, pc, p);
    assert Reached(p.audience, pc.done) == p.audience.Values;
  }

  /** What every other thread is doing afterwards. */
  lemma OtherStep(s: State, log: Log, step: Step, t: int)
    requires Inv(s) && LogSound(s, log) && t != step.t
    ensures var s', log' := Next(s, step), Observe(s, log, step);
            && (PcOf(s', t).Publishing? <==> t in log'.current)
            && (t in log'.current ==> UnderWay(s'.subs, PcOf(s', t), log'.current[t]))
  {
    var s', log' := Next(s, step), Observe(s, log, step);
    assert PcOf(s', t) == PcOf(s, t);
    assert t in log'.current <==> t in log.current;
    if t in log.current {
      assert log'.current[t] == log.current[t] && UnderWay(s.subs, PcOf(s, t), log.current[t]);
      OthersStand(s, step, t);
    }
  }

  lemma FinishedStep(s: State, log: Log, step: Step)
    requires Inv(s) && LogSound(s, log)
    ensures var log' := Observe(s, log, step);
            forall i :: 0 <= i < |log'.finished| ==> log'.finished[i].sent == multiset(log'.finished[i].audience.Values)
  {
    if Ends(s, step) { EndsComplete(s, log, step); }
  }

  lemma NextKeepsLog(s: State, log: Log, step: Step)
    requires Inv(s) && LogSound(s, log)
    ensures LogSound(Next(s, step), Observe(s, log, step))
  {
    var s', log' := Next(s, step), Observe(s, log, step);
    forall t
      ensures PcOf(s', t).Publishing? <==> t in log'.current
      ensures t in log'.current ==> UnderWay(s'.subs, PcOf(s', t), log'.current[t])
    {
      if t == step.t { OwnStep(s, log, step); } else { OtherStep(s, log, step, t); }
    }
    FinishedStep(s, log, step);
  }

  lemma {:induction false} RunKeepsLog(steps: seq<Step>)
    ensures LogSound(Run(steps), LogOf(steps))
    decreases |steps|
  {
    if steps != [] {
      RunKeepsInv(steps[..|steps| - 1]);
      RunKeepsLog(steps[..|steps| - 1]);
      NextKeepsLog(Run(steps[..|steps| - 1]), LogOf(steps[..|steps| - 1]), steps[|steps| - 1]);
    }
  }

  /** Main result, in every interleaving: as long as a publish holds its lock, the registered connections of the
      notebook are those it found; and a publish that has returned has sent exactly once to each of their channels,
      and to nothing else. */
  lemma PublishReachesEachOnce(steps: seq<Step>)
    ensures var s, log := Run(steps), LogOf(steps);
            && (forall t :: t in log.current ==> log.current[t].audience == Conns(s.subs, log.current[t].notebook))
            && (forall i :: 0 <= i < |log.finished| ==>
                  log.finished[i].sent == multiset(log.finished[i].audience.Values))
  {
    RunKeepsLog(steps);
    var s, log := Run(steps), LogOf(steps);
    forall t | t in log.current ensures log.current[t].audience == Conns(s.subs, log.current[t].notebook) {
      assert UnderWay(s.subs, PcOf(s, t), log.current[t]);
    }
  }
}
