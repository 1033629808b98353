/** The hub under its RWMutex (internal/notebook/hub/hub.go:22-61), step by step: taking the lock,
    each assignment under it, each single send, and releasing it interleave freely between threads. */
module HubInterleaving {
  import opened Wrappers
  import opened Hub

  datatype Pc =
    | Idle
    | SubHolds(notebook: int, conn: string, ch: int)      // holds the write lock
    | SubMade(notebook: int, conn: string, ch: int)       // the inner map exists
    | UnsubHolds(notebook: int, conn: string)             // holds the write lock
    | UnsubClosed(notebook: int, conn: string)            // the channel is closed, still registered
    | UnsubForgot(notebook: int)                          // the entry is gone, the inner map is not
    | Leaving                                             // about to release the write lock
    | Publishing(notebook: int, done: set<string>)        // holds a read lock, part-way through the range

  /** `made` channels exist so far; `closed` are closed; `panicked` records a send on a closed channel
      or a second close. */
  datatype State = State(
    readers: set<int>, writer: Option<int>, threads: map<int, Pc>,
    subs: Registry<int>, made: int, closed: set<int>, panicked: bool)

  const INIT := State({}, None, map[], map[], 0, {}, false)

  datatype Step =
    | BeginSubscribe(t: int, notebook: int, conn: string)
    | BeginUnsubscribe(t: int, notebook: int, conn: string)
    | BeginPublish(t: int, notebook: int)
    | Advance(t: int)
    | Send(t: int, conn: string)
    | EndPublish(t: int)

  function PcOf(s: State, t: int): Pc {
    if t in s.threads then s.threads[t] else Idle
  }

  function To(s: State, t: int, pc: Pc): State {
    s.(threads := s.threads[t := pc])
  }

  /** A step that is not enabled leaves the state as it is. */
  function Next(s: State, step: Step): State {
    var t := step.t;
    match (step, PcOf(s, t))
    case (BeginSubscribe(_, n, c), Idle) =>
      // making the channel just before the lock is taken commutes with every other step
      if s.writer.Some? || s.readers != {} then s
      else To(s, t, SubHolds(n, c, s.made)).(writer := Some(t), made := s.made + 1)
    case (BeginUnsubscribe(_, n, c), Idle) =>
      if s.writer.Some? || s.readers != {} then s else To(s, t, UnsubHolds(n, c)).(writer := Some(t))
    case (BeginPublish(_, n), Idle) =>
      if s.writer.Some? then s else To(s, t, Publishing(n, {})).(readers := s.readers + {t})
    case (Send(_, c), Publishing(n, done)) =>
      // the range may yield any connection it has not yielded yet
      if !Has(s.subs, n, c) || c in done then s
      else To(s, t, Publishing(n, done + {c})).(panicked := s.panicked || s.subs[n][c] in s.closed)
    case (EndPublish(_), Publishing(n, done)) =>
      if Conns(s.subs, n).Keys <= done then To(s, t, Idle).(readers := s.readers - {t}) else s
    case (Advance(_), SubHolds(n, c, ch)) =>
      To(s, t, SubMade(n, c, ch)).(subs := if n in s.subs then s.subs else s.subs[n := map[]])
    case (Advance(_), SubMade(n, c, ch)) =>
      if n !in s.subs then s else To(s, t, Leaving).(subs := s.subs[n := s.subs[n][c := ch]])
    case (Advance(_), UnsubHolds(n, c)) =>
      if n !in s.subs then To(s, t, Leaving)
      else if c !in s.subs[n] then To(s, t, UnsubForgot(n))
      else
        var ch := s.subs[n][c];
        To(s, t, UnsubClosed(n, c)).(closed := s.closed + {ch}, panicked := s.panicked || ch in s.closed)
    case (Advance(_), UnsubClosed(n, c)) =>
      if n !in s.subs then s else To(s, t, UnsubForgot(n)).(subs := s.subs[n := s.subs[n] - {c}])
    case (Advance(_), UnsubForgot(n)) =>
      To(s, t, Leaving).(subs := if n in s.subs && s.subs[n] == map[] then s.subs - {n} else s.subs)
    case (Advance(_), Leaving) => To(s, t, Idle).(writer := None)
    case _ => s
  }

  function Run(steps: seq<Step>): State {
    if steps == [] then INIT else Next(Run(steps[..|steps| - 1]), steps[|steps| - 1])
  }

  // ---------------------------------------------------------------- the invariant

  predicate Writes(pc: Pc) { !pc.Idle? && !pc.Publishing? }

  /** The program counter of the writer, or Idle when nobody holds the write lock. */
  function WriterPc(s: State): Pc {
    if s.writer.None? then Idle else PcOf(s, s.writer.value)
  }

  /** The lock is held by exactly the threads whose program counter says so. */
  ghost predicate LockSound(s: State) {
    && (forall t :: Writes(PcOf(s, t)) <==> s.writer == Some(t))
    && (forall t :: t in s.readers <==> PcOf(s, t).Publishing?)
    && (s.writer.None? || s.readers == {})
  }

  /** Registered channels exist, once each, and are open, except the one being closed right now. */
  ghost predicate ChannelsSound(s: State, pc: Pc) {
    && Separate(s.subs)
    && (forall ch :: ch in s.closed ==> ch < s.made)
    && (forall n, c :: Has(s.subs, n, c) ==>
          && s.subs[n][c] < s.made
          && (s.subs[n][c] in s.closed ==> pc == UnsubClosed(n, c)))
    && (pc.SubHolds? || pc.SubMade? ==>
          pc.ch < s.made && pc.ch !in s.closed && forall n, c :: Has(s.subs, n, c) ==> s.subs[n][c] != pc.ch)
    && (pc.UnsubClosed? ==> Has(s.subs, pc.notebook, pc.conn))
  }

  /** No inner map is empty, except one being filled or one about to be dropped. */
  ghost predicate MapsSound(s: State, pc: Pc) {
    && (forall n :: n in s.subs && s.subs[n] == map[] ==> (pc.SubMade? || pc.UnsubForgot?) && pc.notebook == n)
    && (pc.SubMade? ==> pc.notebook in s.subs)
  }

  ghost predicate Inv(s: State) {
    LockSound(s) && ChannelsSound(s, WriterPc(s)) && MapsSound(s, WriterPc(s)) && !s.panicked
  }

  lemma NextKeepsLock(s: State, step: Step)
    requires LockSound(s)
    ensures LockSound(Next(s, step))
  {}

  ghost predicate Sound(s: State, pc: Pc) {
    ChannelsSound(s, pc) && MapsSound(s, pc)
  }

  lemma RegisterKeepsSound(s: State, n: int, c: string, ch: int)
    requires Inv(s) && WriterPc(s) == SubMade(n, c, ch)
    ensures Sound(s.(subs := s.subs[n := s.subs[n][c := ch]]), Leaving)
  {
    var r := s.subs[n := s.subs[n][c := ch]];
    assert c in r[n];
    forall n', c' | Has(r, n', c') && !(n' == n && c' == c)
      ensures Has(s.subs, n', c') && r[n'][c'] == s.subs[n'][c'] {}
  }

  lemma CloseKeepsSound(s: State, n: int, c: string)
    requires Inv(s) && WriterPc(s) == UnsubHolds(n, c) && Has(s.subs, n, c)
    ensures Sound(s.(closed := s.closed + {s.subs[n][c]}), UnsubClosed(n, c))
    ensures s.subs[n][c] !in s.closed
  {}

  lemma ForgetKeepsSound(s: State, n: int, c: string)
    requires Inv(s) && WriterPc(s) == UnsubClosed(n, c)
    ensures Sound(s.(subs := s.subs[n := s.subs[n] - {c}]), UnsubForgot(n))
  {
    var r := s.subs[n := s.subs[n] - {c}];
    assert forall n', c' :: Has(r, n', c') ==> Has(s.subs, n', c') && !(n' == n && c' == c) && r[n'][c'] == s.subs[n'][c'];
  }

  lemma DropKeepsSound(s: State, n: int)
    requires Inv(s) && WriterPc(s) == UnsubForgot(n)
    ensures Sound(s.(subs := if n in s.subs && s.subs[n] == map[] then s.subs - {n} else s.subs), Leaving)
  {
    var r := if n in s.subs && s.subs[n] == map[] then s.subs - {n} else s.subs;
    assert forall n', c' :: Has(r, n', c') ==> Has(s.subs, n', c') && r[n'][c'] == s.subs[n'][c'];
  }

  lemma MakeKeepsSound(s: State, n: int, c: string, ch: int)
    requires Inv(s) && WriterPc(s) == SubHolds(n, c, ch)
    ensures Sound(s.(subs := if n in s.subs then s.subs else s.subs[n := map[]]), SubMade(n, c, ch))
  {
    var r := if n in s.subs then s.subs else s.subs[n := map[]];
    assert forall n', c' :: Has(r, n', c') ==> Has(s.subs, n', c') && r[n'][c'] == s.subs[n'][c'];
  }

  /** Soundness speaks of the registry and the channels only, not of the threads. */
  lemma SoundFrame(s: State, s': State, pc: Pc)
    requires Sound(s, pc) && s'.subs == s.subs && s'.made == s.made && s'.closed == s.closed
    ensures Sound(s', pc)
  {}

  lemma WriterKeepsSound(s: State, t: int)
    requires Inv(s) && s.writer == Some(t)
    ensures var s' := Next(s, Advance(t)); Sound(s', WriterPc(s')) && !s'.panicked
  {
    var s' := Next(s, Advance(t));
    match PcOf(s, t)
    case SubHolds(n, c, ch) =>
      MakeKeepsSound(s, n, c, ch);
      SoundFrame(s.(subs := s'.subs), s', SubMade(n, c, ch));
    case SubMade(n, c, ch) =>
      RegisterKeepsSound(s, n, c, ch);
      SoundFrame(s.(subs := s'.subs), s', Leaving);
    case UnsubHolds(n, c) =>
      if Has(s.subs, n, c) {
        CloseKeepsSound(s, n, c);
        SoundFrame(s.(closed := s'.closed), s', UnsubClosed(n, c));
      }
    case UnsubClosed(n, c) =>
      ForgetKeepsSound(s, n, c);
      SoundFrame(s.(subs := s'.subs), s', UnsubForgot(n));
    case UnsubForgot(n) =>
      DropKeepsSound(s, n);
      SoundFrame(s.(subs := s'.subs), s', Leaving);
    case _ =>
  }

  lemma NextKeepsInv(s: State, step: Step)
    requires Inv(s)
    ensures Inv(Next(s, step))
  {
    NextKeepsLock(s, step);
    if step.Advance? && s.writer == Some(step.t) {
      WriterKeepsSound(s, step.t);
    } else {
      OthersKeepSound(s, step);
    }
  }

  /** Readers only send, and whoever takes the write lock finds the registry at rest. */
  lemma OthersKeepSound(s: State, step: Step)
    requires Inv(s) && LockSound(Next(s, step)) && !(step.Advance? && s.writer == Some(step.t))
    ensures var s' := Next(s, step); Sound(s', WriterPc(s')) && !s'.panicked
  {
    var s' := Next(s, step);
    assert !Writes(PcOf(s, step.t)) || !step.Advance?;
    if step.Send? && s' != s {
      assert PcOf(s, step.t).Publishing? && step.t in s.readers && s.writer.None?;
    }
  }

  lemma {:induction false} RunKeepsInv(steps: seq<Step>)
    ensures Inv(Run(steps))
    decreases |steps|
  {
    if steps != [] {
      RunKeepsInv(steps[..|steps| - 1]);
      NextKeepsInv(Run(steps[..|steps| - 1]), steps[|steps| - 1]);
    }
  }

  /** Main result: in no interleaving is anything sent on a closed channel or a channel closed twice. */
  lemma NoPanic(steps: seq<Step>)
    ensures !Run(steps).panicked
  {
    RunKeepsInv(steps);
  }

  /** Whenever the write lock is free, every registered channel is open and registered once, and no
      notebook is left with an empty map. */
  lemma RegistryAtRest(steps: seq<Step>)
    requires Run(steps).writer.None?
    ensures var s := Run(steps);
            && (forall n, c :: Has(s.subs, n, c) ==> s.subs[n][c] !in s.closed)
            && Separate(s.subs)
            && NoEmptyNotebook(s.subs)
  {
    RunKeepsInv(steps);
  }
}
