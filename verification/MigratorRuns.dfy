/** Any number of migrators over one database (cmd/migrator/main.go:37-59, 78-112).  The check and
    the commit are separate steps, and a migrator can die before or after any of them. */
module MigratorRuns {
  import opened Migrator

  /** Where one migrator stands in its list: about to check entry `i`, or inside the transaction of
      entry `i` after a check that found nothing. */
  datatype Pc = At(i: nat) | Applying(i: nat) | Done | Dead

  datatype State = State(applied: seq<Migration>, procs: map<int, Pc>)

  datatype Step =
    | Launch(p: int)
    | Look(p: int)
    | Commit(p: int)
    | CommitUnheard(p: int)  // the commit takes effect, the migrator never learns it
    | Crash(p: int)

  /** The directory every migrator reads: the entries it reaches, and whether every name parses. */
  datatype Plan = Plan(ms: seq<Migration>, complete: bool)

  /** The insert into schema_migrations: the primary key rolls a second one back. */
  function Record(applied: seq<Migration>, m: Migration): seq<Migration> {
    if m.version in Versions(applied) then applied else applied + [m]
  }

  function Next(plan: Plan, s: State, step: Step): State {
    var p := step.p;
    if step.Launch? then
      if p in s.procs then s else s.(procs := s.procs[p := At(0)])
    else if p !in s.procs then s
    else match (step, s.procs[p])
      case (Crash(_), _) => s.(procs := s.procs[p := Dead])
      case (Look(_), At(i)) =>
        if i >= |plan.ms| then s.(procs := s.procs[p := if plan.complete then Done else Dead])
        else if plan.ms[i].version in Versions(s.applied) then s.(procs := s.procs[p := At(i + 1)])
        else s.(procs := s.procs[p := Applying(i)])
      case (Commit(_), Applying(i)) =>
        if i >= |plan.ms| || plan.ms[i].version in Versions(s.applied)
        then s.(procs := s.procs[p := Dead])
        else State(Record(s.applied, plan.ms[i]), s.procs[p := At(i + 1)])
      case (CommitUnheard(_), Applying(i)) =>
        if i >= |plan.ms| then s
        else State(Record(s.applied, plan.ms[i]), s.procs[p := Dead])
      case _ => s
  }

  function Run(plan: Plan, s: State, steps: seq<Step>): State {
    if steps == [] then s else Next(plan, Run(plan, s, steps[..|steps| - 1]), steps[|steps| - 1])
  }

  // ---------------------------------------------------------------- the invariant

  ghost predicate Sound(plan: Plan, applied: seq<Migration>, pc: Pc) {
    match pc
    case At(i) => i <= |plan.ms| && Versions(plan.ms[..i]) <= Versions(applied)
    case Applying(i) => i < |plan.ms| && Versions(plan.ms[..i]) <= Versions(applied)
    case Done => plan.complete && applied == Canonical(plan.ms)
    case Dead => true
  }

  ghost predicate Inv(plan: Plan, s: State) {
    && s.applied <= Canonical(plan.ms)
    && forall p :: p in s.procs ==> Sound(plan, s.applied, s.procs[p])
  }

  /** Recording an entry whose predecessors are all applied keeps the history a canonical prefix. */
  lemma RecordKeepsPrefix(plan: Plan, applied: seq<Migration>, i: nat)
    requires i < |plan.ms| && applied <= Canonical(plan.ms)
    requires Versions(plan.ms[..i]) <= Versions(applied)
    ensures applied <= Record(applied, plan.ms[i]) <= Canonical(plan.ms)
    ensures Versions(Record(applied, plan.ms[i])) == Versions(applied) + {plan.ms[i].version}
  {
    if plan.ms[i].version !in Versions(applied) {
      NextInLine(plan.ms, applied, i);
      VersionsSnoc(applied, plan.ms[i]);
    }
  }

  /** A longer history keeps every other migrator's assertion true. */
  lemma SoundGrows(plan: Plan, applied: seq<Migration>, longer: seq<Migration>, pc: Pc)
    requires applied <= longer <= Canonical(plan.ms) && Versions(applied) <= Versions(longer)
    requires Sound(plan, applied, pc)
    ensures Sound(plan, longer, pc)
  {}

  lemma NextKeepsInv(plan: Plan, s: State, step: Step)
    requires Inv(plan, s)
    ensures Inv(plan, Next(plan, s, step))
    ensures s.applied <= Next(plan, s, step).applied
  {
    var s', p := Next(plan, s, step), step.p;
    if p in s.procs && !step.Launch? {
      assert Sound(plan, s.applied, s.procs[p]);
      match (step, s.procs[p])
      case (Look(_), At(i)) =>
        if i < |plan.ms| {
          VersionsUpTo(plan.ms, i);
        } else {
          assert plan.ms[..i] == plan.ms;
          AllAppliedIsCanonical(plan.ms, s.applied);
        }
      case (Commit(_), Applying(i)) =>
        RecordKeepsPrefix(plan, s.applied, i);
        VersionsUpTo(plan.ms, i);
      case (CommitUnheard(_), Applying(i)) =>
        RecordKeepsPrefix(plan, s.applied, i);
      case _ =>
    }
    forall v | v in Versions(s.applied) ensures v in Versions(s'.applied) {
      var m :| m in s.applied && m.version == v;
      assert m in s'.applied;
    }
    forall q | q in s'.procs ensures Sound(plan, s'.applied, s'.procs[q]) {
      if q != p { SoundGrows(plan, s.applied, s'.applied, s.procs[q]); }
    }
  }

  lemma {:induction false} RunKeepsInv(plan: Plan, s: State, steps: seq<Step>)
    requires Inv(plan, s)
    ensures Inv(plan, Run(plan, s, steps))
    ensures s.applied <= Run(plan, s, steps).applied
    decreases |steps|
  {
    if steps != [] {
      var before := steps[..|steps| - 1];
      RunKeepsInv(plan, s, before);
      NextKeepsInv(plan, Run(plan, s, before), steps[|steps| - 1]);
    }
  }

  lemma {:induction false} RunConcat(plan: Plan, s: State, steps: seq<Step>, more: seq<Step>)
    ensures Run(plan, s, steps + more) == Run(plan, Run(plan, s, steps), more)
    decreases |more|
  {
    if more == [] {
      assert steps + more == steps;
    } else {
      RunConcat(plan, s, steps, more[..|more| - 1]);
      assert (steps + more)[..|steps + more| - 1] == steps + more[..|more| - 1];
    }
  }

  // ---------------------------------------------------------------- main results

  /** Safety: whatever interleaves and whatever crashes, the history is a prefix of the canonical one,
      it only grows, and no version is in it twice. */
  lemma HistoryIsCanonicalPrefix(plan: Plan, applied: seq<Migration>, steps: seq<Step>)
    requires applied <= Canonical(plan.ms)
    ensures var s := Run(plan, State(applied, map[]), steps);
            && applied <= s.applied <= Canonical(plan.ms)
            && DistinctVersions(s.applied)
  {
    RunKeepsInv(plan, State(applied, map[]), steps);
    CanonicalFacts(plan.ms);
  }

  /** Crash and resume: once one migrator has completed, after any number of failures before it, the
      history is the whole canonical one, and no later migrator, failing or not, changes it. */
  lemma CompletionIsFinal(plan: Plan, applied: seq<Migration>, steps: seq<Step>, p: int, more: seq<Step>)
    requires applied <= Canonical(plan.ms)
    requires var s := Run(plan, State(applied, map[]), steps); p in s.procs && s.procs[p] == Done
    ensures Run(plan, State(applied, map[]), steps).applied == Canonical(plan.ms)
    ensures Run(plan, State(applied, map[]), steps + more).applied == Canonical(plan.ms)
  {
    var start := State(applied, map[]);
    RunKeepsInv(plan, start, steps);
    assert Sound(plan, Run(plan, start, steps).applied, Done);
    RunConcat(plan, start, steps, more);
    RunKeepsInv(plan, Run(plan, start, steps), more);
  }

  /** The steps of one migrator left alone, from entry `i` on. */
  function Solo(p: int, remaining: nat): seq<Step> {
    if remaining == 0 then [Look(p)] else [Look(p), Commit(p)] + Solo(p, remaining - 1)
  }

  lemma RunTwo(plan: Plan, s: State, a: Step, b: Step)
    ensures Run(plan, s, [a, b]) == Next(plan, Next(plan, s, a), b)
  {
    assert [a, b][..1] == [a] && [a][..0] == [];
    assert Run(plan, s, [a]) == Next(plan, Run(plan, s, []), a);
  }

  lemma RunOne(plan: Plan, s: State, a: Step)
    ensures Run(plan, s, [a]) == Next(plan, s, a)
  {
    assert [a][..0] == [];
  }

  lemma SoloRound(plan: Plan, s: State, p: int)
    requires p in s.procs && s.procs[p].At? && s.procs[p].i < |plan.ms|
    ensures var s' := Run(plan, s, [Look(p), Commit(p)]);
            p in s'.procs && s'.procs[p] == At(s.procs[p].i + 1)
  {
    RunTwo(plan, s, Look(p), Commit(p));
  }

  /** Nothing that happened before can block a migrator that is left alone: it completes. */
  lemma {:induction false} LeftAloneCompletes(plan: Plan, s: State, p: int)
    requires plan.complete && p in s.procs && s.procs[p].At? && s.procs[p].i <= |plan.ms|
    ensures var s' := Run(plan, s, Solo(p, |plan.ms| - s.procs[p].i));
            p in s'.procs && s'.procs[p] == Done
    decreases |plan.ms| - s.procs[p].i
  {
    var i := s.procs[p].i;
    if i == |plan.ms| {
      assert [Look(p)][..0] == [];
    } else {
      SoloRound(plan, s, p);
      LeftAloneCompletes(plan, Run(plan, s, [Look(p), Commit(p)]), p);
      RunConcat(plan, s, [Look(p), Commit(p)], Solo(p, |plan.ms| - i - 1));
    }
  }

  /** In particular a migrator launched at any time, whatever became of all others. */
  lemma FreshMigratorCompletes(plan: Plan, s: State, p: int)
    requires plan.complete && p !in s.procs
    ensures var s' := Run(plan, s, [Launch(p)] + Solo(p, |plan.ms|));
            p in s'.procs && s'.procs[p] == Done
  {
    RunOne(plan, s, Launch(p));
    RunConcat(plan, s, [Launch(p)], Solo(p, |plan.ms|));
    LeftAloneCompletes(plan, Next(plan, s, Launch(p)), p);
  }

  lemma {:induction false} DeadStaysDead(plan: Plan, s: State, p: int, steps: seq<Step>)
    requires p in s.procs && s.procs[p] == Dead
    ensures var s' := Run(plan, s, steps); p in s'.procs && s'.procs[p] == Dead
    decreases |steps|
  {
    if steps != [] { DeadStaysDead(plan, s, p, steps[..|steps| - 1]); }
  }

  /** A migrator already inside its transaction, left alone, completes exactly when nobody else has recorded the
      version since its check; otherwise the primary key stops it, and the next one completes instead. */
  lemma InsideTransactionCompletesExactly(plan: Plan, s: State, p: int)
    requires plan.complete && p in s.procs && s.procs[p].Applying? && s.procs[p].i < |plan.ms|
    ensures var i := s.procs[p].i;
            var s' := Run(plan, s, [Commit(p)] + Solo(p, |plan.ms| - i - 1));
            p in s'.procs && (s'.procs[p] == Done <==> plan.ms[i].version !in Versions(s.applied))
  {
    var i := s.procs[p].i;
    var s1, rest := Next(plan, s, Commit(p)), Solo(p, |plan.ms| - i - 1);
    RunOne(plan, s, Commit(p));
    RunConcat(plan, s, [Commit(p)], rest);
    if plan.ms[i].version in Versions(s.applied) {
      DeadStaysDead(plan, s1, p, rest);
    } else {
      LeftAloneCompletes(plan, s1, p);
    }
  }
}
