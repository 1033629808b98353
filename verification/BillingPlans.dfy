/** How plans are kept and lost (internal/auth/usecase/event.go:28-71, auth.go:228-259,
    internal/payment/usecase/payment.go:214-231), over atomic handler steps. */
module BillingPlans {
  import opened Wrappers
  import opened Billing
  import opened BillingPayments

  function PlanOf(s: State, u: int): string
    requires u in s.users
  {
    s.users[u].plan
  }

  /** The rows of one user. */
  function RowsFor(subs: seq<Subscription>, u: int): seq<Subscription> {
    if subs == [] then []
    else
      var earlier := RowsFor(subs[..|subs| - 1], u);
      if subs[|subs| - 1].user == u then earlier + [subs[|subs| - 1]] else earlier
  }

  lemma RowsSnoc(subs: seq<Subscription>, sub: Subscription, u: int)
    ensures RowsFor(subs + [sub], u) == RowsFor(subs, u) + (if sub.user == u then [sub] else [])
    ensures LatestExpiry(subs + [sub], u)
         == if sub.user != u || (LatestExpiry(subs, u).Some? && LatestExpiry(subs, u).value >= sub.expiresAt)
            then LatestExpiry(subs, u) else Some(sub.expiresAt)
  {
    assert (subs + [sub])[..|subs|] == subs;
  }

  /** The subscription view returns the greatest expiry among the user's rows. */
  lemma {:induction false} LatestIsGreatest(subs: seq<Subscription>, u: int)
    ensures LatestExpiry(subs, u).None? <==> forall i :: 0 <= i < |subs| ==> subs[i].user != u
    ensures LatestExpiry(subs, u).Some? ==>
              && (exists i :: 0 <= i < |subs| && subs[i].user == u && subs[i].expiresAt == LatestExpiry(subs, u).value)
              && (forall i :: 0 <= i < |subs| && subs[i].user == u ==> subs[i].expiresAt <= LatestExpiry(subs, u).value)
    decreases |subs|
  {
    if subs != [] {
      var init := subs[..|subs| - 1];
      LatestIsGreatest(init, u);
      if LatestExpiry(init, u).Some? {
        var i :| 0 <= i < |init| && init[i].user == u && init[i].expiresAt == LatestExpiry(init, u).value;
        assert subs[i] == init[i];
      }
      assert subs[|subs| - 1].user == u ==> subs[|subs| - 1].expiresAt <= LatestExpiry(subs, u).value;
    }
  }

  /** An administrator decides about this user. */
  predicate Decides(e: Event, u: int) { e.AdminEv? && e.u == u }

  /** How a single step can change what concerns user `u`. */
  ghost predicate Keeps(s: State, s': State, u: int) {
    && u in s'.users
    && s'.now >= s.now
    && RowsFor(s'.subs, u) == RowsFor(s.subs, u)
    && LatestExpiry(s'.subs, u) == LatestExpiry(s.subs, u)
  }

  lemma ActivateConcerns(plans: seq<Plan>, s: State, id: string, f: PayFaults, u: int)
    requires id in s.payments && u in s.users
    requires var s' := Activate(plans, s, id, f).0; |RowsFor(s'.subs, u)| == |RowsFor(s.subs, u)|
    ensures var s' := Activate(plans, s, id, f).0; Keeps(s, s', u) && s'.users[u] == s.users[u]
  {
    var s' := Activate(plans, s, id, f).0;
    if s'.subs != s.subs {
      var sub := s'.subs[|s.subs|];
      assert s'.subs == s.subs + [sub];
      RowsSnoc(s.subs, sub, u);
    }
  }

  /** Payment events that insert no row for `u` leave this user alone. */
  lemma PaymentsConcern(plans: seq<Plan>, s: State, e: Event, u: int)
    requires u in s.users && (e.WebhookEv? || e.PollEv?)
    requires |RowsFor(Next(plans, s, e).subs, u)| == |RowsFor(s.subs, u)|
    ensures Keeps(s, Next(plans, s, e), u) && Next(plans, s, e).users[u] == s.users[u]
  {
    var s' := Next(plans, s, e);
    if s' != s && e.pf.store.Fine? && s'.payments[e.id].status.Succeeded? {
      ActivateConcerns(plans, Store(s, e.id, Succeeded), e.id, e.pf, u);
    }
  }

  // ---------------------------------------------------------------- a subscription protects its plan

  predicate Subscribed(s: State, u: int) {
    u in s.users && (PlanOf(s, u) == PRO || PlanOf(s, u) == MAX)
  }

  /** One step that neither activates nor administers `u` keeps a paid plan, unless it is a heartbeat or
      session check of `u` after every row has expired. */
  lemma StepProtects(plans: seq<Plan>, s: State, e: Event, u: int)
    requires Subscribed(s, u) && !Decides(e, u)
    requires |RowsFor(Next(plans, s, e).subs, u)| == |RowsFor(s.subs, u)|
    ensures Keeps(s, Next(plans, s, e), u)
    ensures !Checks(s, e, u) || !Expired(s, u) ==> PlanOf(Next(plans, s, e), u) == PlanOf(s, u)
  {
    if e.WebhookEv? || e.PollEv? {
      PaymentsConcern(plans, s, e, u);
    } else {
      OthersProtect(plans, s, e, u);
    }
  }

  /** A heartbeat or session check of someone else leaves `u` alone, and so does any other event of `u`. */
  lemma TrackOthers(s: State, v: int, eventType: string, ok: bool, f: AuthFaults, u: int)
    requires u in s.users && (v != u || eventType != "heartbeat")
    ensures var s' := Track(s, v, eventType, ok, f).0; u in s'.users && s'.users[u] == s.users[u]
  {
    TrackFrame(s, v, eventType, ok, f);
    if v in s.users && eventType == "heartbeat" {
      DowngradeFrame(s, v, s.users[v].plan, f);
    }
  }

  lemma SessionOthers(s: State, sid: string, f: AuthFaults, u: int)
    requires u in s.users && (sid !in s.sessions || s.sessions[sid].user != u)
    ensures var s' := CheckSession(s, sid, f).0; u in s'.users && s'.users[u] == s.users[u]
  {}

  predicate Expired(s: State, u: int) {
    LatestExpiry(s.subs, u).None? || LatestExpiry(s.subs, u).value < s.now
  }

  /** The calls up to the downgrade work, and so does the downgrade, heard or not. */
  predicate Reaches(f: AuthFaults) {
    !f.create && !f.load && !f.view && Happens(f.downgrade)
  }

  /** Where the rows run, or a call on the way fails, a paid user's own heartbeat adds time at most. */
  lemma TrackSelf(s: State, u: int, ok: bool, f: AuthFaults)
    requires Subscribed(s, u) && (!Expired(s, u) || !ok || !Reaches(f))
    ensures var s' := Track(s, u, "heartbeat", ok, f).0; u in s'.users && PlanOf(s', u) == PlanOf(s, u)
  {
    var s1 := if Happens(f.increment) then s.(users := AddTime(s.users, u, BEAT)) else s;
    assert s1.users[u].plan == PlanOf(s, u);
    if ok && !f.create && !f.load {
      assert Downgrade(s1, u, PlanOf(s, u), f) == s1;
    }
  }

  lemma SessionSelf(s: State, sid: string, f: AuthFaults, u: int)
    requires Subscribed(s, u) && sid in s.sessions && s.sessions[sid].user == u
    requires !Expired(s, u) || s.now > s.sessions[sid].expiresAt || !Reaches(f)
    ensures var s' := CheckSession(s, sid, f).0; u in s'.users && PlanOf(s', u) == PlanOf(s, u)
  {}

  /** The event gets as far as `u`'s subscription and can act on it: a heartbeat or a session check. */
  predicate Checks(s: State, e: Event, u: int) {
    || (e.TrackEv? && e.u == u && e.eventType == "heartbeat" && e.metadataOk && Reaches(e.af))
    || (e.SessionEv? && e.sid in s.sessions && s.sessions[e.sid].user == u
        && s.now <= s.sessions[e.sid].expiresAt && Reaches(e.af))
  }

  lemma OthersProtect(plans: seq<Plan>, s: State, e: Event, u: int)
    requires Subscribed(s, u) && !Decides(e, u) && !e.WebhookEv? && !e.PollEv?
    ensures Next(plans, s, e).subs == s.subs && Next(plans, s, e).now >= s.now && u in Next(plans, s, e).users
    ensures !Checks(s, e, u) || !Expired(s, u) ==> PlanOf(Next(plans, s, e), u) == PlanOf(s, u)
  {
    match e
    case TrackEv(v, eventType, ok, f) =>
      TrackFrame(s, v, eventType, ok, f);
      if v != u || eventType != "heartbeat" {
        TrackOthers(s, v, eventType, ok, f, u);
      } else if !Checks(s, e, u) || !Expired(s, u) {
        TrackSelf(s, u, ok, f);
      }
    case SessionEv(sid, f) =>
      SessionFrame(s, sid, f);
      if sid !in s.sessions || s.sessions[sid].user != u {
        SessionOthers(s, sid, f, u);
      } else if !Checks(s, e, u) || !Expired(s, u) {
        SessionSelf(s, sid, f, u);
      }
    case _ =>
  }

  ghost predicate NobodyDecides(es: seq<Event>, u: int) {
    forall e :: e in es ==> !Decides(e, u)
  }

  /** Main result: a paid plan lasts at least as long as the user's latest row, and including its last
      instant, through heartbeats, session checks, repeated webhooks, other users' payments and failures
      of any call, as long as no new row is inserted for the user and no administrator intervenes. */
  lemma {:induction false} PaidPlanIsKept(plans: seq<Plan>, s: State, es: seq<Event>, u: int)
    requires Inv(s) && Subscribed(s, u) && LatestExpiry(s.subs, u).Some? && NobodyDecides(es, u)
    requires RowsFor(Run(plans, s, es).subs, u) == RowsFor(s.subs, u)
    requires Run(plans, s, es).now <= LatestExpiry(s.subs, u).value
    ensures u in Run(plans, s, es).users && PlanOf(Run(plans, s, es), u) == PlanOf(s, u)
    ensures Keeps(s, Run(plans, s, es), u)
    decreases |es|
  {
    if es != [] {
      var before, e := es[..|es| - 1], es[|es| - 1];
      var s1 := Run(plans, s, before);
      assert e in es && forall x :: x in before ==> x in es;
      RowsBetween(plans, s, es, u);
      ClockGrows(plans, s1, e);
      PaidPlanIsKept(plans, s, before, u);
      StepProtects(plans, s1, e, u);
    }
  }

  lemma ClockGrows(plans: seq<Plan>, s: State, e: Event)
    ensures s.now <= Next(plans, s, e).now
  {}

  lemma {:induction false} RowsGrow(subs: seq<Subscription>, longer: seq<Subscription>, u: int)
    requires subs <= longer
    ensures RowsFor(subs, u) <= RowsFor(longer, u)
    decreases |longer|
  {
    if |subs| < |longer| {
      RowsGrow(subs, longer[..|longer| - 1], u);
    } else {
      assert subs == longer;
    }
  }

  /** Right after a clean activation the user has the plan and a row that ends no earlier than its expiry. */
  lemma ActivationSubscribes(plans: seq<Plan>, s: State, id: string, f: PayFaults)
    requires id in s.payments && KeysSound(plans, s) && PlansSound(plans)
    requires !f.list && f.upsert.Fine? && !f.setPlan.Fails?
    ensures var p := s.payments[id];
            var plan := FindPlan(plans, p.plan).value;
            var s' := Activate(plans, s, id, f).0;
            && p.user in s'.users && PlanOf(s', p.user) == plan.name
            && LatestExpiry(s'.subs, p.user).Some?
            && LatestExpiry(s'.subs, p.user).value >= s.now + plan.days * DAY
  {
    var p := s.payments[id];
    CleanActivation(plans, s, id, f);
    RowsSnoc(s.subs, Activate(plans, s, id, f).0.subs[|s.subs|], p.user);
  }

  // ---------------------------------------------------------------- and ends

  /** A check of an expired user ends the plan, whether or not the heartbeat's time was counted. */
  lemma LateTrack(s: State, u: int, f: AuthFaults)
    requires Subscribed(s, u) && Expired(s, u) && Reaches(f)
    ensures var s' := Track(s, u, "heartbeat", true, f).0; u in s'.users && PlanOf(s', u) == FREE
  {
    var s1 := if Happens(f.increment) then s.(users := AddTime(s.users, u, BEAT)) else s;
    assert Track(s, u, "heartbeat", true, f).0 == Downgrade(s1, u, PlanOf(s, u), f);
  }

  /** Any step that inserts no row for a subscribed user and is no administrator's leaves the user on free exactly when
      it is a heartbeat or session check that reaches the subscription after every row has expired; otherwise the plan
      stands.  A check whose time-keeping fails ends the plan all the same. */
  lemma CheckEndsPlanExactly(plans: seq<Plan>, s: State, e: Event, u: int)
    requires Subscribed(s, u) && !Decides(e, u)
    requires |RowsFor(Next(plans, s, e).subs, u)| == |RowsFor(s.subs, u)|
    ensures var s' := Next(plans, s, e);
            var expired := forall i :: 0 <= i < |s.subs| && s.subs[i].user == u ==> s.subs[i].expiresAt < s.now;
            u in s'.users && PlanOf(s', u) == if Checks(s, e, u) && expired then FREE else PlanOf(s, u)
  {
    StepProtects(plans, s, e, u);
    LatestIsGreatest(s.subs, u);
    assert Expired(s, u) <==> forall i :: 0 <= i < |s.subs| && s.subs[i].user == u ==> s.subs[i].expiresAt < s.now;
    if Checks(s, e, u) && Expired(s, u) && e.TrackEv? {
      LateTrack(s, u, e.af);
    }
  }

  /** A check inserts no row and decides nothing. */
  lemma ChecksInsertNothing(plans: seq<Plan>, s: State, e: Event, u: int)
    requires Checks(s, e, u)
    ensures !Decides(e, u) && Next(plans, s, e).subs == s.subs
  {
    AuthSideKeepsRows(plans, s, e);
  }

  /** In this run no heartbeat or session check succeeds in looking at `u` after the rows have expired. */
  ghost predicate NoLateCheck(plans: seq<Plan>, s: State, es: seq<Event>, u: int) {
    forall k :: 0 <= k < |es| ==>
      !(Checks(Run(plans, s, es[..k]), es[k], u) && Expired(Run(plans, s, es[..k]), u))
  }

  /** Until such a check comes a paid plan stands, however late it is. */
  lemma {:induction false} PlanStandsUntilChecked(plans: seq<Plan>, s: State, es: seq<Event>, u: int)
    requires Inv(s) && Subscribed(s, u) && NobodyDecides(es, u) && NoLateCheck(plans, s, es, u)
    requires RowsFor(Run(plans, s, es).subs, u) == RowsFor(s.subs, u)
    ensures Subscribed(Run(plans, s, es), u) && PlanOf(Run(plans, s, es), u) == PlanOf(s, u)
    ensures Keeps(s, Run(plans, s, es), u) && Inv(Run(plans, s, es))
    decreases |es|
  {
    RunKeepsInv(plans, s, es);
    if es != [] {
      var before, e := es[..|es| - 1], es[|es| - 1];
      var s1 := Run(plans, s, before);
      assert e in es && forall x :: x in before ==> x in es;
      NoLateCheckBefore(plans, s, es, u);
      RowsBetween(plans, s, es, u);
      PlanStandsUntilChecked(plans, s, before, u);
      StepProtects(plans, s1, e, u);
    }
  }

  lemma NoLateCheckBefore(plans: seq<Plan>, s: State, es: seq<Event>, u: int)
    requires es != [] && NoLateCheck(plans, s, es, u)
    ensures NoLateCheck(plans, s, es[..|es| - 1], u)
    ensures var s1 := Run(plans, s, es[..|es| - 1]); !(Checks(s1, es[|es| - 1], u) && Expired(s1, u))
  {
    var n := |es| - 1;
    var before := es[..n];
    assert !(Checks(Run(plans, s, es[..n]), es[n], u) && Expired(Run(plans, s, es[..n]), u));
    forall k | 0 <= k < |before|
      ensures !(Checks(Run(plans, s, before[..k]), before[k], u) && Expired(Run(plans, s, before[..k]), u))
    {
      assert before[..k] == es[..k] && before[k] == es[k];
    }
  }

  /** When a run adds no row for `u`, neither does any part of it. */
  lemma RowsBetween(plans: seq<Plan>, s: State, es: seq<Event>, u: int)
    requires Inv(s) && es != [] && RowsFor(Run(plans, s, es).subs, u) == RowsFor(s.subs, u)
    ensures RowsFor(Run(plans, s, es[..|es| - 1]).subs, u) == RowsFor(s.subs, u)
  {
    var before, e := es[..|es| - 1], es[|es| - 1];
    var s1 := Run(plans, s, before);
    ActivatedAtMostOnce(plans, s, before);
    RunKeepsInv(plans, s, before);
    ActivatedAtMostOnce(plans, s1, [e]);
    RunSnoc(plans, s1, [], e);
    RowsGrow(s.subs, s1.subs, u);
    RowsGrow(s1.subs, Next(plans, s1, e).subs, u);
  }

  /** Main result: over any run without a new row, an admin change or a late check, the next check that
      reaches the subscription leaves the user on free if every row has expired by then, and on the plan otherwise. */
  lemma FirstLateCheckEndsPlan(plans: seq<Plan>, s: State, es: seq<Event>, e: Event, u: int)
    requires Inv(s) && Subscribed(s, u) && NobodyDecides(es, u) && NoLateCheck(plans, s, es, u)
    requires RowsFor(Run(plans, s, es).subs, u) == RowsFor(s.subs, u)
    requires Checks(Run(plans, s, es), e, u)
    ensures var s1 := Run(plans, s, es);
            var s2 := Next(plans, s1, e);
            && u in s2.users
            && PlanOf(s2, u) == if LatestExpiry(s.subs, u).None? || LatestExpiry(s.subs, u).value < s1.now
                                then FREE else PlanOf(s, u)
  {
    PlanStandsUntilChecked(plans, s, es, u);
    var s1 := Run(plans, s, es);
    ChecksInsertNothing(plans, s1, e, u);
    CheckEndsPlanExactly(plans, s1, e, u);
    LatestIsGreatest(s1.subs, u);
  }

  /** A paying step that gives the payer the plan. */
  ghost predicate CleanPayment(plans: seq<Plan>, s: State, a: Event, id: string) {
    Pays(plans, s, a, id) && (a.WebhookEv? || a.PollEv?) && id in s.payments && PlanIsGranted(a.pf)
  }

  /** What a clean payment leaves: the plan, and the later of the new expiry and the one before. */
  lemma CleanPaymentSubscribes(plans: seq<Plan>, s: State, a: Event, id: string)
    requires Inv(s) && KeysSound(plans, s) && PlansSound(plans) && CleanPayment(plans, s, a, id)
    ensures var s1, u, plan := Next(plans, s, a), s.payments[id].user, PlanBought(plans, s, id);
            var end, earlier := s.now + plan.days * DAY, LatestExpiry(s.subs, u);
            && Inv(s1) && u in s1.users && PlanOf(s1, u) == plan.name
            && LatestExpiry(s1.subs, u) == Some(if earlier.Some? && earlier.value >= end then earlier.value else end)
  {
    var u, plan := s.payments[id].user, PlanBought(plans, s, id);
    NextKeepsInv(plans, s, a);
    GrantedPaymentRow(plans, s, a, id);
    RowsSnoc(s.subs, Subscription(u, plan.id, s.now + plan.days * DAY, id), u);
  }

  /** From the activation on.  A clean activation of a plan that ends at E, for a user whose rows so far ended at
      `earlier`: after any such run the first check ends the plan exactly when both E and `earlier` are past. */
  lemma ActivatedPlanLifetime(plans: seq<Plan>, s: State, a: Event, id: string, es: seq<Event>, e: Event)
    requires Inv(s) && KeysSound(plans, s) && PlansSound(plans) && CleanPayment(plans, s, a, id)
    requires PlanBought(plans, s, id).name == PRO || PlanBought(plans, s, id).name == MAX
    requires var s1, u := Next(plans, s, a), s.payments[id].user;
             && NobodyDecides(es, u) && NoLateCheck(plans, s1, es, u)
             && RowsFor(Run(plans, s1, es).subs, u) == RowsFor(s1.subs, u)
             && Checks(Run(plans, s1, es), e, u)
    ensures var u, plan := s.payments[id].user, PlanBought(plans, s, id);
            var end, earlier, s2 := s.now + plan.days * DAY, LatestExpiry(s.subs, u), Run(plans, Next(plans, s, a), es);
            && u in Next(plans, s2, e).users
            && PlanOf(Next(plans, s2, e), u)
               == if end < s2.now && (earlier.None? || earlier.value < s2.now) then FREE else plan.name
  {
    CleanPaymentSubscribes(plans, s, a, id);
    FirstLateCheckEndsPlan(plans, Next(plans, s, a), es, e, s.payments[id].user);
  }

  // ---------------------------------------------------------------- which activation counts

  /** A later row of the same user never ends earlier, so the expiry that counts is the latest activation's. */
  ghost predicate RowsEndInOrder(s: State) {
    forall i, j :: 0 <= i < j < |s.subs| && s.subs[i].user == s.subs[j].user ==>
      s.subs[i].expiresAt <= s.subs[j].expiresAt
  }

  const EMPTY := State(0, map[], map[], [], map[], map[])

  /** The plan table as seeded: both paid plans can be bought, and an id finds the plan it belongs to. */
  predicate Purchasable(plans: seq<Plan>) {
    && PlanByName(plans, PRO).Some? && PlanByName(plans, MAX).Some?
    && FindPlan(plans, PlanByName(plans, PRO).value.id) == PlanByName(plans, PRO)
    && FindPlan(plans, PlanByName(plans, MAX).value.id) == PlanByName(plans, MAX)
  }

  /** Every payment is for a plan of `days`, and no row ends later than an activation now would. */
  ghost predicate EqualDays(plans: seq<Plan>, s: State, days: int) {
    && (forall id :: id in s.payments ==>
          var plan := FindPlan(plans, s.payments[id].plan); plan.Some? && plan.value.days == days)
    && (forall i :: 0 <= i < |s.subs| ==> s.subs[i].expiresAt <= s.now + days * DAY)
    && RowsEndInOrder(s)
  }

  lemma CreateKeepsEqualDays(plans: seq<Plan>, s: State, e: Event, days: int)
    requires Purchasable(plans) && PlanByName(plans, PRO).value.days == days == PlanByName(plans, MAX).value.days
    requires EqualDays(plans, s, days) && e.CreateEv?
    ensures EqualDays(plans, Next(plans, s, e), days)
  {}

  /** An activation adds at most its own row. */
  lemma ActivateRow(plans: seq<Plan>, s: State, id: string, f: PayFaults)
    requires id in s.payments
    ensures var s', plan := Activate(plans, s, id, f).0, FindPlan(plans, s.payments[id].plan);
            && s'.payments == s.payments && s'.now == s.now
            && (s'.subs == s.subs
                || (plan.Some? && s'.subs == s.subs + [Subscription(s.payments[id].user, plan.value.id,
                                                         s.now + DaysAsDuration(plan.value.days), id)]))
  {}

  /** A webhook or poll does nothing, stores a status, or stores success and activates. */
  lemma PaymentOutcome(plans: seq<Plan>, s: State, e: Event)
    requires e.WebhookEv? || e.PollEv?
    ensures var s' := Next(plans, s, e);
            || s' == s
            || (e.id in s.payments && e.id in s'.payments && s' == Store(s, e.id, s'.payments[e.id].status))
            || (e.id in s.payments && s' == Activate(plans, Store(s, e.id, Succeeded), e.id, e.pf).0)
  {}

  lemma PaymentKeepsEqualDays(plans: seq<Plan>, s: State, e: Event, days: int)
    requires 1 <= days <= 106751 && EqualDays(plans, s, days) && (e.WebhookEv? || e.PollEv?)
    ensures EqualDays(plans, Next(plans, s, e), days)
  {
    PaymentOutcome(plans, s, e);
    DurationExact(days);
    if e.id in s.payments {
      ActivateRow(plans, Store(s, e.id, Succeeded), e.id, e.pf);
    }
  }

  lemma NextKeepsEqualDays(plans: seq<Plan>, s: State, e: Event, days: int)
    requires Purchasable(plans) && PlanByName(plans, PRO).value.days == days == PlanByName(plans, MAX).value.days
    requires 1 <= days <= 106751 && EqualDays(plans, s, days)
    ensures EqualDays(plans, Next(plans, s, e), days)
  {
    if OnAuthSide(e) {
      AuthSideKeepsRows(plans, s, e);
      ClockGrows(plans, s, e);
    } else if e.CreateEv? {
      CreateKeepsEqualDays(plans, s, e, days);
    } else if !e.ProviderEv? {
      PaymentKeepsEqualDays(plans, s, e, days);
    }
  }

  lemma {:induction false} EqualPlansEndInOrder(plans: seq<Plan>, es: seq<Event>, days: int)
    requires Purchasable(plans) && PlanByName(plans, PRO).value.days == days == PlanByName(plans, MAX).value.days
    requires 1 <= days <= 106751
    ensures EqualDays(plans, Run(plans, EMPTY, es), days)
    decreases |es|
  {
    if es != [] {
      EqualPlansEndInOrder(plans, es[..|es| - 1], days);
      NextKeepsEqualDays(plans, Run(plans, EMPTY, es[..|es| - 1]), es[|es| - 1], days);
    }
  }

  // A user buys the plan called `first`, then the one called `second`, each paid at once; time passes until just
  // after the second has expired.

  function Buying(name: string, id: string): seq<Event> {
    [CreateEv(1, name, id, id, NO_PAY_FAULTS), ProviderEv(id, Succeeded), WebhookEv(id, id, Succeeded, NO_PAY_FAULTS)]
  }

  function Bought(plans: seq<Plan>, s: State, name: string, id: string): State
    requires 1 in s.users && PlanByName(plans, name).Some?
  {
    var plan := PlanByName(plans, name).value;
    s.(provider := s.provider[id := Succeeded],
       payments := s.payments[id := Payment(1, plan.id, id, Succeeded)],
       subs := s.subs + [Subscription(1, plan.id, s.now + plan.days * DAY, id)],
       users := SetPlan(s.users, 1, name))
  }

  lemma RunThree(plans: seq<Plan>, s: State, a: Event, b: Event, c: Event)
    ensures Run(plans, s, [a, b, c]) == Next(plans, Next(plans, Next(plans, s, a), b), c)
  {
    assert [a, b, c] == ([] + [a] + [b]) + [c];
    RunSnoc(plans, s, [] + [a] + [b], c);
    RunSnoc(plans, s, [] + [a], b);
    RunSnoc(plans, s, [], a);
  }

  /** Nobody has a payment under another provider id than its own: all that buying needs of a state. */
  ghost predicate Plainly(s: State, id: string) {
    && 1 in s.users && id != "" && id !in s.provider && id !in s.payments
    && forall other :: other in s.payments ==> s.payments[other].yk == other
  }

  lemma CreatesPayment(plans: seq<Plan>, s: State, name: string, id: string)
    requires Purchasable(plans) && (name == PRO || name == MAX) && Plainly(s, id)
    ensures Next(plans, s, CreateEv(1, name, id, id, NO_PAY_FAULTS))
         == s.(provider := s.provider[id := Pending],
               payments := s.payments[id := Payment(1, PlanByName(plans, name).value.id, id, Pending)])
  {}

  lemma WebhookPays(plans: seq<Plan>, s: State, id: string)
    requires id != "" && id in s.payments && s.payments[id].yk == id && s.payments[id].status.Pending?
    requires id in s.provider && s.provider[id] == Succeeded
    ensures Next(plans, s, WebhookEv(id, id, Succeeded, NO_PAY_FAULTS))
         == Activate(plans, Store(s, id, Succeeded), id, NO_PAY_FAULTS).0
  {}

  lemma ActivatesBought(plans: seq<Plan>, s: State, name: string, id: string)
    requires PlansSound(plans) && Purchasable(plans) && (name == PRO || name == MAX) && 1 in s.users
    requires id in s.payments && s.payments[id].user == 1 && s.payments[id].plan == PlanByName(plans, name).value.id
    ensures var plan, s' := PlanByName(plans, name).value, Activate(plans, s, id, NO_PAY_FAULTS).0;
            && s'.subs == s.subs + [Subscription(1, plan.id, s.now + plan.days * DAY, id)]
            && s' == s.(subs := s'.subs, users := SetPlan(s.users, 1, name))
  {
    NamedPlanIsListed(plans, name);
    DurationExact(PlanByName(plans, name).value.days);
  }

  /** The payment has been opened and the provider reports success. */
  function Opened(plans: seq<Plan>, s: State, name: string, id: string): State
    requires PlanByName(plans, name).Some?
  {
    s.(provider := s.provider[id := Succeeded],
       payments := s.payments[id := Payment(1, PlanByName(plans, name).value.id, id, Pending)])
  }

  lemma ProviderReports(plans: seq<Plan>, s: State, name: string, id: string)
    requires Purchasable(plans) && (name == PRO || name == MAX) && Plainly(s, id)
    ensures Next(plans, Next(plans, s, CreateEv(1, name, id, id, NO_PAY_FAULTS)), ProviderEv(id, Succeeded))
         == Opened(plans, s, name, id)
  {
    CreatesPayment(plans, s, name, id);
    Overwritten(s.provider, id, Pending, Succeeded);
  }

  lemma OpenedActivates(plans: seq<Plan>, s: State, name: string, id: string)
    requires PlansSound(plans) && Purchasable(plans) && (name == PRO || name == MAX) && Plainly(s, id)
    ensures Next(plans, Opened(plans, s, name, id), WebhookEv(id, id, Succeeded, NO_PAY_FAULTS))
         == Bought(plans, s, name, id)
  {
    var plan, open := PlanByName(plans, name).value, Opened(plans, s, name, id);
    Overwritten(s.payments, id, Payment(1, plan.id, id, Pending), Payment(1, plan.id, id, Succeeded));
    WebhookPays(plans, open, id);
    ActivatesBought(plans, Store(open, id, Succeeded), name, id);
  }

  lemma BuyingActivates(plans: seq<Plan>, s: State, name: string, id: string)
    requires PlansSound(plans) && Purchasable(plans) && (name == PRO || name == MAX) && Plainly(s, id)
    ensures Run(plans, s, Buying(name, id)) == Bought(plans, s, name, id)
  {
    var es := Buying(name, id);
    RunThree(plans, s, es[0], es[1], es[2]);
    ProviderReports(plans, s, name, id);
    OpenedActivates(plans, s, name, id);
  }

  lemma Overwritten<K, V>(m: map<K, V>, k: K, v: V, w: V)
    ensures m[k := v][k := w] == m[k := w]
  {}

  function TwoPurchases(plans: seq<Plan>, first: string, second: string): seq<Event>
    requires PlanByName(plans, second).Some?
  {
    [RegisterEv(1)] + (Buying(first, "a") + Buying(second, "b")) + [LaterThan(plans, second)]
  }

  function LaterThan(plans: seq<Plan>, name: string): Event
    requires PlanByName(plans, name).Some?
  {
    ClockEv(PlanByName(plans, name).value.days * DAY + 1)
  }

  const ONE_USER := EMPTY.(users := map[1 := User(FREE, false, 0)])

  lemma BothPurchases(plans: seq<Plan>, first: string, second: string)
    requires PlansSound(plans) && Purchasable(plans) && {first, second} <= {PRO, MAX}
    ensures Run(plans, ONE_USER, Buying(first, "a") + Buying(second, "b"))
         == Bought(plans, Bought(plans, ONE_USER, first, "a"), second, "b")
  {
    BuyingActivates(plans, ONE_USER, first, "a");
    BuyingActivates(plans, Bought(plans, ONE_USER, first, "a"), second, "b");
    RunConcat(plans, ONE_USER, Buying(first, "a"), Buying(second, "b"));
  }

  lemma TwoPurchasesRun(plans: seq<Plan>, first: string, second: string)
    requires PlansSound(plans) && Purchasable(plans) && {first, second} <= {PRO, MAX}
    ensures Run(plans, EMPTY, TwoPurchases(plans, first, second))
         == Next(plans, Bought(plans, Bought(plans, ONE_USER, first, "a"), second, "b"), LaterThan(plans, second))
  {
    var buying := Buying(first, "a") + Buying(second, "b");
    BothPurchases(plans, first, second);
    RegistersOne(plans);
    RunConcat(plans, EMPTY, [RegisterEv(1)], buying);
    RunSnoc(plans, EMPTY, [RegisterEv(1)] + buying, LaterThan(plans, second));
  }

  lemma RegistersOne(plans: seq<Plan>)
    ensures Run(plans, EMPTY, [RegisterEv(1)]) == ONE_USER
  {
    RunSnoc(plans, EMPTY, [], RegisterEv(1));
    assert [] + [RegisterEv(1)] == [RegisterEv(1)];
    assert EMPTY.users[1 := User(FREE, false, 0)] == map[1 := User(FREE, false, 0)];
  }

  /** The user's newest row has expired, and a clean heartbeat leaves the plan it was bought for standing. */
  ghost predicate OutlivesItsExpiry(plans: seq<Plan>, s: State, name: string) {
    && !RowsEndInOrder(s)
    && |s.subs| == 2 && s.subs[0].user == s.subs[1].user == 1 && s.subs[1].expiresAt < s.now
    && var s' := Next(plans, s, TrackEv(1, "heartbeat", true, NO_AUTH_FAULTS));
       1 in s'.users && PlanOf(s', 1) == name
  }

  /** The failing case, reached by a run: when the second plan is shorter, a clean heartbeat after its expiry
      leaves the user on it, because the longer first row still runs. */
  lemma ShorterPlanDoesNotEnd(plans: seq<Plan>, first: string, second: string)
    requires PlansSound(plans) && Purchasable(plans) && {first, second} <= {PRO, MAX}
    requires PlanByName(plans, second).value.days < PlanByName(plans, first).value.days
    ensures OutlivesItsExpiry(plans, Run(plans, EMPTY, TwoPurchases(plans, first, second)), second)
  {
    TwoPurchasesRun(plans, first, second);
    DaysPositive(plans, second);
    BoughtRows(plans, first, second);
    LongerRowCounts(plans, Bought(plans, Bought(plans, ONE_USER, first, "a"), second, "b"),
                    PlanByName(plans, first).value.days, PlanByName(plans, second).value.days);
  }

  lemma DaysPositive(plans: seq<Plan>, name: string)
    requires PlansSound(plans) && PlanByName(plans, name).Some?
    ensures PlanByName(plans, name).value.days >= 1
  {
    NamedPlanIsListed(plans, name);
  }

  lemma LongerRowCounts(plans: seq<Plan>, bought: State, long: int, short: int)
    requires 1 <= short < long && bought.now == 0 && Subscribed(bought, 1)
    requires |bought.subs| == 2 && bought.subs[0].user == bought.subs[1].user == 1
    requires bought.subs[0].expiresAt == long * DAY && bought.subs[1].expiresAt == short * DAY
    ensures OutlivesItsExpiry(plans, Next(plans, bought, ClockEv(short * DAY + 1)), PlanOf(bought, 1))
  {
    var s := Next(plans, bought, ClockEv(short * DAY + 1));
    assert s.subs[0].expiresAt >= s.now;
    ChecksInsertNothing(plans, s, TrackEv(1, "heartbeat", true, NO_AUTH_FAULTS), 1);
    CheckEndsPlanExactly(plans, s, TrackEv(1, "heartbeat", true, NO_AUTH_FAULTS), 1);
  }

  lemma BoughtRows(plans: seq<Plan>, first: string, second: string)
    requires PlanByName(plans, first).Some? && PlanByName(plans, second).Some?
    ensures var s := Bought(plans, Bought(plans, ONE_USER, first, "a"), second, "b");
            && 1 in s.users && PlanOf(s, 1) == second && s.now == 0
            && |s.subs| == 2 && s.subs[0].user == s.subs[1].user == 1
            && s.subs[0].expiresAt == PlanByName(plans, first).value.days * DAY
            && s.subs[1].expiresAt == PlanByName(plans, second).value.days * DAY
  {}

  /** Main result: the latest activation is the one whose expiry counts, in every run, if and only if the two
      paid plans last equally long. */
  lemma LatestActivationCountsExactly(plans: seq<Plan>)
    requires PlansSound(plans) && Purchasable(plans)
    ensures (forall es :: RowsEndInOrder(Run(plans, EMPTY, es)))
        <==> PlanByName(plans, PRO).value.days == PlanByName(plans, MAX).value.days
  {
    var pro, max := PlanByName(plans, PRO).value.days, PlanByName(plans, MAX).value.days;
    NamedPlanIsListed(plans, PRO);
    if pro == max {
      forall es ensures RowsEndInOrder(Run(plans, EMPTY, es)) {
        EqualPlansEndInOrder(plans, es, pro);
      }
    } else if max < pro {
      ShorterPlanDoesNotEnd(plans, PRO, MAX);
      assert !RowsEndInOrder(Run(plans, EMPTY, TwoPurchases(plans, PRO, MAX)));
    } else {
      ShorterPlanDoesNotEnd(plans, MAX, PRO);
      assert !RowsEndInOrder(Run(plans, EMPTY, TwoPurchases(plans, MAX, PRO)));
    }
  }

  // ---------------------------------------------------------------- metering

  /** The total a user enters the limit check with is the limit less one more beat: 10740, not 10800,
      because the check adds a beat that the stored total already holds. */
  const FREEZE_TOTAL := FREE_TIME_LIMIT - BEAT

  /** A heartbeat of `u` that is counted. */
  predicate Counts(s: State, e: Event, u: int) {
    e.TrackEv? && e.u == u && e.eventType == "heartbeat" && e.metadataOk && !e.af.create && Happens(e.af.increment)
    && u in s.users
  }

  function Beats(plans: seq<Plan>, s: State, es: seq<Event>, u: int): nat {
    if es == [] then 0
    else
      var before := es[..|es| - 1];
      Beats(plans, s, before, u) + (if Counts(Run(plans, s, before), es[|es| - 1], u) then 1 else 0)
  }

  lemma DowngradeKeepsTime(s: State, v: int, plan: string, f: AuthFaults, u: int)
    requires u in s.users
    ensures var s' := Downgrade(s, v, plan, f); u in s'.users && s'.users[u].totalTime == s.users[u].totalTime
  {}

  lemma TrackMeters(s: State, u: int, ok: bool, f: AuthFaults)
    requires u in s.users
    ensures var s' := Track(s, u, "heartbeat", ok, f).0;
            && u in s'.users
            && s'.users[u].totalTime
               == s.users[u].totalTime + (if ok && !f.create && Happens(f.increment) then BEAT else 0)
  {
    var s1 := if Happens(f.increment) then s.(users := AddTime(s.users, u, BEAT)) else s;
    var plan := s1.users[u].plan;
    DowngradeKeepsTime(s1, u, plan, f, u);
    DowngradeKeepsTime(s1.(users := SetPlan(s1.users, u, FREEZE)), u, plan, f, u);
  }

  lemma PaymentKeepsTime(plans: seq<Plan>, s: State, e: Event, u: int)
    requires u in s.users && (e.WebhookEv? || e.PollEv?)
    ensures var s' := Next(plans, s, e); u in s'.users && s'.users[u].totalTime == s.users[u].totalTime
  {}

  lemma StepMeters(plans: seq<Plan>, s: State, e: Event, u: int)
    requires u in s.users
    ensures u in Next(plans, s, e).users
    ensures Next(plans, s, e).users[u].totalTime == s.users[u].totalTime + (if Counts(s, e, u) then BEAT else 0)
  {
    match e
    case TrackEv(v, eventType, ok, f) =>
      if v == u && eventType == "heartbeat" {
        TrackMeters(s, u, ok, f);
      } else {
        TrackOthers(s, v, eventType, ok, f, u);
      }
    case SessionEv(sid, f) =>
      if sid in s.sessions && s.sessions[sid].user in s.users {
        DowngradeKeepsTime(s, s.sessions[sid].user, s.users[s.sessions[sid].user].plan, f, u);
      }
    case WebhookEv(_, _, _, _) => PaymentKeepsTime(plans, s, e, u);
    case PollEv(_, _, _) => PaymentKeepsTime(plans, s, e, u);
    case _ =>
  }

  /** Main result: in every run, whatever else happens, a user's total time is 60 seconds for each
      counted heartbeat. */
  lemma {:induction false} TimeIsConserved(plans: seq<Plan>, s: State, es: seq<Event>, u: int)
    requires u in s.users
    ensures u in Run(plans, s, es).users
    ensures Run(plans, s, es).users[u].totalTime == s.users[u].totalTime + 60 * Beats(plans, s, es, u)
    decreases |es|
  {
    if es != [] {
      TimeIsConserved(plans, s, es[..|es| - 1], u);
      StepMeters(plans, Run(plans, s, es[..|es| - 1]), es[|es| - 1], u);
    }
  }

  /** A user who enters a clean heartbeat free leaves it free exactly when the new total is below 10740
      seconds, and frozen otherwise. */
  lemma FreeUntilTheLimit(plans: seq<Plan>, s: State, e: Event, u: int)
    requires Counts(s, e, u) && e.af == NO_AUTH_FAULTS && PlanOf(s, u) == FREE
    ensures var user := Next(plans, s, e).users[u];
            user.plan == if user.totalTime < FREEZE_TOTAL then FREE else FREEZE
  {}

  /** Heartbeats of `u` that fail nowhere, and nothing by or about `u` that could set the plan otherwise. */
  predicate PlainLife(e: Event, u: int) {
    && (e.TrackEv? && e.u == u ==> e.af == NO_AUTH_FAULTS)
    && !Decides(e, u)
    && !(e.CreateEv? && e.u == u)
  }

  ghost predicate NeverPaid(s: State, u: int) {
    forall id :: id in s.payments ==> s.payments[id].user != u
  }

  /** Other people's payments do not concern `u`. */
  lemma OthersPay(plans: seq<Plan>, s: State, e: Event, u: int)
    requires u in s.users && NeverPaid(s, u) && !(e.CreateEv? && e.u == u)
    ensures NeverPaid(Next(plans, s, e), u)
    ensures e.WebhookEv? || e.PollEv? ==> u in Next(plans, s, e).users && Next(plans, s, e).users[u] == s.users[u]
  {
    if OnAuthSide(e) { AuthSideKeepsRows(plans, s, e); }
  }

  lemma PlainStep(plans: seq<Plan>, s: State, e: Event, u: int)
    requires u in s.users && PlanOf(s, u) in {FREE, FREEZE} && PlainLife(e, u) && NeverPaid(s, u)
    ensures u in Next(plans, s, e).users && NeverPaid(Next(plans, s, e), u)
    ensures !Counts(s, e, u) || PlanOf(s, u) == FREEZE ==> PlanOf(Next(plans, s, e), u) == PlanOf(s, u)
  {
    OthersPay(plans, s, e, u);
    match e
    case TrackEv(v, eventType, ok, f) => PlainTrack(s, v, eventType, ok, f, u);
    case SessionEv(sid, f) => PlainSession(s, sid, f, u);
    case _ =>
  }

  lemma PlainTrack(s: State, v: int, eventType: string, ok: bool, f: AuthFaults, u: int)
    requires u in s.users && PlanOf(s, u) in {FREE, FREEZE} && (u == v ==> f == NO_AUTH_FAULTS)
    ensures var s' := Track(s, v, eventType, ok, f).0;
            && u in s'.users
            && (!(u == v && eventType == "heartbeat" && ok) || PlanOf(s, u) == FREEZE ==> PlanOf(s', u) == PlanOf(s, u))
  {
    if v != u || eventType != "heartbeat" {
      TrackOthers(s, v, eventType, ok, f, u);
    } else {
      TrackFrame(s, v, eventType, ok, f);
    }
  }

  lemma PlainSession(s: State, sid: string, f: AuthFaults, u: int)
    requires u in s.users && PlanOf(s, u) in {FREE, FREEZE}
    ensures var s' := CheckSession(s, sid, f).0; u in s'.users && PlanOf(s', u) == PlanOf(s, u)
  {}

  /** Main result: a fresh free user is free for exactly the first 178 heartbeats and frozen from the
      179th on, through session checks and everything others do, payments included. */
  lemma {:induction false} FrozenFromThe179th(plans: seq<Plan>, s: State, es: seq<Event>, u: int)
    requires u in s.users && s.users[u].totalTime == 0 && PlanOf(s, u) == FREE && NeverPaid(s, u)
    requires forall e :: e in es ==> PlainLife(e, u)
    ensures u in Run(plans, s, es).users && NeverPaid(Run(plans, s, es), u)
    ensures PlanOf(Run(plans, s, es), u) == if Beats(plans, s, es, u) <= 178 then FREE else FREEZE
    decreases |es|
  {
    if es != [] {
      var before, e := es[..|es| - 1], es[|es| - 1];
      var s1 := Run(plans, s, before);
      assert e in es && forall x :: x in before ==> x in es;
      FrozenFromThe179th(plans, s, before, u);
      TimeIsConserved(plans, s, es, u);
      PlainStep(plans, s1, e, u);
      if Counts(s1, e, u) && PlanOf(s1, u) == FREE { FreeUntilTheLimit(plans, s1, e, u); }
    }
  }

  // ---------------------------------------------------------------- administrators

  ghost predicate NoAdmins(s: State) {
    forall u :: u in s.users ==> !s.users[u].isAdmin
  }

  lemma DowngradeMakesNoAdmin(s: State, u: int, plan: string, f: AuthFaults)
    requires NoAdmins(s)
    ensures NoAdmins(Downgrade(s, u, plan, f))
  {}

  lemma TrackMakesNoAdmin(s: State, u: int, eventType: string, ok: bool, f: AuthFaults)
    requires NoAdmins(s)
    ensures NoAdmins(Track(s, u, eventType, ok, f).0)
  {
    if u in s.users {
      var s1 := if Happens(f.increment) then s.(users := AddTime(s.users, u, BEAT)) else s;
      var plan := s1.users[u].plan;
      DowngradeMakesNoAdmin(s1, u, plan, f);
      DowngradeMakesNoAdmin(s1.(users := SetPlan(s1.users, u, FREEZE)), u, plan, f);
    }
  }

  lemma PaymentMakesNoAdmin(plans: seq<Plan>, s: State, e: Event)
    requires NoAdmins(s) && (forall p :: p in plans ==> p.name != ADMIN) && (e.WebhookEv? || e.PollEv?)
    ensures NoAdmins(Next(plans, s, e))
  {
    PaymentOutcome(plans, s, e);
    if e.id in s.payments {
      FoundPlanIsListed(plans, s.payments[e.id].plan);
    }
  }

  /** Without an administrator there never is one: no plan that can be bought, no heartbeat and no session check
      makes one, and changing plans takes one. */
  lemma {:induction false} AdminsComeFromAdmins(plans: seq<Plan>, s: State, es: seq<Event>)
    requires NoAdmins(s) && forall p :: p in plans ==> p.name != ADMIN
    ensures NoAdmins(Run(plans, s, es))
    decreases |es|
  {
    if es != [] {
      var s1 := Run(plans, s, es[..|es| - 1]);
      AdminsComeFromAdmins(plans, s, es[..|es| - 1]);
      match es[|es| - 1]
      case TrackEv(u, eventType, ok, f) => TrackMakesNoAdmin(s1, u, eventType, ok, f);
      case SessionEv(sid, f) =>
        if sid in s1.sessions && s1.sessions[sid].user in s1.users {
          DowngradeMakesNoAdmin(s1, s1.sessions[sid].user, s1.users[s1.sessions[sid].user].plan, f);
        }
      case WebhookEv(_, _, _, _) => PaymentMakesNoAdmin(plans, s1, es[|es| - 1]);
      case PollEv(_, _, _) => PaymentMakesNoAdmin(plans, s1, es[|es| - 1]);
      case _ =>
    }
  }
}
