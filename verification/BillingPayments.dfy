/** What webhooks and status polls do to payments, in any order and multiplicity
    (internal/payment/usecase/payment.go:138-231). */
module BillingPayments {
  import opened Billing

  /** Exactly one inserted row came from payment `id`, or none: the table of a sound state. */
  ghost predicate RowsSound(s: State) {
    && (forall i :: 0 <= i < |s.subs| ==>
          s.subs[i].origin in s.payments && s.payments[s.subs[i].origin].status == Succeeded)
    && (forall i, j :: 0 <= i < j < |s.subs| ==> s.subs[i].origin != s.subs[j].origin)
  }

  /** A stored final status is the provider's, and the table's check on statuses holds. */
  ghost predicate StatusesSound(s: State) {
    forall id :: id in s.payments ==>
      var p := s.payments[id];
      && !p.status.Foreign?
      && (Final(p.status) ==> p.yk in s.provider && s.provider[p.yk] == p.status)
  }

  ghost predicate Inv(s: State) { RowsSound(s) && StatusesSound(s) }

  ghost predicate HasRow(s: State, id: string) {
    exists i :: 0 <= i < |s.subs| && s.subs[i].origin == id
  }

  /** What one step may do to the payment service's rows. */
  ghost predicate PaymentStep(s: State, e: Event, s': State) {
    && (forall id :: id in s.payments ==>
          && id in s'.payments
          && s'.payments[id] == s.payments[id].(status := s'.payments[id].status)
          && (Final(s.payments[id].status) ==> s'.payments[id].status == s.payments[id].status))
    && (s'.subs == s.subs || (exists sub :: s'.subs == s.subs + [sub] && Activates(s, e, s', sub)))
  }

  /** A row is inserted only where MarkPaid has just succeeded, for the payment it was called on. */
  ghost predicate Activates(s: State, e: Event, s': State, sub: Subscription) {
    && (e.WebhookEv? || e.PollEv?) && e.id == sub.origin && e.pf.store == Fine
    && sub.origin in s.payments && s.payments[sub.origin].status != Succeeded
    && sub.origin in s'.payments && s'.payments[sub.origin].status == Succeeded
    && sub.user == s.payments[sub.origin].user
  }

  lemma ActivateShape(plans: seq<Plan>, s: State, id: string, f: PayFaults)
    requires id in s.payments
    ensures var s' := Activate(plans, s, id, f).0;
            && s'.payments == s.payments && s'.provider == s.provider
            && (s'.subs == s.subs
                || (|s'.subs| == |s.subs| + 1 && s'.subs == s.subs + [s'.subs[|s.subs|]]
                    && s'.subs[|s.subs|].origin == id && s'.subs[|s.subs|].user == s.payments[id].user))
  {}

  lemma ApplyStatusStep(plans: seq<Plan>, s: State, e: Event, f: PayFaults, st: Status)
    requires Inv(s) && (e.WebhookEv? || e.PollEv?) && e.pf == f
    requires e.id in s.payments && s.payments[e.id].yk in s.provider && s.provider[s.payments[e.id].yk] == st
    requires !(s.payments[e.id].status.Succeeded? && st.Succeeded?)
    ensures var s' := ApplyStatus(plans, s, e.id, st, f).0; Inv(s') && PaymentStep(s, e, s')
  {
    var s' := ApplyStatus(plans, s, e.id, st, f).0;
    if f.store.Fails? || st.Foreign? {
      SameRows(s, e, s');
    } else if st.Succeeded? && f.store.Fine? {
      ActivateShape(plans, Store(s, e.id, st), e.id, f);
      StoredStep(s, e, st, s');
    } else {
      StoredStep(s, e, st, s');
    }
  }

  /** The provider's status is stored and at most a row for this payment is added. */
  lemma StoredStep(s: State, e: Event, st: Status, s': State)
    requires Inv(s) && (e.WebhookEv? || e.PollEv?) && !st.Foreign?
    requires e.id in s.payments && s.payments[e.id].yk in s.provider && s.provider[s.payments[e.id].yk] == st
    requires !(s.payments[e.id].status.Succeeded? && st.Succeeded?)
    requires s'.payments == Store(s, e.id, st).payments && s'.provider == s.provider
    requires s'.subs == s.subs
          || (st.Succeeded? && e.pf.store.Fine? && |s'.subs| == |s.subs| + 1 && s'.subs == s.subs + [s'.subs[|s.subs|]]
              && s'.subs[|s.subs|].origin == e.id && s'.subs[|s.subs|].user == s.payments[e.id].user)
    ensures Inv(s') && PaymentStep(s, e, s')
  {
    assert StatusesSound(s');
    if s'.subs != s.subs {
      assert Activates(s, e, s', s'.subs[|s.subs|]);
    }
  }

  predicate OnAuthSide(e: Event) {
    e.TrackEv? || e.SessionEv? || e.AdminEv? || e.LoginEv? || e.RegisterEv? || e.ClockEv?
  }

  /** A downgrade touches nothing but the plans of users. */
  lemma DowngradeFrame(s: State, u: int, plan: string, f: AuthFaults)
    ensures var s' := Downgrade(s, u, plan, f); s' == s.(users := s'.users) && s'.users.Keys == s.users.Keys
  {}

  lemma TrackFrame(s: State, u: int, eventType: string, ok: bool, f: AuthFaults)
    ensures var s' := Track(s, u, eventType, ok, f).0; s' == s.(users := s'.users) && s'.users.Keys == s.users.Keys
  {
    var s1 := if Happens(f.increment) then s.(users := AddTime(s.users, u, BEAT)) else s;
    if u in s.users {
      var plan := s1.users[u].plan;
      DowngradeFrame(s1, u, plan, f);
      DowngradeFrame(s1.(users := SetPlan(s1.users, u, FREEZE)), u, plan, f);
    }
  }

  lemma SessionFrame(s: State, sid: string, f: AuthFaults)
    ensures var s' := CheckSession(s, sid, f).0;
            s' == s.(users := s'.users, sessions := s'.sessions) && s'.users.Keys == s.users.Keys
  {
    if sid in s.sessions && s.sessions[sid].user in s.users {
      DowngradeFrame(s, s.sessions[sid].user, s.users[s.sessions[sid].user].plan, f);
    }
  }

  /** The auth service, logins and time never touch payments, rows or the provider. */
  lemma AuthSideKeepsRows(plans: seq<Plan>, s: State, e: Event)
    requires OnAuthSide(e)
    ensures var s' := Next(plans, s, e);
            && s'.payments == s.payments && s'.subs == s.subs && s'.provider == s.provider
            && s.users.Keys <= s'.users.Keys
  {
    match e
    case TrackEv(u, eventType, ok, f) => TrackFrame(s, u, eventType, ok, f);
    case SessionEv(sid, f) => SessionFrame(s, sid, f);
    case _ =>
  }

  lemma CreateStep(plans: seq<Plan>, s: State, e: Event)
    requires Inv(s) && e.CreateEv?
    ensures Inv(Next(plans, s, e)) && PaymentStep(s, e, Next(plans, s, e))
  {}

  lemma NextKeepsInv(plans: seq<Plan>, s: State, e: Event)
    requires Inv(s)
    ensures Inv(Next(plans, s, e)) && PaymentStep(s, e, Next(plans, s, e))
  {
    if OnAuthSide(e) {
      AuthSideKeepsRows(plans, s, e);
      SameRows(s, e, Next(plans, s, e));
    } else if e.CreateEv? {
      CreateStep(plans, s, e);
    } else if e.ProviderEv? {
    } else {
      PaymentEventStep(plans, s, e);
    }
  }

  lemma SameRows(s: State, e: Event, s': State)
    requires Inv(s) && s'.payments == s.payments && s'.subs == s.subs && s'.provider == s.provider
    ensures Inv(s') && PaymentStep(s, e, s')
  {}

  lemma PaymentEventStep(plans: seq<Plan>, s: State, e: Event)
    requires Inv(s) && (e.WebhookEv? || e.PollEv?)
    ensures Inv(Next(plans, s, e)) && PaymentStep(s, e, Next(plans, s, e))
  {
    var s' := Next(plans, s, e);
    if s' == s {
      SameRows(s, e, s');
    } else {
      var st := s.provider[s.payments[e.id].yk];
      ApplyStatusStep(plans, s, e, e.pf, st);
    }
  }

  lemma {:induction false} RunKeepsInv(plans: seq<Plan>, s: State, es: seq<Event>)
    requires Inv(s)
    ensures Inv(Run(plans, s, es))
    decreases |es|
  {
    if es != [] {
      RunKeepsInv(plans, s, es[..|es| - 1]);
      NextKeepsInv(plans, Run(plans, s, es[..|es| - 1]), es[|es| - 1]);
    }
  }

  /** Main result: a stored `succeeded` or `canceled` never changes, whatever happens afterwards. */
  lemma {:induction false} FinalIsForever(plans: seq<Plan>, s: State, es: seq<Event>, id: string)
    requires Inv(s) && id in s.payments && Final(s.payments[id].status)
    ensures id in Run(plans, s, es).payments
    ensures Run(plans, s, es).payments[id].status == s.payments[id].status
    decreases |es|
  {
    if es != [] {
      var before := es[..|es| - 1];
      FinalIsForever(plans, s, before, id);
      RunKeepsInv(plans, s, before);
      NextKeepsInv(plans, Run(plans, s, before), es[|es| - 1]);
    }
  }

  /** Main result: at most one subscription row per payment, and only for a succeeded payment; what
      exists already stays. */
  lemma {:induction false} ActivatedAtMostOnce(plans: seq<Plan>, s: State, es: seq<Event>)
    requires Inv(s)
    ensures RowsSound(Run(plans, s, es))
    ensures s.subs <= Run(plans, s, es).subs
    decreases |es|
  {
    RunKeepsInv(plans, s, es);
    if es != [] {
      var before := es[..|es| - 1];
      RunKeepsInv(plans, s, before);
      ActivatedAtMostOnce(plans, s, before);
      NextKeepsInv(plans, Run(plans, s, before), es[|es| - 1]);
    }
  }

  // ---------------------------------------------------------------- exactly once, exactly when nothing fails late

  /** The plan table: known names, and durations an int64 can hold. */
  predicate PlansSound(plans: seq<Plan>) {
    forall p :: p in plans ==> p.name in VALID_PLANS && 1 <= p.days <= 106751
  }

  /** Foreign keys: a payment's user and plan exist. */
  ghost predicate KeysSound(plans: seq<Plan>, s: State) {
    forall id :: id in s.payments ==>
      s.payments[id].user in s.users && FindPlan(plans, s.payments[id].plan).Some?
  }

  lemma {:induction false} FoundPlanIsListed(plans: seq<Plan>, id: int)
    ensures FindPlan(plans, id).Some? ==> FindPlan(plans, id).value in plans && FindPlan(plans, id).value.id == id
    ensures (exists p :: p in plans && p.id == id) ==> FindPlan(plans, id).Some?
  {
    if plans != [] {
      FoundPlanIsListed(plans[1..], id);
      assert plans == [plans[0]] + plans[1..];
    }
  }

  lemma {:induction false} NamedPlanIsListed(plans: seq<Plan>, name: string)
    ensures var plan := PlanByName(plans, name); plan.Some? ==> plan.value in plans && plan.value.name == name
  {
    if plans != [] {
      NamedPlanIsListed(plans[1..], name);
      assert plans == [plans[0]] + plans[1..];
    }
  }

  lemma CreateKeepsKeys(plans: seq<Plan>, s: State, e: Event)
    requires KeysSound(plans, s) && e.CreateEv?
    ensures KeysSound(plans, Next(plans, s, e))
  {
    NamedPlanIsListed(plans, e.planName);
    if PlanByName(plans, e.planName).Some? { FoundPlanIsListed(plans, PlanByName(plans, e.planName).value.id); }
  }

  lemma PaymentEventKeepsUsers(plans: seq<Plan>, s: State, e: Event)
    requires e.WebhookEv? || e.PollEv?
    ensures Next(plans, s, e).users.Keys == s.users.Keys
    ensures Next(plans, s, e).payments.Keys == s.payments.Keys
  {}

  lemma NextKeepsKeys(plans: seq<Plan>, s: State, e: Event)
    requires KeysSound(plans, s) && Inv(s)
    ensures KeysSound(plans, Next(plans, s, e))
  {
    if OnAuthSide(e) {
      AuthSideKeepsRows(plans, s, e);
    } else if e.CreateEv? {
      CreateKeepsKeys(plans, s, e);
    } else if e.WebhookEv? || e.PollEv? {
      NextKeepsInv(plans, s, e);
      PaymentEventKeepsUsers(plans, s, e);
      KeysFrame(plans, s, e, Next(plans, s, e));
    }
  }

  lemma KeysFrame(plans: seq<Plan>, s: State, e: Event, s': State)
    requires KeysSound(plans, s) && PaymentStep(s, e, s')
    requires s'.users.Keys == s.users.Keys && s'.payments.Keys == s.payments.Keys
    ensures KeysSound(plans, s')
  {}

  /** An activation whose calls take effect inserts its row and gives the user the plan. */
  lemma CleanActivation(plans: seq<Plan>, s: State, id: string, f: PayFaults)
    requires id in s.payments && KeysSound(plans, s) && PlansSound(plans)
    requires !f.list && f.upsert.Fine? && !f.setPlan.Fails?
    ensures var p := s.payments[id];
            var plan := FindPlan(plans, p.plan).value;
            var (s', ok) := Activate(plans, s, id, f);
            && (ok <==> f.setPlan.Fine?)
            && s'.subs == s.subs + [Subscription(p.user, plan.id, s.now + plan.days * DAY, id)]
            && s'.users == s.users[p.user := s.users[p.user].(plan := plan.name, isAdmin := plan.name == ADMIN)]
  {
    FoundPlanIsListed(plans, s.payments[id].plan);
    DurationExact(FindPlan(plans, s.payments[id].plan).value.days);
  }

  ghost predicate ActivatedIffSucceeded(s: State) {
    forall id :: id in s.payments ==> (s.payments[id].status == Succeeded <==> HasRow(s, id))
  }

  /** The step stores `succeeded` for a payment that was not. */
  predicate Pays(plans: seq<Plan>, s: State, e: Event, id: string) {
    && id in Next(plans, s, e).payments && Next(plans, s, e).payments[id].status == Succeeded
    && !(id in s.payments && s.payments[id].status == Succeeded)
  }

  /** Only a payment event whose MarkPaid took effect makes a payment succeeded. */
  lemma BecomesSucceeded(plans: seq<Plan>, s: State, e: Event, id: string)
    requires Pays(plans, s, e, id)
    ensures id in s.payments && (e.WebhookEv? || e.PollEv?) && e.id == id && !e.pf.store.Fails?
    ensures Next(plans, s, e)
         == if e.pf.store.Lost? then Store(s, id, Succeeded) else Activate(plans, Store(s, id, Succeeded), id, e.pf).0
  {
    if OnAuthSide(e) { AuthSideKeepsRows(plans, s, e); }
  }

  /** What decides whether the row is inserted: MarkPaid answered, the plans could be listed, and the insert
      took effect, heard or not.  Telling the auth service comes too late to matter for the row. */
  predicate RowIsInserted(f: PayFaults) {
    f.store.Fine? && !f.list && !f.upsert.Fails?
  }

  lemma ActivationInserts(plans: seq<Plan>, s: State, id: string, f: PayFaults)
    requires id in s.payments && KeysSound(plans, s) && PlansSound(plans)
    ensures var s' := Activate(plans, s, id, f).0;
            if f.list || f.upsert.Fails? then s'.subs == s.subs
            else |s'.subs| == |s.subs| + 1 && s'.subs[..|s.subs|] == s.subs && s'.subs[|s.subs|].origin == id
  {
    FoundPlanIsListed(plans, s.payments[id].plan);
    DurationExact(FindPlan(plans, s.payments[id].plan).value.days);
  }

  /** Exactly when the paying step inserts the row: an unpaid payment has no row, and the step inserts one if
      and only if these calls work. */
  lemma PayingActivatesExactly(plans: seq<Plan>, s: State, e: Event, id: string)
    requires Inv(s) && KeysSound(plans, s) && PlansSound(plans) && Pays(plans, s, e, id)
    ensures (e.WebhookEv? || e.PollEv?) && !HasRow(s, id)
    ensures HasRow(Next(plans, s, e), id) <==> RowIsInserted(e.pf)
  {
    BecomesSucceeded(plans, s, e, id);
    var s' := Next(plans, s, e);
    if e.pf.store.Fine? {
      ActivationInserts(plans, Store(s, id, Succeeded), id, e.pf);
      if RowIsInserted(e.pf) {
        assert s'.subs[|s.subs|].origin == id;
      }
    }
  }

  // ---------------------------------------------------------------- who gets the plan

  /** What decides whether the payer gets the plan: the insert must have answered, too, and SetUserPlan have taken
      effect, heard or not. */
  predicate PlanIsGranted(f: PayFaults) {
    f.store.Fine? && !f.list && f.upsert.Fine? && !f.setPlan.Fails?
  }

  function PlanBought(plans: seq<Plan>, s: State, id: string): Plan
    requires id in s.payments && FindPlan(plans, s.payments[id].plan).Some?
  {
    FindPlan(plans, s.payments[id].plan).value
  }

  /** The users after a payment by one of them was granted. */
  function Granted(plans: seq<Plan>, s: State, id: string): map<int, User>
    requires id in s.payments && FindPlan(plans, s.payments[id].plan).Some? && s.payments[id].user in s.users
  {
    var u, name := s.payments[id].user, PlanBought(plans, s, id).name;
    s.users[u := s.users[u].(plan := name, isAdmin := name == ADMIN)]
  }

  lemma ActivationGrants(plans: seq<Plan>, s: State, id: string, f: PayFaults)
    requires id in s.payments && KeysSound(plans, s) && PlansSound(plans)
    ensures Activate(plans, s, id, f).0.users
         == if !f.list && f.upsert.Fine? && !f.setPlan.Fails? then Granted(plans, s, id) else s.users
  {
    if !f.list && f.upsert.Fine? && !f.setPlan.Fails? { CleanActivation(plans, s, id, f); }
  }

  /** Exactly when the paying step gives the payer the plan; nobody else's row changes. */
  lemma PayingGrantsExactly(plans: seq<Plan>, s: State, e: Event, id: string)
    requires Inv(s) && KeysSound(plans, s) && PlansSound(plans) && Pays(plans, s, e, id)
    ensures (e.WebhookEv? || e.PollEv?) && id in s.payments
    ensures Next(plans, s, e).users == if PlanIsGranted(e.pf) then Granted(plans, s, id) else s.users
  {
    BecomesSucceeded(plans, s, e, id);
    if e.pf.store.Fine? {
      assert KeysSound(plans, Store(s, id, Succeeded));
      ActivationGrants(plans, Store(s, id, Succeeded), id, e.pf);
    }
  }

  /** A granted payment adds this row, and its payer has this plan. */
  lemma GrantedPaymentRow(plans: seq<Plan>, s: State, e: Event, id: string)
    requires Inv(s) && KeysSound(plans, s) && PlansSound(plans) && Pays(plans, s, e, id)
    requires (e.WebhookEv? || e.PollEv?) && PlanIsGranted(e.pf)
    ensures id in s.payments
    ensures var u, plan := s.payments[id].user, PlanBought(plans, s, id);
            && Next(plans, s, e).subs == s.subs + [Subscription(u, plan.id, s.now + plan.days * DAY, id)]
            && Next(plans, s, e).users == Granted(plans, s, id)
  {
    BecomesSucceeded(plans, s, e, id);
    assert KeysSound(plans, Store(s, id, Succeeded));
    CleanActivation(plans, Store(s, id, Succeeded), id, e.pf);
  }

  /** No other webhook or poll gives anybody a plan. */
  lemma OnlyPayingGrants(plans: seq<Plan>, s: State, e: Event)
    requires (e.WebhookEv? || e.PollEv?) && !Pays(plans, s, e, e.id)
    ensures Next(plans, s, e).users == s.users
  {
    var s' := Next(plans, s, e);
    if s' != s && e.id in s.payments && s.payments[e.id].yk in s.provider
       && s.provider[s.payments[e.id].yk].Succeeded? && e.pf.store.Fine?
    {
      ActivateShape(plans, Store(s, e.id, Succeeded), e.id, e.pf);
    }
  }

  /** Once a payment is paid, its webhooks and polls do nothing at all. */
  lemma PaidEventsDoNothing(plans: seq<Plan>, s: State, e: Event)
    requires Inv(s) && (e.WebhookEv? || e.PollEv?) && e.id in s.payments && s.payments[e.id].status == Succeeded
    ensures Next(plans, s, e) == s
  {}

  /** A payment is paid at most once in a run. */
  lemma PaidOnce(plans: seq<Plan>, s: State, es: seq<Event>, id: string, j: nat, k: nat)
    requires Inv(s) && j < k < |es|
    requires Pays(plans, Run(plans, s, es[..j]), es[j], id)
    ensures !Pays(plans, Run(plans, s, es[..k]), es[k], id)
  {
    var first := Run(plans, s, es[..j]);
    RunKeepsInv(plans, s, es[..j]);
    NextKeepsInv(plans, first, es[j]);
    assert es[..k][..j] == es[..j] && es[..k][j] == es[j];
    RunFrom(plans, s, es[..k], j);
    FinalIsForever(plans, Next(plans, first, es[j]), es[..k][j + 1..], id);
  }

  /** Main result, over whole runs: a payment gives its payer the plan at the step that pays it, if and only if the
      calls of that step that decide it took effect; at no other step of the run does a webhook or a poll of this
      payment change any user. */
  lemma GrantedIffPayingStepWorked(plans: seq<Plan>, s: State, es: seq<Event>, id: string, k: nat)
    requires Inv(s) && KeysSound(plans, s) && PlansSound(plans)
    requires k < |es| && Pays(plans, Run(plans, s, es[..k]), es[k], id)
    ensures var s1 := Run(plans, s, es[..k]);
            && (es[k].WebhookEv? || es[k].PollEv?)
            && id in s1.payments && s1.payments[id].user in s1.users && FindPlan(plans, s1.payments[id].plan).Some?
            && Next(plans, s1, es[k]).users == if PlanIsGranted(es[k].pf) then Granted(plans, s1, id) else s1.users
    ensures forall j :: 0 <= j < |es| && j != k && (es[j].WebhookEv? || es[j].PollEv?) && es[j].id == id ==>
              Next(plans, Run(plans, s, es[..j]), es[j]).users == Run(plans, s, es[..j]).users
  {
    RunKeepsInv(plans, s, es[..k]);
    RunKeepsKeys(plans, s, es[..k]);
    PayingGrantsExactly(plans, Run(plans, s, es[..k]), es[k], id);
    forall j | 0 <= j < |es| && j != k && (es[j].WebhookEv? || es[j].PollEv?) && es[j].id == id
      ensures Next(plans, Run(plans, s, es[..j]), es[j]).users == Run(plans, s, es[..j]).users
    {
      if Pays(plans, Run(plans, s, es[..j]), es[j], id) {
        if j < k { PaidOnce(plans, s, es, id, j, k); } else { PaidOnce(plans, s, es, id, k, j); }
      }
      OnlyPayingGrants(plans, Run(plans, s, es[..j]), es[j]);
    }
  }

  /** The two conditions differ: a payment can be paid and have its row while the payer never gets the plan. */
  lemma GrantCanBeMissed(plans: seq<Plan>, s: State, yk: string, id: string)
    requires Inv(s) && KeysSound(plans, s) && PlansSound(plans)
    requires yk != "" && IsPaymentOf(s, yk, id) && Open(s.payments[id].status)
    requires yk in s.provider && s.provider[yk] == Succeeded
    ensures var s' := Next(plans, s, WebhookEv(yk, id, Succeeded, NO_PAY_FAULTS.(setPlan := Fails)));
            && s'.payments[id].status == Succeeded && HasRow(s', id) && s'.users == s.users
            && forall e: Event :: (e.WebhookEv? || e.PollEv?) && e.id == id ==> Next(plans, s', e) == s'
  {
    var e := WebhookEv(yk, id, Succeeded, NO_PAY_FAULTS.(setPlan := Fails));
    var s' := Next(plans, s, e);
    PayingActivatesExactly(plans, s, e, id);
    PayingGrantsExactly(plans, s, e, id);
    NextKeepsInv(plans, s, e);
    forall e: Event | (e.WebhookEv? || e.PollEv?) && e.id == id ensures Next(plans, s', e) == s' {
      PaidEventsDoNothing(plans, s', e);
    }
  }

  // ---------------------------------------------------------------- rows over whole runs

  /** A payment keeps its row, and one that is already paid gets none later. */
  lemma PaidRowsAreSettled(plans: seq<Plan>, s: State, e: Event, id: string)
    requires Inv(s) && id in s.payments && s.payments[id].status == Succeeded
    ensures HasRow(Next(plans, s, e), id) <==> HasRow(s, id)
  {
    var s' := Next(plans, s, e);
    NextKeepsInv(plans, s, e);
    if HasRow(s, id) {
      var i :| 0 <= i < |s.subs| && s.subs[i].origin == id;
      assert s'.subs[i].origin == id;
    }
  }

  /** Over whole runs: a payment that ends up succeeded was paid at one step of the run, and it has a row if
      and only if the calls of that step that decide it worked.  Nothing before or after matters. */
  lemma {:induction false} ActivatedIffPayingStepWorked(plans: seq<Plan>, s: State, es: seq<Event>, id: string)
    returns (k: nat)
    requires Inv(s) && KeysSound(plans, s) && PlansSound(plans)
    requires !(id in s.payments && s.payments[id].status == Succeeded)
    requires var s' := Run(plans, s, es); id in s'.payments && s'.payments[id].status == Succeeded
    ensures k < |es| && Pays(plans, Run(plans, s, es[..k]), es[k], id) && (es[k].WebhookEv? || es[k].PollEv?)
    ensures HasRow(Run(plans, s, es), id) <==> RowIsInserted(es[k].pf)
    decreases |es|
  {
    var before, e := es[..|es| - 1], es[|es| - 1];
    var s1 := Run(plans, s, before);
    RunKeepsInv(plans, s, before);
    RunKeepsKeys(plans, s, before);
    if id in s1.payments && s1.payments[id].status == Succeeded {
      k := ActivatedIffPayingStepWorked(plans, s, before, id);
      assert before[..k] == es[..k];
      PaidRowsAreSettled(plans, s1, e, id);
    } else {
      k := |es| - 1;
      PayingActivatesExactly(plans, s1, e, id);
    }
  }

  lemma {:induction false} RunKeepsKeys(plans: seq<Plan>, s: State, es: seq<Event>)
    requires KeysSound(plans, s) && Inv(s)
    ensures KeysSound(plans, Run(plans, s, es))
    decreases |es|
  {
    if es != [] {
      var before := es[..|es| - 1];
      RunKeepsKeys(plans, s, before);
      RunKeepsInv(plans, s, before);
      NextKeepsKeys(plans, Run(plans, s, before), es[|es| - 1]);
    }
  }

  lemma NextKeepsActivated(plans: seq<Plan>, s: State, e: Event, id: string)
    requires Inv(s) && KeysSound(plans, s) && PlansSound(plans) && ActivatedIffSucceeded(s)
    requires Pays(plans, s, e, id) ==> (e.WebhookEv? || e.PollEv?) && RowIsInserted(e.pf)
    requires id in Next(plans, s, e).payments
    ensures Next(plans, s, e).payments[id].status == Succeeded <==> HasRow(Next(plans, s, e), id)
  {
    NextKeepsInv(plans, s, e);
    if Pays(plans, s, e, id) {
      PayingActivatesExactly(plans, s, e, id);
    } else if id in s.payments && s.payments[id].status == Succeeded {
      PaidRowsAreSettled(plans, s, e, id);
    }
  }

  /** Every step of the run that pays some payment also inserts its row. */
  ghost predicate PayingStepsWork(plans: seq<Plan>, s: State, es: seq<Event>) {
    forall k, id :: 0 <= k < |es| && Pays(plans, Run(plans, s, es[..k]), es[k], id) ==>
      (es[k].WebhookEv? || es[k].PollEv?) && RowIsInserted(es[k].pf)
  }

  /** Main result: after a run, payments are stored as succeeded exactly when they have their row, and never
      two, if and only if in every paying step of the run the deciding calls worked. */
  lemma SucceededIffActivatedOnce(plans: seq<Plan>, s: State, es: seq<Event>)
    requires Inv(s) && KeysSound(plans, s) && PlansSound(plans) && ActivatedIffSucceeded(s)
    ensures RowsSound(Run(plans, s, es))
    ensures ActivatedIffSucceeded(Run(plans, s, es)) <==> PayingStepsWork(plans, s, es)
  {
    RunKeepsInv(plans, s, es);
    if PayingStepsWork(plans, s, es) {
      WorkingRunActivates(plans, s, es);
    } else {
      var k, id :| 0 <= k < |es| && Pays(plans, Run(plans, s, es[..k]), es[k], id)
                   && !((es[k].WebhookEv? || es[k].PollEv?) && RowIsInserted(es[k].pf));
      FailingRunMisses(plans, s, es, k, id);
    }
  }

  lemma {:induction false} WorkingRunActivates(plans: seq<Plan>, s: State, es: seq<Event>)
    requires Inv(s) && KeysSound(plans, s) && PlansSound(plans) && ActivatedIffSucceeded(s)
    requires PayingStepsWork(plans, s, es)
    ensures ActivatedIffSucceeded(Run(plans, s, es))
    decreases |es|
  {
    if es != [] {
      var before, e := es[..|es| - 1], es[|es| - 1];
      forall k, id | 0 <= k < |before| && Pays(plans, Run(plans, s, before[..k]), before[k], id)
        ensures (before[k].WebhookEv? || before[k].PollEv?) && RowIsInserted(before[k].pf)
      {
        assert before[..k] == es[..k] && before[k] == es[k];
      }
      WorkingRunActivates(plans, s, before);
      RunKeepsInv(plans, s, before);
      RunKeepsKeys(plans, s, before);
      var s1 := Run(plans, s, before);
      forall id | id in Next(plans, s1, e).payments
        ensures Next(plans, s1, e).payments[id].status == Succeeded <==> HasRow(Next(plans, s1, e), id)
      {
        NextKeepsActivated(plans, s1, e, id);
      }
    }
  }

  /** One paying step whose deciding calls did not all work leaves its payment without a row for good. */
  lemma FailingRunMisses(plans: seq<Plan>, s: State, es: seq<Event>, k: nat, id: string)
    requires Inv(s) && KeysSound(plans, s) && PlansSound(plans)
    requires k < |es| && Pays(plans, Run(plans, s, es[..k]), es[k], id)
    requires !((es[k].WebhookEv? || es[k].PollEv?) && RowIsInserted(es[k].pf))
    ensures var s' := Run(plans, s, es); id in s'.payments && s'.payments[id].status == Succeeded && !HasRow(s', id)
  {
    var s1 := Run(plans, s, es[..k]);
    RunKeepsInv(plans, s, es[..k]);
    RunKeepsKeys(plans, s, es[..k]);
    PayingActivatesExactly(plans, s1, es[k], id);
    NextKeepsInv(plans, s1, es[k]);
    var paid := Next(plans, s1, es[k]);
    FinalIsForever(plans, paid, es[k + 1..], id);
    MissedActivationIsNeverMadeUp(plans, paid, es[k + 1..], id);
    RunFrom(plans, s, es, k);
  }

  lemma RunFrom(plans: seq<Plan>, s: State, es: seq<Event>, k: nat)
    requires k < |es|
    ensures Run(plans, s, es) == Run(plans, Next(plans, Run(plans, s, es[..k]), es[k]), es[k + 1..])
  {
    assert es[..k + 1][..k] == es[..k];
    assert es[..k + 1] + es[k + 1..] == es;
    RunConcat(plans, s, es[..k + 1], es[k + 1..]);
  }

  lemma {:induction false} RunConcat(plans: seq<Plan>, s: State, es: seq<Event>, more: seq<Event>)
    ensures Run(plans, s, es + more) == Run(plans, Run(plans, s, es), more)
    decreases |more|
  {
    if more == [] {
      assert es + more == es;
    } else {
      RunConcat(plans, s, es, more[..|more| - 1]);
      assert (es + more)[..|es + more| - 1] == es + more[..|more| - 1];
    }
  }

  /** The other side of it: a payment that was marked paid but not activated stays so for good.  No
      webhook and no poll makes up for a late call that failed. */
  lemma {:induction false} MissedActivationIsNeverMadeUp(plans: seq<Plan>, s: State, es: seq<Event>, id: string)
    requires Inv(s) && id in s.payments && s.payments[id].status == Succeeded && !HasRow(s, id)
    ensures !HasRow(Run(plans, s, es), id)
    decreases |es|
  {
    if es != [] {
      var before, e := es[..|es| - 1], es[|es| - 1];
      MissedActivationIsNeverMadeUp(plans, s, before, id);
      FinalIsForever(plans, s, before, id);
      RunKeepsInv(plans, s, before);
      NextKeepsInv(plans, Run(plans, s, before), e);
    }
  }

  /** Such a payment does arise: the provider reports success, MarkPaid works, the insert fails. */
  lemma ActivationCanBeMissed(plans: seq<Plan>, s: State, yk: string, id: string)
    requires Inv(s) && yk != "" && IsPaymentOf(s, yk, id) && Open(s.payments[id].status)
    requires yk in s.provider && s.provider[yk] == Succeeded
    ensures var s' := Next(plans, s, WebhookEv(yk, id, Succeeded, NO_PAY_FAULTS.(upsert := Fails)));
            s'.payments[id].status == Succeeded && !HasRow(s', id)
  {}

  // ---------------------------------------------------------------- the claimed status

  function EraseClaim(e: Event): Event {
    if e.WebhookEv? then e.(claimed := Pending) else e
  }

  function EraseClaims(es: seq<Event>): (r: seq<Event>)
    ensures |r| == |es|
  {
    if es == [] then [] else EraseClaims(es[..|es| - 1]) + [EraseClaim(es[|es| - 1])]
  }

  /** What webhooks claim has no influence on any run. */
  lemma {:induction false} ClaimsAreIgnored(plans: seq<Plan>, s: State, es: seq<Event>, other: seq<Event>)
    requires EraseClaims(es) == EraseClaims(other)
    ensures Run(plans, s, es) == Run(plans, s, other)
    decreases |es|
  {
    assert |es| == |other|;
    if es != [] {
      var a, b := EraseClaims(es), EraseClaims(other);
      assert a[|es| - 1] == b[|es| - 1] && a[..|es| - 1] == b[..|es| - 1];
      ClaimsAreIgnored(plans, s, es[..|es| - 1], other[..|es| - 1]);
      var e, o := es[|es| - 1], other[|es| - 1];
      assert EraseClaim(e) == EraseClaim(o);
      assert e.WebhookEv? ==> e == o.(claimed := e.claimed);
    }
  }
}
