/** Payments, subscriptions and user plans: two services over shared rows.  Payment side:
    internal/payment/usecase/payment.go.  Auth side: internal/auth/usecase/event.go, auth.go, admin.go.
    Every handler is one atomic step; every repository or remote call in it can fail. */
module Billing {
  import opened Wrappers

  // ---------------------------------------------------------------- rows

  // The provider may report a status of its own; the payments table admits only the four others.
  datatype Status = Pending | WaitingForCapture | Succeeded | Canceled | Foreign(name: string)

  predicate Final(st: Status) { st.Succeeded? || st.Canceled? }
  predicate Open(st: Status) { st.Pending? || st.WaitingForCapture? }

  const FREE := "free"
  const FREEZE := "freeze"
  const PRO := "pro"
  const MAX := "max"
  const ADMIN := "admin"
  const VALID_PLANS := {FREE, FREEZE, PRO, MAX, ADMIN}

  const FREE_TIME_LIMIT := 3 * 3600
  const BEAT := 60

  datatype Plan = Plan(id: int, name: string, days: int)
  datatype Payment = Payment(user: int, plan: int, yk: string, status: Status)
  // `origin` is bookkeeping of this model: the payment whose activation inserted the row.
  datatype Subscription = Subscription(user: int, plan: int, expiresAt: int, origin: string)
  datatype User = User(plan: string, isAdmin: bool, totalTime: int)
  datatype Session = Session(user: int, expiresAt: int)

  datatype State = State(
    now: int,
    provider: map<string, Status>,     // what the payment provider would answer
    payments: map<string, Payment>,
    subs: seq<Subscription>,           // user_subscriptions: rows are only ever inserted
    users: map<int, User>,
    sessions: map<string, Session>)

  // ---------------------------------------------------------------- durations

  const DAY := 24 * 3600 * 1_000_000_000
  const TWO_63 := 0x8000_0000_0000_0000

  /** int64 multiplication wraps around. */
  function Wrap64(n: int): int {
    (n + TWO_63) % (2 * TWO_63) - TWO_63
  }

  /** time.Duration(days) * 24 * time.Hour. */
  function DaysAsDuration(days: int): int {
    Wrap64(days * DAY)
  }

  /** The duration of a plan is what its days say exactly up to 106751 days, the reach of an int64. */
  lemma DurationExact(days: int)
    requires -0x8000_0000 <= days < 0x8000_0000
    ensures DaysAsDuration(days) == days * DAY <==> -106751 <= days <= 106751
  {
    var n := days * DAY;
    if -106751 <= days <= 106751 {
      assert -TWO_63 <= n < TWO_63;
    } else {
      assert n < -TWO_63 || TWO_63 <= n;
    }
  }

  // ---------------------------------------------------------------- failure injection

  /** A write takes effect and says so, fails, or takes effect while the caller sees an error. */
  datatype Call = Fine | Fails | Lost

  datatype PayFaults = PayFaults(read: bool, ask: bool, store: Call, list: bool, upsert: Call, setPlan: Call)
  datatype AuthFaults = AuthFaults(create: bool, increment: Call, load: bool, freeze: Call, view: bool, downgrade: Call)

  const NO_PAY_FAULTS := PayFaults(false, false, Fine, false, Fine, Fine)
  const NO_AUTH_FAULTS := AuthFaults(false, Fine, false, Fine, false, Fine)

  predicate Happens(c: Call) { !c.Fails? }

  // ---------------------------------------------------------------- repositories

  /** UPDATE users SET plan = $1, is_admin = (plan is admin). */
  function SetPlan(users: map<int, User>, u: int, plan: string): map<int, User> {
    if u in users then users[u := users[u].(plan := plan, isAdmin := plan == ADMIN)] else users
  }

  /** The row a subscription view returns: the greatest expiry among the user's rows. */
  function LatestExpiry(subs: seq<Subscription>, u: int): Option<int> {
    if subs == [] then None
    else
      var sub := subs[|subs| - 1];
      var earlier := LatestExpiry(subs[..|subs| - 1], u);
      if sub.user != u then earlier
      else if earlier.Some? && earlier.value >= sub.expiresAt then earlier
      else Some(sub.expiresAt)
  }

  function FindPlan(plans: seq<Plan>, id: int): Option<Plan> {
    if plans == [] then None
    else if plans[0].id == id then Some(plans[0])
    else FindPlan(plans[1..], id)
  }

  function PlanByName(plans: seq<Plan>, name: string): Option<Plan> {
    if plans == [] then None
    else if plans[0].name == name then Some(plans[0])
    else PlanByName(plans[1..], name)
  }

  /** The payment with this provider id; provider ids are unique among payments. */
  ghost predicate IsPaymentOf(s: State, yk: string, id: string) {
    id in s.payments && s.payments[id].yk == yk
  }

  // ---------------------------------------------------------------- the payment service

  /** activateSubscription: find the plan, insert the row, then tell the auth service. */
  function Activate(plans: seq<Plan>, s: State, id: string, f: PayFaults): (State, bool)
    requires id in s.payments
  {
    var p := s.payments[id];
    var plan := FindPlan(plans, p.plan);
    if f.list || plan.None? then (s, false)
    else
      var expiresAt := s.now + DaysAsDuration(plan.value.days);
      // the table demands an existing user and an expiry after the start
      if f.upsert.Fails? || p.user !in s.users || expiresAt <= s.now then (s, false)
      else
        var s1 := s.(subs := s.subs + [Subscription(p.user, plan.value.id, expiresAt, id)]);
        if f.upsert.Lost? || f.setPlan.Fails? || plan.value.name !in VALID_PLANS then (s1, false)
        else (s1.(users := SetPlan(s1.users, p.user, plan.value.name)), f.setPlan.Fine?)
  }

  function Store(s: State, id: string, st: Status): State
    requires id in s.payments
  {
    s.(payments := s.payments[id := s.payments[id].(status := st)])
  }

  function ApplyStatus(plans: seq<Plan>, s: State, id: string, st: Status, f: PayFaults): (State, bool)
    requires id in s.payments
  {
    if f.store.Fails? || st.Foreign? then (s, false)
    else if f.store.Lost? then (Store(s, id, st), false)
    else if st.Succeeded? then Activate(plans, Store(s, id, st), id, f)
    else (Store(s, id, st), true)
  }

  /** HandleWebhook.  The status the caller claims is logged and otherwise ignored. */
  function Webhook(plans: seq<Plan>, s: State, yk: string, id: string, claimed: Status, f: PayFaults): (State, bool) {
    if yk == "" || f.read || id !in s.payments || s.payments[id].yk != yk then (s, false)
    else if f.ask || yk !in s.provider then (s, false)
    else
      var st := s.provider[yk];
      if st == s.payments[id].status && st.Succeeded? then (s, true)
      else ApplyStatus(plans, s, id, st, f)
  }

  /** GetStatus: only an open payment is refreshed, and an unreachable provider is not an error. */
  function Poll(plans: seq<Plan>, s: State, id: string, u: int, f: PayFaults): (State, bool) {
    if f.read || id !in s.payments || s.payments[id].user != u then (s, false)
    else
      var p := s.payments[id];
      if !Open(p.status) || p.yk == "" || f.ask || p.yk !in s.provider then (s, true)
      else if s.provider[p.yk] == p.status then (s, true)
      else ApplyStatus(plans, s, id, s.provider[p.yk], f)
  }

  /** CreateSubscriptionPayment; `id` and `yk` are the identifiers the database and the provider pick. */
  function Create(plans: seq<Plan>, s: State, u: int, planName: string, id: string, yk: string, f: PayFaults): (State, bool) {
    if (planName != PRO && planName != MAX) || f.read || PlanByName(plans, planName).None? then (s, false)
    else if f.ask || yk in s.provider then (s, false)
    else
      var s1 := s.(provider := s.provider[yk := Pending]);
      if f.store.Fails? || id in s.payments || u !in s.users
         || (exists other :: other in s.payments && yk != "" && s.payments[other].yk == yk)
      then (s1, false)
      else (s1.(payments := s1.payments[id := Payment(u, PlanByName(plans, planName).value.id, yk, Pending)]), f.store.Fine?)
  }

  // ---------------------------------------------------------------- the auth service

  /** downgradeIfExpired, for a user whose plan was read as `plan`. */
  function Downgrade(s: State, u: int, plan: string, f: AuthFaults): State {
    if (plan != PRO && plan != MAX) || f.view then s
    else
      var latest := LatestExpiry(s.subs, u);
      if (latest.None? || latest.value < s.now) && Happens(f.downgrade)
      then s.(users := SetPlan(s.users, u, FREE)) else s
  }

  function AddTime(users: map<int, User>, u: int, seconds: int): map<int, User> {
    if u in users then users[u := users[u].(totalTime := users[u].totalTime + seconds)] else users
  }

  /** Track: a heartbeat meters time, may freeze a free user, and may end a subscription. */
  function Track(s: State, u: int, eventType: string, metadataOk: bool, f: AuthFaults): (State, bool) {
    if !metadataOk || f.create then (s, false)
    else if eventType != "heartbeat" then (s, true)
    else
      var s1 := if Happens(f.increment) then s.(users := AddTime(s.users, u, BEAT)) else s;
      if f.load || u !in s1.users then (s1, true)
      else
        var user := s1.users[u];
        var s2 := if user.plan == FREE && user.totalTime + 60 >= FREE_TIME_LIMIT && Happens(f.freeze)
                  then s1.(users := SetPlan(s1.users, u, FREEZE)) else s1;
        (Downgrade(s2, u, user.plan, f), true)
  }

  /** ValidateSession: an expired session is deleted, a live one refreshes the plan. */
  function CheckSession(s: State, sid: string, f: AuthFaults): (State, bool) {
    if f.create || sid !in s.sessions then (s, false)
    else if s.now > s.sessions[sid].expiresAt then (s.(sessions := s.sessions - {sid}), false)
    else
      var u := s.sessions[sid].user;
      if f.load || u !in s.users then (s, false)
      else (Downgrade(s, u, s.users[u].plan, f), true)
  }

  /** AdminSetPlan. */
  function AdminSetPlan(s: State, admin: int, target: int, plan: string, f: AuthFaults): (State, bool) {
    if f.load || admin !in s.users || !s.users[admin].isAdmin || plan !in VALID_PLANS then (s, false)
    else if target !in s.users || f.downgrade.Fails? then (s, false)
    else (s.(users := SetPlan(s.users, target, plan)), f.downgrade.Fine?)
  }

  // ---------------------------------------------------------------- runs

  datatype Event =
    | CreateEv(u: int, planName: string, id: string, yk: string, pf: PayFaults)
    | WebhookEv(yk: string, id: string, claimed: Status, pf: PayFaults)
    | PollEv(id: string, u: int, pf: PayFaults)
    | TrackEv(u: int, eventType: string, metadataOk: bool, af: AuthFaults)
    | SessionEv(sid: string, af: AuthFaults)
    | AdminEv(admin: int, u: int, plan: string, af: AuthFaults)
    | LoginEv(sid: string, u: int, expiresAt: int)
    | RegisterEv(u: int)
    | ProviderEv(yk: string, status: Status)
    | ClockEv(now: int)

  /** Provider statuses `succeeded` and `canceled` are permanent; the clock never goes back. */
  function Next(plans: seq<Plan>, s: State, e: Event): State {
    match e
    case CreateEv(u, planName, id, yk, f) => Create(plans, s, u, planName, id, yk, f).0
    case WebhookEv(yk, id, claimed, f) => Webhook(plans, s, yk, id, claimed, f).0
    case PollEv(id, u, f) => Poll(plans, s, id, u, f).0
    case TrackEv(u, eventType, metadataOk, f) => Track(s, u, eventType, metadataOk, f).0
    case SessionEv(sid, f) => CheckSession(s, sid, f).0
    case AdminEv(admin, u, plan, f) => AdminSetPlan(s, admin, u, plan, f).0
    case LoginEv(sid, u, expiresAt) =>
      if sid in s.sessions || u !in s.users then s else s.(sessions := s.sessions[sid := Session(u, expiresAt)])
    case RegisterEv(u) => if u in s.users then s else s.(users := s.users[u := User(FREE, false, 0)])
    case ProviderEv(yk, status) =>
      if yk in s.provider && !Final(s.provider[yk]) then s.(provider := s.provider[yk := status]) else s
    case ClockEv(now) => if now >= s.now then s.(now := now) else s
  }

  function Run(plans: seq<Plan>, s: State, es: seq<Event>): State {
    if es == [] then s else Next(plans, Run(plans, s, es[..|es| - 1]), es[|es| - 1])
  }

  lemma RunSnoc(plans: seq<Plan>, s: State, es: seq<Event>, e: Event)
    ensures Run(plans, s, es + [e]) == Next(plans, Run(plans, s, es), e)
  {
    assert (es + [e])[..|es|] == es;
  }
}
