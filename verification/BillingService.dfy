/** The handlers as they run: each changes the shared rows call by call and returns at the first error.
    Each ends in the state, and with the answer, of its function in module Billing. */
module BillingService {
  import opened Wrappers
  import opened Billing

  class Backend {
    const plans: seq<Plan>
    var now: int
    var provider: map<string, Status>
    var payments: map<string, Payment>
    var subs: seq<Subscription>
    var users: map<int, User>
    var sessions: map<string, Session>

    function Rows(): State
      reads this
    {
      State(now, provider, payments, subs, users, sessions)
    }

    constructor (plans: seq<Plan>, s: State)
      ensures this.plans == plans && Rows() == s
    {
      this.plans := plans;
      now, provider, payments, subs, users, sessions := s.now, s.provider, s.payments, s.subs, s.users, s.sessions;
    }

    // ---------------------------------------------------------------- repositories

    /** MarkPaid and UpdateStatus: one row, and the table's check on statuses. */
    method StoreStatus(id: string, st: Status, c: Call) returns (ok: bool)
      requires id in payments
      modifies this`payments
      ensures ok == (c.Fine? && !st.Foreign?)
      ensures Rows() == if c.Fails? || st.Foreign? then old(Rows()) else Store(old(Rows()), id, st)
    {
      if c.Fails? || st.Foreign? {
        return false;
      }
      payments := payments[id := payments[id].(status := st)];
      return c.Fine?;
    }

    method UpsertActive(u: int, plan: int, expiresAt: int, origin: string, c: Call) returns (ok: bool)
      modifies this`subs
      ensures ok == (c.Fine? && u in users && expiresAt > now)
      ensures subs == if c.Fails? || u !in users || expiresAt <= now then old(subs)
                      else old(subs) + [Subscription(u, plan, expiresAt, origin)]
    {
      if c.Fails? || u !in users || expiresAt <= now {
        return false;
      }
      subs := subs + [Subscription(u, plan, expiresAt, origin)];
      return c.Fine?;
    }

    method UpdatePlan(u: int, plan: string, c: Call) returns (ok: bool)
      modifies this`users
      ensures ok == (c.Fine? && u in users)
      ensures users == if c.Fails? then old(users) else SetPlan(old(users), u, plan)
    {
      if c.Fails? || u !in users {
        return false;
      }
      users := users[u := users[u].(plan := plan, isAdmin := plan == ADMIN)];
      return c.Fine?;
    }

    /** findPlanByID: the first row of the list with this id. */
    method FindPlanByID(id: int) returns (plan: Option<Plan>)
      ensures plan == FindPlan(plans, id)
    {
      for i := 0 to |plans|
        invariant FindPlan(plans, id) == FindPlan(plans[i..], id)
      {
        if plans[i].id == id {
          return Some(plans[i]);
        }
      }
      return None;
    }

    // ---------------------------------------------------------------- payment handlers

    method ActivateSubscription(id: string, f: PayFaults) returns (ok: bool)
      requires id in payments
      modifies this
      ensures (Rows(), ok) == Activate(plans, old(Rows()), id, f)
    {
      var p := payments[id];
      if f.list {
        return false;
      }
      var plan := FindPlanByID(p.plan);
      if plan.None? {
        return false;
      }
      var expiresAt := now + DaysAsDuration(plan.value.days);
      var inserted := UpsertActive(p.user, plan.value.id, expiresAt, id, f.upsert);
      if !inserted {
        return false;
      }
      // the remote SetUserPlanInternal
      if f.setPlan.Fails? || plan.value.name !in VALID_PLANS {
        return false;
      }
      ok := UpdatePlan(p.user, plan.value.name, f.setPlan);
    }

    method Apply(id: string, st: Status, f: PayFaults) returns (ok: bool)
      requires id in payments
      modifies this
      ensures (Rows(), ok) == ApplyStatus(plans, old(Rows()), id, st, f)
    {
      ok := StoreStatus(id, st, f.store);
      if ok && st.Succeeded? {
        ok := ActivateSubscription(id, f);
      }
    }

    method HandleWebhook(yk: string, id: string, claimed: Status, f: PayFaults) returns (ok: bool)
      modifies this
      ensures (Rows(), ok) == Webhook(plans, old(Rows()), yk, id, claimed, f)
    {
      if yk == "" || f.read || id !in payments || payments[id].yk != yk {
        return false;
      }
      if f.ask || yk !in provider {
        return false;
      }
      if provider[yk] == payments[id].status && payments[id].status == Succeeded {
        return true;
      }
      ok := Apply(id, provider[yk], f);
    }

    /** The payment handed back on success shows the status that is stored. */
    method GetStatus(id: string, u: int, f: PayFaults) returns (ok: bool, answer: Option<Payment>)
      modifies this
      ensures (Rows(), ok) == Poll(plans, old(Rows()), id, u, f)
      ensures ok <==> answer.Some?
      ensures ok ==> id in payments && answer.value == payments[id] && answer.value.user == u
    {
      if f.read || id !in payments || payments[id].user != u {
        return false, None;
      }
      var p := payments[id];
      if !Open(p.status) || p.yk == "" || f.ask || p.yk !in provider {
        return true, Some(p);
      }
      if provider[p.yk] != p.status {
        var applied := Apply(id, provider[p.yk], f);
        if !applied {
          return false, None;
        }
        p := p.(status := provider[p.yk]);
      }
      return true, Some(p);
    }

    // ---------------------------------------------------------------- auth handlers

    method DowngradeIfExpired(u: int, plan: string, f: AuthFaults)
      modifies this`users
      ensures Rows() == Downgrade(old(Rows()), u, plan, f)
    {
      if plan != PRO && plan != MAX {
        return;
      }
      if f.view {
        return;
      }
      var latest := LatestExpiry(subs, u);
      if latest.None? || latest.value < now {
        var _ := UpdatePlan(u, FREE, f.downgrade);
      }
    }

    method TrackEvent(u: int, eventType: string, metadataOk: bool, f: AuthFaults) returns (ok: bool)
      modifies this`users
      ensures (Rows(), ok) == Track(old(Rows()), u, eventType, metadataOk, f)
    {
      if !metadataOk || f.create {
        return false;
      }
      if eventType == "heartbeat" {
        if Happens(f.increment) && u in users {
          users := users[u := users[u].(totalTime := users[u].totalTime + BEAT)];
        }
        if !f.load && u in users {
          var user := users[u];
          if user.plan == FREE && user.totalTime + 60 >= FREE_TIME_LIMIT {
            var _ := UpdatePlan(u, FREEZE, f.freeze);
          }
          DowngradeIfExpired(u, user.plan, f);
        }
      }
      return true;
    }

    method ValidateSession(sid: string, f: AuthFaults) returns (ok: bool)
      modifies this`users, this`sessions
      ensures (Rows(), ok) == CheckSession(old(Rows()), sid, f)
    {
      if f.create || sid !in sessions {
        return false;
      }
      if now > sessions[sid].expiresAt {
        sessions := sessions - {sid};
        return false;
      }
      var u := sessions[sid].user;
      if f.load || u !in users {
        return false;
      }
      DowngradeIfExpired(u, users[u].plan, f);
      return true;
    }

    /** Only an administrator, and only a known plan; nobody but the target is concerned, and the target is an
        administrator afterwards exactly if that is the plan. */
    method AdminSetsPlan(admin: int, target: int, plan: string, f: AuthFaults) returns (ok: bool)
      modifies this`users
      ensures (Rows(), ok) == AdminSetPlan(old(Rows()), admin, target, plan, f)
      ensures !(admin in old(users) && old(users)[admin].isAdmin) || plan !in VALID_PLANS ==> !ok && users == old(users)
      ensures ok ==> target in users && users[target].plan == plan && (users[target].isAdmin <==> plan == ADMIN)
      ensures users.Keys == old(users).Keys
      ensures forall v :: v in users && v != target ==> users[v] == old(users)[v]
    {
      if f.load || admin !in users || !users[admin].isAdmin {
        return false;
      }
      if plan !in VALID_PLANS {
        return false;
      }
      ok := UpdatePlan(target, plan, f.downgrade);
    }
  }
}
