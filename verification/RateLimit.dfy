/** The gateway's per-address rate limiter (internal/middleware/ratelimit.go).

    Three levels.  `Limiter` is the code: a map of visitor objects updated in place.
    `Serve`, `SweepTable` and `Run` are the same steps on values.  `SpecAdmits` is what the limiter
    means: a decision that looks at the full history of admissions, which the code never stores. */
module RateLimit {

  // Instants and durations are nanoseconds; durations are Go's int64.
  const MAX_DURATION := 0x7FFF_FFFF_FFFF_FFFF
  const TWO_64 := 0x1_0000_0000_0000_0000
  // The zero time.Time (year 1) on the Unix scale.
  const ZERO_TIME := -62135596800 * 1_000_000_000

  /** time.Time.Sub saturates at the ends of the int64 range. */
  function Sub(a: int, b: int): int {
    if a - b > MAX_DURATION then MAX_DURATION
    else if a - b < -MAX_DURATION - 1 then -MAX_DURATION - 1
    else a - b
  }

  /** int64 arithmetic wraps around; a doubled int64 wraps at most once. */
  function Doubled(d: int): int {
    if 2 * d > MAX_DURATION then 2 * d - TWO_64 else 2 * d
  }

  datatype Config = Config(maxRequests: int, window: int) {
    /** time.NewTicker panics on a window that is not positive. */
    predicate Valid() { 0 < window <= MAX_DURATION }

    /** `window*2` fits in an int64. */
    predicate NoOverflow() { 2 * window <= MAX_DURATION }

    function Cap(): nat { if maxRequests > 0 then maxRequests else 0 }
  }

  datatype Visitor = Visitor(tokens: int, lastSeen: int)
  type Table = map<string, Visitor>

  datatype Event = Request(ip: string, at: int) | Sweep(at: int)

  // ---------------------------------------------------------------- the steps of the code, on values

  /** One request: the table afterwards and whether the request passes. */
  function Serve(c: Config, t: Table, ip: string, now: int): (Table, bool) {
    var v := if ip in t then t[ip] else Visitor(c.maxRequests, ZERO_TIME);
    var tokens := if Sub(now, v.lastSeen) >= c.window then c.maxRequests else v.tokens;
    if tokens <= 0 then (t[ip := Visitor(tokens, v.lastSeen)], false)
    else (t[ip := Visitor(tokens - 1, now)], true)
  }

  predicate Stale(c: Config, v: Visitor, now: int) {
    Sub(now, v.lastSeen) > Doubled(c.window)
  }

  function SweepTable(c: Config, t: Table, now: int): Table {
    map ip | ip in t && !Stale(c, t[ip], now) :: t[ip]
  }

  function Apply(c: Config, t: Table, e: Event): Table {
    match e
    case Request(ip, at) => Serve(c, t, ip, at).0
    case Sweep(at) => SweepTable(c, t, at)
  }

  function Run(c: Config, log: seq<Event>): Table {
    if log == [] then map[] else Apply(c, Run(c, log[..|log| - 1]), log[|log| - 1])
  }

  /** The instants at which a run of the code let `ip` through. */
  function Admitted(c: Config, log: seq<Event>, ip: string): seq<int> {
    if log == [] then []
    else
      var before := log[..|log| - 1];
      var e := log[|log| - 1];
      if e.Request? && e.ip == ip && Serve(c, Run(c, before), ip, e.at).1
      then Admitted(c, before, ip) + [e.at]
      else Admitted(c, before, ip)
  }

  /** Both clock reads happen under the lock, so the instants of a log never go back. */
  ghost predicate Monotone(log: seq<Event>) {
    && (forall i :: 0 <= i < |log| ==> 0 <= log[i].at)
    && (forall i, j :: 0 <= i < j < |log| ==> log[i].at <= log[j].at)
  }

  // ---------------------------------------------------------------- the meaning: full histories

  /** Length of the longest suffix of `h` whose neighbours are less than `window` apart. */
  function Burst(window: int, h: seq<int>): (b: nat)
    ensures b <= |h|
  {
    var n := |h|;
    if n == 0 then 0
    else if n == 1 || h[n - 1] - h[n - 2] >= window then 1
    else 1 + Burst(window, h[..n - 1])
  }

  predicate SpecAdmits(c: Config, h: seq<int>, now: int) {
    c.maxRequests > 0
    && (h == [] || now - h[|h| - 1] >= c.window || Burst(c.window, h) < c.maxRequests)
  }

  /** The admissions the specification grants to one address, from its own request times alone. */
  function SpecAdmitted(c: Config, requests: seq<int>): (h: seq<int>)
    ensures |h| <= |requests|
  {
    if requests == [] then []
    else
      var h := SpecAdmitted(c, requests[..|requests| - 1]);
      var now := requests[|requests| - 1];
      if SpecAdmits(c, h, now) then h + [now] else h
  }

  /** The request times of one address: sweeps and other addresses are gone. */
  function RequestsOf(log: seq<Event>, ip: string): seq<int> {
    if log == [] then []
    else
      var e := log[|log| - 1];
      var r := RequestsOf(log[..|log| - 1], ip);
      if e.Request? && e.ip == ip then r + [e.at] else r
  }

  // ---------------------------------------------------------------- the code refines the meaning

  /** What one table entry remembers of the history it stands for. */
  ghost predicate Remembers(c: Config, t: Table, ip: string, h: seq<int>, now: int) {
    && (forall i :: 0 <= i < |h| ==> 0 <= h[i] <= now)
    && (h != [] ==> c.maxRequests > 0)
    && (ip in t ==>
          && t[ip].tokens == c.maxRequests - Burst(c.window, h)
          && t[ip].lastSeen == if h == [] then ZERO_TIME else h[|h| - 1])
    && (ip !in t && h != [] ==> now - h[|h| - 1] > c.window)
  }

  lemma RequestKeepsMemory(c: Config, t: Table, ip: string, h: seq<int>, earlier: int, now: int)
    requires c.Valid() && 0 <= earlier <= now
    requires Remembers(c, t, ip, h, earlier)
    ensures Serve(c, t, ip, now).1 == SpecAdmits(c, h, now)
    ensures Remembers(c, Serve(c, t, ip, now).0, ip, if SpecAdmits(c, h, now) then h + [now] else h, now)
  {
    assert (h + [now])[..|h|] == h;
    if ip !in t && h != [] {
      assert Sub(now, ZERO_TIME) >= c.window;
    }
  }

  lemma SweepKeepsMemory(c: Config, t: Table, ip: string, h: seq<int>, earlier: int, now: int)
    requires c.Valid() && c.NoOverflow() && 0 <= earlier <= now
    requires Remembers(c, t, ip, h, earlier)
    ensures Remembers(c, SweepTable(c, t, now), ip, h, now)
  {}

  /** The last event of a monotone log comes no earlier than the rest, which is monotone too. */
  lemma MonotoneInit(log: seq<Event>)
    requires Monotone(log) && log != []
    ensures Monotone(log[..|log| - 1])
    ensures 0 <= LastInstant(log[..|log| - 1]) <= log[|log| - 1].at
  {}

  function LastInstant(log: seq<Event>): int {
    if log == [] then 0 else log[|log| - 1].at
  }

  lemma {:induction false} RunRemembers(c: Config, log: seq<Event>, ip: string)
    requires c.Valid() && c.NoOverflow() && Monotone(log)
    ensures Remembers(c, Run(c, log), ip, SpecAdmitted(c, RequestsOf(log, ip)), LastInstant(log))
    ensures Admitted(c, log, ip) == SpecAdmitted(c, RequestsOf(log, ip))
    decreases |log|
  {
    if log != [] {
      var before, e := log[..|log| - 1], log[|log| - 1];
      MonotoneInit(log);
      RunRemembers(c, before, ip);
      StepRemembers(c, Run(c, before), e, ip, RequestsOf(before, ip), LastInstant(before));
    }
  }

  /** One event, seen from one address: its own requests extend its history, all else keeps it. */
  lemma StepRemembers(c: Config, t: Table, e: Event, ip: string, r: seq<int>, earlier: int)
    requires c.Valid() && c.NoOverflow() && 0 <= earlier <= e.at
    requires Remembers(c, t, ip, SpecAdmitted(c, r), earlier)
    ensures e.Request? && e.ip == ip ==>
              && Serve(c, t, ip, e.at).1 == SpecAdmits(c, SpecAdmitted(c, r), e.at)
              && Remembers(c, Apply(c, t, e), ip, SpecAdmitted(c, r + [e.at]), e.at)
    ensures !(e.Request? && e.ip == ip) ==> Remembers(c, Apply(c, t, e), ip, SpecAdmitted(c, r), e.at)
  {
    var h := SpecAdmitted(c, r);
    match e
    case Request(other, at) =>
      if other == ip {
        RequestKeepsMemory(c, t, ip, h, earlier, at);
        assert (r + [at])[..|r|] == r;
      }
    case Sweep(at) =>
      SweepKeepsMemory(c, t, ip, h, earlier, at);
  }

  /** Main refinement.  With `window*2` in range, the code's decisions are those of the history
      specification fed with this address's own requests: sweeps and other addresses do not matter. */
  lemma RefinesHistorySpec(c: Config, log: seq<Event>, ip: string)
    requires c.Valid() && c.NoOverflow() && Monotone(log)
    ensures Admitted(c, log, ip) == SpecAdmitted(c, RequestsOf(log, ip))
    ensures ip in Run(c, log) ==>
              Run(c, log)[ip].tokens == c.maxRequests - Burst(c.window, Admitted(c, log, ip))
  {
    RunRemembers(c, log, ip);
  }

  /** The next decision, in terms of the admissions so far. */
  lemma DecisionIsSpec(c: Config, log: seq<Event>, ip: string, now: int)
    requires c.Valid() && c.NoOverflow() && Monotone(log + [Request(ip, now)])
    ensures Serve(c, Run(c, log), ip, now).1 == SpecAdmits(c, Admitted(c, log, ip), now)
  {
    var longer := log + [Request(ip, now)];
    assert longer[..|longer| - 1] == log;
    MonotoneInit(longer);
    RunRemembers(c, log, ip);
    RequestKeepsMemory(c, Run(c, log), ip, SpecAdmitted(c, RequestsOf(log, ip)), LastInstant(log), now);
  }

  /** A rejected request leaves no trace in any later decision. */
  lemma {:induction false} RejectionsAreInvisible(c: Config, before: seq<int>, rejected: int, after: seq<int>)
    requires !SpecAdmits(c, SpecAdmitted(c, before), rejected)
    ensures SpecAdmitted(c, before + [rejected] + after) == SpecAdmitted(c, before + after)
    decreases |after|
  {
    var with, without := before + [rejected] + after, before + after;
    if after == [] {
      assert with[..|before|] == before && without == before;
    } else {
      var rest := after[..|after| - 1];
      RejectionsAreInvisible(c, before, rejected, rest);
      assert with[..|with| - 1] == before + [rejected] + rest;
      assert without[..|without| - 1] == before + rest;
    }
  }

  // ---------------------------------------------------------------- the sliding-window bound

  function CountIn(h: seq<int>, lo: int, hi: int): nat {
    if h == [] then 0
    else CountIn(h[..|h| - 1], lo, hi) + (if lo <= h[|h| - 1] < hi then 1 else 0)
  }

  ghost predicate Sorted(h: seq<int>) {
    forall i, j :: 0 <= i < j < |h| ==> h[i] <= h[j]
  }

  /** Any `m + 1` consecutive admissions span at least one window. */
  ghost predicate Spaced(h: seq<int>, window: int, m: nat) {
    forall i, j :: 0 <= i <= j < |h| && j == i + m ==> h[j] - h[i] >= window
  }

  lemma {:induction false} BurstStartsAtGap(window: int, h: seq<int>)
    requires 0 < |h|
    ensures 0 < Burst(window, h)
    ensures Burst(window, h) < |h| ==>
              var first := |h| - Burst(window, h); h[first] - h[first - 1] >= window
    decreases |h|
  {
    var n := |h|;
    if n > 1 && h[n - 1] - h[n - 2] < window {
      BurstStartsAtGap(window, h[..n - 1]);
    }
  }

  /** What the specification lets build up: sorted, spaced, and no burst beyond the limit. */
  ghost predicate Paced(c: Config, h: seq<int>) {
    Sorted(h) && Burst(c.window, h) <= c.Cap() && Spaced(h, c.window, c.Cap())
  }

  lemma AdmissionKeepsPace(c: Config, h: seq<int>, now: int)
    requires c.Valid() && Paced(c, h) && SpecAdmits(c, h, now)
    requires h != [] ==> h[|h| - 1] <= now
    ensures Paced(c, h + [now])
  {
    var h' := h + [now];
    var m := c.maxRequests;
    assert h'[..|h|] == h;
    BurstStartsAtGap(c.window, h');
    if |h| >= m {
      var first := |h'| - Burst(c.window, h');
      assert h'[first] - h'[first - 1] >= c.window;
      assert h'[|h| - m] <= h'[first - 1] && h'[first] <= h'[|h|];
    }
  }

  lemma {:induction false} SpecIsPaced(c: Config, requests: seq<int>)
    requires c.Valid() && Sorted(requests)
    ensures Paced(c, SpecAdmitted(c, requests))
    ensures var h := SpecAdmitted(c, requests);
            h != [] ==> requests != [] && h[|h| - 1] <= requests[|requests| - 1]
    decreases |requests|
  {
    if requests != [] {
      var rest, now := requests[..|requests| - 1], requests[|requests| - 1];
      SpecIsPaced(c, rest);
      var h := SpecAdmitted(c, rest);
      assert h != [] ==> h[|h| - 1] <= now;
      if SpecAdmits(c, h, now) { AdmissionKeepsPace(c, h, now); }
    }
  }

  lemma {:induction false} CountSplit(h: seq<int>, lo: int, mid: int, hi: int)
    requires lo <= mid <= hi
    ensures CountIn(h, lo, hi) == CountIn(h, lo, mid) + CountIn(h, mid, hi)
    decreases |h|
  {
    if h != [] { CountSplit(h[..|h| - 1], lo, mid, hi); }
  }

  lemma {:induction false} CountSkips(h: seq<int>, lo: int, hi: int, early: nat)
    requires early <= |h| && forall i :: 0 <= i < early ==> h[i] < lo
    ensures CountIn(h, lo, hi) <= |h| - early
    decreases |h|
  {
    if h != [] {
      CountSkips(h[..|h| - 1], lo, hi, if early == |h| then early - 1 else early);
    }
  }

  lemma {:induction false} OneWindow(h: seq<int>, lo: int, window: int, m: nat)
    requires Sorted(h) && Spaced(h, window, m)
    ensures CountIn(h, lo, lo + window) <= m
    decreases |h|
  {
    if h != [] {
      var n := |h|;
      if lo <= h[n - 1] < lo + window && m < n {
        assert h[n - 1] - h[n - 1 - m] >= window;
        CountSkips(h, lo, lo + window, n - m);
      } else if m < n {
        OneWindow(h[..n - 1], lo, window, m);
      } else {
        CountSkips(h, lo, lo + window, 0);
      }
    }
  }

  /** At most `k * maxRequests` of the instants of `h` lie in `[from, from + k * window)`. */
  ghost predicate RateHolds(c: Config, h: seq<int>, from: int, k: nat) {
    CountIn(h, from, from + k * c.window) <= k * c.Cap()
  }

  lemma {:induction false} ManyWindows(c: Config, h: seq<int>, from: int, k: nat)
    requires c.Valid() && Paced(c, h)
    ensures RateHolds(c, h, from, k)
    decreases k
  {
    if k == 0 {
      NothingInEmpty(h, from);
    } else {
      var mid := from + (k - 1) * c.window;
      NonNegativeProduct(k - 1, c.window);
      ManyWindows(c, h, from, k - 1);
      OneWindow(h, mid, c.window, c.Cap());
      CountSplit(h, from, mid, mid + c.window);
      assert mid + c.window == from + k * c.window;
      assert (k - 1) * c.Cap() + c.Cap() == k * c.Cap();
    }
  }

  lemma NonNegativeProduct(a: nat, b: nat)
    ensures a * b >= 0
  {}

  lemma {:induction false} NothingInEmpty(h: seq<int>, lo: int)
    ensures CountIn(h, lo, lo) == 0
  {
    if h != [] { NothingInEmpty(h[..|h| - 1], lo); }
  }

  lemma {:induction false} RequestsSorted(log: seq<Event>, ip: string)
    requires Monotone(log)
    ensures Sorted(RequestsOf(log, ip))
    ensures forall i :: 0 <= i < |RequestsOf(log, ip)| ==> RequestsOf(log, ip)[i] <= log[|log| - 1].at
    decreases |log|
  {
    if log != [] {
      var before := log[..|log| - 1];
      RequestsSorted(before, ip);
      if before != [] { assert before[|before| - 1] == log[|log| - 2]; }
    }
  }

  /** Main safety result: in every run, with sweeps anywhere, one address passes at most
      `k * maxRequests` times in any half-open interval of length `k * window`. */
  lemma SlidingWindowBound(c: Config, log: seq<Event>, ip: string, from: int, k: nat)
    requires c.Valid() && c.NoOverflow() && Monotone(log)
    ensures RateHolds(c, Admitted(c, log, ip), from, k)
  {
    RefinesHistorySpec(c, log, ip);
    RequestsSorted(log, ip);
    SpecIsPaced(c, RequestsOf(log, ip));
    ManyWindows(c, Admitted(c, log, ip), from, k);
  }

  // ---------------------------------------------------------------- the guard is needed

  /** `n` requests of one address at one instant. */
  function Salvo(ip: string, at: int, n: nat): (log: seq<Event>)
    ensures |log| == n
    ensures forall i :: 0 <= i < n ==> log[i] == Request(ip, at)
  {
    if n == 0 then [] else Salvo(ip, at, n - 1) + [Request(ip, at)]
  }

  lemma RunSnoc(c: Config, before: seq<Event>, e: Event, ip: string)
    ensures Run(c, before + [e]) == Apply(c, Run(c, before), e)
    ensures Admitted(c, before + [e], ip)
         == if e.Request? && e.ip == ip && Serve(c, Run(c, before), ip, e.at).1
            then Admitted(c, before, ip) + [e.at] else Admitted(c, before, ip)
  {
    var log := before + [e];
    assert log[..|log| - 1] == before;
  }

  lemma CountSnoc(h: seq<int>, at: int, lo: int, hi: int)
    requires lo <= at < hi
    ensures CountIn(h + [at], lo, hi) == CountIn(h, lo, hi) + 1
  {
    assert (h + [at])[..|h|] == h;
  }

  function AfterSalvo(c: Config, ip: string, at: int, n: nat): Table {
    if n == 0 then map[] else map[ip := Visitor(c.maxRequests - n, at)]
  }

  lemma SalvoStep(c: Config, ip: string, at: int, n: nat)
    requires c.Valid() && 0 <= at && n < c.maxRequests
    ensures Serve(c, AfterSalvo(c, ip, at, n), ip, at) == (AfterSalvo(c, ip, at, n + 1), true)
  {
    var t, t' := AfterSalvo(c, ip, at, n), AfterSalvo(c, ip, at, n + 1);
    assert t[ip := t'[ip]] == t';
  }

  lemma {:induction false} SalvoTable(c: Config, ip: string, at: int, n: nat)
    requires c.Valid() && 0 <= at && n <= c.maxRequests
    ensures Run(c, Salvo(ip, at, n)) == AfterSalvo(c, ip, at, n)
    decreases n
  {
    if n > 0 {
      SalvoTable(c, ip, at, n - 1);
      SalvoStep(c, ip, at, n - 1);
      RunSnoc(c, Salvo(ip, at, n - 1), Request(ip, at), ip);
    }
  }

  lemma OneMore(earlier: seq<int>, h: seq<int>, at: int, window: int)
    requires h == earlier + [at] && window > 0
    ensures CountIn(h, at, at + window) == CountIn(earlier, at, at + window) + 1
  {
    CountSnoc(earlier, at, at, at + window);
  }

  lemma SalvoAdmits(c: Config, ip: string, at: int, n: nat)
    requires c.Valid() && 0 <= at && n < c.maxRequests
    ensures Admitted(c, Salvo(ip, at, n + 1), ip) == Admitted(c, Salvo(ip, at, n), ip) + [at]
  {
    SalvoTable(c, ip, at, n);
    SalvoStep(c, ip, at, n);
    RunSnoc(c, Salvo(ip, at, n), Request(ip, at), ip);
  }

  lemma {:induction false} SalvoPasses(c: Config, ip: string, at: int, n: nat)
    requires c.Valid() && 0 <= at && n <= c.maxRequests
    ensures CountIn(Admitted(c, Salvo(ip, at, n), ip), at, at + c.window) == n
    decreases n
  {
    if n > 0 {
      var earlier, h := Admitted(c, Salvo(ip, at, n - 1), ip), Admitted(c, Salvo(ip, at, n), ip);
      SalvoPasses(c, ip, at, n - 1);
      SalvoAdmits(c, ip, at, n - 1);
      OneMore(earlier, h, at, c.window);
    }
  }

  lemma SweptThenServed(c: Config, ip: string, at: int)
    requires c.Valid() && !c.NoOverflow() && c.maxRequests > 0 && at >= 0
    ensures var salvo := Salvo(ip, at, c.maxRequests);
            Admitted(c, salvo + [Sweep(at)] + [Request(ip, at)], ip) == Admitted(c, salvo, ip) + [at]
  {
    var salvo := Salvo(ip, at, c.maxRequests);
    SalvoTable(c, ip, at, c.maxRequests);
    RunSnoc(c, salvo, Sweep(at), ip);
    assert Run(c, salvo + [Sweep(at)]) == map[];
    RunSnoc(c, salvo + [Sweep(at)], Request(ip, at), ip);
  }

  /** When `window*2` wraps, every sweep forgets everyone.  One sweep, no earlier than the first tick
      of the ticker, then lets an address pass once more than the limit within a single window. */
  lemma OverflowBreaksBound(c: Config, ip: string)
    requires c.Valid() && !c.NoOverflow() && c.maxRequests > 0
    ensures Monotone(Loophole(c, ip))
    ensures forall e :: e in Loophole(c, ip) && e.Sweep? ==> e.at >= c.window
    ensures !RateHolds(c, Admitted(c, Loophole(c, ip), ip), c.window, 1)
  {
    LoopholeCounts(c, ip);
  }

  lemma LoopholeCounts(c: Config, ip: string)
    requires c.Valid() && !c.NoOverflow() && c.maxRequests > 0
    ensures CountIn(Admitted(c, Loophole(c, ip), ip), c.window, c.window + c.window) == c.maxRequests + 1
  {
    SalvoPasses(c, ip, c.window, c.maxRequests);
    SweptThenServed(c, ip, c.window);
    CountSnoc(Admitted(c, Salvo(ip, c.window, c.maxRequests), ip), c.window, c.window, c.window + c.window);
  }

  function Loophole(c: Config, ip: string): seq<Event>
    requires c.maxRequests >= 0
  {
    Salvo(ip, c.window, c.maxRequests) + [Sweep(c.window)] + [Request(ip, c.window)]
  }

  /** A limit that is not positive admits nobody, wrapped sweep or not. */
  lemma {:induction false} ClosedLimiter(c: Config, log: seq<Event>, ip: string)
    requires c.Valid() && c.maxRequests <= 0
    ensures Admitted(c, log, ip) == []
    ensures ip in Run(c, log) ==> Run(c, log)[ip].tokens <= 0
    decreases |log|
  {
    if log != [] { ClosedLimiter(c, log[..|log| - 1], ip); }
  }

  /** Exactly when the bound holds in every run: the doubled window must fit, or nobody is let in. */
  lemma BoundHoldsExactly(c: Config)
    requires c.Valid()
    ensures (forall log, ip, from, k ::
               Monotone(log) ==> RateHolds(c, Admitted(c, log, ip), from, k))
        <==> c.NoOverflow() || c.maxRequests <= 0
  {
    forall log, ip, from, k | Monotone(log) && (c.NoOverflow() || c.maxRequests <= 0)
      ensures RateHolds(c, Admitted(c, log, ip), from, k)
    {
      if c.NoOverflow() { SlidingWindowBound(c, log, ip, from, k); } else { ClosedLimiter(c, log, ip); }
    }
    if !c.NoOverflow() && c.maxRequests > 0 {
      OverflowBreaksBound(c, "");
    }
  }

  /** Exactly when the code is what its history calls for in every run: the same condition decides. */
  lemma RefinesExactly(c: Config)
    requires c.Valid()
    ensures (forall log, ip :: Monotone(log) ==> Admitted(c, log, ip) == SpecAdmitted(c, RequestsOf(log, ip)))
        <==> c.NoOverflow() || c.maxRequests <= 0
  {
    forall log, ip | Monotone(log) && (c.NoOverflow() || c.maxRequests <= 0)
      ensures Admitted(c, log, ip) == SpecAdmitted(c, RequestsOf(log, ip))
    {
      if c.NoOverflow() { RefinesHistorySpec(c, log, ip); } else { ClosedRefines(c, log, ip); }
    }
    if !c.NoOverflow() && c.maxRequests > 0 {
      LoopholeIsNotSpec(c, "");
    }
  }

  lemma ClosedRefines(c: Config, log: seq<Event>, ip: string)
    requires c.Valid() && c.maxRequests <= 0 && Monotone(log)
    ensures Admitted(c, log, ip) == SpecAdmitted(c, RequestsOf(log, ip)) == []
  {
    var h := SpecAdmitted(c, RequestsOf(log, ip));
    ClosedLimiter(c, log, ip);
    RequestsSorted(log, ip);
    SpecIsPaced(c, RequestsOf(log, ip));
    if h != [] { BurstStartsAtGap(c.window, h); }
  }

  /** The specification keeps the bound that this run breaks. */
  lemma LoopholeIsNotSpec(c: Config, ip: string)
    requires c.Valid() && !c.NoOverflow() && c.maxRequests > 0
    ensures Monotone(Loophole(c, ip))
    ensures Admitted(c, Loophole(c, ip), ip) != SpecAdmitted(c, RequestsOf(Loophole(c, ip), ip))
  {
    var requests := RequestsOf(Loophole(c, ip), ip);
    OverflowBreaksBound(c, ip);
    RequestsSorted(Loophole(c, ip), ip);
    SpecIsPaced(c, requests);
    ManyWindows(c, SpecAdmitted(c, requests), c.window, 1);
  }

  // ---------------------------------------------------------------- the code, updating in place

  /** Entering a new visitor first does not change how a request is served. */
  lemma WelcomedServe(c: Config, t: Table, ip: string, now: int)
    ensures ip !in t ==> Serve(c, t[ip := Visitor(c.maxRequests, ZERO_TIME)], ip, now) == Serve(c, t, ip, now)
  {
    var v, after := Visitor(c.maxRequests, ZERO_TIME), Serve(c, t, ip, now).0;
    assert t[ip := v][ip := after[ip]] == t[ip := after[ip]];
  }

  lemma MonotoneSnoc(log: seq<Event>, e: Event)
    requires Monotone(log) && LastInstant(log) <= e.at
    ensures Monotone(log + [e])
  {}

  class Cell {
    var tokens: int
    var lastSeen: int

    constructor (tokens: int, lastSeen: int)
      ensures this.tokens == tokens && this.lastSeen == lastSeen
    {
      this.tokens, this.lastSeen := tokens, lastSeen;
    }
  }

  class Limiter {
    const c: Config
    var visitors: map<string, Cell>
    ghost var log: seq<Event>  // every event since the start

    /** No two addresses share a visitor object. */
    ghost predicate Separate()
      reads this`visitors
    {
      forall a, b :: a in visitors && b in visitors && a != b ==> visitors[a] != visitors[b]
    }

    ghost function Entries(): Table
      reads this`visitors, visitors.Values
    {
      map ip | ip in visitors :: Visitor(visitors[ip].tokens, visitors[ip].lastSeen)
    }

    ghost predicate Valid()
      reads this, visitors.Values
    {
      c.Valid() && Monotone(log) && Separate() && Entries() == Run(c, log)
    }

    constructor (maxRequests: int, window: int)
      requires Config(maxRequests, window).Valid()
      ensures Valid() && c == Config(maxRequests, window) && log == [] && visitors == map[]
    {
      c := Config(maxRequests, window);
      visitors := map[];
      log := [];
    }

    /** The critical section of one request. */
    method Take(ip: string, now: int) returns (passed: bool)
      requires Separate()
      modifies this`visitors, visitors.Values
      ensures Separate() && fresh(visitors.Values - old(visitors.Values))
      ensures (Entries(), passed) == Serve(c, old(Entries()), ip, now)
    {
      ghost var t := Entries();
      if ip !in visitors {
        Welcome(ip);
      }
      passed := Spend(ip, now);
      WelcomedServe(c, t, ip, now);
    }

    /** A new visitor starts with every token and the zero time. */
    method Welcome(ip: string)
      requires Separate() && ip !in visitors
      modifies this`visitors
      ensures Separate() && ip in visitors && fresh(visitors.Values - old(visitors.Values))
      ensures Entries() == old(Entries())[ip := Visitor(c.maxRequests, ZERO_TIME)]
    {
      var newcomer := new Cell(c.maxRequests, ZERO_TIME);
      visitors := visitors[ip := newcomer];
    }

    /** Refill after an idle window, then take a token if there is one. */
    method Spend(ip: string, now: int) returns (passed: bool)
      requires Separate() && ip in visitors
      modifies visitors[ip]
      ensures (Entries(), passed) == Serve(c, old(Entries()), ip, now)
    {
      ghost var t := Entries();
      var v := visitors[ip];
      if Sub(now, v.lastSeen) >= c.window {
        v.tokens := c.maxRequests;
      }
      passed := v.tokens > 0;
      if passed {
        v.tokens := v.tokens - 1;
        v.lastSeen := now;
      }
      assert Entries() == t[ip := Visitor(v.tokens, v.lastSeen)];
    }

    /** The sweep; the entries are visited in any order. */
    method Expire(now: int)
      requires Separate()
      modifies this`visitors
      ensures Separate() && visitors.Values <= old(visitors.Values)
      ensures Entries() == SweepTable(c, old(Entries()), now)
    {
      ghost var t, start := Entries(), visitors;
      var todo := visitors.Keys;
      while todo != {}
        invariant todo <= visitors.Keys <= start.Keys
        invariant forall ip :: ip in visitors ==> visitors[ip] == start[ip]
        invariant forall ip :: ip in start ==> (ip in visitors <==> ip in todo || !Stale(c, t[ip], now))
      {
        var ip :| ip in todo;
        todo := todo - {ip};
        if Sub(now, visitors[ip].lastSeen) > Doubled(c.window) {
          visitors := visitors - {ip};
        }
      }
      assert Entries() == SweepTable(c, t, now);
    }

    /** One request: the answer is the one the full history of this address calls for. */
    method Admit(ip: string, now: int) returns (passed: bool)
      requires Valid() && LastInstant(log) <= now
      modifies this, visitors.Values
      ensures Valid() && fresh(visitors.Values - old(visitors.Values))
      ensures log == old(log) + [Request(ip, now)]
      ensures c.NoOverflow() ==> passed == SpecAdmits(c, Admitted(c, old(log), ip), now)
      ensures Admitted(c, log, ip) == Admitted(c, old(log), ip) + (if passed then [now] else [])
    {
      ghost var before, e := log, Request(ip, now);
      MonotoneSnoc(before, e);
      if c.NoOverflow() { DecisionIsSpec(c, before, ip, now); }
      RunSnoc(c, before, e, ip);
      passed := Take(ip, now);
      assert Entries() == Run(c, before + [e]);
      log := before + [e];
    }

    /** One tick of the cleanup goroutine: nobody's admissions change. */
    method Cleanup(now: int)
      requires Valid() && LastInstant(log) <= now
      modifies this
      ensures Valid() && log == old(log) + [Sweep(now)]
      ensures visitors.Values <= old(visitors.Values)
      ensures forall ip :: Admitted(c, log, ip) == Admitted(c, old(log), ip)
    {
      ghost var before, e := log, Sweep(now);
      MonotoneSnoc(before, e);
      forall ip ensures Admitted(c, before + [e], ip) == Admitted(c, before, ip) {
        RunSnoc(c, before, e, ip);
      }
      RunSnoc(c, before, e, "");
      Expire(now);
      assert Entries() == Run(c, before + [e]);
      log := before + [e];
    }
  }
}
