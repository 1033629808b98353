/** What every run of the login machine keeps: the identity a link stands for, and the single use of
    each state with the verifier that matches its challenge. */
module OAuthSafety {
  import opened Wrappers
  import opened Utf8
  import opened Usernames
  import opened OAuth

  /** Links point at users; ids are handed out once; user names and addresses are unique, and no address is empty. */
  ghost predicate Inv(s: State) {
    && (forall u :: u in s.users ==> 0 <= u < s.nextId)
    && 0 <= s.nextId
    && (forall k :: k in s.links ==> s.links[k] in s.users)
    && Distinct(s.users)
    && (forall u :: u in s.users ==> s.users[u].email != "")
  }

  ghost predicate Distinct(users: map<int, User>) {
    forall u, v :: u in users && v in users && u != v ==>
      users[u].username != users[v].username && users[u].email != users[v].email
  }

  ghost predicate Linked(s: State, key: (string, string), u: int) {
    key in s.links && s.links[key] == u && u in s.users
  }

  lemma AddUserKeepsInv(s: State, user: User)
    requires Inv(s) && Unique(s.users, user.username, user.email) && user.email != ""
    ensures Inv(AddUser(s, user))
  {}

  lemma CreateUserKeepsInv(s: State, provider: string, info: Info, username: Bytes, at: int, f: Faults)
    requires Inv(s)
    ensures Inv(CreateUser(s, provider, info, username, at, f).0)
  {
    var email := NewAddress(provider, info);
    if Unique(s.users, username, email) {
      var s1, key := AddUser(s, User(username, email, false, at)), (provider, info.providerID);
      AddUserKeepsInv(s, User(username, email, false, at));
      ConfirmKeepsInv(s1, s.nextId);
      var s2 := Confirmed(s1, s.nextId);
      assert Inv(s1.(links := s1.links[key := s.nextId]));
      assert Inv(s2.(links := s2.links[key := s.nextId]));
    }
  }

  function Confirmed(s: State, u: int): State
    requires u in s.users
  {
    s.(users := s.users[u := s.users[u].(verified := true)])
  }

  lemma ConfirmKeepsInv(s: State, u: int)
    requires Inv(s) && u in s.users
    ensures Inv(Confirmed(s, u))
  {}

  lemma RenameKeepsInv(s: State, u: int, username: Bytes)
    requires Inv(s) && u in s.users && forall v :: v in s.users && v != u ==> s.users[v].username != username
    ensures Inv(s.(users := s.users[u := s.users[u].(username := username)]))
  {}

  lemma ChangeEmailKeepsInv(s: State, u: int, email: string)
    requires Inv(s) && u in s.users && email != "" && forall v :: v in s.users && v != u ==> s.users[v].email != email
    ensures Inv(s.(users := s.users[u := s.users[u].(email := email)]))
  {}

  lemma CleanupKeepsInv(s: State, before: int)
    requires Inv(s)
    ensures Inv(Cleanup(s, before))
  {
    var s' := Cleanup(s, before);
    assert forall u :: u in s'.users ==> u in s.users && s'.users[u] == s.users[u];
  }

  lemma ResolveKeepsInv(s: State, provider: string, info: Info, username: Bytes, at: int, f: Faults)
    requires Inv(s)
    ensures Inv(Resolve(s, provider, info, username, at, f).0)
  {
    if Lookup(s, provider, info, f).Nobody? {
      CreateUserKeepsInv(s, provider, info, username, at, f);
    }
  }

  lemma NextKeepsInv(env: Env, s: State, e: Event)
    requires Inv(s)
    ensures Inv(Next(env, s, e))
  {
    match e
    case CallbackEv(_, _, _, _, _, _, _) => CallbackKeepsInv(env, s, e);
    case RegisterEv(username, email, autoVerify, at) =>
      if email != "" && Unique(s.users, username, email) {
        AddUserKeepsInv(s, User(username, email, autoVerify, at));
      }
    case ConfirmEv(u) => if u in s.users { ConfirmKeepsInv(s, u); }
    case RenameEv(u, username) =>
      if u in s.users && forall v :: v in s.users && v != u ==> s.users[v].username != username {
        RenameKeepsInv(s, u, username);
      }
    case ChangeEmailEv(u, email) =>
      if u in s.users && email != "" && forall v :: v in s.users && v != u ==> s.users[v].email != email {
        ChangeEmailKeepsInv(s, u, email);
      }
    case CleanupEv(before) => CleanupKeepsInv(s, before);
    case _ =>
  }

  lemma CallbackKeepsInv(env: Env, s: State, e: Event)
    requires Inv(s) && e.CallbackEv?
    ensures Inv(Next(env, s, e))
  {
    CallbackResolves(env, s, e);
    if e.answer.Some? && e.state in s.states {
      var info := e.answer.value;
      ResolveKeepsInv(Exchanged(s, e.state, e.name), e.name, info,
                      Allocate(env.tables, info.username, Names(s.users), e.suffix), e.at, e.f);
    }
  }

  lemma {:induction false} RunKeepsInv(env: Env, s: State, es: seq<Event>)
    requires Inv(s)
    ensures Inv(Run(env, s, es))
    decreases |es|
  {
    if es != [] {
      RunKeepsInv(env, s, es[..|es| - 1]);
      NextKeepsInv(env, Run(env, s, es[..|es| - 1]), es[|es| - 1]);
    }
  }

  // ---------------------------------------------------------------- identity

  /** A login attempt in which the provider vouches for this identity. */
  predicate Claims(e: Event, key: (string, string)) {
    e.CallbackEv? && e.answer.Some? && (e.name, e.answer.value.providerID) == key
  }

  function Login(env: Env, s: State, e: Event): (State, Result)
    requires e.CallbackEv?
  {
    Callback(env, s, e.name, e.code, e.state, e.answer, e.at, e.suffix, e.f)
  }

  /** The state is spent and the exchange recorded. */
  function Exchanged(s: State, state: string, name: string): State
    requires state in s.states
  {
    s.(states := s.states - {state}, exchanges := s.exchanges + [Exchange(state, name, s.states[state].verifier)])
  }

  /** What a callback that gets past the exchange makes of the provider's answer. */
  function Resolved(env: Env, s: State, e: Event): (State, Result)
    requires e.CallbackEv? && e.answer.Some? && e.state in s.states
  {
    var info := e.answer.value;
    var username := Allocate(env.tables, info.username, Names(s.users), e.suffix);
    Resolve(Exchanged(s, e.state, e.name), e.name, info, username, e.at, e.f)
  }

  /** A callback either gets that far or leaves users and links alone. */
  lemma CallbackResolves(env: Env, s: State, e: Event)
    requires e.CallbackEv?
    ensures var (s', r) := Login(env, s, e);
            if e.answer.Some? && e.state in s.states && s' == Resolved(env, s, e).0
            then r.Err? || r == Resolved(env, s, e).1
            else r.Err? && s'.users == s.users && s'.links == s.links && s'.nextId == s.nextId
  {}

  lemma ResolveLinks(s: State, provider: string, info: Info, username: Bytes, at: int, f: Faults)
    requires Inv(s) && Resolve(s, provider, info, username, at, f).1.Ok?
    ensures var (s', r) := Resolve(s, provider, info, username, at, f); Linked(s', (provider, info.providerID), r.user)
  {}

  /** A callback that succeeds leaves its identity linked to the user it returns. */
  lemma SuccessLinks(env: Env, s: State, e: Event)
    requires Inv(s) && e.CallbackEv? && Login(env, s, e).1.Ok?
    ensures e.answer.Some? && Claims(e, (e.name, e.answer.value.providerID))
    ensures Linked(Login(env, s, e).0, (e.name, e.answer.value.providerID), Login(env, s, e).1.user)
  {
    CallbackResolves(env, s, e);
    var info := e.answer.value;
    ResolveLinks(Exchanged(s, e.state, e.name), e.name, info,
                 Allocate(env.tables, info.username, Names(s.users), e.suffix), e.at, e.f);
  }

  /** A callback for a linked identity returns the linked user or nobody, and creates nobody, whatever
      address, verification flag or name the provider reports. */
  lemma LinkDecides(env: Env, s: State, e: Event, key: (string, string), u: int)
    requires Linked(s, key, u) && Claims(e, key)
    ensures var (s', r) := Login(env, s, e);
            && (r.Ok? ==> r.user == u)
            && s'.users == s.users && s'.links == s.links
  {}

  /** Resolving a login adds users and links and may verify the user it adds; it removes nothing. */
  ghost predicate Grows(s: State, s': State) {
    && (forall u :: u in s.users ==> u in s'.users && s'.users[u] == s.users[u])
    && (forall k :: k in s.links ==> k in s'.links && s'.links[k] == s.links[k])
  }

  lemma CreateUserGrows(s: State, provider: string, info: Info, username: Bytes, at: int, f: Faults)
    requires s.nextId !in s.users
    ensures Grows(s, CreateUser(s, provider, info, username, at, f).0)
  {}

  lemma ResolveGrows(s: State, provider: string, info: Info, username: Bytes, at: int, f: Faults)
    requires Inv(s)
    ensures Grows(s, Resolve(s, provider, info, username, at, f).0)
  {
    var s' := Resolve(s, provider, info, username, at, f).0;
    if s'.users == s.users {
      assert s'.links == s.links || s'.links == s.links[(provider, info.providerID) := s'.links[(provider, info.providerID)]];
    } else {
      CreateUserGrows(s, provider, info, username, at, f);
    }
  }

  lemma CallbackGrows(env: Env, s: State, e: Event)
    requires Inv(s) && e.CallbackEv?
    ensures Grows(s, Next(env, s, e))
  {
    CallbackResolves(env, s, e);
    if e.state in s.states && e.answer.Some? {
      var username := Allocate(env.tables, e.answer.value.username, Names(s.users), e.suffix);
      ResolveGrows(Exchanged(s, e.state, e.name), e.name, e.answer.value, username, e.at, e.f);
    }
  }

  /** A link to a verified user survives every step, and the user stays verified. */
  lemma StepKeepsLink(env: Env, s: State, e: Event, key: (string, string), u: int)
    requires Inv(s) && Linked(s, key, u) && s.users[u].verified
    ensures Linked(Next(env, s, e), key, u) && Next(env, s, e).users[u].verified
  {
    if e.CallbackEv? { CallbackGrows(env, s, e); }
  }

  /** Main result: once a callback for an identity has succeeded with a user whose stored flag says
      verified, every later successful callback for it, after any run, returns that user. */
  lemma {:induction false} VerifiedIdentityIsStable(env: Env, s: State, es: seq<Event>, key: (string, string), u: int)
    requires Inv(s) && Linked(s, key, u) && s.users[u].verified
    ensures Linked(Run(env, s, es), key, u) && Run(env, s, es).users[u].verified
    ensures forall e :: Claims(e, key) ==>
              var (s', r) := Login(env, Run(env, s, es), e);
              (r.Ok? ==> r.user == u) && s'.users == Run(env, s, es).users
    decreases |es|
  {
    if es != [] {
      var before := es[..|es| - 1];
      VerifiedIdentityIsStable(env, s, before, key, u);
      RunKeepsInv(env, s, before);
      StepKeepsLink(env, Run(env, s, before), es[|es| - 1], key, u);
    }
    forall e | Claims(e, key)
      ensures var (s', r) := Login(env, Run(env, s, es), e);
              (r.Ok? ==> r.user == u) && s'.users == Run(env, s, es).users
    {
      LinkDecides(env, Run(env, s, es), e, key, u);
    }
  }

  /** Every later callback that succeeds for this identity, after any run, returns `u`. */
  ghost predicate AlwaysAnswers(env: Env, s: State, key: (string, string), u: int) {
    forall es, e :: Claims(e, key) && Login(env, Run(env, s, es), e).1.Ok? ==> Login(env, Run(env, s, es), e).1.user == u
  }

  /** And exactly then.  For a provider configured under its own name, an identity keeps its user in every run
      if and only if that user is verified: otherwise the cleanup takes user and link away, and once somebody else
      has the address the next login for the same identity returns them. */
  lemma StableIffVerified(env: Env, s: State, key: (string, string), u: int)
    requires Inv(s) && Linked(s, key, u)
    requires key.0 in env.registry && env.registry[key.0] == key.0
    ensures AlwaysAnswers(env, s, key, u) <==> s.users[u].verified
  {
    if s.users[u].verified {
      forall es, e | Claims(e, key) && Login(env, Run(env, s, es), e).1.Ok?
        ensures Login(env, Run(env, s, es), e).1.user == u
      {
        VerifiedIdentityIsStable(env, s, es, key, u);
      }
    } else {
      var name := UnusedName(Names(Cleanup(s, Horizon(s.users, s.nextId)).users));
      SecondUserArises(env, s, key, u, name);
    }
  }

  /** Names never run out. */
  lemma {:induction false} UnusedName(names: set<Bytes>) returns (name: Bytes)
    ensures name !in names && forall n :: n in names ==> |n| < |name|
    decreases |names|
  {
    name := [0];
    if names != {} {
      var n :| n in names;
      var longer := UnusedName(names - {n});
      name := longer + n + [0];
    }
  }

  /** The run: everybody unverified is cleaned away, somebody registers the address under any free name and confirms
      it, and a login for the identity starts. */
  function Takeover(s: State, key: (string, string), u: int, name: Bytes): seq<Event>
    requires u in s.users
  {
    var now := Horizon(s.users, s.nextId);
    [CleanupEv(now), RegisterEv(name, s.users[u].email, false, now), ConfirmEv(s.nextId), ExpireEv("x"),
     StartEv(key.0, "x", "v", Fine)]
  }

  function TakeoverLogin(s: State, key: (string, string), u: int): Event
    requires u in s.users
  {
    CallbackEv(key.0, "c", "x", Some(Info(key.1, s.users[u].email, true, [])), Horizon(s.users, s.nextId), [], NO_FAULTS)
  }

  /** An instant after every user below `n` was created. */
  function Horizon(users: map<int, User>, n: int): (h: int)
    ensures forall v: int :: v in users && 0 <= v < n ==> users[v].createdAt < h
    decreases n
  {
    if n <= 0 then 0
    else
      var h := Horizon(users, n - 1);
      if n - 1 in users && users[n - 1].createdAt >= h then users[n - 1].createdAt + 1 else h
  }

  lemma {:induction false} FindsByEmail(users: map<int, User>, n: int, email: string, v: int)
    requires v in users && 0 <= v < n && users[v].email == email
    ensures FindByEmail(users, n, email).Some?
    decreases n
  {
    if v < n - 1 { FindsByEmail(users, n - 1, email, v); }
  }

  lemma {:induction false} RunFirst(env: Env, s: State, e: Event, es: seq<Event>)
    ensures Run(env, s, [e] + es) == Run(env, Next(env, s, e), es)
    decreases |es|
  {
    if es == [] {
      assert [e] + es == [e] && [e][..0] == [];
      assert Run(env, s, [e]) == Next(env, Run(env, s, []), e);
    } else {
      RunFirst(env, s, e, es[..|es| - 1]);
      assert ([e] + es)[..|[e] + es| - 1] == [e] + es[..|es| - 1];
    }
  }

  lemma RunFive(env: Env, s: State, a: Event, b: Event, c: Event, d: Event, e: Event)
    ensures Run(env, s, [a, b, c, d, e]) == Next(env, Next(env, Next(env, Next(env, Next(env, s, a), b), c), d), e)
  {
    var s1 := Next(env, s, a);
    var s2 := Next(env, s1, b);
    var s3 := Next(env, s2, c);
    assert [a, b, c, d, e] == [a] + [b, c, d, e] && [b, c, d, e] == [b] + [c, d, e] && [c, d, e] == [c] + [d, e];
    RunFirst(env, s, a, [b, c, d, e]);
    RunFirst(env, s1, b, [c, d, e]);
    RunFirst(env, s2, c, [d, e]);
    RunTwo(env, s3, d, e);
  }

  lemma RunTwo(env: Env, s: State, a: Event, b: Event)
    ensures Run(env, s, [a, b]) == Next(env, Next(env, s, a), b)
  {
    assert [a, b] == [a] + [b] && [b] == [b] + [];
    RunFirst(env, s, a, [b]);
    RunFirst(env, Next(env, s, a), b, []);
  }

  lemma SecondUserArises(env: Env, s: State, key: (string, string), u: int, name: Bytes)
    requires Inv(s) && Linked(s, key, u) && !s.users[u].verified
    requires key.0 in env.registry && env.registry[key.0] == key.0
    requires name !in Names(Cleanup(s, Horizon(s.users, s.nextId)).users)
    ensures var s', e := Run(env, s, Takeover(s, key, u, name)), TakeoverLogin(s, key, u);
            Claims(e, key) && Login(env, s', e).1.Ok? && Login(env, s', e).1.user != u
  {
    var es, email := Takeover(s, key, u, name), s.users[u].email;
    RunFive(env, s, es[0], es[1], es[2], es[3], es[4]);
    var s3 := Newcomer(env, s, key, u, name);
    StartsAfresh(env, s3, key.0);
    FindsByEmail(s3.users, s3.nextId, email, s.nextId);
    ByAddress(env, Next(env, Next(env, s3, es[3]), es[4]), key, email);
  }

  /** After cleanup, registration and confirmation the address belongs to somebody new, and everybody is verified. */
  lemma Newcomer(env: Env, s: State, key: (string, string), u: int, name: Bytes) returns (s3: State)
    requires Inv(s) && Linked(s, key, u) && !s.users[u].verified
    requires name !in Names(Cleanup(s, Horizon(s.users, s.nextId)).users)
    ensures var es := Takeover(s, key, u, name); s3 == Next(env, Next(env, Next(env, s, es[0]), es[1]), es[2])
    ensures u !in s3.users && key !in s3.links && (forall v :: v in s3.users ==> s3.users[v].verified)
    ensures s.nextId in s3.users && s.nextId < s3.nextId && s3.users[s.nextId].email == s.users[u].email != ""
  {
    var now, email := Horizon(s.users, s.nextId), s.users[u].email;
    var s1 := Cleanup(s, now);
    CleanedAway(s, key, u);
    s3 := RegistersAndConfirms(env, s1, name, email, now);
  }

  lemma RegistersAndConfirms(env: Env, s: State, name: Bytes, email: string, at: int) returns (s': State)
    requires name !in Names(s.users) && email != "" && (forall v :: v in s.users ==> s.users[v].email != email)
    ensures s' == Next(env, Next(env, s, RegisterEv(name, email, false, at)), ConfirmEv(s.nextId))
    ensures s'.users == s.users[s.nextId := User(name, email, true, at)]
    ensures s'.links == s.links && s'.nextId == s.nextId + 1
  {
    assert forall v :: v in s.users ==> s.users[v].username in Names(s.users);
    assert Unique(s.users, name, email);
    s' := Confirmed(AddUser(s, User(name, email, false, at)), s.nextId);
  }

  /** The cleanup leaves only verified users, and the address it set free. */
  lemma CleanedAway(s: State, key: (string, string), u: int)
    requires Inv(s) && Linked(s, key, u) && !s.users[u].verified
    ensures var s1 := Cleanup(s, Horizon(s.users, s.nextId));
            && u !in s1.users && key !in s1.links && s1.nextId == s.nextId
            && (forall v :: v in s1.users ==> s1.users[v].verified && s1.users[v].email != s.users[u].email)
  {
    var s1 := Cleanup(s, Horizon(s.users, s.nextId));
    assert forall v :: v in s1.users ==> v in s.users && s1.users[v] == s.users[v];
  }

  lemma StartsAfresh(env: Env, s: State, name: string)
    requires name in env.registry && env.registry[name] == name
    ensures var s' := Next(env, Next(env, s, ExpireEv("x")), StartEv(name, "x", "v", Fine));
            && s'.users == s.users && s'.links == s.links && s'.nextId == s.nextId
            && "x" in s'.states && s'.states["x"] == Pending(name, "v")
  {}

  /** With everybody verified, a login by a known address returns the user it finds. */
  lemma ByAddress(env: Env, s: State, key: (string, string), email: string)
    requires key.0 in env.registry && "x" in s.states && s.states["x"].provider == key.0
    requires key !in s.links && (forall v :: v in s.users ==> s.users[v].verified)
    requires FindByEmail(s.users, s.nextId, email).Some? && email != ""
    ensures var r := Callback(env, s, key.0, "c", "x", Some(Info(key.1, email, true, [])), 0, [], NO_FAULTS).1;
            r.Ok? && r.user in s.users
  {}

  /** How such a user arises, with no call failing: a new identity with an address the provider does not vouch for. */
  lemma UnvouchedUserIsUnverified(env: Env, s: State, e: Event)
    requires Inv(s) && e.CallbackEv? && e.answer.Some? && e.f == NO_FAULTS
    requires e.answer.value.email != "" && !e.answer.value.emailVerified
    requires (e.name, e.answer.value.providerID) !in s.links && Login(env, s, e).1.Ok?
    ensures var (s', r) := Login(env, s, e);
            Linked(s', (e.name, e.answer.value.providerID), r.user) && !s'.users[r.user].verified
  {
    CallbackResolves(env, s, e);
    SuccessLinks(env, s, e);
  }

  /** In general: a new user is verified exactly when the provider vouches for the address or gives none, and the
      second write works. */
  lemma NewUserVerifiedExactly(env: Env, s: State, e: Event)
    requires Inv(s) && e.CallbackEv? && e.answer.Some? && Login(env, s, e).1.Ok? && Login(env, s, e).1.user !in s.users
    ensures var (s', r) := Login(env, s, e);
            && r.user in s'.users
            && (s'.users[r.user].verified
                <==> (e.answer.value.emailVerified || e.answer.value.email == "") && !e.f.setVerified.Fails?)
  {
    CallbackResolves(env, s, e);
    var info := e.answer.value;
    NewUserVerified(Exchanged(s, e.state, e.name), e.name, info,
                    Allocate(env.tables, info.username, Names(s.users), e.suffix), e.at, e.f);
  }

  lemma NewUserVerified(s: State, provider: string, info: Info, username: Bytes, at: int, f: Faults)
    requires Inv(s) && Resolve(s, provider, info, username, at, f).1.Ok?
    requires Resolve(s, provider, info, username, at, f).1.user !in s.users
    ensures var (s', r) := Resolve(s, provider, info, username, at, f);
            && r.user in s'.users
            && (s'.users[r.user].verified <==> (info.emailVerified || info.email == "") && !f.setVerified.Fails?)
  {}

  /** A deleted user's id is never handed out again and never answered. */
  lemma {:induction false} DeletedNeverReturns(env: Env, s: State, es: seq<Event>, u: int)
    requires Inv(s) && u !in s.users && u < s.nextId
    ensures var s' := Run(env, s, es);
            && Inv(s') && u !in s'.users && u < s'.nextId
            && forall e: Event :: e.CallbackEv? ==> Login(env, s', e).1 != Ok(u)
    decreases |es|
  {
    RunKeepsInv(env, s, es);
    if es != [] {
      var before, e := es[..|es| - 1], es[|es| - 1];
      DeletedNeverReturns(env, s, before, u);
      NothingOld(env, Run(env, s, before), e, u);
    }
    var s' := Run(env, s, es);
    forall e: Event | e.CallbackEv? ensures Login(env, s', e).1 != Ok(u) {
      NothingOld(env, s', e, u);
      if Login(env, s', e).1.Ok? { SuccessLinks(env, s', e); }
    }
  }

  lemma ResolveAddsNothingOld(s: State, provider: string, info: Info, username: Bytes, at: int, f: Faults, u: int)
    requires Inv(s) && u !in s.users && u < s.nextId
    ensures var s' := Resolve(s, provider, info, username, at, f).0; u !in s'.users && u < s'.nextId
  {}

  lemma NothingOld(env: Env, s: State, e: Event, u: int)
    requires Inv(s) && u !in s.users && u < s.nextId
    ensures u !in Next(env, s, e).users && u < Next(env, s, e).nextId
  {
    match e
    case CallbackEv(name, code, state, answer, at, suffix, f) =>
      if state in s.states && answer.Some? {
        var username := Allocate(env.tables, answer.value.username, Names(s.users), suffix);
        ResolveAddsNothingOld(Exchanged(s, state, name), name, answer.value, username, at, f, u);
      }
    case _ =>
  }

  /** With nobody deleted, verified or not, the link stays and decides every later answer. */
  lemma {:induction false} StableWithoutCleanup(env: Env, s: State, es: seq<Event>, key: (string, string), u: int)
    requires Inv(s) && Linked(s, key, u) && forall e :: e in es ==> !e.CleanupEv?
    ensures Linked(Run(env, s, es), key, u)
    ensures forall e :: Claims(e, key) ==>
              var (s', r) := Login(env, Run(env, s, es), e);
              (r.Ok? ==> r.user == u) && s'.users == Run(env, s, es).users
    decreases |es|
  {
    if es != [] {
      var before, e := es[..|es| - 1], es[|es| - 1];
      assert e in es && forall x :: x in before ==> x in es;
      StableWithoutCleanup(env, s, before, key, u);
      RunKeepsInv(env, s, before);
      if e.CallbackEv? { CallbackGrows(env, Run(env, s, before), e); }
    }
    forall e | Claims(e, key)
      ensures var (s', r) := Login(env, Run(env, s, es), e);
              (r.Ok? ==> r.user == u) && s'.users == Run(env, s, es).users
    {
      LinkDecides(env, Run(env, s, es), e, key, u);
    }
  }

  // ---------------------------------------------------------------- two callbacks at once

  lemma UnlinkedLookup(s: State, provider: string, info: Info, f: Faults)
    requires (provider, info.providerID) !in s.links
    ensures var found := Lookup(s, provider, info, f);
            (found.Settled? ==> found.r == Err) && (found.ByEmail? ==> found.user in s.users)
  {}

  /** A first writer that succeeds is linked: with the account it found, or with the user it made. */
  lemma FirstWriter(s: State, provider: string, info: Info, found: Found, name: Bytes, at: int, g: Faults)
    requires Inv(s) && (provider, info.providerID) !in s.links
    requires found.Settled? ==> found.r == Err
    requires found.ByEmail? ==> found.user in s.users
    ensures var (s', r) := Store(s, provider, info, found, name, at, g);
            r.Ok? ==>
              && Linked(s', (provider, info.providerID), r.user)
              && (found.ByEmail? || found.Nobody?)
              && (if found.ByEmail? then r.user == found.user else r.user == s.nextId)
  {}

  /** A second writer only succeeds with an account it has found; the link stays. */
  lemma SecondWriter(s: State, provider: string, info: Info, found: Found, name: Bytes, at: int, f: Faults, u: int)
    requires Linked(s, (provider, info.providerID), u) && s.nextId !in s.users
    requires found.Settled? ==> found.r == Err
    ensures var (s', r) := Store(s, provider, info, found, name, at, f);
            && Linked(s', (provider, info.providerID), u)
            && r == if found.ByEmail? && !f.link.Fails? then Ok(found.user) else Err
  {}

  /** Two callbacks for one identity nobody is linked to, whose reads both come before either writes, `b` writing
      first; whatever the provider reports to each and whatever fails.  When `b` succeeds, `a` succeeds with a different
      user exactly when it found an account by address, `b` did not find that account, and the link insert does not fail
      on its own.  So if both succeed they agree exactly when they found the same; the identity stays linked to the
      user of `b`, and `a` arriving after `b` would have returned that user or failed. */
  lemma RacingCallbacksDisagree(s: State, provider: string, a: Info, b: Info, nameA: Bytes, nameB: Bytes,
                                atA: int, atB: int, f: Faults, g: Faults)
    requires Inv(s) && a.providerID == b.providerID && (provider, a.providerID) !in s.links
    ensures var fa, fb := Lookup(s, provider, a, f), Lookup(s, provider, b, g);
            var (s1, rb) := Store(s, provider, b, fb, nameB, atB, g);
            var (s2, ra) := Store(s1, provider, a, fa, nameA, atA, f);
            rb.Ok? ==>
              && (ra.Ok? && ra != rb <==> fa.ByEmail? && fa != fb && !f.link.Fails?)
              && (ra.Ok? ==> fa.ByEmail? && (ra != rb <==> fa != fb))
              && Linked(s2, (provider, a.providerID), rb.user)
              && Resolve(s1, provider, a, nameA, atA, f).1 in {rb, Err}
  {
    var fa, fb := Lookup(s, provider, a, f), Lookup(s, provider, b, g);
    UnlinkedLookup(s, provider, a, f);
    UnlinkedLookup(s, provider, b, g);
    FirstWriter(s, provider, b, fb, nameB, atB, g);
    var (s1, rb) := Store(s, provider, b, fb, nameB, atB, g);
    if rb.Ok? {
      ResolveKeepsInv(s, provider, b, nameB, atB, g);
      SecondWriter(s1, provider, a, fa, nameA, atA, f, rb.user);
    }
  }

  /** In particular when each has found another account, or the first found nobody and made a new user. */
  lemma TwoFindsDisagree(s: State, provider: string, a: Info, b: Info, nameA: Bytes, nameB: Bytes, at: int)
    requires Inv(s) && a.providerID == b.providerID && (provider, a.providerID) !in s.links
    requires var fa, fb := Lookup(s, provider, a, NO_FAULTS), Lookup(s, provider, b, NO_FAULTS);
             && fa.ByEmail? && fa != fb
             && (fb.ByEmail? || (fb.Nobody? && Unique(s.users, nameB, NewAddress(provider, b))))
    ensures var fa, fb := Lookup(s, provider, a, NO_FAULTS), Lookup(s, provider, b, NO_FAULTS);
            var (s1, rb) := Store(s, provider, b, fb, nameB, at, NO_FAULTS);
            var (s2, ra) := Store(s1, provider, a, fa, nameA, at, NO_FAULTS);
            ra.Ok? && rb.Ok? && ra != rb
  {
    RacingCallbacksDisagree(s, provider, a, b, nameA, nameB, at, at, NO_FAULTS, NO_FAULTS);
  }

  function Registrations(): seq<Event> {
    [RegisterEv([1], "a", true, 0), RegisterEv([2], "b", true, 0)]
  }

  const NOBODY := State(map[], 0, map[], map[], [], [])
  const TWO_USERS := State(map[0 := User([1], "a", true, 0), 1 := User([2], "b", true, 0)], 2, map[], map[], [], [])

  lemma TwoFound()
    ensures FindByEmail(TWO_USERS.users, 2, "a") == Some(0) && FindByEmail(TWO_USERS.users, 2, "b") == Some(1)
  {
    var users := TWO_USERS.users;
    assert Lower("a") == "a" && Lower("b") == "b";
    assert FindByEmail(users, 0, "a") == None && FindByEmail(users, 0, "b") == None;
    assert FindByEmail(users, 1, "a") == Some(0) && FindByEmail(users, 1, "b") == None;
  }

  /** Both cases are reached by a run from nothing: two registered, verified accounts, and one identity that the provider
      reports with the address of the one, of the other, or with one it does not vouch for. */
  lemma RaceArises(env: Env, provider: string, id: string)
    ensures var s := Run(env, NOBODY, Registrations());
            var a, b, c := Info(id, "a", true, []), Info(id, "b", true, []), Info(id, "c", false, []);
            && Inv(s) && (provider, id) !in s.links && Unique(s.users, [3], NewAddress(provider, c))
            && Lookup(s, provider, a, NO_FAULTS) == ByEmail(0) && Lookup(s, provider, b, NO_FAULTS) == ByEmail(1)
            && Lookup(s, provider, c, NO_FAULTS) == Nobody
  {
    var es := Registrations();
    RunTwo(env, NOBODY, es[0], es[1]);
    assert Next(env, Next(env, NOBODY, es[0]), es[1]) == TWO_USERS;
    TwoFound();
  }

  // ---------------------------------------------------------------- states and PKCE

  function TimesIssued(issues: seq<Issue>, state: string): nat {
    if issues == [] then 0
    else TimesIssued(issues[..|issues| - 1], state) + (if issues[|issues| - 1].state == state then 1 else 0)
  }

  function TimesExchanged(exchanges: seq<Exchange>, state: string): nat {
    if exchanges == [] then 0
    else TimesExchanged(exchanges[..|exchanges| - 1], state) + (if exchanges[|exchanges| - 1].state == state then 1 else 0)
  }

  /** Each exchange, and each state still waiting, uses up one issue of that state. */
  ghost predicate Budget(s: State) {
    forall state ::
      TimesExchanged(s.exchanges, state) + (if state in s.states then 1 else 0) <= TimesIssued(s.issues, state)
  }

  ghost predicate Matches(env: Env, issues: seq<Issue>, state: string, provider: string, verifier: string) {
    Issue(state, provider, env.s256(verifier)) in issues
  }

  /** Every verifier, waiting or used, hashes to the challenge issued with its state and provider. */
  ghost predicate Paired(env: Env, s: State) {
    && (forall state :: state in s.states ==>
          Matches(env, s.issues, state, s.states[state].provider, s.states[state].verifier))
    && (forall i :: 0 <= i < |s.exchanges| ==>
          Matches(env, s.issues, s.exchanges[i].state, s.exchanges[i].provider, s.exchanges[i].verifier))
  }

  /** What resolving a user leaves alone. */
  lemma ResolveFrame(s: State, provider: string, info: Info, username: Bytes, at: int, f: Faults)
    ensures var s' := Resolve(s, provider, info, username, at, f).0;
            s'.states == s.states && s'.issues == s.issues && s'.exchanges == s.exchanges
  {}

  /** The three things a step can do to the states. */
  lemma StatesStep(env: Env, s: State, e: Event)
    ensures var s' := Next(env, s, e);
            || (s'.issues == s.issues && s'.exchanges == s.exchanges
                && s'.states.Keys <= s.states.Keys && forall k :: k in s'.states ==> s'.states[k] == s.states[k])
            || (e.StartEv? && e.state !in s.states && e.name in env.registry && s'.exchanges == s.exchanges
                && s'.states == s.states[e.state := Pending(env.registry[e.name], e.verifier)]
                && s'.issues == s.issues + [Issue(e.state, env.registry[e.name], env.s256(e.verifier))])
            || (e.CallbackEv? && e.state in s.states && s.states[e.state].provider == e.name && s'.issues == s.issues
                && s'.states == s.states - {e.state}
                && s'.exchanges == s.exchanges + [Exchange(e.state, e.name, s.states[e.state].verifier)])
  {
    match e
    case CallbackEv(name, code, state, answer, at, suffix, f) =>
      if state in s.states && answer.Some? {
        var username := Allocate(env.tables, answer.value.username, Names(s.users), suffix);
        ResolveFrame(Exchanged(s, state, name), name, answer.value, username, at, f);
      }
    case _ =>
  }

  lemma CountSnoc(issues: seq<Issue>, i: Issue, exchanges: seq<Exchange>, x: Exchange, state: string)
    ensures TimesIssued(issues + [i], state) == TimesIssued(issues, state) + (if i.state == state then 1 else 0)
    ensures TimesExchanged(exchanges + [x], state) == TimesExchanged(exchanges, state) + (if x.state == state then 1 else 0)
  {
    assert (issues + [i])[..|issues|] == issues && (exchanges + [x])[..|exchanges|] == exchanges;
  }

  lemma NextKeepsBudget(env: Env, s: State, e: Event)
    requires Budget(s)
    ensures Budget(Next(env, s, e))
  {
    StatesStep(env, s, e);
    var s' := Next(env, s, e);
    forall state
      ensures TimesExchanged(s'.exchanges, state) + (if state in s'.states then 1 else 0) <= TimesIssued(s'.issues, state)
    {
      assert TimesExchanged(s.exchanges, state) + (if state in s.states then 1 else 0) <= TimesIssued(s.issues, state);
      if s'.issues != s.issues {
        CountSnoc(s.issues, s'.issues[|s.issues|], s.exchanges, Exchange("", "", ""), state);
      } else if s'.exchanges != s.exchanges {
        CountSnoc(s.issues, Issue("", "", ""), s.exchanges, s'.exchanges[|s.exchanges|], state);
      }
    }
  }

  lemma NextKeepsPairing(env: Env, s: State, e: Event)
    requires Paired(env, s)
    ensures Paired(env, Next(env, s, e))
  {
    StatesStep(env, s, e);
  }

  lemma {:induction false} RunKeepsStates(env: Env, s: State, es: seq<Event>)
    requires Budget(s) && Paired(env, s)
    ensures Budget(Run(env, s, es)) && Paired(env, Run(env, s, es))
    decreases |es|
  {
    if es != [] {
      RunKeepsStates(env, s, es[..|es| - 1]);
      NextKeepsBudget(env, Run(env, s, es[..|es| - 1]), es[|es| - 1]);
      NextKeepsPairing(env, Run(env, s, es[..|es| - 1]), es[|es| - 1]);
    }
  }

  /** Main result, from an empty store: a state generated once reaches a provider at most once, and only
      the provider it was issued for, with the verifier behind the challenge issued with it. */
  lemma StateIsUsedOnce(env: Env, users: map<int, User>, nextId: int, links: map<(string, string), int>,
                        es: seq<Event>, state: string)
    ensures var s := Run(env, State(users, nextId, links, map[], [], []), es);
            && TimesExchanged(s.exchanges, state) <= TimesIssued(s.issues, state)
            && (forall i :: 0 <= i < |s.exchanges| ==>
                  Issue(s.exchanges[i].state, s.exchanges[i].provider, env.s256(s.exchanges[i].verifier)) in s.issues)
  {
    var start := State(users, nextId, links, map[], [], []);
    RunKeepsStates(env, start, es);
    var s := Run(env, start, es);
    assert TimesExchanged(s.exchanges, state) + (if state in s.states then 1 else 0) <= TimesIssued(s.issues, state);
    forall i | 0 <= i < |s.exchanges|
      ensures Issue(s.exchanges[i].state, s.exchanges[i].provider, env.s256(s.exchanges[i].verifier)) in s.issues
    {
      assert Matches(env, s.issues, s.exchanges[i].state, s.exchanges[i].provider, s.exchanges[i].verifier);
    }
  }

  /** How often a run starts a login under this state. */
  function TimesStarted(es: seq<Event>, state: string): nat {
    if es == [] then 0
    else
      var e := es[|es| - 1];
      TimesStarted(es[..|es| - 1], state) + (if e.StartEv? && e.state == state then 1 else 0)
  }

  /** No two logins are started under one state: what 256 random bits are for. */
  ghost predicate StatesDiffer(es: seq<Event>) {
    forall i, j :: 0 <= i < j < |es| && es[i].StartEv? && es[j].StartEv? ==> es[i].state != es[j].state
  }

  lemma {:induction false} StartedAtMostOnce(es: seq<Event>, state: string)
    requires StatesDiffer(es)
    ensures TimesStarted(es, state) <= 1
    ensures TimesStarted(es, state) == 1 ==> exists i :: 0 <= i < |es| && es[i].StartEv? && es[i].state == state
    decreases |es|
  {
    if es != [] {
      var n := |es| - 1;
      StartedAtMostOnce(es[..n], state);
      if es[n].StartEv? && es[n].state == state {
        assert forall i :: 0 <= i < n && es[i].StartEv? ==> es[..n][i].state != state;
      } else if TimesStarted(es[..n], state) == 1 {
        var i :| 0 <= i < n && es[..n][i].StartEv? && es[..n][i].state == state;
        assert es[i].StartEv?;
      }
    }
  }

  lemma {:induction false} IssuedOnlyByStarts(env: Env, s: State, es: seq<Event>, state: string)
    ensures TimesIssued(Run(env, s, es).issues, state) <= TimesIssued(s.issues, state) + TimesStarted(es, state)
    decreases |es|
  {
    if es != [] {
      var s1, e := Run(env, s, es[..|es| - 1]), es[|es| - 1];
      IssuedOnlyByStarts(env, s, es[..|es| - 1], state);
      StatesStep(env, s1, e);
      if Next(env, s1, e).issues != s1.issues {
        CountSnoc(s1.issues, Next(env, s1, e).issues[|s1.issues|], s1.exchanges, Exchange("", "", ""), state);
      }
    }
  }

  /** With fresh states, each reaches a provider at most once in the whole run. */
  lemma FreshStatesAreUsedOnce(env: Env, users: map<int, User>, nextId: int, links: map<(string, string), int>,
                               es: seq<Event>, state: string)
    requires StatesDiffer(es)
    ensures TimesExchanged(Run(env, State(users, nextId, links, map[], [], []), es).exchanges, state) <= 1
  {
    StateIsUsedOnce(env, users, nextId, links, es, state);
    IssuedOnlyByStarts(env, State(users, nextId, links, map[], [], []), es, state);
    StartedAtMostOnce(es, state);
  }

  /** A state that is not waiting is not exchanged until a login is started under it again. */
  lemma {:induction false} SpentStateStaysUnused(env: Env, s: State, es: seq<Event>, state: string)
    requires state !in s.states && TimesStarted(es, state) == 0
    ensures var s' := Run(env, s, es);
            state !in s'.states && TimesExchanged(s'.exchanges, state) == TimesExchanged(s.exchanges, state)
    decreases |es|
  {
    if es != [] {
      var s1, e := Run(env, s, es[..|es| - 1]), es[|es| - 1];
      SpentStateStaysUnused(env, s, es[..|es| - 1], state);
      StatesStep(env, s1, e);
      if Next(env, s1, e).exchanges != s1.exchanges {
        CountSnoc(s1.issues, Issue("", "", ""), s1.exchanges, Next(env, s1, e).exchanges[|s1.exchanges|], state);
      }
    }
  }

  /** A callback under the wrong provider burns the state: nothing is exchanged, then or in any later run, until a
      login is started under the same state again. */
  lemma MismatchBurnsState(env: Env, s: State, e: Event, es: seq<Event>)
    requires e.CallbackEv? && e.code != "" && e.state != "" && e.name in env.registry && !e.f.consume.Fails?
    requires e.state in s.states && s.states[e.state].provider != e.name
    requires TimesStarted(es, e.state) == 0
    ensures var s' := Next(env, s, e); s'.exchanges == s.exchanges && e.state !in s'.states && s'.users == s.users
    ensures TimesExchanged(Run(env, Next(env, s, e), es).exchanges, e.state) == TimesExchanged(s.exchanges, e.state)
  {
    SpentStateStaysUnused(env, Next(env, s, e), es, e.state);
  }
}
