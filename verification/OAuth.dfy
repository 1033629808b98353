/** Login through an external provider (internal/auth/usecase/oauth.go, internal/auth/provider/pkce.go):
    one-time states, PKCE, account linking.  Handlers are atomic steps; every call in them can fail. */
module OAuth {
  import opened Wrappers
  import opened Utf8
  import opened Usernames

  datatype User = User(username: Bytes, email: string, verified: bool, createdAt: int)
  datatype Info = Info(providerID: string, email: string, emailVerified: bool, username: Bytes)
  datatype Pending = Pending(provider: string, verifier: string)

  // What the outside saw: a stored state and the challenge that went into its authorization URL, and a
  // verifier handed to a provider's Exchange.
  datatype Issue = Issue(state: string, provider: string, challenge: string)
  datatype Exchange = Exchange(state: string, provider: string, verifier: string)

  /** `registry` maps each configured name to the provider's own name; `s256` stands for SHA-256 in
      base64url (section 4.2 of RFC 7636) and is left uninterpreted. */
  datatype Env = Env(registry: map<string, string>, s256: string -> string, tables: Tables)

  datatype State = State(
    users: map<int, User>, nextId: int,
    links: map<(string, string), int>,   // oauth_accounts: (provider, provider id) is unique
    states: map<string, Pending>,        // the one-time states in Redis
    issues: seq<Issue>, exchanges: seq<Exchange>)

  datatype Call = Fine | Fails | Lost
  datatype Faults = Faults(
    consume: Call, lookupLink: bool, loadUser: bool, lookupEmail: bool, link: Call,
    lookupName: bool, create: Call, setVerified: Call, session: bool)
  const NO_FAULTS := Faults(Fine, false, false, false, Fine, false, Fine, Fine, false)

  datatype Result = Err | Ok(user: int)

  // ---------------------------------------------------------------- repositories

  function LowerChar(ch: char): char {
    if 'A' <= ch <= 'Z' then (ch as int + 32) as char else ch
  }

  /** LOWER(email), on ASCII. */
  function Lower(s: string): string {
    if s == "" then "" else [LowerChar(s[0])] + Lower(s[1..])
  }

  /** A user below `n` whose address matches without regard to case. */
  function FindByEmail(users: map<int, User>, n: int, email: string): (r: Option<int>)
    ensures r.Some? ==> r.value in users && Lower(users[r.value].email) == Lower(email)
    decreases n
  {
    if n <= 0 then None
    else
      var r := FindByEmail(users, n - 1, email);
      if r.Some? then r
      else if n - 1 in users && Lower(users[n - 1].email) == Lower(email) then Some(n - 1) else None
  }

  function Names(users: map<int, User>): set<Bytes> {
    set u | u in users :: users[u].username
  }

  predicate Unique(users: map<int, User>, username: Bytes, email: string) {
    forall u :: u in users ==> users[u].username != username && users[u].email != email
  }

  function AddUser(s: State, user: User): State {
    s.(users := s.users[s.nextId := user], nextId := s.nextId + 1)
  }

  // ---------------------------------------------------------------- Start

  function Start(env: Env, s: State, name: string, state: string, verifier: string, save: Call): (State, bool) {
    if name !in env.registry || save.Fails? || state == "" || state in s.states then (s, false)
    else
      var own := env.registry[name];
      (s.(states := s.states[state := Pending(own, verifier)],
          issues := s.issues + [Issue(state, own, env.s256(verifier))]), save.Fine?)
  }

  // ---------------------------------------------------------------- Callback

  /** A user without an address gets one of the identity's own. */
  function NewAddress(provider: string, info: Info): string {
    if info.email == "" then provider + "-" + info.providerID + "@oauth.local" else info.email
  }

  /** createOAuthUser, with the name the allocation picked.  The insert stores no verification flag; a second
      write sets it, and may fail. */
  function CreateUser(s: State, provider: string, info: Info, username: Bytes, at: int, f: Faults): (State, Result) {
    if f.lookupName then (s, Err)
    else
      var email := NewAddress(provider, info);
      var wantVerified := info.emailVerified || info.email == "";
      if f.create.Fails? || !Unique(s.users, username, email) then (s, Err)
      else
        var id := s.nextId;
        var s1 := AddUser(s, User(username, email, false, at));
        if f.create.Lost? then (s1, Err)
        else
          var s2 := if wantVerified && !f.setVerified.Fails?
                    then s1.(users := s1.users[id := s1.users[id].(verified := true)]) else s1;
          if f.link.Fails? || (provider, info.providerID) in s2.links then (s2, Err)
          else (s2.(links := s2.links[(provider, info.providerID) := id]), if f.link.Lost? then Err else Ok(id))
  }

  /** Links an account found by address.  A conflict on the insert is tolerated. */
  function LinkExisting(s: State, key: (string, string), u: int, c: Call): (State, Result) {
    if c.Fails? then (s, Err)
    else if key in s.links then (s, Ok(u))
    else (s.(links := s.links[key := u]), if c.Lost? then Err else Ok(u))
  }

  /** What resolveUser has found out before it writes: the answer, an account by address, or nobody. */
  datatype Found = Settled(r: Result) | ByEmail(user: int) | Nobody

  /** The reads of resolveUser: an existing link wins; then a verified address. */
  function Lookup(s: State, provider: string, info: Info, f: Faults): Found {
    var key := (provider, info.providerID);
    if f.lookupLink then Settled(Err)
    else if key in s.links then
      Settled(if f.loadUser || s.links[key] !in s.users then Err else Ok(s.links[key]))
    else if info.email == "" || !info.emailVerified then Nobody
    else if f.lookupEmail then Settled(Err)
    else match FindByEmail(s.users, s.nextId, info.email)
      case None => Nobody
      case Some(u) => if s.users[u].verified then ByEmail(u) else Settled(Err)
  }

  /** The writes of resolveUser, after what was found: link the account, or make a new user under `username`. */
  function Store(s: State, provider: string, info: Info, found: Found, username: Bytes, at: int, f: Faults): (State, Result) {
    match found
    case Settled(r) => (s, r)
    case ByEmail(u) => LinkExisting(s, (provider, info.providerID), u, f.link)
    case Nobody => CreateUser(s, provider, info, username, at, f)
  }

  /** resolveUser, with nothing in between. */
  function Resolve(s: State, provider: string, info: Info, username: Bytes, at: int, f: Faults): (State, Result) {
    Store(s, provider, info, Lookup(s, provider, info, f), username, at, f)
  }

  /** Callback.  `answer` is what the provider's Exchange returns, if anything. */
  function Callback(env: Env, s: State, name: string, code: string, state: string, answer: Option<Info>,
                    at: int, suffix: Bytes, f: Faults): (State, Result) {
    if code == "" || state == "" || name !in env.registry || f.consume.Fails? || state !in s.states then (s, Err)
    else
      var pending := s.states[state];
      var s1 := s.(states := s.states - {state});
      if f.consume.Lost? || pending.provider != name then (s1, Err)
      else
        var s2 := s1.(exchanges := s1.exchanges + [Exchange(state, name, pending.verifier)]);
        if answer.None? then (s2, Err)
        else
          var username := Allocate(env.tables, answer.value.username, Names(s.users), suffix);
          var (s3, r) := Resolve(s2, name, answer.value, username, at, f);
          (s3, if f.session then Err else r)
  }

  // ---------------------------------------------------------------- runs

  datatype Event =
    | StartEv(name: string, state: string, verifier: string, save: Call)
    | CallbackEv(name: string, code: string, state: string, answer: Option<Info>, at: int, suffix: Bytes, f: Faults)
    | ExpireEv(state: string)
    | RegisterEv(username: Bytes, email: string, autoVerify: bool, at: int)
    | ConfirmEv(u: int)
    | RenameEv(u: int, username: Bytes)
    | ChangeEmailEv(u: int, email: string)
    | CleanupEv(before: int)

  /** CleanupUnverified: old unverified users go, and their links with them. */
  function Cleanup(s: State, before: int): State {
    var left := map u | u in s.users && (s.users[u].verified || s.users[u].createdAt >= before) :: s.users[u];
    s.(users := left, links := map k | k in s.links && s.links[k] in left :: s.links[k])
  }

  function Next(env: Env, s: State, e: Event): State {
    match e
    case StartEv(name, state, verifier, save) => Start(env, s, name, state, verifier, save).0
    case CallbackEv(name, code, state, answer, at, suffix, f) =>
      Callback(env, s, name, code, state, answer, at, suffix, f).0
    case ExpireEv(state) => s.(states := s.states - {state})
    case RegisterEv(username, email, autoVerify, at) =>
      if email != "" && Unique(s.users, username, email) then AddUser(s, User(username, email, autoVerify, at)) else s
    case ConfirmEv(u) => if u in s.users then s.(users := s.users[u := s.users[u].(verified := true)]) else s
    case RenameEv(u, username) =>
      if u in s.users && forall v :: v in s.users && v != u ==> s.users[v].username != username
      then s.(users := s.users[u := s.users[u].(username := username)]) else s
    case ChangeEmailEv(u, email) =>
      if u in s.users && email != "" && forall v :: v in s.users && v != u ==> s.users[v].email != email
      then s.(users := s.users[u := s.users[u].(email := email)]) else s
    case CleanupEv(before) => Cleanup(s, before)
  }

  function Run(env: Env, s: State, es: seq<Event>): State {
    if es == [] then s else Next(env, Run(env, s, es[..|es| - 1]), es[|es| - 1])
  }
}
