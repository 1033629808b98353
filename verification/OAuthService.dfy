/** The login handlers as they run, call by call (internal/auth/usecase/oauth.go:53-204).  Each ends in
    the state, and with the answer, of its function in module OAuth. */
module OAuthService {
  import opened Wrappers
  import opened Utf8
  import opened Usernames
  import opened OAuth

  datatype Insert = Inserted | Conflict | Failed

  class Service {
    const env: Env
    var users: map<int, User>
    var nextId: int
    var links: map<(string, string), int>
    var states: map<string, Pending>
    ghost var issues: seq<Issue>
    ghost var exchanges: seq<Exchange>

    ghost function Rows(): State
      reads this
    {
      State(users, nextId, links, states, issues, exchanges)
    }

    constructor (env: Env)
      ensures this.env == env && Rows() == State(map[], 1, map[], map[], [], [])
    {
      this.env := env;
      users, nextId, links, states := map[], 1, map[], map[];
      issues, exchanges := [], [];
    }

    /** Hands out a state and the challenge that goes into the authorization URL. */
    method StartLogin(name: string, state: string, verifier: string, save: Call)
      returns (ok: bool, challenge: string)
      modifies this
      ensures (Rows(), ok) == Start(env, old(Rows()), name, state, verifier, save)
      ensures ok ==> issues == old(issues) + [Issue(state, env.registry[name], challenge)]
    {
      challenge := "";
      if name !in env.registry {
        return false, challenge;
      }
      challenge := env.s256(verifier);
      // Save: SET NX
      if save.Fails? || state == "" || state in states {
        return false, challenge;
      }
      states := states[state := Pending(env.registry[name], verifier)];
      issues := issues + [Issue(state, env.registry[name], challenge)];
      return save.Fine?, challenge;
    }

    /** GETDEL: at most one caller ever gets a state. */
    method Consume(state: string, c: Call) returns (pending: Option<Pending>)
      modifies this`states
      ensures states == if c.Fails? || state !in old(states) then old(states) else old(states) - {state}
      ensures pending == if c.Fine? && state in old(states) then Some(old(states)[state]) else None
    {
      if c.Fails? || state !in states {
        return None;
      }
      pending := if c.Fine? then Some(states[state]) else None;
      states := states - {state};
    }

    method HandleCallback(name: string, code: string, state: string, answer: Option<Info>, at: int, suffix: Bytes, f: Faults)
      returns (r: Result)
      requires |suffix| == 6
      modifies this
      ensures (Rows(), r) == Callback(env, old(Rows()), name, code, state, answer, at, suffix, f)
    {
      if code == "" || state == "" {
        return Err;
      }
      if name !in env.registry {
        return Err;
      }
      var pending := Consume(state, f.consume);
      if pending.None? || pending.value.provider != name {
        return Err;
      }
      exchanges := exchanges + [Exchange(state, name, pending.value.verifier)];
      if answer.None? {
        return Err;
      }
      r := ResolveUser(name, answer.value, at, suffix, f);
      if f.session {
        r := Err;
      }
    }

    /** The insert into oauth_accounts, whose key makes a second one a conflict. */
    method CreateLink(key: (string, string), u: int, c: Call) returns (made: Insert)
      modifies this`links
      ensures made == if c.Fails? then Failed else if key in old(links) then Conflict
                      else if c.Lost? then Failed else Inserted
      ensures links == if c.Fails? || key in old(links) then old(links) else old(links)[key := u]
    {
      if c.Fails? {
        return Failed;
      }
      if key in links {
        return Conflict;
      }
      links := links[key := u];
      return if c.Fine? then Inserted else Failed;
    }

    method ResolveUser(name: string, info: Info, at: int, suffix: Bytes, f: Faults) returns (r: Result)
      requires |suffix| == 6
      modifies this`users, this`nextId, this`links
      ensures var username := Allocate(env.tables, info.username, Names(old(users)), suffix);
              (Rows(), r) == Resolve(old(Rows()), name, info, username, at, f)
    {
      var key := (name, info.providerID);
      if f.lookupLink {
        return Err;
      }
      if key in links {
        return if f.loadUser || links[key] !in users then Err else Ok(links[key]);
      }
      if info.email != "" && info.emailVerified {
        if f.lookupEmail {
          return Err;
        }
        var existing := FindByEmail(users, nextId, info.email);
        if existing.Some? {
          if !users[existing.value].verified {
            return Err;
          }
          var linked := CreateLink(key, existing.value, f.link);
          return if linked == Failed then Err else Ok(existing.value);
        }
      }
      r := CreateOAuthUser(name, info, at, suffix, f);
    }

    method CreateOAuthUser(name: string, info: Info, at: int, suffix: Bytes, f: Faults) returns (r: Result)
      requires |suffix| == 6
      modifies this`users, this`nextId, this`links
      ensures var username := Allocate(env.tables, info.username, Names(old(users)), suffix);
              (Rows(), r) == CreateUser(old(Rows()), name, info, username, at, f)
    {
      var username, _ := GenerateUsername(env.tables, info.username, Names(users), suffix, if f.lookupName then {1} else {});
      if username.None? {
        return Err;
      }
      var email := NewAddress(name, info);
      if f.create.Fails? || !Unique(users, username.value, email) {
        return Err;
      }
      var id := nextId;
      users := users[id := User(username.value, email, false, at)];
      nextId := nextId + 1;
      if f.create.Lost? {
        return Err;
      }
      if (info.emailVerified || info.email == "") && !f.setVerified.Fails? {
        users := users[id := users[id].(verified := true)];
      }
      var linked := CreateLink((name, info.providerID), id, f.link);
      return if linked == Inserted then Ok(id) else Err;
    }
  }
}
