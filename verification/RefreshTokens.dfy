/** Refresh-token rotation (app/api/auth_routes.py, app/core/refresh_store.py). A token stands for its hash, the hash being
    injective, and tokens are drawn fresh. First each handler is one atomic step; then its read and its writes are two. */
module RefreshTokens {
  import opened Wrappers

  type Token = string

  datatype Record = Record(user: nat, expiry: int, revoked: bool)

  /** The tables, and two histories: the users who signed up or logged in, and the tokens that a refresh accepted. */
  datatype State = State(tokens: map<Token, Record>, users: map<string, nat>, granted: multiset<nat>,
                         accepted: multiset<Token>)

  const START := State(map[], map[], multiset{}, multiset{})

  /** A request with what the handler draws: the id of a new user, a fresh token and its expiry, and the clock. */
  datatype Request = Signup(email: string, id: nat, minted: Token, expiry: int)
                   | Login(email: string, passwordOk: bool, minted: Token, expiry: int)
                   | Refresh(token: Token, now: int, minted: Token, expiry: int)
                   | Logout(token: Token)

  datatype Reply = Issued(user: nat, refresh: Token) | Conflict | Denied | Unknown | Reused | Expired | Done

  predicate UserExists(s: State, id: nat) {
    exists e :: e in s.users && s.users[e] == id
  }

  function Stored(s: State, user: nat, token: Token, expiry: int): State {
    s.(tokens := s.tokens[token := Record(user, expiry, false)])
  }

  function Revoked(s: State, token: Token): State {
    if token in s.tokens then s.(tokens := s.tokens[token := s.tokens[token].(revoked := true)]) else s
  }

  function AllRevoked(s: State, user: nat): State {
    s.(tokens := map t | t in s.tokens ::
         if s.tokens[t].user == user then s.tokens[t].(revoked := true) else s.tokens[t])
  }

  /** What `refresh` decides from the record it reads. */
  function Verdict(s: State, token: Token, now: int): Reply {
    if token !in s.tokens then Unknown
    else if s.tokens[token].revoked then Reused
    else if s.tokens[token].expiry <= now then Expired
    else if !UserExists(s, s.tokens[token].user) then Unknown
    else Done
  }

  /** One handler, as a whole. */
  function Handled(s: State, r: Request): (State, Reply) {
    match r
    case Signup(email, id, minted, expiry) =>
      if email in s.users then (s, Conflict)
      else (Stored(s, id, minted, expiry).(users := s.users[email := id], granted := s.granted + multiset{id}), Issued(id, minted))
    case Login(email, passwordOk, minted, expiry) =>
      if email !in s.users || !passwordOk then (s, Denied)
      else (Stored(s, s.users[email], minted, expiry).(granted := s.granted + multiset{s.users[email]}),
            Issued(s.users[email], minted))
    case Refresh(token, now, minted, expiry) =>
      (match Verdict(s, token, now)
       case Done =>
         var user := s.tokens[token].user;
         (Stored(Revoked(s, token), user, minted, expiry).(accepted := s.accepted + multiset{token}), Issued(user, minted))
       case Reused => (AllRevoked(s, s.tokens[token].user), Reused)
       case refused => (s, refused))
    case Logout(token) => (Revoked(s, token), Done)
  }

  // ------------------------------------------------------------------ the handlers as the source writes them

  class Auth {
    var tokens: map<Token, Record>
    var users: map<string, nat>
    ghost var granted: multiset<nat>
    ghost var accepted: multiset<Token>

    constructor ()
      ensures Value() == START
    {
      tokens, users := map[], map[];
      granted, accepted := multiset{}, multiset{};
    }

    ghost function Value(): State
      reads this
    {
      State(tokens, users, granted, accepted)
    }

    method Revoke(token: Token)
      modifies `tokens
      ensures tokens == Revoked(old(Value()), token).tokens
    {
      if token in tokens {
        tokens := tokens[token := tokens[token].(revoked := true)];
      }
    }

    method RevokeAllForUser(user: nat)
      modifies `tokens
      ensures tokens == AllRevoked(old(Value()), user).tokens
    {
      tokens := map t | t in tokens :: if tokens[t].user == user then tokens[t].(revoked := true) else tokens[t];
    }

    /** `_issue_tokens`. */
    method Issue(user: nat, token: Token, expiry: int) returns (r: Reply)
      modifies `tokens
      ensures tokens == old(tokens)[token := Record(user, expiry, false)] && r == Issued(user, token)
    {
      tokens := tokens[token := Record(user, expiry, false)];
      return Issued(user, token);
    }

    method SignupHandler(email: string, id: nat, minted: Token, expiry: int) returns (r: Reply)
      modifies this
      ensures (Value(), r) == Handled(old(Value()), Signup(email, id, minted, expiry))
    {
      if email in users {
        return Conflict;
      }
      users := users[email := id];
      granted := granted + multiset{id};
      r := Issue(id, minted, expiry);
    }

    method LoginHandler(email: string, passwordOk: bool, minted: Token, expiry: int) returns (r: Reply)
      modifies this
      ensures (Value(), r) == Handled(old(Value()), Login(email, passwordOk, minted, expiry))
    {
      if email !in users {
        return Denied;
      }
      if !passwordOk {
        return Denied;
      }
      granted := granted + multiset{users[email]};
      r := Issue(users[email], minted, expiry);
    }

    method RefreshHandler(token: Token, now: int, minted: Token, expiry: int) returns (r: Reply)
      modifies this
      ensures (Value(), r) == Handled(old(Value()), Refresh(token, now, minted, expiry))
    {
      if token !in tokens {
        return Unknown;
      }
      var rec := tokens[token];
      if rec.revoked {
        RevokeAllForUser(rec.user);
        return Reused;
      }
      if rec.expiry <= now {
        return Expired;
      }
      if !exists e :: e in users && users[e] == rec.user {
        return Unknown;
      }
      Revoke(token);
      accepted := accepted + multiset{token};
      r := Issue(rec.user, minted, expiry);
    }

    method LogoutHandler(token: Token) returns (r: Reply)
      modifies this
      ensures (Value(), r) == Handled(old(Value()), Logout(token))
    {
      Revoke(token);
      return Done;
    }
  }

  // ------------------------------------------------------------------ histories

  function Run(s: State, requests: seq<Request>): State {
    if requests == [] then s else Handled(Run(s, requests[..|requests| - 1]), requests[|requests| - 1]).0
  }

  predicate DrawsFresh(s: State, r: Request) {
    match r
    case Signup(_, id, minted, _) => minted !in s.tokens && !UserExists(s, id)
    case Login(_, _, minted, _) => minted !in s.tokens
    case Refresh(_, _, minted, _) => minted !in s.tokens
    case Logout(_) => true
  }

  /** Every token and user id is new when it is drawn. */
  predicate AllFresh(s: State, requests: seq<Request>) {
    requests == [] ||
    (AllFresh(s, requests[..|requests| - 1]) &&
     DrawsFresh(Run(s, requests[..|requests| - 1]), requests[|requests| - 1]))
  }

  function Live(s: State, user: nat): set<Token> {
    set t | t in s.tokens && s.tokens[t].user == user && !s.tokens[t].revoked
  }

  /** An accepted token was accepted once and is revoked, and no user has more live tokens than grants. */
  ghost predicate Inv(s: State) {
    && (forall t :: t in s.accepted ==> s.accepted[t] == 1 && t in s.tokens && s.tokens[t].revoked)
    && (forall user :: |Live(s, user)| <= s.granted[user])
  }

  /** What was issued stays, for the same user and until the same time, and what was revoked stays revoked. */
  ghost predicate Grows(s: State, s': State) {
    forall t :: t in s.tokens ==> t in s'.tokens && Ages(s.tokens[t], s'.tokens[t])
  }

  predicate Ages(r: Record, r': Record) {
    r'.user == r.user && r'.expiry == r.expiry && (r.revoked ==> r'.revoked)
  }

  lemma HandledGrows(s: State, r: Request)
    requires DrawsFresh(s, r)
    ensures Grows(s, Handled(s, r).0)
  {
  }

  lemma {:induction false} RunGrows(s: State, requests: seq<Request>)
    requires AllFresh(s, requests)
    ensures Grows(s, Run(s, requests))
  {
    if requests != [] {
      var n := |requests| - 1;
      RunGrows(s, requests[..n]);
      HandledGrows(Run(s, requests[..n]), requests[n]);
    }
  }

  /** Issuing one token to a user, after revoking one of its live tokens or along with a grant. */
  lemma LiveAfterStore(s: State, user: nat, token: Token, expiry: int, other: nat)
    requires token !in s.tokens
    ensures |Live(Stored(s, user, token, expiry), other)| == |Live(s, other)| + if other == user then 1 else 0
  {
    assert Live(Stored(s, user, token, expiry), other) == Live(s, other) + if other == user then {token} else {};
  }

  lemma LiveAfterRevoke(s: State, token: Token, other: nat)
    ensures |Live(Revoked(s, token), other)|
         == |Live(s, other)| - if token in Live(s, other) then 1 else 0
  {
    assert Live(Revoked(s, token), other) == Live(s, other) - {token};
  }

  lemma LiveAfterAll(s: State, user: nat, other: nat)
    ensures |Live(AllRevoked(s, user), other)| <= |Live(s, other)|
  {
    assert Live(AllRevoked(s, user), other) == if other == user then {} else Live(s, other);
  }

  lemma LiveAfterGrant(s: State, r: Request, user: nat)
    requires (r.Signup? || r.Login?) && DrawsFresh(s, r) && |Live(s, user)| <= s.granted[user]
    ensures |Live(Handled(s, r).0, user)| <= Handled(s, r).0.granted[user]
  {
    var s' := Handled(s, r).0;
    if s' != s {
      var owner := if r.Signup? then r.id else s.users[r.email];
      LiveAfterStore(s, owner, r.minted, r.expiry, user);
      assert Live(s', user) == Live(Stored(s, owner, r.minted, r.expiry), user);
    }
  }

  lemma LiveAfterRefresh(s: State, r: Request, user: nat)
    requires r.Refresh? && DrawsFresh(s, r)
    ensures |Live(Handled(s, r).0, user)| <= |Live(s, user)|
  {
    if Verdict(s, r.token, r.now) == Done {
      var s1, owner := Revoked(s, r.token), s.tokens[r.token].user;
      LiveAfterRevoke(s, r.token, user);
      LiveAfterStore(s1, owner, r.minted, r.expiry, user);
      assert Live(Handled(s, r).0, user) == Live(Stored(s1, owner, r.minted, r.expiry), user);
      assert r.token in Live(s, owner);
    } else if Verdict(s, r.token, r.now) == Reused {
      LiveAfterAll(s, s.tokens[r.token].user, user);
    }
  }

  lemma LiveKept(s: State, r: Request, user: nat)
    requires |Live(s, user)| <= s.granted[user] && DrawsFresh(s, r)
    ensures |Live(Handled(s, r).0, user)| <= Handled(s, r).0.granted[user]
  {
    match r
    case Signup(_, _, _, _) => LiveAfterGrant(s, r, user);
    case Login(_, _, _, _) => LiveAfterGrant(s, r, user);
    case Refresh(_, _, _, _) => LiveAfterRefresh(s, r, user);
    case Logout(token) => LiveAfterRevoke(s, token, user);
  }

  lemma AcceptedKept(s: State, r: Request)
    requires Inv(s) && DrawsFresh(s, r)
    ensures var s' := Handled(s, r).0;
      forall t :: t in s'.accepted ==> s'.accepted[t] == 1 && t in s'.tokens && s'.tokens[t].revoked
  {
    HandledGrows(s, r);
  }

  lemma {:induction false} RunKeeps(s: State, requests: seq<Request>)
    requires Inv(s) && AllFresh(s, requests)
    ensures Inv(Run(s, requests))
  {
    if requests != [] {
      var n := |requests| - 1;
      RunKeeps(s, requests[..n]);
      var s' := Run(s, requests[..n]);
      AcceptedKept(s', requests[n]);
      forall user ensures |Live(Handled(s', requests[n]).0, user)| <= Handled(s', requests[n]).0.granted[user] {
        LiveKept(s', requests[n], user);
      }
    }
  }

  /** Over any history, each refresh token is accepted at most once, and a user's unrevoked tokens never outnumber that
      user's signups and logins. */
  lemma AcceptedAtMostOnce(requests: seq<Request>)
    requires AllFresh(START, requests)
    ensures var s := Run(START, requests);
      (forall t :: s.accepted[t] <= 1) && (forall user :: |Live(s, user)| <= s.granted[user])
  {
    assert forall user :: Live(START, user) == {};
    RunKeeps(START, requests);
  }

  lemma {:induction false} RunSplit(s: State, a: seq<Request>, b: seq<Request>)
    ensures Run(s, a + b) == Run(Run(s, a), b)
    ensures AllFresh(s, a + b) ==> AllFresh(s, a) && AllFresh(Run(s, a), b)
  {
    if b == [] {
      assert a + b == a;
    } else {
      assert (a + b)[..|a + b| - 1] == a + b[..|b| - 1];
      RunSplit(s, a, b[..|b| - 1]);
    }
  }

  /** A revoked token is never accepted again. */
  lemma {:induction false} RevokedIsDead(s: State, requests: seq<Request>, t: Token)
    requires t in s.tokens && s.tokens[t].revoked && AllFresh(s, requests)
    ensures Run(s, requests).accepted[t] == s.accepted[t]
    ensures t in Run(s, requests).tokens && Run(s, requests).tokens[t].revoked
  {
    if requests != [] {
      var n := |requests| - 1;
      RevokedIsDead(s, requests[..n], t);
      HandledGrows(Run(s, requests[..n]), requests[n]);
    }
  }

  /** After a replay of a revoked token, nothing that was issued earlier to its user is ever accepted again. */
  lemma ReplayKillsTheFamily(s: State, token: Token, now: int, minted: Token, expiry: int, later: seq<Request>, t: Token)
    requires Verdict(s, token, now) == Reused
    requires t in s.tokens && s.tokens[t].user == s.tokens[token].user
    requires AllFresh(Handled(s, Refresh(token, now, minted, expiry)).0, later)
    ensures Run(Handled(s, Refresh(token, now, minted, expiry)).0, later).accepted[t] == s.accepted[t]
  {
    RevokedIsDead(Handled(s, Refresh(token, now, minted, expiry)).0, later, t);
  }

  /** After a logout its token is never accepted again. */
  lemma LogoutIsFinal(s: State, token: Token, later: seq<Request>)
    requires token in s.tokens && AllFresh(Handled(s, Logout(token)).0, later)
    ensures Run(Handled(s, Logout(token)).0, later).accepted[token] == s.accepted[token]
  {
    RevokedIsDead(Handled(s, Logout(token)).0, later, token);
  }

  // ------------------------------------------------------------------ who gets a token, and how long it works

  /** What a request has to show for a token of `user` that expires at `expiry`: a new account, the password of its account,
      or an unrevoked and unexpired token of the same user. */
  predicate Earns(s: State, r: Request, user: nat, token: Token, expiry: int) {
    match r
    case Signup(email, id, minted, e) => email !in s.users && id == user && minted == token && e == expiry
    case Login(email, passwordOk, minted, e) =>
      passwordOk && email in s.users && s.users[email] == user && minted == token && e == expiry
    case Refresh(t, now, minted, e) =>
      && t in s.tokens && s.tokens[t].user == user && !s.tokens[t].revoked && now < s.tokens[t].expiry
      && minted == token && e == expiry
    case Logout(_) => false
  }

  /** A request is answered with a token exactly when it earns one (and, for a refresh, the user still exists); the token is
      then in the table, live, for that user and until that time. */
  lemma IssuedIff(s: State, r: Request, user: nat, token: Token)
    ensures Handled(s, r).1 == Issued(user, token) <==>
      (exists expiry :: Earns(s, r, user, token, expiry)) && (r.Refresh? ==> UserExists(s, user))
    ensures Handled(s, r).1 == Issued(user, token) ==>
      exists expiry :: Earns(s, r, user, token, expiry) && token in Handled(s, r).0.tokens &&
                       Handled(s, r).0.tokens[token] == Record(user, expiry, false)
  {
    if !r.Logout? {
      assert Handled(s, r).1 == Issued(user, token) ==> Earns(s, r, user, token, r.expiry);
    }
  }

  /** Nothing but an issued token is ever new in the table. */
  lemma NewTokenIsIssued(s: State, r: Request, t: Token)
    requires t !in s.tokens && t in Handled(s, r).0.tokens
    ensures var rec := Handled(s, r).0.tokens[t];
      Handled(s, r).1 == Issued(rec.user, t) && Earns(s, r, rec.user, t, rec.expiry) && !rec.revoked
  {
  }

  /** Over any history, every token in the table was earned, by the user and until the time that its record says. */
  lemma {:induction false} EveryTokenWasEarned(requests: seq<Request>, t: Token) returns (i: nat)
    requires AllFresh(START, requests) && t in Run(START, requests).tokens
    ensures var rec := Run(START, requests).tokens[t];
      i < |requests| && Earns(Run(START, requests[..i]), requests[i], rec.user, t, rec.expiry)
  {
    var n := |requests| - 1;
    var s := Run(START, requests[..n]);
    if t in s.tokens {
      i := EveryTokenWasEarned(requests[..n], t);
      HandledGrows(s, requests[n]);
      assert requests[..n][..i] == requests[..i];
    } else {
      NewTokenIsIssued(s, requests[n], t);
      i := n;
    }
  }

  /** The users of all tokens exist. */
  ghost predicate Owned(s: State) {
    forall t :: t in s.tokens ==> UserExists(s, s.tokens[t].user)
  }

  lemma HandledKeepsUsers(s: State, r: Request, id: nat)
    requires UserExists(s, id)
    ensures UserExists(Handled(s, r).0, id)
  {
    var e :| e in s.users && s.users[e] == id;
    assert e in Handled(s, r).0.users && Handled(s, r).0.users[e] == id;
  }

  lemma HandledKeepsOwned(s: State, r: Request)
    requires Owned(s) && DrawsFresh(s, r)
    ensures Owned(Handled(s, r).0)
  {
    var s' := Handled(s, r).0;
    HandledGrows(s, r);
    forall t | t in s'.tokens ensures UserExists(s', s'.tokens[t].user) {
      if t in s.tokens {
        HandledKeepsUsers(s, r, s.tokens[t].user);
      } else {
        NewTokenIsIssued(s, r, t);
        NewTokenHasUser(s, r, t);
      }
    }
  }

  lemma NewTokenHasUser(s: State, r: Request, t: Token)
    requires Owned(s) && t !in s.tokens && t in Handled(s, r).0.tokens
    ensures UserExists(Handled(s, r).0, Handled(s, r).0.tokens[t].user)
  {
    NewTokenIsIssued(s, r, t);
    var s' := Handled(s, r).0;
    match r
    case Signup(email, _, _, _) => assert s'.users[email] == s'.tokens[t].user;
    case Login(email, _, _, _) => assert s'.users[email] == s'.tokens[t].user;
    case Refresh(token, _, _, _) => HandledKeepsUsers(s, r, s.tokens[token].user);
  }

  lemma {:induction false} RunKeepsOwned(requests: seq<Request>)
    requires AllFresh(START, requests)
    ensures Owned(Run(START, requests))
  {
    if requests != [] {
      var n := |requests| - 1;
      RunKeepsOwned(requests[..n]);
      HandledKeepsOwned(Run(START, requests[..n]), requests[n]);
    }
  }

  /** `t` was issued until `expiry` in some state of the history, and `later` followed. */
  predicate IssuedThen(before: seq<Request>, r: Request, later: seq<Request>, user: nat, t: Token, expiry: int) {
    && AllFresh(START, before + [r] + later)
    && Handled(Run(START, before), r).1 == Issued(user, t)
    && Earns(Run(START, before), r, user, t, expiry)
  }

  lemma RecordStays(before: seq<Request>, r: Request, later: seq<Request>, user: nat, t: Token, expiry: int)
    requires IssuedThen(before, r, later, user, t, expiry)
    ensures var s := Run(START, before + [r] + later);
      t in s.tokens && s.tokens[t].user == user && s.tokens[t].expiry == expiry
  {
    RunSplit(START, before + [r], later);
    RunSplit(START, before, [r]);
    OneRequest(Run(START, before), r);
    IssuedIff(Run(START, before), r, user, t);
    RunGrows(Run(START, before + [r]), later);
  }

  lemma OneRequest(s: State, r: Request)
    ensures Run(s, [r]) == Handled(s, r).0
  {
    assert [r][..0] == [];
  }

  /** Over any history, a refresh at or after the time until which its token was issued is never accepted: it issues
      nothing and, unless the token is revoked, changes nothing. */
  lemma ExpiredIsRefused(before: seq<Request>, r: Request, later: seq<Request>, user: nat, t: Token, expiry: int,
                         now: int, minted: Token, e: int)
    requires IssuedThen(before, r, later, user, t, expiry) && now >= expiry
    ensures var s := Run(START, before + [r] + later);
      var (s', reply) := Handled(s, Refresh(t, now, minted, e));
      && t in s.tokens && !reply.Issued? && s'.accepted == s.accepted && s'.granted == s.granted && s'.tokens.Keys == s.tokens.Keys
      && (!s.tokens[t].revoked ==> s' == s && reply == Expired)
  {
    RecordStays(before, r, later, user, t, expiry);
  }

  /** And a refresh before that time, with a token that is not revoked, is accepted: the token is rotated. */
  lemma LiveIsAccepted(before: seq<Request>, r: Request, later: seq<Request>, user: nat, t: Token, expiry: int,
                       now: int, minted: Token, e: int)
    requires IssuedThen(before, r, later, user, t, expiry) && now < expiry
    requires var tokens := Run(START, before + [r] + later).tokens;
      minted !in tokens && (t in tokens ==> !tokens[t].revoked)
    ensures var s := Run(START, before + [r] + later);
      var (s', reply) := Handled(s, Refresh(t, now, minted, e));
      && t in s.tokens && reply == Issued(user, minted)
      && s'.tokens == s.tokens[t := s.tokens[t].(revoked := true)][minted := Record(user, e, false)]
      && s'.accepted == s.accepted + multiset{t} && s'.users == s.users
  {
    RecordStays(before, r, later, user, t, expiry);
    RunKeepsOwned(before + [r] + later);
  }

  /** What revokes a token: its own refresh or logout, or the replay of a revoked token of the same user. */
  predicate MayRevoke(s: State, r: Request, t: Token)
    requires t in s.tokens
  {
    || r == Logout(t)
    || (r.Refresh? && r.token == t && Handled(s, r).1.Issued?)
    || (r.Refresh? && r.token in s.tokens && s.tokens[r.token].revoked && s.tokens[r.token].user == s.tokens[t].user)
  }

  /** A request revokes a live token if and only if it is one of these. */
  lemma RevokesIff(s: State, r: Request, t: Token)
    requires DrawsFresh(s, r) && t in s.tokens && !s.tokens[t].revoked
    ensures t in Handled(s, r).0.tokens && (Handled(s, r).0.tokens[t].revoked <==> MayRevoke(s, r, t))
  {
  }

  /** So a token works until it expires, unless it is used, logged out, or one of its user's tokens is replayed. */
  lemma {:induction false} WorksUntilRevoked(s: State, later: seq<Request>, t: Token)
    requires AllFresh(s, later) && t in s.tokens && !s.tokens[t].revoked
    requires forall i :: 0 <= i < |later| && t in Run(s, later[..i]).tokens ==> !MayRevoke(Run(s, later[..i]), later[i], t)
    ensures t in Run(s, later).tokens && !Run(s, later).tokens[t].revoked
  {
    if later != [] {
      var n := |later| - 1;
      forall i | 0 <= i < n && t in Run(s, later[..n][..i]).tokens
        ensures !MayRevoke(Run(s, later[..n][..i]), later[..n][i], t)
      {
        assert later[..n][..i] == later[..i];
      }
      WorksUntilRevoked(s, later[..n], t);
      RevokesIff(Run(s, later[..n]), later[n], t);
    }
  }

  /** How a refresh is refused. */
  lemma RefusalsIff(s: State, t: Token, now: int, minted: Token, expiry: int)
    ensures var (s', reply) := Handled(s, Refresh(t, now, minted, expiry));
      && (reply == Reused <==> t in s.tokens && s.tokens[t].revoked)
      && (reply == Expired <==> t in s.tokens && !s.tokens[t].revoked && s.tokens[t].expiry <= now)
      && (reply == Unknown <==>
            t !in s.tokens || (!s.tokens[t].revoked && now < s.tokens[t].expiry && !UserExists(s, s.tokens[t].user)))
      && (reply == Unknown || reply == Expired ==> s' == s)
      && (reply == Reused ==> FamilyRevoked(s, s', s.tokens[t].user))
  {
  }

  /** All tokens of the user are revoked, and nothing else is different. */
  predicate FamilyRevoked(s: State, s': State, user: nat) {
    && s'.users == s.users && s'.granted == s.granted && s'.accepted == s.accepted && s'.tokens.Keys == s.tokens.Keys
    && forall u :: u in s.tokens ==>
         s'.tokens[u] == if s.tokens[u].user == user then s.tokens[u].(revoked := true) else s.tokens[u]
  }

  /** A login with a wrong password, or for an email that no one signed up with, changes nothing; any other one gives a token
      to the user who signed up. */
  lemma LoginIff(s: State, email: string, passwordOk: bool, minted: Token, expiry: int)
    requires minted !in s.tokens
    ensures var (s', reply) := Handled(s, Login(email, passwordOk, minted, expiry));
      if passwordOk && email in s.users
      then && reply == Issued(s.users[email], minted) && s'.users == s.users
           && s'.tokens == s.tokens[minted := Record(s.users[email], expiry, false)]
      else reply == Denied && s' == s
  {
  }

  // ------------------------------------------------------------------ handlers that overlap

  /** The read of a refresh, and its writes, as two steps; every other handler runs in between. */
  datatype Step = Read(id: nat, token: Token, now: int) | Write(id: nat, minted: Token, expiry: int) | Whole(r: Request)

  /** A refresh that has read its record and found it good. */
  datatype Pending = Pending(token: Token, user: nat)

  datatype Split = Split(s: State, pending: map<nat, Pending>)

  predicate MayStep(x: Split, e: Step) {
    match e
    case Read(id, _, _) => id !in x.pending
    case Write(id, minted, _) => id in x.pending && minted !in x.s.tokens
    case Whole(r) => DrawsFresh(x.s, r) && !r.Refresh?
  }

  function Stepped(x: Split, e: Step): Split
    requires MayStep(x, e)
  {
    match e
    case Read(id, token, now) =>
      (match Verdict(x.s, token, now)
       case Done => x.(pending := x.pending[id := Pending(token, x.s.tokens[token].user)])
       case Reused => x.(s := AllRevoked(x.s, x.s.tokens[token].user))
       case _ => x)
    case Write(id, minted, expiry) =>
      var p := x.pending[id];
      Split(Stored(Revoked(x.s, p.token), p.user, minted, expiry).(accepted := x.s.accepted + multiset{p.token}),
            x.pending - {id})
    case Whole(r) => x.(s := Handled(x.s, r).0)
  }

  ghost predicate Interleaving(trace: seq<Split>, steps: seq<Step>) {
    |trace| == |steps| + 1 && forall i :: 0 <= i < |steps| ==> StepsAt(trace, steps, i)
  }

  ghost predicate StepsAt(trace: seq<Split>, steps: seq<Step>, i: nat)
    requires i < |steps| && |trace| == |steps| + 1
  {
    MayStep(trace[i], steps[i]) && trace[i + 1] == Stepped(trace[i], steps[i])
  }

  /** In `x` the refresh `id` of the token `t` has read and not yet written. */
  predicate Holds(x: Split, id: nat, t: Token) {
    id in x.pending && x.pending[id].token == t
  }

  // What every step keeps, overlaps or not.

  /** A token of a pending refresh is in the table, for that user; an accepted token is revoked. */
  ghost predicate Sound(x: Split) {
    && (forall id :: id in x.pending ==>
          x.pending[id].token in x.s.tokens && x.s.tokens[x.pending[id].token].user == x.pending[id].user)
    && (forall t :: t in x.s.accepted ==> Dead(x, t))
  }

  predicate Dead(x: Split, t: Token) {
    t in x.s.tokens && x.s.tokens[t].revoked
  }

  predicate Writes(x: Split, e: Step, t: Token) {
    e.Write? && Holds(x, e.id, t)
  }

  /** Only a write accepts, namely the token of its refresh, which is revoked by it; only a read that finds its token good
      starts a refresh; and what is revoked stays so. */
  ghost predicate Moves(x: Split, e: Step, x': Split) {
    && (forall t :: Dead(x, t) ==> Dead(x', t))
    && (forall t :: x'.s.accepted[t] == x.s.accepted[t] + if Writes(x, e, t) then 1 else 0)
    && (forall t :: Writes(x, e, t) ==> Dead(x', t) && !Holds(x', e.id, t))
    && (forall id, t :: Holds(x', id, t) && Dead(x, t) ==> Holds(x, id, t))
    && (forall id, t :: Holds(x', id, t) && !e.Read? ==> Holds(x, id, t))
    && (forall id, t :: Holds(x, id, t) && !(e.Write? && e.id == id) ==> Holds(x', id, t))
  }

  lemma StepGrows(x: Split, e: Step)
    requires MayStep(x, e)
    ensures Grows(x.s, Stepped(x, e).s)
  {
    if e.Whole? {
      HandledGrows(x.s, e.r);
    }
  }

  lemma StepSound(x: Split, e: Step)
    requires Sound(x) && MayStep(x, e)
    ensures Sound(Stepped(x, e))
  {
    StepGrows(x, e);
  }

  lemma ReadMoves(x: Split, e: Step)
    requires MayStep(x, e) && e.Read? && Grows(x.s, Stepped(x, e).s)
    ensures Moves(x, e, Stepped(x, e))
  {
  }

  lemma WriteMoves(x: Split, e: Step)
    requires Sound(x) && MayStep(x, e) && e.Write?
    ensures Moves(x, e, Stepped(x, e))
  {
  }

  lemma WholeMoves(x: Split, e: Step)
    requires MayStep(x, e) && e.Whole? && Grows(x.s, Stepped(x, e).s)
    ensures Moves(x, e, Stepped(x, e))
  {
    assert Stepped(x, e).s.accepted == x.s.accepted;
  }

  lemma StepMoves(x: Split, e: Step)
    requires Sound(x) && MayStep(x, e)
    ensures Moves(x, e, Stepped(x, e))
  {
    StepGrows(x, e);
    match e
    case Read(_, _, _) => ReadMoves(x, e);
    case Write(_, _, _) => WriteMoves(x, e);
    case Whole(_) => WholeMoves(x, e);
  }

  lemma {:induction false} TraceSound(trace: seq<Split>, steps: seq<Step>, n: nat)
    requires Interleaving(trace, steps) && Sound(trace[0]) && n <= |steps|
    ensures Sound(trace[n])
  {
    if n > 0 {
      TraceSound(trace, steps, n - 1);
      assert StepsAt(trace, steps, n - 1);
      StepSound(trace[n - 1], steps[n - 1]);
    }
  }

  /** All that is needed below of an interleaving. */
  ghost predicate Tame(trace: seq<Split>, steps: seq<Step>) {
    |trace| == |steps| + 1 && forall i :: 0 <= i < |steps| ==> MovesAt(trace, steps, i)
  }

  ghost predicate MovesAt(trace: seq<Split>, steps: seq<Step>, i: nat)
    requires i < |steps| && |trace| == |steps| + 1
  {
    Moves(trace[i], steps[i], trace[i + 1])
  }

  lemma InterleavingIsTame(trace: seq<Split>, steps: seq<Step>)
    requires Interleaving(trace, steps) && Sound(trace[0])
    ensures Tame(trace, steps)
  {
    forall i | 0 <= i < |steps| ensures MovesAt(trace, steps, i) {
      TraceSound(trace, steps, i);
      assert StepsAt(trace, steps, i);
      StepMoves(trace[i], steps[i]);
    }
  }

  lemma {:induction false} StaysDead(trace: seq<Split>, steps: seq<Step>, t: Token, i: nat, j: nat)
    requires Tame(trace, steps) && i <= j <= |steps| && Dead(trace[i], t)
    ensures Dead(trace[j], t)
  {
    if i < j {
      StaysDead(trace, steps, t, i, j - 1);
      assert MovesAt(trace, steps, j - 1);
    }
  }

  lemma {:induction false} AcceptedGrows(trace: seq<Split>, steps: seq<Step>, t: Token, i: nat, j: nat)
    requires Tame(trace, steps) && i <= j <= |steps|
    ensures trace[i].s.accepted[t] <= trace[j].s.accepted[t]
  {
    if i < j {
      AcceptedGrows(trace, steps, t, i, j - 1);
      assert MovesAt(trace, steps, j - 1);
    }
  }

  /** A refresh of `t` that is pending in state `i` stays so until it writes, in step `j`. */
  ghost predicate Completes(trace: seq<Split>, steps: seq<Step>, t: Token, i: nat, id: nat, j: nat)
    requires |trace| == |steps| + 1
  {
    && i <= j < |steps| && steps[j].Write? && steps[j].id == id
    && forall m :: i <= m <= j ==> Holds(trace[m], id, t)
  }

  /** A refresh of `t` is pending in state `i` and writes later. */
  ghost predicate WritesLater(trace: seq<Split>, steps: seq<Step>, t: Token, i: nat)
    requires |trace| == |steps| + 1
  {
    exists id, j :: Completes(trace, steps, t, i, id, j)
  }

  /** Once a token is revoked, whoever holds it has held it since. */
  lemma {:induction false} HeldSince(trace: seq<Split>, steps: seq<Step>, t: Token, i: nat, j: nat, id: nat)
    requires Tame(trace, steps) && i <= j <= |steps| && Dead(trace[i], t) && Holds(trace[j], id, t)
    ensures forall m :: i <= m <= j ==> Holds(trace[m], id, t)
  {
    if i < j {
      StaysDead(trace, steps, t, i, j - 1);
      assert MovesAt(trace, steps, j - 1);
      HeldSince(trace, steps, t, i, j - 1, id);
    }
  }

  /** The first acceptance of a token from state `i` on. */
  lemma {:induction false} FirstAcceptance(trace: seq<Split>, steps: seq<Step>, t: Token, i: nat, n: nat) returns (j: nat)
    requires Tame(trace, steps) && i <= n <= |steps|
    requires trace[n].s.accepted[t] > trace[i].s.accepted[t]
    ensures i <= j < n && Writes(trace[j], steps[j], t)
    ensures trace[j + 1].s.accepted[t] == trace[i].s.accepted[t] + 1
  {
    assert MovesAt(trace, steps, n - 1);
    AcceptedGrows(trace, steps, t, i, n - 1);
    if trace[n - 1].s.accepted[t] > trace[i].s.accepted[t] {
      j := FirstAcceptance(trace, steps, t, i, n - 1);
    } else {
      j := n - 1;
    }
  }

  lemma CompletionAccepts(trace: seq<Split>, steps: seq<Step>, t: Token, i: nat, id: nat, j: nat)
    requires Tame(trace, steps) && Completes(trace, steps, t, i, id, j)
    ensures trace[i].s.accepted[t] <= trace[j].s.accepted[t]
    ensures trace[j + 1].s.accepted[t] == trace[j].s.accepted[t] + 1
    ensures trace[j + 1].s.accepted[t] <= trace[|steps|].s.accepted[t]
  {
    assert Writes(trace[j], steps[j], t) && MovesAt(trace, steps, j);
    AcceptedGrows(trace, steps, t, i, j);
    AcceptedGrows(trace, steps, t, j + 1, |steps|);
  }

  /** What survives of `RevokedIsDead`: a revoked token is accepted again if and only if a refresh of it is pending when it
      is revoked, and writes later. */
  lemma RevokedAcceptedIff(trace: seq<Split>, steps: seq<Step>, t: Token, i: nat)
    requires Interleaving(trace, steps) && trace[0] == Split(START, map[])
    requires i <= |steps| && t in trace[i].s.tokens && trace[i].s.tokens[t].revoked
    ensures trace[|steps|].s.accepted[t] > trace[i].s.accepted[t] <==> WritesLater(trace, steps, t, i)
  {
    InterleavingIsTame(trace, steps);
    DeadAcceptedIff(trace, steps, t, i);
  }

  lemma DeadAcceptedIff(trace: seq<Split>, steps: seq<Step>, t: Token, i: nat)
    requires Tame(trace, steps) && i <= |steps| && Dead(trace[i], t)
    ensures trace[|steps|].s.accepted[t] > trace[i].s.accepted[t] <==> WritesLater(trace, steps, t, i)
  {
    if trace[|steps|].s.accepted[t] > trace[i].s.accepted[t] {
      var j := FirstAcceptance(trace, steps, t, i, |steps|);
      HeldSince(trace, steps, t, i, j, steps[j].id);
      assert Completes(trace, steps, t, i, steps[j].id, j);
    }
    if id: nat, j: nat :| Completes(trace, steps, t, i, id, j) {
      CompletionAccepts(trace, steps, t, i, id, j);
    }
  }

  // A token is accepted twice exactly when two refreshes of it overlap.

  /** Two refreshes of `t` are pending in state `i`, and both write later. */
  ghost predicate Overlap(trace: seq<Split>, steps: seq<Step>, t: Token, i: nat)
    requires |trace| == |steps| + 1
  {
    exists id, j, id', j' :: id != id' && Completes(trace, steps, t, i, id, j) && Completes(trace, steps, t, i, id', j')
  }

  lemma OverlapAccepts(trace: seq<Split>, steps: seq<Step>, t: Token, i: nat)
    requires Tame(trace, steps) && Overlap(trace, steps, t, i)
    ensures trace[|steps|].s.accepted[t] >= 2
  {
    var id: nat, j: nat, id': nat, j': nat :|
      id != id' && Completes(trace, steps, t, i, id, j) && Completes(trace, steps, t, i, id', j');
    CompletionAccepts(trace, steps, t, i, id, j);
    CompletionAccepts(trace, steps, t, i, id', j');
    if j < j' {
      AcceptedGrows(trace, steps, t, j + 1, j');
    } else {
      AcceptedGrows(trace, steps, t, j' + 1, j);
    }
  }

  /** A refresh that writes after another one accepted its token was pending beside it. */
  lemma FirstOverlaps(trace: seq<Split>, steps: seq<Step>, t: Token, j: nat, id: nat, j': nat)
    requires Tame(trace, steps) && j < |steps| && Writes(trace[j], steps[j], t)
    requires Completes(trace, steps, t, j + 1, id, j')
    ensures Overlap(trace, steps, t, j)
  {
    assert MovesAt(trace, steps, j);
    assert Holds(trace[j + 1], id, t);
    assert Completes(trace, steps, t, j, steps[j].id, j);
    assert Completes(trace, steps, t, j, id, j');
  }

  lemma TwiceOverlaps(trace: seq<Split>, steps: seq<Step>, t: Token) returns (j: nat)
    requires Tame(trace, steps) && trace[0].s.accepted[t] == 0 && trace[|steps|].s.accepted[t] >= 2
    ensures j <= |steps| && Overlap(trace, steps, t, j)
  {
    j := FirstAcceptance(trace, steps, t, 0, |steps|);
    assert MovesAt(trace, steps, j);
    DeadAcceptedIff(trace, steps, t, j + 1);
    var id: nat, j': nat :| Completes(trace, steps, t, j + 1, id, j');
    FirstOverlaps(trace, steps, t, j, id, j');
  }

  /** In any interleaving from the start, a token is accepted more than once if and only if two refreshes of it are pending
      at the same time and both write later. */
  lemma TwiceIffOverlap(trace: seq<Split>, steps: seq<Step>, t: Token)
    requires Interleaving(trace, steps) && trace[0] == Split(START, map[])
    ensures trace[|steps|].s.accepted[t] >= 2 <==> exists i: nat :: i <= |steps| && Overlap(trace, steps, t, i)
  {
    InterleavingIsTame(trace, steps);
    if trace[|steps|].s.accepted[t] >= 2 {
      var j := TwiceOverlaps(trace, steps, t);
    }
    if i: nat :| i <= |steps| && Overlap(trace, steps, t, i) {
      OverlapAccepts(trace, steps, t, i);
    }
  }

  /** So a token of which no two refreshes are ever pending at once is accepted at most once. */
  lemma OnceWithoutOverlap(trace: seq<Split>, steps: seq<Step>, t: Token)
    requires Interleaving(trace, steps) && trace[0] == Split(START, map[])
    requires forall i, id, id' :: 0 <= i < |trace| && Holds(trace[i], id, t) && Holds(trace[i], id', t) ==> id == id'
    ensures trace[|steps|].s.accepted[t] <= 1
  {
    forall i: nat | i <= |steps| ensures !Overlap(trace, steps, t, i) {
      assert forall id, j :: Completes(trace, steps, t, i, id, j) ==> Holds(trace[i], id, t);
    }
    TwiceIffOverlap(trace, steps, t);
  }

  // Logout and replay.

  /** A step that only revokes changes no refresh. */
  lemma WritesLaterFromBefore(trace: seq<Split>, steps: seq<Step>, t: Token, i: nat)
    requires |trace| == |steps| + 1 && i < |steps| && !steps[i].Write? && trace[i + 1].pending == trace[i].pending
    ensures WritesLater(trace, steps, t, i + 1) <==> WritesLater(trace, steps, t, i)
  {
    var k := i + 1;
    if id: nat, j: nat :| Completes(trace, steps, t, k, id, j) {
      assert Holds(trace[k], id, t);
      assert Completes(trace, steps, t, i, id, j);
    }
    if id: nat, j: nat :| Completes(trace, steps, t, i, id, j) {
      assert Completes(trace, steps, t, k, id, j);
    }
  }

  /** Step `i` revokes `t` and does nothing else to it. */
  lemma RevocationIff(trace: seq<Split>, steps: seq<Step>, t: Token, i: nat)
    requires Tame(trace, steps) && i < |steps| && !steps[i].Write?
    requires trace[i + 1].pending == trace[i].pending && Dead(trace[i + 1], t)
    ensures trace[|steps|].s.accepted[t] > trace[i].s.accepted[t] <==> WritesLater(trace, steps, t, i)
  {
    assert MovesAt(trace, steps, i);
    DeadAcceptedIff(trace, steps, t, i + 1);
    WritesLaterFromBefore(trace, steps, t, i);
  }

  /** A logout is final except for a refresh that had already read the token: after it the token is accepted if and only if
      such a refresh is pending and writes later. */
  lemma LogoutIsFinalIff(trace: seq<Split>, steps: seq<Step>, t: Token, i: nat)
    requires Interleaving(trace, steps) && trace[0] == Split(START, map[])
    requires i < |steps| && steps[i] == Whole(Logout(t)) && t in trace[i].s.tokens
    ensures trace[|steps|].s.accepted[t] > trace[i].s.accepted[t] <==> WritesLater(trace, steps, t, i)
  {
    InterleavingIsTame(trace, steps);
    assert StepsAt(trace, steps, i);
    RevocationIff(trace, steps, t, i);
  }

  /** The same for a replay: of all that was issued earlier to the user, a token is accepted after the replay was detected
      if and only if a refresh that had already read it is pending and writes later. */
  lemma ReplayKillsIff(trace: seq<Split>, steps: seq<Step>, t: Token, i: nat)
    requires Interleaving(trace, steps) && trace[0] == Split(START, map[])
    requires i < |steps| && steps[i].Read? && Verdict(trace[i].s, steps[i].token, steps[i].now) == Reused
    requires t in trace[i].s.tokens && trace[i].s.tokens[t].user == trace[i].s.tokens[steps[i].token].user
    ensures trace[|steps|].s.accepted[t] > trace[i].s.accepted[t] <==> WritesLater(trace, steps, t, i)
  {
    InterleavingIsTame(trace, steps);
    assert StepsAt(trace, steps, i);
    RevocationIff(trace, steps, t, i);
  }

  // Nor does the split let an expired token through.

  /** The read of a refresh finds its token good. */
  predicate FindsGood(x: Split, e: Step, t: Token) {
    e.Read? && e.token == t && t in x.s.tokens && !x.s.tokens[t].revoked && e.now < x.s.tokens[t].expiry
  }

  /** A read of an expired token that is not revoked changes nothing, and starts no refresh. */
  lemma ExpiredReadIsIdle(x: Split, id: nat, t: Token, now: int)
    requires id !in x.pending && t in x.s.tokens && now >= x.s.tokens[t].expiry
    ensures Stepped(x, Read(id, t, now)).pending == x.pending
    ensures !x.s.tokens[t].revoked ==> Stepped(x, Read(id, t, now)) == x
  {
  }

  lemma NewPendingFoundGood(x: Split, e: Step, id: nat, t: Token)
    requires MayStep(x, e) && Holds(Stepped(x, e), id, t) && !Holds(x, id, t)
    ensures FindsGood(x, e, t) && e.id == id
  {
  }

  /** Whenever a refresh is pending, it has read its token while that was unrevoked and before the time until which it was
      issued. */
  lemma {:induction false} PendingFoundGood(trace: seq<Split>, steps: seq<Step>, t: Token, n: nat, id: nat) returns (i: nat)
    requires Interleaving(trace, steps) && trace[0].pending == map[] && n <= |steps| && Holds(trace[n], id, t)
    ensures i < n && steps[i].Read? && steps[i].id == id && FindsGood(trace[i], steps[i], t)
    ensures t in trace[n].s.tokens && trace[n].s.tokens[t].expiry == trace[i].s.tokens[t].expiry
  {
    assert StepsAt(trace, steps, n - 1);
    StepGrows(trace[n - 1], steps[n - 1]);
    if Holds(trace[n - 1], id, t) {
      i := PendingFoundGood(trace, steps, t, n - 1, id);
    } else {
      NewPendingFoundGood(trace[n - 1], steps[n - 1], id, t);
      i := n - 1;
    }
  }

  /** In any interleaving, every acceptance of a token was decided by a read before its expiry. */
  lemma AcceptedWasUnexpired(trace: seq<Split>, steps: seq<Step>, t: Token, j: nat) returns (i: nat)
    requires Interleaving(trace, steps) && trace[0] == Split(START, map[])
    requires j < |steps| && trace[j + 1].s.accepted[t] > trace[j].s.accepted[t]
    ensures i < j && FindsGood(trace[i], steps[i], t)
    ensures t in trace[j].s.tokens && trace[j].s.tokens[t].expiry == trace[i].s.tokens[t].expiry
  {
    InterleavingIsTame(trace, steps);
    assert MovesAt(trace, steps, j);
    i := PendingFoundGood(trace, steps, t, j, steps[j].id);
  }

  // ------------------------------------------------------------------ the bound on live tokens, with overlaps

  function PendingTokens(x: Split, user: nat): set<Token> {
    set id | id in x.pending && x.pending[id].user == user :: x.pending[id].token
  }

  /** The tokens of a user that are live or about to be exchanged. */
  function Usable(x: Split, user: nat): set<Token> {
    Live(x.s, user) + PendingTokens(x, user)
  }

  /** No two refreshes of one token are pending. */
  ghost predicate Apart(x: Split) {
    forall id, id' :: id in x.pending && id' in x.pending && x.pending[id].token == x.pending[id'].token ==> id == id'
  }

  /** The usable tokens never outnumber the grants. */
  ghost predicate Bounded(x: Split) {
    forall user :: |Usable(x, user)| <= x.s.granted[user]
  }

  lemma ReadShrinks(x: Split, e: Step, user: nat)
    requires e.Read? && MayStep(x, e)
    ensures Usable(Stepped(x, e), user) <= Usable(x, user)
    ensures Stepped(x, e).s.granted == x.s.granted
  {
    var x' := Stepped(x, e);
    assert Live(x'.s, user) <= Live(x.s, user);
    forall t | t in PendingTokens(x', user) ensures t in Usable(x, user) {
      var id :| id in x'.pending && x'.pending[id].user == user && x'.pending[id].token == t;
      assert id in x.pending ==> x.pending[id] == x'.pending[id];
    }
  }

  lemma WriteSwaps(x: Split, e: Step, user: nat)
    requires Sound(x) && Apart(x) && e.Write? && MayStep(x, e)
    ensures var p := x.pending[e.id];
      Usable(Stepped(x, e), user) <= if p.user == user then Usable(x, user) - {p.token} + {e.minted} else Usable(x, user)
    ensures x.pending[e.id].user == user ==> x.pending[e.id].token in Usable(x, user)
    ensures Stepped(x, e).s.granted == x.s.granted
  {
    var x', p := Stepped(x, e), x.pending[e.id];
    assert p.user == user ==> p.token in PendingTokens(x, user);
    assert PendingTokens(x', user) <= PendingTokens(x, user) - {p.token};
    assert Live(x'.s, user) <= Live(x.s, user) - {p.token} + if p.user == user then {e.minted} else {};
  }

  lemma WholeAdds(x: Split, e: Step, user: nat) returns (added: set<Token>)
    requires e.Whole? && MayStep(x, e)
    ensures Usable(Stepped(x, e), user) <= Usable(x, user) + added
    ensures Stepped(x, e).s.granted[user] == x.s.granted[user] + |added|
  {
    var x' := Stepped(x, e);
    added := if x'.s.granted[user] > x.s.granted[user] then {e.r.minted} else {};
    assert PendingTokens(x', user) == PendingTokens(x, user);
    assert Live(x'.s, user) <= Live(x.s, user) + added;
  }

  lemma StepBounded(x: Split, e: Step, user: nat)
    requires Bounded(x) && Sound(x) && Apart(x) && MayStep(x, e)
    ensures |Usable(Stepped(x, e), user)| <= Stepped(x, e).s.granted[user]
  {
    var before, after := Usable(x, user), Usable(Stepped(x, e), user);
    match e
    case Read(_, _, _) =>
      ReadShrinks(x, e, user);
      SubsetSize(after, before);
    case Write(id, minted, _) =>
      WriteSwaps(x, e, user);
      SubsetSize(after, if x.pending[id].user == user then before - {x.pending[id].token} + {minted} else before);
    case Whole(_) =>
      var added := WholeAdds(x, e, user);
      SubsetSize(after, before + added);
      assert |before + added| <= |before| + |added|;
  }

  lemma {:induction false} TraceBounded(trace: seq<Split>, steps: seq<Step>, n: nat)
    requires Interleaving(trace, steps) && Sound(trace[0]) && Bounded(trace[0]) && n <= |steps|
    requires forall i :: 0 <= i < |trace| ==> Apart(trace[i])
    ensures Bounded(trace[n])
  {
    if n > 0 {
      TraceBounded(trace, steps, n - 1);
      TraceSound(trace, steps, n - 1);
      assert StepsAt(trace, steps, n - 1);
      forall user ensures |Usable(trace[n], user)| <= trace[n].s.granted[user] {
        StepBounded(trace[n - 1], steps[n - 1], user);
      }
    }
  }

  /** What survives the split: as long as no two refreshes of one token are pending at once, a user's live tokens never
      outnumber that user's signups and logins, in any interleaving. */
  lemma BoundWithoutOverlap(trace: seq<Split>, steps: seq<Step>, user: nat)
    requires Interleaving(trace, steps) && trace[0] == Split(START, map[])
    requires forall i :: 0 <= i < |trace| ==> Apart(trace[i])
    ensures |Live(trace[|steps|].s, user)| <= trace[|steps|].s.granted[user]
  {
    assert forall u :: Usable(trace[0], u) == {};
    TraceBounded(trace, steps, |steps|);
    SubsetSize(Live(trace[|steps|].s, user), Usable(trace[|steps|], user));
  }

  // ------------------------------------------------------------------ the exceptions happen

  /** One signup: the only token is live. */
  lemma SignedUp(email: string, id: nat, token: Token, expiry: int) returns (x: Split)
    ensures MayStep(Split(START, map[]), Whole(Signup(email, id, token, expiry)))
    ensures x == Stepped(Split(START, map[]), Whole(Signup(email, id, token, expiry)))
    ensures x.pending == map[] && x.s.accepted == multiset{} && x.s.granted == multiset{id}
    ensures x.s.tokens == map[token := Record(id, expiry, false)] && UserExists(x.s, id)
  {
    x := Stepped(Split(START, map[]), Whole(Signup(email, id, token, expiry)));
    assert x.s.users[email] == id;
  }

  lemma GoodRead(x: Split, id: nat, token: Token, now: int)
    requires id !in x.pending && token in x.s.tokens && !x.s.tokens[token].revoked && now < x.s.tokens[token].expiry
    requires UserExists(x.s, x.s.tokens[token].user)
    ensures Stepped(x, Read(id, token, now)) == x.(pending := x.pending[id := Pending(token, x.s.tokens[token].user)])
  {
  }

  /** Two refreshes of one live token are pending, and both write. */
  lemma BothWrite(x: Split, id: nat, token: Token, a: Token, b: Token, expiry: int) returns (y: Split, z: Split)
    requires token != a && token != b && a != b
    requires x.pending == map[0 := Pending(token, id), 1 := Pending(token, id)] && x.s.accepted == multiset{}
    requires x.s.tokens == map[token := Record(id, expiry, false)]
    ensures MayStep(x, Write(0, a, expiry)) && y == Stepped(x, Write(0, a, expiry))
    ensures MayStep(y, Write(1, b, expiry)) && z == Stepped(y, Write(1, b, expiry))
    ensures Holds(y, 1, token) && z.s.accepted[token] == 2 && z.s.granted == x.s.granted && {a, b} <= Live(z.s, id)
  {
    y := Stepped(x, Write(0, a, expiry));
    assert y.pending == map[1 := Pending(token, id)];
    z := Stepped(y, Write(1, b, expiry));
    assert a in Live(z.s, id) && b in Live(z.s, id);
  }

  /** From the start: a signup, two refreshes of its token that both read it before either writes, and it is accepted
      twice; its user then has two live tokens and one grant. */
  lemma OverlapAcceptsTwice(email: string, id: nat, token: Token, a: Token, b: Token, now: int, expiry: int)
    returns (trace: seq<Split>, steps: seq<Step>)
    requires token != a && token != b && a != b && now < expiry
    ensures Interleaving(trace, steps) && trace[0] == Split(START, map[])
    ensures |steps| == 5 && Overlap(trace, steps, token, 3)
    ensures trace[5].s.accepted[token] == 2
    ensures trace[5].s.granted[id] == 1 && {a, b} <= Live(trace[5].s, id)
  {
    var x1 := SignedUp(email, id, token, expiry);
    GoodRead(x1, 0, token, now);
    var x2 := x1.(pending := map[0 := Pending(token, id)]);
    GoodRead(x2, 1, token, now);
    var x3 := x2.(pending := map[0 := Pending(token, id), 1 := Pending(token, id)]);
    var x4, x5 := BothWrite(x3, id, token, a, b, expiry);
    trace := [Split(START, map[]), x1, x2, x3, x4, x5];
    steps := [Whole(Signup(email, id, token, expiry)), Read(0, token, now), Read(1, token, now),
              Write(0, a, expiry), Write(1, b, expiry)];
    assert StepsAt(trace, steps, 0) && StepsAt(trace, steps, 1) && StepsAt(trace, steps, 2);
    assert StepsAt(trace, steps, 3) && StepsAt(trace, steps, 4);
    assert Completes(trace, steps, token, 3, 0, 3) && Completes(trace, steps, token, 3, 1, 4);
  }

  /** A token is logged out while a refresh of it is pending, which then writes. */
  lemma LogoutThenWrite(x: Split, id: nat, token: Token, a: Token, expiry: int) returns (y: Split, z: Split)
    requires token != a && x.pending == map[0 := Pending(token, id)] && x.s.accepted == multiset{}
    requires x.s.tokens == map[token := Record(id, expiry, false)]
    ensures MayStep(x, Whole(Logout(token))) && y == Stepped(x, Whole(Logout(token)))
    ensures MayStep(y, Write(0, a, expiry)) && z == Stepped(y, Write(0, a, expiry))
    ensures z.s.accepted[token] == 1
  {
    y := Stepped(x, Whole(Logout(token)));
    assert y.s.tokens == map[token := Record(id, expiry, true)];
    z := Stepped(y, Write(0, a, expiry));
  }

  /** A refresh that has read its token is accepted after the logout of that token. */
  lemma LogoutMayComeLate(email: string, id: nat, token: Token, a: Token, now: int, expiry: int)
    returns (trace: seq<Split>, steps: seq<Step>)
    requires token != a && now < expiry
    ensures Interleaving(trace, steps) && trace[0] == Split(START, map[])
    ensures |steps| == 4 && steps[2] == Whole(Logout(token)) && token in trace[2].s.tokens
    ensures trace[4].s.accepted[token] == trace[2].s.accepted[token] + 1
  {
    var x1 := SignedUp(email, id, token, expiry);
    GoodRead(x1, 0, token, now);
    var x2 := x1.(pending := map[0 := Pending(token, id)]);
    var x3, x4 := LogoutThenWrite(x2, id, token, a, expiry);
    trace := [Split(START, map[]), x1, x2, x3, x4];
    steps := [Whole(Signup(email, id, token, expiry)), Read(0, token, now), Whole(Logout(token)), Write(0, a, expiry)];
    assert StepsAt(trace, steps, 0) && StepsAt(trace, steps, 1);
    assert StepsAt(trace, steps, 2) && StepsAt(trace, steps, 3);
  }
}
