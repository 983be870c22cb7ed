/** The registration views of djangoerp/registration/views.py: signing up
    creates an inactive account, and following the emailed activation key
    activates it once. */
module Registration {
  import opened Wrappers

  /** An account: its user name and whether it may log in. */
  datatype Account = Account(username: string, isActive: bool)

  /** An activation token: the account it activates and when it expires, a
      day number; the expiration may be missing. */
  datatype Token = Token(user: nat, expiration: Option<int>)

  /** The accounts by primary key and the tokens by activation key. */
  datatype Store = Store(users: map<nat, Account>, tokens: map<string, Token>)

  /** Every token belongs to an existing account. */
  ghost predicate Consistent(s: Store) {
    forall k :: k in s.tokens ==> s.tokens[k].user in s.users
  }

  /** What a view answers: a redirect, the registration page, or 404. */
  datatype Response = Redirect(to: string) | RegisterPage | NotFound

  /** The site root every early exit redirects to. */
  const Root: string := "/"

  /** Why an activation stops, or that it goes ahead. */
  datatype Decision = AlreadyActive | Expired | Activate

  /** The chain of guards of `user_activate`. A missing expiration makes the
      comparison with today raise TypeError, which is swallowed, so the
      account is activated. */
  function Decide(account: Account, expiration: Option<int>, today: int): (d: Decision)
    ensures d == AlreadyActive <==> account.isActive
    ensures d == Expired <==> !account.isActive && expiration.Some? && expiration.value < today
    ensures d == Activate ==> !account.isActive && (expiration.None? || today <= expiration.value)
  {
    if account.isActive then AlreadyActive
    else if expiration.Some? && expiration.value < today then Expired
    else Activate
  }

  /** `user_activate(request, activation_key)` on the store: the response and
      the new store. */
  function Activated(s: Store, key: string, authenticated: bool, today: int, loginUrl: string): (Store, Response)
    requires Consistent(s)
  {
    if key !in s.tokens then (s, NotFound)
    else
      var token := s.tokens[key];
      match Decide(s.users[token.user], token.expiration, today)
      case AlreadyActive => (s, Redirect(if authenticated then Root else loginUrl))
      case Expired => (s, Redirect(Root))
      case Activate =>
        (Store(s.users[token.user := s.users[token.user].(isActive := true)], s.tokens - {key}), Redirect(loginUrl))
  }

  /** Activation only ever turns the token's own account on and spends that
      one token; every other account and token stays as it was, and the
      store stays consistent. */
  lemma ActivatedFrame(s: Store, key: string, authenticated: bool, today: int, loginUrl: string)
    requires Consistent(s)
    ensures var (t, _) := Activated(s, key, authenticated, today, loginUrl);
            Consistent(t) && t.users.Keys == s.users.Keys
            && (forall u :: u in s.users && (key !in s.tokens || u != s.tokens[key].user) ==> t.users[u] == s.users[u])
            && (forall k :: k != key ==> (k in t.tokens <==> k in s.tokens))
            && (forall k :: k in t.tokens ==> t.tokens[k] == s.tokens[k])
  {
  }

  /** An activation that goes ahead makes the account active and removes
      its token, so the same key a second time is not found. */
  lemma ActivateTwice(s: Store, key: string, authenticated: bool, today: int, loginUrl: string)
    requires Consistent(s) && key in s.tokens
    requires Decide(s.users[s.tokens[key].user], s.tokens[key].expiration, today) == Activate
    ensures var (t, r) := Activated(s, key, authenticated, today, loginUrl);
            r == Redirect(loginUrl) && t.users[s.tokens[key].user].isActive && key !in t.tokens
            && Consistent(t) && Activated(t, key, authenticated, today, loginUrl) == (t, NotFound)
  {
    ActivatedFrame(s, key, authenticated, today, loginUrl);
  }

  /** An active account keeps its token: activating again changes nothing,
      and the answer does not depend on the date. */
  lemma ActiveKeepsToken(s: Store, key: string, authenticated: bool, today: int, later: int, loginUrl: string)
    requires Consistent(s) && key in s.tokens && s.users[s.tokens[key].user].isActive
    ensures Activated(s, key, authenticated, today, loginUrl).0 == s
    ensures Activated(s, key, authenticated, today, loginUrl) == Activated(s, key, authenticated, later, loginUrl)
  {
  }

  /** An expired token is kept and its account stays inactive. */
  lemma ExpiredKeepsToken(s: Store, key: string, authenticated: bool, today: int, loginUrl: string)
    requires Consistent(s) && key in s.tokens && !s.users[s.tokens[key].user].isActive
    requires s.tokens[key].expiration.Some? && s.tokens[key].expiration.value < today
    ensures Activated(s, key, authenticated, today, loginUrl) == (s, Redirect(Root))
  {
  }

  /** The accounts and activation tokens of the site. */
  class Site {
    var users: map<nat, Account>
    var tokens: map<string, Token>

    constructor (users: map<nat, Account>, tokens: map<string, Token>)
      ensures this.users == users && this.tokens == tokens
    {
      this.users := users;
      this.tokens := tokens;
    }

    /** `user_register(request)`: an authenticated requester is sent home
        and nothing is created; a valid submitted form creates an inactive
        account under a fresh key; otherwise the page is shown again. */
    method Register(authenticated: bool, isPost: bool, formValid: bool, username: string)
        returns (r: Response, created: Option<nat>)
      modifies this
      ensures tokens == old(tokens)
      ensures authenticated ==> r == Redirect(Root) && created.None? && users == old(users)
      ensures !authenticated && isPost && formValid ==>
                r == Redirect(Root) && created.Some? && created.value !in old(users)
                && users == old(users)[created.value := Account(username, false)]
      ensures !authenticated && !(isPost && formValid) ==> r == RegisterPage && created.None? && users == old(users)
    {
      if authenticated {
        return Redirect(Root), None;
      }
      var user := Account(username, false);
      if isPost && formValid {
        var pk := FreshKey(users.Keys);
        users := users[pk := user];
        return Redirect(Root), Some(pk);
      }
      r, created := RegisterPage, None;
    }

    /** `user_activate(request, activation_key)` */
    method Activate(key: string, authenticated: bool, today: int, loginUrl: string) returns (r: Response)
      requires Consistent(Store(users, tokens))
      modifies this
      ensures (Store(users, tokens), r) == Activated(Store(old(users), old(tokens)), key, authenticated, today, loginUrl)
    {
      if key !in tokens {
        return NotFound;
      }
      var token := tokens[key];
      var account := users[token.user];
      if account.isActive {
        if authenticated {
          return Redirect(Root);
        }
        return Redirect(loginUrl);
      }
      if token.expiration.Some? && token.expiration.value < today {
        return Redirect(Root);
      }
      users := users[token.user := account.(isActive := true)];
      tokens := tokens - {key};
      r := Redirect(loginUrl);
    }
  }

  /** A primary key not yet used: one past the largest. */
  method FreshKey(used: set<nat>) returns (k: nat)
    ensures k !in used
  {
    k := 0;
    var rest := used;
    while rest != {}
      invariant forall u :: u in used && u !in rest ==> u < k
      decreases rest
    {
      var u :| u in rest;
      if u >= k {
        k := u + 1;
      }
      rest := rest - {u};
    }
  }
}
