/** RFC 7662 introspection of a refresh token says what exchanging it would do. */
module Introspection {
  import opened Prelude
  import opened Tables
  import opened Transactions
  import opened History
  import opened Machine
  import opened Invariants
  import opened Reachability

  predicate GrantRemainsActive(cfg: Config, db: Store, user: Id, client: Id, scopes: set<Scope>) {
    && UsableAccount(db, user)
    && client in db.clients && db.clients[client].status.ClientApproved?
    && scopes <= cfg.registered
    && scopes <= db.clients[client].scopes
    && GrantCovers(db.grants, user, client, scopes)
  }

  predicate ScopesRemainAllowed(cfg: Config, db: Store, user: Id, client: Id, scopes: set<Scope>) {
    GrantRemainsActive(cfg, db, user, client, scopes) && AllowedForUser(cfg, db.users[user], scopes)
  }

  /** Whether introspection answers `active` to `client`. */
  predicate RefreshActive(cfg: Config, db: Store, token: Id, client: Id, at: Time) {
    && token in db.refresh
    && var row := db.refresh[token];
    && row.client == client
    && row.revokedAt.None? && row.usedAt.None? && at < row.expiresAt
    && client in db.clients && db.clients[client].refreshGrant
    && ScopesRemainAllowed(cfg, db, row.user, client, row.scopes)
    && (row.session, client) in db.oidc
    && db.oidc[(row.session, client)].revokedAt.None?
    && db.oidc[(row.session, client)].user == row.user
  }

  /** An uninterrupted exchange without a scope parameter: its pre-read lets it through and
      its transaction, run at the same instant, commits. */
  predicate ExchangesNow(cfg: Config, s: State, call: Id, token: Id, client: Id, minted: Id)
    requires Idle(s, call)
  {
    && token in s.db.refresh
    && var row := s.db.refresh[token];
    && var read := Start(s, call, Refreshing(token, row, client, row.scopes, s.now));
    && ReadRefreshStep(cfg, s, read, call, token, client, None)
    && RefreshOutcome(cfg, read, read.calls[call], s.now, minted).Committed?
  }

  predicate ScopesRegistered(cfg: Config, db: Store) {
    forall c :: c in db.clients ==> db.clients[c].scopes <= cfg.registered
  }

  /** The per-client session a refresh token names belongs to the token's user. */
  lemma SessionAgrees(cfg: Config, s: State, token: Id)
    requires Inv(cfg, s) && token in s.db.refresh
    ensures var row := s.db.refresh[token];
      (row.session, row.client) in s.db.oidc ==> s.db.oidc[(row.session, row.client)].user == row.user
  {
    var row := s.db.refresh[token];
    assert RefreshRowOk(row, token, s.hist);
    assert TokenOk(s.hist, token);
    RowDescends(row, token, s.hist);
  }

  lemma ReadsThrough(cfg: Config, s: State, call: Id, token: Id, client: Id)
    requires Idle(s, call) && token in s.db.refresh
    ensures var row := s.db.refresh[token];
      ReadRefreshStep(cfg, s, Start(s, call, Refreshing(token, row, client, row.scopes, s.now)), call, token, client,
                      None) <==>
      row.client == client && row.revokedAt.None? && (cfg.rotate ==> row.usedAt.None?) && s.now < row.expiresAt
  {
    var row := s.db.refresh[token];
    var read := Start(s, call, Refreshing(token, row, client, row.scopes, s.now));
    assert read.calls[call].Refreshing?;
    assert Start(s, call, FindingFamily(row.family)).calls[call].FindingFamily?;
  }

  /** Introspection says `active` exactly when exchanging the token would succeed, except that
      it also denies a token with a scope the deployment no longer knows. */
  lemma ActiveIffExchanges(cfg: Config, run: Run, i: nat, call: Id, token: Id, client: Id, minted: Id)
    requires ValidRun(cfg, run) && i < |run.states| && Idle(run.states[i], call)
    ensures var s := run.states[i];
      RefreshActive(cfg, s.db, token, client, s.now) <==>
      ExchangesNow(cfg, s, call, token, client, minted) && s.db.refresh[token].scopes <= cfg.registered
  {
    var s := run.states[i];
    RunKeeps(cfg, run, i);
    if token in s.db.refresh {
      ReadsThrough(cfg, s, call, token, client);
      SessionAgrees(cfg, s, token);
    }
  }

  /** So when every scope a client may ask for is registered, the two always agree. */
  lemma IntrospectionPredictsExchange(cfg: Config, run: Run, i: nat, call: Id, token: Id, client: Id, minted: Id)
    requires ValidRun(cfg, run) && i < |run.states|
    requires Idle(run.states[i], call) && ScopesRegistered(cfg, run.states[i].db)
    ensures var s := run.states[i];
      RefreshActive(cfg, s.db, token, client, s.now) <==> ExchangesNow(cfg, s, call, token, client, minted)
  {
    ActiveIffExchanges(cfg, run, i, call, token, client, minted);
  }
}
