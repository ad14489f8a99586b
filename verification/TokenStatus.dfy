/** UserInfo (OIDC Core section 5.3) and introspection (RFC 7662) of an access token: two
    endpoints that must not contradict each other about the same token. */
module TokenStatus {
  import opened Prelude
  import opened Tables
  import opened Transactions
  import opened Lists
  import opened Scopes
  import opened Introspection

  /** The claims of an access token whose signature and times were verified. */
  datatype AccessToken = AccessToken(client: Id, user: Id, sid: Option<Id>, scope: string)

  datatype Answer = Inactive | Active(claims: map<string, bool>)

  predicate SessionStands(db: Store, sid: Option<Id>, user: Id, client: Id) {
    exists k :: k in db.oidc && Some(db.oidc[k].id) == sid && db.oidc[k].revokedAt.None?
                && db.oidc[k].user == user && k.1 == client
  }

  predicate AllAllowed(reg: Registry, verdict: Scope -> Verdict, scopes: seq<Scope>) {
    forall i :: 0 <= i < |scopes| ==> Passes(reg, verdict, scopes[i])
  }

  /** Client, account, grant and registry still carry the token's scopes. */
  predicate Stands(cfg: Config, db: Store, t: AccessToken) {
    GrantRemainsActive(cfg, db, t.user, t.client, Members(DecodeScopes(t.scope)))
  }

  /** The per-client session the token names is there, not ended, and the token's own. */
  ghost predicate NamesLiveSession(db: Store, t: AccessToken) {
    exists k :: k in db.oidc && t.sid == Some(db.oidc[k].id) && db.oidc[k].revokedAt == None
                && db.oidc[k].user == t.user && k.1 == t.client
  }

  /** The account is there and not disabled, the client there, approved and still registered for
      the scopes, the deployment still knows them, and a grant that was not withdrawn has them. */
  ghost predicate Carried(cfg: Config, db: Store, t: AccessToken) {
    var scopes := DecodeScopes(t.scope);
    && t.user in db.users && db.users[t.user].status != UserDisabled
    && t.client in db.clients && db.clients[t.client].status == ClientApproved
    && (t.user, t.client) in db.grants && db.grants[(t.user, t.client)].revokedAt == None
    && forall s :: s in scopes ==>
         s in cfg.registered && s in db.clients[t.client].scopes && s in db.grants[(t.user, t.client)].scopes
  }

  /** No granted scope has a rule that the account does not pass now. */
  ghost predicate RulesHold(reg: Registry, verdict: Scope -> Verdict, granted: seq<Scope>) {
    forall i :: 0 <= i < |reg| && reg[i].restricted && reg[i].name in granted ==> verdict(reg[i].name) == Allows
  }

  /** Nor one without a boolean to tell. */
  ghost predicate SilentRulesHold(reg: Registry, verdict: Scope -> Verdict, granted: seq<Scope>) {
    forall i :: 0 <= i < |reg| && reg[i].restricted && reg[i].claim == None && reg[i].name in granted ==>
      verdict(reg[i].name) == Allows
  }

  ghost predicate UserInfoAccepts(cfg: Config, reg: Registry, verdict: Scope -> Verdict, db: Store, t: AccessToken) {
    && "openid" in DecodeScopes(t.scope)
    && Carried(cfg, db, t)
    && RulesHold(reg, verdict, DecodeScopes(t.scope))
    && NamesLiveSession(db, t)
  }

  lemma StandsIsCarried(cfg: Config, db: Store, t: AccessToken)
    ensures Stands(cfg, db, t) <==> Carried(cfg, db, t)
    ensures SessionStands(db, t.sid, t.user, t.client) <==> NamesLiveSession(db, t)
  {
    if Carried(cfg, db, t) {
      forall s | s in Members(DecodeScopes(t.scope))
        ensures s in cfg.registered && s in db.clients[t.client].scopes && s in db.grants[(t.user, t.client)].scopes
      {
      }
    }
    if Stands(cfg, db, t) {
      forall s | s in DecodeScopes(t.scope)
        ensures s in cfg.registered && s in db.clients[t.client].scopes && s in db.grants[(t.user, t.client)].scopes
      {
        assert s in Members(DecodeScopes(t.scope));
      }
    }
  }

  method UserInfo(cfg: Config, reg: Registry, verdict: Scope -> Verdict, db: Store,
                  t: AccessToken) returns (accepted: bool)
    requires WellFormed(reg)
    ensures accepted <==> UserInfoAccepts(cfg, reg, verdict, db, t)
  {
    StandsIsCarried(cfg, db, t);
    AllowedByDefinition(reg, verdict, DecodeScopes(t.scope));
    var scopes := DecodeScopes(t.scope);
    if t.scope == "" || OPENID !in scopes {
      NoScopes(t.scope);
      return false;
    }
    if !Stands(cfg, db, t) { return false; }
    var permission := AssertAllowedForUser(reg, verdict, scopes);
    if !permission.Permitted? { return false; }
    return SessionStands(db, t.sid, t.user, t.client);
  }

  /** An empty scope claim names no scope. */
  lemma NoScopes(scope: string)
    ensures scope == "" ==> DecodeScopes(scope) == []
  {
    assert Split("", ' ') == [""] && Cleaned([""]) == [];
  }

  method IntrospectAccessToken(cfg: Config, reg: Registry, verdict: Scope -> Verdict, db: Store, t: AccessToken,
                               asker: Id)
    returns (answer: Answer)
    requires WellFormed(reg)
    ensures Answers(cfg, reg, verdict, db, t, asker, answer)
  {
    StandsIsCarried(cfg, db, t);
    if t.client != asker { return Inactive; }
    if !Stands(cfg, db, t) { return Inactive; }
    var authority := IntrospectionAuthorityFor(reg, verdict, DecodeScopes(t.scope));
    SilentByDefinition(reg, verdict, DecodeScopes(t.scope));
    if !authority.canRemainActive { return Inactive; }
    if !SessionStands(db, t.sid, t.user, t.client) { return Inactive; }
    assert Reported(reg, verdict, DecodeScopes(t.scope), authority.claims);
    return Active(authority.claims);
  }

  lemma SilentByDefinition(reg: Registry, verdict: Scope -> Verdict, granted: seq<Scope>)
    ensures SilentRulesHold(reg, verdict, granted) <==>
      forall i :: 0 <= i < |reg| ==> !FailsClosed(reg[i], verdict, granted)
  {
    if SilentRulesHold(reg, verdict, granted) {
      forall i | 0 <= i < |reg| ensures !FailsClosed(reg[i], verdict, granted) {
      }
    }
  }

  /** One boolean for each scope that declares one: whether it was granted and still holds. */
  ghost predicate Reported(reg: Registry, verdict: Scope -> Verdict, granted: seq<Scope>, claims: map<string, bool>) {
    && (forall i :: 0 <= i < |reg| && reg[i].claim.Some? ==> reg[i].claim.value in claims)
    && (forall i :: 0 <= i < |reg| && reg[i].claim.Some? && reg[i].claim.value in claims ==>
          (claims[reg[i].claim.value] <==>
             reg[i].name in granted && (reg[i].restricted ==> verdict(reg[i].name) == Allows)))
    && (forall c :: c in claims ==> exists i :: 0 <= i < |reg| && reg[i].claim == Some(c))
  }

  ghost predicate Answers(cfg: Config, reg: Registry, verdict: Scope -> Verdict, db: Store, t: AccessToken, asker: Id,
                          answer: Answer) {
    && (answer != Inactive <==>
          && t.client == asker
          && Carried(cfg, db, t)
          && SilentRulesHold(reg, verdict, DecodeScopes(t.scope))
          && NamesLiveSession(db, t))
    && (answer.Active? ==> Reported(reg, verdict, DecodeScopes(t.scope), answer.claims))
  }

  /** A granted scope passes unless its definition fails closed or reports that it lapsed. */
  lemma AllowedByDefinition(reg: Registry, verdict: Scope -> Verdict, scopes: seq<Scope>)
    requires WellFormed(reg)
    ensures AllAllowed(reg, verdict, scopes) <==> RulesHold(reg, verdict, scopes)
  {
    if AllAllowed(reg, verdict, scopes) {
      forall i | 0 <= i < |reg| && reg[i].restricted && reg[i].name in scopes ensures verdict(reg[i].name) == Allows {
        PlaceOf(reg, i);
        var k :| 0 <= k < |scopes| && scopes[k] == reg[i].name;
        assert Passes(reg, verdict, scopes[k]);
      }
    }
    if RulesHold(reg, verdict, scopes) {
      forall k | 0 <= k < |scopes| ensures Passes(reg, verdict, scopes[k]) {
        var p := Place(reg, scopes[k]);
        if p < |reg| { assert reg[p].name in scopes; }
      }
    }
  }

  /** For any token and state, UserInfo accepts exactly when the token has `openid`, its own
      client is told it is active, and every live-authority boolean of a granted scope is true. */
  lemma NeverContradict(cfg: Config, reg: Registry, verdict: Scope -> Verdict, db: Store, t: AccessToken,
                        answer: Answer)
    requires WellFormed(reg) && Answers(cfg, reg, verdict, db, t, t.client, answer)
    ensures var scopes := DecodeScopes(t.scope);
      UserInfoAccepts(cfg, reg, verdict, db, t) <==>
      "openid" in scopes && answer.Active? && AllTrue(reg, scopes, answer.claims)
  {
    var scopes := DecodeScopes(t.scope);
    if answer.Active? && AllTrue(reg, scopes, answer.claims) {
      forall i | 0 <= i < |reg| && reg[i].restricted && reg[i].name in scopes ensures verdict(reg[i].name) == Allows {
        if reg[i].claim.Some? { assert answer.claims[reg[i].claim.value]; }
      }
    }
  }

  ghost predicate AllTrue(reg: Registry, granted: seq<Scope>, claims: map<string, bool>) {
    forall i :: 0 <= i < |reg| && reg[i].claim.Some? && reg[i].name in granted ==>
      reg[i].claim.value in claims && claims[reg[i].claim.value]
  }

  /** Nobody but the token's client learns that it is active. */
  lemma OthersLearnNothing(cfg: Config, reg: Registry, verdict: Scope -> Verdict, db: Store, t: AccessToken,
                           asker: Id, answer: Answer)
    requires asker != t.client && Answers(cfg, reg, verdict, db, t, asker, answer)
    ensures answer == Inactive
  {
  }
}
