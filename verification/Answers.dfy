/** What the credential transactions answer, in rows and columns: which check refuses, in the
    order of the checks, and which columns a commit writes. Nothing here computes an answer. */
module Answers {
  import opened Prelude
  import opened Tables
  import opened Transactions

  // --- The checks, column by column ----------------------------------------

  ghost predicate MayUseCodes(db: Store, client: Id, scopes: set<Scope>, redirect: Uri) {
    && client in db.clients
    && db.clients[client].status == ClientApproved
    && db.clients[client].codeGrant
    && (forall s :: s in scopes ==> s in db.clients[client].scopes)
    && redirect in db.clients[client].redirects
  }

  ghost predicate MayRefresh(db: Store, client: Id, scopes: set<Scope>) {
    && client in db.clients
    && db.clients[client].status == ClientApproved
    && db.clients[client].refreshGrant
    && (forall s :: s in scopes ==> s in db.clients[client].scopes)
  }

  /** The code's challenge, or its absence, asks for this verifier (RFC 7636 section 4.6). */
  ghost predicate PkceMet(db: Store, client: Id, row: Code, verifier: Verifier)
    requires client in db.clients
  {
    && (row.challenged ==> verifier == MatchingVerifier)
    && (!row.challenged ==> verifier == NoVerifier && !db.clients[client].requiresPkce)
  }

  ghost predicate AccountMay(cfg: Config, db: Store, user: Id, scopes: set<Scope>) {
    && user in db.users
    && db.users[user].status != UserDisabled
    && (forall s :: s in scopes && s in cfg.restricted ==> s in db.users[user].entitled)
  }

  ghost predicate GrantHolds(db: Store, user: Id, client: Id, scopes: set<Scope>) {
    && (user, client) in db.grants
    && db.grants[(user, client)].revokedAt == None
    && (forall s :: s in scopes ==> s in db.grants[(user, client)].scopes)
  }

  ghost predicate SignedIn(db: Store, session: Id, user: Id, at: Time) {
    && session in db.sessions
    && db.sessions[session].user == Some(user)
    && at < db.sessions[session].expiresAt
  }

  ghost predicate Open(db: Store, request: Id, at: Time) {
    && request in db.requests
    && db.requests[request].consumedAt == None
    && at < db.requests[request].expiresAt
  }

  ghost predicate SessionHolds(db: Store, session: Id, client: Id) {
    (session, client) in db.oidc && db.oidc[(session, client)].revokedAt == None
  }

  // --- Committing an authorization -----------------------------------------

  /** Consent stands: given now, not needed, or on record for every scope. */
  ghost predicate Consented(db: Store, p: Completion)
    requires p.client in db.clients
  {
    p.approved.Some? || !db.clients[p.client].requireConsent || GrantHolds(db, p.user, p.client, p.scopes)
  }

  ghost predicate IssueCodeRefuses(cfg: Config, db: Store, p: Completion, at: Time, refusal: Option<Refusal>) {
    var client := MayUseCodes(db, p.client, p.scopes, p.redirect);
    var account := client && AccountMay(cfg, db, p.user, p.scopes);
    var consent := account && Consented(db, p);
    var browser := consent && SignedIn(db, p.session, p.user, at);
    && (refusal == Some(ClientIneligible) <==> !client)
    && (refusal == Some(AccountUnavailable) <==> client && !account)
    && (refusal == Some(GrantRevoked) <==> account && !consent)
    && (refusal == Some(SessionGone) <==> consent && !browser)
    && (refusal == Some(RequestSpent) <==> browser && !Open(db, p.request, at))
    && (refusal == None <==> browser && Open(db, p.request, at))
  }

  /** Consent that was given or waived is on record as a live grant for what was held live
      before and what was approved now; otherwise grants are untouched. */
  ghost predicate GrantWritten(a: Store, b: Store, p: Completion) {
    var key := (p.user, p.client);
    if p.approved.Some? || (p.client in a.clients && !a.clients[p.client].requireConsent) then
      && b.grants.Keys == a.grants.Keys + {key}
      && (forall k :: k in a.grants && k != key ==> b.grants[k] == a.grants[k])
      && b.grants[key].revokedAt == None
      && (forall s :: s in b.grants[key].scopes <==>
            s in p.scopes || (key in a.grants && a.grants[key].revokedAt == None && s in a.grants[key].scopes))
      && b.grants[key].version == if key in a.grants then a.grants[key].version + 1 else 1
    else b.grants == a.grants
  }

  ghost predicate CodeWritten(cfg: Config, a: Store, b: Store, p: Completion, at: Time, code: Id)
    requires p.session in a.sessions
  {
    && b.codes.Keys == a.codes.Keys + {code}
    && (forall c :: c in a.codes && c != code ==> b.codes[c] == a.codes[c])
    && var row := b.codes[code];
    && row.client == p.client && row.user == p.user && row.session == p.session
    && row.redirect == p.redirect && row.scopes == p.scopes && row.challenged == p.challenged
    && row.authTime == a.sessions[p.session].createdAt
    && row.expiresAt == at + cfg.codeTtl && row.usedAt == None
  }

  ghost predicate SessionWritten(a: Store, b: Store, p: Completion, at: Time, sid: Id)
    requires p.session in a.sessions
  {
    var key := (p.session, p.client);
    && b.oidc.Keys == a.oidc.Keys + {key}
    && (forall k :: k in a.oidc && k != key ==> b.oidc[k] == a.oidc[k])
    && b.oidc[key].id == (if key in a.oidc then a.oidc[key].id else sid)
    && b.oidc[key].user == p.user && b.oidc[key].authTime == a.sessions[p.session].createdAt
    && b.oidc[key].lastSeenAt == at && b.oidc[key].revokedAt == None
  }

  ghost predicate RequestWritten(a: Store, b: Store, request: Id, at: Time) {
    && request in a.requests && b.requests.Keys == a.requests.Keys
    && b.requests[request] == a.requests[request].(consumedAt := Some(at))
    && forall r :: r in a.requests && r != request ==> b.requests[r] == a.requests[r]
  }

  ghost predicate IssueCodeWrites(cfg: Config, a: Store, b: Store, p: Completion, at: Time, code: Id, sid: Id)
    requires p.session in a.sessions
  {
    var grant := GrantWritten(a, b, p);
    var request := RequestWritten(a, b, p.request, at);
    var minted := CodeWritten(cfg, a, b, p, at, code);
    var session := SessionWritten(a, b, p, at, sid);
    var rest := b == a.(grants := b.grants, requests := b.requests, codes := b.codes, oidc := b.oidc);
    grant && request && minted && session && rest
  }

  ghost predicate IssueCodeAnswers(cfg: Config, a: Store, b: Store, p: Completion, at: Time, code: Id, sid: Id,
                                   refusal: Option<Refusal>) {
    var refuses := IssueCodeRefuses(cfg, a, p, at, refusal);
    var writes := if refusal.Some? then b == a
                  else p.session in a.sessions && IssueCodeWrites(cfg, a, b, p, at, code, sid);
    refuses && writes
  }

  lemma IssueCodeAnswered(cfg: Config, db: Store, p: Completion, at: Time, code: Id, sid: Id)
    ensures var outcome := IssueCode(cfg, db, p, at, code, sid);
      IssueCodeAnswers(cfg, db, AfterOutcome(db, outcome), p, at, code, sid, RefusalOf(outcome))
  {
  }

  function AfterOutcome(db: Store, outcome: Outcome): Store { if outcome.Committed? then outcome.db else db }

  function RefusalOf(outcome: Outcome): Option<Refusal> { if outcome.Committed? then None else Some(outcome.why) }

  // --- Redeeming a code ----------------------------------------------------

  /** Everything that is looked at before the code itself. */
  ghost predicate CodeChecks(cfg: Config, db: Store, row: Code, client: Id, verifier: Verifier) {
    && MayUseCodes(db, client, row.scopes, row.redirect)
    && PkceMet(db, client, row, verifier)
    && AccountMay(cfg, db, row.user, row.scopes)
    && GrantHolds(db, row.user, client, row.scopes)
  }

  ghost predicate RedeemRefuses(cfg: Config, db: Store, code: Id, row: Code, client: Id, verifier: Verifier, at: Time,
                                refusal: Option<Refusal>) {
    var mayRedeem := MayUseCodes(db, client, row.scopes, row.redirect);
    var pkce := mayRedeem && PkceMet(db, client, row, verifier);
    var account := pkce && AccountMay(cfg, db, row.user, row.scopes);
    var checks := account && GrantHolds(db, row.user, client, row.scopes);
    var claimable := checks && code in db.codes && db.codes[code].usedAt == None && at < db.codes[code].expiresAt;
    && (refusal == Some(ClientIneligible) <==> !mayRedeem)
    && (refusal == Some(PkceFailed) <==> mayRedeem && !pkce)
    && (refusal == Some(AccountUnavailable) <==> pkce && !account)
    && (refusal == Some(GrantRevoked) <==> account && !checks)
    && (refusal == Some(CodeReplayed) <==> checks && code in db.codes && db.codes[code].usedAt != None)
    && (refusal == Some(CodeExpired) <==>
          checks && (code in db.codes ==> db.codes[code].usedAt == None && db.codes[code].expiresAt <= at))
    && (refusal == Some(SessionGone) <==> claimable && !SessionHolds(db, row.session, client))
    && (refusal == None <==> claimable && SessionHolds(db, row.session, client))
  }

  /** A refresh token comes with the response for `offline_access` (OIDC Core section 11), and to
      a first-party client that did not ask for `openid`, if the client may refresh at all. */
  ghost predicate RefreshDue(client: Client, scopes: set<Scope>) {
    client.refreshGrant && ("offline_access" in scopes || (client.firstParty && "openid" !in scopes))
  }

  ghost predicate TokenColumns(row: Refresh, i: Issue, expiresAt: Time) {
    && row.family == i.family && row.parent == i.parent && row.client == i.client && row.user == i.user
    && row.session == i.session && row.scopes == i.scopes && row.authTime == i.authTime
    && row.expiresAt == expiresAt && row.usedAt == None && row.revokedAt == None
  }

  ghost predicate TokenWritten(cfg: Config, a: Store, b: Store, i: Issue, at: Time, token: Id) {
    && b.refresh.Keys == a.refresh.Keys + {token}
    && (forall t :: t in a.refresh && t != token ==> b.refresh[t] == a.refresh[t])
    && TokenColumns(b.refresh[token], i, at + cfg.refreshTtl)
  }

  ghost predicate SessionTouched(a: Store, b: Store, key: (Id, Id), at: Time) {
    && key in a.oidc && b.oidc.Keys == a.oidc.Keys
    && b.oidc[key] == a.oidc[key].(lastSeenAt := at)
    && forall k :: k in a.oidc && k != key ==> b.oidc[k] == a.oidc[k]
  }

  /** What storing the tokens of a response writes: with `mint`, a refresh token that is due. */
  ghost predicate IssueTokensWrites(cfg: Config, a: Store, b: Store, i: Issue, at: Time, token: Id, mint: bool) {
    var due := mint && i.client in a.clients && RefreshDue(a.clients[i.client], i.scopes);
    var tokens := if due then TokenWritten(cfg, a, b, i, at, token) else b.refresh == a.refresh;
    var session := SessionTouched(a, b, (i.session, i.client), at);
    var rest := b == a.(refresh := b.refresh, oidc := b.oidc);
    tokens && session && rest
  }

  lemma IssueTokensWritten(cfg: Config, db: Store, i: Issue, at: Time, token: Id, mint: bool)
    requires i.client in db.clients && (i.session, i.client) in db.oidc
    ensures IssueTokensWrites(cfg, db, IssueTokens(cfg, db, i, at, token, mint), i, at, token, mint)
  {
  }

  /** The token can be claimed from now on, exactly until its lifetime is over. */
  lemma WrittenIsClaimable(cfg: Config, a: Store, b: Store, i: Issue, at: Time, token: Id, later: Time)
    requires TokenWritten(cfg, a, b, i, at, token)
    ensures RefreshClaimable(b, token, later) <==> later < at + cfg.refreshTtl
  {
  }

  ghost predicate CodeUsed(a: Store, b: Store, code: Id, at: Time) {
    && code in a.codes && b.codes.Keys == a.codes.Keys
    && b.codes[code] == a.codes[code].(usedAt := Some(at))
    && forall c :: c in a.codes && c != code ==> b.codes[c] == a.codes[c]
  }

  ghost predicate RedeemWrites(cfg: Config, a: Store, b: Store, code: Id, row: Code, client: Id, at: Time, token: Id,
                               family: Id) {
    && CodeUsed(a, b, code, at)
    && IssueTokensWrites(cfg, a.(codes := b.codes), b,
                         Issue(client, row.user, row.session, row.scopes, row.authTime, family, None), at, token, true)
  }

  ghost predicate RedeemAnswers(cfg: Config, a: Store, b: Store, code: Id, row: Code, client: Id, verifier: Verifier,
                                at: Time, token: Id, family: Id, refusal: Option<Refusal>) {
    var refuses := RedeemRefuses(cfg, a, code, row, client, verifier, at, refusal);
    var writes := if refusal.Some? then b == a else RedeemWrites(cfg, a, b, code, row, client, at, token, family);
    refuses && writes
  }

  lemma RedeemAnswered(cfg: Config, db: Store, code: Id, row: Code, client: Id, verifier: Verifier, at: Time, token: Id,
                       family: Id)
    ensures var outcome := Redeem(cfg, db, code, row, client, verifier, at, token, family);
      RedeemAnswers(cfg, db, AfterOutcome(db, outcome), code, row, client, verifier, at, token, family,
                    RefusalOf(outcome))
  {
  }

  // --- Exchanging a refresh token ------------------------------------------

  ghost predicate TokenChecks(cfg: Config, db: Store, row: Refresh, client: Id, scopes: set<Scope>) {
    && MayRefresh(db, client, scopes)
    && AccountMay(cfg, db, row.user, scopes)
    && GrantHolds(db, row.user, client, scopes)
  }

  ghost predicate Claimable(db: Store, token: Id, at: Time) {
    && token in db.refresh && db.refresh[token].usedAt == None && db.refresh[token].revokedAt == None
    && at < db.refresh[token].expiresAt
  }

  ghost predicate ExchangeRefuses(cfg: Config, db: Store, token: Id, row: Refresh, client: Id, scopes: set<Scope>,
                                  at: Time, refusal: Option<Refusal>) {
    var mayRefresh := MayRefresh(db, client, scopes);
    var account := mayRefresh && AccountMay(cfg, db, row.user, scopes);
    var checks := account && GrantHolds(db, row.user, client, scopes);
    && (refusal == Some(ClientIneligible) <==> !mayRefresh)
    && (refusal == Some(AccountUnavailable) <==> mayRefresh && !account)
    && (refusal == Some(GrantRevoked) <==> account && !checks)
    && (refusal == Some(TokenUnclaimable) <==> checks && !Claimable(db, token, at))
    && (refusal == Some(SessionGone) <==> checks && Claimable(db, token, at) && !SessionHolds(db, row.session, client))
    && (refusal == None <==> checks && Claimable(db, token, at) && SessionHolds(db, row.session, client))
  }

  ghost predicate TokenUsed(a: Store, b: map<Id, Refresh>, token: Id, at: Time) {
    && token in a.refresh && b.Keys == a.refresh.Keys
    && b[token] == a.refresh[token].(usedAt := Some(at))
    && forall t :: t in a.refresh && t != token ==> b[t] == a.refresh[t]
  }

  /** With rotation the token is used and its replacement descends from it; without, no refresh
      token changes or is added. */
  ghost predicate ExchangeWrites(cfg: Config, a: Store, b: Store, token: Id, row: Refresh, client: Id,
                                 scopes: set<Scope>, at: Time, minted: Id) {
    exists used: map<Id, Refresh> ::
      && (if cfg.rotate then TokenUsed(a, used, token, at) else used == a.refresh)
      && IssueTokensWrites(cfg, a.(refresh := used), b,
                           Issue(client, row.user, row.session, scopes, row.authTime, row.family, Some(token)), at,
                           minted, cfg.rotate)
  }

  ghost predicate ExchangeAnswers(cfg: Config, a: Store, b: Store, token: Id, row: Refresh, client: Id,
                                  scopes: set<Scope>, at: Time, minted: Id, refusal: Option<Refusal>) {
    var refuses := ExchangeRefuses(cfg, a, token, row, client, scopes, at, refusal);
    var writes := if refusal.Some? then b == a
                  else ExchangeWrites(cfg, a, b, token, row, client, scopes, at, minted);
    refuses && writes
  }

  lemma ExchangeAnswered(cfg: Config, db: Store, token: Id, row: Refresh, client: Id, scopes: set<Scope>, at: Time,
                         minted: Id)
    ensures var outcome := ExchangeRefresh(cfg, db, token, row, client, scopes, at, minted);
      ExchangeAnswers(cfg, db, AfterOutcome(db, outcome), token, row, client, scopes, at, minted, RefusalOf(outcome))
  {
    var outcome := ExchangeRefresh(cfg, db, token, row, client, scopes, at, minted);
    if outcome.Committed? {
      var claimed := ClaimedRefresh(cfg, db, token, at);
      IssueTokensWritten(cfg, claimed, RefreshIssue(row, token, client, scopes), at, minted, cfg.rotate);
      assert claimed == db.(refresh := claimed.refresh);
    }
  }
}
