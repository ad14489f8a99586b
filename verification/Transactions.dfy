/** What each database transaction does to the tables: the guards in the order the
    provider checks them, and the committed result. A refused transaction changes nothing. */
module Transactions {
  import opened Prelude
  import opened Tables

  datatype Refusal =
    | ClientIneligible
    | AccountUnavailable
    | GrantRevoked
    | SessionGone
    | RequestSpent
    | PkceFailed
    | CodeExpired
    | CodeReplayed
    | TokenUnclaimable

  datatype Outcome = Committed(db: Store) | Refused(why: Refusal)

  // --- Guards --------------------------------------------------------------

  predicate AuthorizationClientEligible(db: Store, client: Id, scopes: set<Scope>, redirect: Uri) {
    && client in db.clients
    && var c := db.clients[client];
    && c.status.ClientApproved?
    && c.codeGrant
    && scopes <= c.scopes
    && redirect in c.redirects
  }

  datatype GrantType = AuthorizationCode | RefreshToken

  predicate AllowsGrant(c: Client, grantType: GrantType) {
    match grantType
    case AuthorizationCode => c.codeGrant
    case RefreshToken => c.refreshGrant
  }

  predicate TokenClientEligible(db: Store, client: Id, scopes: set<Scope>, grantType: GrantType) {
    && client in db.clients
    && var c := db.clients[client];
    && c.status.ClientApproved?
    && AllowsGrant(c, grantType)
    && scopes <= c.scopes
  }

  /** The rule of every restricted scope asked for holds of the account. */
  predicate AllowedForUser(cfg: Config, user: User, scopes: set<Scope>) {
    scopes * cfg.restricted <= user.entitled
  }

  predicate UsableAccount(db: Store, user: Id) {
    user in db.users && !db.users[user].status.UserDisabled?
  }

  predicate AccountEligible(cfg: Config, db: Store, user: Id, scopes: set<Scope>) {
    UsableAccount(db, user) && AllowedForUser(cfg, db.users[user], scopes)
  }

  predicate GrantCovers(grants: map<(Id, Id), Grant>, user: Id, client: Id, scopes: set<Scope>) {
    && (user, client) in grants
    && grants[(user, client)].revokedAt.None?
    && scopes <= grants[(user, client)].scopes
  }

  predicate BrowserSessionLive(db: Store, session: Id, user: Id, at: Time) {
    session in db.sessions && db.sessions[session].user == Some(user) && at < db.sessions[session].expiresAt
  }

  predicate OidcLive(db: Store, session: Id, client: Id) {
    (session, client) in db.oidc && db.oidc[(session, client)].revokedAt.None?
  }

  // --- Authorization -------------------------------------------------------

  /** What the consent endpoint carries from its reads into its transaction. */
  datatype Completion = Completion(
    request: Id, client: Id, redirect: Uri, challenged: bool, scopes: set<Scope>,
    approved: Option<set<Scope>>, user: Id, session: Id)

  /** The scopes a completed authorization asks for: all requested ones, or the ones the
      user ticked, with `openid` riding along whenever it was requested. */
  function CompletedScopes(requested: set<Scope>, approved: Option<set<Scope>>): (scopes: set<Scope>)
    ensures forall s :: s in scopes <==>
      s in requested && (approved.None? || s in approved.value || s == OPENID)
  {
    match approved
    case None => requested
    case Some(ticked) => requested * ticked + (requested * {OPENID})
  }

  /** Recording consent under the grant's row lock: a live grant widens, anything else starts over. */
  function Widened(grants: map<(Id, Id), Grant>, key: (Id, Id), scopes: set<Scope>): Grant {
    if key !in grants then Grant(scopes, None, 1)
    else
      var held := grants[key];
      Grant((if held.revokedAt.None? then held.scopes else {}) + scopes, None, held.version + 1)
  }

  function GrantsAfter(db: Store, p: Completion): map<(Id, Id), Grant>
    requires p.client in db.clients
  {
    if p.approved.Some? || !db.clients[p.client].requireConsent
    then db.grants[(p.user, p.client) := Widened(db.grants, (p.user, p.client), p.scopes)]
    else db.grants
  }

  /** Establishing the per-client session: the row keeps its published id when it exists. */
  function Established(db: Store, p: Completion, at: Time, sid: Id): Oidc
    requires p.session in db.sessions
  {
    var key := (p.session, p.client);
    Oidc(if key in db.oidc then db.oidc[key].id else sid, p.user, db.sessions[p.session].createdAt, at, None)
  }

  function MintedCode(cfg: Config, db: Store, p: Completion, at: Time): Code
    requires p.session in db.sessions
  {
    Code(p.client, p.user, p.session, p.redirect, p.scopes, p.challenged,
         db.sessions[p.session].createdAt, at + cfg.codeTtl, None)
  }

  predicate RequestClaimable(db: Store, request: Id, at: Time) {
    && request in db.requests
    && db.requests[request].consumedAt.None?
    && at < db.requests[request].expiresAt
  }

  function ConsumedRequest(db: Store, request: Id, at: Time): map<Id, Request>
    requires request in db.requests
  {
    db.requests[request := db.requests[request].(consumedAt := Some(at))]
  }

  function IssueCode(cfg: Config, db: Store, p: Completion, at: Time, code: Id, sid: Id): Outcome {
    if !AuthorizationClientEligible(db, p.client, p.scopes, p.redirect) then Refused(ClientIneligible)
    else if !AccountEligible(cfg, db, p.user, p.scopes) then Refused(AccountUnavailable)
    else
      var grants := GrantsAfter(db, p);
      if !GrantCovers(grants, p.user, p.client, p.scopes) then Refused(GrantRevoked)
      else if !BrowserSessionLive(db, p.session, p.user, at) then Refused(SessionGone)
      else if !RequestClaimable(db, p.request, at) then Refused(RequestSpent)
      else Committed(db.(
        grants := grants,
        requests := ConsumedRequest(db, p.request, at),
        oidc := db.oidc[(p.session, p.client) := Established(db, p, at, sid)],
        codes := db.codes[code := MintedCode(cfg, db, p, at)]))
  }

  // --- Token endpoint ------------------------------------------------------

  /** The code_verifier a token request presents, compared with the code's challenge. */
  datatype Verifier = NoVerifier | MatchingVerifier | WrongVerifier

  predicate PkceHolds(row: Code, verifier: Verifier, requiresPkce: bool) {
    if row.challenged then verifier.MatchingVerifier? else verifier.NoVerifier? && !requiresPkce
  }

  predicate WantsRefresh(client: Client, scopes: set<Scope>) {
    client.refreshGrant && (OFFLINE_ACCESS in scopes || (client.firstParty && OPENID !in scopes))
  }

  /** What a token response is minted for. */
  datatype Issue = Issue(
    client: Id, user: Id, session: Id, scopes: set<Scope>, authTime: Time,
    family: Id, parent: Option<Id>)

  function MintedRefresh(cfg: Config, i: Issue, at: Time): Refresh {
    Refresh(i.family, i.parent, i.client, i.user, i.session, i.scopes, i.authTime, at + cfg.refreshTtl, None, None)
  }

  /** Storing the refresh token, if any, and touching the per-client session. */
  function IssueTokens(cfg: Config, db: Store, i: Issue, at: Time, token: Id, mint: bool): Store
    requires i.client in db.clients && (i.session, i.client) in db.oidc
  {
    var key := (i.session, i.client);
    db.(refresh := if mint && WantsRefresh(db.clients[i.client], i.scopes)
                   then db.refresh[token := MintedRefresh(cfg, i, at)] else db.refresh,
        oidc := db.oidc[key := db.oidc[key].(lastSeenAt := at)])
  }

  predicate CodeClaimable(db: Store, code: Id, at: Time) {
    code in db.codes && db.codes[code].usedAt.None? && at < db.codes[code].expiresAt
  }

  function ClaimedCode(db: Store, code: Id, at: Time): Store
    requires code in db.codes
  {
    db.(codes := db.codes[code := db.codes[code].(usedAt := Some(at))])
  }

  function CodeIssue(row: Code, client: Id, family: Id): Issue {
    Issue(client, row.user, row.session, row.scopes, row.authTime, family, None)
  }

  /** Redeeming `code`, whose row was read earlier as `row`. */
  function Redeem(cfg: Config, db: Store, code: Id, row: Code, client: Id, verifier: Verifier,
                  at: Time, token: Id, family: Id): Outcome
  {
    if !TokenClientEligible(db, client, row.scopes, AuthorizationCode)
       || row.redirect !in db.clients[client].redirects then Refused(ClientIneligible)
    else if !PkceHolds(row, verifier, db.clients[client].requiresPkce) then Refused(PkceFailed)
    else if !AccountEligible(cfg, db, row.user, row.scopes) then Refused(AccountUnavailable)
    else if !GrantCovers(db.grants, row.user, client, row.scopes) then Refused(GrantRevoked)
    else if !CodeClaimable(db, code, at) then
      Refused(if code in db.codes && db.codes[code].usedAt.Some? then CodeReplayed else CodeExpired)
    else if !OidcLive(db, row.session, client) then Refused(SessionGone)
    else Committed(IssueTokens(cfg, ClaimedCode(db, code, at), CodeIssue(row, client, family), at, token, true))
  }

  predicate RefreshClaimable(db: Store, token: Id, at: Time) {
    && token in db.refresh
    && db.refresh[token].usedAt.None?
    && db.refresh[token].revokedAt.None?
    && at < db.refresh[token].expiresAt
  }

  function ClaimedRefresh(cfg: Config, db: Store, token: Id, at: Time): Store
    requires token in db.refresh
  {
    if cfg.rotate then db.(refresh := db.refresh[token := db.refresh[token].(usedAt := Some(at))]) else db
  }

  function RefreshIssue(row: Refresh, token: Id, client: Id, scopes: set<Scope>): Issue {
    Issue(client, row.user, row.session, scopes, row.authTime, row.family, Some(token))
  }

  /** Exchanging `token`, whose row was read earlier as `row`, for `scopes`. With rotation
      the token is retired and replaced; without it the row is only locked and kept. */
  function ExchangeRefresh(cfg: Config, db: Store, token: Id, row: Refresh, client: Id, scopes: set<Scope>,
                           at: Time, minted: Id): Outcome
  {
    if !TokenClientEligible(db, client, scopes, RefreshToken) then Refused(ClientIneligible)
    else if !AccountEligible(cfg, db, row.user, scopes) then Refused(AccountUnavailable)
    else if !GrantCovers(db.grants, row.user, client, scopes) then Refused(GrantRevoked)
    else if !RefreshClaimable(db, token, at) then Refused(TokenUnclaimable)
    else if !OidcLive(db, row.session, client) then Refused(SessionGone)
    else Committed(IssueTokens(cfg, ClaimedRefresh(cfg, db, token, at),
                               RefreshIssue(row, token, client, scopes), at, minted, cfg.rotate))
  }

  // --- Revocation ----------------------------------------------------------

  /** UPDATE refresh_tokens SET revoked_at WHERE id IN `ids` AND revoked_at IS NULL. */
  function RevokeRefresh(refresh: map<Id, Refresh>, ids: set<Id>, at: Time): map<Id, Refresh> {
    map t | t in refresh
      :: if t in ids && refresh[t].revokedAt.None? then refresh[t].(revokedAt := Some(at)) else refresh[t]
  }

  /** UPDATE authorization_codes SET used_at WHERE id IN `ids` AND used_at IS NULL. */
  function SpendCodes(codes: map<Id, Code>, ids: set<Id>, at: Time): map<Id, Code> {
    map c | c in codes :: if c in ids && codes[c].usedAt.None? then codes[c].(usedAt := Some(at)) else codes[c]
  }

  /** UPDATE oidc_sessions SET revoked_at WHERE key IN `keys` AND revoked_at IS NULL. */
  function EndOidc(oidc: map<(Id, Id), Oidc>, keys: set<(Id, Id)>, at: Time): map<(Id, Id), Oidc> {
    map k | k in oidc :: if k in keys && oidc[k].revokedAt.None? then oidc[k].(revokedAt := Some(at)) else oidc[k]
  }

  function FamilyRows(db: Store, family: Id): set<Id> {
    set t | t in db.refresh && db.refresh[t].family == family
  }

  function PairRefresh(db: Store, user: Id, client: Id): set<Id> {
    set t | t in db.refresh && db.refresh[t].user == user && db.refresh[t].client == client
  }

  function PairCodes(db: Store, user: Id, client: Id): set<Id> {
    set c | c in db.codes && db.codes[c].user == user && db.codes[c].client == client
  }

  function PairOidc(db: Store, user: Id, client: Id): set<(Id, Id)> {
    set k | k in db.oidc && db.oidc[k].user == user && k.1 == client
  }

  function SessionClientRefresh(db: Store, session: Id, client: Id): set<Id> {
    set t | t in db.refresh && db.refresh[t].session == session && db.refresh[t].client == client
  }

  /** revokeFamily: the family's owner was read first, and nothing happens if it is gone. */
  function RevokeFamily(db: Store, family: Id, client: Id, user: Id, at: Time): Store {
    if client !in db.clients || user !in db.users then db
    else db.(refresh := RevokeRefresh(db.refresh, FamilyRows(db, family), at))
  }

  /** revokeTokensForSession: refresh tokens and the per-client session of one browser session. */
  function RevokeForSession(db: Store, session: Id, client: Id, user: Id, at: Time): Store {
    if client !in db.clients || user !in db.users then db
    else db.(
      refresh := RevokeRefresh(db.refresh, SessionClientRefresh(db, session, client), at),
      oidc := EndOidc(db.oidc, {(session, client)}, at))
  }

  /** The logout notices owed for the live sessions among `keys`. */
  function NoticesFor(db: Store, keys: set<(Id, Id)>): set<Notice> {
    set k | k in keys && k in db.oidc && db.oidc[k].revokedAt.None?
            && k.1 in db.clients && db.clients[k.1].logoutEndpoint
         :: Notice(k.1, db.oidc[k].id, db.oidc[k].user)
  }

  predicate Withdrawable(db: Store, user: Id, client: Id) {
    && client in db.clients && user in db.users
    && (user, client) in db.grants && db.grants[(user, client)].revokedAt.None?
  }

  /** revokeGrant: grant, refresh tokens, codes, sessions and logout notices in one commit. */
  function Withdraw(db: Store, user: Id, client: Id, at: Time): Store
    requires Withdrawable(db, user, client)
  {
    var g := db.grants[(user, client)];
    db.(
      grants := db.grants[(user, client) := Grant(g.scopes, Some(at), g.version + 1)],
      refresh := RevokeRefresh(db.refresh, PairRefresh(db, user, client), at),
      codes := SpendCodes(db.codes, PairCodes(db, user, client), at),
      oidc := EndOidc(db.oidc, PairOidc(db, user, client), at),
      outbox := db.outbox + multiset(NoticesFor(db, PairOidc(db, user, client))))
  }

  function SessionOidc(db: Store, session: Id): set<(Id, Id)> {
    set k | k in db.oidc && k.0 == session
  }

  function SessionUserOidc(db: Store, session: Id, user: Id): set<(Id, Id)> {
    set k | k in db.oidc && k.0 == session && db.oidc[k].user == user
  }

  predicate Endable(db: Store, session: Id, user: Id) {
    user in db.users && session in db.sessions && db.sessions[session].user == Some(user)
  }

  /** endSessions: the browser session goes, its clients' sessions end, notices are queued. */
  function EndBrowserSession(db: Store, session: Id, user: Id, at: Time): Store
    requires Endable(db, session, user)
  {
    var keys := SessionUserOidc(db, session, user);
    db.(
      sessions := db.sessions - {session},
      oidc := EndOidc(db.oidc, keys, at),
      outbox := db.outbox + multiset(NoticesFor(db, keys)))
  }

  /** sessionService.logout and revoke: no notices, every client's session ends. */
  function Logout(db: Store, session: Id, at: Time): Store {
    db.(sessions := db.sessions - {session}, oidc := EndOidc(db.oidc, SessionOidc(db, session), at))
  }

  function UserSessions(db: Store, user: Id): set<Id> {
    set s | s in db.sessions && db.sessions[s].user == Some(user)
  }

  function UserRefresh(db: Store, user: Id): set<Id> {
    set t | t in db.refresh && db.refresh[t].user == user
  }

  function UserCodes(db: Store, user: Id): set<Id> {
    set c | c in db.codes && db.codes[c].user == user
  }

  function UserOidc(db: Store, user: Id): set<(Id, Id)> {
    set k | k in db.oidc && db.oidc[k].user == user
  }

  /** revokeAllCredentialsWith, without the one-time mail tokens. */
  function RevokeAll(db: Store, user: Id, at: Time): Store {
    db.(
      sessions := db.sessions - UserSessions(db, user),
      refresh := RevokeRefresh(db.refresh, UserRefresh(db, user), at),
      codes := SpendCodes(db.codes, UserCodes(db, user), at),
      oidc := EndOidc(db.oidc, UserOidc(db, user), at))
  }

  /** setStatus on an account: disabling also revokes every credential in the same commit. */
  function SetUserStatus(db: Store, user: Id, status: UserStatus, at: Time): Store
    requires user in db.users
  {
    var updated := db.(users := db.users[user := db.users[user].(status := status)]);
    if status.UserDisabled? then RevokeAll(updated, user, at) else updated
  }

  /** What clientService.setStatus revokes when it disables or rejects a client. */
  function ClientRefresh(db: Store, client: Id): set<Id> {
    set t | t in db.refresh && db.refresh[t].client == client
  }

  function ClientOidc(db: Store, client: Id): set<(Id, Id)> {
    set k | k in db.oidc && k.1 == client
  }

  /** Setting a new password confirms a pending account. */
  function PromotedUser(db: Store, user: Id): Store
    requires user in db.users
  {
    if db.users[user].status.UserPending? then db.(users := db.users[user := db.users[user].(status := UserActive)])
    else db
  }

  // --- What a revocation leaves behind --------------------------------------

  /** No refresh token of the family can be claimed, now or later. */
  ghost predicate FamilyShut(refresh: map<Id, Refresh>, family: Id) {
    forall t {:trigger t in refresh} :: t in refresh && refresh[t].family == family ==> refresh[t].revokedAt.Some?
  }

  ghost predicate NothingLive(db: Store, user: Id) {
    && (forall t :: t in db.refresh && db.refresh[t].user == user ==> db.refresh[t].revokedAt.Some?)
    && (forall c :: c in db.codes && db.codes[c].user == user ==> db.codes[c].usedAt.Some?)
    && (forall k :: k in db.oidc && db.oidc[k].user == user ==> db.oidc[k].revokedAt.Some?)
  }

  ghost predicate NoLiveRefresh(refresh: map<Id, Refresh>, client: Id) {
    forall t :: t in refresh && refresh[t].client == client ==> refresh[t].revokedAt.Some?
  }

  ghost predicate NoLiveOidc(oidc: map<(Id, Id), Oidc>, client: Id) {
    forall k :: k in oidc && k.1 == client ==> oidc[k].revokedAt.Some?
  }

  ghost predicate NotApproved(clients: map<Id, Client>, client: Id) {
    client in clients ==> !clients[client].status.ClientApproved?
  }

  lemma RevokeAllKills(db: Store, user: Id, at: Time)
    ensures NothingLive(RevokeAll(db, user, at), user) && UserSessions(RevokeAll(db, user, at), user) == {}
  {
    var b := RevokeAll(db, user, at);
    forall t | t in b.refresh && b.refresh[t].user == user ensures b.refresh[t].revokedAt.Some? {
      assert t in UserRefresh(db, user);
    }
    forall c | c in b.codes && b.codes[c].user == user ensures b.codes[c].usedAt.Some? {
      assert c in UserCodes(db, user);
    }
    forall k | k in b.oidc && b.oidc[k].user == user ensures b.oidc[k].revokedAt.Some? {
      assert k in UserOidc(db, user);
    }
  }

  lemma ClientShut(db: Store, client: Id, at: Time)
    ensures NoLiveRefresh(RevokeRefresh(db.refresh, ClientRefresh(db, client), at), client)
    ensures NoLiveOidc(EndOidc(db.oidc, ClientOidc(db, client), at), client)
  {
    var refresh := RevokeRefresh(db.refresh, ClientRefresh(db, client), at);
    forall t | t in refresh && refresh[t].client == client ensures refresh[t].revokedAt.Some? {
      assert t in ClientRefresh(db, client);
    }
  }

  // --- Deletion ------------------------------------------------------------

  /** clientService.remove: the foreign keys cascade. */
  function RemoveClient(db: Store, client: Id): Store {
    db.(
      clients := db.clients - {client},
      grants := map k | k in db.grants && k.1 != client :: db.grants[k],
      codes := map c | c in db.codes && db.codes[c].client != client :: db.codes[c],
      refresh := map t | t in db.refresh && db.refresh[t].client != client :: db.refresh[t],
      oidc := map k | k in db.oidc && k.1 != client :: db.oidc[k])
  }

  function PruneRequests(db: Store, cutoff: Time): Store {
    db.(requests := map r | r in db.requests && !(db.requests[r].expiresAt < cutoff || db.requests[r].consumedAt.Some?)
                        :: db.requests[r])
  }

  predicate CodePrunable(cfg: Config, row: Code, cutoff: Time) {
    match row.usedAt
    case None => row.expiresAt < cutoff
    case Some(used) => used < cutoff - Retention(cfg)
  }

  function PruneCodes(cfg: Config, db: Store, cutoff: Time): Store {
    db.(codes := map c | c in db.codes && !CodePrunable(cfg, db.codes[c], cutoff) :: db.codes[c])
  }

  function PruneRefresh(db: Store, cutoff: Time): Store {
    db.(refresh := map t | t in db.refresh && !(db.refresh[t].expiresAt < cutoff) :: db.refresh[t])
  }

  /** One batch of pruneStaleOidcSessions deletes `keys`, re-checking staleness in the delete. */
  function PruneOidc(cfg: Config, db: Store, keys: set<(Id, Id)>, cutoff: Time): Store {
    db.(oidc := map k | k in db.oidc && !(k in keys && db.oidc[k].lastSeenAt < cutoff - Retention(cfg)) :: db.oidc[k])
  }
}
