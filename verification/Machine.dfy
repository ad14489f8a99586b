/** The provider as a state machine. Requests run concurrently: each reads, keeps what it
    read, and later commits one transaction against tables that may have moved on. */
module Machine {
  import opened Prelude
  import opened Tables
  import opened Transactions
  import opened History

  /** A request between two of its database accesses, with the stale copies it holds. */
  datatype Call =
    | Completing(p: Completion, readAt: Time)
    | Denying(request: Id)
    | Burning(code: Id)
    | Redeeming(code: Id, row: Code, client: Id, verifier: Verifier, readAt: Time)
    | Containing(code: Id, row: Code)
    | Refreshing(token: Id, held: Refresh, client: Id, scopes: set<Scope>, readAt: Time)
    | FindingFamily(family: Id)
    | RevokingFamily(family: Id, client: Id, user: Id)
    | ShuttingClient(client: Id, epoch: nat, refreshDone: bool)
    | WritingStatus(user: Id, status: UserStatus)

  /** `approvals` counts how often a client was written APPROVED; `sealed` holds that count
      as it stood when a call that shut the client began. */
  datatype Review = Review(approvals: map<Id, nat>, sealed: map<Id, nat>)

  datatype State = State(db: Store, now: Time, calls: map<Id, Call>, hist: History, review: Review)

  datatype Step =
    | Tick(now: Time)
    | ParkRequest(request: Id, parked: Request)
    | SignIn(session: Id, browser: Session)
    | TouchSession(session: Id, expiresAt: Time)
    | DropSession(session: Id)
    | PutClient(client: Id, registration: Client)
    | DeleteClient(client: Id)
    | PutUser(user: Id, account: User)
    | LoadCompletion(call: Id, p: Completion)
    | CommitCode(call: Id, at: Time, code: Id, sid: Id)
    | LoadDenial(call: Id, request: Id)
    | CommitDenial(call: Id, at: Time)
    | ReadCode(call: Id, code: Id, client: Id, verifier: Verifier)
    | BurnCode(call: Id, at: Time)
    | CommitRedeem(call: Id, at: Time, token: Id, family: Id)
    | LoseRedeem(call: Id, at: Time)
    | Contain(call: Id, at: Time)
    | ReadRefresh(call: Id, token: Id, client: Id, requested: Option<set<Scope>>)
    | CommitRefresh(call: Id, at: Time, minted: Id)
    | LoseRefresh(call: Id, at: Time)
    | RevokeByToken(call: Id, token: Id, client: Id)
    | FindFamily(call: Id, found: Option<Id>)
    | CommitFamily(call: Id, at: Time)
    | RevokeByAccess(session: Id, client: Id, user: Id, at: Time)
    | WithdrawGrant(user: Id, client: Id, at: Time)
    | EndSession(session: Id, user: Id, at: Time)
    | LogoutSession(session: Id, at: Time)
    | RevokeAccount(user: Id, at: Time)
    | ResetPassword(user: Id, at: Time)
    | SetAccountStatus(user: Id, status: UserStatus, at: Time)
    | ReadStatus(call: Id, user: Id)
    | WriteStatus(call: Id)
    | SetClientStatus(call: Id, client: Id, review: ClientStatus)
    | ShutRefresh(call: Id, at: Time)
    | ShutOidc(call: Id, at: Time)
    | SweepRequests(cutoff: Time)
    | SweepCodes(cutoff: Time)
    | SweepRefresh(cutoff: Time)
    | SweepOidc(keys: set<(Id, Id)>, cutoff: Time)
    | Refuse(call: Id, at: Time)
    | Abort(call: Id)

  const EmptyStore := Store(map[], map[], map[], map[], map[], map[], map[], map[], multiset{})

  predicate Initial(s: State) {
    s.db == EmptyStore && s.calls == map[] && s.hist == Nothing && s.review == Review(map[], map[])
  }

  // --- History updates -----------------------------------------------------

  function Stamped(h: History, at: Time): History {
    h.(orderly := h.orderly && h.lastStamp <= at, lastStamp := at)
  }

  function CodeEvent(db: Store, p: Completion, code: Id): Event
    requires p.client in db.clients && p.request in db.requests
  {
    CodeIssued(p.request, code, p.user, p.client, db.requests[p.request].scopes, p.approved, p.scopes,
               !db.clients[p.client].requireConsent)
  }

  /** The code joins the history just after its event was recorded. */
  function WithCode(h: History, db: Store, p: Completion, code: Id, row: Code, sid: Id): History
    requires |h.log| > 0
  {
    h.(seen := h.seen + {code, sid},
       codes := h.codes[code := row],
       issuedAt := h.issuedAt[code := |h.log| - 1],
       sids := if (p.session, p.client) in db.oidc then h.sids else h.sids[sid := (p.session, p.client)])
  }

  function WithRoot(h: History, code: Id, family: Id, token: Id, row: Refresh): History {
    h.(seen := h.seen + {token, family},
       tokens := h.tokens[token := row],
       place := h.place[token := 0],
       families := h.families[family := Family(code, [token])],
       familyOf := h.familyOf[code := family])
  }

  function WithDescendant(h: History, token: Id, row: Refresh): History
    requires row.family in h.families
  {
    var fam := h.families[row.family];
    h.(seen := h.seen + {token},
       tokens := h.tokens[token := row],
       place := h.place[token := |fam.chain|],
       families := h.families[row.family := fam.(chain := fam.chain + [token])])
  }

  function WithAccess(h: History, db: Store, i: Issue, at: Time, code: Id, direct: bool): History
    requires (i.session, i.client) in db.oidc
  {
    h.(access := h.access
       + {Access(db.oidc[(i.session, i.client)].id, i.session, i.client, i.user, i.scopes, at, code, direct)})
  }

  function Epoch(review: Review, client: Id): nat {
    if client in review.approvals then review.approvals[client] else 0
  }

  function Reviewed(review: Review, client: Id, status: ClientStatus): Review {
    if status.ClientApproved? then review.(approvals := review.approvals[client := Epoch(review, client) + 1])
    else review
  }

  function ToldBy(db: Store, keys: set<(Id, Id)>): set<Id> {
    set n | n in NoticesFor(db, keys) :: n.sid
  }

  // --- Steps ---------------------------------------------------------------

  predicate Idle(s: State, call: Id) { call !in s.calls }

  predicate Stamp(s: State, readAt: Time, at: Time) { readAt <= at <= s.now }

  function Start(s: State, call: Id, c: Call): State { s.(calls := s.calls[call := c]) }

  function Done(s: State, call: Id): State { s.(calls := s.calls - {call}) }

  predicate ParkRequestStep(cfg: Config, s: State, s': State, r: Id, row: Request) {
    && r !in s.hist.seen
    && row.consumedAt.None? && row.expiresAt == s.now + cfg.requestTtl
    && s' == s.(db := s.db.(requests := s.db.requests[r := row]), hist := s.hist.(seen := s.hist.seen + {r}))
  }

  predicate SignInStep(s: State, s': State, session: Id, row: Session) {
    && session !in s.hist.seen
    && (row.user.Some? ==> row.user.value in s.db.users)
    && s' == s.(db := s.db.(sessions := s.db.sessions[session := row]),
                hist := s.hist.(seen := s.hist.seen + {session},
                                owner := if row.user.Some? then s.hist.owner[session := row.user.value]
                                         else s.hist.owner))
  }

  predicate TouchSessionStep(s: State, s': State, session: Id, expiresAt: Time) {
    && session in s.db.sessions
    && s' == s.(db := s.db.(sessions := s.db.sessions[session := s.db.sessions[session].(expiresAt := expiresAt)]))
  }

  predicate PutClientStep(s: State, s': State, client: Id, row: Client) {
    s' == s.(db := s.db.(clients := s.db.clients[client := row]), review := Reviewed(s.review, client, row.status))
  }

  predicate DeleteClientStep(s: State, s': State, client: Id) {
    && client in s.db.clients
    && s' == s.(db := RemoveClient(s.db, client), hist := Record(s.hist, ClientRemoved(client)))
  }

  /** Registration, profile, attribute and role writes: none of them changes a status. */
  predicate PutUserStep(s: State, s': State, user: Id, row: User) {
    && (if user in s.db.users then row.status == s.db.users[user].status else !row.status.UserDisabled?)
    && s' == s.(db := s.db.(users := s.db.users[user := row]))
  }

  /** loadAuthorizationRequest, then the approved scopes; user and session are whatever the
      browser's cookie resolved to earlier. An empty selection never gets this far. */
  predicate LoadCompletionStep(s: State, s': State, call: Id, p: Completion) {
    && Idle(s, call)
    && RequestClaimable(s.db, p.request, s.now)
    && var r := s.db.requests[p.request];
    && r.client in s.db.clients && s.db.clients[r.client].status.ClientApproved?
    && p.client == r.client && p.redirect == r.redirect && p.challenged == r.challenged
    && p.scopes == CompletedScopes(r.scopes, p.approved) && p.scopes != {}
    && s' == Start(s, call, Completing(p, s.now))
  }

  predicate CommitCodeStep(cfg: Config, s: State, s': State, call: Id, at: Time, code: Id, sid: Id) {
    && call in s.calls && s.calls[call].Completing? && Stamp(s, s.calls[call].readAt, at)
    && code !in s.hist.seen && sid !in s.hist.seen && code != sid
    && var p := s.calls[call].p;
    && var outcome := IssueCode(cfg, s.db, p, at, code, sid);
    && outcome.Committed?
    && s' == Done(s, call).(
         db := outcome.db,
         hist := Stamped(WithCode(Record(s.hist, CodeEvent(s.db, p, code)), s.db, p, code,
                                  MintedCode(cfg, s.db, p, at), sid), at))
  }

  predicate LoadDenialStep(s: State, s': State, call: Id, request: Id) {
    Idle(s, call) && RequestClaimable(s.db, request, s.now) && s' == Start(s, call, Denying(request))
  }

  predicate CommitDenialStep(s: State, s': State, call: Id, at: Time) {
    && call in s.calls && s.calls[call].Denying?
    && var r := s.calls[call].request;
    && RequestClaimable(s.db, r, at)
    && s' == Done(s, call).(db := s.db.(requests := ConsumedRequest(s.db, r, at)), hist := Record(s.hist, Denied(r)))
  }

  /** The pre-read of exchangeAuthorizationCode and the branch it takes. */
  predicate ReadCodeStep(s: State, s': State, call: Id, code: Id, client: Id, verifier: Verifier) {
    && Idle(s, call) && code in s.db.codes
    && var row := s.db.codes[code];
    if row.client != client then s' == Start(s, call, Burning(code))
    else if row.usedAt.Some? then s' == Start(s, call, Containing(code, row))
    else s.now < row.expiresAt && s' == Start(s, call, Redeeming(code, row, client, verifier, s.now))
  }

  predicate BurnCodeStep(s: State, s': State, call: Id, at: Time) {
    && call in s.calls && s.calls[call].Burning?
    && s' == Done(s, call).(db := s.db.(codes := SpendCodes(s.db.codes, {s.calls[call].code}, at)))
  }

  function RedeemOutcome(cfg: Config, s: State, c: Call, at: Time, token: Id, family: Id): Outcome
    requires c.Redeeming?
  {
    Redeem(cfg, s.db, c.code, c.row, c.client, c.verifier, at, token, family)
  }

  predicate CommitRedeemStep(cfg: Config, s: State, s': State, call: Id, at: Time, token: Id, family: Id) {
    && call in s.calls && s.calls[call].Redeeming? && Stamp(s, s.calls[call].readAt, at)
    && token !in s.hist.seen && family !in s.hist.seen && token != family
    && var c := s.calls[call];
    && var outcome := RedeemOutcome(cfg, s, c, at, token, family);
    && outcome.Committed?
    && s' == Done(s, call).(db := outcome.db, hist := RedeemedHistory(cfg, s, c, at, token, family))
  }

  function RedeemedHistory(cfg: Config, s: State, c: Call, at: Time, token: Id, family: Id): History
    requires c.Redeeming? && RedeemOutcome(cfg, s, c, at, token, family).Committed?
  {
    var i := CodeIssue(c.row, c.client, family);
    var h := WithAccess(Stamped(Record(s.hist, Redeemed(c.code, c.row.user, c.client, at)), at), s.db, i, at, c.code,
                        true);
    if WantsRefresh(s.db.clients[c.client], c.row.scopes)
    then WithRoot(h, c.code, family, token, MintedRefresh(cfg, i, at)) else h
  }

  /** The conditional claim found the code spent: the race was lost to another redemption. */
  predicate LoseRedeemStep(cfg: Config, s: State, s': State, call: Id, at: Time) {
    && call in s.calls && s.calls[call].Redeeming? && Stamp(s, s.calls[call].readAt, at)
    && var c := s.calls[call];
    && RedeemOutcome(cfg, s, c, at, 0, 0) == Refused(CodeReplayed)
    && s' == Start(s, call, Containing(c.code, c.row))
  }

  /** refuseAsReplay: revokeTokensForSession commits, then the request is refused. */
  predicate ContainStep(s: State, s': State, call: Id, at: Time) {
    && call in s.calls && s.calls[call].Containing?
    && var c := s.calls[call];
    && s' == Done(s, call).(db := RevokeForSession(s.db, c.row.session, c.row.client, c.row.user, at),
                            hist := Record(s.hist, CodeReplayRefused(c.code)))
  }

  /** The pre-read of exchangeRefreshToken and the branch it takes. */
  predicate ReadRefreshStep(cfg: Config, s: State, s': State, call: Id, token: Id, client: Id,
                            requested: Option<set<Scope>>) {
    && Idle(s, call) && token in s.db.refresh
    && var row := s.db.refresh[token];
    if row.client != client || row.revokedAt.Some? || (cfg.rotate && row.usedAt.Some?)
    then s' == Start(s, call, FindingFamily(row.family))
    else
      && s.now < row.expiresAt
      && (requested.Some? ==> requested.value <= cfg.registered && requested.value <= row.scopes)
      && s' == Start(s, call,
                     Refreshing(token, row, client, if requested.Some? then requested.value else row.scopes, s.now))
  }

  function RefreshOutcome(cfg: Config, s: State, c: Call, at: Time, minted: Id): Outcome
    requires c.Refreshing?
  {
    ExchangeRefresh(cfg, s.db, c.token, c.held, c.client, c.scopes, at, minted)
  }

  predicate CommitRefreshStep(cfg: Config, s: State, s': State, call: Id, at: Time, minted: Id) {
    && call in s.calls && s.calls[call].Refreshing? && Stamp(s, s.calls[call].readAt, at)
    && minted !in s.hist.seen
    && var c := s.calls[call];
    && var outcome := RefreshOutcome(cfg, s, c, at, minted);
    && outcome.Committed? && c.held.family in s.hist.families
    && s' == Done(s, call).(db := outcome.db, hist := RefreshedHistory(cfg, s, c, at, minted))
  }

  function RefreshedHistory(cfg: Config, s: State, c: Call, at: Time, minted: Id): History
    requires c.Refreshing? && RefreshOutcome(cfg, s, c, at, minted).Committed? && c.held.family in s.hist.families
  {
    var i := RefreshIssue(c.held, c.token, c.client, c.scopes);
    var code := s.hist.families[c.held.family].code;
    var h := WithAccess(Stamped(Record(s.hist, Refreshed(code, c.held.user, c.client, c.token)), at), s.db, i, at, code,
                        false);
    if cfg.rotate && WantsRefresh(s.db.clients[c.client], c.scopes)
    then WithDescendant(h, minted, MintedRefresh(cfg, i, at)) else h
  }

  /** A refused exchange revokes the family afterwards, except that a token which is kept
      rather than rotated is refused without more when it can no longer be claimed. */
  predicate LoseRefreshStep(cfg: Config, s: State, s': State, call: Id, at: Time) {
    && call in s.calls && s.calls[call].Refreshing? && Stamp(s, s.calls[call].readAt, at)
    && var c := s.calls[call];
    && var outcome := RefreshOutcome(cfg, s, c, at, 0);
    && outcome.Refused?
    && s' == if cfg.rotate || outcome.why != TokenUnclaimable
             then Start(s, call, FindingFamily(c.held.family))
             else Done(s, call)
  }

  /** RFC 7009 revocation of a refresh token by the client that holds it. */
  predicate RevokeByTokenStep(s: State, s': State, call: Id, token: Id, client: Id) {
    && Idle(s, call) && token in s.db.refresh && s.db.refresh[token].client == client
    && s' == Start(s, call, FindingFamily(s.db.refresh[token].family))
  }

  /** The transaction was rolled back, and the refusal is the whole answer. */
  predicate RefuseStep(cfg: Config, s: State, s': State, call: Id, at: Time) {
    && call in s.calls && s' == Done(s, call)
    && var c := s.calls[call];
    match c
    case Completing(p, readAt) => Stamp(s, readAt, at) && IssueCode(cfg, s.db, p, at, 0, 0).Refused?
    case Denying(request) => !RequestClaimable(s.db, request, at)
    case Redeeming(_, _, _, _, readAt) =>
      && Stamp(s, readAt, at)
      && RedeemOutcome(cfg, s, c, at, 0, 0).Refused? && RedeemOutcome(cfg, s, c, at, 0, 0).why != CodeReplayed
    case _ => false
  }

  /** revokeFamily's own pre-read: some row names the owner, or no row is left. */
  predicate FindFamilyStep(s: State, s': State, call: Id, found: Option<Id>) {
    && call in s.calls && s.calls[call].FindingFamily?
    && var c := s.calls[call];
    match found
    case Some(t) =>
      && t in s.db.refresh && s.db.refresh[t].family == c.family
      && s' == Start(s, call, RevokingFamily(c.family, s.db.refresh[t].client, s.db.refresh[t].user))
    case None =>
      && FamilyRows(s.db, c.family) == {}
      && s' == Done(s, call).(hist := Record(s.hist, FamilyRevoked(c.family)))
  }

  predicate CommitFamilyStep(s: State, s': State, call: Id, at: Time) {
    && call in s.calls && s.calls[call].RevokingFamily?
    && var c := s.calls[call];
    && s' == Done(s, call).(db := RevokeFamily(s.db, c.family, c.client, c.user, at),
                            hist := Record(s.hist, FamilyRevoked(c.family)))
  }

  predicate WithdrawGrantStep(s: State, s': State, user: Id, client: Id, at: Time) {
    && Withdrawable(s.db, user, client)
    && s' == s.(db := Withdraw(s.db, user, client, at),
                hist := Record(s.hist, Withdrawn(user, client, ToldBy(s.db, PairOidc(s.db, user, client)))))
  }

  predicate EndSessionStep(s: State, s': State, session: Id, user: Id, at: Time) {
    && Endable(s.db, session, user)
    && s' == s.(db := EndBrowserSession(s.db, session, user, at),
                hist := Record(s.hist, SessionEnded(session, ToldBy(s.db, SessionUserOidc(s.db, session, user)))))
  }

  predicate ResetPasswordStep(s: State, s': State, user: Id, at: Time) {
    && UsableAccount(s.db, user)
    && s' == s.(db := RevokeAll(PromotedUser(s.db, user), user, at))
  }

  /** verifyEmail and authenticate decide the status they will write from an earlier read. */
  predicate ReadStatusStep(s: State, s': State, call: Id, user: Id) {
    && Idle(s, call) && UsableAccount(s.db, user)
    && var seen := s.db.users[user].status;
    && s' == Start(s, call, WritingStatus(user, if seen.UserPending? then UserActive else seen))
  }

  predicate WriteStatusStep(s: State, s': State, call: Id) {
    && call in s.calls && s.calls[call].WritingStatus?
    && var c := s.calls[call];
    && c.user in s.db.users
    && s' == Done(s, call).(db := s.db.(users := s.db.users[c.user := s.db.users[c.user].(status := c.status)]))
  }

  /** The first of clientService.setStatus's three writes. */
  predicate SetClientStatusStep(s: State, s': State, call: Id, client: Id, status: ClientStatus) {
    && Idle(s, call) && client in s.db.clients
    && var written := s.(db := s.db.(clients := s.db.clients[client := s.db.clients[client].(status := status)]),
                         review := Reviewed(s.review, client, status));
    && s' == if status.ClientDisabled? || status.ClientRejected?
             then Start(written, call, ShuttingClient(client, Epoch(s.review, client), false)) else written
  }

  predicate ShutRefreshStep(s: State, s': State, call: Id, at: Time) {
    && call in s.calls && s.calls[call].ShuttingClient? && !s.calls[call].refreshDone
    && var c := s.calls[call];
    && s' == Start(s, call, c.(refreshDone := true)).(
         db := s.db.(refresh := RevokeRefresh(s.db.refresh, ClientRefresh(s.db, c.client), at)))
  }

  predicate ShutOidcStep(s: State, s': State, call: Id, at: Time) {
    && call in s.calls && s.calls[call].ShuttingClient? && s.calls[call].refreshDone
    && var c := s.calls[call];
    && s' == Done(s, call).(
         db := s.db.(oidc := EndOidc(s.db.oidc, ClientOidc(s.db, c.client), at)),
         review := SealedAt(s.review, c))
  }

  /** The latest epoch in which a call that shut the client ran to its end. */
  function SealedAt(review: Review, c: Call): Review
    requires c.ShuttingClient?
  {
    if c.client in review.sealed && c.epoch < review.sealed[c.client] then review
    else review.(sealed := review.sealed[c.client := c.epoch])
  }

  /** Commits that mint a credential. */
  predicate MintNext(cfg: Config, s: State, step: Step, s': State) {
    match step
    case CommitCode(call, at, code, sid) => CommitCodeStep(cfg, s, s', call, at, code, sid)
    case CommitRedeem(call, at, token, family) => CommitRedeemStep(cfg, s, s', call, at, token, family)
    case CommitRefresh(call, at, minted) => CommitRefreshStep(cfg, s, s', call, at, minted)
    case _ => false
  }

  /** Reads, refusals that leave a call open, and the passing of time. */
  predicate ReadNext(cfg: Config, s: State, step: Step, s': State) {
    match step
    case Tick(now) => s.now <= now && s' == s.(now := now)
    case LoadCompletion(call, p) => LoadCompletionStep(s, s', call, p)
    case LoadDenial(call, r) => LoadDenialStep(s, s', call, r)
    case ReadCode(call, code, client, verifier) => ReadCodeStep(s, s', call, code, client, verifier)
    case ReadRefresh(call, token, client, requested) => ReadRefreshStep(cfg, s, s', call, token, client, requested)
    case LoseRedeem(call, at) => LoseRedeemStep(cfg, s, s', call, at)
    case LoseRefresh(call, at) => LoseRefreshStep(cfg, s, s', call, at)
    case RevokeByToken(call, token, client) => RevokeByTokenStep(s, s', call, token, client)
    case FindFamily(call, found) => FindFamilyStep(s, s', call, found)
    case ReadStatus(call, user) => ReadStatusStep(s, s', call, user)
    case Refuse(call, at) => RefuseStep(cfg, s, s', call, at)
    case Abort(call) => s' == Done(s, call)
    case _ => false
  }

  /** Commits that consume or revoke. */
  predicate RevokeNext(cfg: Config, s: State, step: Step, s': State) {
    match step
    case CommitDenial(call, at) => CommitDenialStep(s, s', call, at)
    case BurnCode(call, at) => BurnCodeStep(s, s', call, at)
    case Contain(call, at) => ContainStep(s, s', call, at)
    case CommitFamily(call, at) => CommitFamilyStep(s, s', call, at)
    case RevokeByAccess(session, client, user, at) => s' == s.(db := RevokeForSession(s.db, session, client, user, at))
    case WithdrawGrant(user, client, at) => WithdrawGrantStep(s, s', user, client, at)
    case EndSession(session, user, at) => EndSessionStep(s, s', session, user, at)
    case LogoutSession(session, at) => session in s.db.sessions && s' == s.(db := Logout(s.db, session, at))
    case RevokeAccount(user, at) => s' == s.(db := RevokeAll(s.db, user, at))
    case ShutRefresh(call, at) => ShutRefreshStep(s, s', call, at)
    case ShutOidc(call, at) => ShutOidcStep(s, s', call, at)
    case _ => false
  }

  /** Browser, account and client writes. */
  predicate AdminNext(cfg: Config, s: State, step: Step, s': State) {
    match step
    case ParkRequest(r, row) => ParkRequestStep(cfg, s, s', r, row)
    case SignIn(session, row) => SignInStep(s, s', session, row)
    case TouchSession(session, expiresAt) => TouchSessionStep(s, s', session, expiresAt)
    case PutClient(client, row) => PutClientStep(s, s', client, row)
    case DeleteClient(client) => DeleteClientStep(s, s', client)
    case PutUser(user, row) => PutUserStep(s, s', user, row)
    case ResetPassword(user, at) => ResetPasswordStep(s, s', user, at)
    case SetAccountStatus(user, status, at) =>
      user in s.db.users && s' == s.(db := SetUserStatus(s.db, user, status, at))
    case WriteStatus(call) => WriteStatusStep(s, s', call)
    case SetClientStatus(call, client, status) => SetClientStatusStep(s, s', call, client, status)
    case _ => false
  }

  /** Background deletion. */
  predicate SweepNext(cfg: Config, s: State, step: Step, s': State) {
    match step
    case DropSession(session) => s' == s.(db := s.db.(sessions := s.db.sessions - {session}))
    case SweepRequests(cutoff) => cutoff <= s.now && s' == s.(db := PruneRequests(s.db, cutoff))
    case SweepCodes(cutoff) => cutoff <= s.now && s' == s.(db := PruneCodes(cfg, s.db, cutoff))
    case SweepRefresh(cutoff) => cutoff <= s.now && s' == s.(db := PruneRefresh(s.db, cutoff))
    case SweepOidc(keys, cutoff) => cutoff <= s.now && s' == s.(db := PruneOidc(cfg, s.db, keys, cutoff))
    case _ => false
  }

  predicate Next(cfg: Config, s: State, step: Step, s': State) {
    || MintNext(cfg, s, step, s')
    || ReadNext(cfg, s, step, s')
    || RevokeNext(cfg, s, step, s')
    || AdminNext(cfg, s, step, s')
    || SweepNext(cfg, s, step, s')
  }

  // --- Runs ----------------------------------------------------------------

  datatype Run = Run(states: seq<State>, steps: seq<Step>)

  predicate ValidRun(cfg: Config, run: Run) {
    && |run.states| == |run.steps| + 1
    && Initial(run.states[0])
    && forall i {:trigger RunStep(cfg, run, i)} :: 0 <= i < |run.steps| ==> RunStep(cfg, run, i)
  }

  predicate RunStep(cfg: Config, run: Run, i: nat)
    requires i < |run.steps| < |run.states|
  {
    Next(cfg, run.states[i], run.steps[i], run.states[i + 1])
  }
}
