/** How the tables, the in-flight requests and the history agree in every reachable state. */
module Invariants {
  import opened Prelude
  import opened Tables
  import opened Transactions
  import opened History
  import opened Machine

  // --- One predicate per table ---------------------------------------------

  ghost predicate RequestTable(requests: map<Id, Request>, h: History) {
    forall r :: r in requests ==> r in h.seen && (r in h.settled ==> requests[r].consumedAt.Some?)
  }

  ghost predicate CodeRowOk(row: Code, c: Id, h: History) {
    && c in h.codes && CodeBirth(row) == h.codes[c]
    && (c in h.redeemed ==> row.usedAt == Some(h.redeemed[c]))
    && (c in h.contained ==> row.usedAt.Some?)
    && (row.usedAt.None? ==> AfterWithdrawal(h, row.user, row.client, c))
  }

  ghost predicate CodeTable(codes: map<Id, Code>, h: History) {
    forall c {:trigger c in codes} :: c in codes ==> CodeRowOk(codes[c], c, h)
  }

  /** The token has been rotated away: something was minted from it. */
  ghost predicate Superseded(h: History, t: Id, family: Id)
    requires t in h.place && family in h.families
  {
    h.place[t] + 1 < |h.families[family].chain|
  }

  ghost predicate RefreshRowOk(row: Refresh, t: Id, h: History) {
    && t in h.tokens && RefreshBirth(row) == h.tokens[t]
    && t in h.place && row.family in h.families
    && (Superseded(h, t, row.family) ==> row.usedAt.Some?)
    && (row.family in h.revoked ==> row.revokedAt.Some?)
    && (row.revokedAt.None? ==> AfterWithdrawal(h, row.user, row.client, h.families[row.family].code))
  }

  ghost predicate RefreshTable(refresh: map<Id, Refresh>, h: History) {
    forall t {:trigger t in refresh} :: t in refresh ==> RefreshRowOk(refresh[t], t, h)
  }

  ghost predicate SessionTable(sessions: map<Id, Session>, h: History) {
    forall s :: s in sessions ==>
      s in h.seen && (sessions[s].user.Some? ==> s in h.owner && h.owner[s] == sessions[s].user.value)
  }

  ghost predicate OidcTable(oidc: map<(Id, Id), Oidc>, h: History) {
    forall k {:trigger k in oidc} :: k in oidc ==>
      && k.0 in h.owner && oidc[k].user == h.owner[k.0]
      && oidc[k].id in h.sids && h.sids[oidc[k].id] == k
  }

  function LiveScopes(grants: map<(Id, Id), Grant>, user: Id, client: Id): set<Scope> {
    if (user, client) in grants && grants[(user, client)].revokedAt.None? then grants[(user, client)].scopes else {}
  }

  /** A live grant holds exactly what was approved since the last withdrawal. */
  ghost predicate GrantTable(grants: map<(Id, Id), Grant>, h: History) {
    forall u, c {:trigger Approved(h.log, u, c)} :: Approved(h.log, u, c) == LiveScopes(grants, u, c)
  }

  /** Foreign keys of the refresh table. */
  ghost predicate OwnersExist(db: Store) {
    forall t :: t in db.refresh ==> db.refresh[t].client in db.clients && db.refresh[t].user in db.users
  }

  ghost predicate DisabledDead(db: Store) {
    forall u {:trigger NothingLive(db, u)} :: u in db.users && db.users[u].status.UserDisabled? ==> NothingLive(db, u)
  }

  /** setStatus finished shutting the client and nobody has approved it since it began. */
  ghost predicate Sealed(review: Review, client: Id) {
    client in review.sealed && review.sealed[client] == Epoch(review, client)
  }

  ghost predicate ClientsShut(db: Store, review: Review) {
    && (forall c :: c in review.sealed ==> review.sealed[c] <= Epoch(review, c))
    && (forall c {:trigger Sealed(review, c)} :: Sealed(review, c) ==>
          NotApproved(db.clients, c) && NoLiveRefresh(db.refresh, c) && NoLiveOidc(db.oidc, c))
  }

  ghost predicate OutboxTable(outbox: multiset<Notice>, h: History) {
    && (forall sid {:trigger Told(h.log, sid)} :: Told(h.log, sid) > 0 ==> sid in h.sids)
    && (forall n {:trigger outbox[n]} :: outbox[n] == if OwedNotice(h, n) then Told(h.log, n.sid) else 0)
  }

  /** The one notice a published session id can give rise to. */
  ghost predicate OwedNotice(h: History, n: Notice) {
    && n.sid in h.sids && h.sids[n.sid].1 == n.client
    && h.sids[n.sid].0 in h.owner && h.owner[h.sids[n.sid].0] == n.user
  }

  /** No per-client session was last seen before a credential that names it was issued. */
  ghost predicate SeenSince(oidc: map<(Id, Id), Oidc>, key: (Id, Id), issued: Time) {
    key in oidc ==> issued <= oidc[key].lastSeenAt
  }

  ghost predicate StampsHold(cfg: Config, db: Store, h: History) {
    && (forall k :: k in db.oidc ==> db.oidc[k].lastSeenAt <= h.lastStamp)
    && (forall t :: t in db.refresh ==>
          && db.refresh[t].expiresAt - cfg.refreshTtl <= h.lastStamp
          && SeenSince(db.oidc, (db.refresh[t].session, db.refresh[t].client),
                       db.refresh[t].expiresAt - cfg.refreshTtl))
    && (forall c :: c in db.codes ==>
          && db.codes[c].expiresAt - cfg.codeTtl <= h.lastStamp
          && SeenSince(db.oidc, (db.codes[c].session, db.codes[c].client), db.codes[c].expiresAt - cfg.codeTtl))
    && (forall a :: a in h.access ==>
          && a.issuedAt <= h.lastStamp
          && SeenSince(db.oidc, (a.session, a.client), a.issuedAt))
  }

  ghost predicate Stamps(cfg: Config, db: Store, h: History) {
    h.orderly ==> StampsHold(cfg, db, h)
  }

  /** What a redemption minted directly carries the redemption's own time. */
  ghost predicate MintTimes(cfg: Config, h: History) {
    && (forall f :: f in h.families && |h.families[f].chain| > 0 && h.families[f].chain[0] in h.tokens
                    && h.families[f].code in h.redeemed ==>
          h.tokens[h.families[f].chain[0]].expiresAt == h.redeemed[h.families[f].code] + cfg.refreshTtl)
    && (forall a :: a in h.access && a.direct ==> a.code in h.redeemed && a.issuedAt == h.redeemed[a.code])
  }

  // --- In-flight requests --------------------------------------------------

  /** The completion carries what the parked request asked for, cut down to what was ticked. */
  predicate FromRequest(p: Completion, requests: map<Id, Request>) {
    p.request in requests ==>
      var r := requests[p.request];
      p.client == r.client && p.redirect == r.redirect && p.challenged == r.challenged
      && p.scopes == CompletedScopes(r.scopes, p.approved)
  }

  /** A stale copy agrees with the row's birth on everything that cannot change. */
  ghost predicate CallOk(c: Call, db: Store, h: History, review: Review) {
    match c
    case Completing(p, _) => p.request in h.seen && FromRequest(p, db.requests) && p.scopes != {}
    case Redeeming(code, row, client, _, _) =>
      code in h.codes && CodeBirth(row) == h.codes[code] && row.client == client
    case Containing(code, row) =>
      code in h.codes && CodeBirth(row) == h.codes[code] && (code in db.codes ==> db.codes[code].usedAt.Some?)
    case Refreshing(token, held, client, scopes, _) =>
      && token in h.tokens && RefreshBirth(held) == h.tokens[token]
      && held.client == client && scopes <= held.scopes && held.family in h.families
    case FindingFamily(family) => family in h.families
    case RevokingFamily(family, client, user) =>
      && family in h.families && h.families[family].code in h.codes
      && h.codes[h.families[family].code].client == client && h.codes[h.families[family].code].user == user
    case ShuttingClient(client, epoch, refreshDone) =>
      && epoch <= Epoch(review, client)
      && (epoch == Epoch(review, client) ==>
            NotApproved(db.clients, client) && (refreshDone ==> NoLiveRefresh(db.refresh, client)))
    case WritingStatus(_, status) => status == UserActive
    case _ => true
  }

  ghost predicate CallsOk(calls: map<Id, Call>, db: Store, h: History, review: Review) {
    forall i {:trigger i in calls} :: i in calls ==> CallOk(calls[i], db, h, review)
  }

  // --- The invariant -------------------------------------------------------

  ghost predicate Credentials(db: Store, h: History) {
    var requests := RequestTable(db.requests, h);
    var codes := CodeTable(db.codes, h);
    var refresh := RefreshTable(db.refresh, h);
    var sessions := SessionTable(db.sessions, h);
    var oidc := OidcTable(db.oidc, h);
    var grants := GrantTable(db.grants, h);
    var outbox := OutboxTable(db.outbox, h);
    requests && codes && refresh && sessions && oidc && grants && outbox
  }

  ghost predicate Standing(db: Store, review: Review) {
    OwnersExist(db) && DisabledDead(db) && ClientsShut(db, review)
  }

  ghost predicate Times(cfg: Config, db: Store, h: History) {
    Stamps(cfg, db, h) && MintTimes(cfg, h)
  }

  ghost predicate Inv(cfg: Config, s: State) {
    var history := HistoryOk(s.hist);
    var credentials := Credentials(s.db, s.hist);
    var standing := Standing(s.db, s.review);
    var times := Times(cfg, s.db, s.hist);
    var calls := CallsOk(s.calls, s.db, s.hist, s.review);
    history && credentials && standing && times && calls
  }

  /** A row shares owner, client and browser session with the code its family descends from. */
  lemma RowDescends(row: Refresh, t: Id, h: History)
    requires RefreshRowOk(row, t, h) && TokenOk(h, t)
    ensures h.families[row.family].code in h.codes
    ensures var code := h.codes[h.families[row.family].code];
            row.user == code.user && row.client == code.client && row.session == code.session
              && row.scopes <= code.scopes
  {
    assert RefreshBirth(row).family == row.family && RefreshBirth(row).user == row.user;
    assert RefreshBirth(row).client == row.client && RefreshBirth(row).session == row.session;
    assert RefreshBirth(row).scopes == row.scopes;
  }

  lemma InitialInv(cfg: Config, s: State)
    requires Initial(s)
    ensures Inv(cfg, s)
  {
  }
}
