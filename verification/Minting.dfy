/** Rows that a commit inserts: what each table needs to know about a newcomer. */
module Minting {
  import opened Prelude
  import opened Tables
  import opened Transactions
  import opened History
  import opened Machine
  import opened Invariants
  import opened Closing
  import opened UpkeepRecording
  import opened Growing

  // --- Standing ------------------------------------------------------------

  /** A live row may appear for an enabled user under an approved client. */
  ghost predicate MayHold(db: Store, user: Id, client: Id) {
    && client in db.clients && db.clients[client].status.ClientApproved?
    && user in db.users && !db.users[user].status.UserDisabled?
  }

  lemma EstablishedStanding(a: Store, key: (Id, Id), row: Oidc, review: Review)
    requires Standing(a, review) && MayHold(a, row.user, key.1)
    ensures Standing(a.(oidc := a.oidc[key := row]), review)
  {
    var b := a.(oidc := a.oidc[key := row]);
    forall u | u in b.users && b.users[u].status.UserDisabled? ensures NothingLive(b, u) { assert NothingLive(a, u); }
    forall c | Sealed(review, c)
      ensures NotApproved(b.clients, c) && NoLiveRefresh(b.refresh, c) && NoLiveOidc(b.oidc, c) {}
  }

  lemma CodeStanding(a: Store, code: Id, row: Code, review: Review)
    requires Standing(a, review) && MayHold(a, row.user, row.client)
    ensures Standing(a.(codes := a.codes[code := row]), review)
  {
    var b := a.(codes := a.codes[code := row]);
    forall u | u in b.users && b.users[u].status.UserDisabled? ensures NothingLive(b, u) { assert NothingLive(a, u); }
    forall c | Sealed(review, c)
      ensures NotApproved(b.clients, c) && NoLiveRefresh(b.refresh, c) && NoLiveOidc(b.oidc, c) {}
  }

  lemma RefreshStanding(a: Store, t: Id, row: Refresh, review: Review)
    requires Standing(a, review) && MayHold(a, row.user, row.client)
    ensures Standing(a.(refresh := a.refresh[t := row]), review)
  {
    var b := a.(refresh := a.refresh[t := row]);
    forall u | u in b.users && b.users[u].status.UserDisabled? ensures NothingLive(b, u) { assert NothingLive(a, u); }
    forall c | Sealed(review, c)
      ensures NotApproved(b.clients, c) && NoLiveRefresh(b.refresh, c) && NoLiveOidc(b.oidc, c) {}
  }

  // --- Calls ---------------------------------------------------------------

  /** Calls look at the refresh table only to see that a shut client has nothing live. */
  lemma RefreshCalls(calls: map<Id, Call>, a: Store, t: Id, row: Refresh, h: History, review: Review)
    requires CallsOk(calls, a, h, review) && row.client in a.clients && a.clients[row.client].status.ClientApproved?
    ensures CallsOk(calls, a.(refresh := a.refresh[t := row]), h, review)
  {
    var b := a.(refresh := a.refresh[t := row]);
    forall i | i in calls ensures CallOk(calls[i], b, h, review) { assert CallOk(calls[i], a, h, review); }
  }

  /** A fresh code is nobody's stale copy. */
  lemma CodeCalls(calls: map<Id, Call>, a: Store, code: Id, row: Code, h: History, review: Review)
    requires CallsOk(calls, a, h, review) && code !in h.codes
    ensures CallsOk(calls, a.(codes := a.codes[code := row]), h, review)
  {
    var b := a.(codes := a.codes[code := row]);
    forall i | i in calls ensures CallOk(calls[i], b, h, review) { assert CallOk(calls[i], a, h, review); }
  }

  // --- Clock marks ---------------------------------------------------------

  /** Seeing a per-client session at `at`, no earlier than any stamp so far, keeps the marks. */
  lemma TouchedStamps(cfg: Config, a: Store, key: (Id, Id), row: Oidc, h: History, at: Time)
    requires Stamps(cfg, a, h) && row.lastSeenAt == at
    ensures Stamps(cfg, a.(oidc := a.oidc[key := row]), Stamped(h, at))
  {
    var b := a.(oidc := a.oidc[key := row]);
    if Stamped(h, at).orderly {
      forall t | t in b.refresh
        ensures SeenSince(b.oidc, (b.refresh[t].session, b.refresh[t].client), b.refresh[t].expiresAt - cfg.refreshTtl)
      {
        assert SeenSince(a.oidc, (b.refresh[t].session, b.refresh[t].client), b.refresh[t].expiresAt - cfg.refreshTtl);
      }
      forall c | c in b.codes
        ensures SeenSince(b.oidc, (b.codes[c].session, b.codes[c].client), b.codes[c].expiresAt - cfg.codeTtl)
      {
        assert SeenSince(a.oidc, (b.codes[c].session, b.codes[c].client), b.codes[c].expiresAt - cfg.codeTtl);
      }
      forall x | x in h.access ensures SeenSince(b.oidc, (x.session, x.client), x.issuedAt) {
        assert SeenSince(a.oidc, (x.session, x.client), x.issuedAt);
      }
    }
  }

  /** A row issued at the last stamp, for a session just seen, fits under the marks. */
  lemma CodeStamps(cfg: Config, a: Store, code: Id, row: Code, h: History)
    requires Stamps(cfg, a, h) && row.expiresAt - cfg.codeTtl == h.lastStamp
    requires (row.session, row.client) in a.oidc && a.oidc[(row.session, row.client)].lastSeenAt == h.lastStamp
    ensures Stamps(cfg, a.(codes := a.codes[code := row]), h)
  {
  }

  lemma RefreshStamps(cfg: Config, a: Store, t: Id, row: Refresh, h: History)
    requires Stamps(cfg, a, h) && row.expiresAt - cfg.refreshTtl == h.lastStamp
    requires (row.session, row.client) in a.oidc && a.oidc[(row.session, row.client)].lastSeenAt == h.lastStamp
    ensures Stamps(cfg, a.(refresh := a.refresh[t := row]), h)
  {
  }

  lemma AccessStamps(cfg: Config, a: Store, x: Access, h: History)
    requires Stamps(cfg, a, h) && x.issuedAt == h.lastStamp
    requires (x.session, x.client) in a.oidc && a.oidc[(x.session, x.client)].lastSeenAt == h.lastStamp
    ensures Stamps(cfg, a, h.(access := h.access + {x}))
  {
  }

  // --- The clock marks and the access tokens matter to no other part -------

  lemma StampedHistory(h: History, orderly: bool, lastStamp: Time, access: set<Access>)
    requires HistoryOk(h) && SidsOk(h.(access := access))
    ensures HistoryOk(h.(orderly := orderly, lastStamp := lastStamp, access := access))
  {
    FamiliesSurvive(h, h.(orderly := orderly, lastStamp := lastStamp, access := access));
  }

  lemma StampedRows(codes: map<Id, Code>, refresh: map<Id, Refresh>, a: History, b: History)
    requires CodeTable(codes, a) && RefreshTable(refresh, a)
    requires b == a.(orderly := b.orderly, lastStamp := b.lastStamp, access := b.access)
    ensures CodeTable(codes, b) && RefreshTable(refresh, b)
  {
    forall c | c in codes ensures CodeRowOk(codes[c], c, b) { assert CodeRowOk(codes[c], c, a); }
    forall t | t in refresh ensures RefreshRowOk(refresh[t], t, b) { assert RefreshRowOk(refresh[t], t, a); }
  }

  lemma StampedRest(db: Store, calls: map<Id, Call>, a: History, b: History, review: Review)
    requires RequestTable(db.requests, a) && SessionTable(db.sessions, a) && OidcTable(db.oidc, a)
    requires GrantTable(db.grants, a) && OutboxTable(db.outbox, a) && CallsOk(calls, db, a, review)
    requires b == a.(orderly := b.orderly, lastStamp := b.lastStamp, access := b.access)
    ensures RequestTable(db.requests, b) && SessionTable(db.sessions, b) && OidcTable(db.oidc, b)
    ensures GrantTable(db.grants, b) && OutboxTable(db.outbox, b) && CallsOk(calls, db, b, review)
  {
    forall n: Notice ensures db.outbox[n] == if OwedNotice(b, n) then Told(b.log, n.sid) else 0 {
      assert OwedNotice(b, n) == OwedNotice(a, n);
    }
    forall i | i in calls ensures CallOk(calls[i], db, b, review) { assert CallOk(calls[i], db, a, review); }
  }
}
