/** Revocations, consumptions and prunes only close things: rows disappear, or get their
    `usedAt` or `revokedAt` set once. One relation covers all of them. */
module Closing {
  import opened Prelude
  import opened Tables
  import opened Transactions
  import opened History
  import opened Machine
  import opened Invariants

  predicate SetOnce(old_: Option<Time>, new_: Option<Time>) { old_.Some? ==> new_ == old_ }

  ghost predicate ClosesRefresh(a: map<Id, Refresh>, b: map<Id, Refresh>) {
    forall t {:trigger t in b} :: t in b ==>
      && t in a && RefreshBirth(b[t]) == RefreshBirth(a[t])
      && SetOnce(a[t].usedAt, b[t].usedAt) && SetOnce(a[t].revokedAt, b[t].revokedAt)
  }

  ghost predicate ClosesCodes(a: map<Id, Code>, b: map<Id, Code>) {
    forall c {:trigger c in b} :: c in b ==>
      c in a && CodeBirth(b[c]) == CodeBirth(a[c]) && SetOnce(a[c].usedAt, b[c].usedAt)
  }

  ghost predicate ClosesOidc(a: map<(Id, Id), Oidc>, b: map<(Id, Id), Oidc>) {
    forall k {:trigger k in b} :: k in b ==>
      && k in a && b[k].(revokedAt := None) == a[k].(revokedAt := None)
      && SetOnce(a[k].revokedAt, b[k].revokedAt)
  }

  ghost predicate ClosesSessions(a: map<Id, Session>, b: map<Id, Session>) {
    forall s {:trigger s in b} :: s in b ==> s in a && b[s] == a[s]
  }

  ghost predicate ClosesRequests(a: map<Id, Request>, b: map<Id, Request>) {
    forall r {:trigger r in b} :: r in b ==>
      r in a && RequestBirth(b[r]) == RequestBirth(a[r]) && SetOnce(a[r].consumedAt, b[r].consumedAt)
  }

  ghost predicate Closes(a: Store, b: Store) {
    var refresh := ClosesRefresh(a.refresh, b.refresh);
    var codes := ClosesCodes(a.codes, b.codes);
    var oidc := ClosesOidc(a.oidc, b.oidc);
    var sessions := ClosesSessions(a.sessions, b.sessions);
    var requests := ClosesRequests(a.requests, b.requests);
    refresh && codes && oidc && sessions && requests
  }

  // --- Every closing transaction closes ------------------------------------

  lemma RevokingCloses(refresh: map<Id, Refresh>, ids: set<Id>, at: Time)
    ensures ClosesRefresh(refresh, RevokeRefresh(refresh, ids, at))
    ensures forall t :: t in refresh && t in ids ==> RevokeRefresh(refresh, ids, at)[t].revokedAt.Some?
  {
  }

  lemma SpendingCloses(codes: map<Id, Code>, ids: set<Id>, at: Time)
    ensures ClosesCodes(codes, SpendCodes(codes, ids, at))
    ensures forall c :: c in codes && c in ids ==> SpendCodes(codes, ids, at)[c].usedAt.Some?
  {
  }

  lemma EndingCloses(oidc: map<(Id, Id), Oidc>, keys: set<(Id, Id)>, at: Time)
    ensures ClosesOidc(oidc, EndOidc(oidc, keys, at))
    ensures forall k :: k in oidc && k in keys ==> EndOidc(oidc, keys, at)[k].revokedAt.Some?
  {
  }

  lemma RevokeFamilyCloses(db: Store, family: Id, client: Id, user: Id, at: Time)
    ensures Closes(db, RevokeFamily(db, family, client, user, at))
  {
    RevokingCloses(db.refresh, FamilyRows(db, family), at);
  }

  lemma RevokeForSessionCloses(db: Store, session: Id, client: Id, user: Id, at: Time)
    ensures Closes(db, RevokeForSession(db, session, client, user, at))
  {
    RevokingCloses(db.refresh, SessionClientRefresh(db, session, client), at);
    EndingCloses(db.oidc, {(session, client)}, at);
  }

  lemma WithdrawCloses(db: Store, user: Id, client: Id, at: Time)
    requires Withdrawable(db, user, client)
    ensures Closes(db, Withdraw(db, user, client, at))
  {
    RevokingCloses(db.refresh, PairRefresh(db, user, client), at);
    SpendingCloses(db.codes, PairCodes(db, user, client), at);
    EndingCloses(db.oidc, PairOidc(db, user, client), at);
  }

  lemma EndBrowserSessionCloses(db: Store, session: Id, user: Id, at: Time)
    requires Endable(db, session, user)
    ensures Closes(db, EndBrowserSession(db, session, user, at))
  {
    EndingCloses(db.oidc, SessionUserOidc(db, session, user), at);
  }

  lemma LogoutCloses(db: Store, session: Id, at: Time)
    ensures Closes(db, Logout(db, session, at))
  {
    EndingCloses(db.oidc, SessionOidc(db, session), at);
  }

  lemma RevokeAllCloses(db: Store, user: Id, at: Time)
    ensures Closes(db, RevokeAll(db, user, at))
    ensures NothingLive(RevokeAll(db, user, at), user)
  {
    RevokeAllKills(db, user, at);
    RevokingCloses(db.refresh, UserRefresh(db, user), at);
    SpendingCloses(db.codes, UserCodes(db, user), at);
    EndingCloses(db.oidc, UserOidc(db, user), at);
  }

  lemma RemoveClientCloses(db: Store, client: Id)
    ensures Closes(db, RemoveClient(db, client))
  {
  }

  lemma PruneRequestsCloses(db: Store, cutoff: Time)
    ensures Closes(db, PruneRequests(db, cutoff))
  {
  }

  lemma PruneCodesCloses(cfg: Config, db: Store, cutoff: Time)
    ensures Closes(db, PruneCodes(cfg, db, cutoff))
  {
  }

  lemma PruneRefreshCloses(db: Store, cutoff: Time)
    ensures Closes(db, PruneRefresh(db, cutoff))
  {
  }

  lemma PruneOidcCloses(cfg: Config, db: Store, keys: set<(Id, Id)>, cutoff: Time)
    ensures Closes(db, PruneOidc(cfg, db, keys, cutoff))
  {
  }

  lemma ClaimedCodeCloses(db: Store, code: Id, at: Time)
    requires code in db.codes && db.codes[code].usedAt.None?
    ensures Closes(db, ClaimedCode(db, code, at))
  {
  }

  lemma ClaimedRefreshCloses(cfg: Config, db: Store, token: Id, at: Time)
    requires token in db.refresh && db.refresh[token].usedAt.None?
    ensures Closes(db, ClaimedRefresh(cfg, db, token, at))
  {
  }

  lemma ConsumedCloses(db: Store, request: Id, at: Time)
    requires request in db.requests && db.requests[request].consumedAt.None?
    ensures Closes(db, db.(requests := ConsumedRequest(db, request, at)))
  {
  }

  lemma DroppedCloses(db: Store, session: Id)
    ensures Closes(db, db.(sessions := db.sessions - {session}))
  {
  }

  // --- Closing keeps every table coherent ----------------------------------

  lemma ClosedRefreshTable(a: map<Id, Refresh>, b: map<Id, Refresh>, h: History)
    requires RefreshTable(a, h) && ClosesRefresh(a, b)
    ensures RefreshTable(b, h)
  {
    forall t | t in b ensures RefreshRowOk(b[t], t, h) {
      assert RefreshRowOk(a[t], t, h);
      assert b[t].family == RefreshBirth(b[t]).family == a[t].family;
    }
  }

  lemma ClosedCodeTable(a: map<Id, Code>, b: map<Id, Code>, h: History)
    requires CodeTable(a, h) && ClosesCodes(a, b)
    ensures CodeTable(b, h)
  {
    forall c | c in b ensures CodeRowOk(b[c], c, h) {
      assert CodeRowOk(a[c], c, h);
      assert CodeBirth(b[c]) == CodeBirth(a[c]);
    }
  }

  lemma ClosedOidcTable(a: map<(Id, Id), Oidc>, b: map<(Id, Id), Oidc>, h: History)
    requires OidcTable(a, h) && ClosesOidc(a, b)
    ensures OidcTable(b, h)
  {
    forall k | k in b
      ensures k.0 in h.owner && b[k].user == h.owner[k.0] && b[k].id in h.sids && h.sids[b[k].id] == k
    {
      assert b[k].(revokedAt := None) == a[k].(revokedAt := None);
    }
  }

  lemma ClosedNothingLive(a: Store, b: Store, user: Id)
    requires Closes(a, b) && NothingLive(a, user)
    ensures NothingLive(b, user)
  {
    forall t | t in b.refresh && b.refresh[t].user == user ensures b.refresh[t].revokedAt.Some? {
      assert RefreshBirth(b.refresh[t]).user == RefreshBirth(a.refresh[t]).user;
    }
    forall c | c in b.codes && b.codes[c].user == user ensures b.codes[c].usedAt.Some? {
      assert CodeBirth(b.codes[c]).user == CodeBirth(a.codes[c]).user;
    }
    forall k | k in b.oidc && b.oidc[k].user == user ensures b.oidc[k].revokedAt.Some? {
      assert b.oidc[k].(revokedAt := None).user == a.oidc[k].(revokedAt := None).user;
    }
  }

  lemma ClosedNoLiveRefresh(a: map<Id, Refresh>, b: map<Id, Refresh>, client: Id)
    requires ClosesRefresh(a, b) && NoLiveRefresh(a, client)
    ensures NoLiveRefresh(b, client)
  {
    forall t | t in b && b[t].client == client ensures b[t].revokedAt.Some? {
      assert RefreshBirth(b[t]).client == RefreshBirth(a[t]).client;
    }
  }

  /** Closing with clients and users untouched, or a client removed with all it owned. */
  lemma ClosedStanding(a: Store, b: Store, review: Review)
    requires Standing(a, review) && Closes(a, b) && b.users == a.users
    requires b.clients.Keys <= a.clients.Keys && forall c :: c in b.clients ==> b.clients[c] == a.clients[c]
    requires forall t :: t in b.refresh ==> b.refresh[t].client in b.clients
    ensures Standing(b, review)
  {
    forall t | t in b.refresh ensures b.refresh[t].user in b.users {
      assert RefreshBirth(b.refresh[t]).user == RefreshBirth(a.refresh[t]).user;
    }
    forall u | u in b.users && b.users[u].status.UserDisabled? ensures NothingLive(b, u) {
      ClosedNothingLive(a, b, u);
    }
    forall c | Sealed(review, c)
      ensures NotApproved(b.clients, c) && NoLiveRefresh(b.refresh, c) && NoLiveOidc(b.oidc, c)
    {
      ClosedNoLiveRefresh(a.refresh, b.refresh, c);
    }
  }

  lemma ClosedOwners(a: Store, b: Store)
    requires OwnersExist(a) && ClosesRefresh(a.refresh, b.refresh) && b.clients == a.clients
    ensures forall t :: t in b.refresh ==> b.refresh[t].client in b.clients
  {
    forall t | t in b.refresh ensures b.refresh[t].client in b.clients {
      assert RefreshBirth(b.refresh[t]).client == RefreshBirth(a.refresh[t]).client;
    }
  }

  lemma ClosedSeenSince(a: map<(Id, Id), Oidc>, b: map<(Id, Id), Oidc>, key: (Id, Id), issued: Time)
    requires ClosesOidc(a, b) && SeenSince(a, key, issued)
    ensures SeenSince(b, key, issued)
  {
    if key in b {
      assert b[key].(revokedAt := None).lastSeenAt == a[key].(revokedAt := None).lastSeenAt;
    }
  }

  lemma ClosedStamps(cfg: Config, a: Store, b: Store, h: History)
    requires Stamps(cfg, a, h) && Closes(a, b)
    ensures Stamps(cfg, b, h)
  {
    if h.orderly {
      forall k | k in b.oidc ensures b.oidc[k].lastSeenAt <= h.lastStamp {
        assert b.oidc[k].(revokedAt := None).lastSeenAt == a.oidc[k].(revokedAt := None).lastSeenAt;
      }
      forall t | t in b.refresh
        ensures b.refresh[t].expiresAt - cfg.refreshTtl <= h.lastStamp
        ensures SeenSince(b.oidc, (b.refresh[t].session, b.refresh[t].client), b.refresh[t].expiresAt - cfg.refreshTtl)
      {
        assert RefreshBirth(b.refresh[t]) == RefreshBirth(a.refresh[t]);
        ClosedSeenSince(a.oidc, b.oidc, (a.refresh[t].session, a.refresh[t].client),
                        a.refresh[t].expiresAt - cfg.refreshTtl);
      }
      forall c | c in b.codes
        ensures b.codes[c].expiresAt - cfg.codeTtl <= h.lastStamp
        ensures SeenSince(b.oidc, (b.codes[c].session, b.codes[c].client), b.codes[c].expiresAt - cfg.codeTtl)
      {
        assert CodeBirth(b.codes[c]) == CodeBirth(a.codes[c]);
        ClosedSeenSince(a.oidc, b.oidc, (a.codes[c].session, a.codes[c].client), a.codes[c].expiresAt - cfg.codeTtl);
      }
      forall x | x in h.access ensures SeenSince(b.oidc, (x.session, x.client), x.issuedAt) {
        ClosedSeenSince(a.oidc, b.oidc, (x.session, x.client), x.issuedAt);
      }
    }
  }

  lemma ClosedFromRequest(p: Completion, a: map<Id, Request>, b: map<Id, Request>)
    requires ClosesRequests(a, b) && FromRequest(p, a)
    ensures FromRequest(p, b)
  {
    if p.request in b {
      var was, row := RequestBirth(a[p.request]), RequestBirth(b[p.request]);
      assert row.client == was.client && row.redirect == was.redirect && row.challenged == was.challenged
        && row.scopes == was.scopes;
    }
  }

  lemma ClosedCalls(calls: map<Id, Call>, a: Store, b: Store, h: History, review: Review)
    requires CallsOk(calls, a, h, review) && Closes(a, b)
    requires forall c :: c in b.clients ==> c in a.clients && b.clients[c].status == a.clients[c].status
    ensures CallsOk(calls, b, h, review)
  {
    forall i | i in calls ensures CallOk(calls[i], b, h, review) {
      assert CallOk(calls[i], a, h, review);
      if calls[i].Completing? { ClosedFromRequest(calls[i].p, a.requests, b.requests); }
      if calls[i].ShuttingClient? && calls[i].epoch == Epoch(review, calls[i].client) && calls[i].refreshDone {
        ClosedNoLiveRefresh(a.refresh, b.refresh, calls[i].client);
      }
    }
  }

  /** The part of the invariant a closing transaction cannot disturb. */
  lemma ClosedTables(a: Store, b: Store, h: History)
    requires Credentials(a, h) && Closes(a, b)
    ensures RequestTable(b.requests, h) && CodeTable(b.codes, h) && RefreshTable(b.refresh, h)
    ensures SessionTable(b.sessions, h) && OidcTable(b.oidc, h)
  {
    ClosedRefreshTable(a.refresh, b.refresh, h);
    ClosedCodeTable(a.codes, b.codes, h);
    ClosedOidcTable(a.oidc, b.oidc, h);
  }

  // --- What containment reaches --------------------------------------------

  /** A refresh row's client and user exist, and are those of its family's code. */
  lemma MemberOwned(db: Store, h: History, t: Id)
    requires RefreshTable(db.refresh, h) && OwnersExist(db) && FamiliesOk(h) && t in db.refresh
    ensures var row := db.refresh[t];
      && row.family in h.families && h.families[row.family].code in h.codes
      && var code := h.codes[h.families[row.family].code];
      && row.client == code.client && row.user == code.user && row.session == code.session
      && row.client in db.clients && row.user in db.users
  {
    assert RefreshRowOk(db.refresh[t], t, h);
    assert TokenOk(h, t);
    RowDescends(db.refresh[t], t, h);
  }

  /** Containing a replayed code reaches the family redeemed from it: they share a browser
      session and a client, which is how the revocation selects its rows. */
  lemma CodeFamilyRevoked(db: Store, h: History, code: Id, row: Code, at: Time)
    requires RefreshTable(db.refresh, h) && OwnersExist(db) && FamiliesOk(h)
    requires code in h.codes && CodeBirth(row) == h.codes[code]
    ensures code in h.familyOf ==>
      FamilyShut(RevokeForSession(db, row.session, row.client, row.user, at).refresh, h.familyOf[code])
  {
    var after := RevokeForSession(db, row.session, row.client, row.user, at).refresh;
    assert CodeBirth(row).session == row.session && CodeBirth(row).client == row.client
      && CodeBirth(row).user == row.user;
    forall t | t in after && code in h.familyOf && after[t].family == h.familyOf[code]
      ensures after[t].revokedAt.Some?
    {
      MemberOwned(db, h, t);
      assert t in SessionClientRefresh(db, row.session, row.client);
    }
  }
}
