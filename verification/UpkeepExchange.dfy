/** The invariant survives the two commits of the token endpoint. */
module UpkeepExchange {
  import opened Prelude
  import opened Tables
  import opened Transactions
  import opened History
  import opened Machine
  import opened Invariants
  import opened Closing
  import opened UpkeepRecording
  import opened Growing
  import opened Minting
  import opened UpkeepClosing

  // --- Touching the per-client session and signing an access token ---------

  function Touched(db: Store, key: (Id, Id), at: Time): Store
    requires key in db.oidc
  {
    db.(oidc := db.oidc[key := db.oidc[key].(lastSeenAt := at)])
  }

  lemma TouchedStanding(a: Store, key: (Id, Id), at: Time, review: Review)
    requires Standing(a, review) && key in a.oidc
    ensures Standing(Touched(a, key, at), review)
  {
    var b := Touched(a, key, at);
    forall u | u in b.users && b.users[u].status.UserDisabled? ensures NothingLive(b, u) { assert NothingLive(a, u); }
    forall c | Sealed(review, c)
      ensures NotApproved(b.clients, c) && NoLiveRefresh(b.refresh, c) && NoLiveOidc(b.oidc, c) {}
  }

  lemma TouchedOidc(oidc: map<(Id, Id), Oidc>, key: (Id, Id), at: Time, h: History)
    requires OidcTable(oidc, h) && key in oidc
    ensures OidcTable(oidc[key := oidc[key].(lastSeenAt := at)], h)
  {
  }

  /** What signing an access token relies on. */
  ghost predicate Signable(db: Store, h: History, i: Issue, at: Time, code: Id, direct: bool) {
    && (i.session, i.client) in db.oidc
    && (direct ==> code in h.redeemed && h.redeemed[code] == at)
  }

  lemma SignedSids(db: Store, h: History, i: Issue, at: Time, code: Id, direct: bool)
    requires SidsOk(h) && OidcTable(db.oidc, h) && Signable(db, h, i, at, code, direct)
    ensures SidsOk(WithAccess(Stamped(h, at), db, i, at, code, direct))
  {
  }

  lemma SignedTimes(cfg: Config, db: Store, h: History, i: Issue, at: Time, code: Id, direct: bool)
    requires Times(cfg, db, h) && Signable(db, h, i, at, code, direct)
    ensures Times(cfg, Touched(db, (i.session, i.client), at), WithAccess(Stamped(h, at), db, i, at, code, direct))
  {
    var key := (i.session, i.client);
    var x := Access(db.oidc[key].id, i.session, i.client, i.user, i.scopes, at, code, direct);
    TouchedStamps(cfg, db, key, db.oidc[key].(lastSeenAt := at), h, at);
    AccessStamps(cfg, Touched(db, key, at), x, Stamped(h, at));
  }

  lemma SignKeeps(cfg: Config, s: State, i: Issue, at: Time, code: Id, direct: bool)
    requires Inv(cfg, s) && Signable(s.db, s.hist, i, at, code, direct)
    ensures Inv(cfg, s.(db := Touched(s.db, (i.session, i.client), at),
                        hist := WithAccess(Stamped(s.hist, at), s.db, i, at, code, direct)))
  {
    var key := (i.session, i.client);
    var h := WithAccess(Stamped(s.hist, at), s.db, i, at, code, direct);
    SignedSids(s.db, s.hist, i, at, code, direct);
    StampedHistory(s.hist, h.orderly, h.lastStamp, h.access);
    TouchedOidc(s.db.oidc, key, at, s.hist);
    TouchedStanding(s.db, key, at, s.review);
    SignedTimes(cfg, s.db, s.hist, i, at, code, direct);
    SameClientCalls(s.calls, s.db, Touched(s.db, key, at), s.hist, s.review);
    StampedRows(s.db.codes, s.db.refresh, s.hist, h);
    StampedRest(Touched(s.db, key, at), s.calls, s.hist, h, s.review);
    assert Credentials(Touched(s.db, key, at), h);
  }

  // --- A root: the first token of a new family -----------------------------

  ghost predicate Rootable(db: Store, h: History, code: Id, family: Id, token: Id, row: Refresh) {
    && token !in h.seen && family !in h.seen && token != family
    && code in h.codes && code in h.redeemed && code !in h.familyOf && code !in h.contained
    && row.family == family && row.parent.None? && row.usedAt.None? && row.revokedAt.None?
    && row.user == h.codes[code].user && row.client == h.codes[code].client && row.session == h.codes[code].session
    && row.authTime == h.codes[code].authTime && row.scopes == h.codes[code].scopes
    && family !in h.revoked
    && AfterWithdrawal(h, row.user, row.client, code)
    && MayHold(db, row.user, row.client)
  }

  lemma RootGrows(h: History, code: Id, family: Id, token: Id, row: Refresh)
    requires token !in h.tokens && token !in h.place && family !in h.families
    ensures Grows(h, WithRoot(h, code, family, token, row))
  {
  }

  lemma ChainSurvives(tokens: map<Id, Refresh>, place: map<Id, nat>, chain: seq<Id>, f: Id, t: Id, row: Refresh, i: nat)
    requires ChainOk(tokens, place, chain, f) && t !in tokens
    ensures ChainOk(tokens[t := row], place[t := i], chain, f)
  {
  }

  lemma RootSelf(db: Store, h: History, code: Id, family: Id, token: Id, row: Refresh)
    requires Rootable(db, h, code, family, token, row)
    ensures FamilyOk(WithRoot(h, code, family, token, row), family)
    ensures TokenOk(WithRoot(h, code, family, token, row), token)
  {
  }

  lemma RootOtherFamily(db: Store, h: History, code: Id, family: Id, token: Id, row: Refresh, f: Id)
    requires Rootable(db, h, code, family, token, row) && token !in h.tokens && f in h.families && f != family
      && FamilyOk(h, f)
    ensures FamilyOk(WithRoot(h, code, family, token, row), f)
  {
    ChainSurvives(h.tokens, h.place, h.families[f].chain, f, token, row, 0);
  }

  lemma RootOtherToken(db: Store, h: History, code: Id, family: Id, token: Id, row: Refresh, t: Id)
    requires Rootable(db, h, code, family, token, row) && token !in h.tokens && family !in h.families
    requires t in h.tokens && TokenOk(h, t)
    ensures TokenOk(WithRoot(h, code, family, token, row), t)
  {
  }

  lemma RootFamilies(db: Store, h: History, code: Id, family: Id, token: Id, row: Refresh)
    requires FamiliesOk(h) && Rootable(db, h, code, family, token, row) && token !in h.tokens && family !in h.families
    ensures FamiliesOk(WithRoot(h, code, family, token, row))
  {
    var h' := WithRoot(h, code, family, token, row);
    forall f | f in h'.families ensures FamilyOk(h', f) {
      if f == family {
        RootSelf(db, h, code, family, token, row);
      } else {
        RootOtherFamily(db, h, code, family, token, row, f);
      }
    }
    forall t | t in h'.tokens ensures TokenOk(h', t) {
      if t == token {
        RootSelf(db, h, code, family, token, row);
      } else {
        RootOtherToken(db, h, code, family, token, row, t);
      }
    }
  }

  lemma RootRest(h: History, code: Id, family: Id, token: Id, row: Refresh)
    requires LogOk(h) && CodesOk(h) && SidsOk(h) && code !in h.contained
    ensures var h' := WithRoot(h, code, family, token, row); LogOk(h') && CodesOk(h') && SidsOk(h')
  {
  }

  /** A name nobody has seen names no token and no family. */
  lemma FreshNames(h: History, token: Id, family: Id)
    requires FamiliesOk(h) && token !in h.seen && family !in h.seen
    ensures token !in h.tokens && token !in h.place && family !in h.families
  {
    forall t | t in h.tokens ensures t in h.seen { assert TokenOk(h, t); }
    forall f | f in h.families ensures f in h.seen { assert FamilyOk(h, f); }
  }

  lemma RootHistory(db: Store, h: History, code: Id, family: Id, token: Id, row: Refresh)
    requires HistoryOk(h) && Rootable(db, h, code, family, token, row)
    ensures HistoryOk(WithRoot(h, code, family, token, row)) && Grows(h, WithRoot(h, code, family, token, row))
  {
    FreshNames(h, token, family);
    RootFamilies(db, h, code, family, token, row);
    RootRest(h, code, family, token, row);
    RootGrows(h, code, family, token, row);
  }

  lemma RootRow(db: Store, h: History, code: Id, family: Id, token: Id, row: Refresh)
    requires Rootable(db, h, code, family, token, row)
    ensures RefreshRowOk(row, token, WithRoot(h, code, family, token, row))
  {
  }

  lemma RefreshInserted(refresh: map<Id, Refresh>, t: Id, row: Refresh, h: History)
    requires RefreshTable(refresh, h) && RefreshRowOk(row, t, h)
    ensures RefreshTable(refresh[t := row], h)
  {
  }

  lemma RootTimes(cfg: Config, db: Store, h: History, code: Id, family: Id, token: Id, row: Refresh)
    requires Times(cfg, db, h) && FamiliesOk(h) && token !in h.tokens && family !in h.families
    requires code in h.redeemed && row.expiresAt == h.redeemed[code] + cfg.refreshTtl
    ensures Times(cfg, db, WithRoot(h, code, family, token, row))
  {
    forall f | f in h.families ensures |h.families[f].chain| > 0 && h.families[f].chain[0] in h.tokens {
      assert FamilyOk(h, f);
    }
  }

  /** A token minted at the last stamp for a session just seen. */
  ghost predicate JustMinted(cfg: Config, db: Store, h: History, row: Refresh) {
    && row.expiresAt - cfg.refreshTtl == h.lastStamp
    && (row.session, row.client) in db.oidc && db.oidc[(row.session, row.client)].lastSeenAt == h.lastStamp
  }

  lemma RootKeeps(cfg: Config, s: State, code: Id, family: Id, token: Id, row: Refresh)
    requires Inv(cfg, s) && Rootable(s.db, s.hist, code, family, token, row) && JustMinted(cfg, s.db, s.hist, row)
    requires row.expiresAt == s.hist.redeemed[code] + cfg.refreshTtl
    ensures Inv(cfg,
        s.(db := s.db.(refresh := s.db.refresh[token := row]), hist := WithRoot(s.hist, code, family, token, row)))
  {
    var h := WithRoot(s.hist, code, family, token, row);
    var db := s.db.(refresh := s.db.refresh[token := row]);
    FreshNames(s.hist, token, family);
    RootHistory(s.db, s.hist, code, family, token, row);
    GrownCredentials(s.db, s.hist, h);
    RootRow(s.db, s.hist, code, family, token, row);
    RefreshInserted(s.db.refresh, token, row, h);
    RefreshStanding(s.db, token, row, s.review);
    RefreshStamps(cfg, s.db, token, row, s.hist);
    RootTimes(cfg, db, s.hist, code, family, token, row);
    RefreshCalls(s.calls, s.db, token, row, s.hist, s.review);
    GrownCalls(s.calls, db, s.hist, h, s.review);
    assert Credentials(db, h);
  }

  // --- A descendant: the next token of a chain -----------------------------

  ghost predicate Extendable(db: Store, h: History, parent: Id, token: Id, row: Refresh) {
    && token !in h.seen
    && parent in h.tokens && parent in h.place && row.family in h.families
    && h.place[parent] + 1 == |h.families[row.family].chain|
    && row.parent == Some(parent) && row.usedAt.None? && row.revokedAt.None?
    && var held := h.tokens[parent];
    && held.family == row.family && held.user == row.user && held.client == row.client
    && held.session == row.session && held.authTime == row.authTime && row.scopes <= held.scopes
    && row.family !in h.revoked
    && AfterWithdrawal(h, row.user, row.client, h.families[row.family].code)
    && MayHold(db, row.user, row.client)
    && (parent in db.refresh ==> db.refresh[parent].usedAt.Some?)
  }

  lemma DescendantFamily(db: Store, h: History, parent: Id, token: Id, row: Refresh, f: Id)
    requires Extendable(db, h, parent, token, row) && token !in h.tokens && f in h.families && FamilyOk(h, f)
    ensures FamilyOk(WithDescendant(h, token, row), f)
  {
    var fam := h.families[row.family];
    ChainSurvives(h.tokens, h.place, h.families[f].chain, f, token, row, |fam.chain|);
  }

  lemma DescendantToken(db: Store, h: History, parent: Id, token: Id, row: Refresh, t: Id)
    requires Extendable(db, h, parent, token, row) && token !in h.tokens && t in h.tokens && TokenOk(h, t)
    ensures TokenOk(WithDescendant(h, token, row), t)
  {
  }

  lemma DescendantSelf(db: Store, h: History, parent: Id, token: Id, row: Refresh)
    requires Extendable(db, h, parent, token, row) && token !in h.tokens && TokenOk(h, parent)
    ensures TokenOk(WithDescendant(h, token, row), token)
  {
  }

  lemma DescendantFamilies(db: Store, h: History, parent: Id, token: Id, row: Refresh)
    requires FamiliesOk(h) && Extendable(db, h, parent, token, row) && token !in h.tokens
    ensures FamiliesOk(WithDescendant(h, token, row))
  {
    var h' := WithDescendant(h, token, row);
    forall f | f in h'.families ensures FamilyOk(h', f) { DescendantFamily(db, h, parent, token, row, f); }
    forall t | t in h'.tokens ensures TokenOk(h', t) {
      if t == token {
        DescendantSelf(db, h, parent, token, row);
      } else {
        DescendantToken(db, h, parent, token, row, t);
      }
    }
  }

  lemma DescendantRest(h: History, token: Id, row: Refresh)
    requires LogOk(h) && CodesOk(h) && SidsOk(h) && row.family in h.families
    ensures var h' := WithDescendant(h, token, row); LogOk(h') && CodesOk(h') && SidsOk(h')
  {
  }

  lemma DescendantHistory(db: Store, h: History, parent: Id, token: Id, row: Refresh)
    requires HistoryOk(h) && Extendable(db, h, parent, token, row)
    ensures HistoryOk(WithDescendant(h, token, row)) && token !in h.tokens
  {
    forall t | t in h.tokens ensures t in h.seen { assert TokenOk(h, t); }
    DescendantFamilies(db, h, parent, token, row);
    DescendantRest(h, token, row);
  }

  /** Only the parent becomes superseded, and it has been used. */
  lemma DescendantRows(db: Store, h: History, parent: Id, token: Id, row: Refresh)
    requires RefreshTable(db.refresh, h) && FamiliesOk(h) && Extendable(db, h, parent, token, row) && token !in h.tokens
    ensures RefreshTable(db.refresh[token := row], WithDescendant(h, token, row))
  {
    var h' := WithDescendant(h, token, row);
    var after := db.refresh[token := row];
    forall t | t in after ensures RefreshRowOk(after[t], t, h') {
      if t == token {
        assert FamilyOk(h, row.family);
      } else {
        assert RefreshRowOk(db.refresh[t], t, h);
        LastIsParent(db, h, parent, token, row, t);
      }
    }
  }

  lemma LastIsParent(db: Store, h: History, parent: Id, token: Id, row: Refresh, t: Id)
    requires FamiliesOk(h) && Extendable(db, h, parent, token, row)
    requires t in db.refresh && RefreshRowOk(db.refresh[t], t, h)
    ensures Superseded(WithDescendant(h, token, row), t, db.refresh[t].family) ==>
      t == parent || db.refresh[t].usedAt.Some? || t == token
  {
    assert TokenOk(h, t);
    assert TokenOk(h, parent);
    assert RefreshBirth(db.refresh[t]).family == h.tokens[t].family;
  }

  lemma DescendantCodes(codes: map<Id, Code>, h: History, token: Id, row: Refresh)
    requires CodeTable(codes, h) && row.family in h.families
    ensures CodeTable(codes, WithDescendant(h, token, row))
  {
    forall c | c in codes ensures CodeRowOk(codes[c], c, WithDescendant(h, token, row)) {
      assert CodeRowOk(codes[c], c, h);
    }
  }

  lemma DescendantOthers(db: Store, calls: map<Id, Call>, h: History, token: Id, row: Refresh, review: Review)
    requires row.family in h.families && token !in h.tokens
    requires RequestTable(db.requests, h) && SessionTable(db.sessions, h) && OidcTable(db.oidc, h)
    requires GrantTable(db.grants, h) && OutboxTable(db.outbox, h) && CallsOk(calls, db, h, review)
    ensures var h' := WithDescendant(h, token, row);
      && RequestTable(db.requests, h') && SessionTable(db.sessions, h') && OidcTable(db.oidc, h')
      && GrantTable(db.grants, h') && OutboxTable(db.outbox, h') && CallsOk(calls, db, h', review)
  {
    var h' := WithDescendant(h, token, row);
    forall n: Notice ensures db.outbox[n] == if OwedNotice(h', n) then Told(h'.log, n.sid) else 0 {
      assert OwedNotice(h', n) == OwedNotice(h, n);
    }
    forall i | i in calls ensures CallOk(calls[i], db, h', review) { assert CallOk(calls[i], db, h, review); }
  }

  lemma DescendantTimes(cfg: Config, db: Store, h: History, parent: Id, token: Id, row: Refresh)
    requires Times(cfg, db, h) && FamiliesOk(h) && Extendable(db, h, parent, token, row) && token !in h.tokens
    ensures Times(cfg, db, WithDescendant(h, token, row))
  {
    forall f | f in h.families ensures |h.families[f].chain| > 0 && h.families[f].chain[0] in h.tokens {
      assert FamilyOk(h, f);
    }
  }

  lemma DescendantKeeps(cfg: Config, s: State, parent: Id, token: Id, row: Refresh)
    requires Inv(cfg, s) && Extendable(s.db, s.hist, parent, token, row) && JustMinted(cfg, s.db, s.hist, row)
    ensures Inv(cfg, s.(db := s.db.(refresh := s.db.refresh[token := row]), hist := WithDescendant(s.hist, token, row)))
  {
    var h := WithDescendant(s.hist, token, row);
    var db := s.db.(refresh := s.db.refresh[token := row]);
    DescendantHistory(s.db, s.hist, parent, token, row);
    DescendantRows(s.db, s.hist, parent, token, row);
    DescendantCodes(s.db.codes, s.hist, token, row);
    RefreshStanding(s.db, token, row, s.review);
    RefreshStamps(cfg, s.db, token, row, s.hist);
    DescendantTimes(cfg, db, s.hist, parent, token, row);
    RefreshCalls(s.calls, s.db, token, row, s.hist, s.review);
    DescendantOthers(db, s.calls, s.hist, token, row, s.review);
    assert Credentials(db, h);
  }
}
