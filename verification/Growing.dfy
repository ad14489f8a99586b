/** The history only ever gains names; what it already knew about a row stays true. */
module Growing {
  import opened Prelude
  import opened Tables
  import opened Transactions
  import opened History
  import opened Machine
  import opened Invariants

  ghost predicate Extends<K, V>(a: map<K, V>, b: map<K, V>) {
    forall k {:trigger k in b} {:trigger k in a} :: k in a ==> k in b && b[k] == a[k]
  }

  /** New names and births; the log, its indexes and the clock marks are as they were. */
  ghost predicate Grows(a: History, b: History) {
    && b.log == a.log && b.settled == a.settled && b.redeemed == a.redeemed && b.withdrawn == a.withdrawn
    && b.revoked == a.revoked && b.contained == a.contained && b.access == a.access
    && b.orderly == a.orderly && b.lastStamp == a.lastStamp
    && a.seen <= b.seen
    && Extends(a.owner, b.owner) && Extends(a.sids, b.sids)
    && Extends(a.codes, b.codes) && Extends(a.issuedAt, b.issuedAt)
    && Extends(a.tokens, b.tokens) && Extends(a.place, b.place)
    && Extends(a.families, b.families)
  }

  lemma GrownCodes(codes: map<Id, Code>, a: History, b: History)
    requires CodeTable(codes, a) && Grows(a, b)
    ensures CodeTable(codes, b)
  {
    forall c | c in codes ensures CodeRowOk(codes[c], c, b) {
      assert CodeRowOk(codes[c], c, a);
    }
  }

  lemma GrownRefreshRow(row: Refresh, t: Id, a: History, b: History)
    requires RefreshRowOk(row, t, a) && Grows(a, b)
    requires row.revokedAt.None? ==> a.families[row.family].code in a.issuedAt
    ensures RefreshRowOk(row, t, b)
  {
  }

  lemma GrownRefresh(refresh: map<Id, Refresh>, a: History, b: History)
    requires RefreshTable(refresh, a) && Grows(a, b) && FamiliesOk(a) && IssueLog(a.log, a.codes, a.issuedAt)
    ensures RefreshTable(refresh, b)
  {
    forall t | t in refresh ensures RefreshRowOk(refresh[t], t, b) {
      assert RefreshRowOk(refresh[t], t, a);
      assert FamilyOk(a, refresh[t].family);
      GrownRefreshRow(refresh[t], t, a, b);
    }
  }

  lemma GrownOidc(oidc: map<(Id, Id), Oidc>, a: History, b: History)
    requires OidcTable(oidc, a) && Grows(a, b)
    ensures OidcTable(oidc, b)
  {
  }

  lemma GrownSessions(sessions: map<Id, Session>, a: History, b: History)
    requires SessionTable(sessions, a) && Grows(a, b)
    ensures SessionTable(sessions, b)
  {
  }

  lemma GrownOutbox(outbox: multiset<Notice>, a: History, b: History)
    requires OutboxTable(outbox, a) && Grows(a, b) && SidsOk(a)
    ensures OutboxTable(outbox, b)
  {
    forall n: Notice ensures outbox[n] == if OwedNotice(b, n) then Told(b.log, n.sid) else 0 {
      assert outbox[n] == if OwedNotice(a, n) then Told(a.log, n.sid) else 0;
      assert Told(a.log, n.sid) > 0 ==> n.sid in a.sids;
    }
  }

  lemma GrownCredentials(db: Store, a: History, b: History)
    requires Credentials(db, a) && HistoryOk(a) && Grows(a, b)
    ensures Credentials(db, b)
  {
    GrownCodes(db.codes, a, b);
    GrownRefresh(db.refresh, a, b);
    GrownOidc(db.oidc, a, b);
    GrownSessions(db.sessions, a, b);
    GrownOutbox(db.outbox, a, b);
  }

  lemma GrownCalls(calls: map<Id, Call>, db: Store, a: History, b: History, review: Review)
    requires CallsOk(calls, db, a, review) && Grows(a, b)
    ensures CallsOk(calls, db, b, review)
  {
    forall i | i in calls ensures CallOk(calls[i], db, b, review) {
      assert CallOk(calls[i], db, a, review);
    }
  }

  lemma SameRows(cfg: Config, a: Store, b: Store, h: History)
    requires b.refresh == a.refresh && b.codes == a.codes && b.oidc == a.oidc && Times(cfg, a, h)
    ensures Times(cfg, b, h)
  {
  }

  lemma SameStanding(a: Store, b: Store, review: Review)
    requires b.refresh == a.refresh && b.codes == a.codes && b.oidc == a.oidc && b.clients == a.clients
      && b.users == a.users
    requires Standing(a, review)
    ensures Standing(b, review)
  {
    forall u | u in b.users && b.users[u].status.UserDisabled? ensures NothingLive(b, u) { assert NothingLive(a, u); }
    forall c | Sealed(review, c)
      ensures NotApproved(b.clients, c) && NoLiveRefresh(b.refresh, c) && NoLiveOidc(b.oidc, c) {}
  }

  /** The requests anybody has seen are as they were, but for being consumed. */
  ghost predicate SameRequests(a: map<Id, Request>, b: map<Id, Request>, seen: set<Id>) {
    forall r {:trigger r in b} :: r in b && r in seen ==> r in a && RequestBirth(b[r]) == RequestBirth(a[r])
  }

  lemma SameFromRequest(p: Completion, a: map<Id, Request>, b: map<Id, Request>, seen: set<Id>)
    requires SameRequests(a, b, seen) && p.request in seen && FromRequest(p, a)
    ensures FromRequest(p, b)
  {
    if p.request in b {
      var was, row := RequestBirth(a[p.request]), RequestBirth(b[p.request]);
      assert row.client == was.client && row.redirect == was.redirect && row.challenged == was.challenged
        && row.scopes == was.scopes;
    }
  }

  lemma SameClientCalls(calls: map<Id, Call>, a: Store, b: Store, h: History, review: Review)
    requires b.refresh == a.refresh && b.codes == a.codes && b.clients == a.clients && CallsOk(calls, a, h, review)
    requires SameRequests(a.requests, b.requests, h.seen)
    ensures CallsOk(calls, b, h, review)
  {
    forall i | i in calls ensures CallOk(calls[i], b, h, review) {
      assert CallOk(calls[i], a, h, review);
      if calls[i].Completing? { SameFromRequest(calls[i].p, a.requests, b.requests, h.seen); }
    }
  }

  /** Requests, browser sessions, grants and notices matter to none of these. */
  lemma RestSurvives(cfg: Config, a: Store, b: Store, calls: map<Id, Call>, h: History, review: Review)
    requires b.refresh == a.refresh && b.codes == a.codes && b.oidc == a.oidc && b.clients == a.clients
      && b.users == a.users
    requires SameRequests(a.requests, b.requests, h.seen)
    requires Standing(a, review) && Times(cfg, a, h) && CallsOk(calls, a, h, review)
    ensures Standing(b, review) && Times(cfg, b, h) && CallsOk(calls, b, h, review)
  {
    SameRows(cfg, a, b, h);
    SameStanding(a, b, review);
    SameClientCalls(calls, a, b, h, review);
  }

  lemma GrownTimes(cfg: Config, db: Store, a: History, b: History)
    requires Times(cfg, db, a) && Grows(a, b) && b.families == a.families && b.tokens == a.tokens
    ensures Times(cfg, db, b)
  {
  }

  // --- Names that join -----------------------------------------------------

  lemma FamiliesSurvive(a: History, b: History)
    requires FamiliesOk(a)
    requires a.seen <= b.seen && Extends(a.codes, b.codes)
    requires b.redeemed == a.redeemed && b.tokens == a.tokens && b.place == a.place && b.revoked == a.revoked
    requires b.families == a.families && b.familyOf == a.familyOf
    ensures FamiliesOk(b)
  {
    forall f | f in b.families ensures FamilyOk(b, f) { assert FamilyOk(a, f); }
    forall t | t in b.tokens ensures TokenOk(b, t) { assert TokenOk(a, t); }
  }

  lemma SeenJoins(h: History, ids: set<Id>)
    requires HistoryOk(h)
    ensures HistoryOk(h.(seen := h.seen + ids)) && Grows(h, h.(seen := h.seen + ids))
  {
    FamiliesSurvive(h, h.(seen := h.seen + ids));
  }

  lemma OwnerGrows(h: History, session: Id, user: Id)
    requires CodesOk(h) && SidsOk(h) && session !in h.owner && session in h.seen
    ensures var h' := h.(owner := h.owner[session := user]); CodesOk(h') && SidsOk(h') && Grows(h, h')
  {
  }

  lemma OwnerJoins(h: History, session: Id, user: Id)
    requires HistoryOk(h) && session !in h.owner && session in h.seen
    ensures HistoryOk(h.(owner := h.owner[session := user])) && Grows(h, h.(owner := h.owner[session := user]))
  {
    OwnerGrows(h, session, user);
    FamiliesSurvive(h, h.(owner := h.owner[session := user]));
  }

  lemma SidGrows(h: History, sid: Id, key: (Id, Id))
    requires SidsOk(h) && sid !in h.sids && sid in h.seen && key.0 in h.owner
    ensures var h' := h.(sids := h.sids[sid := key]); SidsOk(h') && Grows(h, h')
  {
  }

  lemma SidJoins(h: History, sid: Id, key: (Id, Id))
    requires HistoryOk(h) && sid !in h.sids && sid in h.seen && key.0 in h.owner
    ensures HistoryOk(h.(sids := h.sids[sid := key]))
  {
    SidGrows(h, sid, key);
    FamiliesSurvive(h, h.(sids := h.sids[sid := key]));
  }

  lemma CodeGrows(h: History, c: Id, row: Code, i: nat)
    requires c !in h.codes && c !in h.issuedAt
    ensures Grows(h, h.(codes := h.codes[c := row], issuedAt := h.issuedAt[c := i]))
  {
  }

  lemma CodeLogged(log: seq<Event>, codes: map<Id, Code>, issuedAt: map<Id, nat>, c: Id, row: Code, i: nat)
    requires IssueLog(log, codes, issuedAt) && TokenLog(log, codes, issuedAt)
    requires c !in codes && IssueEventOk(log, i, c, row)
    ensures IssueLog(log, codes[c := row], issuedAt[c := i]) && TokenLog(log, codes[c := row], issuedAt[c := i])
  {
    forall j | 0 <= j < |log| && Tokening(log[j]) ensures TokenEventOk(log, j, codes[c := row], issuedAt[c := i]) {
      assert TokenEventOk(log, j, codes, issuedAt);
    }
  }

  lemma CodeBelongs(h: History, c: Id, row: Code, i: nat)
    requires CodesOk(h) && SpentOk(h.redeemed, h.contained, h.revoked, h.codes, h.familyOf)
    requires c !in h.codes && c in h.seen && row.usedAt.None?
    requires row.session in h.owner && h.owner[row.session] == row.user
    ensures CodesOk(h.(codes := h.codes[c := row], issuedAt := h.issuedAt[c := i]))
    ensures SpentOk(h.redeemed, h.contained, h.revoked, h.codes[c := row], h.familyOf)
  {
  }

  lemma CodeJoins(h: History, c: Id, row: Code, i: nat)
    requires HistoryOk(h) && c !in h.codes && c in h.seen && c !in h.issuedAt
    requires IssueEventOk(h.log, i, c, row) && row.usedAt.None?
    requires row.session in h.owner && h.owner[row.session] == row.user
    ensures HistoryOk(h.(codes := h.codes[c := row], issuedAt := h.issuedAt[c := i]))
  {
    var h' := h.(codes := h.codes[c := row], issuedAt := h.issuedAt[c := i]);
    CodeGrows(h, c, row, i);
    CodeBelongs(h, c, row, i);
    CodeLogged(h.log, h.codes, h.issuedAt, c, row, i);
    FamiliesSurvive(h, h');
  }
}
