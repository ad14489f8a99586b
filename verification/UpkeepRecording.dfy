/** When the tables already show what an event says, recording it keeps them coherent. */
module UpkeepRecording {
  import opened Prelude
  import opened Tables
  import opened Transactions
  import opened History
  import opened Machine
  import opened Invariants

  /** The rows an event speaks of are already closed. */
  ghost predicate Shown(db: Store, h: History, e: Event) {
    && (Settling(e) && e.request in db.requests ==> db.requests[e.request].consumedAt.Some?)
    && (e.Redeemed? && e.code in db.codes ==> db.codes[e.code].usedAt == Some(e.at))
    && (e.CodeReplayRefused? && e.code in db.codes ==> db.codes[e.code].usedAt.Some?)
    && (e.FamilyRevoked? ==> FamilyShut(db.refresh, e.family))
    && (e.CodeReplayRefused? && e.code in h.familyOf ==> FamilyShut(db.refresh, h.familyOf[e.code]))
    && (e.Withdrawn? ==>
          && (forall c :: c in db.codes && db.codes[c].user == e.user && db.codes[c].client == e.client ==>
                db.codes[c].usedAt.Some?)
          && (forall t :: t in db.refresh && db.refresh[t].user == e.user && db.refresh[t].client == e.client ==>
                db.refresh[t].revokedAt.Some?))
  }

  lemma RecordedCodes(db: Store, h: History, e: Event)
    requires CodeTable(db.codes, h) && Shown(db, h, e)
    ensures CodeTable(db.codes, Record(h, e))
  {
    forall c | c in db.codes ensures CodeRowOk(db.codes[c], c, Record(h, e)) {
      assert CodeRowOk(db.codes[c], c, h);
    }
  }

  lemma RecordedRefresh(db: Store, h: History, e: Event)
    requires RefreshTable(db.refresh, h) && Shown(db, h, e)
    ensures RefreshTable(db.refresh, Record(h, e))
  {
    forall t | t in db.refresh ensures RefreshRowOk(db.refresh[t], t, Record(h, e)) {
      assert RefreshRowOk(db.refresh[t], t, h);
    }
  }

  lemma RecordedRequests(db: Store, h: History, e: Event)
    requires RequestTable(db.requests, h) && Shown(db, h, e)
    ensures RequestTable(db.requests, Record(h, e))
  {
  }

  lemma RecordedSessions(db: Store, h: History, e: Event)
    requires SessionTable(db.sessions, h) && OidcTable(db.oidc, h)
    ensures SessionTable(db.sessions, Record(h, e)) && OidcTable(db.oidc, Record(h, e))
  {
  }

  /** Events that neither widen nor reset a grant leave the consent record alone. */
  lemma RecordedGrants(grants: map<(Id, Id), Grant>, h: History, e: Event)
    requires GrantTable(grants, h) && !e.CodeIssued? && !e.Withdrawn? && !e.ClientRemoved?
    ensures GrantTable(grants, Record(h, e))
  {
    forall u, c ensures Approved(Record(h, e).log, u, c) == LiveScopes(grants, u, c) {
      ApprovedAppend(h.log, e, u, c);
      assert Approved(h.log, u, c) == LiveScopes(grants, u, c);
    }
  }

  /** Events that tell nobody leave the outbox count alone. */
  lemma RecordedOutbox(outbox: multiset<Notice>, h: History, e: Event)
    requires OutboxTable(outbox, h) && !e.Withdrawn? && !e.SessionEnded?
    ensures OutboxTable(outbox, Record(h, e))
  {
    var h' := Record(h, e);
    forall sid ensures Told(h'.log, sid) == Told(h.log, sid) { ToldAppend(h.log, e, sid); }
    forall n: Notice ensures outbox[n] == if OwedNotice(h', n) then Told(h'.log, n.sid) else 0 {
      assert OwedNotice(h', n) == OwedNotice(h, n);
      assert Told(h'.log, n.sid) == Told(h.log, n.sid);
    }
  }

  lemma RecordedTimes(cfg: Config, db: Store, h: History, e: Event)
    requires FamiliesOk(h) && Times(cfg, db, h) && (e.Redeemed? ==> e.code !in h.redeemed)
    ensures Times(cfg, db, Record(h, e))
  {
    var h' := Record(h, e);
    forall f | f in h'.families ensures h'.families[f].code in h.redeemed { assert FamilyOk(h, f); }
  }

  lemma RecordedCalls(calls: map<Id, Call>, db: Store, h: History, review: Review, e: Event)
    requires CallsOk(calls, db, h, review)
    ensures CallsOk(calls, db, Record(h, e), review)
  {
    forall i | i in calls ensures CallOk(calls[i], db, Record(h, e), review) {
      assert CallOk(calls[i], db, h, review);
    }
  }

  /** Everything but the grants and the outbox, which depend on the kind of event. */
  lemma RecordedRest(cfg: Config, s: State, e: Event)
    requires HistoryOk(s.hist) && Recordable(s.hist, e) && Shown(s.db, s.hist, e)
    requires RequestTable(s.db.requests, s.hist) && CodeTable(s.db.codes, s.hist) && RefreshTable(s.db.refresh, s.hist)
    requires SessionTable(s.db.sessions, s.hist) && OidcTable(s.db.oidc, s.hist)
    requires Standing(s.db, s.review) && Times(cfg, s.db, s.hist) && CallsOk(s.calls, s.db, s.hist, s.review)
    requires GrantTable(s.db.grants, Record(s.hist, e)) && OutboxTable(s.db.outbox, Record(s.hist, e))
    ensures Inv(cfg, s.(hist := Record(s.hist, e)))
  {
    RecordKeeps(s.hist, e);
    RecordedRequests(s.db, s.hist, e);
    RecordedCodes(s.db, s.hist, e);
    RecordedRefresh(s.db, s.hist, e);
    RecordedSessions(s.db, s.hist, e);
    RecordedTimes(cfg, s.db, s.hist, e);
    RecordedCalls(s.calls, s.db, s.hist, s.review, e);
    assert Credentials(s.db, Record(s.hist, e));
  }

  /** An event that touches neither grants nor outbox. */
  lemma RecordedQuiet(cfg: Config, s: State, e: Event)
    requires Inv(cfg, s) && Recordable(s.hist, e) && Shown(s.db, s.hist, e)
    requires e.Denied? || e.Redeemed? || e.Refreshed? || e.FamilyRevoked? || e.CodeReplayRefused?
    ensures Inv(cfg, s.(hist := Record(s.hist, e)))
  {
    RecordedGrants(s.db.grants, s.hist, e);
    RecordedOutbox(s.db.outbox, s.hist, e);
    RecordedRest(cfg, s, e);
  }
}
