/** The invariant survives the commit that issues an authorization code. */
module UpkeepCode {
  import opened Prelude
  import opened Tables
  import opened Transactions
  import opened History
  import opened Machine
  import opened Invariants
  import opened Closing
  import opened UpkeepRecording
  import opened Growing
  import opened Minting
  import opened UpkeepClosing

  ghost predicate Commits(cfg: Config, s: State, p: Completion, at: Time, code: Id, sid: Id) {
    && code !in s.hist.seen && sid !in s.hist.seen && code != sid
    && IssueCode(cfg, s.db, p, at, code, sid).Committed?
    && FromRequest(p, s.db.requests)
  }

  /** The grants after the commit are the consent record after the event. */
  lemma GrantsRecorded(db: Store, h: History, p: Completion, code: Id)
    requires GrantTable(db.grants, h) && p.client in db.clients && p.request in db.requests
    ensures GrantTable(GrantsAfter(db, p), Record(h, CodeEvent(db, p, code)))
  {
    var e := CodeEvent(db, p, code);
    forall u, c ensures Approved(Record(h, e).log, u, c) == LiveScopes(GrantsAfter(db, p), u, c) {
      ApprovedAppend(h.log, e, u, c);
      assert Approved(h.log, u, c) == LiveScopes(db.grants, u, c);
    }
  }

  function Claimed(db: Store, p: Completion, at: Time): Store
    requires p.client in db.clients && p.request in db.requests
  {
    db.(grants := GrantsAfter(db, p), requests := ConsumedRequest(db, p.request, at))
  }

  lemma EventRecordable(db: Store, h: History, p: Completion, at: Time, code: Id)
    requires GrantTable(db.grants, h) && RequestTable(db.requests, h)
    requires p.client in db.clients && GrantCovers(GrantsAfter(db, p), p.user, p.client, p.scopes)
    requires RequestClaimable(db, p.request, at)
    requires FromRequest(p, db.requests)
    ensures Recordable(h, CodeEvent(db, p, code))
  {
    var e := CodeEvent(db, p, code);
    GrantsRecorded(db, h, p, code);
    assert Approved(Record(h, e).log, p.user, p.client) == LiveScopes(GrantsAfter(db, p), p.user, p.client);
  }

  /** First half: consent recorded, request consumed, event logged. */
  lemma ClaimKeeps(cfg: Config, s: State, p: Completion, at: Time, code: Id, sid: Id)
    requires Inv(cfg, s) && Commits(cfg, s, p, at, code, sid)
    ensures Inv(cfg, Claim(s, p, at, code))
  {
    var e := CodeEvent(s.db, p, code);
    var db := Claimed(s.db, p, at);
    GrantsRecorded(s.db, s.hist, p, code);
    EventRecordable(s.db, s.hist, p, at, code);
    RecordedOutbox(s.db.outbox, s.hist, e);
    RestSurvives(cfg, s.db, db, s.calls, s.hist, s.review);
    RecordedRest(cfg, s.(db := db), e);
  }

  // --- Second half: the code and the per-client session join ---------------

  lemma WithCodeGrows(h: History, db: Store, p: Completion, code: Id, row: Code, sid: Id)
    requires |h.log| > 0 && code !in h.codes && code !in h.issuedAt && sid !in h.sids
    ensures Grows(h, WithCode(h, db, p, code, row, sid))
  {
  }

  lemma HistoryJoins(h: History, db: Store, p: Completion, code: Id, row: Code, sid: Id)
    requires HistoryOk(h) && code !in h.seen && sid !in h.seen
    requires |h.log| > 0 && IssueEventOk(h.log, |h.log| - 1, code, row) && row.usedAt.None?
    requires row.session == p.session && p.session in h.owner && h.owner[p.session] == row.user
    ensures HistoryOk(WithCode(h, db, p, code, row, sid))
  {
    var h1 := h.(seen := h.seen + {code, sid});
    SeenJoins(h, {code, sid});
    CodeJoins(h1, code, row, |h.log| - 1);
    var h2 := h1.(codes := h1.codes[code := row], issuedAt := h1.issuedAt[code := |h.log| - 1]);
    if (p.session, p.client) !in db.oidc {
      SidJoins(h2, sid, (p.session, p.client));
    }
  }

  lemma NewCodeRow(h: History, code: Id, row: Code)
    requires code in h.codes && h.codes[code] == row && row.usedAt.None?
    requires code !in h.redeemed && code !in h.contained && code in h.issuedAt
    requires forall k :: k in h.withdrawn ==> h.withdrawn[k] < h.issuedAt[code]
    ensures CodeRowOk(row, code, h)
  {
  }

  lemma CodeInserted(codes: map<Id, Code>, code: Id, row: Code, h: History)
    requires CodeTable(codes, h) && CodeRowOk(row, code, h)
    ensures CodeTable(codes[code := row], h)
  {
  }

  lemma OidcInserted(oidc: map<(Id, Id), Oidc>, key: (Id, Id), row: Oidc, h: History)
    requires OidcTable(oidc, h)
    requires key.0 in h.owner && row.user == h.owner[key.0] && row.id in h.sids && h.sids[row.id] == key
    ensures OidcTable(oidc[key := row], h)
  {
  }

  /** What the second half relies on, gathered from the first. */
  ghost predicate Joinable(s: State, p: Completion, code: Id, sid: Id) {
    && code !in s.hist.seen && sid !in s.hist.seen && code != sid
    && |s.hist.log| > 0
    && var last := s.hist.log[|s.hist.log| - 1];
    && last.CodeIssued? && last.code == code
    && last.user == p.user && last.client == p.client && last.scopes == p.scopes
    && (forall k :: k in s.hist.withdrawn ==> s.hist.withdrawn[k] < |s.hist.log| - 1)
    && MayHold(s.db, p.user, p.client)
    && p.session in s.db.sessions && s.db.sessions[p.session].user == Some(p.user)
  }

  lemma TablesJoin(cfg: Config, s: State, p: Completion, at: Time, code: Id, sid: Id)
    requires HistoryOk(s.hist) && Credentials(s.db, s.hist)
    requires Joinable(s, p, code, sid)
    ensures var row := MintedCode(cfg, s.db, p, at);
            var h := WithCode(s.hist, s.db, p, code, row, sid);
            && HistoryOk(h) && Grows(s.hist, h)
            && Credentials(s.db.(oidc := s.db.oidc[(p.session, p.client) := Established(s.db, p, at, sid)],
                                 codes := s.db.codes[code := row]), h)
  {
    var row := MintedCode(cfg, s.db, p, at);
    var h := WithCode(s.hist, s.db, p, code, row, sid);
    HistoryJoins(s.hist, s.db, p, code, row, sid);
    WithCodeGrows(s.hist, s.db, p, code, row, sid);
    GrownCredentials(s.db, s.hist, h);
    NewCodeRow(h, code, row);
    CodeInserted(s.db.codes, code, row, h);
    OidcInserted(s.db.oidc, (p.session, p.client), Established(s.db, p, at, sid), h);
  }

  lemma RestJoins(cfg: Config, s: State, p: Completion, at: Time, code: Id, sid: Id)
    requires HistoryOk(s.hist) && OidcTable(s.db.oidc, s.hist)
    requires Standing(s.db, s.review) && CallsOk(s.calls, s.db, s.hist, s.review)
    requires Joinable(s, p, code, sid)
    ensures var b := s.db.(oidc := s.db.oidc[(p.session, p.client) := Established(s.db, p, at, sid)],
                           codes := s.db.codes[code := MintedCode(cfg, s.db, p, at)]);
            Standing(b, s.review) && CallsOk(s.calls, b, s.hist, s.review)
  {
    var a := s.db.(oidc := s.db.oidc[(p.session, p.client) := Established(s.db, p, at, sid)]);
    EstablishedStanding(s.db, (p.session, p.client), Established(s.db, p, at, sid), s.review);
    CodeStanding(a, code, MintedCode(cfg, s.db, p, at), s.review);
    SameClientCalls(s.calls, s.db, a, s.hist, s.review);
    CodeCalls(s.calls, a, code, MintedCode(cfg, s.db, p, at), s.hist, s.review);
  }

  lemma TimesJoin(cfg: Config, db: Store, h: History, p: Completion, at: Time, code: Id, sid: Id)
    requires Times(cfg, db, h) && p.session in db.sessions
    ensures Times(cfg, db.(oidc := db.oidc[(p.session, p.client) := Established(db, p, at, sid)],
                           codes := db.codes[code := MintedCode(cfg, db, p, at)]), Stamped(h, at))
  {
    var a := db.(oidc := db.oidc[(p.session, p.client) := Established(db, p, at, sid)]);
    TouchedStamps(cfg, db, (p.session, p.client), Established(db, p, at, sid), h, at);
    CodeStamps(cfg, a, code, MintedCode(cfg, db, p, at), Stamped(h, at));
  }

  lemma StampKeeps(cfg: Config, db: Store, calls: map<Id, Call>, h: History, review: Review, at: Time)
    requires HistoryOk(h) && Credentials(db, h) && CallsOk(calls, db, h, review)
    ensures HistoryOk(Stamped(h, at)) && Credentials(db, Stamped(h, at)) && CallsOk(calls, db, Stamped(h, at), review)
  {
    StampedHistory(h, h.orderly && h.lastStamp <= at, at, h.access);
    StampedRows(db.codes, db.refresh, h, Stamped(h, at));
    StampedRest(db, calls, h, Stamped(h, at), review);
  }

  lemma JoinKeeps(cfg: Config, s: State, p: Completion, at: Time, code: Id, sid: Id)
    requires Inv(cfg, s) && Joinable(s, p, code, sid)
    ensures Inv(cfg, Join(cfg, s, p, at, code, sid))
  {
    var h := WithCode(s.hist, s.db, p, code, MintedCode(cfg, s.db, p, at), sid);
    var db := s.db.(oidc := s.db.oidc[(p.session, p.client) := Established(s.db, p, at, sid)],
                    codes := s.db.codes[code := MintedCode(cfg, s.db, p, at)]);
    TablesJoin(cfg, s, p, at, code, sid);
    RestJoins(cfg, s, p, at, code, sid);
    GrownCalls(s.calls, db, s.hist, h, s.review);
    GrownTimes(cfg, s.db, s.hist, h);
    TimesJoin(cfg, s.db, h, p, at, code, sid);
    StampKeeps(cfg, db, s.calls, h, s.review, at);
  }

  lemma ClaimedJoinable(cfg: Config, s: State, p: Completion, at: Time, code: Id, sid: Id)
    requires WithdrawLog(s.hist.log, s.hist.withdrawn) && Commits(cfg, s, p, at, code, sid)
    ensures Joinable(Claim(s, p, at, code), p, code, sid)
  {
  }

  function Claim(s: State, p: Completion, at: Time, code: Id): State
    requires p.client in s.db.clients && p.request in s.db.requests
  {
    s.(db := Claimed(s.db, p, at), hist := Record(s.hist, CodeEvent(s.db, p, code)))
  }

  function Join(cfg: Config, s: State, p: Completion, at: Time, code: Id, sid: Id): State
    requires p.session in s.db.sessions && |s.hist.log| > 0
  {
    s.(db := s.db.(oidc := s.db.oidc[(p.session, p.client) := Established(s.db, p, at, sid)],
                   codes := s.db.codes[code := MintedCode(cfg, s.db, p, at)]),
       hist := Stamped(WithCode(s.hist, s.db, p, code, MintedCode(cfg, s.db, p, at), sid), at))
  }

  /** The transaction is its two halves, one after the other. */
  lemma CommitIsClaimThenJoin(cfg: Config, s: State, s': State, call: Id, at: Time, code: Id, sid: Id)
    requires CommitCodeStep(cfg, s, s', call, at, code, sid)
    ensures var p := s.calls[call].p; s' == Done(Join(cfg, Claim(s, p, at, code), p, at, code, sid), call)
  {
  }

  lemma CommittedKeeps(cfg: Config, s: State, p: Completion, at: Time, code: Id, sid: Id)
    requires Inv(cfg, s) && Commits(cfg, s, p, at, code, sid)
    ensures Inv(cfg, Join(cfg, Claim(s, p, at, code), p, at, code, sid))
  {
    ClaimKeeps(cfg, s, p, at, code, sid);
    ClaimedJoinable(cfg, s, p, at, code, sid);
    JoinKeeps(cfg, Claim(s, p, at, code), p, at, code, sid);
  }

  lemma StepCommits(cfg: Config, s: State, s': State, call: Id, at: Time, code: Id, sid: Id)
    requires CallsOk(s.calls, s.db, s.hist, s.review) && CommitCodeStep(cfg, s, s', call, at, code, sid)
    ensures Commits(cfg, s, s.calls[call].p, at, code, sid)
    ensures s.calls[call].p.client in s.db.clients && s.calls[call].p.request in s.db.requests
    ensures s.calls[call].p.session in Claim(s, s.calls[call].p, at, code).db.sessions
    ensures |Claim(s, s.calls[call].p, at, code).hist.log| > 0
    ensures var p := s.calls[call].p; s' == Done(Join(cfg, Claim(s, p, at, code), p, at, code, sid), call)
  {
    assert CallOk(s.calls[call], s.db, s.hist, s.review);
    CommitIsClaimThenJoin(cfg, s, s', call, at, code, sid);
  }

  lemma CommitCodeKeeps(cfg: Config, s: State, s': State, call: Id, at: Time, code: Id, sid: Id)
    requires Inv(cfg, s) && CommitCodeStep(cfg, s, s', call, at, code, sid)
    ensures Inv(cfg, s')
  {
    StepCommits(cfg, s, s', call, at, code, sid);
    CommittedKeeps(cfg, s, s.calls[call].p, at, code, sid);
    DoneInv(cfg, Join(cfg, Claim(s, s.calls[call].p, at, code), s.calls[call].p, at, code, sid), call);
  }
}
