/** What one step, and so any stretch of a run, can do to the rows and to the record. */
module Runs {
  import opened Prelude
  import opened Tables
  import opened Transactions
  import opened History
  import opened Machine
  import opened Invariants
  import opened Closing
  import opened UpkeepClosing
  import opened Reachability

  // --- Rows only move forward ----------------------------------------------

  /** Every row of `b` is new, or a row of `a` with nothing cleared. */
  ghost predicate RefreshOnward(a: map<Id, Refresh>, b: map<Id, Refresh>, seen: set<Id>) {
    forall t {:trigger t in b} :: t in b ==>
      || t !in seen
      || (t in a && RefreshBirth(b[t]) == RefreshBirth(a[t])
          && SetOnce(a[t].usedAt, b[t].usedAt) && SetOnce(a[t].revokedAt, b[t].revokedAt))
  }

  ghost predicate CodesOnward(a: map<Id, Code>, b: map<Id, Code>, seen: set<Id>) {
    forall c {:trigger c in b} :: c in b ==>
      || c !in seen
      || (c in a && CodeBirth(b[c]) == CodeBirth(a[c]) && SetOnce(a[c].usedAt, b[c].usedAt))
  }

  ghost predicate RequestsOnward(a: map<Id, Request>, b: map<Id, Request>, seen: set<Id>) {
    forall r {:trigger r in b} :: r in b ==>
      r !in seen || (r in a && RequestBirth(b[r]) == RequestBirth(a[r]) && SetOnce(a[r].consumedAt, b[r].consumedAt))
  }

  ghost predicate RowsOnward(a: Store, b: Store, seen: set<Id>) {
    var refresh := RefreshOnward(a.refresh, b.refresh, seen);
    var codes := CodesOnward(a.codes, b.codes, seen);
    var requests := RequestsOnward(a.requests, b.requests, seen);
    refresh && codes && requests
  }

  ghost predicate Onward(s: State, s': State) {
    RowsOnward(s.db, s'.db, s.hist.seen) && s.hist.seen <= s'.hist.seen
  }

  lemma ClosedOnward(a: Store, b: Store, seen: set<Id>)
    requires Closes(a, b)
    ensures RowsOnward(a, b, seen)
  {
  }

  lemma RowsOnwardJoins(a: Store, b: Store, c: Store, early: set<Id>, late: set<Id>)
    requires RowsOnward(a, b, early) && RowsOnward(b, c, late) && early <= late
    ensures RowsOnward(a, c, early)
  {
  }

  lemma IssueCodeOnward(cfg: Config, db: Store, p: Completion, at: Time, code: Id, sid: Id, seen: set<Id>)
    requires IssueCode(cfg, db, p, at, code, sid).Committed? && code !in seen
    ensures RowsOnward(db, IssueCode(cfg, db, p, at, code, sid).db, seen)
  {
  }

  lemma IssueTokensOnward(cfg: Config, db: Store, i: Issue, at: Time, token: Id, mint: bool, seen: set<Id>)
    requires i.client in db.clients && (i.session, i.client) in db.oidc && token !in seen
    ensures RowsOnward(db, IssueTokens(cfg, db, i, at, token, mint), seen)
  {
  }

  lemma RedeemOnward(cfg: Config, s: State, s': State, call: Id, at: Time, token: Id, family: Id)
    requires CommitRedeemStep(cfg, s, s', call, at, token, family)
    ensures Onward(s, s')
  {
    var c := s.calls[call];
    var claimed := ClaimedCode(s.db, c.code, at);
    ClaimedCodeCloses(s.db, c.code, at);
    ClosedOnward(s.db, claimed, s.hist.seen);
    IssueTokensOnward(cfg, claimed, CodeIssue(c.row, c.client, family), at, token, true, s.hist.seen);
    RowsOnwardJoins(s.db, claimed, s'.db, s.hist.seen, s.hist.seen);
  }

  lemma ExchangeRefreshOnward(cfg: Config, db: Store, token: Id, row: Refresh, client: Id, scopes: set<Scope>,
                              at: Time, minted: Id, seen: set<Id>)
    requires ExchangeRefresh(cfg, db, token, row, client, scopes, at, minted).Committed? && minted !in seen
    ensures RowsOnward(db, ExchangeRefresh(cfg, db, token, row, client, scopes, at, minted).db, seen)
  {
    var claimed := ClaimedRefresh(cfg, db, token, at);
    var issued := IssueTokens(cfg, claimed, RefreshIssue(row, token, client, scopes), at, minted, cfg.rotate);
    ClaimedRefreshCloses(cfg, db, token, at);
    ClosedOnward(db, claimed, seen);
    IssueTokensOnward(cfg, claimed, RefreshIssue(row, token, client, scopes), at, minted, cfg.rotate, seen);
    RowsOnwardJoins(db, claimed, issued, seen, seen);
  }

  lemma RefreshedOnward(cfg: Config, s: State, s': State, call: Id, at: Time, minted: Id)
    requires CommitRefreshStep(cfg, s, s', call, at, minted)
    ensures Onward(s, s')
  {
    var c := s.calls[call];
    ExchangeRefreshOnward(cfg, s.db, c.token, c.held, c.client, c.scopes, at, minted, s.hist.seen);
  }

  lemma MintOnward(cfg: Config, s: State, step: Step, s': State)
    requires MintNext(cfg, s, step, s')
    ensures Onward(s, s')
  {
    match step
    case CommitCode(call, at, code, sid) => IssueCodeOnward(cfg, s.db, s.calls[call].p, at, code, sid, s.hist.seen);
    case CommitRedeem(call, at, token, family) => RedeemOnward(cfg, s, s', call, at, token, family);
    case CommitRefresh(call, at, minted) => RefreshedOnward(cfg, s, s', call, at, minted);
  }

  lemma ReadOnward(cfg: Config, s: State, step: Step, s': State)
    requires ReadNext(cfg, s, step, s')
    ensures s'.db == s.db && s'.hist.seen == s.hist.seen
  {
  }

  lemma RevokeCloses(cfg: Config, s: State, step: Step, s': State)
    requires RevokeNext(cfg, s, step, s')
    ensures Closes(s.db, s'.db) && s'.hist.seen == s.hist.seen
  {
    match step
    case CommitDenial(call, at) => ConsumedCloses(s.db, s.calls[call].request, at);
    case BurnCode(call, at) => SpendingCloses(s.db.codes, {s.calls[call].code}, at);
    case Contain(call, at) =>
      var row := s.calls[call].row;
      RevokeForSessionCloses(s.db, row.session, row.client, row.user, at);
    case CommitFamily(call, at) =>
      var c := s.calls[call];
      RevokeFamilyCloses(s.db, c.family, c.client, c.user, at);
    case RevokeByAccess(session, client, user, at) => RevokeForSessionCloses(s.db, session, client, user, at);
    case WithdrawGrant(user, client, at) => WithdrawCloses(s.db, user, client, at);
    case EndSession(session, user, at) => EndBrowserSessionCloses(s.db, session, user, at);
    case LogoutSession(session, at) => LogoutCloses(s.db, session, at);
    case RevokeAccount(user, at) => RevokeAllCloses(s.db, user, at);
    case ShutRefresh(call, at) => RevokingCloses(s.db.refresh, ClientRefresh(s.db, s.calls[call].client), at);
    case ShutOidc(call, at) => EndingCloses(s.db.oidc, ClientOidc(s.db, s.calls[call].client), at);
  }

  lemma AdminOnward(cfg: Config, s: State, step: Step, s': State)
    requires AdminNext(cfg, s, step, s')
    ensures Onward(s, s')
  {
    match step
    case DeleteClient(client) =>
      RemoveClientCloses(s.db, client);
      ClosedOnward(s.db, s'.db, s.hist.seen);
    case ResetPassword(user, at) => RevokeAllCloses(PromotedUser(s.db, user), user, at);
    case SetAccountStatus(user, status, at) =>
      RevokeAllCloses(s.db.(users := s.db.users[user := s.db.users[user].(status := status)]), user, at);
    case _ =>
  }

  /** No step clears `usedAt`, `consumedAt` or a refresh token's `revokedAt`, moves a row to
      another owner or family, or brings back a row that was deleted. */
  lemma StepOnward(cfg: Config, run: Run, i: nat)
    requires ValidRun(cfg, run) && i < |run.steps|
    ensures Onward(run.states[i], run.states[i + 1])
  {
    var s, step, s' := run.states[i], run.steps[i], run.states[i + 1];
    assert RunStep(cfg, run, i);
    if MintNext(cfg, s, step, s') { MintOnward(cfg, s, step, s'); }
    else if ReadNext(cfg, s, step, s') { ReadOnward(cfg, s, step, s'); SameOnward(s.db, s.hist.seen); }
    else if RevokeNext(cfg, s, step, s') { RevokeCloses(cfg, s, step, s'); ClosedOnward(s.db, s'.db, s.hist.seen); }
    else if AdminNext(cfg, s, step, s') { AdminOnward(cfg, s, step, s'); }
    else { SweepCloses(cfg, s, step, s'); ClosedOnward(s.db, s'.db, s.hist.seen); }
  }

  lemma {:induction false} RunOnward(cfg: Config, run: Run, i: nat, j: nat)
    requires ValidRun(cfg, run) && i <= j < |run.states|
    ensures Onward(run.states[i], run.states[j])
    decreases j
  {
    var s := run.states[i];
    if i < j {
      var mid := run.states[j - 1];
      RunOnward(cfg, run, i, j - 1);
      StepOnward(cfg, run, j - 1);
      RowsOnwardJoins(s.db, mid.db, run.states[j].db, s.hist.seen, mid.hist.seen);
    } else {
      SameOnward(s.db, s.hist.seen);
    }
  }

  lemma SameOnward(db: Store, seen: set<Id>)
    ensures RowsOnward(db, db, seen)
  {
  }

  /** A refresh row met twice in a run is the same row, no less used and no less revoked. */
  lemma RefreshRowMonotone(cfg: Config, run: Run, i: nat, j: nat, t: Id)
    requires ValidRun(cfg, run) && i <= j < |run.states|
    requires t in run.states[i].db.refresh && t in run.states[j].db.refresh
    ensures var a, b := run.states[i].db.refresh[t], run.states[j].db.refresh[t];
      RefreshBirth(b) == RefreshBirth(a) && SetOnce(a.usedAt, b.usedAt) && SetOnce(a.revokedAt, b.revokedAt)
  {
    RunKeeps(cfg, run, i);
    assert RefreshRowOk(run.states[i].db.refresh[t], t, run.states[i].hist);
    assert TokenOk(run.states[i].hist, t);
    RunOnward(cfg, run, i, j);
  }

  /** Likewise a code. */
  lemma CodeRowMonotone(cfg: Config, run: Run, i: nat, j: nat, c: Id)
    requires ValidRun(cfg, run) && i <= j < |run.states|
    requires c in run.states[i].db.codes && c in run.states[j].db.codes
    ensures var a, b := run.states[i].db.codes[c], run.states[j].db.codes[c];
      CodeBirth(b) == CodeBirth(a) && SetOnce(a.usedAt, b.usedAt)
  {
    RunKeeps(cfg, run, i);
    assert CodeRowOk(run.states[i].db.codes[c], c, run.states[i].hist);
    RunOnward(cfg, run, i, j);
  }

  // --- What each step puts on record ---------------------------------------

  /** The event a step records, if any. */
  ghost predicate Logs(s: State, step: Step, s': State) {
    var before, after := s.hist.log, s'.hist.log;
    match step
    case CommitCode(call, _, code, _) =>
      && call in s.calls && s.calls[call].Completing?
      && s.calls[call].p.client in s.db.clients && s.calls[call].p.request in s.db.requests
      && after == before + [CodeEvent(s.db, s.calls[call].p, code)]
    case CommitDenial(call, _) =>
      call in s.calls && s.calls[call].Denying? && after == before + [Denied(s.calls[call].request)]
    case CommitRedeem(call, at, _, _) =>
      && call in s.calls && s.calls[call].Redeeming?
      && var c := s.calls[call]; after == before + [Redeemed(c.code, c.row.user, c.client, at)]
    case CommitRefresh(call, _, _) =>
      && call in s.calls && s.calls[call].Refreshing? && s.calls[call].held.family in s.hist.families
      && var c := s.calls[call];
      after == before + [Refreshed(s.hist.families[c.held.family].code, c.held.user, c.client, c.token)]
    case Contain(call, _) =>
      call in s.calls && s.calls[call].Containing? && after == before + [CodeReplayRefused(s.calls[call].code)]
    case FindFamily(call, found) =>
      && call in s.calls && s.calls[call].FindingFamily?
      && after == if found.Some? then before else before + [FamilyRevoked(s.calls[call].family)]
    case CommitFamily(call, _) =>
      && call in s.calls && s.calls[call].RevokingFamily?
      && after == before + [FamilyRevoked(s.calls[call].family)]
    case WithdrawGrant(user, client, _) =>
      after == before + [Withdrawn(user, client, ToldBy(s.db, PairOidc(s.db, user, client)))]
    case EndSession(session, user, _) =>
      after == before + [SessionEnded(session, ToldBy(s.db, SessionUserOidc(s.db, session, user)))]
    case DeleteClient(client) => after == before + [ClientRemoved(client)]
    case _ => after == before
  }

  lemma MintLogs(cfg: Config, s: State, step: Step, s': State)
    requires MintNext(cfg, s, step, s')
    ensures Logs(s, step, s')
  {
  }

  lemma ReadLogs(cfg: Config, s: State, step: Step, s': State)
    requires ReadNext(cfg, s, step, s')
    ensures Logs(s, step, s')
  {
  }

  lemma RevokeLogs(cfg: Config, s: State, step: Step, s': State)
    requires RevokeNext(cfg, s, step, s')
    ensures Logs(s, step, s')
  {
  }

  lemma AdminLogs(cfg: Config, s: State, step: Step, s': State)
    requires AdminNext(cfg, s, step, s')
    ensures Logs(s, step, s')
  {
  }

  lemma StepLogs(cfg: Config, run: Run, i: nat)
    requires ValidRun(cfg, run) && i < |run.steps|
    ensures Logs(run.states[i], run.steps[i], run.states[i + 1])
  {
    var s, step, s' := run.states[i], run.steps[i], run.states[i + 1];
    assert RunStep(cfg, run, i);
    if MintNext(cfg, s, step, s') { MintLogs(cfg, s, step, s'); }
    else if ReadNext(cfg, s, step, s') { ReadLogs(cfg, s, step, s'); }
    else if RevokeNext(cfg, s, step, s') { RevokeLogs(cfg, s, step, s'); }
    else if AdminNext(cfg, s, step, s') { AdminLogs(cfg, s, step, s'); }
    else { SweepCloses(cfg, s, step, s'); }
  }

  /** A step appends at most one event. */
  lemma LogStep(cfg: Config, run: Run, i: nat)
    requires ValidRun(cfg, run) && i < |run.steps|
    ensures var before, after := run.states[i].hist.log, run.states[i + 1].hist.log;
      before <= after && |after| <= |before| + 1
  {
    StepLogs(cfg, run, i);
  }

  lemma {:induction false} LogGrows(cfg: Config, run: Run, i: nat, j: nat)
    requires ValidRun(cfg, run) && i <= j < |run.states|
    ensures run.states[i].hist.log <= run.states[j].hist.log
    decreases j
  {
    if i < j {
      LogGrows(cfg, run, i, j - 1);
      LogStep(cfg, run, j - 1);
    }
  }

  /** Every event on record was recorded by one step. */
  lemma {:induction false} EventStep(cfg: Config, run: Run, i: nat, j: nat, at: nat) returns (k: nat)
    requires ValidRun(cfg, run) && i <= j < |run.states|
    requires |run.states[i].hist.log| <= at < |run.states[j].hist.log|
    ensures i <= k < j && |run.states[k].hist.log| == at
    ensures run.states[k + 1].hist.log == run.states[k].hist.log + [run.states[j].hist.log[at]]
    decreases j
  {
    LogStep(cfg, run, j - 1);
    if at < |run.states[j - 1].hist.log| {
      k := EventStep(cfg, run, i, j - 1, at);
    } else {
      k := j - 1;
    }
  }

  /** The log of every reachable state is coherent. */
  lemma LogAt(cfg: Config, run: Run, i: nat)
    requires ValidRun(cfg, run) && i < |run.states|
    ensures LogOk(run.states[i].hist)
  {
    RunKeeps(cfg, run, i);
  }
}
