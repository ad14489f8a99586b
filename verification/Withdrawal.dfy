/** Withdrawing a grant cuts its lineage: nothing that existed then yields tokens again. */
module Withdrawal {
  import opened Prelude
  import opened Tables
  import opened Transactions
  import opened History
  import opened Machine
  import opened Invariants
  import opened Closing
  import opened Reachability
  import opened Runs
  import opened Descent

  predicate WithdrawsAt(run: Run, i: nat, user: Id, client: Id)
    requires i < |run.steps|
  {
    run.steps[i].WithdrawGrant? && run.steps[i].user == user && run.steps[i].client == client
  }

  /** Step `j` commits a token response for the pair, descended from `code`. */
  ghost predicate IssuesTokens(run: Run, j: nat, user: Id, client: Id, code: Id)
    requires j < |run.steps| < |run.states|
  {
    var s := run.states[j];
    match run.steps[j]
    case CommitRedeem(call, _, _, _) =>
      call in s.calls && s.calls[call].Redeeming?
      && s.calls[call].row.user == user && s.calls[call].client == client && s.calls[call].code == code
    case CommitRefresh(call, _, _) =>
      call in s.calls && s.calls[call].Refreshing? && s.calls[call].held.family in s.hist.families
      && s.calls[call].held.user == user && s.calls[call].client == client
      && s.hist.families[s.calls[call].held.family].code == code
    case _ => false
  }

  lemma WithdrawEvent(cfg: Config, run: Run, i: nat, user: Id, client: Id)
    requires ValidRun(cfg, run) && i < |run.steps| && WithdrawsAt(run, i, user, client)
    ensures exists e :: run.states[i + 1].hist.log == run.states[i].hist.log + [e] && Withdraws(e, user, client)
  {
    StepLogs(cfg, run, i);
  }

  lemma TokenEvent(cfg: Config, run: Run, j: nat, user: Id, client: Id, code: Id)
    requires ValidRun(cfg, run) && j < |run.steps| && IssuesTokens(run, j, user, client, code)
    ensures exists e :: run.states[j + 1].hist.log == run.states[j].hist.log + [e]
                        && Tokening(e) && e.code == code && e.user == user && e.client == client
  {
    StepLogs(cfg, run, j);
  }

  lemma IssueStep(cfg: Config, run: Run, k: nat, e: Event)
    requires ValidRun(cfg, run) && k < |run.steps| && e.CodeIssued?
    requires run.states[k + 1].hist.log == run.states[k].hist.log + [e]
    ensures run.steps[k].CommitCode? && run.steps[k].code == e.code
  {
    StepLogs(cfg, run, k);
    assert run.states[k + 1].hist.log[|run.states[k].hist.log|] == e;
  }

  lemma IssuedAfterWithdrawal(h: History, at: nat, j: nat, user: Id, client: Id, code: Id)
    requires IssueLog(h.log, h.codes, h.issuedAt) && TokenLog(h.log, h.codes, h.issuedAt) && at < j < |h.log|
    requires Withdraws(h.log[at], user, client)
    requires Tokening(h.log[j]) && h.log[j].code == code && h.log[j].user == user && h.log[j].client == client
    ensures code in h.issuedAt && at < h.issuedAt[code] < j
    ensures h.log[h.issuedAt[code]].CodeIssued? && h.log[h.issuedAt[code]].code == code
  {
    assert TokenEventOk(h.log, j, h.codes, h.issuedAt);
    assert IssueEventOk(h.log, h.issuedAt[code], code, h.codes[code]);
  }

  /** Every token a user's client gets after the user withdrew descends from an authorization
      that was completed after the withdrawal, even if the user consented again at once. */
  lemma WithdrawalCutsLineage(cfg: Config, run: Run, i: nat, j: nat, user: Id, client: Id, code: Id) returns (k: nat)
    requires ValidRun(cfg, run) && i < j < |run.steps|
    requires WithdrawsAt(run, i, user, client) && IssuesTokens(run, j, user, client, code)
    ensures i < k < j && run.steps[k].CommitCode? && run.steps[k].code == code
  {
    WithdrawEvent(cfg, run, i, user, client);
    TokenEvent(cfg, run, j, user, client, code);
    var e :| run.states[i + 1].hist.log == run.states[i].hist.log + [e] && Withdraws(e, user, client);
    var e' :| run.states[j + 1].hist.log == run.states[j].hist.log + [e'] && Tokening(e')
              && e'.code == code && e'.user == user && e'.client == client;
    TwoEvents(cfg, run, i, j, e, e');
    LogAt(cfg, run, j + 1);
    var h := run.states[j + 1].hist;
    IssuedAfterWithdrawal(h, |run.states[i].hist.log|, |h.log| - 1, user, client, code);
    var at := h.issuedAt[code];
    k := EventStep(cfg, run, i + 1, j, at);
    IssueStep(cfg, run, k, h.log[at]);
  }

  lemma WithdrawnRows(cfg: Config, run: Run, i: nat, user: Id, client: Id)
    requires ValidRun(cfg, run) && i < |run.steps| && WithdrawsAt(run, i, user, client)
    ensures var db := run.states[i + 1].db;
      && (forall t :: t in db.refresh && db.refresh[t].user == user && db.refresh[t].client == client ==>
            db.refresh[t].revokedAt.Some?)
      && (forall c :: c in db.codes && db.codes[c].user == user && db.codes[c].client == client ==>
            db.codes[c].usedAt.Some?)
  {
    assert RunStep(cfg, run, i);
  }

  /** A refresh token that existed when the user withdrew is dead for good. */
  lemma WithdrawnRefreshStaysDead(cfg: Config, run: Run, i: nat, j: nat, user: Id, client: Id, t: Id)
    requires ValidRun(cfg, run) && i < j < |run.states| && WithdrawsAt(run, i, user, client)
    requires t in run.states[i].db.refresh && t in run.states[j].db.refresh
    requires run.states[i].db.refresh[t].user == user && run.states[i].db.refresh[t].client == client
    ensures run.states[j].db.refresh[t].revokedAt.Some?
  {
    var a := run.states[i].db.refresh[t];
    assert RunStep(cfg, run, i);
    WithdrawnRows(cfg, run, i, user, client);
    RefreshRowMonotone(cfg, run, i, i + 1, t);
    RefreshRowMonotone(cfg, run, i + 1, j, t);
    assert RefreshBirth(a).user == a.user && RefreshBirth(a).client == a.client;
  }

  /** So is a code. */
  lemma WithdrawnCodeStaysDead(cfg: Config, run: Run, i: nat, j: nat, user: Id, client: Id, c: Id)
    requires ValidRun(cfg, run) && i < j < |run.states| && WithdrawsAt(run, i, user, client)
    requires c in run.states[i].db.codes && c in run.states[j].db.codes
    requires run.states[i].db.codes[c].user == user && run.states[i].db.codes[c].client == client
    ensures run.states[j].db.codes[c].usedAt.Some?
  {
    var a := run.states[i].db.codes[c];
    assert RunStep(cfg, run, i);
    WithdrawnRows(cfg, run, i, user, client);
    CodeRowMonotone(cfg, run, i, i + 1, c);
    CodeRowMonotone(cfg, run, i + 1, j, c);
    assert CodeBirth(a).user == a.user && CodeBirth(a).client == a.client;
  }
}
