/** Grants are never wider than what the user agreed to. */
module Consent {
  import opened Prelude
  import opened Tables
  import opened Transactions
  import opened History
  import opened Machine
  import opened Invariants
  import opened Reachability
  import opened Runs

  /** No authorization of the pair was completed on a waiver alone, without the user's selection. */
  predicate NeverWaived(log: seq<Event>, user: Id, client: Id) {
    forall i :: 0 <= i < |log| && log[i].CodeIssued? && log[i].user == user && log[i].client == client ==>
      log[i].waived ==> log[i].approved.Some?
  }

  /** The union of what the user ticked of each request since the last withdrawal, with
      `openid` riding along where it was requested. */
  function Ticked(log: seq<Event>, user: Id, client: Id): set<Scope> {
    if |log| == 0 then {}
    else
      var before := Ticked(log[..|log| - 1], user, client);
      var e := log[|log| - 1];
      if e.CodeIssued? && e.user == user && e.client == client && e.approved.Some?
      then before + set s | s in e.requested && (s in e.approved.value || s == OPENID)
      else if Resets(e, user, client) then {}
      else before
  }

  lemma {:induction false} ApprovedIsTicked(log: seq<Event>, user: Id, client: Id)
    requires ConsentLog(log) && NeverWaived(log, user, client)
    ensures Approved(log, user, client) == Ticked(log, user, client)
  {
    if |log| == 0 {
    } else {
      var before, last := log[..|log| - 1], |log| - 1;
      forall i | 0 <= i < |before| && before[i].CodeIssued? ensures ConsentEventOk(before, i) {
        assert ConsentEventOk(log, i);
        assert before[..i + 1] == log[..i + 1];
      }
      ApprovedIsTicked(before, user, client);
      if log[last].CodeIssued? { assert ConsentEventOk(log, last); }
    }
  }

  /** In every reachable state a live grant holds exactly the scopes approved, or waived, since
      the last withdrawal, and no other pair of user and client has any. */
  lemma GrantIsApproval(cfg: Config, run: Run, i: nat, user: Id, client: Id)
    requires ValidRun(cfg, run) && i < |run.states|
    ensures LiveScopes(run.states[i].db.grants, user, client) == Approved(run.states[i].hist.log, user, client)
  {
    RunKeeps(cfg, run, i);
  }

  /** Where consent was never waived, a live grant is exactly what this user ticked of
      its requests since the last withdrawal: no scope more and no scope less. */
  lemma GrantIsConsent(cfg: Config, run: Run, i: nat, user: Id, client: Id)
    requires ValidRun(cfg, run) && i < |run.states|
    requires NeverWaived(run.states[i].hist.log, user, client)
    ensures LiveScopes(run.states[i].db.grants, user, client) == Ticked(run.states[i].hist.log, user, client)
  {
    GrantIsApproval(cfg, run, i, user, client);
    LogAt(cfg, run, i);
    ApprovedIsTicked(run.states[i].hist.log, user, client);
  }

  /** The registration asks for consent, whenever it is there. */
  predicate Requires(clients: map<Id, Client>, client: Id) { client in clients ==> clients[client].requireConsent }

  /** A client that required consent in every state so far had no authorization on a waiver. */
  lemma RequiredIsNeverWaived(cfg: Config, run: Run, i: nat, user: Id, client: Id)
    requires ValidRun(cfg, run) && i < |run.states|
    requires forall k :: 0 <= k < i ==> Requires(run.states[k].db.clients, client)
    ensures NeverWaived(run.states[i].hist.log, user, client)
  {
    var log := run.states[i].hist.log;
    forall at | 0 <= at < |log| && log[at].CodeIssued? && log[at].client == client ensures !log[at].waived {
      var k := EventStep(cfg, run, 0, i, at);
      StepLogs(cfg, run, k);
      assert run.states[k + 1].hist.log[at] == log[at];
    }
  }

  /** So such a client's live grant is exactly what the user ticked. */
  lemma RequiredGrantIsConsent(cfg: Config, run: Run, i: nat, user: Id, client: Id)
    requires ValidRun(cfg, run) && i < |run.states|
    requires forall k :: 0 <= k < i ==> Requires(run.states[k].db.clients, client)
    ensures LiveScopes(run.states[i].db.grants, user, client) == Ticked(run.states[i].hist.log, user, client)
  {
    RequiredIsNeverWaived(cfg, run, i, user, client);
    GrantIsConsent(cfg, run, i, user, client);
  }

  /** The commit that mints a code leaves a live grant that covers it. */
  lemma CodeWithinGrant(cfg: Config, run: Run, i: nat)
    requires ValidRun(cfg, run) && i < |run.steps| && run.steps[i].CommitCode?
    ensures run.steps[i].code in run.states[i + 1].db.codes
    ensures var db := run.states[i + 1].db;
      var row := db.codes[run.steps[i].code];
      row.scopes <= LiveScopes(db.grants, row.user, row.client) && row.usedAt.None?
  {
    assert RunStep(cfg, run, i);
  }

  /** So every code is within what had been approved when it was minted. */
  lemma CodeWithinApproval(cfg: Config, run: Run, i: nat)
    requires ValidRun(cfg, run) && i < |run.steps| && run.steps[i].CommitCode?
    ensures run.steps[i].code in run.states[i + 1].db.codes
    ensures var row := run.states[i + 1].db.codes[run.steps[i].code];
      row.scopes <= Approved(run.states[i + 1].hist.log, row.user, row.client)
  {
    CodeWithinGrant(cfg, run, i);
    var row := run.states[i + 1].db.codes[run.steps[i].code];
    GrantIsApproval(cfg, run, i + 1, row.user, row.client);
  }

  /** And every token ever minted is within a live grant at the moment of the exchange. */
  lemma TokensWithinGrant(cfg: Config, run: Run, i: nat)
    requires ValidRun(cfg, run) && i < |run.steps| && (run.steps[i].CommitRedeem? || run.steps[i].CommitRefresh?)
    ensures run.steps[i].call in run.states[i].calls
    ensures var s := run.states[i];
      var c := s.calls[run.steps[i].call];
      && (run.steps[i].CommitRedeem? ==> c.Redeeming? && c.row.scopes <= Approved(s.hist.log, c.row.user, c.client))
      && (run.steps[i].CommitRefresh? ==> c.Refreshing? && c.scopes <= Approved(s.hist.log, c.held.user, c.client))
  {
    assert RunStep(cfg, run, i);
    var c := run.states[i].calls[run.steps[i].call];
    GrantIsApproval(cfg, run, i, if c.Redeeming? then c.row.user else c.held.user, c.client);
  }
}
