/** Back-channel logout notices are conserved: the outbox holds one row for each commit that
    ended a published session whose client wanted to hear of it, and no other row. */
module Outbox {
  import opened Prelude
  import opened Tables
  import opened Transactions
  import opened History
  import opened Machine
  import opened Invariants
  import opened Closing
  import opened Reachability
  import opened Runs

  /** The commit takes the session published as `sid` from live to revoked, while its client
      has a logout endpoint. */
  ghost predicate TakesDown(a: Store, b: Store, sid: Id) {
    exists k {:trigger k in a.oidc} :: k in a.oidc && Downed(a, b, k, sid)
  }

  predicate Downed(a: Store, b: Store, k: (Id, Id), sid: Id)
    requires k in a.oidc
  {
    && a.oidc[k].id == sid && a.oidc[k].revokedAt.None?
    && k in b.oidc && b.oidc[k].revokedAt.Some?
    && k.1 in a.clients && a.clients[k.1].logoutEndpoint
  }

  /** Step `i` is an `endSessions` or `revokeGrant` commit that takes the session down. */
  ghost predicate Owes(run: Run, i: nat, sid: Id)
    requires i < |run.steps| < |run.states|
  {
    (run.steps[i].WithdrawGrant? || run.steps[i].EndSession?) && TakesDown(run.states[i].db, run.states[i + 1].db, sid)
  }

  /** How many of the first `n` steps owed the client of `sid` a notice. */
  ghost function OwedBy(run: Run, n: nat, sid: Id): nat
    requires n <= |run.steps| < |run.states|
  {
    if n == 0 then 0 else OwedBy(run, n - 1, sid) + if Owes(run, n - 1, sid) then 1 else 0
  }

  lemma ToldIsDown(a: Store, b: Store, keys: set<(Id, Id)>, at: Time, sid: Id)
    requires b.oidc == EndOidc(a.oidc, keys, at)
    ensures sid in ToldBy(a, keys) <==> TakesDown(a, b, sid)
  {
    if sid in ToldBy(a, keys) {
      var n :| n in NoticesFor(a, keys) && n.sid == sid;
      var k :| k in keys && k in a.oidc && a.oidc[k].revokedAt.None?
               && k.1 in a.clients && a.clients[k.1].logoutEndpoint && n == Notice(k.1, a.oidc[k].id, a.oidc[k].user);
      assert Downed(a, b, k, sid);
    }
    if TakesDown(a, b, sid) {
      var k :| k in a.oidc && Downed(a, b, k, sid);
      assert Notice(k.1, a.oidc[k].id, a.oidc[k].user) in NoticesFor(a, keys);
    }
  }

  lemma StepTells(cfg: Config, run: Run, i: nat, sid: Id)
    requires ValidRun(cfg, run) && i < |run.steps|
    ensures Told(run.states[i + 1].hist.log, sid) ==
            Told(run.states[i].hist.log, sid) + if Owes(run, i, sid) then 1 else 0
  {
    var a, b, step := run.states[i].db, run.states[i + 1].db, run.steps[i];
    var log := run.states[i].hist.log;
    StepLogs(cfg, run, i);
    if step.WithdrawGrant? || step.EndSession? {
      assert RunStep(cfg, run, i);
      var keys := if step.WithdrawGrant? then PairOidc(a, step.user, step.client)
                  else SessionUserOidc(a, step.session, step.user);
      ToldIsDown(a, b, keys, step.at, sid);
    }
    if run.states[i + 1].hist.log != log {
      LogStep(cfg, run, i);
      ToldAppend(log, run.states[i + 1].hist.log[|log|], sid);
    }
  }

  lemma {:induction false} ToldIsOwed(cfg: Config, run: Run, n: nat, sid: Id)
    requires ValidRun(cfg, run) && n <= |run.steps|
    ensures Told(run.states[n].hist.log, sid) == OwedBy(run, n, sid)
  {
    if n > 0 {
      ToldIsOwed(cfg, run, n - 1, sid);
      StepTells(cfg, run, n - 1, sid);
    }
  }

  /** In every reachable state, the rows queued for a published session are exactly as many as
      the commits that ended it, addressed to its client about its user; nothing else is queued. */
  lemma OutboxConserved(cfg: Config, run: Run, n: nat, notice: Notice)
    requires ValidRun(cfg, run) && n <= |run.steps|
    ensures run.states[n].db.outbox[notice] ==
      if OwedNotice(run.states[n].hist, notice) then OwedBy(run, n, notice.sid) else 0
  {
    RunKeeps(cfg, run, n);
    ToldIsOwed(cfg, run, n, notice.sid);
    assert OutboxTable(run.states[n].db.outbox, run.states[n].hist);
  }

  /** A session that is published now owes its notices to its client and user. */
  lemma PublishedNotice(cfg: Config, run: Run, n: nat, key: (Id, Id))
    requires ValidRun(cfg, run) && n <= |run.steps| && key in run.states[n].db.oidc
    ensures var row := run.states[n].db.oidc[key];
      run.states[n].db.outbox[Notice(key.1, row.id, row.user)] == OwedBy(run, n, row.id)
  {
    RunKeeps(cfg, run, n);
    var row := run.states[n].db.oidc[key];
    OutboxConserved(cfg, run, n, Notice(key.1, row.id, row.user));
  }

  /** Published session ids are unique in every reachable state, as the primary key demands. */
  lemma SidsStayUnique(cfg: Config, run: Run, n: nat)
    requires ValidRun(cfg, run) && n < |run.states|
    ensures UniqueSids(run.states[n].db.oidc)
  {
    RunKeeps(cfg, run, n);
    var s := run.states[n];
    forall j, k | SameSid(s.db.oidc, j, k) ensures j == k {
      assert s.hist.sids[s.db.oidc[j].id] == j;
      assert s.hist.sids[s.db.oidc[k].id] == k;
    }
  }
}
