/** What background deletion may take: never a row an unexpired credential still needs. */
module Pruning {
  import opened Prelude
  import opened Tables
  import opened Transactions
  import opened History
  import opened Machine
  import opened Invariants
  import opened UpkeepClosing
  import opened Reachability
  import opened Runs

  // --- Issue times in commit order -----------------------------------------

  /** The issue time of a commit that mints. */
  function MintTime(step: Step): Option<Time> {
    match step
    case CommitCode(_, at, _, _) => Some(at)
    case CommitRedeem(_, at, _, _) => Some(at)
    case CommitRefresh(_, at, _) => Some(at)
    case _ => None
  }

  /** Each commit that mints carries an issue time no earlier than those before it. */
  predicate InIssueOrder(steps: seq<Step>) {
    && (forall i :: 0 <= i < |steps| && MintTime(steps[i]).Some? ==> 0 <= MintTime(steps[i]).value)
    && (forall i, j :: 0 <= i < j < |steps| && MintTime(steps[i]).Some? && MintTime(steps[j]).Some? ==>
          MintTime(steps[i]).value <= MintTime(steps[j]).value)
  }

  ghost predicate StampsLike(s: State, step: Step, s': State) {
    match MintTime(step)
    case Some(at) => s'.hist.orderly == (s.hist.orderly && s.hist.lastStamp <= at) && s'.hist.lastStamp == at
    case None => s'.hist.orderly == s.hist.orderly && s'.hist.lastStamp == s.hist.lastStamp
  }

  lemma MintStamps(cfg: Config, s: State, step: Step, s': State)
    requires MintNext(cfg, s, step, s')
    ensures StampsLike(s, step, s')
  {
  }

  lemma ReadStamps(cfg: Config, s: State, step: Step, s': State)
    requires ReadNext(cfg, s, step, s')
    ensures s'.hist.orderly == s.hist.orderly && s'.hist.lastStamp == s.hist.lastStamp && MintTime(step).None?
  {
  }

  lemma RevokeStamps(cfg: Config, s: State, step: Step, s': State)
    requires RevokeNext(cfg, s, step, s')
    ensures s'.hist.orderly == s.hist.orderly && s'.hist.lastStamp == s.hist.lastStamp && MintTime(step).None?
  {
  }

  lemma AdminStamps(cfg: Config, s: State, step: Step, s': State)
    requires AdminNext(cfg, s, step, s')
    ensures s'.hist.orderly == s.hist.orderly && s'.hist.lastStamp == s.hist.lastStamp && MintTime(step).None?
  {
  }

  lemma StampStep(cfg: Config, run: Run, i: nat)
    requires ValidRun(cfg, run) && i < |run.steps|
    ensures StampsLike(run.states[i], run.steps[i], run.states[i + 1])
  {
    var s, step, s' := run.states[i], run.steps[i], run.states[i + 1];
    assert RunStep(cfg, run, i);
    if MintNext(cfg, s, step, s') { MintStamps(cfg, s, step, s'); }
    else if ReadNext(cfg, s, step, s') { ReadStamps(cfg, s, step, s'); }
    else if RevokeNext(cfg, s, step, s') { RevokeStamps(cfg, s, step, s'); }
    else if AdminNext(cfg, s, step, s') { AdminStamps(cfg, s, step, s'); }
    else { SweepCloses(cfg, s, step, s'); }
  }

  lemma {:induction false} RunsInOrder(cfg: Config, run: Run, n: nat)
    requires ValidRun(cfg, run) && n <= |run.steps| && InIssueOrder(run.steps)
    ensures run.states[n].hist.orderly
    ensures forall k :: n <= k < |run.steps| && MintTime(run.steps[k]).Some? ==>
      run.states[n].hist.lastStamp <= MintTime(run.steps[k]).value
  {
    if n > 0 {
      RunsInOrder(cfg, run, n - 1);
      StampStep(cfg, run, n - 1);
    }
  }

  // --- Per-client sessions -------------------------------------------------

  /** Nothing unexpired at `at` names the per-client session: neither a signed access token,
      nor a refresh token, nor a code that could still be redeemed. */
  ghost predicate Forgotten(cfg: Config, s: State, key: (Id, Id), at: Time) {
    && (forall a :: a in s.hist.access && (a.session, a.client) == key ==> a.issuedAt + cfg.accessTtl < at)
    && (forall t :: t in s.db.refresh && (s.db.refresh[t].session, s.db.refresh[t].client) == key ==>
        s.db.refresh[t].expiresAt < at)
    && (forall c :: c in s.db.codes && (s.db.codes[c].session, s.db.codes[c].client) == key ==>
        s.db.codes[c].expiresAt < at)
  }

  lemma StaleIsForgotten(cfg: Config, s: State, key: (Id, Id), cutoff: Time)
    requires ValidConfig(cfg) && StampsHold(cfg, s.db, s.hist)
    requires key in s.db.oidc && s.db.oidc[key].lastSeenAt < cutoff - Retention(cfg)
    ensures Forgotten(cfg, s, key, cutoff)
  {
  }

  lemma SweptIsStale(cfg: Config, run: Run, i: nat, key: (Id, Id))
    requires ValidRun(cfg, run) && i < |run.steps| && run.steps[i].SweepOidc?
    requires key in run.states[i].db.oidc && key !in run.states[i + 1].db.oidc
    ensures run.states[i].db.oidc[key].lastSeenAt < run.steps[i].cutoff - Retention(cfg)
    ensures run.steps[i].cutoff <= run.states[i].now
  {
    assert RunStep(cfg, run, i);
  }

  /** Interleaved with exchanges, a batch of the session prune never deletes a row that an
      unexpired access token, refresh token or code names, whatever keys it had selected. */
  lemma OidcPruneIsSafe(cfg: Config, run: Run, i: nat, key: (Id, Id))
    requires ValidConfig(cfg) && ValidRun(cfg, run) && InIssueOrder(run.steps)
    requires i < |run.steps| && run.steps[i].SweepOidc?
    requires key in run.states[i].db.oidc && key !in run.states[i + 1].db.oidc
    ensures Forgotten(cfg, run.states[i], key, run.states[i].now)
  {
    RunsInOrder(cfg, run, i);
    StampsAt(cfg, run, i);
    SweptIsStale(cfg, run, i, key);
    StaleIsForgotten(cfg, run.states[i], key, run.steps[i].cutoff);
  }

  lemma StampsAt(cfg: Config, run: Run, i: nat)
    requires ValidRun(cfg, run) && i < |run.states| && run.states[i].hist.orderly
    ensures StampsHold(cfg, run.states[i].db, run.states[i].hist)
  {
    RunKeeps(cfg, run, i);
  }

  // --- Used codes ----------------------------------------------------------

  /** The family's first token was minted by redeeming `code`. */
  predicate RootedIn(h: History, f: Id, code: Id)
    requires f in h.families
  {
    h.families[f].code == code && |h.families[f].chain| > 0 && h.families[f].chain[0] in h.tokens
  }

  /** Everything the redemption of `code` minted directly has expired. Tokens rotated from its
      refresh token are not included: each rotation starts a new lifetime. */
  ghost predicate DirectlyExpired(cfg: Config, h: History, code: Id, at: Time) {
    && (forall a :: a in h.access && a.direct && a.code == code ==> a.issuedAt + cfg.accessTtl < at)
    && (forall f :: f in h.families && RootedIn(h, f, code) ==> h.tokens[h.families[f].chain[0]].expiresAt < at)
  }

  lemma SpentLongAgo(cfg: Config, h: History, code: Id, row: Code, cutoff: Time)
    requires MintTimes(cfg, h) && CodeRowOk(row, code, h) && FamiliesOk(h)
    requires row.usedAt.Some? && row.usedAt.value < cutoff - Retention(cfg)
    ensures DirectlyExpired(cfg, h, code, cutoff)
  {
    forall f | f in h.families && RootedIn(h, f, code) ensures h.tokens[h.families[f].chain[0]].expiresAt < cutoff {
      assert FamilyOk(h, f);
    }
  }

  lemma SweptCode(cfg: Config, run: Run, i: nat, code: Id)
    requires ValidRun(cfg, run) && i < |run.steps| && run.steps[i].SweepCodes?
    requires code in run.states[i].db.codes && code !in run.states[i + 1].db.codes
    ensures CodePrunable(cfg, run.states[i].db.codes[code], run.steps[i].cutoff)
      && run.steps[i].cutoff <= run.states[i].now
  {
    assert RunStep(cfg, run, i);
  }

  lemma CodesAt(cfg: Config, run: Run, i: nat)
    requires ValidRun(cfg, run) && i < |run.states|
    ensures var s := run.states[i]; MintTimes(cfg, s.hist) && CodeTable(s.db.codes, s.hist) && FamiliesOk(s.hist)
  {
    RunKeeps(cfg, run, i);
  }

  /** A used code is retained, so that its replay can be recognised, until all that its
      redemption minted directly has expired. */
  lemma UsedCodeRetained(cfg: Config, run: Run, i: nat, code: Id)
    requires ValidRun(cfg, run) && i < |run.steps| && run.steps[i].SweepCodes?
    requires code in run.states[i].db.codes && code !in run.states[i + 1].db.codes
    requires run.states[i].db.codes[code].usedAt.Some?
    ensures DirectlyExpired(cfg, run.states[i].hist, code, run.states[i].now)
  {
    SweptCode(cfg, run, i, code);
    CodesAt(cfg, run, i);
    SpentLongAgo(cfg, run.states[i].hist, code, run.states[i].db.codes[code], run.steps[i].cutoff);
  }

  // --- Nothing usable goes -------------------------------------------------

  lemma SweepSpares(cfg: Config, s: State, step: Step, s': State, id: Id)
    requires SweepNext(cfg, s, step, s')
    ensures RequestClaimable(s.db, id, s.now) ==> RequestClaimable(s'.db, id, s'.now)
    ensures CodeClaimable(s.db, id, s.now) ==> CodeClaimable(s'.db, id, s'.now)
    ensures RefreshClaimable(s.db, id, s.now) ==> RefreshClaimable(s'.db, id, s'.now)
  {
  }

  /** No background deletion takes a request that can still be completed, a code that can still
      be redeemed, or a refresh token that can still be exchanged. */
  lemma PrunesSpareUsable(cfg: Config, run: Run, i: nat, id: Id)
    requires ValidRun(cfg, run) && i < |run.steps|
    requires var step := run.steps[i];
      step.SweepRequests? || step.SweepCodes? || step.SweepRefresh? || step.SweepOidc? || step.DropSession?
    ensures var s, s' := run.states[i], run.states[i + 1];
      && (RequestClaimable(s.db, id, s.now) ==> RequestClaimable(s'.db, id, s'.now))
      && (CodeClaimable(s.db, id, s.now) ==> CodeClaimable(s'.db, id, s'.now))
      && (RefreshClaimable(s.db, id, s.now) ==> RefreshClaimable(s'.db, id, s'.now))
  {
    assert RunStep(cfg, run, i);
    SweepSpares(cfg, run.states[i], run.steps[i], run.states[i + 1], id);
  }
}
