/** Where a token response comes from: the authorization it descends from was completed for the
    same client, user and browser session, and everything it depends on still holds. */
module Provenance {
  import opened Prelude
  import opened Tables
  import opened Transactions
  import opened History
  import opened Machine
  import opened Invariants
  import opened Closing
  import opened Reachability
  import opened Runs
  import opened Descent
  import opened Containment
  import opened Withdrawal
  import opened Births
  import opened Answers

  // --- The authorization behind a code -------------------------------------

  /** What held when the code was committed: it answers an open request that the client parked
      with this callback and challenge, for what was ticked of the scopes it asked for; the
      client was approved for codes, these scopes and this callback, the account could authorize
      them, and the browser session was the user's own and alive. */
  ghost predicate Authorized(cfg: Config, s: State, p: Completion, at: Time) {
    && MayUseCodes(s.db, p.client, p.scopes, p.redirect)
    && AccountMay(cfg, s.db, p.user, p.scopes)
    && SignedIn(s.db, p.session, p.user, at)
    && Open(s.db, p.request, at)
    && var r := s.db.requests[p.request];
    && p.client == r.client && p.redirect == r.redirect && p.challenged == r.challenged
    && p.scopes != {}
    && (forall scope :: scope in p.scopes <==>
          scope in r.scopes && (p.approved.None? || scope in p.approved.value || scope == OPENID))
  }

  lemma IssueAuthorized(cfg: Config, run: Run, k: nat)
    requires ValidRun(cfg, run) && k < |run.steps| && run.steps[k].CommitCode?
    ensures var s, step := run.states[k], run.steps[k];
      && step.call in s.calls && s.calls[step.call].Completing?
      && var p := s.calls[step.call].p;
      && Authorized(cfg, s, p, step.at)
      && step.code in run.states[k + 1].hist.codes
      && run.states[k + 1].hist.codes[step.code] == MintedCode(cfg, s.db, p, step.at)
  {
    assert RunStep(cfg, run, k);
    var s, step := run.states[k], run.steps[k];
    CompletionFromRequest(cfg, run, k, step.call);
  }

  /** What that commit wrote, column by column. */
  lemma IssueWritten(cfg: Config, run: Run, k: nat)
    requires ValidRun(cfg, run) && k < |run.steps| && run.steps[k].CommitCode?
    ensures var s, step := run.states[k], run.steps[k];
      && step.call in s.calls && s.calls[step.call].Completing?
      && var p := s.calls[step.call].p;
      && p.session in s.db.sessions
      && IssueCodeWrites(cfg, s.db, run.states[k + 1].db, p, step.at, step.code, step.sid)
  {
    assert RunStep(cfg, run, k);
    var s, step := run.states[k], run.steps[k];
    IssueCodeAnswered(cfg, s.db, s.calls[step.call].p, step.at, step.code, step.sid);
  }

  lemma CompletionFromRequest(cfg: Config, run: Run, k: nat, call: Id)
    requires ValidRun(cfg, run) && k < |run.states|
    requires call in run.states[k].calls && run.states[k].calls[call].Completing?
    ensures var p := run.states[k].calls[call].p; FromRequest(p, run.states[k].db.requests) && p.scopes != {}
  {
    RunKeeps(cfg, run, k);
    var s := run.states[k];
    assert CallOk(s.calls[call], s.db, s.hist, s.review);
  }

  /** The step that minted a code that is known at `j`. */
  lemma MintStep(cfg: Config, run: Run, j: nat, code: Id) returns (k: nat)
    requires ValidRun(cfg, run) && j < |run.states| && code in run.states[j].hist.codes
    ensures k < j && run.steps[k].CommitCode? && run.steps[k].code == code
  {
    LogAt(cfg, run, j);
    var h := run.states[j].hist;
    assert IssueEventOk(h.log, h.issuedAt[code], code, h.codes[code]);
    FirstLogEmpty(cfg, run);
    k := EventStep(cfg, run, 0, j, h.issuedAt[code]);
    IssueStep(cfg, run, k, h.log[h.issuedAt[code]]);
  }

  lemma FirstLogEmpty(cfg: Config, run: Run)
    requires ValidRun(cfg, run)
    ensures run.states[0].hist.log == []
  {
  }

  lemma HeldCode(cfg: Config, run: Run, i: nat, call: Id)
    requires ValidRun(cfg, run) && i < |run.states|
    requires call in run.states[i].calls && run.states[i].calls[call].Redeeming?
    ensures var c, h := run.states[i].calls[call], run.states[i].hist;
      c.code in h.codes && CodeBirth(c.row) == h.codes[c.code] && c.row.client == c.client
  {
    RunKeeps(cfg, run, i);
    var s := run.states[i];
    assert CallOk(s.calls[call], s.db, s.hist, s.review);
  }

  /** What a redemption at `at` of a code minted at `minted` shows. */
  ghost predicate Redeems(cfg: Config, s: State, c: Call, at: Time, p: Completion, minted: Time, authTime: Time)
    requires c.Redeeming?
  {
    && c.client == p.client && c.row.user == p.user && c.row.session == p.session
    && c.row.scopes == p.scopes && c.row.authTime == authTime
    && at < minted + cfg.codeTtl
    && MayUseCodes(s.db, p.client, p.scopes, p.redirect)
    && (p.challenged ==> c.verifier == MatchingVerifier)
    && (!p.challenged ==> c.verifier == NoVerifier && !s.db.clients[p.client].requiresPkce)
    && AccountMay(cfg, s.db, p.user, p.scopes)
    && GrantHolds(s.db, p.user, p.client, p.scopes)
    && SessionHolds(s.db, p.session, p.client)
  }

  lemma RedeemChecks(cfg: Config, s: State, s': State, call: Id, at: Time, token: Id, family: Id, p: Completion,
                     minted: Time, authTime: Time)
    requires CommitRedeemStep(cfg, s, s', call, at, token, family)
    requires var c := s.calls[call];
      && c.row.client == c.client
      && CodeBirth(c.row)
        == Code(p.client, p.user, p.session, p.redirect, p.scopes, p.challenged, authTime, minted + cfg.codeTtl, None)
      && (c.code in s.db.codes ==> CodeBirth(s.db.codes[c.code]) == CodeBirth(c.row))
    ensures Redeems(cfg, s, s.calls[call], at, p, minted, authTime)
  {
    var c := s.calls[call];
    var birth := CodeBirth(c.row);
    assert c.row.client == birth.client && c.row.user == birth.user && c.row.session == birth.session;
    assert c.row.redirect == birth.redirect && c.row.scopes == birth.scopes && c.row.challenged == birth.challenged;
    assert c.row.authTime == birth.authTime && c.row.expiresAt == birth.expiresAt;
    assert CodeClaimable(s.db, c.code, at);
    assert s.db.codes[c.code].expiresAt == CodeBirth(s.db.codes[c.code]).expiresAt;
  }

  lemma RedeemedBirth(cfg: Config, run: Run, j: nat)
    requires ValidRun(cfg, run) && j < |run.steps| && run.steps[j].CommitRedeem?
    ensures var s, call := run.states[j], run.steps[j].call;
      && call in s.calls && s.calls[call].Redeeming?
      && var c := s.calls[call];
      && c.code in s.hist.codes && c.row.client == c.client && CodeBirth(c.row) == s.hist.codes[c.code]
      && (c.code in s.db.codes ==> CodeBirth(s.db.codes[c.code]) == CodeBirth(c.row))
  {
    assert RunStep(cfg, run, j);
    var c := run.states[j].calls[run.steps[j].call];
    HeldCode(cfg, run, j, run.steps[j].call);
    CodeTraced(cfg, run, j, c.code);
  }

  /** Every redemption goes back to one authorization: it is made by the client the code was
      issued to, in time, with the verifier its challenge asks for, while the callback it was
      sent to is still registered and client, account and session still stand; and it passes on
      the user, browser session, scopes and sign-in time of that authorization. */
  lemma RedemptionTraces(cfg: Config, run: Run, j: nat) returns (k: nat)
    requires ValidRun(cfg, run) && j < |run.steps| && run.steps[j].CommitRedeem?
    ensures k < j && run.steps[k].CommitCode?
    ensures run.steps[k].call in run.states[k].calls && run.states[k].calls[run.steps[k].call].Completing?
    ensures run.steps[j].call in run.states[j].calls && run.states[j].calls[run.steps[j].call].Redeeming?
    ensures var p, c := run.states[k].calls[run.steps[k].call].p, run.states[j].calls[run.steps[j].call];
      && run.steps[k].code == c.code
      && Authorized(cfg, run.states[k], p, run.steps[k].at)
      && Redeems(cfg, run.states[j], c, run.steps[j].at, p, run.steps[k].at,
                 run.states[k].db.sessions[p.session].createdAt)
  {
    RedeemedBirth(cfg, run, j);
    var c := run.states[j].calls[run.steps[j].call];
    k := MintStep(cfg, run, j, c.code);
    IssueAuthorized(cfg, run, k);
    RunBirths(cfg, run, k + 1, j, c.code);
    var p := run.states[k].calls[run.steps[k].call].p;
    assert RunStep(cfg, run, j);
    RedeemChecks(cfg, run.states[j], run.states[j + 1], run.steps[j].call, run.steps[j].at, run.steps[j].token,
                 run.steps[j].family, p, run.steps[k].at, run.states[k].db.sessions[p.session].createdAt);
  }

  /** So does every refresh token, however often it was rotated. */
  lemma RefreshTraces(cfg: Config, run: Run, j: nat, t: Id) returns (k: nat)
    requires ValidRun(cfg, run) && j < |run.states| && t in run.states[j].db.refresh
    ensures k < j && run.steps[k].CommitCode?
    ensures run.steps[k].call in run.states[k].calls && run.states[k].calls[run.steps[k].call].Completing?
    ensures var p, row := run.states[k].calls[run.steps[k].call].p, run.states[j].db.refresh[t];
      && Authorized(cfg, run.states[k], p, run.steps[k].at)
      && row.client == p.client && row.user == p.user && row.session == p.session
      && row.scopes <= p.scopes && row.authTime == run.states[k].db.sessions[p.session].createdAt
  {
    RowTraced(cfg, run, j, t);
    var h, row := run.states[j].hist, run.states[j].db.refresh[t];
    var code := h.families[row.family].code;
    k := MintStep(cfg, run, j, code);
    IssueAuthorized(cfg, run, k);
    RunBirths(cfg, run, k + 1, j, code);
    assert row.authTime == RefreshBirth(row).authTime;
  }
}
