/** Descent is linear (RFC 6749 section 6): a request settles once, a code mints once, and a
    refresh family is one chain with at most one token that can still be used. */
module Descent {
  import opened Prelude
  import opened Tables
  import opened Transactions
  import opened History
  import opened Machine
  import opened Invariants
  import opened Closing
  import opened Reachability
  import opened Runs

  // --- Each thing is spent by one step of the run --------------------------

  /** Step `i` settles the request: it commits its code or its denial. */
  predicate SettlesRequest(run: Run, i: nat, request: Id)
    requires i < |run.steps| < |run.states|
  {
    var calls := run.states[i].calls;
    match run.steps[i]
    case CommitCode(call, _, _, _) => call in calls && calls[call].Completing? && calls[call].p.request == request
    case CommitDenial(call, _) => call in calls && calls[call].Denying? && calls[call].request == request
    case _ => false
  }

  predicate RedeemsCode(run: Run, i: nat, code: Id)
    requires i < |run.steps| < |run.states|
  {
    var calls := run.states[i].calls;
    match run.steps[i]
    case CommitRedeem(call, _, _, _) => call in calls && calls[call].Redeeming? && calls[call].code == code
    case _ => false
  }

  predicate ExchangesToken(run: Run, i: nat, token: Id)
    requires i < |run.steps| < |run.states|
  {
    var calls := run.states[i].calls;
    match run.steps[i]
    case CommitRefresh(call, _, _) => call in calls && calls[call].Refreshing? && calls[call].token == token
    case _ => false
  }

  lemma SettleEvent(cfg: Config, run: Run, i: nat, request: Id)
    requires ValidRun(cfg, run) && i < |run.steps| && SettlesRequest(run, i, request)
    ensures exists e ::
      run.states[i + 1].hist.log == run.states[i].hist.log + [e] && Settling(e) && e.request == request
  {
    StepLogs(cfg, run, i);
  }

  lemma RedeemEvent(cfg: Config, run: Run, i: nat, code: Id)
    requires ValidRun(cfg, run) && i < |run.steps| && RedeemsCode(run, i, code)
    ensures exists e :: run.states[i + 1].hist.log == run.states[i].hist.log + [e] && e.Redeemed? && e.code == code
  {
    StepLogs(cfg, run, i);
  }

  /** Two events recorded by different steps sit at different places of the later log. */
  lemma TwoEvents(cfg: Config, run: Run, i: nat, j: nat, e: Event, e': Event)
    requires ValidRun(cfg, run) && i < j < |run.steps|
    requires run.states[i + 1].hist.log == run.states[i].hist.log + [e]
    requires run.states[j + 1].hist.log == run.states[j].hist.log + [e']
    ensures var last := run.states[j + 1].hist.log;
      |run.states[i].hist.log| < |last| - 1 && last[|run.states[i].hist.log|] == e && last[|last| - 1] == e'
  {
    LogGrows(cfg, run, i + 1, j);
  }

  lemma SettledBefore(cfg: Config, run: Run, i: nat, j: nat, request: Id, other: Id)
    requires ValidRun(cfg, run) && i < j < |run.steps|
    requires SettlesRequest(run, i, request) && SettlesRequest(run, j, other)
    ensures request != other
  {
    SettleEvent(cfg, run, i, request);
    SettleEvent(cfg, run, j, other);
    var e :| run.states[i + 1].hist.log == run.states[i].hist.log + [e] && Settling(e) && e.request == request;
    var e' :| run.states[j + 1].hist.log == run.states[j].hist.log + [e'] && Settling(e') && e'.request == other;
    TwoEvents(cfg, run, i, j, e, e');
    LogAt(cfg, run, j + 1);
  }

  /** However requests interleave, one parked request yields one code or one denial. */
  lemma RequestSettledOnce(cfg: Config, run: Run, i: nat, j: nat, request: Id)
    requires ValidRun(cfg, run) && i < |run.steps| && j < |run.steps|
    requires SettlesRequest(run, i, request) && SettlesRequest(run, j, request)
    ensures i == j
  {
    if i < j { SettledBefore(cfg, run, i, j, request, request); }
    if j < i { SettledBefore(cfg, run, j, i, request, request); }
  }

  lemma RedeemedBefore(cfg: Config, run: Run, i: nat, j: nat, code: Id, other: Id)
    requires ValidRun(cfg, run) && i < j < |run.steps|
    requires RedeemsCode(run, i, code) && RedeemsCode(run, j, other)
    ensures code != other
  {
    RedeemEvent(cfg, run, i, code);
    RedeemEvent(cfg, run, j, other);
    var e :| run.states[i + 1].hist.log == run.states[i].hist.log + [e] && e.Redeemed? && e.code == code;
    var e' :| run.states[j + 1].hist.log == run.states[j].hist.log + [e'] && e'.Redeemed? && e'.code == other;
    TwoEvents(cfg, run, i, j, e, e');
    LogAt(cfg, run, j + 1);
  }

  /** A code issues tokens in one commit, even between requests that all read it unused. */
  lemma CodeRedeemedOnce(cfg: Config, run: Run, i: nat, j: nat, code: Id)
    requires ValidRun(cfg, run) && i < |run.steps| && j < |run.steps|
    requires RedeemsCode(run, i, code) && RedeemsCode(run, j, code)
    ensures i == j
  {
    if i < j { RedeemedBefore(cfg, run, i, j, code, code); }
    if j < i { RedeemedBefore(cfg, run, j, i, code, code); }
  }

  /** What the claim of a refresh exchange found and left. */
  lemma ClaimedRow(cfg: Config, s: State, s': State, call: Id, at: Time, minted: Id)
    requires CommitRefreshStep(cfg, s, s', call, at, minted) && minted != s.calls[call].token
    ensures var t := s.calls[call].token;
      && RefreshClaimable(s.db, t, at)
      && t in s'.db.refresh && (cfg.rotate ==> s'.db.refresh[t].usedAt.Some?)
  {
  }

  lemma HeldToken(cfg: Config, run: Run, i: nat, call: Id)
    requires ValidRun(cfg, run) && i < |run.states|
    requires call in run.states[i].calls && run.states[i].calls[call].Refreshing?
    ensures var c, h := run.states[i].calls[call], run.states[i].hist;
      && c.token in h.seen && c.token in h.tokens && RefreshBirth(c.held) == h.tokens[c.token]
      && c.held.family in h.families && c.held.client == c.client && c.scopes <= c.held.scopes
  {
    RunKeeps(cfg, run, i);
    var s := run.states[i];
    assert CallOk(s.calls[call], s.db, s.hist, s.review);
    assert TokenOk(s.hist, s.calls[call].token);
  }

  lemma ExchangedRow(cfg: Config, run: Run, i: nat, token: Id)
    requires ValidRun(cfg, run) && i < |run.steps| && ExchangesToken(run, i, token)
    ensures token in run.states[i].db.refresh && run.states[i].db.refresh[token].usedAt.None?
    ensures run.states[i].db.refresh[token].revokedAt.None?
    ensures token in run.states[i + 1].db.refresh
    ensures cfg.rotate ==> run.states[i + 1].db.refresh[token].usedAt.Some?
  {
    var step := run.steps[i];
    assert RunStep(cfg, run, i);
    HeldToken(cfg, run, i, step.call);
    ClaimedRow(cfg, run.states[i], run.states[i + 1], step.call, step.at, step.minted);
  }

  lemma ExchangedBefore(cfg: Config, run: Run, i: nat, j: nat, token: Id, other: Id)
    requires ValidRun(cfg, run) && i < j < |run.steps| && cfg.rotate
    requires ExchangesToken(run, i, token) && ExchangesToken(run, j, other)
    ensures token != other
  {
    ExchangedRow(cfg, run, i, token);
    ExchangedRow(cfg, run, j, other);
    if token in run.states[j].db.refresh { RefreshRowMonotone(cfg, run, i + 1, j, token); }
  }

  /** With rotation on, a refresh token is exchanged once. */
  lemma RefreshExchangedOnce(cfg: Config, run: Run, i: nat, j: nat, token: Id)
    requires ValidRun(cfg, run) && i < |run.steps| && j < |run.steps| && cfg.rotate
    requires ExchangesToken(run, i, token) && ExchangesToken(run, j, token)
    ensures i == j
  {
    if i < j { ExchangedBefore(cfg, run, i, j, token, token); }
    if j < i { ExchangedBefore(cfg, run, j, i, token, token); }
  }

  // --- Families are chains -------------------------------------------------

  lemma RowTraced(cfg: Config, run: Run, i: nat, t: Id)
    requires ValidRun(cfg, run) && i < |run.states| && t in run.states[i].db.refresh
    ensures var h, row := run.states[i].hist, run.states[i].db.refresh[t];
      && t in h.tokens && RefreshBirth(row) == h.tokens[t] && TokenOk(h, t)
      && row.family in h.families && RefreshRowOk(row, t, h) && FamilyOk(h, row.family)
      && row.family == h.tokens[t].family && row.parent == h.tokens[t].parent && row.scopes == h.tokens[t].scopes
      && row.user == h.tokens[t].user && row.client == h.tokens[t].client && row.session == h.tokens[t].session
  {
    RunKeeps(cfg, run, i);
    var h, row := run.states[i].hist, run.states[i].db.refresh[t];
    assert RefreshRowOk(row, t, h);
    assert TokenOk(h, t);
    assert FamilyOk(h, row.family);
    assert RefreshBirth(row).family == row.family && RefreshBirth(row).parent == row.parent;
    assert RefreshBirth(row).user == row.user && RefreshBirth(row).client == row.client;
    assert RefreshBirth(row).session == row.session && RefreshBirth(row).scopes == row.scopes;
  }

  /** Of the tokens of a family that are neither used nor revoked there is at most one. */
  lemma OneUsableToken(cfg: Config, run: Run, i: nat, a: Id, b: Id)
    requires ValidRun(cfg, run) && i < |run.states|
    requires var refresh := run.states[i].db.refresh;
      && a in refresh && b in refresh && refresh[a].family == refresh[b].family
      && refresh[a].usedAt.None? && refresh[b].usedAt.None?
    ensures a == b
  {
    RowTraced(cfg, run, i, a);
    RowTraced(cfg, run, i, b);
  }

  /** No token is the parent of two others, and no family has two roots. */
  lemma OneChild(cfg: Config, run: Run, i: nat, a: Id, b: Id)
    requires ValidRun(cfg, run) && i < |run.states|
    requires var refresh := run.states[i].db.refresh;
      && a in refresh && b in refresh && refresh[a].parent == refresh[b].parent
      && (refresh[a].parent.None? ==> refresh[a].family == refresh[b].family)
    ensures a == b
  {
    RowTraced(cfg, run, i, a);
    RowTraced(cfg, run, i, b);
    var h := run.states[i].hist;
    if h.place[a] > 0 && h.place[b] > 0 {
      assert ChainOk(h.tokens, h.place, h.families[h.tokens[a].family].chain, h.tokens[a].family);
      assert ChainOk(h.tokens, h.place, h.families[h.tokens[b].family].chain, h.tokens[b].family);
    }
  }

  /** A token that has a child is used, and passes on its owner, client and session with no
      more scopes than it had. */
  lemma ChildNarrows(cfg: Config, run: Run, i: nat, parent: Id, child: Id)
    requires ValidRun(cfg, run) && i < |run.states|
    requires var refresh := run.states[i].db.refresh;
      parent in refresh && child in refresh && refresh[child].parent == Some(parent)
    ensures var p, c := run.states[i].db.refresh[parent], run.states[i].db.refresh[child];
      && p.usedAt.Some? && c.family == p.family && c.user == p.user && c.client == p.client && c.session == p.session
      && c.authTime == p.authTime && c.scopes <= p.scopes
  {
    RowTraced(cfg, run, i, parent);
    RowTraced(cfg, run, i, child);
    var h := run.states[i].hist;
    var f := h.tokens[child].family;
    assert ChainOk(h.tokens, h.place, h.families[f].chain, f);
    var row, birth := run.states[i].db.refresh[child], RefreshBirth(run.states[i].db.refresh[child]);
    assert birth.authTime == row.authTime;
    var up, upBirth := run.states[i].db.refresh[parent], RefreshBirth(run.states[i].db.refresh[parent]);
    assert upBirth.authTime == up.authTime;
  }

  /** Along the whole chain, ancestors included that were pruned since, scopes only shrink. */
  lemma ChainNarrows(cfg: Config, run: Run, i: nat, f: Id, m: nat, k: nat)
    requires ValidRun(cfg, run) && i < |run.states| && f in run.states[i].hist.families
    requires m <= k < |run.states[i].hist.families[f].chain|
    ensures var h := run.states[i].hist;
      && h.families[f].chain[m] in h.tokens && h.families[f].chain[k] in h.tokens
      && h.tokens[h.families[f].chain[k]].scopes <= h.tokens[h.families[f].chain[m]].scopes
  {
    RunKeeps(cfg, run, i);
    LinkNarrows(run.states[i].hist, f, m, k);
  }

  lemma {:induction false} LinkNarrows(h: History, f: Id, m: nat, k: nat)
    requires FamiliesOk(h) && f in h.families && m <= k < |h.families[f].chain|
    ensures h.families[f].chain[m] in h.tokens && h.families[f].chain[k] in h.tokens
    ensures h.tokens[h.families[f].chain[k]].scopes <= h.tokens[h.families[f].chain[m]].scopes
    decreases k
  {
    assert FamilyOk(h, f);
    if m < k {
      LinkNarrows(h, f, m, k - 1);
      assert TokenOk(h, h.families[f].chain[k]);
    }
  }

  /** Every refresh token descends from one redeemed code and stays within it. */
  lemma TokenWithinCode(cfg: Config, run: Run, i: nat, t: Id)
    requires ValidRun(cfg, run) && i < |run.states| && t in run.states[i].db.refresh
    ensures var h, row := run.states[i].hist, run.states[i].db.refresh[t];
      && row.family in h.families && h.families[row.family].code in h.codes && h.families[row.family].code in h.redeemed
      && var code := h.codes[h.families[row.family].code];
      && row.user == code.user && row.client == code.client && row.session == code.session && row.scopes <= code.scopes
  {
    RowTraced(cfg, run, i, t);
  }

  /** Two families never descend from the same code. */
  lemma OneFamilyPerCode(cfg: Config, run: Run, i: nat, f: Id, g: Id)
    requires ValidRun(cfg, run) && i < |run.states|
    requires f in run.states[i].hist.families && g in run.states[i].hist.families
    requires run.states[i].hist.families[f].code == run.states[i].hist.families[g].code
    ensures f == g
  {
    RunKeeps(cfg, run, i);
    assert FamilyOk(run.states[i].hist, f);
    assert FamilyOk(run.states[i].hist, g);
  }
}
