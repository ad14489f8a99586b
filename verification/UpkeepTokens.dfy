/** The token endpoint's commits, stage by stage: claim, log, sign, mint. */
module UpkeepTokens {
  import opened Prelude
  import opened Tables
  import opened Transactions
  import opened History
  import opened Machine
  import opened Invariants
  import opened Closing
  import opened UpkeepRecording
  import opened Minting
  import opened UpkeepClosing
  import opened UpkeepExchange

  function Logged(s: State, db: Store, e: Event): State { s.(db := db, hist := Record(s.hist, e)) }

  function Signed(s: State, i: Issue, at: Time, code: Id, direct: bool): State
    requires (i.session, i.client) in s.db.oidc
  {
    s.(db := Touched(s.db, (i.session, i.client), at),
       hist := WithAccess(Stamped(s.hist, at), s.db, i, at, code, direct))
  }

  // --- Redemption ----------------------------------------------------------

  /** The facts a committed redemption establishes about the row it claimed. */
  ghost predicate Redeems(cfg: Config, s: State, c: Call, at: Time) {
    && c.Redeeming? && CodeClaimable(s.db, c.code, at) && CodeRowOk(s.db.codes[c.code], c.code, s.hist)
    && CallOk(c, s.db, s.hist, s.review)
    && TokenClientEligible(s.db, c.client, c.row.scopes, AuthorizationCode)
    && AccountEligible(cfg, s.db, c.row.user, c.row.scopes)
    && OidcLive(s.db, c.row.session, c.client)
  }

  lemma StepRedeems(cfg: Config, s: State, s': State, call: Id, at: Time, token: Id, family: Id)
    requires CommitRedeemStep(cfg, s, s', call, at, token, family)
    requires CodeTable(s.db.codes, s.hist) && CallsOk(s.calls, s.db, s.hist, s.review)
    ensures Redeems(cfg, s, s.calls[call], at)
  {
    assert CallOk(s.calls[call], s.db, s.hist, s.review);
  }

  function RedeemEvent(c: Call, at: Time): Event
    requires c.Redeeming?
  {
    Redeemed(c.code, c.row.user, c.client, at)
  }

  /** The code was live, so it was not redeemed before and outlives every withdrawal. */
  lemma RedeemRecordable(cfg: Config, s: State, c: Call, at: Time)
    requires Redeems(cfg, s, c, at)
    ensures Recordable(s.hist, RedeemEvent(c, at))
    ensures c.code !in s.hist.redeemed && c.code !in s.hist.contained
    ensures AfterWithdrawal(s.hist, c.row.user, c.client, c.code)
    ensures s.hist.codes[c.code].user == c.row.user && s.hist.codes[c.code].client == c.client
  {
    var row := s.db.codes[c.code];
    assert CodeBirth(row).user == row.user && CodeBirth(row).client == row.client;
    assert CodeBirth(c.row).user == c.row.user && CodeBirth(c.row).client == c.row.client;
  }

  lemma RedeemLoggedKeeps(cfg: Config, s: State, c: Call, at: Time)
    requires Inv(cfg, s) && Redeems(cfg, s, c, at)
    ensures Inv(cfg, Logged(s, ClaimedCode(s.db, c.code, at), RedeemEvent(c, at)))
  {
    var claimed := s.(db := ClaimedCode(s.db, c.code, at));
    RedeemRecordable(cfg, s, c, at);
    ClaimedCodeCloses(s.db, c.code, at);
    ClosedInv(cfg, s, claimed.db);
    RecordedQuiet(cfg, claimed, RedeemEvent(c, at));
  }

  lemma RedeemSignable(cfg: Config, s: State, c: Call, at: Time, family: Id)
    requires Redeems(cfg, s, c, at)
    ensures var mid := Logged(s, ClaimedCode(s.db, c.code, at), RedeemEvent(c, at));
            Signable(mid.db, mid.hist, CodeIssue(c.row, c.client, family), at, c.code, true)
  {
  }

  /** An unredeemed code has no family yet. */
  lemma Unrooted(h: History, code: Id)
    requires FamiliesOk(h) && code !in h.redeemed
    ensures code !in h.familyOf
  {
    forall c | c in h.familyOf ensures c in h.redeemed { assert FamilyOk(h, h.familyOf[c]); }
  }

  lemma RedeemRootable(cfg: Config, s: State, c: Call, at: Time, token: Id, family: Id)
    requires FamiliesOk(s.hist) && Redeems(cfg, s, c, at)
    requires token !in s.hist.seen && family !in s.hist.seen && token != family
    ensures var i := CodeIssue(c.row, c.client, family);
            var mid := Logged(s, ClaimedCode(s.db, c.code, at), RedeemEvent(c, at));
            (i.session, i.client) in mid.db.oidc &&
            var t := Signed(mid, i, at, c.code, true);
            var row := MintedRefresh(cfg, i, at);
            && Rootable(t.db, t.hist, c.code, family, token, row) && JustMinted(cfg, t.db, t.hist, row)
            && row.expiresAt == t.hist.redeemed[c.code] + cfg.refreshTtl
  {
    RedeemRecordable(cfg, s, c, at);
    Unrooted(s.hist, c.code);
    FreshNames(s.hist, token, family);
    assert CodeBirth(c.row).scopes == c.row.scopes && CodeBirth(c.row).session == c.row.session;
    assert CodeBirth(c.row).authTime == c.row.authTime;
  }

  function RedeemedState(cfg: Config, s: State, c: Call, at: Time, token: Id, family: Id): State
    requires c.Redeeming? && c.client in s.db.clients && c.code in s.db.codes && (c.row.session, c.client) in s.db.oidc
  {
    var i := CodeIssue(c.row, c.client, family);
    var t := Signed(Logged(s, ClaimedCode(s.db, c.code, at), RedeemEvent(c, at)), i, at, c.code, true);
    if !WantsRefresh(s.db.clients[c.client], c.row.scopes) then t
    else t.(db := t.db.(refresh := t.db.refresh[token := MintedRefresh(cfg, i, at)]),
            hist := WithRoot(t.hist, c.code, family, token, MintedRefresh(cfg, i, at)))
  }

  lemma RedeemedStateIs(cfg: Config, s: State, s': State, call: Id, at: Time, token: Id, family: Id)
    requires CommitRedeemStep(cfg, s, s', call, at, token, family)
    ensures var c := s.calls[call];
      && c.client in s.db.clients && c.code in s.db.codes && (c.row.session, c.client) in s.db.oidc
      && s' == Done(RedeemedState(cfg, s, c, at, token, family), call)
  {
  }

  lemma RedeemedStateKeeps(cfg: Config, s: State, c: Call, at: Time, token: Id, family: Id)
    requires Inv(cfg, s) && Redeems(cfg, s, c, at)
    requires token !in s.hist.seen && family !in s.hist.seen && token != family
    ensures Inv(cfg, RedeemedState(cfg, s, c, at, token, family))
  {
    var i := CodeIssue(c.row, c.client, family);
    var mid := Logged(s, ClaimedCode(s.db, c.code, at), RedeemEvent(c, at));
    RedeemLoggedKeeps(cfg, s, c, at);
    RedeemSignable(cfg, s, c, at, family);
    SignKeeps(cfg, mid, i, at, c.code, true);
    if WantsRefresh(s.db.clients[c.client], c.row.scopes) {
      RedeemRootable(cfg, s, c, at, token, family);
      RootKeeps(cfg, Signed(mid, i, at, c.code, true), c.code, family, token, MintedRefresh(cfg, i, at));
    }
  }

  lemma CommitRedeemKeeps(cfg: Config, s: State, s': State, call: Id, at: Time, token: Id, family: Id)
    requires Inv(cfg, s) && CommitRedeemStep(cfg, s, s', call, at, token, family)
    ensures Inv(cfg, s')
  {
    StepRedeems(cfg, s, s', call, at, token, family);
    RedeemedStateIs(cfg, s, s', call, at, token, family);
    RedeemedStateKeeps(cfg, s, s.calls[call], at, token, family);
    DoneInv(cfg, RedeemedState(cfg, s, s.calls[call], at, token, family), call);
  }

  // --- Refresh -------------------------------------------------------------

  ghost predicate Exchanges(cfg: Config, s: State, c: Call, at: Time) {
    && c.Refreshing? && RefreshClaimable(s.db, c.token, at)
    && RefreshRowOk(s.db.refresh[c.token], c.token, s.hist) && TokenOk(s.hist, c.token)
    && CallOk(c, s.db, s.hist, s.review)
    && TokenClientEligible(s.db, c.client, c.scopes, RefreshToken)
    && AccountEligible(cfg, s.db, c.held.user, c.scopes)
    && OidcLive(s.db, c.held.session, c.client)
  }

  lemma StepExchanges(cfg: Config, s: State, s': State, call: Id, at: Time, minted: Id)
    requires CommitRefreshStep(cfg, s, s', call, at, minted)
    requires RefreshTable(s.db.refresh, s.hist) && FamiliesOk(s.hist) && CallsOk(s.calls, s.db, s.hist, s.review)
    ensures Exchanges(cfg, s, s.calls[call], at)
  {
    var c := s.calls[call];
    assert CallOk(c, s.db, s.hist, s.review);
    assert RefreshRowOk(s.db.refresh[c.token], c.token, s.hist);
    assert TokenOk(s.hist, c.token);
  }

  function ExchangeEvent(h: History, c: Call): Event
    requires c.Refreshing? && c.held.family in h.families
  {
    Refreshed(h.families[c.held.family].code, c.held.user, c.client, c.token)
  }

  /** The token was live and unused: its family is open, and it is the last of its chain. */
  lemma ExchangeFacts(cfg: Config, s: State, c: Call, at: Time)
    requires Exchanges(cfg, s, c, at)
    ensures c.held.family in s.hist.families && c.held.family == s.hist.tokens[c.token].family
    ensures Recordable(s.hist, ExchangeEvent(s.hist, c))
    ensures c.held.family !in s.hist.revoked
    ensures s.hist.place[c.token] + 1 == |s.hist.families[c.held.family].chain|
    ensures AfterWithdrawal(s.hist, c.held.user, c.client, s.hist.families[c.held.family].code)
  {
    var row := s.db.refresh[c.token];
    assert RefreshBirth(row).family == row.family && RefreshBirth(row).user == row.user
      && RefreshBirth(row).client == row.client;
    assert RefreshBirth(c.held).family == c.held.family && RefreshBirth(c.held).user == c.held.user;
    assert RefreshBirth(c.held).client == c.held.client;
  }

  lemma ExchangeLoggedKeeps(cfg: Config, s: State, c: Call, at: Time)
    requires Inv(cfg, s) && Exchanges(cfg, s, c, at)
    ensures c.held.family in s.hist.families
    ensures Inv(cfg, Logged(s, ClaimedRefresh(cfg, s.db, c.token, at), ExchangeEvent(s.hist, c)))
  {
    var claimed := s.(db := ClaimedRefresh(cfg, s.db, c.token, at));
    ExchangeFacts(cfg, s, c, at);
    ClaimedRefreshCloses(cfg, s.db, c.token, at);
    ClosedInv(cfg, s, claimed.db);
    RecordedQuiet(cfg, claimed, ExchangeEvent(s.hist, c));
  }

  lemma ExchangeSignable(cfg: Config, s: State, c: Call, at: Time)
    requires Exchanges(cfg, s, c, at) && c.held.family in s.hist.families
    ensures var mid := Logged(s, ClaimedRefresh(cfg, s.db, c.token, at), ExchangeEvent(s.hist, c));
            Signable(mid.db, mid.hist, RefreshIssue(c.held, c.token, c.client, c.scopes), at,
                     s.hist.families[c.held.family].code, false)
  {
  }

  lemma ExchangeExtendable(cfg: Config, s: State, c: Call, at: Time, minted: Id)
    requires Exchanges(cfg, s, c, at) && cfg.rotate && minted !in s.hist.seen && c.held.family in s.hist.families
    ensures var i := RefreshIssue(c.held, c.token, c.client, c.scopes);
            var mid := Logged(s, ClaimedRefresh(cfg, s.db, c.token, at), ExchangeEvent(s.hist, c));
            (i.session, i.client) in mid.db.oidc &&
            var t := Signed(mid, i, at, s.hist.families[c.held.family].code, false);
            var row := MintedRefresh(cfg, i, at);
            Extendable(t.db, t.hist, c.token, minted, row) && JustMinted(cfg, t.db, t.hist, row)
  {
    ExchangeFacts(cfg, s, c, at);
    assert RefreshBirth(c.held).family == c.held.family && RefreshBirth(c.held).user == c.held.user;
    assert RefreshBirth(c.held).client == c.held.client && RefreshBirth(c.held).session == c.held.session;
    assert RefreshBirth(c.held).authTime == c.held.authTime && RefreshBirth(c.held).scopes == c.held.scopes;
  }

  function ExchangedState(cfg: Config, s: State, c: Call, at: Time, minted: Id): State
    requires c.Refreshing? && c.client in s.db.clients && c.token in s.db.refresh
    requires (c.held.session, c.client) in s.db.oidc && c.held.family in s.hist.families
  {
    var i := RefreshIssue(c.held, c.token, c.client, c.scopes);
    var t := Signed(Logged(s, ClaimedRefresh(cfg, s.db, c.token, at), ExchangeEvent(s.hist, c)), i, at,
                    s.hist.families[c.held.family].code, false);
    if !(cfg.rotate && WantsRefresh(s.db.clients[c.client], c.scopes)) then t
    else t.(db := t.db.(refresh := t.db.refresh[minted := MintedRefresh(cfg, i, at)]),
            hist := WithDescendant(t.hist, minted, MintedRefresh(cfg, i, at)))
  }

  lemma ExchangedStateIs(cfg: Config, s: State, s': State, call: Id, at: Time, minted: Id)
    requires CommitRefreshStep(cfg, s, s', call, at, minted)
    ensures var c := s.calls[call];
      && c.client in s.db.clients && c.token in s.db.refresh && (c.held.session, c.client) in s.db.oidc
      && s' == Done(ExchangedState(cfg, s, c, at, minted), call)
  {
  }

  lemma ExchangedStateKeeps(cfg: Config, s: State, c: Call, at: Time, minted: Id)
    requires Inv(cfg, s) && Exchanges(cfg, s, c, at) && minted !in s.hist.seen && c.held.family in s.hist.families
    ensures Inv(cfg, ExchangedState(cfg, s, c, at, minted))
  {
    var i := RefreshIssue(c.held, c.token, c.client, c.scopes);
    var code := s.hist.families[c.held.family].code;
    var mid := Logged(s, ClaimedRefresh(cfg, s.db, c.token, at), ExchangeEvent(s.hist, c));
    ExchangeLoggedKeeps(cfg, s, c, at);
    ExchangeSignable(cfg, s, c, at);
    SignKeeps(cfg, mid, i, at, code, false);
    if cfg.rotate && WantsRefresh(s.db.clients[c.client], c.scopes) {
      ExchangeExtendable(cfg, s, c, at, minted);
      DescendantKeeps(cfg, Signed(mid, i, at, code, false), c.token, minted, MintedRefresh(cfg, i, at));
    }
  }

  lemma CommitRefreshKeeps(cfg: Config, s: State, s': State, call: Id, at: Time, minted: Id)
    requires Inv(cfg, s) && CommitRefreshStep(cfg, s, s', call, at, minted)
    ensures Inv(cfg, s')
  {
    StepExchanges(cfg, s, s', call, at, minted);
    ExchangedStateIs(cfg, s, s', call, at, minted);
    ExchangedStateKeeps(cfg, s, s.calls[call], at, minted);
    DoneInv(cfg, ExchangedState(cfg, s, s.calls[call], at, minted), call);
  }
}
