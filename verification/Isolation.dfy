/** Nothing one user or client does touches what another holds. */
module Isolation {
  import opened Prelude
  import opened Tables
  import opened Transactions
  import opened History
  import opened Machine
  import opened Invariants
  import opened Closing
  import opened UpkeepClosing
  import opened Reachability
  import opened Runs
  import opened Precision

  /** What a user has given a client: the grant, and every credential under it. */
  datatype Holding = Holding(
    grant: Option<Grant>, refresh: map<Id, Refresh>, codes: map<Id, Code>, oidc: map<(Id, Id), Oidc>)

  function RefreshOf(refresh: map<Id, Refresh>, user: Id, client: Id): map<Id, Refresh> {
    map t | t in refresh && refresh[t].user == user && refresh[t].client == client :: refresh[t]
  }

  function CodesOf(codes: map<Id, Code>, user: Id, client: Id): map<Id, Code> {
    map c | c in codes && codes[c].user == user && codes[c].client == client :: codes[c]
  }

  function OidcOf(oidc: map<(Id, Id), Oidc>, user: Id, client: Id): map<(Id, Id), Oidc> {
    map k | k in oidc && oidc[k].user == user && k.1 == client :: oidc[k]
  }

  function HoldingOf(db: Store, user: Id, client: Id): Holding {
    Holding(Find(db.grants, (user, client)), RefreshOf(db.refresh, user, client), CodesOf(db.codes, user, client),
            OidcOf(db.oidc, user, client))
  }

  /** The browser session was opened by this user. */
  predicate OpenedBy(h: History, session: Id, user: Id) { session in h.owner && h.owner[session] == user }

  /** Whom an aim is for, told from the request, the browser session and the record, not from
      the rows it selects. A background prune is for everyone, and a code presented by another
      client concerns its owner. */
  predicate ActsFor(h: History, aim: Aim, user: Id, client: Id) {
    match aim
    case Nobody => false
    case Establishing(_, party, owner, _) => owner == user && party == client
    case Redemption(_, session, party) => OpenedBy(h, session, user) && party == client
    case Exchange(_, session, party) => OpenedBy(h, session, user) && party == client
    case Presented(code) => code in h.codes && h.codes[code].user == user && h.codes[code].client == client
    case Link(session, party) => OpenedBy(h, session, user) && party == client
    case Lineage(_, owner, party) => owner == user && party == client
    case Pair(owner, party) => owner == user && party == client
    case Browser(session) => OpenedBy(h, session, user)
    case BrowserOf(_, owner) => owner == user
    case Account(owner) => owner == user
    case PartyRefresh(party) => party == client
    case PartyOidc(party) => party == client
    case Removal(party) => party == client
    case OldRefresh(_) => true
    case OldCodes(_) => true
    case OldOidc(_, _) => true
  }

  /** What a request carries agrees with the record. */
  ghost predicate AimSound(h: History, aim: Aim) {
    match aim
    case Establishing(session, _, user, _) => OpenedBy(h, session, user)
    case Redemption(code, session, client) =>
      code in h.codes && h.codes[code].session == session && h.codes[code].client == client
    case Exchange(token, session, client) =>
      token in h.tokens && h.tokens[token].session == session && h.tokens[token].client == client
    case Lineage(family, user, client) =>
      && family in h.families && h.families[family].code in h.codes
      && h.codes[h.families[family].code].user == user && h.codes[h.families[family].code].client == client
    case _ => true
  }

  ghost predicate CallsCoherent(s: State) {
    CallsOk(s.calls, s.db, s.hist, s.review) && SessionTable(s.db.sessions, s.hist)
  }

  lemma CallSound(s: State, call: Id)
    requires CallsCoherent(s) && call in s.calls
    requires s.calls[call].Completing? ==>
      var p := s.calls[call].p; p.session in s.db.sessions && s.db.sessions[p.session].user == Some(p.user)
    ensures AimSound(s.hist, CallAim(s.db, s.calls[call]))
  {
    var c := s.calls[call];
    assert CallOk(c, s.db, s.hist, s.review);
    match c
    case Redeeming(_, row, _, _, _) =>
      assert CodeBirth(row).session == row.session && CodeBirth(row).client == row.client;
    case Refreshing(_, held, _, _, _) =>
      assert RefreshBirth(held).session == held.session && RefreshBirth(held).client == held.client;
    case _ =>
  }

  lemma MintSound(cfg: Config, s: State, step: Step, s': State)
    requires CallsCoherent(s) && MintNext(cfg, s, step, s')
    ensures AimSound(s.hist, AimOf(s, step))
  {
    match step
    case CommitCode(call, _, _, _) => CallSound(s, call);
    case CommitRedeem(call, _, _, _) => CallSound(s, call);
    case CommitRefresh(call, _, _) => CallSound(s, call);
  }

  lemma RevokeSound(cfg: Config, s: State, step: Step, s': State)
    requires CallsCoherent(s) && RevokeNext(cfg, s, step, s')
    ensures AimSound(s.hist, AimOf(s, step))
  {
    match step
    case CommitFamily(call, _) => CallSound(s, call);
    case _ =>
  }

  lemma StepSound(cfg: Config, s: State, step: Step, s': State)
    requires CallsCoherent(s) && Next(cfg, s, step, s')
    ensures AimSound(s.hist, AimOf(s, step))
  {
    if MintNext(cfg, s, step, s') { MintSound(cfg, s, step, s'); }
    else if RevokeNext(cfg, s, step, s') { RevokeSound(cfg, s, step, s'); }
  }

  // --- A touched row belongs to whom the step acts for ---------------------

  /** Rows the aim does not touch stay as they are, and those it touches belong to whom it is for. */
  ghost predicate RefreshMinded(h: History, aim: Aim, a: map<Id, Refresh>, b: map<Id, Refresh>) {
    forall t {:trigger t in a} {:trigger t in b} :: t in a ==>
      || (t in b && b[t] == a[t])
      || (ActsFor(h, aim, a[t].user, a[t].client) && (t in b ==> b[t].user == a[t].user && b[t].client == a[t].client))
  }

  ghost predicate CodesMinded(h: History, aim: Aim, a: map<Id, Code>, b: map<Id, Code>) {
    forall c {:trigger c in a} {:trigger c in b} :: c in a ==>
      || (c in b && b[c] == a[c])
      || (ActsFor(h, aim, a[c].user, a[c].client) && (c in b ==> b[c].user == a[c].user && b[c].client == a[c].client))
  }

  ghost predicate OidcMinded(h: History, aim: Aim, a: map<(Id, Id), Oidc>, b: map<(Id, Id), Oidc>) {
    forall k {:trigger k in a} {:trigger k in b} :: k in a ==>
      || (k in b && b[k] == a[k])
      || (ActsFor(h, aim, a[k].user, k.1) && (k in b ==> b[k].user == a[k].user))
  }

  /** Every refresh token under a browser session belongs to the user who opened it, and every
      token of a family to the owner and client of its code. */
  lemma RefreshOwned(h: History, aim: Aim, row: Refresh, t: Id, cfg: Config)
    requires RefreshRowOk(row, t, h) && TokenOk(h, t) && CodesOk(h) && AimSound(h, aim)
    requires RefreshFate(cfg, aim, t, row) != Spared
    ensures ActsFor(h, aim, row.user, row.client)
  {
    RowDescends(row, t, h);
    assert RefreshBirth(row).session == row.session && RefreshBirth(row).client == row.client;
  }

  lemma RefreshKept(cfg: Config, h: History, aim: Aim, at: Time, a: map<Id, Refresh>, b: map<Id, Refresh>)
    requires RefreshTable(a, h) && FamiliesOk(h) && CodesOk(h) && AimSound(h, aim) && RefreshFates(cfg, aim, at, a, b)
    ensures RefreshMinded(h, aim, a, b)
  {
    forall t | t in a && RefreshFate(cfg, aim, t, a[t]) != Spared ensures ActsFor(h, aim, a[t].user, a[t].client) {
      assert RefreshRowOk(a[t], t, h) && TokenOk(h, t);
      RefreshOwned(h, aim, a[t], t, cfg);
    }
  }

  lemma CodeOwned(h: History, aim: Aim, row: Code, c: Id, cfg: Config)
    requires CodeRowOk(row, c, h) && CodesOk(h) && AimSound(h, aim)
    requires CodeFate(cfg, aim, c, row) != Spared
    ensures ActsFor(h, aim, row.user, row.client)
  {
    assert CodeBirth(row).user == row.user && CodeBirth(row).client == row.client;
  }

  lemma CodesKept(cfg: Config, h: History, aim: Aim, at: Time, a: map<Id, Code>, b: map<Id, Code>)
    requires CodeTable(a, h) && CodesOk(h) && AimSound(h, aim) && CodeFates(cfg, aim, at, a, b)
    ensures CodesMinded(h, aim, a, b)
  {
    forall c | c in a && CodeFate(cfg, aim, c, a[c]) != Spared ensures ActsFor(h, aim, a[c].user, a[c].client) {
      assert CodeRowOk(a[c], c, h);
      CodeOwned(h, aim, a[c], c, cfg);
    }
  }

  lemma OidcKept(cfg: Config, h: History, aim: Aim, at: Time, a: map<(Id, Id), Oidc>, b: map<(Id, Id), Oidc>)
    requires OidcTable(a, h) && AimSound(h, aim) && OidcFates(cfg, aim, at, a, b)
    ensures OidcMinded(h, aim, a, b)
  {
    forall k | k in a ensures OpenedBy(h, k.0, a[k].user) {
    }
  }

  // --- A new row belongs to whom the step acts for -------------------------

  ghost predicate NewRefresh(h: History, aim: Aim, a: map<Id, Refresh>, b: map<Id, Refresh>) {
    forall t {:trigger t in b} :: t in b && t !in a ==> ActsFor(h, aim, b[t].user, b[t].client)
  }

  ghost predicate NewCodes(h: History, aim: Aim, a: map<Id, Code>, b: map<Id, Code>) {
    forall c {:trigger c in b} :: c in b && c !in a ==> ActsFor(h, aim, b[c].user, b[c].client)
  }

  ghost predicate NewOidc(h: History, aim: Aim, a: map<(Id, Id), Oidc>, b: map<(Id, Id), Oidc>) {
    forall k {:trigger k in b} :: k in b && k !in a ==> ActsFor(h, aim, b[k].user, k.1)
  }

  ghost predicate GrantsMinded(h: History, aim: Aim, a: map<(Id, Id), Grant>, b: map<(Id, Id), Grant>) {
    forall u: Id, p: Id {:trigger ActsFor(h, aim, u, p)} :: !ActsFor(h, aim, u, p) ==>
      Find(b, (u, p)) == Find(a, (u, p))
  }

  /** Rows that were not there before, and grants that changed, belong to whom the step acts for. */
  ghost predicate Newcomers(h: History, aim: Aim, a: Store, b: Store) {
    var refresh := NewRefresh(h, aim, a.refresh, b.refresh);
    var codes := NewCodes(h, aim, a.codes, b.codes);
    var oidc := NewOidc(h, aim, a.oidc, b.oidc);
    var grants := GrantsMinded(h, aim, a.grants, b.grants);
    refresh && codes && oidc && grants
  }

  lemma IssueCodeNewcomers(cfg: Config, h: History, db: Store, p: Completion, at: Time, code: Id, sid: Id)
    requires IssueCode(cfg, db, p, at, code, sid).Committed?
    ensures Newcomers(h, CallAim(db, Completing(p, 0)), db, IssueCode(cfg, db, p, at, code, sid).db)
  {
  }

  lemma RedeemNewcomers(cfg: Config, h: History, db: Store, code: Id, row: Code, client: Id, verifier: Verifier,
                        at: Time, token: Id, family: Id)
    requires Redeem(cfg, db, code, row, client, verifier, at, token, family).Committed?
    requires OpenedBy(h, row.session, row.user)
    ensures Newcomers(h, Redemption(code, row.session, client), db,
                      Redeem(cfg, db, code, row, client, verifier, at, token, family).db)
  {
  }

  lemma ExchangeNewcomers(cfg: Config, h: History, db: Store, token: Id, row: Refresh, client: Id, scopes: set<Scope>,
                          at: Time, minted: Id)
    requires ExchangeRefresh(cfg, db, token, row, client, scopes, at, minted).Committed?
    requires OpenedBy(h, row.session, row.user)
    ensures Newcomers(h, Exchange(token, row.session, client), db,
                      ExchangeRefresh(cfg, db, token, row, client, scopes, at, minted).db)
  {
  }

  lemma ClosedNewcomers(h: History, aim: Aim, a: Store, b: Store)
    requires Closes(a, b) && b.grants == a.grants
    ensures Newcomers(h, aim, a, b)
  {
  }

  lemma QuietNewcomers(h: History, aim: Aim, a: Store, b: Store)
    requires a.refresh == b.refresh && a.codes == b.codes && a.oidc == b.oidc && a.grants == b.grants
    ensures Newcomers(h, aim, a, b)
  {
  }

  lemma WithdrawNewcomers(h: History, db: Store, user: Id, client: Id, at: Time)
    requires Withdrawable(db, user, client)
    ensures Newcomers(h, Pair(user, client), db, Withdraw(db, user, client, at))
  {
    WithdrawCloses(db, user, client, at);
  }

  lemma RemoveNewcomers(h: History, db: Store, client: Id)
    ensures Newcomers(h, Removal(client), db, RemoveClient(db, client))
  {
    RemoveClientCloses(db, client);
  }

  lemma CommitCodeNewcomers(cfg: Config, s: State, s': State, call: Id, at: Time, code: Id, sid: Id)
    requires CommitCodeStep(cfg, s, s', call, at, code, sid)
    ensures Newcomers(s.hist, AimOf(s, CommitCode(call, at, code, sid)), s.db, s'.db)
  {
    IssueCodeNewcomers(cfg, s.hist, s.db, s.calls[call].p, at, code, sid);
  }

  lemma CommitRedeemNewcomers(cfg: Config, s: State, s': State, call: Id, at: Time, token: Id, family: Id)
    requires CallsCoherent(s) && CodesOk(s.hist) && CommitRedeemStep(cfg, s, s', call, at, token, family)
    ensures Newcomers(s.hist, AimOf(s, CommitRedeem(call, at, token, family)), s.db, s'.db)
  {
    var c := s.calls[call];
    assert CallOk(c, s.db, s.hist, s.review);
    assert CodeBirth(c.row).session == c.row.session && CodeBirth(c.row).user == c.row.user;
    RedeemNewcomers(cfg, s.hist, s.db, c.code, c.row, c.client, c.verifier, at, token, family);
  }

  lemma CommitRefreshNewcomers(cfg: Config, s: State, call: Id, at: Time, minted: Id, b: Store)
    requires CallsCoherent(s) && CodesOk(s.hist) && FamiliesOk(s.hist) && Exchanges(cfg, s, call, at, minted, b)
    ensures Newcomers(s.hist, AimOf(s, CommitRefresh(call, at, minted)), s.db, b)
  {
    var c := s.calls[call];
    assert CallOk(c, s.db, s.hist, s.review) && TokenOk(s.hist, c.token);
    assert RefreshBirth(c.held).session == c.held.session && RefreshBirth(c.held).user == c.held.user;
    ExchangeNewcomers(cfg, s.hist, s.db, c.token, c.held, c.client, c.scopes, at, minted);
  }

  lemma MintNewcomers(cfg: Config, s: State, step: Step, s': State)
    requires CallsCoherent(s) && RowsSeen(s.db, s.hist) && CodesOk(s.hist) && FamiliesOk(s.hist)
      && MintNext(cfg, s, step, s')
    ensures Newcomers(s.hist, AimOf(s, step), s.db, s'.db)
  {
    match step
    case CommitCode(call, at, code, sid) => CommitCodeNewcomers(cfg, s, s', call, at, code, sid);
    case CommitRedeem(call, at, token, family) => CommitRedeemNewcomers(cfg, s, s', call, at, token, family);
    case CommitRefresh(call, at, minted) =>
      CommitRefreshExchanges(cfg, s, s', call, at, minted);
      CommitRefreshNewcomers(cfg, s, call, at, minted, s'.db);
  }

  lemma RevokeNewcomers(cfg: Config, s: State, step: Step, s': State)
    requires RevokeNext(cfg, s, step, s')
    ensures Newcomers(s.hist, AimOf(s, step), s.db, s'.db)
  {
    RevokeCloses(cfg, s, step, s');
    match step
    case WithdrawGrant(user, client, at) => WithdrawNewcomers(s.hist, s.db, user, client, at);
    case _ => ClosedNewcomers(s.hist, AimOf(s, step), s.db, s'.db);
  }

  lemma AdminNewcomers(cfg: Config, s: State, step: Step, s': State)
    requires AdminNext(cfg, s, step, s')
    ensures Newcomers(s.hist, AimOf(s, step), s.db, s'.db)
  {
    var aim := AimOf(s, step);
    match step
    case DeleteClient(client) => RemoveNewcomers(s.hist, s.db, client);
    case ResetPassword(user, at) =>
      RevokeAllCloses(PromotedUser(s.db, user), user, at);
      ClosedNewcomers(s.hist, aim, PromotedUser(s.db, user), s'.db);
    case SetAccountStatus(user, status, at) =>
      var updated := s.db.(users := s.db.users[user := s.db.users[user].(status := status)]);
      RevokeAllCloses(updated, user, at);
      if status.UserDisabled? {
        ClosedNewcomers(s.hist, aim, updated, s'.db);
      } else {
        QuietNewcomers(s.hist, aim, s.db, s'.db);
      }
    case _ => QuietNewcomers(s.hist, aim, s.db, s'.db);
  }

  lemma StepNewcomers(cfg: Config, s: State, step: Step, s': State)
    requires CallsCoherent(s) && RowsSeen(s.db, s.hist) && CodesOk(s.hist) && FamiliesOk(s.hist)
      && Next(cfg, s, step, s')
    ensures Newcomers(s.hist, AimOf(s, step), s.db, s'.db)
  {
    if MintNext(cfg, s, step, s') { MintNewcomers(cfg, s, step, s'); }
    else if ReadNext(cfg, s, step, s') {
      ReadOnward(cfg, s, step, s');
      QuietNewcomers(s.hist, AimOf(s, step), s.db, s'.db);
    }
    else if RevokeNext(cfg, s, step, s') { RevokeNewcomers(cfg, s, step, s'); }
    else if AdminNext(cfg, s, step, s') { AdminNewcomers(cfg, s, step, s'); }
    else {
      SweepCloses(cfg, s, step, s');
      ClosedNewcomers(s.hist, AimOf(s, step), s.db, s'.db);
    }
  }

  // --- Isolation -----------------------------------------------------------

  lemma Apart(h: History, aim: Aim, a: Store, b: Store, user: Id, client: Id)
    requires !ActsFor(h, aim, user, client) && Newcomers(h, aim, a, b)
    requires RefreshMinded(h, aim, a.refresh, b.refresh) && CodesMinded(h, aim, a.codes, b.codes)
      && OidcMinded(h, aim, a.oidc, b.oidc)
    ensures HoldingOf(b, user, client) == HoldingOf(a, user, client)
  {
    assert RefreshOf(b.refresh, user, client) == RefreshOf(a.refresh, user, client);
    assert CodesOf(b.codes, user, client) == CodesOf(a.codes, user, client);
    assert OidcOf(b.oidc, user, client) == OidcOf(a.oidc, user, client);
  }

  /** A step that does not act for a user and client leaves their grant and every credential
      under it exactly as they were, and adds none. */
  lemma StepIsolated(cfg: Config, run: Run, i: nat, user: Id, client: Id)
    requires ValidRun(cfg, run) && i < |run.steps|
    requires !ActsFor(run.states[i].hist, AimOf(run.states[i], run.steps[i]), user, client)
    ensures HoldingOf(run.states[i + 1].db, user, client) == HoldingOf(run.states[i].db, user, client)
  {
    var s, step, s' := run.states[i], run.steps[i], run.states[i + 1];
    var aim, at := AimOf(s, step), StampOf(step);
    assert RunStep(cfg, run, i);
    RunKeeps(cfg, run, i);
    StepFates(cfg, run, i);
    InvSeen(cfg, s);
    StepSound(cfg, s, step, s');
    StepNewcomers(cfg, s, step, s');
    RefreshKept(cfg, s.hist, aim, at, s.db.refresh, s'.db.refresh);
    CodesKept(cfg, s.hist, aim, at, s.db.codes, s'.db.codes);
    OidcKept(cfg, s.hist, aim, at, s.db.oidc, s'.db.oidc);
    Apart(s.hist, aim, s.db, s'.db, user, client);
  }

  /** And so over any stretch of a run in which nobody acts for them. */
  lemma {:induction false} RunIsolated(cfg: Config, run: Run, i: nat, j: nat, user: Id, client: Id)
    requires ValidRun(cfg, run) && i <= j < |run.states|
    requires forall k :: i <= k < j ==> !ActsFor(run.states[k].hist, AimOf(run.states[k], run.steps[k]), user, client)
    ensures HoldingOf(run.states[j].db, user, client) == HoldingOf(run.states[i].db, user, client)
    decreases j
  {
    if i < j {
      RunIsolated(cfg, run, i, j - 1, user, client);
      StepIsolated(cfg, run, j - 1, user, client);
    }
  }
}
