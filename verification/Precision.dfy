/** What each step does to every credential that was there before it. */
module Precision {
  import opened Prelude
  import opened Tables
  import opened Transactions
  import opened History
  import opened Machine
  import opened Invariants
  import opened Closing
  import opened Reachability
  import opened Runs

  // --- What a step is about ------------------------------------------------

  /** What a step is about: the credentials it names, by whichever columns it names them. */
  datatype Aim =
    | Nobody
    | Establishing(session: Id, client: Id, user: Id, authTime: Time)
    | Redemption(code: Id, session: Id, client: Id)
    | Exchange(token: Id, session: Id, client: Id)
    | Presented(code: Id)
    | Link(session: Id, client: Id)
    | Lineage(family: Id, user: Id, client: Id)
    | Pair(user: Id, client: Id)
    | Browser(session: Id)
    | BrowserOf(session: Id, user: Id)
    | Account(user: Id)
    | PartyRefresh(client: Id)
    | PartyOidc(client: Id)
    | Removal(client: Id)
    | OldRefresh(cutoff: Time)
    | OldCodes(cutoff: Time)
    | OldOidc(keys: set<(Id, Id)>, cutoff: Time)

  predicate OwnersThere(db: Store, client: Id, user: Id) { client in db.clients && user in db.users }

  /** revokeFamily and revokeTokensForSession do nothing once the owner is gone. */
  function IfOwned(db: Store, client: Id, user: Id, aim: Aim): Aim {
    if OwnersThere(db, client, user) then aim else Nobody
  }

  /** What a request's next commit is about, from what the request carries. */
  function CallAim(db: Store, c: Call): Aim {
    match c
    case Completing(p, _) =>
      if p.session in db.sessions then Establishing(p.session, p.client, p.user, db.sessions[p.session].createdAt)
      else Nobody
    case Burning(code) => Presented(code)
    case Redeeming(code, row, client, _, _) => Redemption(code, row.session, client)
    case Containing(_, row) => IfOwned(db, row.client, row.user, Link(row.session, row.client))
    case Refreshing(token, held, client, _, _) => Exchange(token, held.session, client)
    case RevokingFamily(family, client, user) => IfOwned(db, client, user, Lineage(family, user, client))
    case ShuttingClient(client, _, refreshDone) => if refreshDone then PartyOidc(client) else PartyRefresh(client)
    case _ => Nobody
  }

  function HeldAim(s: State, call: Id): Aim { if call in s.calls then CallAim(s.db, s.calls[call]) else Nobody }

  function AimOf(s: State, step: Step): Aim {
    match step
    case CommitCode(call, _, _, _) => HeldAim(s, call)
    case BurnCode(call, _) => HeldAim(s, call)
    case CommitRedeem(call, _, _, _) => HeldAim(s, call)
    case Contain(call, _) => HeldAim(s, call)
    case CommitRefresh(call, _, _) => HeldAim(s, call)
    case CommitFamily(call, _) => HeldAim(s, call)
    case ShutRefresh(call, _) => HeldAim(s, call)
    case ShutOidc(call, _) => HeldAim(s, call)
    case RevokeByAccess(session, client, user, _) => IfOwned(s.db, client, user, Link(session, client))
    case WithdrawGrant(user, client, _) => Pair(user, client)
    case EndSession(session, user, _) => BrowserOf(session, user)
    case LogoutSession(session, _) => Browser(session)
    case RevokeAccount(user, _) => Account(user)
    case ResetPassword(user, _) => Account(user)
    case SetAccountStatus(user, status, _) => if status.UserDisabled? then Account(user) else Nobody
    case DeleteClient(client) => Removal(client)
    case SweepRefresh(cutoff) => OldRefresh(cutoff)
    case SweepCodes(cutoff) => OldCodes(cutoff)
    case SweepOidc(keys, cutoff) => OldOidc(keys, cutoff)
    case _ => Nobody
  }

  /** The time a committing step stamps. */
  function StampOf(step: Step): Time {
    match step
    case CommitCode(_, at, _, _) => at
    case BurnCode(_, at) => at
    case CommitRedeem(_, at, _, _) => at
    case Contain(_, at) => at
    case CommitRefresh(_, at, _) => at
    case CommitFamily(_, at) => at
    case RevokeByAccess(_, _, _, at) => at
    case WithdrawGrant(_, _, at) => at
    case EndSession(_, _, at) => at
    case LogoutSession(_, at) => at
    case RevokeAccount(_, at) => at
    case ResetPassword(_, at) => at
    case SetAccountStatus(_, _, at) => at
    case ShutRefresh(_, at) => at
    case ShutOidc(_, at) => at
    case _ => 0
  }

  // --- The fate of a row ---------------------------------------------------

  datatype Fate = Spared | Used | Revoked | Seen | Reopened(user: Id, authTime: Time) | Deleted

  function If(hit: bool, fate: Fate): Fate { if hit then fate else Spared }

  function RefreshFate(cfg: Config, aim: Aim, t: Id, row: Refresh): Fate {
    match aim
    case Exchange(token, _, _) => If(cfg.rotate && t == token, Used)
    case Link(session, client) => If(row.session == session && row.client == client, Revoked)
    case Lineage(family, _, _) => If(row.family == family, Revoked)
    case Pair(user, client) => If(row.user == user && row.client == client, Revoked)
    case Account(user) => If(row.user == user, Revoked)
    case PartyRefresh(client) => If(row.client == client, Revoked)
    case Removal(client) => If(row.client == client, Deleted)
    case OldRefresh(cutoff) => If(row.expiresAt < cutoff, Deleted)
    case _ => Spared
  }

  function CodeFate(cfg: Config, aim: Aim, c: Id, row: Code): Fate {
    match aim
    case Redemption(code, _, _) => If(c == code, Used)
    case Presented(code) => If(c == code, Used)
    case Pair(user, client) => If(row.user == user && row.client == client, Used)
    case Account(user) => If(row.user == user, Used)
    case Removal(client) => If(row.client == client, Deleted)
    case OldCodes(cutoff) => If(CodePrunable(cfg, row, cutoff), Deleted)
    case _ => Spared
  }

  function OidcFate(cfg: Config, aim: Aim, k: (Id, Id), row: Oidc): Fate {
    match aim
    case Establishing(session, client, user, authTime) => If(k == (session, client), Reopened(user, authTime))
    case Redemption(_, session, client) => If(k == (session, client), Seen)
    case Exchange(_, session, client) => If(k == (session, client), Seen)
    case Link(session, client) => If(k == (session, client), Revoked)
    case Pair(user, client) => If(row.user == user && k.1 == client, Revoked)
    case Browser(session) => If(k.0 == session, Revoked)
    case BrowserOf(session, user) => If(k.0 == session && row.user == user, Revoked)
    case Account(user) => If(row.user == user, Revoked)
    case PartyOidc(client) => If(k.1 == client, Revoked)
    case Removal(client) => If(k.1 == client, Deleted)
    case OldOidc(keys, cutoff) => If(k in keys && row.lastSeenAt < cutoff - Retention(cfg), Deleted)
    case _ => Spared
  }

  /** A mark that is already set keeps its time. */
  function Marked(mark: Option<Time>, at: Time): Option<Time> { if mark.Some? then mark else Some(at) }

  function RefreshAfter(row: Refresh, fate: Fate, at: Time): Option<Refresh> {
    match fate
    case Used => Some(row.(usedAt := Marked(row.usedAt, at)))
    case Revoked => Some(row.(revokedAt := Marked(row.revokedAt, at)))
    case Deleted => None
    case _ => Some(row)
  }

  function CodeAfter(row: Code, fate: Fate, at: Time): Option<Code> {
    match fate
    case Used => Some(row.(usedAt := Marked(row.usedAt, at)))
    case Deleted => None
    case _ => Some(row)
  }

  function OidcAfter(row: Oidc, fate: Fate, at: Time): Option<Oidc> {
    match fate
    case Revoked => Some(row.(revokedAt := Marked(row.revokedAt, at)))
    case Seen => Some(row.(lastSeenAt := at))
    case Reopened(user, authTime) => Some(Oidc(row.id, user, authTime, at, None))
    case Deleted => None
    case _ => Some(row)
  }

  function Find<K, V>(m: map<K, V>, k: K): Option<V> { if k in m then Some(m[k]) else None }

  ghost predicate RefreshFates(cfg: Config, aim: Aim, at: Time, a: map<Id, Refresh>, b: map<Id, Refresh>) {
    forall t {:trigger t in a} {:trigger t in b} :: t in a ==>
      Find(b, t) == RefreshAfter(a[t], RefreshFate(cfg, aim, t, a[t]), at)
  }

  ghost predicate CodeFates(cfg: Config, aim: Aim, at: Time, a: map<Id, Code>, b: map<Id, Code>) {
    forall c {:trigger c in a} {:trigger c in b} :: c in a ==>
      Find(b, c) == CodeAfter(a[c], CodeFate(cfg, aim, c, a[c]), at)
  }

  ghost predicate OidcFates(cfg: Config, aim: Aim, at: Time, a: map<(Id, Id), Oidc>, b: map<(Id, Id), Oidc>) {
    forall k {:trigger k in a} {:trigger k in b} :: k in a ==>
      Find(b, k) == OidcAfter(a[k], OidcFate(cfg, aim, k, a[k]), at)
  }

  /** Every row of `a` has met the fate the aim has for it. */
  ghost predicate Fates(cfg: Config, aim: Aim, at: Time, a: Store, b: Store) {
    var refresh := RefreshFates(cfg, aim, at, a.refresh, b.refresh);
    var codes := CodeFates(cfg, aim, at, a.codes, b.codes);
    var oidc := OidcFates(cfg, aim, at, a.oidc, b.oidc);
    refresh && codes && oidc
  }

  ghost predicate RowsSeen(db: Store, h: History) {
    (forall t :: t in db.refresh ==> t in h.seen) && (forall c :: c in db.codes ==> c in h.seen)
  }

  lemma InvSeen(cfg: Config, s: State)
    requires Inv(cfg, s)
    ensures RowsSeen(s.db, s.hist)
  {
    forall t | t in s.db.refresh ensures t in s.hist.seen {
      assert RefreshRowOk(s.db.refresh[t], t, s.hist);
      assert TokenOk(s.hist, t);
    }
    forall c | c in s.db.codes ensures c in s.hist.seen {
      assert CodeRowOk(s.db.codes[c], c, s.hist);
    }
  }

  // --- One lemma per transaction -------------------------------------------

  lemma NobodysFates(cfg: Config, at: Time, a: Store, b: Store)
    requires a.refresh == b.refresh && a.codes == b.codes && a.oidc == b.oidc
    ensures Fates(cfg, Nobody, at, a, b)
  {
  }

  lemma IssueCodeFates(cfg: Config, db: Store, p: Completion, at: Time, code: Id, sid: Id)
    requires IssueCode(cfg, db, p, at, code, sid).Committed? && code !in db.codes
    ensures Fates(cfg, CallAim(db, Completing(p, 0)), at, db, IssueCode(cfg, db, p, at, code, sid).db)
  {
  }

  lemma RedeemFates(cfg: Config, db: Store, code: Id, row: Code, client: Id, verifier: Verifier, at: Time, token: Id,
                    family: Id)
    requires Redeem(cfg, db, code, row, client, verifier, at, token, family).Committed? && token !in db.refresh
    ensures Fates(cfg, Redemption(code, row.session, client), at, db,
                  Redeem(cfg, db, code, row, client, verifier, at, token, family).db)
  {
  }

  lemma ExchangeFates(cfg: Config, db: Store, token: Id, row: Refresh, client: Id, scopes: set<Scope>, at: Time,
                      minted: Id)
    requires ExchangeRefresh(cfg, db, token, row, client, scopes, at, minted).Committed? && minted !in db.refresh
    ensures Fates(cfg, Exchange(token, row.session, client), at, db,
                  ExchangeRefresh(cfg, db, token, row, client, scopes, at, minted).db)
  {
  }

  lemma RevokeFamilyFates(cfg: Config, db: Store, family: Id, client: Id, user: Id, at: Time)
    ensures Fates(cfg, IfOwned(db, client, user, Lineage(family, user, client)), at, db,
                  RevokeFamily(db, family, client, user, at))
  {
  }

  lemma RevokeForSessionFates(cfg: Config, db: Store, session: Id, client: Id, user: Id, at: Time)
    ensures Fates(cfg, IfOwned(db, client, user, Link(session, client)), at, db,
                  RevokeForSession(db, session, client, user, at))
  {
  }

  lemma WithdrawFates(cfg: Config, db: Store, user: Id, client: Id, at: Time)
    requires Withdrawable(db, user, client)
    ensures Fates(cfg, Pair(user, client), at, db, Withdraw(db, user, client, at))
  {
  }

  lemma EndBrowserSessionFates(cfg: Config, db: Store, session: Id, user: Id, at: Time)
    requires Endable(db, session, user)
    ensures Fates(cfg, BrowserOf(session, user), at, db, EndBrowserSession(db, session, user, at))
  {
  }

  lemma LogoutFates(cfg: Config, db: Store, session: Id, at: Time)
    ensures Fates(cfg, Browser(session), at, db, Logout(db, session, at))
  {
  }

  lemma RevokeAllFates(cfg: Config, db: Store, user: Id, at: Time)
    ensures Fates(cfg, Account(user), at, db, RevokeAll(db, user, at))
  {
  }

  lemma RemoveClientFates(cfg: Config, db: Store, client: Id)
    ensures Fates(cfg, Removal(client), 0, db, RemoveClient(db, client))
  {
  }

  lemma ShutRefreshFates(cfg: Config, db: Store, client: Id, at: Time)
    ensures Fates(cfg, PartyRefresh(client), at, db,
                  db.(refresh := RevokeRefresh(db.refresh, ClientRefresh(db, client), at)))
  {
  }

  lemma ShutOidcFates(cfg: Config, db: Store, client: Id, at: Time)
    ensures Fates(cfg, PartyOidc(client), at, db, db.(oidc := EndOidc(db.oidc, ClientOidc(db, client), at)))
  {
  }

  lemma PruneRefreshFates(cfg: Config, db: Store, cutoff: Time)
    ensures Fates(cfg, OldRefresh(cutoff), 0, db, PruneRefresh(db, cutoff))
  {
  }

  lemma PruneCodesFates(cfg: Config, db: Store, cutoff: Time)
    ensures Fates(cfg, OldCodes(cutoff), 0, db, PruneCodes(cfg, db, cutoff))
  {
  }

  lemma PruneOidcFates(cfg: Config, db: Store, keys: set<(Id, Id)>, cutoff: Time)
    ensures Fates(cfg, OldOidc(keys, cutoff), 0, db, PruneOidc(cfg, db, keys, cutoff))
  {
  }

  // --- Every step ----------------------------------------------------------

  ghost predicate StepFated(cfg: Config, s: State, step: Step, b: Store) {
    Fates(cfg, AimOf(s, step), StampOf(step), s.db, b)
  }

  lemma CommitCodeFated(cfg: Config, s: State, s': State, call: Id, at: Time, code: Id, sid: Id)
    requires CommitCodeStep(cfg, s, s', call, at, code, sid) && RowsSeen(s.db, s.hist)
    ensures StepFated(cfg, s, CommitCode(call, at, code, sid), s'.db)
  {
    IssueCodeFates(cfg, s.db, s.calls[call].p, at, code, sid);
  }

  lemma CommitRedeemFated(cfg: Config, s: State, s': State, call: Id, at: Time, token: Id, family: Id)
    requires CommitRedeemStep(cfg, s, s', call, at, token, family) && RowsSeen(s.db, s.hist)
    ensures StepFated(cfg, s, CommitRedeem(call, at, token, family), s'.db)
  {
    var c := s.calls[call];
    RedeemFates(cfg, s.db, c.code, c.row, c.client, c.verifier, at, token, family);
  }

  /** The exchange the call has open commits to `b`. */
  predicate Exchanges(cfg: Config, s: State, call: Id, at: Time, minted: Id, b: Store) {
    && call in s.calls && s.calls[call].Refreshing? && minted !in s.db.refresh
    && var c := s.calls[call];
      ExchangeRefresh(cfg, s.db, c.token, c.held, c.client, c.scopes, at, minted) == Committed(b)
  }

  lemma CommitRefreshExchanges(cfg: Config, s: State, s': State, call: Id, at: Time, minted: Id)
    requires CommitRefreshStep(cfg, s, s', call, at, minted) && RowsSeen(s.db, s.hist)
    ensures Exchanges(cfg, s, call, at, minted, s'.db)
  {
  }

  lemma CommitRefreshFated(cfg: Config, s: State, call: Id, at: Time, minted: Id, b: Store)
    requires Exchanges(cfg, s, call, at, minted, b)
    ensures StepFated(cfg, s, CommitRefresh(call, at, minted), b)
  {
    var c := s.calls[call];
    ExchangeFates(cfg, s.db, c.token, c.held, c.client, c.scopes, at, minted);
  }

  lemma MintFated(cfg: Config, s: State, step: Step, s': State)
    requires MintNext(cfg, s, step, s') && RowsSeen(s.db, s.hist)
    ensures StepFated(cfg, s, step, s'.db)
  {
    match step
    case CommitCode(call, at, code, sid) => CommitCodeFated(cfg, s, s', call, at, code, sid);
    case CommitRedeem(call, at, token, family) => CommitRedeemFated(cfg, s, s', call, at, token, family);
    case CommitRefresh(call, at, minted) =>
      CommitRefreshExchanges(cfg, s, s', call, at, minted);
      CommitRefreshFated(cfg, s, call, at, minted, s'.db);
  }

  lemma BurnCodeFated(cfg: Config, s: State, s': State, call: Id, at: Time)
    requires BurnCodeStep(s, s', call, at)
    ensures StepFated(cfg, s, BurnCode(call, at), s'.db)
  {
  }

  lemma ContainFated(cfg: Config, s: State, s': State, call: Id, at: Time)
    requires ContainStep(s, s', call, at)
    ensures StepFated(cfg, s, Contain(call, at), s'.db)
  {
    var row := s.calls[call].row;
    RevokeForSessionFates(cfg, s.db, row.session, row.client, row.user, at);
  }

  lemma CommitFamilyFated(cfg: Config, s: State, s': State, call: Id, at: Time)
    requires CommitFamilyStep(s, s', call, at)
    ensures StepFated(cfg, s, CommitFamily(call, at), s'.db)
  {
    var c := s.calls[call];
    RevokeFamilyFates(cfg, s.db, c.family, c.client, c.user, at);
  }

  lemma ShutRefreshFated(cfg: Config, s: State, s': State, call: Id, at: Time)
    requires ShutRefreshStep(s, s', call, at)
    ensures StepFated(cfg, s, ShutRefresh(call, at), s'.db)
  {
    assert AimOf(s, ShutRefresh(call, at)) == PartyRefresh(s.calls[call].client);
    ShutRefreshFates(cfg, s.db, s.calls[call].client, at);
  }

  lemma ShutOidcFated(cfg: Config, s: State, s': State, call: Id, at: Time)
    requires ShutOidcStep(s, s', call, at)
    ensures StepFated(cfg, s, ShutOidc(call, at), s'.db)
  {
    assert AimOf(s, ShutOidc(call, at)) == PartyOidc(s.calls[call].client);
    ShutOidcFates(cfg, s.db, s.calls[call].client, at);
  }

  lemma RevokeFated(cfg: Config, s: State, step: Step, s': State)
    requires RevokeNext(cfg, s, step, s')
    ensures StepFated(cfg, s, step, s'.db)
  {
    match step
    case CommitDenial(_, at) => NobodysFates(cfg, 0, s.db, s'.db);
    case BurnCode(call, at) => BurnCodeFated(cfg, s, s', call, at);
    case Contain(call, at) => ContainFated(cfg, s, s', call, at);
    case CommitFamily(call, at) => CommitFamilyFated(cfg, s, s', call, at);
    case RevokeByAccess(session, client, user, at) => RevokeForSessionFates(cfg, s.db, session, client, user, at);
    case WithdrawGrant(user, client, at) => WithdrawFates(cfg, s.db, user, client, at);
    case EndSession(session, user, at) => EndBrowserSessionFates(cfg, s.db, session, user, at);
    case LogoutSession(session, at) => LogoutFates(cfg, s.db, session, at);
    case RevokeAccount(user, at) => RevokeAllFates(cfg, s.db, user, at);
    case ShutRefresh(call, at) => ShutRefreshFated(cfg, s, s', call, at);
    case ShutOidc(call, at) => ShutOidcFated(cfg, s, s', call, at);
  }

  lemma AdminFated(cfg: Config, s: State, step: Step, s': State)
    requires AdminNext(cfg, s, step, s')
    ensures StepFated(cfg, s, step, s'.db)
  {
    match step
    case DeleteClient(client) => RemoveClientFates(cfg, s.db, client);
    case ResetPassword(user, at) => RevokeAllFates(cfg, PromotedUser(s.db, user), user, at);
    case SetAccountStatus(user, status, at) =>
      var updated := s.db.(users := s.db.users[user := s.db.users[user].(status := status)]);
      if status.UserDisabled? { RevokeAllFates(cfg, updated, user, at); } else { NobodysFates(cfg, at, s.db, s'.db); }
    case _ => NobodysFates(cfg, 0, s.db, s'.db);
  }

  lemma ReadFated(cfg: Config, s: State, step: Step, s': State)
    requires ReadNext(cfg, s, step, s')
    ensures StepFated(cfg, s, step, s'.db)
  {
    ReadOnward(cfg, s, step, s');
    NobodysFates(cfg, 0, s.db, s'.db);
  }

  lemma SweepFated(cfg: Config, s: State, step: Step, s': State)
    requires SweepNext(cfg, s, step, s')
    ensures StepFated(cfg, s, step, s'.db)
  {
    match step
    case SweepRefresh(cutoff) => PruneRefreshFates(cfg, s.db, cutoff);
    case SweepCodes(cutoff) => PruneCodesFates(cfg, s.db, cutoff);
    case SweepOidc(keys, cutoff) => PruneOidcFates(cfg, s.db, keys, cutoff);
    case _ => NobodysFates(cfg, 0, s.db, s'.db);
  }

  /** What every step of a run does to every credential that was there: used at the step's
      time by its own exchange, revoked at the step's time by the revocations that reach it,
      deleted with its client or by a prune whose bound it passed, and otherwise left bit for
      bit as it was. A mark, once set, keeps its first time. */
  lemma StepFates(cfg: Config, run: Run, i: nat)
    requires ValidRun(cfg, run) && i < |run.steps|
    ensures StepFated(cfg, run.states[i], run.steps[i], run.states[i + 1].db)
  {
    var s, step, s' := run.states[i], run.steps[i], run.states[i + 1];
    assert RunStep(cfg, run, i);
    RunKeeps(cfg, run, i);
    InvSeen(cfg, s);
    if MintNext(cfg, s, step, s') { MintFated(cfg, s, step, s'); }
    else if ReadNext(cfg, s, step, s') { ReadFated(cfg, s, step, s'); }
    else if RevokeNext(cfg, s, step, s') { RevokeFated(cfg, s, step, s'); }
    else if AdminNext(cfg, s, step, s') { AdminFated(cfg, s, step, s'); }
    else { SweepFated(cfg, s, step, s'); }
  }

  // --- Every mark has one cause --------------------------------------------

  /** A row that had been seen and is there now was there a step ago. */
  lemma RowsStay(cfg: Config, run: Run, i: nat, j: nat)
    requires ValidRun(cfg, run) && i <= j < |run.steps|
    ensures forall t :: t in run.states[i].db.refresh && t in run.states[j + 1].db.refresh ==>
      t in run.states[j].db.refresh
    ensures forall c :: c in run.states[i].db.codes && c in run.states[j + 1].db.codes ==> c in run.states[j].db.codes
  {
    RunKeeps(cfg, run, i);
    InvSeen(cfg, run.states[i]);
    RunOnward(cfg, run, i, j);
    StepOnward(cfg, run, j);
  }

  /** A refresh token found revoked was revoked by one step, which was about it and whose time
      its `revokedAt` still is. */
  lemma {:induction false} RevocationTraced(cfg: Config, run: Run, i: nat, j: nat, t: Id) returns (k: nat)
    requires ValidRun(cfg, run) && i <= j < |run.states|
    requires t in run.states[i].db.refresh && run.states[i].db.refresh[t].revokedAt.None?
    requires t in run.states[j].db.refresh && run.states[j].db.refresh[t].revokedAt.Some?
    ensures i <= k < j && t in run.states[k].db.refresh
    ensures RefreshFate(cfg, AimOf(run.states[k], run.steps[k]), t, run.states[k].db.refresh[t]) == Revoked
    ensures run.states[j].db.refresh[t].revokedAt == Some(StampOf(run.steps[k]))
    decreases j
  {
    k := j - 1;
    RowsStay(cfg, run, i, k);
    StepFates(cfg, run, k);
    var row := run.states[k].db.refresh[t];
    assert Find(run.states[j].db.refresh, t)
        == RefreshAfter(row, RefreshFate(cfg, AimOf(run.states[k], run.steps[k]), t, row), StampOf(run.steps[k]));
    if row.revokedAt.Some? { k := RevocationTraced(cfg, run, i, j - 1, t); }
  }

  /** Likewise a code found spent was spent by one step, which was about it. */
  lemma {:induction false} SpendingTraced(cfg: Config, run: Run, i: nat, j: nat, c: Id) returns (k: nat)
    requires ValidRun(cfg, run) && i <= j < |run.states|
    requires c in run.states[i].db.codes && run.states[i].db.codes[c].usedAt.None?
    requires c in run.states[j].db.codes && run.states[j].db.codes[c].usedAt.Some?
    ensures i <= k < j && c in run.states[k].db.codes
    ensures CodeFate(cfg, AimOf(run.states[k], run.steps[k]), c, run.states[k].db.codes[c]) == Used
    ensures run.states[j].db.codes[c].usedAt == Some(StampOf(run.steps[k]))
    decreases j
  {
    k := j - 1;
    RowsStay(cfg, run, i, k);
    StepFates(cfg, run, k);
    var row := run.states[k].db.codes[c];
    assert Find(run.states[j].db.codes, c)
        == CodeAfter(row, CodeFate(cfg, AimOf(run.states[k], run.steps[k]), c, row), StampOf(run.steps[k]));
    if row.usedAt.Some? { k := SpendingTraced(cfg, run, i, j - 1, c); }
  }
}
