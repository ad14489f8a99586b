/** The lock plans against the transactions: whatever row a step changes or deletes is among
    the rows its plan locks. */
module LockCover {
  import opened Prelude
  import opened Tables
  import opened Transactions
  import opened History
  import opened Machine
  import opened Invariants
  import opened Reachability
  import opened Runs
  import opened Precision
  import LockOrder

  type Operation = LockOrder.Operation

  predicate Locks(op: Operation, table: LockOrder.Table, key: (Id, Id)) {
    exists i :: 0 <= i < |LockOrder.Statements(op)|
             && LockOrder.Statements(op)[i].table == table && key in LockOrder.Statements(op)[i].keys
  }

  predicate Kept<K, V(==)>(a: map<K, V>, b: map<K, V>, k: K) { k in a ==> k in b && b[k] == a[k] }

  ghost predicate IdsLocked<V>(op: Operation, table: LockOrder.Table, a: map<Id, V>, b: map<Id, V>) {
    forall id {:trigger Kept(a, b, id)} :: Kept(a, b, id) || Locks(op, table, (id, 0))
  }

  ghost predicate PairsLocked<V>(op: Operation, table: LockOrder.Table, a: map<(Id, Id), V>, b: map<(Id, Id), V>) {
    forall k {:trigger Kept(a, b, k)} :: Kept(a, b, k) || Locks(op, table, k)
  }

  /** Every row of `a` that `b` changes or lacks is locked by the operation. */
  ghost predicate WritesLocked(op: Operation, a: Store, b: Store) {
    var clients := IdsLocked(op, LockOrder.ClientRow, a.clients, b.clients);
    var users := IdsLocked(op, LockOrder.UserRow, a.users, b.users);
    var grants := PairsLocked(op, LockOrder.GrantRow, a.grants, b.grants);
    var sessions := IdsLocked(op, LockOrder.SessionRow, a.sessions, b.sessions);
    var requests := IdsLocked(op, LockOrder.RequestRow, a.requests, b.requests);
    var refresh := IdsLocked(op, LockOrder.RefreshRow, a.refresh, b.refresh);
    var codes := IdsLocked(op, LockOrder.CodeRow, a.codes, b.codes);
    var oidc := PairsLocked(op, LockOrder.OidcRow, a.oidc, b.oidc);
    clients && users && grants && sessions && requests && refresh && codes && oidc
  }

  lemma LocksAt(op: Operation, i: nat, table: LockOrder.Table, keys: set<(Id, Id)>)
    requires i < |LockOrder.Statements(op)| && LockOrder.Statements(op)[i] == LockOrder.Selection(table, keys)
    ensures forall key {:trigger Locks(op, table, key)} :: key in keys ==> Locks(op, table, key)
  {
  }

  lemma LocksIds(op: Operation, i: nat, table: LockOrder.Table, ids: set<Id>)
    requires i < |LockOrder.Statements(op)|
      && LockOrder.Statements(op)[i] == LockOrder.Selection(table, LockOrder.Single(ids))
    ensures forall id {:trigger Locks(op, table, (id, 0))} :: id in ids ==> Locks(op, table, (id, 0))
  {
    LocksAt(op, i, table, LockOrder.Single(ids));
  }

  // --- The plan of each transaction ----------------------------------------

  function Parties(keys: set<(Id, Id)>): set<Id> { set k | k in keys :: k.1 }

  function Browsers(keys: set<(Id, Id)>): set<Id> { set k | k in keys :: k.0 }

  function FamilyPlan(db: Store, family: Id, client: Id, user: Id): Operation {
    LockOrder.RevokeFamily(client, user, FamilyRows(db, family))
  }

  function SessionPlan(db: Store, session: Id, client: Id, user: Id): Operation {
    LockOrder.RevokeTokensForSession(client, user, session, SessionClientRefresh(db, session, client))
  }

  function WithdrawPlan(db: Store, user: Id, client: Id): Operation {
    LockOrder.RevokeGrant(client, user, PairRefresh(db, user, client), PairCodes(db, user, client),
                          Browsers(PairOidc(db, user, client)))
  }

  function EndPlan(db: Store, session: Id, user: Id): Operation {
    LockOrder.EndSessions(user, session, Parties(SessionUserOidc(db, session, user)))
  }

  function LogoutPlan(db: Store, session: Id): Operation {
    LockOrder.LogoutSession(session, Parties(SessionOidc(db, session)))
  }

  function AccountPlan(db: Store, user: Id): Operation {
    LockOrder.RevokeAllCredentials(user, UserSessions(db, user), UserRefresh(db, user), UserCodes(db, user),
                                   UserOidc(db, user))
  }

  lemma IssueCodeLocked(cfg: Config, db: Store, p: Completion, at: Time, code: Id, sid: Id)
    requires IssueCode(cfg, db, p, at, code, sid).Committed? && code !in db.codes
    ensures WritesLocked(LockOrder.IssueCode(p.client, p.user, p.session, p.request), db,
                         IssueCode(cfg, db, p, at, code, sid).db)
  {
    var op := LockOrder.IssueCode(p.client, p.user, p.session, p.request);
    LocksAt(op, 2, LockOrder.GrantRow, {(p.user, p.client)});
    LocksAt(op, 4, LockOrder.RequestRow, {(p.request, 0)});
    LocksAt(op, 5, LockOrder.OidcRow, {(p.session, p.client)});
  }

  lemma RedeemLocked(cfg: Config, db: Store, code: Id, row: Code, client: Id, verifier: Verifier, at: Time, token: Id,
                     family: Id)
    requires Redeem(cfg, db, code, row, client, verifier, at, token, family).Committed? && token !in db.refresh
    ensures WritesLocked(LockOrder.ExchangeCode(client, row.user, row.session, code), db,
                         Redeem(cfg, db, code, row, client, verifier, at, token, family).db)
  {
    var op := LockOrder.ExchangeCode(client, row.user, row.session, code);
    LocksAt(op, 3, LockOrder.CodeRow, {(code, 0)});
    LocksAt(op, 4, LockOrder.OidcRow, {(row.session, client)});
  }

  lemma ExchangeLocked(cfg: Config, db: Store, token: Id, row: Refresh, client: Id, scopes: set<Scope>, at: Time,
                       minted: Id)
    requires ExchangeRefresh(cfg, db, token, row, client, scopes, at, minted).Committed? && minted !in db.refresh
    ensures WritesLocked(LockOrder.ExchangeRefresh(client, row.user, row.session, token), db,
                         ExchangeRefresh(cfg, db, token, row, client, scopes, at, minted).db)
  {
    var op := LockOrder.ExchangeRefresh(client, row.user, row.session, token);
    LocksAt(op, 3, LockOrder.RefreshRow, {(token, 0)});
    LocksAt(op, 4, LockOrder.OidcRow, {(row.session, client)});
  }

  lemma RevokeFamilyLocked(db: Store, family: Id, client: Id, user: Id, at: Time)
    ensures WritesLocked(FamilyPlan(db, family, client, user), db, RevokeFamily(db, family, client, user, at))
  {
    LocksIds(FamilyPlan(db, family, client, user), 3, LockOrder.RefreshRow, FamilyRows(db, family));
  }

  lemma RevokeForSessionLocked(db: Store, session: Id, client: Id, user: Id, at: Time)
    ensures WritesLocked(SessionPlan(db, session, client, user), db, RevokeForSession(db, session, client, user, at))
  {
    var op := SessionPlan(db, session, client, user);
    LocksIds(op, 4, LockOrder.RefreshRow, SessionClientRefresh(db, session, client));
    LocksAt(op, 5, LockOrder.OidcRow, {(session, client)});
  }

  lemma WithdrawLocked(db: Store, user: Id, client: Id, at: Time)
    requires Withdrawable(db, user, client)
    ensures WritesLocked(WithdrawPlan(db, user, client), db, Withdraw(db, user, client, at))
  {
    var op := WithdrawPlan(db, user, client);
    LocksAt(op, 2, LockOrder.GrantRow, {(user, client)});
    LocksIds(op, 3, LockOrder.RefreshRow, PairRefresh(db, user, client));
    LocksIds(op, 4, LockOrder.CodeRow, PairCodes(db, user, client));
    LocksAt(op, 5, LockOrder.OidcRow, LockOrder.OfClient(client, Browsers(PairOidc(db, user, client))));
  }

  lemma EndLocked(db: Store, session: Id, user: Id, at: Time)
    requires Endable(db, session, user)
    ensures WritesLocked(EndPlan(db, session, user), db, EndBrowserSession(db, session, user, at))
  {
    var op := EndPlan(db, session, user);
    LocksAt(op, 1, LockOrder.SessionRow, {(session, 0)});
    LocksAt(op, 2, LockOrder.OidcRow, LockOrder.OfSession(session, Parties(SessionUserOidc(db, session, user))));
  }

  lemma LogoutLocked(db: Store, session: Id, at: Time)
    ensures WritesLocked(LogoutPlan(db, session), db, Logout(db, session, at))
  {
    var op := LogoutPlan(db, session);
    LocksAt(op, 0, LockOrder.SessionRow, {(session, 0)});
    LocksAt(op, 1, LockOrder.OidcRow, LockOrder.OfSession(session, Parties(SessionOidc(db, session))));
  }

  /** Also with the account's own row written first, as disabling and a reset do. */
  lemma RevokeAllLocked(db: Store, users: map<Id, User>, user: Id, at: Time)
    requires forall u :: u != user ==> Kept(db.users, users, u)
    ensures WritesLocked(AccountPlan(db, user), db, RevokeAll(db.(users := users), user, at))
  {
    var op := AccountPlan(db, user);
    LocksAt(op, 0, LockOrder.UserRow, {(user, 0)});
    LocksIds(op, 1, LockOrder.SessionRow, UserSessions(db, user));
    LocksIds(op, 2, LockOrder.RefreshRow, UserRefresh(db, user));
    LocksIds(op, 3, LockOrder.CodeRow, UserCodes(db, user));
    LocksAt(op, 4, LockOrder.OidcRow, UserOidc(db, user));
  }

  // --- Writes of one statement ---------------------------------------------

  function One(table: LockOrder.Table, id: Id): Operation { LockOrder.OneStatement(table, {(id, 0)}) }

  function Many(table: LockOrder.Table, ids: set<Id>): Operation {
    LockOrder.OneStatement(table, LockOrder.Single(ids))
  }

  function ExpiredRequests(db: Store, cutoff: Time): set<Id> {
    set r | r in db.requests && (db.requests[r].expiresAt < cutoff || db.requests[r].consumedAt.Some?)
  }

  function PrunableCodes(cfg: Config, db: Store, cutoff: Time): set<Id> {
    set c | c in db.codes && CodePrunable(cfg, db.codes[c], cutoff)
  }

  function ExpiredRefresh(db: Store, cutoff: Time): set<Id> {
    set t | t in db.refresh && db.refresh[t].expiresAt < cutoff
  }

  lemma SessionWriteLocked(a: Store, b: Store, session: Id)
    requires b == a.(sessions := b.sessions) && forall o :: o != session ==> Kept(a.sessions, b.sessions, o)
    ensures WritesLocked(One(LockOrder.SessionRow, session), a, b)
  {
    LocksAt(One(LockOrder.SessionRow, session), 0, LockOrder.SessionRow, {(session, 0)});
  }

  lemma ClientWriteLocked(a: Store, b: Store, client: Id)
    requires b == a.(clients := b.clients) && forall o :: o != client ==> Kept(a.clients, b.clients, o)
    ensures WritesLocked(One(LockOrder.ClientRow, client), a, b)
  {
    LocksAt(One(LockOrder.ClientRow, client), 0, LockOrder.ClientRow, {(client, 0)});
  }

  lemma UserWriteLocked(a: Store, b: Store, user: Id)
    requires b == a.(users := b.users) && forall o :: o != user ==> Kept(a.users, b.users, o)
    ensures WritesLocked(One(LockOrder.UserRow, user), a, b)
  {
    LocksAt(One(LockOrder.UserRow, user), 0, LockOrder.UserRow, {(user, 0)});
  }

  lemma BurnLocked(db: Store, code: Id, at: Time)
    ensures WritesLocked(One(LockOrder.CodeRow, code), db, db.(codes := SpendCodes(db.codes, {code}, at)))
  {
    LocksAt(One(LockOrder.CodeRow, code), 0, LockOrder.CodeRow, {(code, 0)});
  }

  lemma DenialLocked(db: Store, request: Id, at: Time)
    requires request in db.requests
    ensures WritesLocked(LockOrder.DenyAuthorization(request), db, db.(requests := ConsumedRequest(db, request, at)))
  {
    LocksAt(LockOrder.DenyAuthorization(request), 0, LockOrder.RequestRow, {(request, 0)});
  }

  lemma ShutRefreshLocked(db: Store, client: Id, at: Time)
    ensures WritesLocked(Many(LockOrder.RefreshRow, ClientRefresh(db, client)), db,
                         db.(refresh := RevokeRefresh(db.refresh, ClientRefresh(db, client), at)))
  {
    LocksIds(Many(LockOrder.RefreshRow, ClientRefresh(db, client)), 0, LockOrder.RefreshRow, ClientRefresh(db, client));
  }

  lemma ShutOidcLocked(db: Store, client: Id, at: Time)
    ensures WritesLocked(LockOrder.OneStatement(LockOrder.OidcRow, ClientOidc(db, client)), db,
                         db.(oidc := EndOidc(db.oidc, ClientOidc(db, client), at)))
  {
    LocksAt(LockOrder.OneStatement(LockOrder.OidcRow, ClientOidc(db, client)), 0, LockOrder.OidcRow,
            ClientOidc(db, client));
  }

  lemma PruneRequestsLocked(db: Store, cutoff: Time)
    ensures WritesLocked(Many(LockOrder.RequestRow, ExpiredRequests(db, cutoff)), db, PruneRequests(db, cutoff))
  {
    LocksIds(Many(LockOrder.RequestRow, ExpiredRequests(db, cutoff)), 0, LockOrder.RequestRow,
             ExpiredRequests(db, cutoff));
  }

  lemma PruneCodesLocked(cfg: Config, db: Store, cutoff: Time)
    ensures WritesLocked(Many(LockOrder.CodeRow, PrunableCodes(cfg, db, cutoff)), db, PruneCodes(cfg, db, cutoff))
  {
    LocksIds(Many(LockOrder.CodeRow, PrunableCodes(cfg, db, cutoff)), 0, LockOrder.CodeRow,
             PrunableCodes(cfg, db, cutoff));
  }

  lemma PruneRefreshLocked(db: Store, cutoff: Time)
    ensures WritesLocked(Many(LockOrder.RefreshRow, ExpiredRefresh(db, cutoff)), db, PruneRefresh(db, cutoff))
  {
    LocksIds(Many(LockOrder.RefreshRow, ExpiredRefresh(db, cutoff)), 0, LockOrder.RefreshRow,
             ExpiredRefresh(db, cutoff));
  }

  lemma PruneOidcLocked(cfg: Config, db: Store, keys: set<(Id, Id)>, cutoff: Time)
    ensures WritesLocked(LockOrder.OneStatement(LockOrder.OidcRow, keys), db, PruneOidc(cfg, db, keys, cutoff))
  {
    LocksAt(LockOrder.OneStatement(LockOrder.OidcRow, keys), 0, LockOrder.OidcRow, keys);
  }

  lemma InsertLocked(op: Operation, a: Store, b: Store)
    requires b == a.(sessions := b.sessions, requests := b.requests)
    requires (forall k :: Kept(a.sessions, b.sessions, k)) && (forall k :: Kept(a.requests, b.requests, k))
    ensures WritesLocked(op, a, b)
  {
  }

  // --- Every step ----------------------------------------------------------

  const NoLocks: Operation := LockOrder.OneStatement(LockOrder.ClientRow, {})

  function CallPlan(db: Store, c: Call): Operation {
    match c
    case Completing(p, _) => LockOrder.IssueCode(p.client, p.user, p.session, p.request)
    case Denying(request) => LockOrder.DenyAuthorization(request)
    case Burning(code) => One(LockOrder.CodeRow, code)
    case Redeeming(code, row, client, _, _) => LockOrder.ExchangeCode(client, row.user, row.session, code)
    case Containing(_, row) => SessionPlan(db, row.session, row.client, row.user)
    case Refreshing(token, held, client, _, _) => LockOrder.ExchangeRefresh(client, held.user, held.session, token)
    case FindingFamily(_) => NoLocks
    case RevokingFamily(family, client, user) => FamilyPlan(db, family, client, user)
    case ShuttingClient(client, _, refreshDone) =>
      if refreshDone then LockOrder.OneStatement(LockOrder.OidcRow, ClientOidc(db, client))
      else Many(LockOrder.RefreshRow, ClientRefresh(db, client))
    case WritingStatus(user, _) => One(LockOrder.UserRow, user)
  }

  function HeldPlan(s: State, call: Id): Operation {
    if call in s.calls then CallPlan(s.db, s.calls[call]) else NoLocks
  }

  function PlanOf(cfg: Config, s: State, step: Step): Operation {
    match step
    case CommitCode(call, _, _, _) => HeldPlan(s, call)
    case CommitDenial(call, _) => HeldPlan(s, call)
    case BurnCode(call, _) => HeldPlan(s, call)
    case CommitRedeem(call, _, _, _) => HeldPlan(s, call)
    case Contain(call, _) => HeldPlan(s, call)
    case CommitRefresh(call, _, _) => HeldPlan(s, call)
    case CommitFamily(call, _) => HeldPlan(s, call)
    case ShutRefresh(call, _) => HeldPlan(s, call)
    case ShutOidc(call, _) => HeldPlan(s, call)
    case WriteStatus(call) => HeldPlan(s, call)
    case RevokeByAccess(session, client, user, _) => SessionPlan(s.db, session, client, user)
    case WithdrawGrant(user, client, _) => WithdrawPlan(s.db, user, client)
    case EndSession(session, user, _) => EndPlan(s.db, session, user)
    case LogoutSession(session, _) => LogoutPlan(s.db, session)
    case RevokeAccount(user, _) => AccountPlan(s.db, user)
    case ResetPassword(user, _) => AccountPlan(s.db, user)
    case SetAccountStatus(user, _, _) => AccountPlan(s.db, user)
    case TouchSession(session, _) => One(LockOrder.SessionRow, session)
    case DropSession(session) => One(LockOrder.SessionRow, session)
    case PutClient(client, _) => One(LockOrder.ClientRow, client)
    case SetClientStatus(_, client, _) => One(LockOrder.ClientRow, client)
    case PutUser(user, _) => One(LockOrder.UserRow, user)
    case SweepRequests(cutoff) => Many(LockOrder.RequestRow, ExpiredRequests(s.db, cutoff))
    case SweepCodes(cutoff) => Many(LockOrder.CodeRow, PrunableCodes(cfg, s.db, cutoff))
    case SweepRefresh(cutoff) => Many(LockOrder.RefreshRow, ExpiredRefresh(s.db, cutoff))
    case SweepOidc(keys, _) => LockOrder.OneStatement(LockOrder.OidcRow, keys)
    case _ => NoLocks
  }

  ghost predicate StepIsLocked(cfg: Config, s: State, step: Step, b: Store) {
    WritesLocked(PlanOf(cfg, s, step), s.db, b)
  }

  lemma CommitRedeemLocked(cfg: Config, s: State, s': State, call: Id, at: Time, token: Id, family: Id)
    requires CommitRedeemStep(cfg, s, s', call, at, token, family) && RowsSeen(s.db, s.hist)
    ensures StepIsLocked(cfg, s, CommitRedeem(call, at, token, family), s'.db)
  {
    var c := s.calls[call];
    RedeemLocked(cfg, s.db, c.code, c.row, c.client, c.verifier, at, token, family);
  }

  lemma CommitRefreshLocked(cfg: Config, s: State, call: Id, at: Time, minted: Id, b: Store)
    requires Exchanges(cfg, s, call, at, minted, b)
    ensures StepIsLocked(cfg, s, CommitRefresh(call, at, minted), b)
  {
    var c := s.calls[call];
    ExchangeLocked(cfg, s.db, c.token, c.held, c.client, c.scopes, at, minted);
  }

  lemma MintLocked(cfg: Config, s: State, step: Step, s': State)
    requires MintNext(cfg, s, step, s') && RowsSeen(s.db, s.hist)
    ensures StepIsLocked(cfg, s, step, s'.db)
  {
    match step
    case CommitCode(call, at, code, sid) => IssueCodeLocked(cfg, s.db, s.calls[call].p, at, code, sid);
    case CommitRedeem(call, at, token, family) => CommitRedeemLocked(cfg, s, s', call, at, token, family);
    case CommitRefresh(call, at, minted) =>
      CommitRefreshExchanges(cfg, s, s', call, at, minted);
      CommitRefreshLocked(cfg, s, call, at, minted, s'.db);
  }

  lemma ContainLocked(cfg: Config, s: State, s': State, call: Id, at: Time)
    requires ContainStep(s, s', call, at)
    ensures StepIsLocked(cfg, s, Contain(call, at), s'.db)
  {
    var row := s.calls[call].row;
    RevokeForSessionLocked(s.db, row.session, row.client, row.user, at);
  }

  lemma CommitFamilyLocked(cfg: Config, s: State, s': State, call: Id, at: Time)
    requires CommitFamilyStep(s, s', call, at)
    ensures StepIsLocked(cfg, s, CommitFamily(call, at), s'.db)
  {
    var c := s.calls[call];
    RevokeFamilyLocked(s.db, c.family, c.client, c.user, at);
  }

  lemma RevokeLocked(cfg: Config, s: State, step: Step, s': State)
    requires RevokeNext(cfg, s, step, s')
    ensures StepIsLocked(cfg, s, step, s'.db)
  {
    match step
    case CommitDenial(call, at) => DenialLocked(s.db, s.calls[call].request, at);
    case BurnCode(call, at) => BurnLocked(s.db, s.calls[call].code, at);
    case Contain(call, at) => ContainLocked(cfg, s, s', call, at);
    case CommitFamily(call, at) => CommitFamilyLocked(cfg, s, s', call, at);
    case RevokeByAccess(session, client, user, at) => RevokeForSessionLocked(s.db, session, client, user, at);
    case WithdrawGrant(user, client, at) => WithdrawLocked(s.db, user, client, at);
    case EndSession(session, user, at) => EndLocked(s.db, session, user, at);
    case LogoutSession(session, at) => LogoutLocked(s.db, session, at);
    case RevokeAccount(user, at) => RevokeAllLocked(s.db, s.db.users, user, at);
    case ShutRefresh(call, at) => ShutRefreshLocked(s.db, s.calls[call].client, at);
    case ShutOidc(call, at) => ShutOidcLocked(s.db, s.calls[call].client, at);
  }

  lemma ResetPasswordLocked(cfg: Config, s: State, user: Id, at: Time)
    requires UsableAccount(s.db, user)
    ensures StepIsLocked(cfg, s, ResetPassword(user, at), RevokeAll(PromotedUser(s.db, user), user, at))
  {
    var users := PromotedUser(s.db, user).users;
    assert PromotedUser(s.db, user) == s.db.(users := users);
    RevokeAllLocked(s.db, users, user, at);
  }

  lemma SetAccountStatusLocked(cfg: Config, s: State, user: Id, status: UserStatus, at: Time)
    requires user in s.db.users
    ensures StepIsLocked(cfg, s, SetAccountStatus(user, status, at), SetUserStatus(s.db, user, status, at))
  {
    var users := s.db.users[user := s.db.users[user].(status := status)];
    if status.UserDisabled? {
      RevokeAllLocked(s.db, users, user, at);
    } else {
      LocksAt(AccountPlan(s.db, user), 0, LockOrder.UserRow, {(user, 0)});
    }
  }

  lemma OpeningLocked(cfg: Config, s: State, step: Step, s': State)
    requires AdminNext(cfg, s, step, s') && (step.ParkRequest? || step.SignIn?)
    requires SessionTable(s.db.sessions, s.hist) && RequestTable(s.db.requests, s.hist)
    ensures StepIsLocked(cfg, s, step, s'.db)
  {
    InsertLocked(NoLocks, s.db, s'.db);
  }

  lemma WriteStatusLocked(cfg: Config, s: State, s': State, call: Id)
    requires WriteStatusStep(s, s', call)
    ensures StepIsLocked(cfg, s, WriteStatus(call), s'.db)
  {
    UserWriteLocked(s.db, s'.db, s.calls[call].user);
  }

  lemma AdminLocked(cfg: Config, s: State, step: Step, s': State)
    requires AdminNext(cfg, s, step, s') && !step.DeleteClient?
    requires SessionTable(s.db.sessions, s.hist) && RequestTable(s.db.requests, s.hist)
    ensures StepIsLocked(cfg, s, step, s'.db)
  {
    match step
    case ParkRequest(_, _) => OpeningLocked(cfg, s, step, s');
    case SignIn(_, _) => OpeningLocked(cfg, s, step, s');
    case TouchSession(session, _) => SessionWriteLocked(s.db, s'.db, session);
    case PutClient(client, _) => ClientWriteLocked(s.db, s'.db, client);
    case PutUser(user, _) => UserWriteLocked(s.db, s'.db, user);
    case WriteStatus(call) => WriteStatusLocked(cfg, s, s', call);
    case SetClientStatus(_, client, _) => ClientWriteLocked(s.db, s'.db, client);
    case ResetPassword(user, at) => ResetPasswordLocked(cfg, s, user, at);
    case SetAccountStatus(user, status, at) => SetAccountStatusLocked(cfg, s, user, status, at);
  }

  lemma SweepLocked(cfg: Config, s: State, step: Step, s': State)
    requires SweepNext(cfg, s, step, s')
    ensures StepIsLocked(cfg, s, step, s'.db)
  {
    match step
    case DropSession(session) => SessionWriteLocked(s.db, s'.db, session);
    case SweepRequests(cutoff) => PruneRequestsLocked(s.db, cutoff);
    case SweepCodes(cutoff) => PruneCodesLocked(cfg, s.db, cutoff);
    case SweepRefresh(cutoff) => PruneRefreshLocked(s.db, cutoff);
    case SweepOidc(keys, cutoff) => PruneOidcLocked(cfg, s.db, keys, cutoff);
  }

  /** Every row a step of a run changes or deletes is locked by the step's plan, and plans are
      what `LockOrder` shows free of deadlock. Removing a client is outside: its cascade locks
      rows in the database's own order. */
  lemma StepLocked(cfg: Config, run: Run, i: nat)
    requires ValidRun(cfg, run) && i < |run.steps| && !run.steps[i].DeleteClient?
    ensures WritesLocked(PlanOf(cfg, run.states[i], run.steps[i]), run.states[i].db, run.states[i + 1].db)
  {
    var s, step, s' := run.states[i], run.steps[i], run.states[i + 1];
    assert RunStep(cfg, run, i);
    RunKeeps(cfg, run, i);
    InvSeen(cfg, s);
    if MintNext(cfg, s, step, s') { MintLocked(cfg, s, step, s'); }
    else if ReadNext(cfg, s, step, s') {
      ReadOnward(cfg, s, step, s');
      InsertLocked(PlanOf(cfg, s, step), s.db, s'.db);
    }
    else if RevokeNext(cfg, s, step, s') { RevokeLocked(cfg, s, step, s'); }
    else if AdminNext(cfg, s, step, s') { AdminLocked(cfg, s, step, s'); }
    else { SweepLocked(cfg, s, step, s'); }
  }
}
