/** Ending a per-client session reaches the access tokens that name it: UserInfo and introspection
    stop accepting them at once, and until the user authorizes the client again. */
module SessionEnds {
  import opened Prelude
  import opened Tables
  import opened Transactions
  import opened History
  import opened Machine
  import opened Invariants
  import opened Closing
  import opened UpkeepClosing
  import opened Reachability
  import opened Runs
  import opened Precision
  import opened Scopes
  import TokenStatus

  /** The step is a logout, an end of sessions, a withdrawal, a revocation of the account, a
      containment of a replayed code, a revocation by access token, or the end of the client,
      and it reaches this user's session with the client. */
  predicate Ends(s: State, step: Step, session: Id, client: Id, user: Id) {
    match step
    case LogoutSession(ended, _) => ended == session
    case EndSession(ended, owner, _) => ended == session && owner == user
    case WithdrawGrant(owner, party, _) => owner == user && party == client
    case RevokeAccount(owner, _) => owner == user
    case ResetPassword(owner, _) => owner == user
    case SetAccountStatus(owner, status, _) => owner == user && status == UserDisabled
    case Contain(call, _) =>
      && call in s.calls && s.calls[call].Containing?
      && s.calls[call].row.session == session && s.calls[call].row.client == client
      && client in s.db.clients && s.calls[call].row.user in s.db.users
    case RevokeByAccess(ended, party, owner, _) =>
      ended == session && party == client && client in s.db.clients && owner in s.db.users
    case ShutOidc(call, _) => call in s.calls && s.calls[call].ShuttingClient? && s.calls[call].client == client
    case DeleteClient(party) => party == client
    case _ => false
  }

  /** The commit of a code for this browser session and client. */
  predicate Reopens(s: State, step: Step, session: Id, client: Id) {
    match step
    case CommitCode(call, _, _, _) =>
      && call in s.calls && s.calls[call].Completing?
      && s.calls[call].p.session == session && s.calls[call].p.client == client
    case _ => false
  }

  /** The user has no live session with the client under the browser session. */
  predicate Down(oidc: map<(Id, Id), Oidc>, session: Id, client: Id, user: Id) {
    (session, client) in oidc && oidc[(session, client)].user == user ==> oidc[(session, client)].revokedAt != None
  }

  lemma EndedIsDown(cfg: Config, run: Run, i: nat, session: Id, client: Id, user: Id)
    requires ValidRun(cfg, run) && i < |run.steps| && Ends(run.states[i], run.steps[i], session, client, user)
    ensures Down(run.states[i + 1].db.oidc, session, client, user)
  {
    var s, step, key := run.states[i], run.steps[i], (session, client);
    StepFates(cfg, run, i);
    NoNewcomer(cfg, run, i, key);
    if key in s.db.oidc && s.db.oidc[key].user == user { EndsAims(cfg, run, i, key, user); }
  }

  /** What the step is about reaches the row. */
  lemma EndsAims(cfg: Config, run: Run, i: nat, key: (Id, Id), user: Id)
    requires ValidRun(cfg, run) && i < |run.steps| && key in run.states[i].db.oidc
    requires Ends(run.states[i], run.steps[i], key.0, key.1, user) && run.states[i].db.oidc[key].user == user
    ensures var fate := OidcFate(cfg, AimOf(run.states[i], run.steps[i]), key, run.states[i].db.oidc[key]);
      fate == Revoked || fate == Deleted
  {
    assert RunStep(cfg, run, i);
  }

  // --- Only an authorization opens a session -------------------------------

  lemma MintKeys(cfg: Config, s: State, step: Step, s': State, key: (Id, Id))
    requires MintNext(cfg, s, step, s') && key in s'.db.oidc && key !in s.db.oidc
    ensures Reopens(s, step, key.0, key.1)
  {
  }

  lemma AdminKeys(cfg: Config, s: State, step: Step, s': State, key: (Id, Id))
    requires AdminNext(cfg, s, step, s') && key in s'.db.oidc
    ensures key in s.db.oidc
  {
    match step
    case DeleteClient(client) => RemoveClientCloses(s.db, client);
    case ResetPassword(user, at) => RevokeAllCloses(PromotedUser(s.db, user), user, at);
    case SetAccountStatus(user, status, at) =>
      RevokeAllCloses(s.db.(users := s.db.users[user := s.db.users[user].(status := status)]), user, at);
    case _ =>
  }

  lemma NoNewcomer(cfg: Config, run: Run, i: nat, key: (Id, Id))
    requires ValidRun(cfg, run) && i < |run.steps|
    ensures key in run.states[i + 1].db.oidc && key !in run.states[i].db.oidc ==>
      Reopens(run.states[i], run.steps[i], key.0, key.1)
  {
    var s, step, s' := run.states[i], run.steps[i], run.states[i + 1];
    assert RunStep(cfg, run, i);
    if key in s'.db.oidc && key !in s.db.oidc {
      if MintNext(cfg, s, step, s') { MintKeys(cfg, s, step, s', key); }
      else if ReadNext(cfg, s, step, s') { ReadOnward(cfg, s, step, s'); }
      else if RevokeNext(cfg, s, step, s') { RevokeCloses(cfg, s, step, s'); }
      else if AdminNext(cfg, s, step, s') { AdminKeys(cfg, s, step, s', key); }
      else { SweepCloses(cfg, s, step, s'); }
    }
  }

  lemma ReopenedOnly(cfg: Config, run: Run, i: nat, key: (Id, Id))
    requires ValidRun(cfg, run) && i < |run.steps| && key in run.states[i].db.oidc
    requires OidcFate(cfg, AimOf(run.states[i], run.steps[i]), key, run.states[i].db.oidc[key]).Reopened?
    ensures Reopens(run.states[i], run.steps[i], key.0, key.1)
  {
    assert RunStep(cfg, run, i);
  }

  lemma DownStays(cfg: Config, run: Run, i: nat, session: Id, client: Id, user: Id)
    requires ValidRun(cfg, run) && i < |run.steps| && Down(run.states[i].db.oidc, session, client, user)
    requires !Reopens(run.states[i], run.steps[i], session, client)
    ensures Down(run.states[i + 1].db.oidc, session, client, user)
  {
    var key := (session, client);
    StepFates(cfg, run, i);
    NoNewcomer(cfg, run, i, key);
    if key in run.states[i].db.oidc {
      if OidcFate(cfg, AimOf(run.states[i], run.steps[i]), key, run.states[i].db.oidc[key]).Reopened? {
        ReopenedOnly(cfg, run, i, key);
      }
    }
  }

  lemma {:induction false} StaysDown(cfg: Config, run: Run, i: nat, j: nat, session: Id, client: Id, user: Id)
    requires ValidRun(cfg, run) && i < j < |run.states| && Ends(run.states[i], run.steps[i], session, client, user)
    requires forall k :: i < k < j ==> !Reopens(run.states[k], run.steps[k], session, client)
    ensures Down(run.states[j].db.oidc, session, client, user)
    decreases j
  {
    if j == i + 1 {
      EndedIsDown(cfg, run, i, session, client, user);
    } else {
      StaysDown(cfg, run, i, j - 1, session, client, user);
      DownStays(cfg, run, j - 1, session, client, user);
    }
  }

  // --- What the endpoints say ----------------------------------------------

  /** The session an access token names is the one it was issued under, if it is still there. */
  lemma NamedSession(cfg: Config, run: Run, j: nat, a: Access, key: (Id, Id))
    requires ValidRun(cfg, run) && j < |run.states| && a in run.states[j].hist.access
    requires key in run.states[j].db.oidc && run.states[j].db.oidc[key].id == a.sid
    ensures key == (a.session, a.client)
  {
    RunKeeps(cfg, run, j);
  }

  /** An access token for this client, user, browser session and scopes, issued at `at`, that
      names the session as it is published. */
  ghost predicate OnRecord(access: set<Access>, db: Store, client: Id, user: Id, session: Id, scopes: set<Scope>,
                           at: Time)
  {
    && (session, client) in db.oidc
    && exists a :: a in access && a.sid == db.oidc[(session, client)].id && a.session == session
                   && a.client == client && a.user == user && a.scopes == scopes && a.issuedAt == at
  }

  /** Every token response leaves the access token it carries on record. */
  lemma ResponseIsOnRecord(cfg: Config, run: Run, i: nat)
    requires ValidRun(cfg, run) && i < |run.steps| && (run.steps[i].CommitRedeem? || run.steps[i].CommitRefresh?)
    ensures run.steps[i].call in run.states[i].calls
    ensures var s, at := run.states[i], run.steps[i].at;
      var c, access := s.calls[run.steps[i].call], run.states[i + 1].hist.access;
      && (run.steps[i].CommitRedeem? ==>
            c.Redeeming? && OnRecord(access, s.db, c.client, c.row.user, c.row.session, c.row.scopes, at))
      && (run.steps[i].CommitRefresh? ==>
            c.Refreshing? && OnRecord(access, s.db, c.client, c.held.user, c.held.session, c.scopes, at))
  {
    assert RunStep(cfg, run, i);
    var s, step := run.states[i], run.steps[i];
    var c := s.calls[step.call];
    if step.CommitRedeem? {
      var sid := s.db.oidc[(c.row.session, c.client)].id;
      assert Access(sid, c.row.session, c.client, c.row.user, c.row.scopes, step.at, c.code, true)
          in run.states[i + 1].hist.access;
    } else {
      var sid := s.db.oidc[(c.held.session, c.client)].id;
      assert Access(sid, c.held.session, c.client, c.held.user, c.scopes, step.at,
                    s.hist.families[c.held.family].code, false) in run.states[i + 1].hist.access;
    }
  }

  /** From the step that ends its session on, and until an authorization reopens it, UserInfo
      refuses the token and introspection calls it inactive, whoever asks. */
  lemma EndedSessionIsRefused(cfg: Config, run: Run, i: nat, j: nat, a: Access, reg: Registry,
                              verdict: Scope -> Verdict, t: TokenStatus.AccessToken, asker: Id,
                              answer: TokenStatus.Answer)
    requires ValidRun(cfg, run) && i < j < |run.states| && a in run.states[j].hist.access
    requires Ends(run.states[i], run.steps[i], a.session, a.client, a.user)
    requires forall k :: i < k < j ==> !Reopens(run.states[k], run.steps[k], a.session, a.client)
    requires t.sid == Some(a.sid) && t.user == a.user && t.client == a.client
    requires TokenStatus.Answers(cfg, reg, verdict, run.states[j].db, t, asker, answer)
    ensures !TokenStatus.UserInfoAccepts(cfg, reg, verdict, run.states[j].db, t)
    ensures answer == TokenStatus.Inactive
  {
    StaysDown(cfg, run, i, j, a.session, a.client, a.user);
    if TokenStatus.NamesLiveSession(run.states[j].db, t) {
      var db := run.states[j].db;
      var k :| k in db.oidc && t.sid == Some(db.oidc[k].id) && db.oidc[k].revokedAt == None
               && db.oidc[k].user == t.user && k.1 == t.client;
      NamedSession(cfg, run, j, a, k);
    }
  }

  /** And such an authorization does open it again, under the id that earlier tokens name. */
  lemma ReopenedIsNamed(cfg: Config, run: Run, i: nat, a: Access, t: TokenStatus.AccessToken)
    requires ValidRun(cfg, run) && i < |run.steps| && a in run.states[i].hist.access
    requires Reopens(run.states[i], run.steps[i], a.session, a.client)
    requires var key := (a.session, a.client);
      key in run.states[i].db.oidc && run.states[i].db.oidc[key].id == a.sid
    requires t.sid == Some(a.sid) && t.client == a.client
    requires run.states[i].calls[run.steps[i].call].p.user == t.user
    ensures TokenStatus.NamesLiveSession(run.states[i + 1].db, t)
  {
    var key, b := (a.session, a.client), run.states[i + 1].db;
    assert RunStep(cfg, run, i);
    assert key in b.oidc && b.oidc[key].id == a.sid && b.oidc[key].user == t.user;
  }
}
