/** The invariant survives the steps that park requests, sign browsers in, administer
    accounts and clients, withdraw grants and end sessions. */
module UpkeepOpening {
  import opened Prelude
  import opened Tables
  import opened Transactions
  import opened History
  import opened Machine
  import opened Invariants
  import opened Closing
  import opened UpkeepRecording
  import opened Growing
  import opened UpkeepClosing

  // --- Browser -------------------------------------------------------------

  /** A write that only adds a request or a browser session nobody has seen. */
  lemma OpenedInv(cfg: Config, s: State, db: Store, h: History)
    requires Inv(cfg, s) && HistoryOk(h) && Grows(s.hist, h) && h.families == s.hist.families
      && h.tokens == s.hist.tokens
    requires db == s.db.(requests := db.requests, sessions := db.sessions)
    requires SameRequests(s.db.requests, db.requests, s.hist.seen)
    requires Credentials(db, h)
    ensures Inv(cfg, s.(db := db, hist := h))
  {
    RestSurvives(cfg, s.db, db, s.calls, s.hist, s.review);
    GrownTimes(cfg, db, s.hist, h);
    GrownCalls(s.calls, db, s.hist, h, s.review);
  }

  lemma ParkRequestKeeps(cfg: Config, s: State, s': State, r: Id, row: Request)
    requires Inv(cfg, s) && ParkRequestStep(cfg, s, s', r, row)
    ensures Inv(cfg, s')
  {
    SeenJoins(s.hist, {r});
    GrownCredentials(s.db, s.hist, s'.hist);
    OpenedInv(cfg, s, s'.db, s'.hist);
  }

  lemma SignInJoins(h: History, session: Id, user: Option<Id>)
    requires HistoryOk(h) && session !in h.seen
    ensures var h' :=
      h.(seen := h.seen + {session}, owner := if user.Some? then h.owner[session := user.value] else h.owner);
            HistoryOk(h') && Grows(h, h')
  {
    SeenJoins(h, {session});
    if user.Some? { OwnerJoins(h.(seen := h.seen + {session}), session, user.value); }
  }

  lemma SignInCredentials(db: Store, h: History, session: Id, row: Session)
    requires Credentials(db, h) && session in h.seen
    requires row.user.Some? ==> session in h.owner && h.owner[session] == row.user.value
    ensures Credentials(db.(sessions := db.sessions[session := row]), h)
  {
  }

  lemma SignInKeeps(cfg: Config, s: State, s': State, session: Id, row: Session)
    requires Inv(cfg, s) && SignInStep(s, s', session, row)
    ensures Inv(cfg, s')
  {
    SignInJoins(s.hist, session, row.user);
    GrownCredentials(s.db, s.hist, s'.hist);
    SignInCredentials(s.db, s'.hist, session, row);
    OpenedInv(cfg, s, s'.db, s'.hist);
  }

  lemma TouchSessionKeeps(cfg: Config, s: State, s': State, session: Id, expiresAt: Time)
    requires Inv(cfg, s) && TouchSessionStep(s, s', session, expiresAt)
    ensures Inv(cfg, s')
  {
    RestSurvives(cfg, s.db, s'.db, s.calls, s.hist, s.review);
  }

  // --- Accounts ------------------------------------------------------------

  lemma UserStanding(a: Store, user: Id, row: User, review: Review)
    requires Standing(a, review) && (row.status.UserDisabled? ==> NothingLive(a, user))
    ensures Standing(a.(users := a.users[user := row]), review)
  {
    var b := a.(users := a.users[user := row]);
    forall u | u in b.users && b.users[u].status.UserDisabled? ensures NothingLive(b, u) { assert NothingLive(a, u); }
    forall c | Sealed(review, c)
      ensures NotApproved(b.clients, c) && NoLiveRefresh(b.refresh, c) && NoLiveOidc(b.oidc, c) {}
  }

  /** Writing an account is safe unless it writes DISABLED over live credentials. */
  lemma UserInv(cfg: Config, s: State, user: Id, row: User)
    requires Inv(cfg, s) && (row.status.UserDisabled? ==> NothingLive(s.db, user))
    ensures Inv(cfg, s.(db := s.db.(users := s.db.users[user := row])))
  {
    var db := s.db.(users := s.db.users[user := row]);
    UserStanding(s.db, user, row, s.review);
    SameRows(cfg, s.db, db, s.hist);
    SameClientCalls(s.calls, s.db, db, s.hist, s.review);
  }

  lemma PutUserKeeps(cfg: Config, s: State, s': State, user: Id, row: User)
    requires Inv(cfg, s) && PutUserStep(s, s', user, row)
    ensures Inv(cfg, s')
  {
    if row.status.UserDisabled? { assert NothingLive(s.db, user); }
    UserInv(cfg, s, user, row);
  }

  lemma WriteStatusKeeps(cfg: Config, s: State, s': State, call: Id)
    requires Inv(cfg, s) && WriteStatusStep(s, s', call)
    ensures Inv(cfg, s')
  {
    var c := s.calls[call];
    assert CallOk(c, s.db, s.hist, s.review);
    UserInv(cfg, s, c.user, s.db.users[c.user].(status := c.status));
    DoneInv(cfg, s.(db := s'.db), call);
  }

  lemma ReadStatusKeeps(cfg: Config, s: State, s': State, call: Id, user: Id)
    requires Inv(cfg, s) && ReadStatusStep(s, s', call, user)
    ensures Inv(cfg, s')
  {
    StartInv(cfg, s, call, s'.calls[call]);
  }

  lemma PromotedKeeps(cfg: Config, s: State, user: Id)
    requires Inv(cfg, s) && user in s.db.users
    ensures Inv(cfg, s.(db := PromotedUser(s.db, user)))
  {
    if s.db.users[user].status.UserPending? { UserInv(cfg, s, user, s.db.users[user].(status := UserActive)); }
  }

  lemma ResetPasswordKeeps(cfg: Config, s: State, s': State, user: Id, at: Time)
    requires Inv(cfg, s) && ResetPasswordStep(s, s', user, at)
    ensures Inv(cfg, s')
  {
    PromotedKeeps(cfg, s, user);
    RevokeAllKeeps(cfg, s.(db := PromotedUser(s.db, user)), user, at);
  }

  /** Disabling writes the status first, but both writes are one commit: revoking first and
      writing the status afterwards gives the same tables. */
  lemma SetAccountStatusKeeps(cfg: Config, s: State, user: Id, status: UserStatus, at: Time)
    requires Inv(cfg, s) && user in s.db.users
    ensures Inv(cfg, s.(db := SetUserStatus(s.db, user, status, at)))
  {
    var row := s.db.users[user].(status := status);
    if status.UserDisabled? {
      var mid := s.(db := RevokeAll(s.db, user, at));
      RevokeAllKeeps(cfg, s, user, at);
      RevokeAllCloses(s.db, user, at);
      UserInv(cfg, mid, user, row);
      RevokeAllIgnoresUsers(s.db, s.db.users[user := row], user, at);
    } else {
      UserInv(cfg, s, user, row);
    }
  }

  lemma RevokeAllIgnoresUsers(db: Store, users: map<Id, User>, user: Id, at: Time)
    ensures RevokeAll(db.(users := users), user, at) == RevokeAll(db, user, at).(users := users)
  {
    var other := db.(users := users);
    assert UserSessions(other, user) == UserSessions(db, user);
    assert UserRefresh(other, user) == UserRefresh(db, user);
    assert UserCodes(other, user) == UserCodes(db, user);
    assert UserOidc(other, user) == UserOidc(db, user);
  }

  // --- Clients -------------------------------------------------------------

  lemma ClientStanding(a: Store, client: Id, row: Client, review: Review)
    requires Standing(a, review)
    ensures Standing(a.(clients := a.clients[client := row]), Reviewed(review, client, row.status))
  {
    var b := a.(clients := a.clients[client := row]);
    var after := Reviewed(review, client, row.status);
    forall u | u in b.users && b.users[u].status.UserDisabled? ensures NothingLive(b, u) { assert NothingLive(a, u); }
    forall c | Sealed(after, c)
      ensures NotApproved(b.clients, c) && NoLiveRefresh(b.refresh, c) && NoLiveOidc(b.oidc, c)
    {
      assert Sealed(review, c);
    }
  }

  lemma ClientCalls(calls: map<Id, Call>, a: Store, client: Id, row: Client, h: History, review: Review)
    requires CallsOk(calls, a, h, review)
    ensures CallsOk(calls, a.(clients := a.clients[client := row]), h, Reviewed(review, client, row.status))
  {
    forall i | i in calls
      ensures CallOk(calls[i], a.(clients := a.clients[client := row]), h, Reviewed(review, client, row.status))
    {
      assert CallOk(calls[i], a, h, review);
    }
  }

  /** Writing a client either approves it, which opens a new epoch, or leaves it shut if it was. */
  lemma ClientInv(cfg: Config, s: State, client: Id, row: Client)
    requires Inv(cfg, s)
    ensures Inv(cfg,
        s.(db := s.db.(clients := s.db.clients[client := row]), review := Reviewed(s.review, client, row.status)))
  {
    ClientStanding(s.db, client, row, s.review);
    SameRows(cfg, s.db, s.db.(clients := s.db.clients[client := row]), s.hist);
    ClientCalls(s.calls, s.db, client, row, s.hist, s.review);
  }

  lemma PutClientKeeps(cfg: Config, s: State, s': State, client: Id, row: Client)
    requires Inv(cfg, s) && PutClientStep(s, s', client, row)
    ensures Inv(cfg, s')
  {
    ClientInv(cfg, s, client, row);
  }

  lemma SetClientStatusKeeps(cfg: Config, s: State, s': State, call: Id, client: Id, status: ClientStatus)
    requires Inv(cfg, s) && SetClientStatusStep(s, s', call, client, status)
    ensures Inv(cfg, s')
  {
    var row := s.db.clients[client].(status := status);
    ClientInv(cfg, s, client, row);
    if status.ClientDisabled? || status.ClientRejected? {
      StartInv(cfg, s.(db := s'.db, review := s'.review), call, s'.calls[call]);
    }
  }

  // --- Withdrawal, logout, removal -----------------------------------------

  /** Notices queued for the live sessions among `keys` are counted by the event that tells them. */
  lemma NoticesCounted(db: Store, h: History, keys: set<(Id, Id)>, e: Event)
    requires OutboxTable(db.outbox, h) && OidcTable(db.oidc, h)
    requires (e.Withdrawn? || e.SessionEnded?) && e.told == ToldBy(db, keys)
    ensures OutboxTable(db.outbox + multiset(NoticesFor(db, keys)), Record(h, e))
  {
    var h' := Record(h, e);
    var notices := NoticesFor(db, keys);
    var outbox := db.outbox + multiset(notices);
    forall sid ensures Told(h'.log, sid) > 0 ==> sid in h'.sids {
      ToldAppend(h.log, e, sid);
      assert Told(h.log, sid) > 0 ==> sid in h.sids;
      if sid in e.told { ToldPublished(db, h, keys, sid); }
    }
    forall n: Notice ensures outbox[n] == if OwedNotice(h', n) then Told(h'.log, n.sid) else 0 {
      ToldAppend(h.log, e, n.sid);
      assert db.outbox[n] == if OwedNotice(h, n) then Told(h.log, n.sid) else 0;
      NoticeOwed(db, h, keys, n);
    }
  }

  lemma ToldPublished(db: Store, h: History, keys: set<(Id, Id)>, sid: Id)
    requires OidcTable(db.oidc, h) && sid in ToldBy(db, keys)
    ensures sid in h.sids
  {
  }

  /** A notice is queued exactly when its session is told and it is the notice that session owes. */
  lemma NoticeOwed(db: Store, h: History, keys: set<(Id, Id)>, n: Notice)
    requires OidcTable(db.oidc, h)
    ensures n in NoticesFor(db, keys) <==> n.sid in ToldBy(db, keys) && OwedNotice(h, n)
  {
    if n in NoticesFor(db, keys) {
      assert n.sid in ToldBy(db, keys);
    }
    if n.sid in ToldBy(db, keys) && OwedNotice(h, n) {
      var m :| m in NoticesFor(db, keys) && m.sid == n.sid;
      assert OwedNotice(h, m);
      assert m == n;
    }
  }

  lemma WithdrawnGrants(db: Store, h: History, user: Id, client: Id, at: Time, e: Event)
    requires GrantTable(db.grants, h) && Withdrawable(db, user, client) && Withdraws(e, user, client)
    ensures GrantTable(Withdraw(db, user, client, at).grants, Record(h, e))
  {
    var grants := Withdraw(db, user, client, at).grants;
    forall u, c ensures Approved(Record(h, e).log, u, c) == LiveScopes(grants, u, c) {
      ApprovedAppend(h.log, e, u, c);
      assert Approved(h.log, u, c) == LiveScopes(db.grants, u, c);
    }
  }

  lemma WithdrawShows(db: Store, h: History, user: Id, client: Id, at: Time, e: Event)
    requires Withdrawable(db, user, client) && Withdraws(e, user, client)
    ensures Shown(Withdraw(db, user, client, at), h, e)
  {
    var after := Withdraw(db, user, client, at);
    RevokingCloses(db.refresh, PairRefresh(db, user, client), at);
    SpendingCloses(db.codes, PairCodes(db, user, client), at);
    forall t | t in after.refresh && after.refresh[t].user == user && after.refresh[t].client == client
      ensures after.refresh[t].revokedAt.Some? { assert t in PairRefresh(db, user, client); }
    forall c | c in after.codes && after.codes[c].user == user && after.codes[c].client == client
      ensures after.codes[c].usedAt.Some? { assert c in PairCodes(db, user, client); }
  }

  lemma WithdrawGrantKeeps(cfg: Config, s: State, s': State, user: Id, client: Id, at: Time)
    requires Inv(cfg, s) && WithdrawGrantStep(s, s', user, client, at)
    ensures Inv(cfg, s')
  {
    var e := Withdrawn(user, client, ToldBy(s.db, PairOidc(s.db, user, client)));
    WithdrawCloses(s.db, user, client, at);
    ClosedInv(cfg, s, s'.db.(grants := s.db.grants, outbox := s.db.outbox));
    RestSurvives(cfg, s'.db.(grants := s.db.grants, outbox := s.db.outbox), s'.db, s.calls, s.hist, s.review);
    WithdrawnGrants(s.db, s.hist, user, client, at, e);
    NoticesCounted(s.db, s.hist, PairOidc(s.db, user, client), e);
    WithdrawShows(s.db, s.hist, user, client, at, e);
    RecordedRest(cfg, s.(db := s'.db), e);
  }

  lemma EndSessionKeeps(cfg: Config, s: State, s': State, session: Id, user: Id, at: Time)
    requires Inv(cfg, s) && EndSessionStep(s, s', session, user, at)
    ensures Inv(cfg, s')
  {
    var e := SessionEnded(session, ToldBy(s.db, SessionUserOidc(s.db, session, user)));
    EndBrowserSessionCloses(s.db, session, user, at);
    ClosedInv(cfg, s, s'.db.(outbox := s.db.outbox));
    RestSurvives(cfg, s'.db.(outbox := s.db.outbox), s'.db, s.calls, s.hist, s.review);
    RecordedGrants(s.db.grants, s.hist, e);
    NoticesCounted(s.db, s.hist, SessionUserOidc(s.db, session, user), e);
    RecordedRest(cfg, s.(db := s'.db), e);
  }

  lemma RemovedGrants(db: Store, h: History, client: Id)
    requires GrantTable(db.grants, h)
    ensures GrantTable(RemoveClient(db, client).grants, Record(h, ClientRemoved(client)))
  {
    forall u, c
      ensures Approved(Record(h, ClientRemoved(client)).log, u, c) == LiveScopes(RemoveClient(db, client).grants, u, c)
    {
      ApprovedAppend(h.log, ClientRemoved(client), u, c);
      assert Approved(h.log, u, c) == LiveScopes(db.grants, u, c);
    }
  }

  lemma DeleteClientKeeps(cfg: Config, s: State, s': State, client: Id)
    requires Inv(cfg, s) && DeleteClientStep(s, s', client)
    ensures Inv(cfg, s')
  {
    var e := ClientRemoved(client);
    RemoveClientCloses(s.db, client);
    ClosedTables(s.db, s'.db, s.hist);
    ClosedStanding(s.db, s'.db, s.review);
    ClosedStamps(cfg, s.db, s'.db, s.hist);
    ClosedCalls(s.calls, s.db, s'.db, s.hist, s.review);
    RemovedGrants(s.db, s.hist, client);
    RecordedOutbox(s.db.outbox, s.hist, e);
    RecordedRest(cfg, s.(db := s'.db), e);
  }
}
