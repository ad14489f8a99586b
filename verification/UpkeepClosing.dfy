/** The invariant survives every step that reads, revokes, consumes or prunes. */
module UpkeepClosing {
  import opened Prelude
  import opened Tables
  import opened Transactions
  import opened History
  import opened Machine
  import opened Invariants
  import opened Closing
  import opened UpkeepRecording

  // --- In-flight requests --------------------------------------------------

  lemma DoneInv(cfg: Config, s: State, call: Id)
    requires Inv(cfg, s)
    ensures Inv(cfg, Done(s, call))
  {
    forall i | i in Done(s, call).calls ensures CallOk(Done(s, call).calls[i], s.db, s.hist, s.review) {
      assert CallOk(s.calls[i], s.db, s.hist, s.review);
    }
  }

  lemma StartInv(cfg: Config, s: State, call: Id, c: Call)
    requires Inv(cfg, s) && CallOk(c, s.db, s.hist, s.review)
    ensures Inv(cfg, Start(s, call, c))
  {
    forall i | i in Start(s, call, c).calls ensures CallOk(Start(s, call, c).calls[i], s.db, s.hist, s.review) {
      if i != call { assert CallOk(s.calls[i], s.db, s.hist, s.review); }
    }
  }

  /** A step whose only effect on the tables is to close things, with grants and outbox as they were. */
  lemma ClosedInv(cfg: Config, s: State, db: Store)
    requires Inv(cfg, s) && Closes(s.db, db)
    requires db.clients == s.db.clients && db.users == s.db.users && db.grants == s.db.grants
      && db.outbox == s.db.outbox
    ensures Inv(cfg, s.(db := db))
  {
    ClosedTables(s.db, db, s.hist);
    ClosedOwners(s.db, db);
    ClosedStanding(s.db, db, s.review);
    ClosedStamps(cfg, s.db, db, s.hist);
    ClosedCalls(s.calls, s.db, db, s.hist, s.review);
  }

  // --- Reads ---------------------------------------------------------------

  lemma LoadCompletionKeeps(cfg: Config, s: State, s': State, call: Id, p: Completion)
    requires Inv(cfg, s) && LoadCompletionStep(s, s', call, p)
    ensures Inv(cfg, s')
  {
    StartInv(cfg, s, call, Completing(p, s.now));
  }

  lemma ReadCodeKeeps(cfg: Config, s: State, s': State, call: Id, code: Id, client: Id, verifier: Verifier)
    requires Inv(cfg, s) && ReadCodeStep(s, s', call, code, client, verifier)
    ensures Inv(cfg, s')
  {
    assert CodeRowOk(s.db.codes[code], code, s.hist);
    StartInv(cfg, s, call, s'.calls[call]);
  }

  lemma ReadRefreshKeeps(cfg: Config, s: State, s': State, call: Id, token: Id, client: Id,
                         requested: Option<set<Scope>>)
    requires Inv(cfg, s) && ReadRefreshStep(cfg, s, s', call, token, client, requested)
    ensures Inv(cfg, s')
  {
    assert RefreshRowOk(s.db.refresh[token], token, s.hist);
    StartInv(cfg, s, call, s'.calls[call]);
  }

  lemma RevokeByTokenKeeps(cfg: Config, s: State, s': State, call: Id, token: Id, client: Id)
    requires Inv(cfg, s) && RevokeByTokenStep(s, s', call, token, client)
    ensures Inv(cfg, s')
  {
    assert RefreshRowOk(s.db.refresh[token], token, s.hist);
    StartInv(cfg, s, call, s'.calls[call]);
  }

  lemma LoseRedeemKeeps(cfg: Config, s: State, s': State, call: Id, at: Time)
    requires Inv(cfg, s) && LoseRedeemStep(cfg, s, s', call, at)
    ensures Inv(cfg, s')
  {
    assert CallOk(s.calls[call], s.db, s.hist, s.review);
    StartInv(cfg, s, call, s'.calls[call]);
  }

  lemma LoseRefreshKeeps(cfg: Config, s: State, s': State, call: Id, at: Time)
    requires Inv(cfg, s) && LoseRefreshStep(cfg, s, s', call, at)
    ensures Inv(cfg, s')
  {
    assert CallOk(s.calls[call], s.db, s.hist, s.review);
    if call in s'.calls { StartInv(cfg, s, call, s'.calls[call]); } else { DoneInv(cfg, s, call); }
  }

  // --- Closing transactions without events ---------------------------------

  lemma BurnCodeKeeps(cfg: Config, s: State, s': State, call: Id, at: Time)
    requires Inv(cfg, s) && BurnCodeStep(s, s', call, at)
    ensures Inv(cfg, s')
  {
    SpendingCloses(s.db.codes, {s.calls[call].code}, at);
    ClosedInv(cfg, s, s'.db);
    DoneInv(cfg, s.(db := s'.db), call);
  }

  lemma RevokeAllKeeps(cfg: Config, s: State, user: Id, at: Time)
    requires Inv(cfg, s)
    ensures Inv(cfg, s.(db := RevokeAll(s.db, user, at)))
  {
    RevokeAllCloses(s.db, user, at);
    ClosedInv(cfg, s, RevokeAll(s.db, user, at));
  }

  /** Background deletion closes, and touches nothing that deletion could not touch. */
  lemma SweepCloses(cfg: Config, s: State, step: Step, s': State)
    requires SweepNext(cfg, s, step, s')
    ensures Closes(s.db, s'.db) && s' == s.(db := s'.db)
    ensures s'.db.clients == s.db.clients && s'.db.users == s.db.users
    ensures s'.db.grants == s.db.grants && s'.db.outbox == s.db.outbox
  {
    match step
    case DropSession(session) => DroppedCloses(s.db, session);
    case SweepRequests(cutoff) => PruneRequestsCloses(s.db, cutoff);
    case SweepCodes(cutoff) => PruneCodesCloses(cfg, s.db, cutoff);
    case SweepRefresh(cutoff) => PruneRefreshCloses(s.db, cutoff);
    case SweepOidc(keys, cutoff) => PruneOidcCloses(cfg, s.db, keys, cutoff);
  }

  lemma ShutRefreshShuts(db: Store, client: Id, at: Time)
    ensures NoLiveRefresh(RevokeRefresh(db.refresh, ClientRefresh(db, client), at), client)
  {
    var after := RevokeRefresh(db.refresh, ClientRefresh(db, client), at);
    RevokingCloses(db.refresh, ClientRefresh(db, client), at);
    forall t | t in after && after[t].client == client ensures after[t].revokedAt.Some? {
      assert t in ClientRefresh(db, client);
    }
  }

  lemma ShutRefreshKeeps(cfg: Config, s: State, s': State, call: Id, at: Time)
    requires Inv(cfg, s) && ShutRefreshStep(s, s', call, at)
    ensures Inv(cfg, s')
  {
    var c := s.calls[call];
    RevokingCloses(s.db.refresh, ClientRefresh(s.db, c.client), at);
    ClosedInv(cfg, s, s'.db);
    assert CallOk(c, s.db, s.hist, s.review);
    ShutRefreshShuts(s.db, c.client, at);
    StartInv(cfg, s.(db := s'.db), call, s'.calls[call]);
    assert s' == Start(s.(db := s'.db), call, s'.calls[call]);
  }

  lemma ShutOidcShuts(db: Store, client: Id, at: Time)
    ensures NoLiveOidc(EndOidc(db.oidc, ClientOidc(db, client), at), client)
  {
    var after := EndOidc(db.oidc, ClientOidc(db, client), at);
    EndingCloses(db.oidc, ClientOidc(db, client), at);
    forall k | k in after && k.1 == client ensures after[k].revokedAt.Some? { assert k in ClientOidc(db, client); }
  }

  lemma ShutOidcKeeps(cfg: Config, s: State, s': State, call: Id, at: Time)
    requires Inv(cfg, s) && ShutOidcStep(s, s', call, at)
    ensures Inv(cfg, s')
  {
    var c := s.calls[call];
    assert CallOk(c, s.db, s.hist, s.review);
    EndingCloses(s.db.oidc, ClientOidc(s.db, c.client), at);
    ShutOidcShuts(s.db, c.client, at);
    var mid := s.(db := s'.db);
    ClosedInv(cfg, s, s'.db);
    SealKeeps(cfg, mid, c);
    DoneInv(cfg, mid.(review := SealedAt(s.review, c)), call);
    assert s' == Done(mid.(review := SealedAt(s.review, c)), call);
  }

  lemma SealStanding(db: Store, review: Review, c: Call)
    requires Standing(db, review) && c.ShuttingClient? && c.epoch <= Epoch(review, c.client)
    requires c.epoch == Epoch(review, c.client) ==>
      NotApproved(db.clients, c.client) && NoLiveRefresh(db.refresh, c.client) && NoLiveOidc(db.oidc, c.client)
    ensures Standing(db, SealedAt(review, c))
  {
    forall x | Sealed(SealedAt(review, c), x)
      ensures NotApproved(db.clients, x) && NoLiveRefresh(db.refresh, x) && NoLiveOidc(db.oidc, x)
    {
      if x != c.client || SealedAt(review, c) == review { assert Sealed(review, x); }
    }
  }

  lemma SealCalls(calls: map<Id, Call>, db: Store, h: History, review: Review, c: Call)
    requires CallsOk(calls, db, h, review) && c.ShuttingClient?
    ensures CallsOk(calls, db, h, SealedAt(review, c))
  {
    forall i | i in calls ensures CallOk(calls[i], db, h, SealedAt(review, c)) {
      assert CallOk(calls[i], db, h, review);
    }
  }

  /** Noting that a client was shut at `epoch` is sound once nothing of it is live, unless it
      has been approved since. */
  lemma SealKeeps(cfg: Config, s: State, c: Call)
    requires Inv(cfg, s) && c.ShuttingClient? && c.epoch <= Epoch(s.review, c.client)
    requires c.epoch == Epoch(s.review, c.client) ==>
      NotApproved(s.db.clients, c.client) && NoLiveRefresh(s.db.refresh, c.client) && NoLiveOidc(s.db.oidc, c.client)
    ensures Inv(cfg, s.(review := SealedAt(s.review, c)))
  {
    SealStanding(s.db, s.review, c);
    SealCalls(s.calls, s.db, s.hist, s.review, c);
  }

  // --- Closing transactions with events ------------------------------------

  lemma CommitDenialKeeps(cfg: Config, s: State, s': State, call: Id, at: Time)
    requires Inv(cfg, s) && CommitDenialStep(s, s', call, at)
    ensures Inv(cfg, s')
  {
    var r := s.calls[call].request;
    ConsumedCloses(s.db, r, at);
    ClosedInv(cfg, s, s'.db);
    var mid := s.(db := s'.db);
    RecordedQuiet(cfg, mid, Denied(r));
    DoneInv(cfg, mid.(hist := s'.hist), call);
    assert s' == Done(mid.(hist := s'.hist), call);
  }

  lemma RevokingFamilyShuts(db: Store, h: History, family: Id, client: Id, user: Id, at: Time)
    requires RefreshTable(db.refresh, h) && OwnersExist(db) && FamiliesOk(h)
    requires family in h.families && h.families[family].code in h.codes
    requires h.codes[h.families[family].code].client == client && h.codes[h.families[family].code].user == user
    ensures FamilyShut(RevokeFamily(db, family, client, user, at).refresh, family)
  {
    forall t | t in FamilyRows(db, family) ensures client in db.clients && user in db.users { MemberOwned(db, h, t); }
    RevokingCloses(db.refresh, FamilyRows(db, family), at);
    var after := RevokeFamily(db, family, client, user, at).refresh;
    forall t | t in after && after[t].family == family ensures after[t].revokedAt.Some? {
      assert t in FamilyRows(db, family);
    }
  }

  lemma CommitFamilyKeeps(cfg: Config, s: State, s': State, call: Id, at: Time)
    requires Inv(cfg, s) && CommitFamilyStep(s, s', call, at)
    ensures Inv(cfg, s')
  {
    var c := s.calls[call];
    assert CallOk(c, s.db, s.hist, s.review);
    RevokeFamilyCloses(s.db, c.family, c.client, c.user, at);
    ClosedInv(cfg, s, s'.db);
    var mid := s.(db := s'.db);
    RevokingFamilyShuts(s.db, s.hist, c.family, c.client, c.user, at);
    RecordedQuiet(cfg, mid, FamilyRevoked(c.family));
    DoneInv(cfg, mid.(hist := s'.hist), call);
    assert s' == Done(mid.(hist := s'.hist), call);
  }

  lemma FindFamilyKeeps(cfg: Config, s: State, s': State, call: Id, found: Option<Id>)
    requires Inv(cfg, s) && FindFamilyStep(s, s', call, found)
    ensures Inv(cfg, s')
  {
    var c := s.calls[call];
    assert CallOk(c, s.db, s.hist, s.review);
    match found
    case Some(t) =>
      assert RefreshRowOk(s.db.refresh[t], t, s.hist);
      assert TokenOk(s.hist, t);
      RowDescends(s.db.refresh[t], t, s.hist);
      StartInv(cfg, s, call, s'.calls[call]);
    case None =>
      assert FamilyShut(s.db.refresh, c.family) by {
        forall t | t in s.db.refresh ensures s.db.refresh[t].family != c.family {
          assert t !in FamilyRows(s.db, c.family);
        }
      }
      RecordedQuiet(cfg, s, FamilyRevoked(c.family));
      DoneInv(cfg, s.(hist := s'.hist), call);
      assert s' == Done(s.(hist := s'.hist), call);
  }

  lemma ContainKeeps(cfg: Config, s: State, s': State, call: Id, at: Time)
    requires Inv(cfg, s) && ContainStep(s, s', call, at)
    ensures Inv(cfg, s')
  {
    var c := s.calls[call];
    assert CallOk(c, s.db, s.hist, s.review);
    RevokeForSessionCloses(s.db, c.row.session, c.row.client, c.row.user, at);
    ClosedInv(cfg, s, s'.db);
    var mid := s.(db := s'.db);
    CodeFamilyRevoked(s.db, s.hist, c.code, c.row, at);
    RecordedQuiet(cfg, mid, CodeReplayRefused(c.code));
    DoneInv(cfg, mid.(hist := s'.hist), call);
    assert s' == Done(mid.(hist := s'.hist), call);
  }
}
