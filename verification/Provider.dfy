/** The provider over its tables, statement by statement. Each method is one transaction: it
    either leaves the tables as the transaction function says, or as it found them. */
module Provider {
  import opened Prelude
  import opened Tables
  import opened Transactions
  import opened Answers

  /** A transaction that was refused was rolled back. */
  ghost predicate Follows(outcome: Outcome, before: Store, refusal: Option<Refusal>, after: Store) {
    match outcome
    case Committed(db) => refusal.None? && after == db
    case Refused(why) => refusal == Some(why) && after == before
  }

  /** The outbox has gained the notices owed for `done`, `notified` of them. */
  ghost predicate Queued(db: Store, done: set<(Id, Id)>, before: multiset<Notice>, outbox: multiset<Notice>,
                         notified: nat) {
    var gained := outbox == before + multiset(NoticesFor(db, done));
    var counted := notified == |NoticesFor(db, done)|;
    gained && counted
  }

  lemma QueuedNothing(db: Store, outbox: multiset<Notice>)
    ensures Queued(db, {}, outbox, outbox, 0)
  {
    assert NoticesFor(db, {}) == {};
  }

  /** Notices accumulate one key at a time, and never twice for one key. */
  lemma QueuedOne(db: Store, done: set<(Id, Id)>, k: (Id, Id), before: multiset<Notice>, outbox: multiset<Notice>,
                  notified: nat)
    requires UniqueSids(db.oidc) && k !in done && k in db.oidc && db.oidc[k].revokedAt.None?
    requires Queued(db, done, before, outbox, notified)
    ensures var n := Notice(k.1, db.oidc[k].id, db.oidc[k].user);
      if k.1 in db.clients && db.clients[k.1].logoutEndpoint
      then Queued(db, done + {k}, before, outbox + multiset{n}, notified + 1)
      else Queued(db, done + {k}, before, outbox, notified)
  {
    var n := Notice(k.1, db.oidc[k].id, db.oidc[k].user);
    if k.1 in db.clients && db.clients[k.1].logoutEndpoint {
      forall j | j in done && j in db.oidc ensures db.oidc[j].id != n.sid {
        assert !SameSid(db.oidc, j, k);
      }
      assert NoticesFor(db, done + {k}) == NoticesFor(db, done) + {n};
    } else {
      assert NoticesFor(db, done + {k}) == NoticesFor(db, done);
    }
  }

  /** Selecting only live rows selects the same notices and the same rows to end. */
  lemma LiveOnly(db: Store, keys: set<(Id, Id)>, live: set<(Id, Id)>, at: Time)
    requires forall k :: k in live <==> k in keys && k in db.oidc && db.oidc[k].revokedAt.None?
    ensures NoticesFor(db, live) == NoticesFor(db, keys)
    ensures EndOidc(db.oidc, live, at) == EndOidc(db.oidc, keys, at)
  {
  }

  lemma SameOidc(a: Store, b: Store, user: Id, client: Id, session: Id)
    requires a.oidc == b.oidc && a.clients == b.clients
    ensures PairOidc(a, user, client) == PairOidc(b, user, client)
    ensures SessionUserOidc(a, session, user) == SessionUserOidc(b, session, user)
    ensures NoticesFor(a, PairOidc(b, user, client)) == NoticesFor(b, PairOidc(b, user, client))
    ensures NoticesFor(a, SessionUserOidc(b, session, user)) == NoticesFor(b, SessionUserOidc(b, session, user))
  {
  }

  lemma SamePair(a: Store, b: Store, user: Id, client: Id)
    requires a.refresh == b.refresh && a.codes == b.codes
    ensures PairRefresh(a, user, client) == PairRefresh(b, user, client)
    ensures PairCodes(a, user, client) == PairCodes(b, user, client)
  {
  }

  predicate Same<K, V(==)>(a: map<K, V>, b: map<K, V>, k: K) {
    (k in a <==> k in b) && (k in a ==> b[k] == a[k])
  }

  /** A live grant holds the scope. */
  predicate HeldLive(grants: map<(Id, Id), Grant>, user: Id, client: Id, scope: Scope) {
    && (user, client) in grants && grants[(user, client)].revokedAt == None
    && scope in grants[(user, client)].scopes
  }

  /** The row is still there, and at most its revocation mark is new. */
  predicate OnlyRevoked(a: map<Id, Refresh>, b: map<Id, Refresh>, t: Id)
    requires t in a
  {
    && t in b && b[t].(revokedAt := None) == a[t].(revokedAt := None)
    && (a[t].revokedAt.Some? ==> b[t].revokedAt == a[t].revokedAt)
  }

  /** A code that has been used, not longer ago than a token it gave rise to can live. */
  predicate DetectsReplay(cfg: Config, codes: map<Id, Code>, c: Id, cutoff: Time) {
    c in codes && codes[c].usedAt.Some? && cutoff <= codes[c].usedAt.value + Retention(cfg)
  }

  /** Nothing of any other user's has changed, and no row has joined or left the credentials. */
  ghost predicate OthersKept(a: Store, b: Store, user: Id) {
    var keys := a.refresh.Keys == b.refresh.Keys && a.codes.Keys == b.codes.Keys && a.oidc.Keys == b.oidc.Keys;
    var refresh := forall t :: t in a.refresh && a.refresh[t].user != user ==> Same(a.refresh, b.refresh, t);
    var codes := forall c :: c in a.codes && a.codes[c].user != user ==> Same(a.codes, b.codes, c);
    var oidc := forall k :: k in a.oidc && a.oidc[k].user != user ==> Same(a.oidc, b.oidc, k);
    var sessions := forall s :: s in a.sessions && a.sessions[s].user != Some(user) ==> Same(a.sessions, b.sessions, s);
    keys && refresh && codes && oidc && sessions
  }

  /** What is left of the pair: a withdrawn grant, and no credential that is not marked. */
  ghost predicate PairDead(db: Store, user: Id, client: Id) {
    var grant := (user, client) in db.grants && db.grants[(user, client)].revokedAt != None;
    var refresh := forall t :: t in db.refresh && db.refresh[t].user == user && db.refresh[t].client == client ==>
                     db.refresh[t].revokedAt != None;
    var codes := forall c :: c in db.codes && db.codes[c].user == user && db.codes[c].client == client ==>
                   db.codes[c].usedAt != None;
    var oidc := forall k :: k in db.oidc && db.oidc[k].user == user && k.1 == client ==> db.oidc[k].revokedAt != None;
    grant && refresh && codes && oidc
  }

  ghost predicate OtherPairsKept(a: Store, b: Store, user: Id, client: Id) {
    var keys := a.refresh.Keys == b.refresh.Keys && a.codes.Keys == b.codes.Keys && a.oidc.Keys == b.oidc.Keys;
    var refresh := forall t :: t in a.refresh && !(a.refresh[t].user == user && a.refresh[t].client == client) ==>
                     Same(a.refresh, b.refresh, t);
    var codes := forall c :: c in a.codes && !(a.codes[c].user == user && a.codes[c].client == client) ==>
                   Same(a.codes, b.codes, c);
    var oidc := forall k :: k in a.oidc && !(a.oidc[k].user == user && k.1 == client) ==> Same(a.oidc, b.oidc, k);
    keys && refresh && codes && oidc
  }

  lemma WithdrawSpares(db: Store, user: Id, client: Id, at: Time)
    requires Withdrawable(db, user, client)
    ensures OtherPairsKept(db, Withdraw(db, user, client, at), user, client)
  {
  }

  lemma WithdrawKills(db: Store, user: Id, client: Id, at: Time)
    requires Withdrawable(db, user, client)
    ensures PairDead(Withdraw(db, user, client, at), user, client)
  {
    var b := Withdraw(db, user, client, at);
    forall t | t in b.refresh && b.refresh[t].user == user && b.refresh[t].client == client
      ensures b.refresh[t].revokedAt != None
    {
      assert t in PairRefresh(db, user, client);
    }
    forall c | c in b.codes && b.codes[c].user == user && b.codes[c].client == client
      ensures b.codes[c].usedAt != None
    {
      assert c in PairCodes(db, user, client);
    }
    forall k | k in b.oidc && b.oidc[k].user == user && k.1 == client ensures b.oidc[k].revokedAt != None {
      assert k in PairOidc(db, user, client);
    }
  }

  lemma RevokeAllSpares(db: Store, user: Id, at: Time)
    ensures OthersKept(db, RevokeAll(db, user, at), user)
  {
  }

  /** The statements of a withdrawal, put together. */
  lemma WithdrawnTables(db: Store, mid: Store, after: Store, user: Id, client: Id, at: Time, notified: nat)
    requires Withdrawable(db, user, client)
    requires mid == db.(grants := mid.grants, refresh := mid.refresh, codes := mid.codes)
    requires var g := db.grants[(user, client)];
      mid.grants == db.grants[(user, client) := Grant(g.scopes, Some(at), g.version + 1)]
    requires mid.refresh == RevokeRefresh(db.refresh, PairRefresh(db, user, client), at)
    requires mid.codes == SpendCodes(db.codes, PairCodes(db, user, client), at)
    requires after == mid.(oidc := EndOidc(mid.oidc, PairOidc(mid, user, client), at), outbox := after.outbox)
    requires Queued(mid, PairOidc(mid, user, client), mid.outbox, after.outbox, notified)
    ensures after == Withdraw(db, user, client, at)
  {
    SameOidc(mid, db, user, client, 0);
  }

  lemma OneFewer(keys: set<(Id, Id)>, pending: set<(Id, Id)>, k: (Id, Id))
    requires k in pending && pending <= keys
    ensures keys - (pending - {k}) == (keys - pending) + {k}
  {
  }

  class Provider {
    const cfg: Config
    var clients: map<Id, Client>
    var users: map<Id, User>
    var grants: map<(Id, Id), Grant>
    var sessions: map<Id, Session>
    var requests: map<Id, Request>
    var codes: map<Id, Code>
    var refresh: map<Id, Refresh>
    var oidc: map<(Id, Id), Oidc>
    var outbox: multiset<Notice>

    constructor (cfg: Config)
      ensures this.cfg == cfg
      ensures Tables() == Store(map[], map[], map[], map[], map[], map[], map[], map[], multiset{})
    {
      this.cfg := cfg;
      clients, users, grants, sessions := map[], map[], map[], map[];
      requests, codes, refresh, oidc, outbox := map[], map[], map[], map[], multiset{};
    }

    function Tables(): Store
      reads this
    {
      Store(clients, users, grants, sessions, requests, codes, refresh, oidc, outbox)
    }

    // --- Authorization -----------------------------------------------------

    /** Under the grant's row lock the compare-and-swap succeeds at its first attempt. */
    method UpsertGrant(user: Id, client: Id, scopes: set<Scope>)
      modifies this`grants
      ensures grants == old(grants)[(user, client) := Widened(old(grants), (user, client), scopes)]
      ensures grants[(user, client)].revokedAt == None
      ensures forall s :: s in grants[(user, client)].scopes <==> s in scopes || HeldLive(old(grants), user, client, s)
      ensures grants[(user, client)].version ==
        if (user, client) in old(grants) then old(grants)[(user, client)].version + 1 else 1
      ensures forall k :: k != (user, client) ==> Same(old(grants), grants, k)
    {
      var merged, version := scopes, 1;
      if (user, client) in grants {
        var existing := grants[(user, client)];
        merged := (if existing.revokedAt.None? then existing.scopes else {}) + scopes;
        version := existing.version + 1;
      }
      grants := grants[(user, client) := Grant(merged, None, version)];
    }

    method IssueCode(p: Completion, at: Time, code: Id, sid: Id) returns (refusal: Option<Refusal>)
      modifies this
      ensures Follows(Transactions.IssueCode(cfg, old(Tables()), p, at, code, sid), old(Tables()), refusal, Tables())
    {
      if p.client !in clients { return Some(ClientIneligible); }
      var client := clients[p.client];
      if !client.status.ClientApproved? || !client.codeGrant { return Some(ClientIneligible); }
      if !(p.scopes <= client.scopes) || p.redirect !in client.redirects { return Some(ClientIneligible); }
      if p.user !in users || users[p.user].status.UserDisabled? { return Some(AccountUnavailable); }
      if !AllowedForUser(cfg, users[p.user], p.scopes) { return Some(AccountUnavailable); }

      var found := grants;
      if p.approved.Some? || !client.requireConsent { UpsertGrant(p.user, p.client, p.scopes); }
      if !GrantCovers(grants, p.user, p.client, p.scopes) {
        grants := found;
        return Some(GrantRevoked);
      }
      if p.session !in sessions || sessions[p.session].user != Some(p.user) || sessions[p.session].expiresAt <= at {
        grants := found;
        return Some(SessionGone);
      }
      if p.request !in requests || requests[p.request].consumedAt.Some? || requests[p.request].expiresAt <= at {
        grants := found;
        return Some(RequestSpent);
      }
      requests := requests[p.request := requests[p.request].(consumedAt := Some(at))];

      var key, authTime := (p.session, p.client), sessions[p.session].createdAt;
      if key in oidc {
        oidc := oidc[key := oidc[key].(user := p.user, authTime := authTime, lastSeenAt := at, revokedAt := None)];
      } else {
        oidc := oidc[key := Oidc(sid, p.user, authTime, at, None)];
      }
      codes := codes[code := Code(p.client, p.user, p.session, p.redirect, p.scopes, p.challenged,
                                  authTime, at + cfg.codeTtl, None)];
      return None;
    }

    /** The statements above, run as one transaction. */
    method CompleteAuthorization(p: Completion, at: Time, code: Id, sid: Id) returns (refusal: Option<Refusal>)
      modifies this
      ensures IssueCodeAnswers(cfg, old(Tables()), Tables(), p, at, code, sid, refusal)
    {
      IssueCodeAnswered(cfg, Tables(), p, at, code, sid);
      refusal := IssueCode(p, at, code, sid);
    }

    method DenyAuthorization(request: Id, at: Time) returns (denied: bool)
      modifies this`requests
      ensures denied == RequestClaimable(old(Tables()), request, at)
      ensures denied <==>
        request in old(requests) && old(requests)[request].consumedAt == None && at < old(requests)[request].expiresAt
      ensures if denied then RequestWritten(old(Tables()), Tables(), request, at) else requests == old(requests)
    {
      if request !in requests || requests[request].consumedAt.Some? || requests[request].expiresAt <= at {
        return false;
      }
      requests := requests[request := requests[request].(consumedAt := Some(at))];
      return true;
    }

    // --- Token endpoint ----------------------------------------------------

    method IssueTokens(i: Issue, at: Time, token: Id, mint: bool)
      requires i.client in clients && (i.session, i.client) in oidc
      modifies this`refresh, this`oidc
      ensures Tables() == Transactions.IssueTokens(cfg, old(Tables()), i, at, token, mint)
      ensures mint && WantsRefresh(clients[i.client], i.scopes) ==>
        token in refresh && refresh[token].scopes == i.scopes && refresh[token].user == i.user
      ensures mint && WantsRefresh(clients[i.client], i.scopes) ==>
        forall later :: RefreshClaimable(Tables(), token, later) <==> later < at + cfg.refreshTtl
      ensures forall t :: t != token || !mint ==> Same(old(refresh), refresh, t)
      ensures forall k :: k != (i.session, i.client) ==> Same(old(oidc), oidc, k)
      ensures RefreshDue(clients[i.client], i.scopes) <==> WantsRefresh(clients[i.client], i.scopes)
      ensures !(mint && RefreshDue(clients[i.client], i.scopes)) ==> refresh == old(refresh)
      ensures mint && RefreshDue(clients[i.client], i.scopes) ==>
        refresh.Keys == old(refresh).Keys + {token} && TokenColumns(refresh[token], i, at + cfg.refreshTtl)
      ensures oidc[(i.session, i.client)] == old(oidc)[(i.session, i.client)].(lastSeenAt := at)
      ensures OidcLive(Tables(), i.session, i.client) == OidcLive(old(Tables()), i.session, i.client)
    {
      var client := clients[i.client];
      var wantsRefresh := client.refreshGrant
        && (OFFLINE_ACCESS in i.scopes || (client.firstParty && OPENID !in i.scopes));
      if wantsRefresh && mint {
        refresh := refresh[token := Refresh(i.family, i.parent, i.client, i.user, i.session, i.scopes, i.authTime,
                                            at + cfg.refreshTtl, None, None)];
      }
      var key := (i.session, i.client);
      oidc := oidc[key := oidc[key].(lastSeenAt := at)];
    }

    /** `row` is the stale copy that the pre-read left. */
    method ExchangeCode(code: Id, row: Code, client: Id, verifier: Verifier, at: Time, token: Id, family: Id)
      returns (refusal: Option<Refusal>)
      modifies this
      ensures Follows(Redeem(cfg, old(Tables()), code, row, client, verifier, at, token, family), old(Tables()),
                      refusal, Tables())
      ensures RedeemAnswers(cfg, old(Tables()), Tables(), code, row, client, verifier, at, token, family, refusal)
      ensures CodeChecks(cfg, old(Tables()), row, client, verifier) ==>
        (refusal == Some(CodeReplayed) <==> code in old(codes) && old(codes)[code].usedAt != None)
    {
      RedeemAnswered(cfg, Tables(), code, row, client, verifier, at, token, family);
      if client !in clients { return Some(ClientIneligible); }
      var current := clients[client];
      if !current.status.ClientApproved? || !current.codeGrant || !(row.scopes <= current.scopes) {
        return Some(ClientIneligible);
      }
      if row.redirect !in current.redirects { return Some(ClientIneligible); }
      if !PkceHolds(row, verifier, current.requiresPkce) { return Some(PkceFailed); }
      if row.user !in users || users[row.user].status.UserDisabled? { return Some(AccountUnavailable); }
      if !AllowedForUser(cfg, users[row.user], row.scopes) { return Some(AccountUnavailable); }
      if !GrantCovers(grants, row.user, client, row.scopes) { return Some(GrantRevoked); }

      if code !in codes { return Some(CodeExpired); }
      if codes[code].usedAt.Some? { return Some(CodeReplayed); }
      if codes[code].expiresAt <= at { return Some(CodeExpired); }
      var found := codes;
      codes := codes[code := codes[code].(usedAt := Some(at))];

      var key := (row.session, client);
      if key !in oidc || oidc[key].revokedAt.Some? {
        codes := found;
        return Some(SessionGone);
      }
      IssueTokens(CodeIssue(row, client, family), at, token, true);
      return None;
    }

    method ExchangeRefresh(token: Id, row: Refresh, client: Id, scopes: set<Scope>, at: Time, minted: Id)
      returns (refusal: Option<Refusal>)
      modifies this
      ensures Follows(Transactions.ExchangeRefresh(cfg, old(Tables()), token, row, client, scopes, at, minted),
                      old(Tables()), refusal, Tables())
      ensures ExchangeAnswers(cfg, old(Tables()), Tables(), token, row, client, scopes, at, minted, refusal)
    {
      ExchangeAnswered(cfg, Tables(), token, row, client, scopes, at, minted);
      if client !in clients { return Some(ClientIneligible); }
      var current := clients[client];
      if !current.status.ClientApproved? || !current.refreshGrant || !(scopes <= current.scopes) {
        return Some(ClientIneligible);
      }
      if row.user !in users || users[row.user].status.UserDisabled? { return Some(AccountUnavailable); }
      if !AllowedForUser(cfg, users[row.user], scopes) { return Some(AccountUnavailable); }
      if !GrantCovers(grants, row.user, client, scopes) { return Some(GrantRevoked); }

      if token !in refresh || refresh[token].usedAt.Some? || refresh[token].revokedAt.Some?
        || refresh[token].expiresAt <= at {
        return Some(TokenUnclaimable);
      }
      var found := refresh;
      if cfg.rotate { refresh := refresh[token := refresh[token].(usedAt := Some(at))]; }

      var key := (row.session, client);
      if key !in oidc || oidc[key].revokedAt.Some? {
        refresh := found;
        return Some(SessionGone);
      }
      IssueTokens(RefreshIssue(row, token, client, scopes), at, minted, cfg.rotate);
      return None;
    }

    // --- Revocation --------------------------------------------------------

    method RevokeFamily(family: Id, client: Id, user: Id, at: Time)
      modifies this`refresh
      ensures Tables() == Transactions.RevokeFamily(old(Tables()), family, client, user, at)
      ensures client in clients && user in users ==> FamilyShut(refresh, family)
      ensures forall t :: t in old(refresh) && old(refresh)[t].family == family ==>
        OnlyRevoked(old(refresh), refresh, t)
      ensures forall t :: !(t in old(refresh) && old(refresh)[t].family == family) ==> Same(old(refresh), refresh, t)
    {
      if client !in clients { return; }
      if user !in users { return; }
      refresh := RevokeRefresh(refresh, FamilyRows(Tables(), family), at);
    }

    method RevokeTokensForSession(session: Id, client: Id, user: Id, at: Time)
      modifies this`refresh, this`oidc
      ensures Tables() == RevokeForSession(old(Tables()), session, client, user, at)
      ensures client in clients && user in users ==>
        && !OidcLive(Tables(), session, client)
        && forall t, later :: t in SessionClientRefresh(Tables(), session, client) ==>
             !RefreshClaimable(Tables(), t, later)
      ensures forall t :: t in SessionClientRefresh(old(Tables()), session, client) ==>
        OnlyRevoked(old(refresh), refresh, t)
      ensures forall t :: t !in SessionClientRefresh(old(Tables()), session, client) ==> Same(old(refresh), refresh, t)
      ensures forall k :: k != (session, client) ==> Same(old(oidc), oidc, k)
    {
      ghost var db := Tables();
      if client !in clients { return; }
      if user !in users { return; }
      refresh := RevokeRefresh(refresh, SessionClientRefresh(Tables(), session, client), at);
      oidc := EndOidc(oidc, {(session, client)}, at);
    }

    /** Queues a logout notice for one session, unless its client registered no endpoint. */
    method Enqueue(client: Id, sid: Id, user: Id) returns (queued: bool)
      modifies this`outbox
      ensures queued == (client in clients && clients[client].logoutEndpoint)
      ensures outbox == if queued then old(outbox) + multiset{Notice(client, sid, user)} else old(outbox)
    {
      if client !in clients || !clients[client].logoutEndpoint { return false; }
      outbox := outbox + multiset{Notice(client, sid, user)};
      return true;
    }

    /** Ends the live sessions among `keys` and queues a notice for each of them. */
    method EndAndNotify(keys: set<(Id, Id)>, at: Time) returns (notified: nat)
      requires UniqueSids(oidc)
      modifies this`oidc, this`outbox
      ensures oidc == EndOidc(old(oidc), keys, at)
      ensures Queued(old(Tables()), keys, old(outbox), outbox, notified)
    {
      ghost var db := Tables();
      var found := oidc;
      var live := set k | k in keys && k in found && found[k].revokedAt.None?;
      oidc := EndOidc(oidc, live, at);
      LiveOnly(db, keys, live, at);
      notified := EnqueueAll(found, live, db);
    }

    /** `found` is the table of sessions as it was read before they were ended. */
    method EnqueueAll(found: map<(Id, Id), Oidc>, live: set<(Id, Id)>, ghost db: Store) returns (notified: nat)
      requires db.oidc == found && db.clients == clients && UniqueSids(found)
      requires forall k :: k in live ==> k in found && found[k].revokedAt.None?
      modifies this`outbox
      ensures Queued(db, live, old(outbox), outbox, notified)
    {
      notified := 0;
      var pending := live;
      assert live - pending == {};
      QueuedNothing(db, outbox);
      while pending != {}
        invariant pending <= live
        invariant Queued(db, live - pending, old(outbox), outbox, notified)
        decreases |pending|
      {
        var k :| k in pending;
        QueuedOne(db, live - pending, k, old(outbox), outbox, notified);
        OneFewer(live, pending, k);
        var queued := Enqueue(k.1, found[k].id, found[k].user);
        if queued { notified := notified + 1; }
        pending := pending - {k};
      }
      assert live - pending == live;
    }

    /** The refresh tokens and codes of a user and client. */
    method RetireCredentials(user: Id, client: Id, at: Time)
      modifies this`refresh, this`codes
      ensures refresh == RevokeRefresh(old(refresh), PairRefresh(old(Tables()), user, client), at)
      ensures codes == SpendCodes(old(codes), PairCodes(old(Tables()), user, client), at)
    {
      refresh := RevokeRefresh(refresh, PairRefresh(Tables(), user, client), at);
      codes := SpendCodes(codes, PairCodes(Tables(), user, client), at);
    }

    method RevokeGrant(user: Id, client: Id, at: Time) returns (revoked: bool)
      requires UniqueSids(oidc)
      modifies this
      ensures revoked == Withdrawable(old(Tables()), user, client)
      ensures Tables() == if revoked then Withdraw(old(Tables()), user, client, at) else old(Tables())
      ensures revoked <==>
        && client in old(clients) && user in old(users)
        && (user, client) in old(grants) && old(grants)[(user, client)].revokedAt == None
      ensures revoked ==> PairDead(Tables(), user, client)
      ensures forall k :: k != (user, client) ==> Same(old(grants), grants, k)
      ensures OtherPairsKept(old(Tables()), Tables(), user, client)
    {
      ghost var db := Tables();
      if client !in clients { return false; }
      if user !in users { return false; }
      var pair := (user, client);
      if pair !in grants || grants[pair].revokedAt.Some? { return false; }
      grants := grants[pair := Grant(grants[pair].scopes, Some(at), grants[pair].version + 1)];
      SamePair(db, Tables(), user, client);
      RetireCredentials(user, client, at);
      ghost var mid := Tables();
      var notified := EndAndNotify(PairOidc(Tables(), user, client), at);
      WithdrawnTables(db, mid, Tables(), user, client, at, notified);
      WithdrawKills(db, user, client, at);
      WithdrawSpares(db, user, client, at);
      return true;
    }

    method EndSessions(session: Id, user: Id, at: Time) returns (revoked: bool, notified: nat)
      requires UniqueSids(oidc)
      modifies this
      ensures revoked == Endable(old(Tables()), session, user)
      ensures revoked <==>
        user in old(users) && session in old(sessions) && old(sessions)[session].user == Some(user)
      ensures Tables() == if revoked then EndBrowserSession(old(Tables()), session, user, at) else old(Tables())
      ensures var db := old(Tables());
        notified == if revoked then |NoticesFor(db, SessionUserOidc(db, session, user))| else 0
      ensures sessions == if revoked then old(sessions) - {session} else old(sessions)
      ensures revoked ==> forall k :: k in oidc && k.0 == session && oidc[k].user == user ==> oidc[k].revokedAt != None
      ensures forall k :: !(k in old(oidc) && k.0 == session && old(oidc)[k].user == user) ==> Same(old(oidc), oidc, k)
    {
      ghost var db := Tables();
      if user !in users { return false, 0; }
      if session !in sessions || sessions[session].user != Some(user) { return false, 0; }
      sessions := sessions - {session};
      SameOidc(Tables(), db, user, 0, session);
      notified := EndAndNotify(SessionUserOidc(Tables(), session, user), at);
      return true, notified;
    }

    /** Browser logout and remote sign-out: no notices. */
    method LogoutSession(session: Id, at: Time) returns (loggedOut: bool)
      modifies this`sessions, this`oidc
      ensures loggedOut == (session in old(sessions))
      ensures Tables() == if loggedOut then Logout(old(Tables()), session, at) else old(Tables())
      ensures sessions == old(sessions) - {session}
      ensures loggedOut ==> forall k :: k in oidc && k.0 == session ==> oidc[k].revokedAt != None
      ensures forall k: (Id, Id) :: k.0 != session ==> Same(old(oidc), oidc, k)
    {
      if session !in sessions { return false; }
      ghost var db := Tables();
      sessions := sessions - {session};
      oidc := EndOidc(oidc, SessionOidc(Tables(), session), at);
      assert SessionOidc(Tables().(oidc := db.oidc), session) == SessionOidc(db, session);
      return true;
    }

    method RevokeAllCredentials(user: Id, at: Time)
      modifies this
      ensures Tables() == RevokeAll(old(Tables()), user, at)
      ensures NothingLive(Tables(), user) && UserSessions(Tables(), user) == {}
      ensures OthersKept(old(Tables()), Tables(), user)
    {
      ghost var db := Tables();
      sessions := sessions - UserSessions(Tables(), user);
      refresh := RevokeRefresh(refresh, UserRefresh(Tables(), user), at);
      codes := SpendCodes(codes, UserCodes(Tables(), user), at);
      oidc := EndOidc(oidc, UserOidc(Tables(), user), at);
      RevokeAllKills(db, user, at);
      RevokeAllSpares(db, user, at);
    }

    method SetAccountStatus(user: Id, status: UserStatus, at: Time) returns (known: bool)
      modifies this
      ensures known == (user in old(users))
      ensures Tables() == if known then SetUserStatus(old(Tables()), user, status, at) else old(Tables())
      ensures known && status.UserDisabled? ==> NothingLive(Tables(), user) && UserSessions(Tables(), user) == {}
      ensures OthersKept(old(Tables()), Tables(), user)
      ensures forall other :: other != user ==> Same(old(users), users, other)
      ensures known ==> UsableAccount(Tables(), user) == !status.UserDisabled?
      ensures !status.UserDisabled? ==> Tables().(users := old(users)) == old(Tables())
    {
      if user !in users { return false; }
      users := users[user := users[user].(status := status)];
      if status.UserDisabled? { RevokeAllCredentials(user, at); }
      return true;
    }

    /** The status check is part of the write. A reset link that was consumed in between rolls
        everything back. */
    method ResetPassword(user: Id, linkUnused: bool, at: Time) returns (ok: bool)
      modifies this
      ensures ok == (UsableAccount(old(Tables()), user) && linkUnused)
      ensures ok <==> user in old(users) && old(users)[user].status != UserDisabled && linkUnused
      ensures Tables() == if ok then RevokeAll(PromotedUser(old(Tables()), user), user, at) else old(Tables())
      ensures ok ==> users[user] == old(users)[user].(status := UserActive)
      ensures forall other :: other != user ==> Same(old(users), users, other)
      ensures ok ==> NothingLive(Tables(), user) && UserSessions(Tables(), user) == {}
    {
      if user !in users || users[user].status.UserDisabled? { return false; }
      var before := Tables();
      if users[user].status.UserPending? { users := users[user := users[user].(status := UserActive)]; }
      RevokeAllCredentials(user, at);
      if !linkUnused {
        users, sessions, refresh, codes, oidc :=
          before.users, before.sessions, before.refresh, before.codes, before.oidc;
        return false;
      }
      return true;
    }

    /** Three separate writes: between them an exchange may still commit. */
    method SetClientStatus(client: Id, status: ClientStatus, at: Time) returns (known: bool)
      modifies this`clients, this`refresh, this`oidc
      ensures known == (client in old(clients))
      ensures var db := old(Tables());
        Tables() ==
          if !known then db
          else if status.ClientDisabled? || status.ClientRejected? then
            db.(clients := db.clients[client := db.clients[client].(status := status)],
                refresh := RevokeRefresh(db.refresh, ClientRefresh(db, client), at),
                oidc := EndOidc(db.oidc, ClientOidc(db, client), at))
          else db.(clients := db.clients[client := db.clients[client].(status := status)])
      ensures known && (status.ClientDisabled? || status.ClientRejected?) ==>
        NotApproved(clients, client) && NoLiveRefresh(refresh, client) && NoLiveOidc(oidc, client)
      ensures forall other :: other != client ==> Same(old(clients), clients, other)
      ensures forall t :: !(t in old(refresh) && old(refresh)[t].client == client) ==> Same(old(refresh), refresh, t)
      ensures forall k: (Id, Id) :: k.1 != client ==> Same(old(oidc), oidc, k)
      ensures !status.ClientDisabled? && !status.ClientRejected? ==> refresh == old(refresh) && oidc == old(oidc)
    {
      if client !in clients { return false; }
      ghost var db := Tables();
      clients := clients[client := clients[client].(status := status)];
      if status.ClientDisabled? || status.ClientRejected? {
        refresh := RevokeRefresh(refresh, ClientRefresh(Tables(), client), at);
        assert refresh == RevokeRefresh(db.refresh, ClientRefresh(db, client), at);
        oidc := EndOidc(oidc, ClientOidc(Tables(), client), at);
        assert oidc == EndOidc(db.oidc, ClientOidc(db, client), at);
        ClientShut(db, client, at);
      }
      return true;
    }

    // --- Housekeeping ------------------------------------------------------

    method PruneRequests(cutoff: Time)
      modifies this`requests
      ensures Tables() == Transactions.PruneRequests(old(Tables()), cutoff)
      ensures forall r, later :: cutoff <= later ==>
        (RequestClaimable(Tables(), r, later) <==> RequestClaimable(old(Tables()), r, later))
      ensures forall r :: r in requests <==> RequestClaimable(old(Tables()), r, cutoff - 1)
    {
      requests := map r | r in requests && cutoff <= requests[r].expiresAt && requests[r].consumedAt.None?
                    :: requests[r];
    }

    /** An unused code goes when it expires; a used one is kept as a replay detector. */
    method PruneCodes(cutoff: Time)
      modifies this`codes
      ensures Tables() == Transactions.PruneCodes(cfg, old(Tables()), cutoff)
      ensures forall c, later :: cutoff <= later ==>
        (CodeClaimable(Tables(), c, later) <==> CodeClaimable(old(Tables()), c, later))
      ensures forall c :: c in codes <==>
        CodeClaimable(old(Tables()), c, cutoff - 1) || DetectsReplay(cfg, old(codes), c, cutoff)
    {
      var replayBefore := cutoff - (if cfg.accessTtl < cfg.refreshTtl then cfg.refreshTtl else cfg.accessTtl);
      codes := map c | c in codes
                 && (if codes[c].usedAt.None? then cutoff <= codes[c].expiresAt
                     else replayBefore <= codes[c].usedAt.value)
               :: codes[c];
    }

    method PruneRefreshTokens(cutoff: Time)
      modifies this`refresh
      ensures Tables() == PruneRefresh(old(Tables()), cutoff)
      ensures forall t, later :: cutoff <= later ==>
        (RefreshClaimable(Tables(), t, later) <==> RefreshClaimable(old(Tables()), t, later))
      ensures forall t :: t in refresh ==> cutoff <= refresh[t].expiresAt
      ensures forall t :: t in old(refresh) && t !in refresh ==> old(refresh)[t].expiresAt < cutoff
    {
      refresh := map t | t in refresh && cutoff <= refresh[t].expiresAt :: refresh[t];
    }
  }
}
