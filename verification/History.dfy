/** What has happened so far. Tables forget (rows are pruned and cascade away), so the
    statements about whole runs are made about this record, which only ever grows. */
module History {
  import opened Prelude
  import opened Tables
  import opened Transactions

  datatype Event =
    | CodeIssued(request: Id, code: Id, user: Id, client: Id, requested: set<Scope>,
                 approved: Option<set<Scope>>, scopes: set<Scope>, waived: bool)
    | Denied(request: Id)
    | Redeemed(code: Id, user: Id, client: Id, at: Time)
    | Refreshed(code: Id, user: Id, client: Id, token: Id)
    | Withdrawn(user: Id, client: Id, told: set<Id>)
    | SessionEnded(session: Id, told: set<Id>)
    | FamilyRevoked(family: Id)
    | CodeReplayRefused(code: Id)
    | ClientRemoved(client: Id)

  /** Every refresh token descended from one redemption, oldest first. */
  datatype Family = Family(code: Id, chain: seq<Id>)

  /** A signed access token: nobody stores it, so only the history knows it. `code` is the
      authorization it descends from, `direct` says that redeeming it minted the token. */
  datatype Access = Access(sid: Id, session: Id, client: Id, user: Id, scopes: set<Scope>, issuedAt: Time,
                           code: Id, direct: bool)

  /** `codes` and `tokens` hold each row as it was inserted; `settled`, `redeemed` (when),
      `withdrawn` (last index), `revoked` and `contained` index the log; `orderly` says that issue
      times never decreased in commit order. */
  datatype History = History(
    seen: set<Id>,
    owner: map<Id, Id>,
    sids: map<Id, (Id, Id)>,
    codes: map<Id, Code>,
    issuedAt: map<Id, nat>,
    tokens: map<Id, Refresh>,
    place: map<Id, nat>,
    families: map<Id, Family>,
    familyOf: map<Id, Id>,
    access: set<Access>,
    settled: set<Id>,
    redeemed: map<Id, Time>,
    withdrawn: map<(Id, Id), nat>,
    revoked: set<Id>,
    contained: set<Id>,
    orderly: bool,
    lastStamp: Time,
    log: seq<Event>)

  const Nothing := History({}, map[], map[], map[], map[], map[], map[], map[], map[], {},
                           {}, map[], map[], {}, {}, true, 0, [])

  predicate Settling(e: Event) { e.CodeIssued? || e.Denied? }

  predicate Tokening(e: Event) { e.Redeemed? || e.Refreshed? }

  predicate Withdraws(e: Event, user: Id, client: Id) {
    e.Withdrawn? && e.user == user && e.client == client
  }

  /** The event joins the log and the indexes over it. */
  function Record(h: History, e: Event): History {
    h.(log := h.log + [e],
       settled := if Settling(e) then h.settled + {e.request} else h.settled,
       redeemed := if e.Redeemed? then h.redeemed[e.code := e.at] else h.redeemed,
       withdrawn := if e.Withdrawn? then h.withdrawn[(e.user, e.client) := |h.log|] else h.withdrawn,
       revoked := h.revoked + RevokedBy(h, e),
       contained := if e.CodeReplayRefused? then h.contained + {e.code} else h.contained)
  }

  /** Refusing a replayed code closes the family it was redeemed into, if it was. */
  function RevokedBy(h: History, e: Event): set<Id> {
    if e.FamilyRevoked? then {e.family}
    else if e.CodeReplayRefused? && e.code in h.familyOf then {h.familyOf[e.code]}
    else {}
  }

  predicate Widens(e: Event, user: Id, client: Id) {
    e.CodeIssued? && e.user == user && e.client == client && (e.approved.Some? || e.waived)
  }

  predicate Resets(e: Event, user: Id, client: Id) {
    Withdraws(e, user, client) || (e.ClientRemoved? && e.client == client)
  }

  /** The union of what the user approved for the client, or an administrator waived
      consent for, since the last withdrawal (or since the client was last removed). */
  function Approved(log: seq<Event>, user: Id, client: Id): set<Scope> {
    if |log| == 0 then {}
    else ApprovedAfter(Approved(log[..|log| - 1], user, client), log[|log| - 1], user, client)
  }

  function ApprovedAfter(before: set<Scope>, e: Event, user: Id, client: Id): set<Scope> {
    if Widens(e, user, client) then before + e.scopes
    else if Resets(e, user, client) then {}
    else before
  }

  /** How many commits in the log told the client of `sid` that its session ended. */
  function Told(log: seq<Event>, sid: Id): nat {
    if |log| == 0 then 0
    else
      var last := log[|log| - 1];
      Told(log[..|log| - 1], sid) + if (last.Withdrawn? || last.SessionEnded?) && sid in last.told then 1 else 0
  }

  /** Everything about `code` came after the last withdrawal of (user, client). */
  predicate AfterWithdrawal(h: History, user: Id, client: Id, code: Id) {
    (user, client) in h.withdrawn ==> code in h.issuedAt && h.withdrawn[(user, client)] < h.issuedAt[code]
  }

  // --- What a coherent history looks like ----------------------------------

  predicate SettleLog(log: seq<Event>, settled: set<Id>, seen: set<Id>) {
    && settled <= seen
    && (forall i :: 0 <= i < |log| && Settling(log[i]) ==> log[i].request in settled)
    && (forall i, j :: 0 <= i < j < |log| && Settling(log[i]) && Settling(log[j]) ==> log[i].request != log[j].request)
  }

  predicate RedeemLog(log: seq<Event>, redeemed: map<Id, Time>) {
    && (forall i :: 0 <= i < |log| && log[i].Redeemed? ==> log[i].code in redeemed)
    && (forall i, j :: 0 <= i < j < |log| && log[i].Redeemed? && log[j].Redeemed? ==> log[i].code != log[j].code)
  }

  predicate WithdrawLog(log: seq<Event>, withdrawn: map<(Id, Id), nat>) {
    && (forall i :: 0 <= i < |log| && log[i].Withdrawn? ==>
          (log[i].user, log[i].client) in withdrawn && i <= withdrawn[(log[i].user, log[i].client)])
    && (forall k :: k in withdrawn ==> withdrawn[k] < |log|)
  }

  predicate IssueEventOk(log: seq<Event>, i: nat, c: Id, row: Code) {
    && i < |log| && log[i].CodeIssued? && log[i].code == c
    && log[i].user == row.user && log[i].client == row.client && log[i].scopes == row.scopes
  }

  predicate IssueLog(log: seq<Event>, codes: map<Id, Code>, issuedAt: map<Id, nat>) {
    codes.Keys == issuedAt.Keys && forall c :: c in codes ==> IssueEventOk(log, issuedAt[c], c, codes[c])
  }

  predicate TokenLog(log: seq<Event>, codes: map<Id, Code>, issuedAt: map<Id, nat>) {
    forall j {:trigger log[j]} :: 0 <= j < |log| && Tokening(log[j]) ==> TokenEventOk(log, j, codes, issuedAt)
  }

  predicate TokenEventOk(log: seq<Event>, j: nat, codes: map<Id, Code>, issuedAt: map<Id, nat>)
    requires j < |log| && Tokening(log[j])
  {
    var e := log[j];
    && e.code in codes && codes[e.code].user == e.user && codes[e.code].client == e.client
    && e.code in issuedAt && issuedAt[e.code] < j
    && forall i :: 0 <= i < j && Withdraws(log[i], e.user, e.client) ==> i < issuedAt[e.code]
  }

  predicate RefusalLog(log: seq<Event>, revoked: set<Id>, contained: set<Id>) {
    && (forall i :: 0 <= i < |log| && log[i].FamilyRevoked? ==> log[i].family in revoked)
    && (forall i :: 0 <= i < |log| && log[i].CodeReplayRefused? ==> log[i].code in contained)
  }

  /** Only issued codes are spent, and one refused as replayed has its family closed. */
  predicate SpentOk(redeemed: map<Id, Time>, contained: set<Id>, revoked: set<Id>, codes: map<Id, Code>,
                    familyOf: map<Id, Id>) {
    && redeemed.Keys <= codes.Keys
    && forall c :: c in contained ==> c in codes && (c in familyOf ==> familyOf[c] in revoked)
  }

  predicate ConsentLog(log: seq<Event>) {
    forall i {:trigger log[i]} :: 0 <= i < |log| && log[i].CodeIssued? ==> ConsentEventOk(log, i)
  }

  predicate ConsentEventOk(log: seq<Event>, i: nat)
    requires i < |log| && log[i].CodeIssued?
  {
    var e := log[i];
    && e.scopes <= Approved(log[..i + 1], e.user, e.client)
    && e.scopes == CompletedScopes(e.requested, e.approved)
  }

  predicate LogOk(h: History) {
    var settles := SettleLog(h.log, h.settled, h.seen);
    var redeems := RedeemLog(h.log, h.redeemed);
    var withdraws := WithdrawLog(h.log, h.withdrawn);
    var issues := IssueLog(h.log, h.codes, h.issuedAt);
    var tokens := TokenLog(h.log, h.codes, h.issuedAt);
    var refusals := RefusalLog(h.log, h.revoked, h.contained);
    var spent := SpentOk(h.redeemed, h.contained, h.revoked, h.codes, h.familyOf);
    var consents := ConsentLog(h.log);
    settles && redeems && withdraws && issues && tokens && refusals && spent && consents
  }

  /** Codes belong to the owner of the browser session they were issued under. */
  predicate CodesOk(h: History) {
    forall c :: c in h.codes ==>
      && c in h.seen
      && h.codes[c].usedAt.None?
      && h.codes[c].session in h.owner && h.owner[h.codes[c].session] == h.codes[c].user
  }

  /** Each family is one chain: a root minted by its code, then each token from the one before. */
  predicate FamilyOk(h: History, f: Id)
    requires f in h.families
  {
    var fam := h.families[f];
    && f in h.seen
    && fam.code in h.codes
    && fam.code in h.familyOf && h.familyOf[fam.code] == f
    && fam.code in h.redeemed
    && |fam.chain| > 0
    && ChainOk(h.tokens, h.place, fam.chain, f)
  }

  predicate ChainOk(tokens: map<Id, Refresh>, place: map<Id, nat>, chain: seq<Id>, f: Id) {
    forall i :: 0 <= i < |chain| ==>
      chain[i] in tokens && tokens[chain[i]].family == f && chain[i] in place && place[chain[i]] == i
  }

  predicate TokenOk(h: History, t: Id)
    requires t in h.tokens
  {
    var row := h.tokens[t];
    && t in h.seen
    && row.usedAt.None? && row.revokedAt.None?
    && row.family in h.families
    && var fam := h.families[row.family];
    && fam.code in h.codes
    && var code := h.codes[fam.code];
    && row.user == code.user && row.client == code.client && row.session == code.session
    && row.authTime == code.authTime
    && row.scopes <= code.scopes
    && t in h.place && h.place[t] < |fam.chain| && fam.chain[h.place[t]] == t
    && (h.place[t] == 0 ==> row.parent == None && row.scopes == code.scopes)
    && (h.place[t] > 0 ==>
          && row.parent == Some(fam.chain[h.place[t] - 1])
          && fam.chain[h.place[t] - 1] in h.tokens
          && row.scopes <= h.tokens[fam.chain[h.place[t] - 1]].scopes)
  }

  predicate FamiliesOk(h: History) {
    && (forall f {:trigger FamilyOk(h, f)} :: f in h.families ==> FamilyOk(h, f))
    && (forall t {:trigger TokenOk(h, t)} :: t in h.tokens ==> TokenOk(h, t))
    && h.place.Keys == h.tokens.Keys
    && h.revoked <= h.families.Keys
    && (forall c :: c in h.familyOf ==> h.familyOf[c] in h.families && h.families[h.familyOf[c]].code == c)
  }

  predicate SidsOk(h: History) {
    && (forall s :: s in h.owner ==> s in h.seen)
    && (forall o :: o in h.sids ==> o in h.seen && h.sids[o].0 in h.owner)
    && (forall a :: a in h.access ==> a.sid in h.sids && h.sids[a.sid] == (a.session, a.client))
  }

  predicate HistoryOk(h: History) {
    var log := LogOk(h);
    var codes := CodesOk(h);
    var families := FamiliesOk(h);
    var sids := SidsOk(h);
    log && codes && families && sids
  }

  // --- Recording keeps the log coherent ------------------------------------

  /** What an event may be recorded under. */
  predicate Recordable(h: History, e: Event) {
    match e
    case CodeIssued(r, c, u, cl, requested, approved, scopes, waived) =>
      && r in h.seen && r !in h.settled
      && scopes <= Approved(h.log + [e], u, cl)
      && scopes == CompletedScopes(requested, approved)
    case Denied(r) => r in h.seen && r !in h.settled
    case Redeemed(c, u, cl, _) =>
      && c !in h.redeemed && CodeOf(h, c, u, cl)
    case Refreshed(c, u, cl, _) => CodeOf(h, c, u, cl)
    case FamilyRevoked(f) => f in h.families
    case CodeReplayRefused(c) => c in h.codes
    case _ => true
  }

  predicate CodeOf(h: History, c: Id, user: Id, client: Id) {
    c in h.codes && h.codes[c].user == user && h.codes[c].client == client && AfterWithdrawal(h, user, client, c)
  }

  lemma RecordSettles(h: History, e: Event)
    requires SettleLog(h.log, h.settled, h.seen) && Recordable(h, e)
    ensures SettleLog(h.log + [e], Record(h, e).settled, h.seen)
  {
  }

  lemma RecordRedeems(h: History, e: Event)
    requires RedeemLog(h.log, h.redeemed) && Recordable(h, e)
    ensures RedeemLog(h.log + [e], Record(h, e).redeemed)
  {
  }

  lemma RecordWithdraws(h: History, e: Event)
    requires WithdrawLog(h.log, h.withdrawn)
    ensures WithdrawLog(h.log + [e], Record(h, e).withdrawn)
  {
  }

  lemma RecordIssues(h: History, e: Event)
    requires IssueLog(h.log, h.codes, h.issuedAt)
    ensures IssueLog(h.log + [e], h.codes, h.issuedAt)
  {
  }

  lemma RecordTokens(h: History, e: Event)
    requires TokenLog(h.log, h.codes, h.issuedAt) && WithdrawLog(h.log, h.withdrawn)
    requires IssueLog(h.log, h.codes, h.issuedAt) && Recordable(h, e)
    ensures TokenLog(h.log + [e], h.codes, h.issuedAt)
  {
    var log := h.log + [e];
    forall j | 0 <= j < |log| && Tokening(log[j]) ensures TokenEventOk(log, j, h.codes, h.issuedAt) {
      if j < |h.log| {
        assert TokenEventOk(h.log, j, h.codes, h.issuedAt);
      }
    }
  }

  lemma RecordRefuses(h: History, e: Event)
    requires RefusalLog(h.log, h.revoked, h.contained)
    ensures RefusalLog(h.log + [e], Record(h, e).revoked, Record(h, e).contained)
  {
  }

  lemma RecordConsents(h: History, e: Event)
    requires ConsentLog(h.log) && Recordable(h, e)
    ensures ConsentLog(h.log + [e])
  {
    var log := h.log + [e];
    forall i | 0 <= i < |log| && log[i].CodeIssued? ensures ConsentEventOk(log, i) {
      if i < |h.log| {
        assert ConsentEventOk(h.log, i);
        assert log[..i + 1] == h.log[..i + 1];
      } else {
        assert log[..i + 1] == log;
      }
    }
  }

  lemma RecordSpends(h: History, e: Event)
    requires SpentOk(h.redeemed, h.contained, h.revoked, h.codes, h.familyOf) && Recordable(h, e)
    ensures SpentOk(Record(h, e).redeemed, Record(h, e).contained, Record(h, e).revoked, h.codes, h.familyOf)
  {
  }

  lemma RecordLog(h: History, e: Event)
    requires LogOk(h) && Recordable(h, e)
    ensures LogOk(Record(h, e))
  {
    RecordSettles(h, e);
    RecordRedeems(h, e);
    RecordWithdraws(h, e);
    RecordIssues(h, e);
    RecordTokens(h, e);
    RecordRefuses(h, e);
    RecordSpends(h, e);
    RecordConsents(h, e);
  }

  lemma RecordFamily(h: History, e: Event, f: Id)
    requires f in h.families && FamilyOk(h, f)
    ensures FamilyOk(Record(h, e), f)
  {
  }

  lemma RecordToken(h: History, e: Event, t: Id)
    requires t in h.tokens && TokenOk(h, t)
    ensures TokenOk(Record(h, e), t)
  {
  }

  lemma RecordFamilies(h: History, e: Event)
    requires FamiliesOk(h) && Recordable(h, e)
    ensures FamiliesOk(Record(h, e))
  {
    var h' := Record(h, e);
    forall f | f in h'.families ensures FamilyOk(h', f) { RecordFamily(h, e, f); }
    forall t | t in h'.tokens ensures TokenOk(h', t) { RecordToken(h, e, t); }
  }

  lemma RecordRest(h: History, e: Event)
    requires CodesOk(h) && SidsOk(h)
    ensures CodesOk(Record(h, e)) && SidsOk(Record(h, e))
  {
  }

  /** Recording touches the log and its indexes only. */
  lemma RecordKeeps(h: History, e: Event)
    requires HistoryOk(h) && Recordable(h, e)
    ensures HistoryOk(Record(h, e))
  {
    RecordLog(h, e);
    RecordFamilies(h, e);
    RecordRest(h, e);
  }

  lemma ApprovedAppend(log: seq<Event>, e: Event, user: Id, client: Id)
    ensures Approved(log + [e], user, client) == ApprovedAfter(Approved(log, user, client), e, user, client)
  {
    assert (log + [e])[..|log|] == log;
  }

  lemma ToldAppend(log: seq<Event>, e: Event, sid: Id)
    ensures Told(log + [e], sid) ==
      Told(log, sid) + if (e.Withdrawn? || e.SessionEnded?) && sid in e.told then 1 else 0
  {
    assert (log + [e])[..|log|] == log;
  }
}
