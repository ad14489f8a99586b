/** What a refused presentation leads to. A request that meets a replayed, foreign or racing
    credential is not answered before what it contains is shut, unless the process dies. */
module Refusals {
  import opened Prelude
  import opened Tables
  import opened Transactions
  import opened History
  import opened Machine
  import opened Invariants
  import opened Reachability
  import opened Runs
  import opened Descent
  import opened Containment
  import opened Answers
  import opened Precision

  /** The request that step `i` left open under `call` is over at `j`, and it was not cut short. */
  predicate Ends(run: Run, i: nat, j: nat, call: Id)
    requires i < j < |run.states| == |run.steps| + 1
  {
    call !in run.states[j].calls && Unbroken(run, i + 1, j, call)
  }

  predicate Unbroken(run: Run, i: nat, j: nat, call: Id)
    requires i <= j <= |run.steps|
  {
    forall k {:trigger run.steps[k]} :: i <= k < j ==> run.steps[k] != Abort(call)
  }

  // --- Whose step it is ----------------------------------------------------

  /** The step is the next commit of this request, which is waiting for it. */
  predicate Commits(s: State, step: Step, call: Id)
    requires call in s.calls
  {
    var c := s.calls[call];
    match step
    case CommitCode(id, _, _, _) => id == call && c.Completing?
    case CommitDenial(id, _) => id == call && c.Denying?
    case BurnCode(id, _) => id == call && c.Burning?
    case CommitRedeem(id, _, _, _) => id == call && c.Redeeming?
    case Contain(id, _) => id == call && c.Containing?
    case CommitRefresh(id, _, _) => id == call && c.Refreshing?
    case CommitFamily(id, _) => id == call && c.RevokingFamily?
    case WriteStatus(id) => id == call && c.WritingStatus?
    case ShutRefresh(id, _) => id == call && c.ShuttingClient?
    case ShutOidc(id, _) => id == call && c.ShuttingClient?
    case _ => false
  }

  predicate SameCall(s: State, s': State, call: Id)
    requires call in s.calls
  {
    call in s'.calls && s'.calls[call] == s.calls[call]
  }

  lemma MintsOwn(cfg: Config, s: State, step: Step, s': State, call: Id)
    requires MintNext(cfg, s, step, s') && call in s.calls
    ensures SameCall(s, s', call) || Commits(s, step, call)
  {
  }

  lemma RevokesOwn(cfg: Config, s: State, step: Step, s': State, call: Id)
    requires RevokeNext(cfg, s, step, s') && call in s.calls
    ensures SameCall(s, s', call) || Commits(s, step, call)
  {
  }

  lemma AdministersOwn(cfg: Config, s: State, step: Step, s': State, call: Id)
    requires AdminNext(cfg, s, step, s') && call in s.calls
    ensures SameCall(s, s', call) || Commits(s, step, call)
  {
  }

  /** Outside its reads and refusals, a request moves only by its own commits. */
  lemma OwnCommits(cfg: Config, s: State, step: Step, s': State, call: Id)
    requires Next(cfg, s, step, s') && !ReadNext(cfg, s, step, s') && call in s.calls
    ensures SameCall(s, s', call) || Commits(s, step, call)
  {
    if MintNext(cfg, s, step, s') { MintsOwn(cfg, s, step, s', call); }
    else if RevokeNext(cfg, s, step, s') { RevokesOwn(cfg, s, step, s', call); }
    else if AdminNext(cfg, s, step, s') { AdministersOwn(cfg, s, step, s', call); }
    else { SweepKeepsCalls(cfg, s, step, s'); }
  }

  lemma SweepKeepsCalls(cfg: Config, s: State, step: Step, s': State)
    requires SweepNext(cfg, s, step, s')
    ensures s'.calls == s.calls
  {
  }

  // --- A family to be revoked ----------------------------------------------

  /** The request is on its way to revoking the family. */
  predicate Pursues(s: State, call: Id, family: Id) {
    && call in s.calls
    && (s.calls[call] == FindingFamily(family)
        || (s.calls[call].RevokingFamily? && s.calls[call].family == family))
  }

  /** The step ends the pursuit by ending the revocation. */
  predicate Caught(s: State, step: Step, call: Id, family: Id)
    requires call in s.calls
  {
    match step
    case FindFamily(c, found) => c == call && found == None && s.calls[call] == FindingFamily(family)
    case CommitFamily(c, _) => c == call && s.calls[call].RevokingFamily? && s.calls[call].family == family
    case _ => false
  }

  lemma PursuitRead(cfg: Config, s: State, step: Step, s': State, call: Id, family: Id)
    requires ReadNext(cfg, s, step, s') && Pursues(s, call, family) && step != Abort(call)
    ensures Pursues(s', call, family) || Caught(s, step, call, family)
  {
  }

  lemma PursuitStep(cfg: Config, run: Run, k: nat, call: Id, family: Id)
    requires ValidRun(cfg, run) && k < |run.steps|
    requires Pursues(run.states[k], call, family) && run.steps[k] != Abort(call)
    ensures Pursues(run.states[k + 1], call, family) || RevokesFamily(run, k, family)
  {
    var s, step, s' := run.states[k], run.steps[k], run.states[k + 1];
    assert RunStep(cfg, run, k);
    if ReadNext(cfg, s, step, s') { PursuitRead(cfg, s, step, s', call, family); }
    else { OwnCommits(cfg, s, step, s', call); }
  }

  lemma {:induction false} PursuitEnds(cfg: Config, run: Run, i: nat, j: nat, call: Id, family: Id)
    requires ValidRun(cfg, run) && i <= j < |run.states|
    requires Pursues(run.states[i], call, family) && Unbroken(run, i, j, call)
    ensures Pursues(run.states[j], call, family) || FamilyShut(run.states[j].db.refresh, family)
    decreases j - i
  {
    if i < j {
      PursuitStep(cfg, run, i, call, family);
      if Pursues(run.states[i + 1], call, family) {
        PursuitEnds(cfg, run, i + 1, j, call, family);
      } else {
        RevokedFamilyStaysShut(cfg, run, i, j, family);
      }
    }
  }

  /** The row must not be exchanged by this client: it is another's, it was revoked, or with
      rotation it was already used. */
  predicate Replayed(cfg: Config, row: Refresh, client: Id) {
    row.client != client || row.revokedAt != None || (cfg.rotate && row.usedAt != None)
  }

  /** Presenting such a token shuts its whole family before the request is answered. */
  lemma ReplayShutsFamily(cfg: Config, run: Run, i: nat, j: nat, call: Id, token: Id, client: Id,
                          requested: Option<set<Scope>>)
    requires ValidRun(cfg, run) && i < j < |run.states|
    requires run.steps[i] == ReadRefresh(call, token, client, requested) && token in run.states[i].db.refresh
    requires Replayed(cfg, run.states[i].db.refresh[token], client) && Ends(run, i, j, call)
    ensures FamilyShut(run.states[j].db.refresh, run.states[i].db.refresh[token].family)
  {
    assert RunStep(cfg, run, i);
    PursuitEnds(cfg, run, i + 1, j, call, run.states[i].db.refresh[token].family);
  }

  /** And it can be presented: nothing keeps the request from getting there. */
  lemma ReplayIsTaken(cfg: Config, s: State, call: Id, token: Id, client: Id, requested: Option<set<Scope>>)
    requires call !in s.calls && token in s.db.refresh && Replayed(cfg, s.db.refresh[token], client)
    ensures Next(cfg, s, ReadRefresh(call, token, client, requested),
                 s.(calls := s.calls[call := FindingFamily(s.db.refresh[token].family)]))
  {
    var s' := s.(calls := s.calls[call := FindingFamily(s.db.refresh[token].family)]);
    assert ReadRefreshStep(cfg, s, s', call, token, client, requested);
    assert ReadNext(cfg, s, ReadRefresh(call, token, client, requested), s');
  }

  /** A client that revokes its own token revokes the family (RFC 7009 section 2.1). */
  lemma RevocationShutsFamily(cfg: Config, run: Run, i: nat, j: nat, call: Id, token: Id, client: Id)
    requires ValidRun(cfg, run) && i < j < |run.states|
    requires run.steps[i] == RevokeByToken(call, token, client) && Ends(run, i, j, call)
    ensures token in run.states[i].db.refresh && run.states[i].db.refresh[token].client == client
    ensures FamilyShut(run.states[j].db.refresh, run.states[i].db.refresh[token].family)
  {
    assert RunStep(cfg, run, i);
    PursuitEnds(cfg, run, i + 1, j, call, run.states[i].db.refresh[token].family);
  }

  /** A token that its own client may use is read, and nothing else is; a request may narrow its
      scopes to registered ones. */
  lemma ReadExactly(cfg: Config, s: State, call: Id, token: Id, client: Id, requested: Option<set<Scope>>,
                    scopes: set<Scope>)
    requires call !in s.calls && token in s.db.refresh
    ensures var row := s.db.refresh[token];
      ReadRefreshStep(cfg, s, s.(calls := s.calls[call := Refreshing(token, row, client, scopes, s.now)]), call, token,
                      client, requested) <==>
      && !Replayed(cfg, row, client) && s.now < row.expiresAt
      && (requested == None ==> scopes == row.scopes)
      && (requested != None ==>
            scopes == requested.value && forall x :: x in scopes ==> x in cfg.registered && x in row.scopes)
  {
    var row := s.db.refresh[token];
    var read := s.(calls := s.calls[call := Refreshing(token, row, client, scopes, s.now)]);
    assert read.calls[call] == Refreshing(token, row, client, scopes, s.now);
    assert s.(calls := s.calls[call := FindingFamily(row.family)]).calls[call] == FindingFamily(row.family);
    if requested.Some? {
      var expected := s.(calls := s.calls[call := Refreshing(token, row, client, requested.value, s.now)]);
      assert expected.calls[call].scopes == requested.value;
    } else {
      var expected := s.(calls := s.calls[call := Refreshing(token, row, client, row.scopes, s.now)]);
      assert expected.calls[call].scopes == row.scopes;
    }
  }

  /** A parked request is loaded while it is open and its client approved, for what the user
      selected of it, if that is anything. */
  lemma LoadedExactly(s: State, call: Id, p: Completion)
    requires call !in s.calls
    ensures LoadCompletionStep(s, s.(calls := s.calls[call := Completing(p, s.now)]), call, p) <==>
      && Open(s.db, p.request, s.now)
      && var r := s.db.requests[p.request];
      && r.client in s.db.clients && s.db.clients[r.client].status == ClientApproved
      && p.client == r.client && p.redirect == r.redirect && p.challenged == r.challenged
      && p.scopes != {}
      && (forall x :: x in p.scopes <==>
            x in r.scopes && (p.approved.None? || x in p.approved.value || x == OPENID))
  {
    if p.request in s.db.requests {
      var scopes := CompletedScopes(s.db.requests[p.request].scopes, p.approved);
      assert p.scopes == scopes <==> forall x :: x in p.scopes <==> x in scopes;
    }
  }

  // --- An exchange that loses its race -------------------------------------

  predicate Exchanging(s: State, call: Id, c: Call) { call in s.calls && s.calls[call] == c && c.Refreshing? }

  /** The exchange is refused: the family is pursued, except that without rotation a token that
      merely can no longer be claimed is refused and nothing more. */
  ghost predicate Lost(cfg: Config, s: State, s': State, call: Id, c: Call, at: Time)
    requires c.Refreshing?
  {
    || Pursues(s', call, c.held.family)
    || (!cfg.rotate && TokenChecks(cfg, s.db, c.held, c.client, c.scopes) && !Claimable(s.db, c.token, at))
  }

  lemma ExchangeLost(cfg: Config, s: State, s': State, call: Id, at: Time)
    requires LoseRefreshStep(cfg, s, s', call, at)
    ensures Lost(cfg, s, s', call, s.calls[call], at)
  {
    var c := s.calls[call];
    ExchangeAnswered(cfg, s.db, c.token, c.held, c.client, c.scopes, at, 0);
  }

  lemma ExchangeRead(cfg: Config, s: State, step: Step, s': State, call: Id, c: Call)
    requires ReadNext(cfg, s, step, s') && Exchanging(s, call, c) && step != Abort(call)
    ensures Exchanging(s', call, c) || (step.LoseRefresh? && step.call == call)
  {
  }

  /** What an open exchange can do next. */
  lemma ExchangeStep(cfg: Config, run: Run, k: nat, call: Id, c: Call)
    requires ValidRun(cfg, run) && k < |run.steps|
    requires Exchanging(run.states[k], call, c) && run.steps[k] != Abort(call)
    ensures var step := run.steps[k];
      || Exchanging(run.states[k + 1], call, c)
      || (step.CommitRefresh? && step.call == call)
      || (step.LoseRefresh? && step.call == call && Lost(cfg, run.states[k], run.states[k + 1], call, c, step.at))
  {
    var s, step, s' := run.states[k], run.steps[k], run.states[k + 1];
    assert RunStep(cfg, run, k);
    if ReadNext(cfg, s, step, s') {
      ExchangeRead(cfg, s, step, s', call, c);
      if step.LoseRefresh? && step.call == call { ExchangeLost(cfg, s, s', call, step.at); }
    } else {
      OwnCommits(cfg, s, step, s', call);
    }
  }

  /** A refused exchange shuts the family before it is answered, with rotation whatever refused
      it, and without unless the token merely can no longer be claimed. */
  lemma LossShutsFamily(cfg: Config, run: Run, i: nat, j: nat, call: Id, at: Time)
    requires ValidRun(cfg, run) && i < j < |run.states| && run.steps[i] == LoseRefresh(call, at)
    requires Ends(run, i, j, call)
    ensures call in run.states[i].calls && run.states[i].calls[call].Refreshing?
    ensures var c, db := run.states[i].calls[call], run.states[i].db;
      cfg.rotate || !TokenChecks(cfg, db, c.held, c.client, c.scopes) || Claimable(db, c.token, at) ==>
        FamilyShut(run.states[j].db.refresh, c.held.family)
  {
    assert RunStep(cfg, run, i);
    var c := run.states[i].calls[call];
    ExchangeStep(cfg, run, i, call, c);
    if Pursues(run.states[i + 1], call, c.held.family) {
      PursuitEnds(cfg, run, i + 1, j, call, c.held.family);
    }
  }

  /** The token cannot be claimed any more, at any time. */
  predicate Retired(s: State, token: Id) {
    token in s.db.refresh ==> s.db.refresh[token].usedAt != None || s.db.refresh[token].revokedAt != None
  }

  lemma RetiredStays(cfg: Config, run: Run, i: nat, j: nat, token: Id)
    requires ValidRun(cfg, run) && i <= j < |run.states|
    requires token in run.states[i].hist.tokens && Retired(run.states[i], token)
    ensures Retired(run.states[j], token)
  {
    RunKeeps(cfg, run, i);
    assert TokenOk(run.states[i].hist, token);
    RunOnward(cfg, run, i, j);
  }

  /** Two requests read one token unused, and the other one used it: with rotation this one can
      only be cut short, or shut the family. */
  lemma {:induction false} RaceShutsFamily(cfg: Config, run: Run, i: nat, j: nat, call: Id, c: Call)
    requires ValidRun(cfg, run) && i < j < |run.states| && cfg.rotate
    requires Exchanging(run.states[i], call, c) && Retired(run.states[i], c.token)
    requires call !in run.states[j].calls && Unbroken(run, i, j, call)
    ensures FamilyShut(run.states[j].db.refresh, c.held.family)
    decreases j - i
  {
    ExchangeStep(cfg, run, i, call, c);
    HeldToken(cfg, run, i, call);
    if Exchanging(run.states[i + 1], call, c) {
      RetiredStays(cfg, run, i, i + 1, c.token);
      RaceShutsFamily(cfg, run, i + 1, j, call, c);
    } else if run.steps[i].CommitRefresh? {
      ExchangedRow(cfg, run, i, c.token);
    } else {
      PursuitEnds(cfg, run, i + 1, j, call, c.held.family);
    }
  }

  /** And with rotation every refusal, whichever check it is, takes the request there. */
  lemma LossIsTaken(cfg: Config, s: State, call: Id, c: Call, at: Time)
    requires cfg.rotate && Exchanging(s, call, c) && c.readAt <= at <= s.now
    requires !TokenChecks(cfg, s.db, c.held, c.client, c.scopes) || !Claimable(s.db, c.token, at)
      || !SessionHolds(s.db, c.held.session, c.client)
    ensures Next(cfg, s, LoseRefresh(call, at), s.(calls := s.calls[call := FindingFamily(c.held.family)]))
  {
    var s' := s.(calls := s.calls[call := FindingFamily(c.held.family)]);
    ExchangeAnswered(cfg, s.db, c.token, c.held, c.client, c.scopes, at, 0);
    assert LoseRefreshStep(cfg, s, s', call, at);
    assert ReadNext(cfg, s, LoseRefresh(call, at), s');
  }

  // --- A code presented again ----------------------------------------------

  predicate IsContaining(s: State, call: Id, code: Id) {
    call in s.calls && s.calls[call].Containing? && s.calls[call].code == code
  }

  lemma ContainingRead(cfg: Config, s: State, step: Step, s': State, call: Id, code: Id)
    requires ReadNext(cfg, s, step, s') && IsContaining(s, call, code) && step != Abort(call)
    ensures IsContaining(s', call, code)
  {
  }

  lemma {:induction false} ContainingEnds(cfg: Config, run: Run, i: nat, j: nat, call: Id, code: Id) returns (k: nat)
    requires ValidRun(cfg, run) && i < j < |run.states|
    requires IsContaining(run.states[i], call, code)
    requires call !in run.states[j].calls && Unbroken(run, i, j, call)
    ensures i <= k < j && ContainsCode(run, k, code)
    decreases j - i
  {
    var s, step, s' := run.states[i], run.steps[i], run.states[i + 1];
    assert RunStep(cfg, run, i);
    if ReadNext(cfg, s, step, s') { ContainingRead(cfg, s, step, s', call, code); }
    else { OwnCommits(cfg, s, step, s', call); }
    if IsContaining(s', call, code) {
      k := ContainingEnds(cfg, run, i + 1, j, call, code);
    } else {
      k := i;
    }
  }

  /** The code is spent and every refresh token that descends from it is revoked. */
  ghost predicate Contained(s: State, code: Id) {
    && (code in s.db.codes ==> s.db.codes[code].usedAt != None)
    && forall t :: t in s.db.refresh && DescendsFrom(s.hist, s.db.refresh[t], code) ==>
      s.db.refresh[t].revokedAt != None
  }

  /** A client that presents its own code a second time is not answered before everything
      that descends from the code is revoked (RFC 6749 section 4.1.2). */
  lemma ReplayIsContained(cfg: Config, run: Run, i: nat, j: nat, call: Id, code: Id, client: Id, verifier: Verifier)
    requires ValidRun(cfg, run) && i < j < |run.states|
    requires run.steps[i] == ReadCode(call, code, client, verifier) && code in run.states[i].db.codes
    requires run.states[i].db.codes[code].client == client && run.states[i].db.codes[code].usedAt != None
    requires Ends(run, i, j, call)
    ensures Contained(run.states[j], code)
  {
    assert RunStep(cfg, run, i);
    var k := ContainingEnds(cfg, run, i + 1, j, call, code);
    ReplayedCodeStaysContained(cfg, run, k, j, code);
  }

  lemma CodeReplayIsTaken(cfg: Config, s: State, call: Id, code: Id, client: Id, verifier: Verifier)
    requires call !in s.calls && code in s.db.codes
    requires s.db.codes[code].client == client && s.db.codes[code].usedAt != None
    ensures Next(cfg, s, ReadCode(call, code, client, verifier),
                 s.(calls := s.calls[call := Containing(code, s.db.codes[code])]))
  {
    var s' := s.(calls := s.calls[call := Containing(code, s.db.codes[code])]);
    assert ReadCodeStep(s, s', call, code, client, verifier);
    assert ReadNext(cfg, s, ReadCode(call, code, client, verifier), s');
  }

  /** Its own client's first presentation, in time, goes on to the redemption. */
  lemma FreshCodeIsRead(cfg: Config, s: State, call: Id, code: Id, client: Id, verifier: Verifier)
    requires call !in s.calls && code in s.db.codes
    requires var row := s.db.codes[code]; row.client == client && row.usedAt == None && s.now < row.expiresAt
    ensures Next(cfg, s, ReadCode(call, code, client, verifier),
                 s.(calls := s.calls[call := Redeeming(code, s.db.codes[code], client, verifier, s.now)]))
  {
    var s' := s.(calls := s.calls[call := Redeeming(code, s.db.codes[code], client, verifier, s.now)]);
    assert ReadCodeStep(s, s', call, code, client, verifier);
    assert ReadNext(cfg, s, ReadCode(call, code, client, verifier), s');
  }

  // --- A redemption that loses its race ------------------------------------

  predicate RedeemingAs(s: State, call: Id, c: Call) { call in s.calls && s.calls[call] == c && c.Redeeming? }

  lemma RedeemRead(cfg: Config, s: State, step: Step, s': State, call: Id, c: Call)
    requires ReadNext(cfg, s, step, s') && RedeemingAs(s, call, c) && step != Abort(call)
    ensures || RedeemingAs(s', call, c)
            || (step.LoseRedeem? && step.call == call && IsContaining(s', call, c.code))
            || (step.Refuse? && step.call == call)
  {
  }

  /** A check that comes before the code fails, or the code is gone or merely expired. */
  ghost predicate JustRefused(cfg: Config, db: Store, c: Call, at: Time)
    requires c.Redeeming?
  {
    || !CodeChecks(cfg, db, c.row, c.client, c.verifier)
    || (c.code in db.codes ==> db.codes[c.code].usedAt == None)
  }

  lemma RefusedRedemption(cfg: Config, s: State, s': State, call: Id, at: Time)
    requires RefuseStep(cfg, s, s', call, at) && s.calls[call].Redeeming?
    ensures JustRefused(cfg, s.db, s.calls[call], at)
  {
    var c := s.calls[call];
    RedeemAnswered(cfg, s.db, c.code, c.row, c.client, c.verifier, at, 0, 0);
  }

  /** What an open redemption can do next. */
  lemma RedeemStep(cfg: Config, run: Run, k: nat, call: Id, c: Call)
    requires ValidRun(cfg, run) && k < |run.steps|
    requires RedeemingAs(run.states[k], call, c) && run.steps[k] != Abort(call)
    ensures var step := run.steps[k];
      || RedeemingAs(run.states[k + 1], call, c)
      || (step.CommitRedeem? && step.call == call)
      || IsContaining(run.states[k + 1], call, c.code)
      || (step.Refuse? && step.call == call && JustRefused(cfg, run.states[k].db, c, step.at))
  {
    var s, step, s' := run.states[k], run.steps[k], run.states[k + 1];
    assert RunStep(cfg, run, k);
    if ReadNext(cfg, s, step, s') {
      RedeemRead(cfg, s, step, s', call, c);
      if step.Refuse? && step.call == call { RefusedRedemption(cfg, s, s', call, step.at); }
    } else {
      OwnCommits(cfg, s, step, s', call);
    }
  }

  /** Two requests read one code unused, and the other one used it: this one can only be cut
      short, be refused by a check that comes before the code (or after the row was pruned), or
      contain the code. */
  lemma {:induction false} RaceIsContained(cfg: Config, run: Run, i: nat, j: nat, call: Id, c: Call) returns (k: nat)
    requires ValidRun(cfg, run) && i < j < |run.states|
    requires RedeemingAs(run.states[i], call, c) && Spent(run.states[i], c.code)
    requires call !in run.states[j].calls && Unbroken(run, i, j, call)
    ensures i <= k < j
    ensures
      || ContainsCode(run, k, c.code)
      || (run.steps[k].Refuse? && run.steps[k].call == call
          && (c.code !in run.states[k].db.codes || !CodeChecks(cfg, run.states[k].db, c.row, c.client, c.verifier)))
    decreases j - i
  {
    RedeemStep(cfg, run, i, call, c);
    if RedeemingAs(run.states[i + 1], call, c) {
      SpentStays(cfg, run, i, c);
      k := RaceIsContained(cfg, run, i + 1, j, call, c);
    } else if run.steps[i].CommitRedeem? && run.steps[i].call == call {
      RedeemedRow(cfg, run, i, c.code);
      k := i;
    } else if IsContaining(run.states[i + 1], call, c.code) {
      k := ContainingEnds(cfg, run, i + 1, j, call, c.code);
    } else {
      k := i;
    }
  }

  predicate Spent(s: State, code: Id) { code in s.db.codes ==> s.db.codes[code].usedAt != None }

  lemma SpentStays(cfg: Config, run: Run, i: nat, c: Call)
    requires ValidRun(cfg, run) && i < |run.steps| && c.Redeeming? && Spent(run.states[i], c.code)
    requires exists call :: RedeemingAs(run.states[i], call, c)
    ensures Spent(run.states[i + 1], c.code)
  {
    RunKeeps(cfg, run, i);
    var call :| RedeemingAs(run.states[i], call, c);
    assert CallOk(run.states[i].calls[call], run.states[i].db, run.states[i].hist, run.states[i].review);
    StepOnward(cfg, run, i);
  }

  /** The race can be decided so whenever its time has come. */
  lemma RaceIsTaken(cfg: Config, s: State, call: Id, c: Call, at: Time)
    requires RedeemingAs(s, call, c) && c.readAt <= at <= s.now
    requires c.code in s.db.codes && s.db.codes[c.code].usedAt != None
    requires CodeChecks(cfg, s.db, c.row, c.client, c.verifier)
    ensures Next(cfg, s, LoseRedeem(call, at), s.(calls := s.calls[call := Containing(c.code, c.row)]))
  {
    var s' := s.(calls := s.calls[call := Containing(c.code, c.row)]);
    RedeemAnswered(cfg, s.db, c.code, c.row, c.client, c.verifier, at, 0, 0);
    assert LoseRedeemStep(cfg, s, s', call, at);
    assert ReadNext(cfg, s, LoseRedeem(call, at), s');
  }

  // --- A code presented by another client ----------------------------------

  predicate IsBurning(s: State, call: Id, code: Id) { call in s.calls && s.calls[call] == Burning(code) }

  lemma BurningRead(cfg: Config, s: State, step: Step, s': State, call: Id, code: Id)
    requires ReadNext(cfg, s, step, s') && IsBurning(s, call, code) && step != Abort(call)
    ensures IsBurning(s', call, code)
  {
  }

  lemma BurnSpends(cfg: Config, run: Run, k: nat, call: Id, code: Id)
    requires ValidRun(cfg, run) && k < |run.steps| && IsBurning(run.states[k], call, code)
    requires run.steps[k].BurnCode? && run.steps[k].call == call && code in run.states[k].hist.seen
    ensures Spent(run.states[k + 1], code) && code in run.states[k + 1].hist.seen
  {
    StepFates(cfg, run, k);
    StepOnward(cfg, run, k);
    if code in run.states[k + 1].db.codes {
      assert CodeFate(cfg, AimOf(run.states[k], run.steps[k]), code, run.states[k].db.codes[code]) == Used;
    }
  }

  lemma SpentForGood(cfg: Config, run: Run, i: nat, j: nat, code: Id)
    requires ValidRun(cfg, run) && i <= j < |run.states| && code in run.states[i].hist.seen
      && Spent(run.states[i], code)
    ensures Spent(run.states[j], code)
  {
    RunOnward(cfg, run, i, j);
  }

  lemma {:induction false} BurningEnds(cfg: Config, run: Run, i: nat, j: nat, call: Id, code: Id)
    requires ValidRun(cfg, run) && i < j < |run.states|
    requires IsBurning(run.states[i], call, code) && code in run.states[i].hist.seen
    requires call !in run.states[j].calls && Unbroken(run, i, j, call)
    ensures Spent(run.states[j], code)
    decreases j - i
  {
    var s, step, s' := run.states[i], run.steps[i], run.states[i + 1];
    assert RunStep(cfg, run, i);
    StepOnward(cfg, run, i);
    if ReadNext(cfg, s, step, s') { BurningRead(cfg, s, step, s', call, code); }
    else { OwnCommits(cfg, s, step, s', call); }
    if IsBurning(s', call, code) {
      BurningEnds(cfg, run, i + 1, j, call, code);
    } else {
      BurnSpends(cfg, run, i, call, code);
      SpentForGood(cfg, run, i + 1, j, code);
    }
  }

  lemma KnownCode(cfg: Config, run: Run, i: nat, code: Id)
    requires ValidRun(cfg, run) && i < |run.states| && code in run.states[i].db.codes
    ensures code in run.states[i].hist.seen
  {
    RunKeeps(cfg, run, i);
    InvSeen(cfg, run.states[i]);
  }

  /** A code presented by another client is spent before that client is answered. */
  lemma ForeignCodeIsBurned(cfg: Config, run: Run, i: nat, j: nat, call: Id, code: Id, client: Id, verifier: Verifier)
    requires ValidRun(cfg, run) && i < j < |run.states|
    requires run.steps[i] == ReadCode(call, code, client, verifier) && code in run.states[i].db.codes
    requires run.states[i].db.codes[code].client != client && Ends(run, i, j, call)
    ensures Spent(run.states[j], code)
  {
    assert RunStep(cfg, run, i);
    KnownCode(cfg, run, i, code);
    StepOnward(cfg, run, i);
    BurningEnds(cfg, run, i + 1, j, call, code);
  }
}
