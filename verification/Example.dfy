/** One run from an empty database to a refresh token, so that the statements about all runs
    are statements about something. */
module Example {
  import opened Prelude
  import opened Tables
  import opened Transactions
  import opened History
  import opened Machine

  const USER: Id := 1
  const CLIENT: Id := 2
  const SESSION: Id := 3
  const REQUEST: Id := 4
  const CODE: Id := 5
  const SID: Id := 6
  const TOKEN: Id := 7
  const FAMILY: Id := 8
  const CALL: Id := 0

  const Alice := User(UserActive, {})
  const App := Client(ClientApproved, true, true, {OFFLINE_ACCESS}, {"app:/back"}, false, false, false, false)
  const Browser := Session(Some(USER), 0, 1_000)
  const Consent := Completion(REQUEST, CLIENT, "app:/back", false, {OFFLINE_ACCESS}, None, USER, SESSION)

  function Parked(cfg: Config): Request {
    Request(CLIENT, "app:/back", {OFFLINE_ACCESS}, false, cfg.requestTtl, None)
  }

  function Empty(): State { State(EmptyStore, 0, map[], Nothing, Review(map[], map[])) }

  function SignedIn(): State {
    State(EmptyStore.(users := map[USER := Alice], clients := map[CLIENT := App], sessions := map[SESSION := Browser]),
          0, map[], Nothing.(seen := {SESSION}, owner := map[SESSION := USER]), Review(map[CLIENT := 1], map[]))
  }

  /** Registering a user and a client, and signing in. */
  lemma SigningIn(cfg: Config) returns (a: State, b: State)
    ensures Next(cfg, Empty(), PutUser(USER, Alice), a)
    ensures Next(cfg, a, PutClient(CLIENT, App), b)
    ensures Next(cfg, b, SignIn(SESSION, Browser), SignedIn())
  {
    a := Empty().(db := EmptyStore.(users := map[USER := Alice]));
    b := a.(db := a.db.(clients := map[CLIENT := App]), review := Review(map[CLIENT := 1], map[]));
    assert AdminNext(cfg, Empty(), PutUser(USER, Alice), a);
    assert AdminNext(cfg, a, PutClient(CLIENT, App), b);
    assert SignInStep(b, SignedIn(), SESSION, Browser);
    assert AdminNext(cfg, b, SignIn(SESSION, Browser), SignedIn());
  }

  function Asked(cfg: Config): State {
    SignedIn().(
      db := SignedIn().db.(requests := map[REQUEST := Parked(cfg)]),
      hist := SignedIn().hist.(seen := {SESSION, REQUEST}),
      calls := map[CALL := Completing(Consent, 0)])
  }

  /** A client sends the user over, who needs not be asked for consent. */
  lemma Asking(cfg: Config) returns (a: State)
    requires ValidConfig(cfg)
    ensures Next(cfg, SignedIn(), ParkRequest(REQUEST, Parked(cfg)), a)
    ensures Next(cfg, a, LoadCompletion(CALL, Consent), Asked(cfg))
  {
    a := SignedIn().(db := SignedIn().db.(requests := map[REQUEST := Parked(cfg)]),
                     hist := SignedIn().hist.(seen := {SESSION, REQUEST}));
    assert ParkRequestStep(cfg, SignedIn(), a, REQUEST, Parked(cfg));
    assert AdminNext(cfg, SignedIn(), ParkRequest(REQUEST, Parked(cfg)), a);
    assert LoadCompletionStep(a, Asked(cfg), CALL, Consent);
    assert ReadNext(cfg, a, LoadCompletion(CALL, Consent), Asked(cfg));
  }

  lemma Eligible(cfg: Config)
    requires ValidConfig(cfg) && cfg.restricted == {}
    ensures IssueCode(cfg, Asked(cfg).db, Consent, 0, CODE, SID).Committed?
  {
    var db := Asked(cfg).db;
    assert AuthorizationClientEligible(db, CLIENT, {OFFLINE_ACCESS}, "app:/back");
    assert AccountEligible(cfg, db, USER, {OFFLINE_ACCESS});
    assert BrowserSessionLive(db, SESSION, USER, 0) && RequestClaimable(db, REQUEST, 0);
  }

  /** The code is issued, and the grant recorded. */
  lemma Issuing(cfg: Config) returns (a: State)
    requires ValidConfig(cfg) && cfg.restricted == {}
    ensures Next(cfg, Asked(cfg), CommitCode(CALL, 0, CODE, SID), a)
    ensures a.now == 0 && a.calls == map[] && a.hist.seen == {SESSION, REQUEST, CODE, SID} && CODE !in a.hist.familyOf
    ensures a.db.clients == map[CLIENT := App] && a.db.users == map[USER := Alice]
    ensures GrantCovers(a.db.grants, USER, CLIENT, {OFFLINE_ACCESS}) && OidcLive(a.db, SESSION, CLIENT)
    ensures a.db.codes
      == map[CODE := Code(CLIENT, USER, SESSION, "app:/back", {OFFLINE_ACCESS}, false, 0, cfg.codeTtl, None)]
    ensures a.db.refresh == map[]
  {
    var s := Asked(cfg);
    var outcome := IssueCode(cfg, s.db, Consent, 0, CODE, SID);
    Eligible(cfg);
    a := Done(s, CALL).(
      db := outcome.db,
      hist := Stamped(WithCode(Record(s.hist, CodeEvent(s.db, Consent, CODE)), s.db, Consent, CODE,
                               MintedCode(cfg, s.db, Consent, 0), SID), 0));
    assert CommitCodeStep(cfg, s, a, CALL, 0, CODE, SID);
    assert MintNext(cfg, s, CommitCode(CALL, 0, CODE, SID), a);
  }

  /** The client redeems it and has a refresh token. */
  lemma Redeeming(cfg: Config, s: State) returns (a: State, b: State)
    requires ValidConfig(cfg) && cfg.restricted == {}
    requires s.now == 0 && s.calls == map[] && s.hist.seen == {SESSION, REQUEST, CODE, SID}
    requires s.db.clients == map[CLIENT := App] && s.db.users == map[USER := Alice] && s.db.refresh == map[]
    requires GrantCovers(s.db.grants, USER, CLIENT, {OFFLINE_ACCESS}) && OidcLive(s.db, SESSION, CLIENT)
    requires s.db.codes
      == map[CODE := Code(CLIENT, USER, SESSION, "app:/back", {OFFLINE_ACCESS}, false, 0, cfg.codeTtl, None)]
    ensures Next(cfg, s, ReadCode(CALL, CODE, CLIENT, NoVerifier), a)
    ensures Next(cfg, a, CommitRedeem(CALL, 0, TOKEN, FAMILY), b)
    ensures TOKEN in b.db.refresh && b.db.refresh[TOKEN].user == USER && RefreshClaimable(b.db, TOKEN, b.now)
  {
    var row := s.db.codes[CODE];
    a := Start(s, CALL, Machine.Redeeming(CODE, row, CLIENT, NoVerifier, 0));
    assert ReadCodeStep(s, a, CALL, CODE, CLIENT, NoVerifier);
    assert ReadNext(cfg, s, ReadCode(CALL, CODE, CLIENT, NoVerifier), a);
    var c := a.calls[CALL];
    var outcome := RedeemOutcome(cfg, a, c, 0, TOKEN, FAMILY);
    assert TokenClientEligible(a.db, CLIENT, {OFFLINE_ACCESS}, AuthorizationCode);
    assert AccountEligible(cfg, a.db, USER, {OFFLINE_ACCESS});
    assert outcome.Committed?;
    b := Done(a, CALL).(db := outcome.db, hist := RedeemedHistory(cfg, a, c, 0, TOKEN, FAMILY));
    assert CommitRedeemStep(cfg, a, b, CALL, 0, TOKEN, FAMILY);
    assert MintNext(cfg, a, CommitRedeem(CALL, 0, TOKEN, FAMILY), b);
  }

  function Last(run: Run): State
    requires run.states != []
  {
    run.states[|run.states| - 1]
  }

  lemma Then(cfg: Config, run: Run, step: Step, s: State) returns (longer: Run)
    requires ValidRun(cfg, run) && Next(cfg, Last(run), step, s)
    ensures ValidRun(cfg, longer) && Last(longer) == s
  {
    longer := Run(run.states + [s], run.steps + [step]);
    forall i | 0 <= i < |longer.steps| ensures RunStep(cfg, longer, i) {
      if i < |run.steps| { assert RunStep(cfg, run, i); }
    }
  }

  /** A run of the machine ends with a refresh token that can be exchanged. */
  lemma TokenReachable(cfg: Config) returns (run: Run)
    requires ValidConfig(cfg) && cfg.restricted == {}
    ensures ValidRun(cfg, run) && RefreshClaimable(Last(run).db, TOKEN, Last(run).now)
  {
    var s1, s2 := SigningIn(cfg);
    var s4 := Asking(cfg);
    var s6 := Issuing(cfg);
    var s7, s8 := Redeeming(cfg, s6);
    run := Run([Empty()], []);
    run := Then(cfg, run, PutUser(USER, Alice), s1);
    run := Then(cfg, run, PutClient(CLIENT, App), s2);
    run := Then(cfg, run, SignIn(SESSION, Browser), SignedIn());
    run := Then(cfg, run, ParkRequest(REQUEST, Parked(cfg)), s4);
    run := Then(cfg, run, LoadCompletion(CALL, Consent), Asked(cfg));
    run := Then(cfg, run, CommitCode(CALL, 0, CODE, SID), s6);
    run := Then(cfg, run, ReadCode(CALL, CODE, CLIENT, NoVerifier), s7);
    run := Then(cfg, run, CommitRedeem(CALL, 0, TOKEN, FAMILY), s8);
  }
}
