/** The browser's way through authorize, login, continue and consent (OIDC Core section 3.1.2.1). */
module BrowserFlow {
  import opened Prelude
  import opened Lists

  const KNOWN_PROMPTS := {"none", "login", "consent", "select_account"}

  /** `prompt` is a space-delimited set; `none` forbids every other value. */
  method ParsePrompt(value: string) returns (r: Option<seq<string>>)
    ensures r.Some? <==> WellFormedPrompts(DecodeScopes(value))
    ensures r.Some? ==> r.value == DecodeScopes(value)
  {
    var prompts := DecodeScopes(value);
    for i := 0 to |prompts|
      invariant forall j :: 0 <= j < i ==> prompts[j] in KNOWN_PROMPTS
    {
      if prompts[i] !in KNOWN_PROMPTS { return None; }
    }
    if "none" in prompts && |prompts| > 1 { return None; }
    return Some(prompts);
  }

  predicate WellFormedPrompts(prompts: seq<string>) {
    && (forall i :: 0 <= i < |prompts| ==> prompts[i] in {"none", "login", "consent", "select_account"})
    && ("none" in prompts ==> prompts == ["none"])
  }

  lemma KnownIsClean(p: string)
    requires p in KNOWN_PROMPTS
    ensures p != "" && Trimmed(p) && ' ' !in p
  {
  }

  /** Prompts come back from the parked request as they went in. */
  lemma PromptsSurviveParking(prompts: seq<string>)
    requires WellFormedPrompts(prompts)
    ensures DecodeScopes(Join(prompts, ' ')) == prompts
  {
    forall p | p in prompts ensures p != "" && Trimmed(p) && ' ' !in p { KnownIsClean(p); }
    if prompts == [] {
      assert Split("", ' ') == [""] && Cleaned([""]) == [];
    } else {
      SplitJoin(prompts, ' ');
      CleanedKeeps(prompts);
    }
  }

  // --- The decision --------------------------------------------------------

  /** What the request asks for and of the user. `createdAt` exists once it has been parked, and
      the parked request can be loaded for `lifetime` from then. */
  datatype Demand = Demand(
    prompts: seq<string>, scopes: set<Scope>, maxAge: Option<nat>, lifetime: nat, createdAt: Option<Time>)

  /** The signed-in user as the browser's cookie resolves: the account and its session. */
  datatype Visitor = Visitor(disabled: bool, authTime: Time)

  /** What the tables say about the visitor and the client when the decision is made: whether
      the account may authorize the scopes, and the scopes of the grant that is not withdrawn. */
  datatype Standing = Standing(scopesAllowed: bool, requireConsent: bool, grant: Option<set<Scope>>)

  datatype LoginReason = NoSession | PromptLogin | MaxAge

  datatype ProtocolError = LoginRequired | AccessDenied | InvalidScope | ConsentRequired

  datatype Decision = Login(reason: LoginReason) | Consent(forced: bool) | Issue | Error(error: ProtocolError)

  /** The sign-in is younger than the parked request. */
  predicate Reauthenticated(d: Demand, v: Visitor) {
    d.createdAt.Some? && v.authTime > d.createdAt.value
  }

  function Resolve(d: Demand, visitor: Option<Visitor>, s: Standing, now: Time): Decision {
    if visitor.None? then
      if "none" in d.prompts then Error(LoginRequired) else Login(NoSession)
    else
      var v := visitor.value;
      if v.disabled then Error(AccessDenied)
      else if "login" in d.prompts && !Reauthenticated(d, v) then Login(PromptLogin)
      else if d.maxAge.Some? && !Reauthenticated(d, v) && now - v.authTime > 1000 * d.maxAge.value then
        if "none" in d.prompts then Error(LoginRequired) else Login(MaxAge)
      else if !s.scopesAllowed then Error(InvalidScope)
      else if "consent" in d.prompts || (s.requireConsent && (s.grant.None? || !(d.scopes <= s.grant.value))) then
        if "none" in d.prompts then Error(ConsentRequired) else Consent("consent" in d.prompts)
      else Issue
  }

  /** The demand asks for an authentication that is younger than this sign-in: outright, or
      because too many seconds have passed; and the sign-in was not made for this request. */
  ghost predicate Stale(d: Demand, v: Visitor, now: Time) {
    && (d.createdAt == None || v.authTime <= d.createdAt.value)
    && ("login" in d.prompts || (d.maxAge != None && now > v.authTime + 1000 * d.maxAge.value))
  }

  /** The user has to be asked: the client insists, or it needs consent that is not on record
      for every scope. */
  ghost predicate NeedsConsent(d: Demand, s: Standing) {
    || "consent" in d.prompts
    || (s.requireConsent && (s.grant == None || exists scope :: scope in d.scopes && scope !in s.grant.value))
  }

  /** Nobody is signed in: the login page, or an error where nothing may be shown. */
  lemma NobodyExactly(d: Demand, s: Standing, now: Time)
    ensures Resolve(d, None, s, now) == if "none" in d.prompts then Error(LoginRequired) else Login(NoSession)
  {
  }

  /** A signed-in user is sent to log in exactly when the request demands an authentication
      that is not older than it says, and this one was made before the request. */
  lemma LoginExactly(d: Demand, v: Visitor, s: Standing, now: Time)
    requires WellFormedPrompts(d.prompts) && !v.disabled
    ensures "none" !in d.prompts ==> (Resolve(d, Some(v), s, now).Login? <==> Stale(d, v, now))
    ensures "none" in d.prompts ==> (Resolve(d, Some(v), s, now) == Error(LoginRequired) <==> Stale(d, v, now))
  {
  }

  /** What a signed-in user gets is the first of these that applies: refused for a disabled
      account, sent to log in, refused for a scope, asked for consent, and otherwise a code. */
  lemma DecidedExactly(d: Demand, v: Visitor, s: Standing, now: Time)
    requires WellFormedPrompts(d.prompts)
    ensures var r, silent := Resolve(d, Some(v), s, now), "none" in d.prompts;
      var enabled := !v.disabled;
      var young := enabled && !Stale(d, v, now);
      var allowed := young && s.scopesAllowed;
      && (r == Error(AccessDenied) <==> !enabled)
      && (r == (if silent then Error(LoginRequired) else Login(if "login" in d.prompts then PromptLogin else MaxAge))
          <==> enabled && !young)
      && (r == Error(InvalidScope) <==> young && !s.scopesAllowed)
      && (r == (if silent then Error(ConsentRequired) else Consent("consent" in d.prompts))
          <==> allowed && NeedsConsent(d, s))
      && (r == Issue <==> allowed && !NeedsConsent(d, s))
  {
    if s.grant.Some? && !(d.scopes <= s.grant.value) {
      var scope :| scope in d.scopes && scope !in s.grant.value;
    }
  }

  /** Once the user has signed in after the request was parked, no decision is `login` again. */
  lemma ReauthenticationSuffices(d: Demand, v: Visitor, s: Standing, now: Time)
    requires Reauthenticated(d, v)
    ensures !Resolve(d, Some(v), s, now).Login?
  {
  }

  /** With prompt=none the user is never asked for anything. */
  lemma NoneNeverInteracts(d: Demand, visitor: Option<Visitor>, s: Standing, now: Time)
    requires WellFormedPrompts(d.prompts) && "none" in d.prompts
    ensures var r := Resolve(d, visitor, s, now); r.Issue? || r.Error?
  {
  }

  // --- Pages ---------------------------------------------------------------

  datatype Target = BackToContinue | BackToConsent

  /** `AtParking`: the first decision is made, and the request not yet stored. `AtConsent` and
      `AtForm`: on the way to the consent page, and looking at it. `ToClient`: the answer, a code
      or an error, was redirected to the client. `Aside`: the browser was shown an error, or sent
      out of the flow. */
  datatype Page =
    | AtAuthorize
    | AtParking(decision: Decision)
    | AtLogin(reauthenticate: bool, target: Target)
    | AtContinue
    | AtConsent
    | AtForm
    | ToClient(code: bool)
    | Aside

  predicate Over(p: Page) { p.ToClient? || p.Aside? }

  /** Where the login page leads. */
  function Back(target: Target): Page {
    match target
    case BackToContinue => AtContinue
    case BackToConsent => AtConsent
  }

  /** When the client's request came in, and whether the session cookie came with it. A form
      that the client posts is cross-site, and a `SameSite=Lax` cookie stays behind. */
  datatype Arrival = Arrival(carried: bool, at: Time)

  /** `visitor` is whom the browser's cookie stands for, whether it is sent or not. */
  datatype State = State(page: Page, demand: Demand, visitor: Option<Visitor>, arrived: Option<Arrival>, now: Time)

  /** What a handler or the user does next; time, sign-outs, other tabs and the tables move by
      themselves. */
  datatype Step =
    | Authorize(standing: Standing, carried: bool)
    | Park(completes: bool)
    | Bounce
    | SignIn(disabled: bool)
    | Register
    | Continue(standing: Standing, loads: bool, completes: bool)
    | ShowConsent(loads: bool)
    | SubmitConsent(allows: bool, completes: bool)
    | Pass(now: Time)
    | SignOut
    | SignInElsewhere(disabled: bool)
    | Disable

  /** The steps that count as requests of the flow. Parking belongs to the request before it, and
      a look at the registration page is the user's own roundabout. */
  predicate Handles(step: Step) {
    || step.Authorize? || step.Bounce? || step.SignIn? || step.Continue? || step.ShowConsent?
    || step.SubmitConsent?
  }

  predicate SignsIn(step: Step) { step.SignIn? || step.SignInElsewhere? }

  /** An issue decision is answered with a code if the completion then succeeds. */
  function AfterDecision(r: Decision, first: bool, completes: bool): Page {
    match r
    case Login(reason) => AtLogin(first && !reason.NoSession?, BackToContinue)
    case Consent(_) => AtConsent
    case Issue => ToClient(completes)
    case Error(_) => ToClient(false)
  }

  /** The parked request has not expired. It may still fail to load, when it was consumed. */
  predicate Alive(d: Demand, now: Time) {
    d.createdAt.Some? && now < d.createdAt.value + d.lifetime
  }

  predicate Next(s: State, step: Step, s': State) {
    match step
    case Authorize(standing, carried) =>
      && s.page.AtAuthorize?
      && var r := Resolve(s.demand, if carried then s.visitor else None, standing, s.now);
      s' == s.(page := if r.Error? then ToClient(false) else AtParking(r), arrived := Some(Arrival(carried, s.now)))
    case Park(completes) =>
      && s.page.AtParking?
      && s' == s.(page := AfterDecision(s.page.decision, true, completes),
                  demand := s.demand.(createdAt := Some(s.now)))
    case Bounce => s.page.AtLogin? && s.visitor.Some? && !s.page.reauthenticate && s' == s.(page := Back(s.page.target))
    case SignIn(disabled) =>
      && s.page.AtLogin?
      && s' == s.(page := Back(s.page.target), visitor := Some(Visitor(disabled, s.now)))
    case Register =>
      s.page.AtLogin? && s' == s.(page := if s.visitor.None? then AtLogin(false, s.page.target) else Aside)
    case Continue(standing, loads, completes) =>
      && s.page.AtContinue? && (loads ==> Alive(s.demand, s.now))
      && var r := Resolve(s.demand, s.visitor, standing, s.now);
      s' == s.(page := if loads then AfterDecision(r, false, completes) else Aside)
    case ShowConsent(loads) =>
      && s.page.AtConsent? && (loads ==> Alive(s.demand, s.now))
      && s' == s.(page := if !loads then Aside else if s.visitor.None? then AtLogin(false, BackToConsent) else AtForm)
    case SubmitConsent(allows, completes) =>
      s.page.AtForm? && s' == s.(page := if completes && s.visitor.Some? then ToClient(allows) else Aside)
    case Pass(now) => s.now <= now && s' == s.(now := now)
    case SignOut => s' == s.(visitor := None)
    case SignInElsewhere(disabled) => s' == s.(visitor := Some(Visitor(disabled, s.now)))
    case Disable => s.visitor.Some? && s' == s.(visitor := Some(s.visitor.value.(disabled := true)))
  }

  datatype Run = Run(states: seq<State>, steps: seq<Step>)

  predicate Linked(run: Run, i: nat)
    requires i < |run.steps| < |run.states|
  {
    Next(run.states[i], run.steps[i], run.states[i + 1])
  }

  predicate Flows(run: Run) {
    && |run.states| == |run.steps| + 1
    && forall i {:trigger Linked(run, i)} :: 0 <= i < |run.steps| ==> Linked(run, i)
  }

  predicate Arrives(s: State) {
    s.page.AtAuthorize? && s.demand.createdAt.None? && s.arrived.None? && WellFormedPrompts(s.demand.prompts)
  }

  predicate ValidRun(run: Run) { Flows(run) && Arrives(run.states[0]) }

  predicate Parked(s: State) { !s.page.AtAuthorize? && !s.page.AtParking? && s.demand.createdAt.Some? }

  /** The browser can be bounced off the login page, or has come back from it. */
  predicate Bouncing(p: Page) {
    p.AtContinue? || (p.AtLogin? && !p.reauthenticate) || (p.AtParking? && p.decision == Login(NoSession))
  }

  predicate TimesOk(s: State) {
    && (!s.page.AtAuthorize? ==> s.arrived.Some? && s.arrived.value.at <= s.now)
    && (Parked(s) ==> s.arrived.value.at <= s.demand.createdAt.value <= s.now)
  }

  /** The demand is parked as it arrived, and from then on carries its time. Where the request
      brought the cookie, a browser that may be bounced has signed in since then. */
  predicate FlowOk(first: State, s: State) {
    && s.demand.(createdAt := None) == first.demand
    && (!s.page.AtAuthorize? && !s.page.AtParking? && !Over(s.page) ==> s.demand.createdAt.Some?)
    && (s.page.AtAuthorize? || s.page.AtParking? ==> s.demand.createdAt.None?)
    && TimesOk(s)
    && ("none" in s.demand.prompts ==>
          s.page.AtAuthorize? || (s.page.AtParking? && s.page.decision.Issue?) || Over(s.page))
    && (Bouncing(s.page) && s.arrived.value.carried && s.visitor.Some? ==>
          s.arrived.value.at <= s.visitor.value.authTime)
  }

  lemma {:induction false} FlowKeeps(run: Run, i: nat)
    requires ValidRun(run) && i < |run.states|
    ensures FlowOk(run.states[0], run.states[i])
  {
    if i > 0 {
      FlowKeeps(run, i - 1);
      assert Linked(run, i - 1);
      var s, step := run.states[i - 1], run.steps[i - 1];
      if step.Authorize? && "none" in s.demand.prompts {
        NoneNeverInteracts(s.demand, if step.carried then s.visitor else None, step.standing, s.now);
      }
    }
  }

  /** A request with prompt=none never shows a page, from its arrival to its answer. */
  lemma NoneNeverShowsAPage(run: Run, i: nat)
    requires ValidRun(run) && i < |run.states| && "none" in run.states[0].demand.prompts
    ensures run.states[i].page.AtAuthorize? || run.states[i].page.AtParking? || Over(run.states[i].page)
  {
    FlowKeeps(run, i);
  }

  // --- Nobody gets a code unasked ------------------------------------------

  /** The step decides about the request, for this visitor. */
  ghost predicate Decides(s: State, step: Step, v: Visitor, standing: Standing) {
    match step
    case Authorize(known, carried) => s.page.AtAuthorize? && carried && s.visitor == Some(v) && known == standing
    case Continue(known, loads, _) => s.page.AtContinue? && loads && s.visitor == Some(v) && known == standing
    case _ => false
  }

  /** The browser was decided to get a code without being asked, by rights. */
  ghost predicate DecidedUnasked(s: State, step: Step) {
    exists v, standing :: Decides(s, step, v, standing)
      && !v.disabled && !Stale(s.demand, v, s.now) && standing.scopesAllowed && !NeedsConsent(s.demand, standing)
  }

  lemma IssueIsUnasked(s: State, step: Step, v: Visitor, standing: Standing)
    requires Decides(s, step, v, standing) && Resolve(s.demand, Some(v), standing, s.now) == Issue
    requires WellFormedPrompts(s.demand.prompts)
    ensures DecidedUnasked(s, step)
  {
    DecidedExactly(s.demand, v, standing, s.now);
  }

  lemma PromptsKept(run: Run, i: nat)
    requires ValidRun(run) && i < |run.states|
    ensures WellFormedPrompts(run.states[i].demand.prompts)
  {
    FlowKeeps(run, i);
    assert run.states[i].demand.(createdAt := None).prompts == run.states[0].demand.prompts;
  }

  predicate Deciding(step: Step) { step.Authorize? || step.Continue? }

  /** A browser whose request is being parked for a code was decided so by the first request. */
  lemma {:induction false} ParkingDecided(run: Run, i: nat) returns (k: nat)
    requires ValidRun(run) && i < |run.states| && run.states[i].page == AtParking(Issue)
    ensures k < i && DecidedUnasked(run.states[k], run.steps[k])
    ensures forall m :: k < m < i ==> !Deciding(run.steps[m])
  {
    assert Linked(run, i - 1);
    var s, step := run.states[i - 1], run.steps[i - 1];
    if step.Authorize? {
      k := i - 1;
      PromptsKept(run, k);
      IssueIsUnasked(s, step, s.visitor.value, step.standing);
    } else {
      k := ParkingDecided(run, i - 1);
    }
  }

  /** A browser that comes to the client with a code has submitted the consent form, or its last
      decision found nothing left to ask: the account enabled, the sign-in young enough, every
      scope allowed, and consent neither insisted on nor missing. */
  lemma {:induction false} CodeIsAskedFor(run: Run, i: nat) returns (k: nat)
    requires ValidRun(run) && i < |run.states| && run.states[i].page == ToClient(true)
    ensures k < i
    ensures
      || (run.steps[k].SubmitConsent? && run.steps[k].allows && run.states[k].page.AtForm?
          && run.states[k].visitor.Some?)
      || DecidedUnasked(run.states[k], run.steps[k])
    ensures forall m :: k < m < i ==> !Deciding(run.steps[m]) && !run.steps[m].SubmitConsent?
  {
    assert Linked(run, i - 1);
    var s, step := run.states[i - 1], run.steps[i - 1];
    if s.page == ToClient(true) {
      k := CodeIsAskedFor(run, i - 1);
    } else if step.Park? {
      k := ParkingDecided(run, i - 1);
      NothingSubmitted(run, k, i - 1);
    } else {
      k := i - 1;
      if step.Continue? {
        PromptsKept(run, k);
        IssueIsUnasked(s, step, s.visitor.value, step.standing);
      }
    }
  }

  /** A form is only submitted once the request is parked. */
  lemma {:induction false} NothingSubmitted(run: Run, k: nat, i: nat)
    requires ValidRun(run) && k <= i < |run.states| && run.states[i].page.AtParking?
    ensures forall m :: k <= m < i ==> !run.steps[m].SubmitConsent?
    decreases i
  {
    if k < i {
      assert Linked(run, i - 1);
      if run.states[i - 1].page.AtParking? {
        NothingSubmitted(run, k, i - 1);
      } else {
        NothingBefore(run, k, i - 1);
      }
    }
  }

  lemma {:induction false} NothingBefore(run: Run, k: nat, i: nat)
    requires ValidRun(run) && k <= i < |run.states| && run.states[i].page.AtAuthorize?
    ensures forall m :: k <= m < i ==> !run.steps[m].SubmitConsent?
    decreases i
  {
    if k < i {
      assert Linked(run, i - 1);
      NothingBefore(run, k, i - 1);
    }
  }

  // --- Going round ---------------------------------------------------------

  /** The last instant at which the parked request loads. */
  function LastInstant(d: Demand): Time
    requires d.createdAt.Some?
  {
    d.createdAt.value + d.lifetime - 1
  }

  /** The request demands an authentication, now or before it expires, that this sign-in, no
      younger than the request, does not satisfy. */
  predicate Loops(s: State) {
    && s.demand.createdAt.Some? && s.now <= LastInstant(s.demand)
    && s.visitor.Some? && !s.visitor.value.disabled && s.visitor.value.authTime <= s.demand.createdAt.value
    && ("login" in s.demand.prompts
        || (s.demand.maxAge.Some? && LastInstant(s.demand) - s.visitor.value.authTime > 1000 * s.demand.maxAge.value))
  }

  /** How many of the steps from `i` up to `j` were handlers or user actions. */
  function Handled(steps: seq<Step>, i: nat, j: nat): nat
    requires i <= j <= |steps|
    decreases j
  {
    if i == j then 0 else Handled(steps, i, j - 1) + if Handles(steps[j - 1]) then 1 else 0
  }

  lemma {:induction false} HandledPrefix(a: seq<Step>, b: seq<Step>, i: nat, j: nat)
    requires a <= b && i <= j <= |a|
    ensures Handled(a, i, j) == Handled(b, i, j)
    decreases j
  {
    if i < j { HandledPrefix(a, b, i, j - 1); }
  }

  /** What can still be handled without a new sign-in, when the browser does not go round. */
  function Remaining(s: State): nat {
    match s.page
    case AtAuthorize => 5
    case AtParking(_) => 4
    case AtLogin(_, _) => if s.visitor.None? then 0 else 4
    case AtContinue => if s.visitor.None? then 1 else 3
    case AtConsent => if s.visitor.None? then 1 else 2
    case AtForm => 1
    case ToClient(_) => 0
    case Aside => 0
  }

  lemma CalmProgresses(s: State, step: Step, s': State)
    requires Next(s, step, s') && !SignsIn(step) && Parked(s) && !Loops(s)
    ensures !Loops(s') && Parked(s') && s'.demand == s.demand
    ensures Remaining(s') + (if Handles(step) then 1 else 0) <= Remaining(s)
  {
  }

  lemma {:induction false} CalmCountsDown(run: Run, i: nat, j: nat)
    requires Flows(run) && i <= j < |run.states|
    requires Parked(run.states[i]) && !Loops(run.states[i])
    requires forall k :: i <= k < j ==> !SignsIn(run.steps[k])
    ensures Parked(run.states[j]) && run.states[j].demand == run.states[i].demand && !Loops(run.states[j])
    ensures Handled(run.steps, i, j) + Remaining(run.states[j]) <= Remaining(run.states[i])
    decreases j
  {
    if i < j {
      CalmCountsDown(run, i, j - 1);
      assert Linked(run, j - 1);
      CalmProgresses(run.states[j - 1], run.steps[j - 1], run.states[j]);
    }
  }

  lemma {:induction false} StaysSignedIn(run: Run, i: nat, j: nat)
    requires Flows(run) && i <= j < |run.states| && run.states[i].visitor.Some?
    requires forall k :: i <= k < j ==> !run.steps[k].SignOut?
    ensures run.states[j].visitor.Some?
    decreases j
  {
    if i < j {
      StaysSignedIn(run, i, j - 1);
      assert Linked(run, j - 1);
    }
  }

  /** After a sign-in made later than the request, at most three more requests follow, the
      showing of the consent page and its submission included, and the third is answered. */
  lemma ReauthenticationTerminates(run: Run, i: nat, j: nat)
    requires ValidRun(run) && i < j < |run.states| && run.steps[i].SignIn?
    requires run.states[i].demand.createdAt.Some? && run.states[i].demand.createdAt.value < run.states[i].now
    requires forall k :: i < k < j ==> !run.steps[k].SignOut? && !SignsIn(run.steps[k])
    ensures Handled(run.steps, i + 1, j) <= 3
    ensures Handled(run.steps, i + 1, j) == 3 ==> Over(run.states[j].page)
  {
    assert Linked(run, i);
    FlowKeeps(run, i);
    CalmCountsDown(run, i + 1, j);
    StaysSignedIn(run, i + 1, j);
  }

  function Last(run: Run): State
    requires run.states != []
  {
    run.states[|run.states| - 1]
  }

  lemma Then(run: Run, step: Step, s: State) returns (longer: Run)
    requires Flows(run) && Next(Last(run), step, s)
    ensures Flows(longer) && longer.states == run.states + [s] && longer.steps == run.steps + [step]
  {
    longer := Run(run.states + [s], run.steps + [step]);
    forall i | 0 <= i < |longer.steps| ensures Linked(longer, i) {
      if i < |run.steps| { assert Linked(run, i); }
    }
  }

  /** `longer` goes on from `run` for `n` handlers at least, without a sign-in or an end. */
  predicate GoesOn(run: Run, longer: Run, n: nat) {
    && Flows(longer) && run.states <= longer.states && run.steps <= longer.steps
    && Handled(longer.steps, |run.steps|, |longer.steps|) >= n
    && (forall k :: |run.steps| <= k < |longer.steps| ==> !SignsIn(longer.steps[k]))
    && (forall k :: |run.states| <= k < |longer.states| ==> !Over(longer.states[k].page))
  }

  lemma GoOn(run: Run, longer: Run, n: nat, step: Step, s: State) returns (more: Run)
    requires Flows(run) && GoesOn(run, longer, n) && Next(Last(longer), step, s) && !SignsIn(step) && !Over(s.page)
    ensures GoesOn(run, more, n + if Handles(step) then 1 else 0) && Last(more) == s
  {
    more := Then(longer, step, s);
    HandledPrefix(longer.steps, more.steps, |run.steps|, |longer.steps|);
  }

  /** Waiting for the last instant, then from the continue step to the login page and back. */
  lemma {:induction false} GoRound(run: Run, standing: Standing, n: nat) returns (longer: Run)
    requires Flows(run) && Last(run).page.AtContinue? && Loops(Last(run)) && "none" !in Last(run).demand.prompts
    ensures GoesOn(run, longer, 2 * n)
    ensures Last(longer) == Last(run).(now := LastInstant(Last(run).demand))
    decreases n
  {
    var s := Last(run);
    var late := s.(now := LastInstant(s.demand));
    if n == 0 {
      longer := GoOn(run, run, 0, Pass(late.now), late);
    } else {
      longer := GoRound(run, standing, n - 1);
      longer := GoOn(run, longer, 2 * n - 2, Continue(standing, true, true),
                     late.(page := AtLogin(false, BackToContinue)));
      longer := GoOn(run, longer, 2 * n - 1, Bounce, late);
    }
  }

  /** Without a new sign-in, `n` handlers can follow. */
  ghost predicate CanGoOn(s: State, n: nat) {
    exists run: Run :: GoesOnFrom(run, s, n)
  }

  predicate GoesOnFrom(run: Run, s: State, n: nat) {
    && Flows(run) && run.states[0] == s
    && (forall k :: 0 <= k < |run.steps| ==> !SignsIn(run.steps[k]))
    && Handled(run.steps, 0, |run.steps|) >= n
  }

  /** From the continue step a signed-in browser can be sent round without end exactly when
      `Loops` holds; otherwise it handles three requests at most. */
  lemma GoesRoundIffLoops(s: State, standing: Standing)
    requires s.page.AtContinue? && s.demand.createdAt.Some? && "none" !in s.demand.prompts && s.visitor.Some?
    ensures (forall n: nat :: CanGoOn(s, n)) <==> Loops(s)
    ensures !Loops(s) ==> !CanGoOn(s, 4)
  {
    if Loops(s) {
      forall n: nat ensures CanGoOn(s, n) {
        var run := GoRound(Run([s], []), standing, n);
        assert GoesOnFrom(run, s, n);
      }
    } else {
      forall run: Run ensures !GoesOnFrom(run, s, 4) {
        if Flows(run) && run.states[0] == s && forall k :: 0 <= k < |run.steps| ==> !SignsIn(run.steps[k]) {
          CalmCountsDown(run, 0, |run.steps|);
        }
      }
      assert !CanGoOn(s, 4);
    }
  }

  /** The demand is one that a sign-in at `authTime` does not meet, at once (`prompt=login`) or
      by the last instant of a request parked at `parked` (`max_age`). */
  predicate Unmet(d: Demand, authTime: Time, parked: Time) {
    && authTime <= parked
    && ("login" in d.prompts || (d.maxAge.Some? && parked + d.lifetime - 1 - authTime > 1000 * d.maxAge.value))
  }

  /** In a run from the client's first request, a signed-in browser at the continue step can be
      sent round without end exactly when the request is alive and its demand unmet by a session
      begun no later than the parking. That session is older than the request only if the request
      came without the cookie; otherwise it began while the request was being decided. */
  lemma LoopsExactly(run: Run, i: nat, standing: Standing)
    requires ValidRun(run) && i < |run.states|
    requires run.states[i].page.AtContinue? && run.states[i].visitor.Some? && !run.states[i].visitor.value.disabled
    ensures run.states[i].demand.createdAt.Some? && run.states[i].arrived.Some?
    ensures var s := run.states[i];
      && (s.arrived.value.carried ==> s.arrived.value.at <= s.visitor.value.authTime)
      && ((forall n: nat :: CanGoOn(s, n)) <==>
            && s.now < s.demand.createdAt.value + s.demand.lifetime
            && Unmet(s.demand, s.visitor.value.authTime, s.demand.createdAt.value))
  {
    FlowKeeps(run, i);
    GoesRoundIffLoops(run.states[i], standing);
  }

  /** The browser reaches the continue step with the session it came with, or, where that is no
      older than the request, with one begun in another tab before the request was parked. */
  lemma Reaches(d: Demand, standing: Standing, authTime: Time, sent: Time, parked: Time) returns (run: Run)
    requires WellFormedPrompts(d.prompts) && "none" !in d.prompts && d.createdAt.None?
    requires authTime <= parked && sent <= parked
    ensures ValidRun(run)
    ensures forall k :: 0 <= k < |run.states| ==> !Over(run.states[k].page)
    ensures authTime < sent ==> forall k :: 0 <= k < |run.steps| ==> !SignsIn(run.steps[k])
    ensures Last(run) == State(AtContinue, d.(createdAt := Some(parked)), Some(Visitor(false, authTime)),
                               Some(Arrival(authTime >= sent, sent)), parked)
  {
    var visitor := Some(Visitor(false, authTime));
    var arrival := Some(Arrival(authTime >= sent, sent));
    var asking := State(AtParking(Login(NoSession)), d, if authTime < sent then visitor else None, arrival, sent);
    run := Run([asking.(page := AtAuthorize, arrived := None)], []);
    run := Then(run, Authorize(standing, authTime >= sent), asking);
    if authTime >= sent {
      run := Then(run, Pass(authTime), asking.(now := authTime));
      run := Then(run, SignInElsewhere(false), asking.(visitor := visitor, now := authTime));
    }
    run := Then(run, Pass(parked), asking.(visitor := visitor, now := parked));
    var login := State(AtLogin(false, BackToContinue), d.(createdAt := Some(parked)), visitor, arrival, parked);
    run := Then(run, Park(true), login);
    run := Then(run, Bounce, login.(page := AtContinue));
  }

  /** And all of these happen: whenever the demand is unmet by a session, however old, there is a
      run that comes to the continue step with it, goes on for as many requests as one likes and
      is never answered. With a session older than the request nobody signs in on the way. */
  lemma LoopReached(d: Demand, standing: Standing, authTime: Time, sent: Time, parked: Time, n: nat)
    returns (run: Run)
    requires WellFormedPrompts(d.prompts) && "none" !in d.prompts && d.createdAt.None? && d.lifetime > 0
    requires sent <= parked && Unmet(d, authTime, parked)
    ensures ValidRun(run) && Handled(run.steps, 0, |run.steps|) >= n
    ensures forall k :: 0 <= k < |run.states| ==> !Over(run.states[k].page)
    ensures authTime < sent ==> forall k :: 0 <= k < |run.steps| ==> !SignsIn(run.steps[k])
    ensures Last(run).demand == d.(createdAt := Some(parked)) && Last(run).visitor == Some(Visitor(false, authTime))
    ensures Last(run).arrived == Some(Arrival(authTime >= sent, sent))
  {
    var reached := Reaches(d, standing, authTime, sent, parked);
    run := GoRound(reached, standing, n);
    HandledSplits(run.steps, |reached.steps|, |run.steps|);
    assert forall k :: 0 <= k < |reached.states| ==> run.states[k] == reached.states[k];
    assert forall k :: 0 <= k < |reached.steps| ==> run.steps[k] == reached.steps[k];
  }

  lemma {:induction false} HandledSplits(steps: seq<Step>, i: nat, j: nat)
    requires i <= j <= |steps|
    ensures Handled(steps, 0, j) == Handled(steps, 0, i) + Handled(steps, i, j)
    decreases j
  {
    if i < j { HandledSplits(steps, i, j - 1); }
  }

  // --- The handlers --------------------------------------------------------

  class Browser {
    var state: State

    constructor (demand: Demand, visitor: Option<Visitor>, now: Time)
      ensures state == State(AtAuthorize, demand, visitor, None, now)
    {
      state := State(AtAuthorize, demand, visitor, None, now);
    }

    /** GET or POST /oauth2/authorize, once the request has been parsed: the first decision. */
    method Authorize(standing: Standing, carried: bool)
      requires state.page.AtAuthorize?
      modifies this
      ensures Next(old(state), Step.Authorize(standing, carried), state)
    {
      var current := if carried then state.visitor else None;
      var decision := Resolve(state.demand, current, standing, state.now);
      var arrived := Some(Arrival(carried, state.now));
      if decision.Error? {
        state := state.(page := ToClient(false), arrived := arrived);
      } else {
        state := state.(page := AtParking(decision), arrived := arrived);
      }
    }

    /** The rest of it: the request is stored, and the browser leaves for the page the decision
        names. */
    method Park(completes: bool)
      requires state.page.AtParking? && !state.page.decision.Error?
      modifies this
      ensures Next(old(state), Step.Park(completes), state)
    {
      var decision := state.page.decision;
      state := state.(demand := state.demand.(createdAt := Some(state.now)));
      if decision.Login? {
        var reauthenticate := decision.reason == PromptLogin || decision.reason == MaxAge;
        state := state.(page := AtLogin(reauthenticate, BackToContinue));
      } else if decision.Consent? {
        state := state.(page := AtConsent);
      } else {
        state := state.(page := ToClient(completes));
      }
    }

    /** GET /login: a browser with a session is sent on, unless it was asked to sign in again. */
    method LoginPage() returns (shown: bool)
      requires state.page.AtLogin?
      modifies this
      ensures if shown then state == old(state) && (state.visitor.None? || state.page.reauthenticate)
              else Next(old(state), Bounce, state)
    {
      if state.visitor.Some? && !state.page.reauthenticate {
        state := state.(page := Back(state.page.target));
        return false;
      }
      return true;
    }

    /** GET /register, from the link on the login page, and its own link back to a plain login
        page. A browser with a session is sent to its account instead. */
    method RegisterPage()
      requires state.page.AtLogin?
      modifies this
      ensures Next(old(state), Register, state)
    {
      if state.visitor.Some? {
        state := state.(page := Aside);
      } else {
        state := state.(page := AtLogin(false, state.page.target));
      }
    }

    /** Where login returns to: the parked request is evaluated again. */
    method ContinueAuthorization(standing: Standing, loads: bool, completes: bool)
      requires state.page.AtContinue? && (loads ==> Alive(state.demand, state.now))
      modifies this
      ensures Next(old(state), Continue(standing, loads, completes), state)
    {
      if !loads {
        state := state.(page := Aside);
        return;
      }
      var decision := Resolve(state.demand, state.visitor, standing, state.now);
      if decision.Login? {
        state := state.(page := AtLogin(false, BackToContinue));
      } else if decision.Consent? {
        state := state.(page := AtConsent);
      } else {
        state := state.(page := ToClient(decision.Issue? && completes));
      }
    }

    /** The consent page: the request is loaded again, and then the session is looked at. */
    method ConsentPage(loads: bool)
      requires state.page.AtConsent? && (loads ==> Alive(state.demand, state.now))
      modifies this
      ensures Next(old(state), ShowConsent(loads), state)
    {
      if !loads {
        state := state.(page := Aside);
      } else if state.visitor.None? {
        state := state.(page := AtLogin(false, BackToConsent));
      } else {
        state := state.(page := AtForm);
      }
    }

    /** The consent form. Only a protocol error is shown here instead of being redirected. */
    method Submit(allows: bool, completes: bool)
      requires state.page.AtForm?
      modifies this
      ensures Next(old(state), SubmitConsent(allows, completes), state)
      ensures state.visitor == old(state).visitor && (state.page.ToClient? <==> completes && state.visitor.Some?)
      ensures state.page == ToClient(true) <==> allows && completes && state.visitor.Some?
    {
      if state.visitor.None? {
        state := state.(page := Aside);
      } else if completes {
        state := state.(page := ToClient(allows));
      } else {
        state := state.(page := Aside);
      }
    }
  }
}
