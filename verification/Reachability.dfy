/** Every step keeps the invariant, so every state of every run has it. */
module Reachability {
  import opened Prelude
  import opened Tables
  import opened Transactions
  import opened History
  import opened Machine
  import opened Invariants
  import opened Closing
  import opened UpkeepClosing
  import opened UpkeepOpening
  import opened UpkeepCode
  import opened UpkeepTokens

  lemma MintKeeps(cfg: Config, s: State, step: Step, s': State)
    requires Inv(cfg, s) && MintNext(cfg, s, step, s')
    ensures Inv(cfg, s')
  {
    match step
    case CommitCode(call, at, code, sid) => CommitCodeKeeps(cfg, s, s', call, at, code, sid);
    case CommitRedeem(call, at, token, family) => CommitRedeemKeeps(cfg, s, s', call, at, token, family);
    case CommitRefresh(call, at, minted) => CommitRefreshKeeps(cfg, s, s', call, at, minted);
  }

  lemma ReadKeeps(cfg: Config, s: State, step: Step, s': State)
    requires Inv(cfg, s) && ReadNext(cfg, s, step, s')
    ensures Inv(cfg, s')
  {
    match step
    case Tick(_) =>
    case LoadCompletion(call, p) => LoadCompletionKeeps(cfg, s, s', call, p);
    case LoadDenial(call, r) => StartInv(cfg, s, call, Denying(r));
    case ReadCode(call, code, client, verifier) => ReadCodeKeeps(cfg, s, s', call, code, client, verifier);
    case ReadRefresh(call, token, client, requested) => ReadRefreshKeeps(cfg, s, s', call, token, client, requested);
    case ReadStatus(call, user) => ReadStatusKeeps(cfg, s, s', call, user);
    case RevokeByToken(call, token, client) => RevokeByTokenKeeps(cfg, s, s', call, token, client);
    case LoseRedeem(call, at) => LoseRedeemKeeps(cfg, s, s', call, at);
    case LoseRefresh(call, at) => LoseRefreshKeeps(cfg, s, s', call, at);
    case FindFamily(call, found) => FindFamilyKeeps(cfg, s, s', call, found);
    case Refuse(call, _) => DoneInv(cfg, s, call);
    case Abort(call) => DoneInv(cfg, s, call);
  }

  lemma SweepKeeps(cfg: Config, s: State, step: Step, s': State)
    requires Inv(cfg, s) && SweepNext(cfg, s, step, s')
    ensures Inv(cfg, s')
  {
    SweepCloses(cfg, s, step, s');
    ClosedInv(cfg, s, s'.db);
  }

  lemma AdminKeeps(cfg: Config, s: State, step: Step, s': State)
    requires Inv(cfg, s) && AdminNext(cfg, s, step, s')
    ensures Inv(cfg, s')
  {
    match step
    case ParkRequest(r, row) => ParkRequestKeeps(cfg, s, s', r, row);
    case SignIn(session, row) => SignInKeeps(cfg, s, s', session, row);
    case TouchSession(session, expiresAt) => TouchSessionKeeps(cfg, s, s', session, expiresAt);
    case PutClient(client, row) => PutClientKeeps(cfg, s, s', client, row);
    case DeleteClient(client) => DeleteClientKeeps(cfg, s, s', client);
    case PutUser(user, row) => PutUserKeeps(cfg, s, s', user, row);
    case WriteStatus(call) => WriteStatusKeeps(cfg, s, s', call);
    case SetClientStatus(call, client, status) => SetClientStatusKeeps(cfg, s, s', call, client, status);
    case ResetPassword(user, at) => ResetPasswordKeeps(cfg, s, s', user, at);
    case SetAccountStatus(user, status, at) => SetAccountStatusKeeps(cfg, s, user, status, at);
  }

  lemma RevocationKeeps(cfg: Config, s: State, step: Step, s': State)
    requires Inv(cfg, s) && RevokeNext(cfg, s, step, s')
    ensures Inv(cfg, s')
  {
    match step
    case CommitDenial(call, at) => CommitDenialKeeps(cfg, s, s', call, at);
    case BurnCode(call, at) => BurnCodeKeeps(cfg, s, s', call, at);
    case Contain(call, at) => ContainKeeps(cfg, s, s', call, at);
    case CommitFamily(call, at) => CommitFamilyKeeps(cfg, s, s', call, at);
    case RevokeByAccess(session, client, user, at) =>
      RevokeForSessionCloses(s.db, session, client, user, at);
      ClosedInv(cfg, s, s'.db);
    case WithdrawGrant(user, client, at) => WithdrawGrantKeeps(cfg, s, s', user, client, at);
    case EndSession(session, user, at) => EndSessionKeeps(cfg, s, s', session, user, at);
    case LogoutSession(session, at) =>
      LogoutCloses(s.db, session, at);
      ClosedInv(cfg, s, s'.db);
    case RevokeAccount(user, at) => RevokeAllKeeps(cfg, s, user, at);
    case ShutRefresh(call, at) => ShutRefreshKeeps(cfg, s, s', call, at);
    case ShutOidc(call, at) => ShutOidcKeeps(cfg, s, s', call, at);
  }

  /** The invariant is inductive. */
  lemma NextKeeps(cfg: Config, s: State, step: Step, s': State)
    requires Inv(cfg, s) && Next(cfg, s, step, s')
    ensures Inv(cfg, s')
  {
    if MintNext(cfg, s, step, s') { MintKeeps(cfg, s, step, s'); }
    else if ReadNext(cfg, s, step, s') { ReadKeeps(cfg, s, step, s'); }
    else if RevokeNext(cfg, s, step, s') { RevocationKeeps(cfg, s, step, s'); }
    else if AdminNext(cfg, s, step, s') { AdminKeeps(cfg, s, step, s'); }
    else { SweepKeeps(cfg, s, step, s'); }
  }

  lemma StepKeeps(cfg: Config, run: Run, i: nat)
    requires ValidRun(cfg, run) && 0 < i < |run.states| && Inv(cfg, run.states[i - 1])
    ensures Inv(cfg, run.states[i])
  {
    assert RunStep(cfg, run, i - 1);
    NextKeeps(cfg, run.states[i - 1], run.steps[i - 1], run.states[i]);
  }

  lemma StartKeeps(cfg: Config, run: Run, i: nat)
    requires ValidRun(cfg, run) && i == 0
    ensures Inv(cfg, run.states[i])
  {
    InitialInv(cfg, run.states[0]);
  }

  /** Every state of every run satisfies the invariant. */
  lemma {:induction false} RunKeeps(cfg: Config, run: Run, i: nat)
    requires ValidRun(cfg, run) && i < |run.states|
    ensures Inv(cfg, run.states[i])
    decreases i
  {
    if i == 0 {
      StartKeeps(cfg, run, i);
    } else {
      RunKeeps(cfg, run, i - 1);
      StepKeeps(cfg, run, i);
    }
  }
}
