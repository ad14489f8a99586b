/** A disabled account and a shut client have nothing live left, whatever interleaves. */
module Shutdown {
  import opened Prelude
  import opened Tables
  import opened Transactions
  import opened History
  import opened Machine
  import opened Invariants
  import opened Reachability
  import opened Runs

  /** In every reachable state a disabled account has no unrevoked refresh token, unused code
      or unrevoked per-client session. */
  lemma DisabledMeansDead(cfg: Config, run: Run, i: nat, user: Id)
    requires ValidRun(cfg, run) && i < |run.states|
    requires user in run.states[i].db.users && run.states[i].db.users[user].status.UserDisabled?
    ensures NothingLive(run.states[i].db, user)
  {
    RunKeeps(cfg, run, i);
  }

  /** What `verifyEmail` and `authenticate` write is always ACTIVE: they confirm a pending account,
      and otherwise write back what they read. */
  lemma StatusWrittenIsActive(cfg: Config, run: Run, i: nat, call: Id)
    requires ValidRun(cfg, run) && i < |run.steps| && run.steps[i] == WriteStatus(call)
    ensures call in run.states[i].calls && run.states[i].calls[call].WritingStatus?
    ensures var user := run.states[i].calls[call].user;
      user in run.states[i + 1].db.users && run.states[i + 1].db.users[user].status == UserActive
  {
    RunKeeps(cfg, run, i);
    assert RunStep(cfg, run, i);
    var s := run.states[i];
    assert CallOk(s.calls[call], s.db, s.hist, s.review);
  }

  // --- Clients -------------------------------------------------------------

  /** The step writes APPROVED to the client. */
  predicate Approves(step: Step, client: Id) {
    match step
    case PutClient(c, row) => c == client && row.status.ClientApproved?
    case SetClientStatus(_, c, status) => c == client && status.ClientApproved?
    case _ => false
  }

  /** The step can end the call or replace it. */
  predicate Ends(step: Step, call: Id) {
    match step
    case ShutOidc(c, _) => c == call
    case Abort(c) => c == call
    case _ => false
  }

  predicate Shutting(s: State, call: Id, client: Id, epoch: nat) {
    call in s.calls && s.calls[call].ShuttingClient? && s.calls[call].client == client && s.calls[call].epoch == epoch
  }

  /** What a step can do to the review of one client, and to one call that is shutting it. */
  ghost predicate Reviews(s: State, step: Step, s': State, client: Id, call: Id, epoch: nat) {
    && (!Approves(step, client) ==> Epoch(s'.review, client) == Epoch(s.review, client))
    && (client in s.review.sealed ==> client in s'.review.sealed && s.review.sealed[client] <= s'.review.sealed[client])
    && (Shutting(s, call, client, epoch) && !Ends(step, call) ==> Shutting(s', call, client, epoch))
  }

  lemma MintReviews(cfg: Config, s: State, step: Step, s': State, client: Id, call: Id, epoch: nat)
    requires MintNext(cfg, s, step, s')
    ensures Reviews(s, step, s', client, call, epoch)
  {
  }

  lemma ReadReviews(cfg: Config, s: State, step: Step, s': State, client: Id, call: Id, epoch: nat)
    requires ReadNext(cfg, s, step, s')
    ensures s'.review == s.review
    ensures Shutting(s, call, client, epoch) && step != Abort(call) ==> Shutting(s', call, client, epoch)
  {
  }

  lemma RevokeReviews(cfg: Config, s: State, step: Step, s': State, client: Id, call: Id, epoch: nat)
    requires RevokeNext(cfg, s, step, s')
    ensures Reviews(s, step, s', client, call, epoch)
  {
  }

  lemma AdminReviews(cfg: Config, s: State, step: Step, s': State, client: Id, call: Id, epoch: nat)
    requires AdminNext(cfg, s, step, s')
    ensures Reviews(s, step, s', client, call, epoch)
  {
  }

  lemma SweepReviews(cfg: Config, s: State, step: Step, s': State, client: Id, call: Id, epoch: nat)
    requires SweepNext(cfg, s, step, s')
    ensures Reviews(s, step, s', client, call, epoch)
  {
  }

  lemma ReviewStep(cfg: Config, run: Run, i: nat, client: Id, call: Id, epoch: nat)
    requires ValidRun(cfg, run) && i < |run.steps|
    ensures Reviews(run.states[i], run.steps[i], run.states[i + 1], client, call, epoch)
  {
    var s, step, s' := run.states[i], run.steps[i], run.states[i + 1];
    assert RunStep(cfg, run, i);
    if MintNext(cfg, s, step, s') { MintReviews(cfg, s, step, s', client, call, epoch); }
    else if ReadNext(cfg, s, step, s') { ReadReviews(cfg, s, step, s', client, call, epoch); }
    else if RevokeNext(cfg, s, step, s') { RevokeReviews(cfg, s, step, s', client, call, epoch); }
    else if AdminNext(cfg, s, step, s') { AdminReviews(cfg, s, step, s', client, call, epoch); }
    else { SweepReviews(cfg, s, step, s', client, call, epoch); }
  }

  lemma {:induction false} EpochKept(cfg: Config, run: Run, i: nat, j: nat, client: Id)
    requires ValidRun(cfg, run) && i <= j < |run.states|
    requires forall k :: i <= k < j ==> !Approves(run.steps[k], client)
    ensures Epoch(run.states[j].review, client) == Epoch(run.states[i].review, client)
    decreases j
  {
    if i < j {
      EpochKept(cfg, run, i, j - 1, client);
      ReviewStep(cfg, run, j - 1, client, 0, 0);
    }
  }

  lemma {:induction false} SealKept(cfg: Config, run: Run, i: nat, j: nat, client: Id)
    requires ValidRun(cfg, run) && i <= j < |run.states| && client in run.states[i].review.sealed
    ensures client in run.states[j].review.sealed
    ensures run.states[i].review.sealed[client] <= run.states[j].review.sealed[client]
    decreases j
  {
    if i < j {
      SealKept(cfg, run, i, j - 1, client);
      ReviewStep(cfg, run, j - 1, client, 0, 0);
    }
  }

  lemma {:induction false} ShuttingKept(cfg: Config, run: Run, i: nat, j: nat, call: Id, client: Id, epoch: nat)
    requires ValidRun(cfg, run) && i <= j < |run.states|
    requires Shutting(run.states[i], call, client, epoch)
    requires forall k :: i <= k < j ==> !Ends(run.steps[k], call)
    ensures Shutting(run.states[j], call, client, epoch)
    decreases j
  {
    if i < j {
      ShuttingKept(cfg, run, i, j - 1, call, client, epoch);
      ReviewStep(cfg, run, j - 1, client, call, epoch);
    }
  }

  lemma ShutBegins(cfg: Config, run: Run, i: nat, call: Id, client: Id, status: ClientStatus)
    requires ValidRun(cfg, run) && i < |run.steps|
    requires run.steps[i] == SetClientStatus(call, client, status) && (status.ClientDisabled? || status.ClientRejected?)
    ensures Shutting(run.states[i + 1], call, client, Epoch(run.states[i].review, client))
  {
    assert RunStep(cfg, run, i);
  }

  lemma ShutEnds(cfg: Config, run: Run, i: nat, call: Id, client: Id, epoch: nat, at: Time)
    requires ValidRun(cfg, run) && i < |run.steps|
    requires run.steps[i] == ShutOidc(call, at) && Shutting(run.states[i], call, client, epoch)
    ensures client in run.states[i + 1].review.sealed && epoch <= run.states[i + 1].review.sealed[client]
  {
    assert RunStep(cfg, run, i);
  }

  lemma SealedIsShut(cfg: Config, run: Run, i: nat, client: Id, epoch: nat)
    requires ValidRun(cfg, run) && i < |run.states|
    requires client in run.states[i].review.sealed && epoch <= run.states[i].review.sealed[client]
    requires Epoch(run.states[i].review, client) == epoch
    ensures NotApproved(run.states[i].db.clients, client)
    ensures NoLiveRefresh(run.states[i].db.refresh, client) && NoLiveOidc(run.states[i].db.oidc, client)
  {
    RunKeeps(cfg, run, i);
    assert Sealed(run.states[i].review, client);
  }

  /** Setting a client DISABLED or REJECTED takes three separate writes. Once the last one is
      done, and until somebody writes APPROVED again, the client has no live refresh token or
      session, whatever exchanges were under way and whoever else was shutting it. */
  lemma ShutClientStaysDead(cfg: Config, run: Run, first: nat, last: nat, i: nat,
                            call: Id, client: Id, status: ClientStatus, at: Time)
    requires ValidRun(cfg, run) && first < last < i < |run.states|
    requires run.steps[first] == SetClientStatus(call, client, status)
      && (status.ClientDisabled? || status.ClientRejected?)
    requires run.steps[last] == ShutOidc(call, at)
    requires forall k :: first < k < last ==> !Ends(run.steps[k], call)
    requires forall k :: first <= k < i ==> !Approves(run.steps[k], client)
    ensures NotApproved(run.states[i].db.clients, client)
    ensures NoLiveRefresh(run.states[i].db.refresh, client) && NoLiveOidc(run.states[i].db.oidc, client)
  {
    var epoch := Epoch(run.states[first].review, client);
    ShutBegins(cfg, run, first, call, client, status);
    ShuttingKept(cfg, run, first + 1, last, call, client, epoch);
    ShutEnds(cfg, run, last, call, client, epoch, at);
    SealKept(cfg, run, last + 1, i, client);
    EpochKept(cfg, run, first, i, client);
    SealedIsShut(cfg, run, i, client, epoch);
  }
}
