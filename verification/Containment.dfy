/** Replay containment is permanent (RFC 6749 section 4.1.2, RFC 9700 section 4.14): no later
    step, and no exchange already past its pre-read, gets around it. */
module Containment {
  import opened Prelude
  import opened Tables
  import opened Transactions
  import opened History
  import opened Machine
  import opened Invariants
  import opened Closing
  import opened Reachability
  import opened Runs
  import opened Descent

  // --- A refused refresh token ---------------------------------------------

  /** Step `i` ends a `revokeFamily`, after which the request that asked for it is answered:
      a replayed or misused refresh token was refused, or its holder revoked it. */
  predicate RevokesFamily(run: Run, i: nat, family: Id)
    requires i < |run.steps| < |run.states|
  {
    var calls := run.states[i].calls;
    match run.steps[i]
    case FindFamily(call, found) =>
      call in calls && calls[call].FindingFamily? && found.None? && calls[call].family == family
    case CommitFamily(call, _) => call in calls && calls[call].RevokingFamily? && calls[call].family == family
    case _ => false
  }

  lemma FamilyEvent(cfg: Config, run: Run, i: nat, family: Id)
    requires ValidRun(cfg, run) && i < |run.steps| && RevokesFamily(run, i, family)
    ensures exists e ::
      run.states[i + 1].hist.log == run.states[i].hist.log + [e] && e.FamilyRevoked? && e.family == family
  {
    StepLogs(cfg, run, i);
  }

  lemma ShutOnRecord(cfg: Config, run: Run, i: nat, family: Id)
    requires ValidRun(cfg, run) && i < |run.states| && family in run.states[i].hist.revoked
    ensures FamilyShut(run.states[i].db.refresh, family)
  {
    RunKeeps(cfg, run, i);
    var s := run.states[i];
    forall t | t in s.db.refresh && s.db.refresh[t].family == family ensures s.db.refresh[t].revokedAt.Some? {
      assert RefreshRowOk(s.db.refresh[t], t, s.hist);
    }
  }

  /** Once a family was revoked, every row it has or will ever have is revoked. */
  lemma RevokedFamilyStaysShut(cfg: Config, run: Run, i: nat, j: nat, family: Id)
    requires ValidRun(cfg, run) && i < j < |run.states|
    requires RevokesFamily(run, i, family)
    ensures FamilyShut(run.states[j].db.refresh, family)
  {
    FamilyEvent(cfg, run, i, family);
    LogGrows(cfg, run, i + 1, j);
    LogAt(cfg, run, j);
    var h := run.states[j].hist;
    assert h.log[|run.states[i].hist.log|].FamilyRevoked?;
    assert family in h.revoked;
    ShutOnRecord(cfg, run, j, family);
  }

  /** Step `j` commits an exchange of a token of the family. */
  predicate ExchangesFamily(run: Run, j: nat, family: Id)
    requires j < |run.steps| < |run.states|
  {
    var calls := run.states[j].calls;
    match run.steps[j]
    case CommitRefresh(call, _, _) => call in calls && calls[call].Refreshing? && calls[call].held.family == family
    case _ => false
  }

  lemma ExchangedFamily(cfg: Config, run: Run, j: nat, family: Id)
    requires ValidRun(cfg, run) && j < |run.steps| && ExchangesFamily(run, j, family)
    ensures !FamilyShut(run.states[j].db.refresh, family)
  {
    var call := run.steps[j].call;
    var c := run.states[j].calls[call];
    ExchangedRow(cfg, run, j, c.token);
    HeldToken(cfg, run, j, call);
    RowTraced(cfg, run, j, c.token);
    assert RefreshBirth(c.held).family == c.held.family;
  }

  /** And no exchange of one of its tokens commits any more, whenever it made its pre-read. */
  lemma NoExchangeAfterReplay(cfg: Config, run: Run, i: nat, j: nat, family: Id, other: Id)
    requires ValidRun(cfg, run) && i < j < |run.steps|
    requires RevokesFamily(run, i, family) && ExchangesFamily(run, j, other)
    ensures family != other
  {
    RevokedFamilyStaysShut(cfg, run, i, j, family);
    ExchangedFamily(cfg, run, j, other);
  }

  // --- A refused code ------------------------------------------------------

  /** Step `i` revokes what a replayed code had given rise to; the refusal follows. */
  predicate ContainsCode(run: Run, i: nat, code: Id)
    requires i < |run.steps| < |run.states|
  {
    var calls := run.states[i].calls;
    match run.steps[i]
    case Contain(call, _) => call in calls && calls[call].Containing? && calls[call].code == code
    case _ => false
  }

  lemma ContainEvent(cfg: Config, run: Run, i: nat, code: Id)
    requires ValidRun(cfg, run) && i < |run.steps| && ContainsCode(run, i, code)
    ensures exists e ::
      run.states[i + 1].hist.log == run.states[i].hist.log + [e] && e.CodeReplayRefused? && e.code == code
  {
    StepLogs(cfg, run, i);
  }

  lemma ContainedOnRecord(cfg: Config, run: Run, i: nat, j: nat, code: Id)
    requires ValidRun(cfg, run) && i < j < |run.states| && ContainsCode(run, i, code)
    ensures code in run.states[j].hist.contained
  {
    ContainEvent(cfg, run, i, code);
    LogGrows(cfg, run, i + 1, j);
    LogAt(cfg, run, j);
    assert run.states[j].hist.log[|run.states[i].hist.log|].CodeReplayRefused?;
  }

  /** The token's family was redeemed from `code`. */
  predicate DescendsFrom(h: History, row: Refresh, code: Id) {
    row.family in h.families && h.families[row.family].code == code
  }

  /** After a replayed code was refused its row stays used for as long as it is retained, and
      every refresh token descended from it is revoked, whichever request minted it. */
  lemma ReplayedCodeStaysContained(cfg: Config, run: Run, i: nat, j: nat, code: Id)
    requires ValidRun(cfg, run) && i < j < |run.states| && ContainsCode(run, i, code)
    ensures var s := run.states[j];
      && (code in s.db.codes ==> s.db.codes[code].usedAt.Some?)
      && forall t :: t in s.db.refresh && DescendsFrom(s.hist, s.db.refresh[t], code) ==>
        s.db.refresh[t].revokedAt.Some?
  {
    var s := run.states[j];
    ContainedOnRecord(cfg, run, i, j, code);
    LogAt(cfg, run, j);
    CodeTraced(cfg, run, j, code);
    forall t | t in s.db.refresh && DescendsFrom(s.hist, s.db.refresh[t], code)
      ensures s.db.refresh[t].revokedAt.Some?
    {
      RowTraced(cfg, run, j, t);
    }
  }

  lemma CodeTraced(cfg: Config, run: Run, i: nat, code: Id)
    requires ValidRun(cfg, run) && i < |run.states|
    ensures code in run.states[i].db.codes ==> CodeRowOk(run.states[i].db.codes[code], code, run.states[i].hist)
  {
    RunKeeps(cfg, run, i);
  }

  /** And the code never issues tokens afterwards. */
  lemma NoRedemptionAfterReplay(cfg: Config, run: Run, i: nat, j: nat, code: Id, other: Id)
    requires ValidRun(cfg, run) && i < j < |run.steps|
    requires ContainsCode(run, i, code) && RedeemsCode(run, j, other)
    ensures code != other
  {
    ReplayedCodeStaysContained(cfg, run, i, j, code);
    RedeemedRow(cfg, run, j, other);
  }

  lemma RedeemedRow(cfg: Config, run: Run, i: nat, code: Id)
    requires ValidRun(cfg, run) && i < |run.steps| && RedeemsCode(run, i, code)
    ensures code in run.states[i].db.codes && run.states[i].db.codes[code].usedAt.None?
  {
    assert RunStep(cfg, run, i);
  }
}
