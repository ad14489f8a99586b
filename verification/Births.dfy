/** The history keeps every code as it was inserted, whatever becomes of its row. */
module Births {
  import opened Prelude
  import opened Tables
  import opened Transactions
  import opened History
  import opened Machine
  import opened Invariants
  import opened UpkeepClosing
  import opened Reachability

  ghost predicate BirthsKept(h: History, h': History, code: Id) {
    code in h.codes ==> code in h'.codes && h'.codes[code] == h.codes[code]
  }

  /** Only issuing a code adds a birth, and under a name nobody has seen. */
  lemma MintBirths(cfg: Config, s: State, step: Step, s': State, code: Id)
    requires MintNext(cfg, s, step, s') && (code in s.hist.codes ==> code in s.hist.seen)
    ensures BirthsKept(s.hist, s'.hist, code)
  {
    match step
    case CommitCode(call, at, c, sid) => CommitBirths(cfg, s, s', call, at, c, sid, code);
    case CommitRedeem(call, at, token, family) => RedeemBirths(cfg, s, s', call, at, token, family);
    case CommitRefresh(call, at, minted) => RefreshBirths(cfg, s, s', call, at, minted);
  }

  lemma CommitBirths(cfg: Config, s: State, s': State, call: Id, at: Time, c: Id, sid: Id, code: Id)
    requires CommitCodeStep(cfg, s, s', call, at, c, sid) && (code in s.hist.codes ==> code in s.hist.seen)
    ensures BirthsKept(s.hist, s'.hist, code)
  {
  }

  lemma RedeemedCodes(cfg: Config, s: State, c: Call, at: Time, token: Id, family: Id)
    requires c.Redeeming? && RedeemOutcome(cfg, s, c, at, token, family).Committed?
    ensures RedeemedHistory(cfg, s, c, at, token, family).codes == s.hist.codes
  {
    var i := CodeIssue(c.row, c.client, family);
    var recorded := Record(s.hist, Redeemed(c.code, c.row.user, c.client, at));
    assert recorded.codes == s.hist.codes;
    var h := WithAccess(Stamped(recorded, at), s.db, i, at, c.code, true);
    assert h.codes == s.hist.codes;
  }

  lemma RedeemBirths(cfg: Config, s: State, s': State, call: Id, at: Time, token: Id, family: Id)
    requires CommitRedeemStep(cfg, s, s', call, at, token, family)
    ensures s'.hist.codes == s.hist.codes
  {
    RedeemedCodes(cfg, s, s.calls[call], at, token, family);
  }

  lemma RefreshBirths(cfg: Config, s: State, s': State, call: Id, at: Time, minted: Id)
    requires CommitRefreshStep(cfg, s, s', call, at, minted)
    ensures s'.hist.codes == s.hist.codes
  {
  }

  lemma ReadBirths(cfg: Config, s: State, step: Step, s': State)
    requires ReadNext(cfg, s, step, s')
    ensures s'.hist.codes == s.hist.codes
  {
  }

  lemma RevokeBirths(cfg: Config, s: State, step: Step, s': State)
    requires RevokeNext(cfg, s, step, s')
    ensures s'.hist.codes == s.hist.codes
  {
  }

  lemma AdminBirths(cfg: Config, s: State, step: Step, s': State)
    requires AdminNext(cfg, s, step, s')
    ensures s'.hist.codes == s.hist.codes
  {
  }

  lemma CodesSeen(cfg: Config, run: Run, i: nat, code: Id)
    requires ValidRun(cfg, run) && i < |run.states| && code in run.states[i].hist.codes
    ensures code in run.states[i].hist.seen
  {
    RunKeeps(cfg, run, i);
  }

  lemma StepBirths(cfg: Config, run: Run, i: nat, code: Id)
    requires ValidRun(cfg, run) && i < |run.steps|
    ensures BirthsKept(run.states[i].hist, run.states[i + 1].hist, code)
  {
    var s, step, s' := run.states[i], run.steps[i], run.states[i + 1];
    assert RunStep(cfg, run, i);
    if MintNext(cfg, s, step, s') {
      if code in s.hist.codes { CodesSeen(cfg, run, i, code); }
      MintBirths(cfg, s, step, s', code);
    } else if AdminNext(cfg, s, step, s') {
      AdminBirths(cfg, s, step, s');
    } else if ReadNext(cfg, s, step, s') {
      ReadBirths(cfg, s, step, s');
    } else if RevokeNext(cfg, s, step, s') {
      RevokeBirths(cfg, s, step, s');
    } else {
      SweepCloses(cfg, s, step, s');
    }
  }

  lemma {:induction false} RunBirths(cfg: Config, run: Run, i: nat, j: nat, code: Id)
    requires ValidRun(cfg, run) && i <= j < |run.states|
    ensures BirthsKept(run.states[i].hist, run.states[j].hist, code)
    decreases j
  {
    if i < j {
      RunBirths(cfg, run, i, j - 1, code);
      StepBirths(cfg, run, j - 1, code);
    }
  }
}
