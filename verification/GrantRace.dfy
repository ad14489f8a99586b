/** Recording consent by compare-and-swap, one read or write at a time, against any number of
    others doing the same for the same user and client. */
module GrantRace {
  import opened Prelude
  import opened Tables
  import Transactions

  const ATTEMPTS := 4

  datatype Row = Row(id: nat, scopes: set<Scope>, revoked: bool, version: nat)

  /** The scopes the row stands for: none once it was withdrawn or deleted. */
  function Effective(row: Option<Row>): set<Scope> {
    if row.Some? && !row.value.revoked then row.value.scopes else {}
  }

  /** What a widening is meant to do, in one indivisible step. */
  function Union(row: Option<Row>, scopes: set<Scope>, newId: nat): Row {
    if row.None? then Row(newId, scopes, false, 1)
    else Row(row.value.id, Effective(row) + scopes, false, row.value.version + 1)
  }

  function AsRow(grant: Grant, id: nat): Row {
    Row(id, grant.scopes, grant.revokedAt.Some?, grant.version)
  }

  /** It is the step that the provider's transactions take under the grant's row lock. */
  lemma UnionIsWidened(grants: map<(Id, Id), Grant>, key: (Id, Id), scopes: set<Scope>, id: nat)
    ensures AsRow(Transactions.Widened(grants, key, scopes), id) ==
      Union(if key in grants then Some(AsRow(grants[key], id)) else None, scopes, id)
  {
  }

  // --- The machine ---------------------------------------------------------

  datatype Phase = Reading | Writing(read: Option<Row>) | Done | Failed

  datatype Caller = Caller(scopes: set<Scope>, attempt: nat, phase: Phase)

  datatype Effect = Widened(call: Id, scopes: set<Scope>) | Withdrawn | Deleted

  /** Row ids are never reused: `nextId` is above all of them. */
  datatype State = State(row: Option<Row>, nextId: nat, callers: map<Id, Caller>, effects: seq<Effect>)

  datatype Step = Begin(call: Id, scopes: set<Scope>) | Read(call: Id) | Write(call: Id) | Withdraw | Delete

  predicate Initial(s: State) { s == State(None, 0, map[], []) }

  function Moved(s: State, call: Id, c: Caller): State { s.(callers := s.callers[call := c]) }

  /** The caller lost the race, and tries again unless that was its last attempt. */
  function Lost(c: Caller): Caller {
    Caller(c.scopes, c.attempt + 1, if c.attempt + 1 < ATTEMPTS then Reading else Failed)
  }

  /** The write would hit the row that was read: an insert finds none, an update finds the
      same id and version. */
  predicate Claims(read: Option<Row>, row: Option<Row>) {
    match read
    case None => row.None?
    case Some(r) => row.Some? && row.value.id == r.id && row.value.version == r.version
  }

  /** The row the write leaves is computed from the copy that was read. */
  function Merged(read: Option<Row>, scopes: set<Scope>, newId: nat): Row {
    match read
    case None => Row(newId, scopes, false, 1)
    case Some(r) => Row(r.id, (if r.revoked then {} else r.scopes) + scopes, false, r.version + 1)
  }

  predicate WriteStep(s: State, s': State, call: Id) {
    && call in s.callers && s.callers[call].phase.Writing?
    && var c := s.callers[call];
    s' == if Claims(c.phase.read, s.row)
          then Moved(s, call, c.(phase := Done)).(
                 row := Some(Merged(c.phase.read, c.scopes, s.nextId)), nextId := s.nextId + 1,
                 effects := s.effects + [Widened(call, c.scopes)])
          else Moved(s, call, Lost(c))
  }

  predicate Next(s: State, step: Step, s': State) {
    match step
    case Begin(call, scopes) => call !in s.callers && s' == Moved(s, call, Caller(scopes, 0, Reading))
    case Read(call) =>
      && call in s.callers && s.callers[call].phase.Reading?
      && s' == Moved(s, call, s.callers[call].(phase := Writing(s.row)))
    case Write(call) => WriteStep(s, s', call)
    case Withdraw =>
      && s.row.Some? && !s.row.value.revoked
      && s' == s.(row := Some(s.row.value.(revoked := true, version := s.row.value.version + 1)),
                  effects := s.effects + [Withdrawn])
    case Delete => s' == s.(row := None, effects := s.effects + [Deleted])
  }

  /** What the effects, taken one after the other, add up to. */
  function Replay(effects: seq<Effect>): set<Scope> {
    if effects == [] then {}
    else
      var last := effects[|effects| - 1];
      if last.Widened? then Replay(effects[..|effects| - 1]) + last.scopes else {}
  }

  /** `row` is what was read, or shows that it moved on. */
  predicate Since(r: Row, row: Option<Row>) {
    row.Some? && row.value.id == r.id ==> row.value == r || r.version < row.value.version
  }

  predicate CallerOk(s: State, call: Id)
    requires call in s.callers
  {
    var c := s.callers[call];
    && (c.attempt < ATTEMPTS || (c.attempt == ATTEMPTS && c.phase.Failed?))
    && (c.phase.Writing? && c.phase.read.Some? ==> c.phase.read.value.id < s.nextId && Since(c.phase.read.value, s.row))
    && (c.phase.Done? <==> Widened(call, c.scopes) in s.effects)
  }

  ghost predicate EffectsOk(s: State) {
    && (forall i :: 0 <= i < |s.effects| && s.effects[i].Widened? ==>
          s.effects[i].call in s.callers && s.callers[s.effects[i].call].scopes == s.effects[i].scopes)
    && (forall i, j :: 0 <= i < j < |s.effects| && s.effects[i].Widened? && s.effects[j].Widened? ==>
          s.effects[i].call != s.effects[j].call)
  }

  ghost predicate Inv(s: State) {
    && (s.row.Some? ==> s.row.value.id < s.nextId)
    && Effective(s.row) == Replay(s.effects)
    && EffectsOk(s)
    && forall call {:trigger CallerOk(s, call)} :: call in s.callers ==> CallerOk(s, call)
  }

  /** Equal id and version mean an unchanged row, so a write that claims its row merges into
      the current scopes, not into stale ones. */
  lemma ClaimSeesCurrent(s: State, call: Id)
    requires Inv(s) && call in s.callers && s.callers[call].phase.Writing?
    requires Claims(s.callers[call].phase.read, s.row)
    ensures Merged(s.callers[call].phase.read, s.callers[call].scopes, s.nextId)
      == Union(s.row, s.callers[call].scopes, s.nextId)
  {
    assert CallerOk(s, call);
    var read := s.callers[call].phase.read;
    if read.Some? {
      assert s.row == read;
    }
  }

  lemma ReplayAppend(effects: seq<Effect>, e: Effect)
    ensures Replay(effects + [e]) == if e.Widened? then Replay(effects) + e.scopes else {}
  {
    assert (effects + [e])[..|effects|] == effects;
  }

  lemma WriteKeeps(s: State, s': State, call: Id)
    requires Inv(s) && WriteStep(s, s', call)
    ensures Inv(s')
  {
    var c := s.callers[call];
    assert CallerOk(s, call);
    if Claims(c.phase.read, s.row) {
      ClaimSeesCurrent(s, call);
      ReplayAppend(s.effects, Widened(call, c.scopes));
      assert Effective(s'.row) == Replay(s'.effects);
      forall i | 0 <= i < |s.effects| && s.effects[i].Widened? ensures s.effects[i].call != call {
        assert s.effects[i] == Widened(s.effects[i].call, s.callers[s.effects[i].call].scopes);
      }
    }
    forall x | x in s'.callers ensures CallerOk(s', x) { assert CallerOk(s, x); }
  }

  lemma NextKeeps(s: State, step: Step, s': State)
    requires Inv(s) && Next(s, step, s')
    ensures Inv(s')
  {
    if step.Write? {
      WriteKeeps(s, s', step.call);
    } else {
      if step.Withdraw? { ReplayAppend(s.effects, Withdrawn); }
      if step.Delete? { ReplayAppend(s.effects, Deleted); }
      forall x | x in s'.callers ensures CallerOk(s', x) {
        if x in s.callers { assert CallerOk(s, x); }
        if step.Begin? && x == step.call { assert Widened(x, step.scopes) !in s.effects; }
      }
    }
  }

  // --- Runs ----------------------------------------------------------------

  ghost predicate Run(states: seq<State>, steps: seq<Step>) {
    && |states| == |steps| + 1 && Initial(states[0])
    && forall i {:trigger Linked(states, steps, i)} :: 0 <= i < |steps| ==> Linked(states, steps, i)
  }

  predicate Linked(states: seq<State>, steps: seq<Step>, i: nat)
    requires i < |steps| < |states|
  {
    Next(states[i], steps[i], states[i + 1])
  }

  lemma {:induction false} RunKeeps(states: seq<State>, steps: seq<Step>, i: nat)
    requires Run(states, steps) && i < |states|
    ensures Inv(states[i])
  {
    if i > 0 {
      RunKeeps(states, steps, i - 1);
      assert Linked(states, steps, i - 1);
      NextKeeps(states[i - 1], steps[i - 1], states[i]);
    }
  }

  /** A call that succeeds takes effect at its write, as one indivisible widening of the row as
      it is at that moment; a write that loses changes nothing. */
  lemma WriteIsAtomicUnion(states: seq<State>, steps: seq<Step>, i: nat)
    requires Run(states, steps) && i < |steps| && steps[i].Write?
    ensures var call, s, s' := steps[i].call, states[i], states[i + 1];
      && call in s.callers && call in s'.callers
      && (if s'.callers[call].phase.Done?
          then s'.row == Some(Union(s.row, s.callers[call].scopes, s.nextId))
               && Effective(s'.row) == Effective(s.row) + s.callers[call].scopes
          else s'.row == s.row)
  {
    assert Linked(states, steps, i);
    RunKeeps(states, steps, i);
    if Claims(states[i].callers[steps[i].call].phase.read, states[i].row) {
      ClaimSeesCurrent(states[i], steps[i].call);
    }
  }

  /** No update is lost: the grant is always the union of every widening since it was last
      withdrawn or deleted, and a call has returned exactly when it is among the effects. */
  lemma NothingLost(states: seq<State>, steps: seq<Step>, i: nat, call: Id)
    requires Run(states, steps) && i < |states| && call in states[i].callers
    ensures Effective(states[i].row) == Replay(states[i].effects)
    ensures var c := states[i].callers[call]; c.phase.Done? <==> Widened(call, c.scopes) in states[i].effects
  {
    RunKeeps(states, steps, i);
    assert CallerOk(states[i], call);
  }

  /** A call takes effect once, and gives up after four attempts without having had any. */
  lemma FourAttempts(states: seq<State>, steps: seq<Step>, i: nat, call: Id)
    requires Run(states, steps) && i < |states| && call in states[i].callers
    ensures states[i].callers[call].attempt <= ATTEMPTS
    ensures states[i].callers[call].attempt == ATTEMPTS ==> states[i].callers[call].phase.Failed?
    ensures var effects := states[i].effects;
      forall j, k :: 0 <= j < k < |effects| && effects[j].Widened? && effects[k].Widened? ==>
        effects[j].call != effects[k].call
  {
    RunKeeps(states, steps, i);
    assert CallerOk(states[i], call);
  }

  // --- The loop ------------------------------------------------------------

  /** What others can do to the row between two accesses. */
  datatype Move = Widen(scopes: set<Scope>) | Withdrawal | Deletion

  datatype Cell = Cell(row: Option<Row>, nextId: nat)

  predicate Valid(t: Cell) { t.row.Some? ==> t.row.value.id < t.nextId }

  function Apply(t: Cell, m: Move): Cell {
    match m
    case Widen(scopes) => Cell(Some(Union(t.row, scopes, t.nextId)), t.nextId + 1)
    case Withdrawal =>
      if t.row.Some? && !t.row.value.revoked
      then t.(row := Some(t.row.value.(revoked := true, version := t.row.value.version + 1))) else t
    case Deletion => t.(row := None)
  }

  function ApplyAll(t: Cell, moves: seq<Move>): Cell {
    if moves == [] then t else Apply(ApplyAll(t, moves[..|moves| - 1]), moves[|moves| - 1])
  }

  /** Versions only grow, and a deleted row's id does not come back. */
  lemma {:induction false} MovesAreSeen(t: Cell, moves: seq<Move>, r: Row)
    requires Valid(t) && r.id < t.nextId && Since(r, t.row)
    ensures var t' := ApplyAll(t, moves); Valid(t') && t.nextId <= t'.nextId && Since(r, t'.row)
  {
    if moves != [] { MovesAreSeen(t, moves[..|moves| - 1], r); }
  }

  lemma {:induction false} MovesKeepValid(t: Cell, moves: seq<Move>)
    requires Valid(t)
    ensures Valid(ApplyAll(t, moves))
  {
    if moves != [] { MovesKeepValid(t, moves[..|moves| - 1]); }
  }

  lemma {:induction false} ApplyTwice(t: Cell, a: seq<Move>, b: seq<Move>)
    ensures ApplyAll(ApplyAll(t, a), b) == ApplyAll(t, a + b)
  {
    if b == [] {
      assert a + b == a;
    } else {
      ApplyTwice(t, a, b[..|b| - 1]);
      assert (a + b)[..|a + b| - 1] == a + b[..|b| - 1];
    }
  }

  function Flat(rounds: seq<seq<Move>>): seq<Move> {
    if rounds == [] then [] else Flat(rounds[..|rounds| - 1]) + rounds[|rounds| - 1]
  }

  /** `others[k]` is what others do between the read and the write of attempt `k`. However they
      interfere, a call that returns has widened the row once, atomically, after the moves of
      the attempts up to its last; a call that fails has done nothing. */
  method UpsertGrant(before: Cell, scopes: set<Scope>, others: seq<seq<Move>>) returns (done: bool, after: Cell,
                     rounds: nat)
    requires Valid(before) && |others| == ATTEMPTS
    ensures 0 < rounds <= ATTEMPTS && (!done ==> rounds == ATTEMPTS)
    ensures var moved := ApplyAll(before, Flat(others[..rounds]));
      after == if done then Apply(moved, Widen(scopes)) else moved
  {
    var table := before;
    var attempt := 0;
    while attempt < ATTEMPTS
      invariant 0 <= attempt <= ATTEMPTS
      invariant table == ApplyAll(before, Flat(others[..attempt])) && Valid(table)
    {
      var existing := table.row;
      var merged := (if existing.Some? && !existing.value.revoked then existing.value.scopes else {}) + scopes;

      ghost var read := table;
      table := Interfere(table, others[attempt]);
      ApplyTwice(before, Flat(others[..attempt]), others[attempt]);
      assert others[..attempt + 1][..attempt] == others[..attempt];
      MovesKeepValid(read, others[attempt]);
      attempt := attempt + 1;

      if existing.None? {
        assert merged == scopes;
        if table.row.None? {
          return true, Cell(Some(Row(table.nextId, merged, false, 1)), table.nextId + 1), attempt;
        }
      } else {
        MovesAreSeen(read, others[attempt - 1], existing.value);
        if table.row.Some? && table.row.value.id == existing.value.id
          && table.row.value.version == existing.value.version {
          var written := Row(existing.value.id, merged, false, existing.value.version + 1);
          return true, Cell(Some(written), table.nextId + 1), attempt;
        }
      }
    }
    return false, table, ATTEMPTS;
  }

  /** The others' moves, one after the other. */
  method Interfere(t: Cell, moves: seq<Move>) returns (after: Cell)
    ensures after == ApplyAll(t, moves)
  {
    after := t;
    for i := 0 to |moves|
      invariant after == ApplyAll(t, moves[..i])
    {
      assert moves[..i + 1][..i] == moves[..i];
      after := Apply(after, moves[i]);
    }
    assert moves[..|moves|] == moves;
  }
}
