/** Every credential transaction takes its row locks in one order, so no set of them can wait
    for each other in a circle. */
module LockOrder {
  import opened Prelude

  // --- Locks and plans -----------------------------------------------------

  datatype Table = ClientRow | UserRow | GrantRow | SessionRow | RequestRow | RefreshRow | CodeRow | OidcRow

  function Rank(t: Table): nat {
    match t
    case ClientRow => 0
    case UserRow => 1
    case GrantRow => 2
    case SessionRow => 3
    case RequestRow => 4
    case RefreshRow => 5
    case CodeRow => 6
    case OidcRow => 7
  }

  /** A row lock: the table, and its key of one or two columns. */
  datatype Lock = Lock(table: Table, key: Id, second: Id)

  predicate Less(a: Lock, b: Lock) {
    || Rank(a.table) < Rank(b.table)
    || (a.table == b.table && (a.key < b.key || (a.key == b.key && a.second < b.second)))
  }

  /** The credential transitions, with the rows their statements select. A write outside a
      transaction is one statement: burning a presented code, each of the three writes that
      shut a client, renewing a browser session, and the batches of the prunes. */
  datatype Operation =
    | IssueCode(client: Id, user: Id, session: Id, request: Id)
    | DenyAuthorization(request: Id)
    | ExchangeCode(client: Id, user: Id, session: Id, code: Id)
    | ExchangeRefresh(client: Id, user: Id, session: Id, token: Id)
    | RevokeFamily(client: Id, user: Id, tokens: set<Id>)
    | RevokeTokensForSession(client: Id, user: Id, session: Id, tokens: set<Id>)
    | RevokeGrant(client: Id, user: Id, tokens: set<Id>, codes: set<Id>, sessions: set<Id>)
    | EndSessions(user: Id, session: Id, clients: set<Id>)
    | LogoutSession(session: Id, clients: set<Id>)
    | RevokeAllCredentials(user: Id, owned: set<Id>, tokens: set<Id>, codes: set<Id>, oidc: set<(Id, Id)>)
    | OneStatement(table: Table, keys: set<(Id, Id)>)

  /** The rows one statement locks, taken by key. */
  ghost predicate Rows(locks: seq<Lock>, table: Table, keys: set<(Id, Id)>) {
    && Ascending(locks)
    && forall l :: l in locks <==> l.table == table && (l.key, l.second) in keys
  }

  predicate Ascending(locks: seq<Lock>) {
    forall i, j :: 0 <= i < j < |locks| ==> Less(locks[i], locks[j])
  }

  function Single(ids: set<Id>): set<(Id, Id)> { set id | id in ids :: (id, 0) }

  function OfSession(session: Id, clients: set<Id>): set<(Id, Id)> { set c | c in clients :: (session, c) }

  function OfClient(client: Id, sessions: set<Id>): set<(Id, Id)> { set s | s in sessions :: (s, client) }

  /** The rows a statement locks: a table, and keys in it. */
  datatype Selection = Selection(table: Table, keys: set<(Id, Id)>)

  function Clients(client: Id): Selection { Selection(ClientRow, {(client, 0)}) }

  function Users(user: Id): Selection { Selection(UserRow, {(user, 0)}) }

  function Grants(user: Id, client: Id): Selection { Selection(GrantRow, {(user, client)}) }

  function Sessions(session: Id): Selection { Selection(SessionRow, {(session, 0)}) }

  /** The statements of each transaction in program order. Reads without FOR UPDATE, and
      inserts of new rows, lock nothing that another transaction can want. */
  function Statements(op: Operation): seq<Selection> {
    match op
    case IssueCode(client, user, session, request) =>
      [Clients(client), Users(user), Grants(user, client), Sessions(session), Selection(RequestRow, {(request, 0)}),
       Selection(OidcRow, {(session, client)})]
    case DenyAuthorization(request) => [Selection(RequestRow, {(request, 0)})]
    case ExchangeCode(client, user, session, code) =>
      [Clients(client), Users(user), Grants(user, client), Selection(CodeRow, {(code, 0)}),
       Selection(OidcRow, {(session, client)})]
    case ExchangeRefresh(client, user, session, token) =>
      [Clients(client), Users(user), Grants(user, client), Selection(RefreshRow, {(token, 0)}),
       Selection(OidcRow, {(session, client)})]
    case RevokeFamily(client, user, tokens) =>
      [Clients(client), Users(user), Grants(user, client), Selection(RefreshRow, Single(tokens))]
    case RevokeTokensForSession(client, user, session, tokens) =>
      [Clients(client), Users(user), Grants(user, client), Sessions(session), Selection(RefreshRow, Single(tokens)),
       Selection(OidcRow, {(session, client)})]
    case RevokeGrant(client, user, tokens, codes, sessions) =>
      [Clients(client), Users(user), Grants(user, client), Selection(RefreshRow, Single(tokens)),
       Selection(CodeRow, Single(codes)), Selection(OidcRow, OfClient(client, sessions))]
    case EndSessions(user, session, clients) =>
      [Users(user), Sessions(session), Selection(OidcRow, OfSession(session, clients))]
    case LogoutSession(session, clients) => [Sessions(session), Selection(OidcRow, OfSession(session, clients))]
    case RevokeAllCredentials(user, owned, tokens, codes, oidc) =>
      [Users(user), Selection(SessionRow, Single(owned)), Selection(RefreshRow, Single(tokens)),
       Selection(CodeRow, Single(codes)), Selection(OidcRow, oidc)]
    case OneStatement(table, keys) => [Selection(table, keys)]
  }

  /** The locks taken, statement by statement. */
  ghost predicate Takes(op: Operation, parts: seq<seq<Lock>>) {
    && |parts| == |Statements(op)|
    && forall i :: 0 <= i < |parts| ==> Rows(parts[i], Statements(op)[i].table, Statements(op)[i].keys)
  }

  function Concat(parts: seq<seq<Lock>>): seq<Lock> {
    if parts == [] then [] else parts[0] + Concat(parts[1..])
  }

  predicate InRankOrder(statements: seq<Selection>) {
    forall i, j :: 0 <= i < j < |statements| ==> Rank(statements[i].table) < Rank(statements[j].table)
  }

  lemma StatementsInOrder(op: Operation)
    ensures InRankOrder(Statements(op))
  {
  }

  lemma {:induction false} LayersAscend(parts: seq<seq<Lock>>, statements: seq<Selection>)
    requires |parts| == |statements| && InRankOrder(statements)
    requires forall i :: 0 <= i < |parts| ==> Rows(parts[i], statements[i].table, statements[i].keys)
    ensures Ascending(Concat(parts))
    ensures forall l :: l in Concat(parts) ==> exists i :: 0 <= i < |parts| && l.table == statements[i].table
  {
    if parts != [] {
      var rest := Concat(parts[1..]);
      LayersAscend(parts[1..], statements[1..]);
      forall l | l in rest ensures exists i :: 0 < i < |parts| && l.table == statements[i].table {
        var k :| 0 <= k < |parts| - 1 && l.table == statements[1..][k].table;
        assert statements[k + 1].table == l.table;
      }
      assert Rows(parts[0], statements[0].table, statements[0].keys);
      forall i, j | 0 <= i < j < |Concat(parts)| ensures Less(Concat(parts)[i], Concat(parts)[j]) {
        var a, b := Concat(parts)[i], Concat(parts)[j];
        if j < |parts[0]| {
        } else if i < |parts[0]| {
          assert b in rest && a in parts[0];
        } else {
          assert Less(rest[i - |parts[0]|], rest[j - |parts[0]|]);
        }
      }
      forall l | l in Concat(parts) ensures exists i :: 0 <= i < |parts| && l.table == statements[i].table {
        if l in parts[0] { assert l.table == statements[0].table; }
      }
    }
  }

  /** Every operation takes its locks in ascending order. */
  lemma PlansAscend(op: Operation, parts: seq<seq<Lock>>)
    requires Takes(op, parts)
    ensures Ascending(Concat(parts))
  {
    StatementsInOrder(op);
    LayersAscend(parts, Statements(op));
  }

  // --- Transactions at work ------------------------------------------------

  /** `held` counts the locks of the plan acquired so far; all are kept until the end. */
  datatype Txn = Txn(plan: seq<Lock>, held: nat)

  type State = map<Id, Txn>

  predicate Holds(s: State, t: Id, l: Lock) {
    t in s && s[t].held <= |s[t].plan| && l in s[t].plan[..s[t].held]
  }

  predicate Wants(s: State, t: Id, l: Lock) {
    t in s && s[t].held < |s[t].plan| && s[t].plan[s[t].held] == l
  }

  /** `t` cannot go on before `u` lets go of a lock. */
  predicate WaitsFor(s: State, t: Id, u: Id) {
    t in s && s[t].held < |s[t].plan| && t != u && Holds(s, u, s[t].plan[s[t].held])
  }

  predicate Free(s: State, t: Id, l: Lock) {
    forall u :: u in s && u != t ==> !Holds(s, u, l)
  }

  datatype Step = Begin(t: Id, op: Operation, parts: seq<seq<Lock>>) | Acquire(t: Id) | Finish(t: Id)

  ghost predicate Next(s: State, step: Step, s': State) {
    match step
    case Begin(t, op, parts) => t !in s && Takes(op, parts) && s' == s[t := Txn(Concat(parts), 0)]
    case Acquire(t) =>
      && t in s && s[t].held < |s[t].plan| && Free(s, t, s[t].plan[s[t].held])
      && s' == s[t := s[t].(held := s[t].held + 1)]
    case Finish(t) => t in s && s' == s - {t}
  }

  ghost predicate Inv(s: State) {
    && (forall t :: t in s ==> s[t].held <= |s[t].plan| && Ascending(s[t].plan))
    && (forall t, u, l :: t in s && u in s && Holds(s, t, l) && Holds(s, u, l) ==> t == u)
  }

  lemma NextKeeps(s: State, step: Step, s': State)
    requires Inv(s) && Next(s, step, s')
    ensures Inv(s')
  {
    if step.Begin? { PlansAscend(step.op, step.parts); }
    if step.Acquire? {
      var t, l := step.t, s[step.t].plan[s[step.t].held];
      assert s'[t].plan[..s'[t].held] == s[t].plan[..s[t].held] + [l];
      forall u, v, m | u in s' && v in s' && Holds(s', u, m) && Holds(s', v, m) ensures u == v {
        assert u != t ==> Holds(s, u, m);
        assert v != t ==> Holds(s, v, m);
        assert u == t ==> m == l || Holds(s, t, m);
        assert v == t ==> m == l || Holds(s, t, m);
      }
    }
    if step.Begin? || step.Finish? {
      assert forall u, l :: Holds(s', u, l) ==> Holds(s, u, l);
    }
  }

  ghost predicate Run(states: seq<State>, steps: seq<Step>) {
    && |states| == |steps| + 1 && states[0] == map[]
    && forall i {:trigger Linked(states, steps, i)} :: 0 <= i < |steps| ==> Linked(states, steps, i)
  }

  ghost predicate Linked(states: seq<State>, steps: seq<Step>, i: nat)
    requires i < |steps| < |states|
  {
    Next(states[i], steps[i], states[i + 1])
  }

  lemma {:induction false} RunKeeps(states: seq<State>, steps: seq<Step>, i: nat)
    requires Run(states, steps) && i < |states|
    ensures Inv(states[i])
  {
    if i == 0 {
      assert states[i] == map[];
    } else {
      var before := states[i - 1];
      RunKeeps(states, steps, i - 1);
      assert Linked(states, steps, i - 1);
      NextKeeps(before, steps[i - 1], states[i]);
    }
  }

  /** Waiting goes up the order: what is held is below what its holder wants. */
  lemma WaitingAscends(s: State, t: Id, u: Id, l: Lock, m: Lock)
    requires Inv(s) && WaitsFor(s, t, u) && Wants(s, t, l) && Wants(s, u, m)
    ensures Less(l, m)
  {
    var i :| 0 <= i < s[u].held && s[u].plan[i] == l;
  }

  /** Each transaction of the list waits for the next one. */
  predicate Chain(s: State, ts: seq<Id>) {
    forall i :: 0 <= i < |ts| - 1 ==> WaitsFor(s, ts[i], ts[i + 1])
  }

  lemma {:induction false} ChainAscends(s: State, ts: seq<Id>, l: Lock, m: Lock)
    requires Inv(s) && |ts| > 1 && Chain(s, ts) && Wants(s, ts[0], l) && Wants(s, ts[|ts| - 1], m)
    ensures Less(l, m)
    decreases |ts|
  {
    if |ts| == 2 {
      WaitingAscends(s, ts[0], ts[1], l, m);
    } else {
      assert WaitsFor(s, ts[1], ts[2]);
      var n := s[ts[1]].plan[s[ts[1]].held];
      WaitingAscends(s, ts[0], ts[1], l, n);
      assert forall i :: 0 <= i < |ts[1..]| ==> ts[1..][i] == ts[i + 1];
      ChainAscends(s, ts[1..], n, m);
    }
  }

  /** In no reachable state of any set of transactions is there a circle of waiting. */
  lemma NoDeadlock(states: seq<State>, steps: seq<Step>, i: nat, ts: seq<Id>)
    requires Run(states, steps) && i < |states|
    requires |ts| > 1 && Chain(states[i], ts)
    ensures ts[0] != ts[|ts| - 1]
  {
    RunKeeps(states, steps, i);
    var s := states[i];
    if ts[0] == ts[|ts| - 1] {
      assert WaitsFor(s, ts[0], ts[1]);
      var l := s[ts[0]].plan[s[ts[0]].held];
      ChainAscends(s, ts, l, l);
    }
  }

  /** The transaction is not waiting: it is done, or the lock it wants is free. */
  predicate CanMove(s: State, t: Id)
    requires t in s
  {
    s[t].held >= |s[t].plan| || Free(s, t, s[t].plan[s[t].held])
  }

  function WantedBy(s: State, t: Id): Lock
    requires t in s && s[t].held < |s[t].plan|
  {
    s[t].plan[s[t].held]
  }

  lemma {:induction false} Greatest(s: State, ts: set<Id>) returns (t: Id)
    requires ts != {} && forall u :: u in ts ==> u in s && s[u].held < |s[u].plan|
    ensures t in ts && forall u :: u in ts ==> WantedBy(s, u) == WantedBy(s, t) || Less(WantedBy(s, u), WantedBy(s, t))
    decreases |ts|
  {
    t :| t in ts;
    if ts != {t} {
      var best := Greatest(s, ts - {t});
      if Less(WantedBy(s, t), WantedBy(s, best)) { t := best; }
    }
  }

  /** The transaction that wants the greatest lock is not waiting for it. */
  lemma GreatestIsFree(s: State, t: Id)
    requires Inv(s) && t in s && forall u :: u in s ==> s[u].held < |s[u].plan|
    requires forall u :: u in s ==> WantedBy(s, u) == WantedBy(s, t) || Less(WantedBy(s, u), WantedBy(s, t))
    ensures CanMove(s, t)
  {
    forall u | u in s && u != t ensures !Holds(s, u, WantedBy(s, t)) {
      if Holds(s, u, WantedBy(s, t)) { WaitingAscends(s, t, u, WantedBy(s, t), WantedBy(s, u)); }
    }
  }

  /** So as long as a transaction is open, one of them can go on. */
  lemma SomeoneMoves(states: seq<State>, steps: seq<Step>, i: nat) returns (t: Id)
    requires Run(states, steps) && i < |states| && states[i] != map[]
    ensures t in states[i] && CanMove(states[i], t)
  {
    RunKeeps(states, steps, i);
    var s := states[i];
    if done :| done in s && s[done].held >= |s[done].plan| {
      t := done;
    } else {
      t := Greatest(s, s.Keys);
      GreatestIsFree(s, t);
    }
  }
}
