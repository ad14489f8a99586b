/** Signing keys: first boots that race converge on one key, and rotation never takes away a
    key that an unexpired token needs. */
module SigningKeys {
  import opened Prelude

  const BOOTSTRAP: Id := 0

  datatype Row = Row(kid: Id, active: bool, createdAt: Time, expiresAt: Option<Time>)

  // --- First boots ---------------------------------------------------------

  /** A process between its first read of the key table and its finished key ring. */
  datatype Boot = SawNothing | Upserted(kid: Id) | Ready(activeKid: Id)

  datatype Fleet = Fleet(rows: map<Id, Row>, boots: map<Id, Boot>)

  datatype Step = Load(p: Id) | Upsert(p: Id, candidate: Id) | Reload(p: Id)

  /** The newest active key, or the newest one: nothing has been rotated yet, so the table
      holds the bootstrap row and no other. */
  predicate ActiveOf(rows: map<Id, Row>, kid: Id) {
    exists id :: id in rows && rows[id].active && rows[id].kid == kid
  }

  predicate Next(s: Fleet, step: Step, s': Fleet) {
    match step
    case Load(p) =>
      && p !in s.boots
      && if s.rows == map[] then s' == s.(boots := s.boots[p := SawNothing])
         else p in s'.boots && s'.boots[p].Ready? && ActiveOf(s.rows, s'.boots[p].activeKid)
              && s' == s.(boots := s.boots[p := s'.boots[p]])
    case Upsert(p, candidate) =>
      && p in s.boots && s.boots[p].SawNothing?
      && var rows := if BOOTSTRAP in s.rows then s.rows else s.rows[BOOTSTRAP := Row(candidate, true, 0, None)];
      s' == Fleet(rows, s.boots[p := Upserted(rows[BOOTSTRAP].kid)])
    case Reload(p) =>
      && p in s.boots && s.boots[p].Upserted?
      && p in s'.boots && s'.boots[p].Ready?
      && (if s.rows == map[] then s'.boots[p].activeKid == s.boots[p].kid else ActiveOf(s.rows, s'.boots[p].activeKid))
      && s' == s.(boots := s.boots[p := s'.boots[p]])
  }

  predicate FleetOk(s: Fleet) {
    && (forall id :: id in s.rows ==> id == BOOTSTRAP && s.rows[id].active)
    && (forall p :: p in s.boots && !s.boots[p].SawNothing? ==> BOOTSTRAP in s.rows)
    && (forall p :: p in s.boots && s.boots[p].Upserted? ==> s.boots[p].kid == s.rows[BOOTSTRAP].kid)
    && (forall p :: p in s.boots && s.boots[p].Ready? ==> s.boots[p].activeKid == s.rows[BOOTSTRAP].kid)
  }

  ghost predicate Run(states: seq<Fleet>, steps: seq<Step>) {
    && |states| == |steps| + 1 && states[0] == Fleet(map[], map[])
    && forall i {:trigger Linked(states, steps, i)} :: 0 <= i < |steps| ==> Linked(states, steps, i)
  }

  predicate Linked(states: seq<Fleet>, steps: seq<Step>, i: nat)
    requires i < |steps| < |states|
  {
    Next(states[i], steps[i], states[i + 1])
  }

  lemma {:induction false} BootsKeep(states: seq<Fleet>, steps: seq<Step>, i: nat)
    requires Run(states, steps) && i < |states|
    ensures FleetOk(states[i])
  {
    if i > 0 {
      BootsKeep(states, steps, i - 1);
      assert Linked(states, steps, i - 1);
    }
  }

  /** However the reads, upserts and re-reads of first boots interleave, one row is stored and
      every process that is ready signs with it. */
  lemma BootsConverge(states: seq<Fleet>, steps: seq<Step>, i: nat, p: Id, q: Id)
    requires Run(states, steps) && i < |states|
    requires p in states[i].boots && q in states[i].boots && states[i].boots[p].Ready? && states[i].boots[q].Ready?
    ensures states[i].rows.Keys == {BOOTSTRAP}
    ensures states[i].boots[p] == states[i].boots[q] == Ready(states[i].rows[BOOTSTRAP].kid)
  {
    BootsKeep(states, steps, i);
  }

  // --- Rotation ------------------------------------------------------------

  /** A signed token: the key that signed it and the time it expires. */
  datatype Token = Token(kid: Id, exp: Time)

  datatype Ring = Ring(kids: set<Id>, activeKid: Id)

  predicate SameKid(rows: map<Id, Row>, i: Id, j: Id) { i in rows && j in rows && rows[i].kid == rows[j].kid }

  predicate BothActive(rows: map<Id, Row>, i: Id, j: Id) { i in rows && j in rows && rows[i].active && rows[j].active }

  /** The table names each key once, and exactly one of them is active. */
  ghost predicate Table(rows: map<Id, Row>, nextId: Id) {
    && BOOTSTRAP < nextId
    && (forall id :: id in rows ==>
        id < nextId && rows[id].kid < nextId && (rows[id].active || rows[id].expiresAt.Some?))
    && (forall i, j {:trigger SameKid(rows, i, j)} :: SameKid(rows, i, j) ==> i == j)
    && (forall i, j {:trigger BothActive(rows, i, j)} :: BothActive(rows, i, j) ==> i == j)
    && (rows != map[] ==> exists id :: id in rows && rows[id].active)
  }

  /** The key stays in the ring until the token has expired. */
  predicate Outlives(row: Row, exp: Time) { row.active || (row.expiresAt.Some? && exp <= row.expiresAt.value) }

  predicate Kept(rows: map<Id, Row>, t: Token) {
    exists id :: id in rows && rows[id].kid == t.kid && Outlives(rows[id], t.exp)
  }

  ghost predicate AllKept(rows: map<Id, Row>, tokens: set<Token>, now: Time) {
    forall t {:trigger Kept(rows, t)} :: t in tokens && now < t.exp ==> Kept(rows, t)
  }

  predicate Loads(row: Row, now: Time) { row.active || row.expiresAt.None? || now < row.expiresAt.value }

  /** The active key, and those that were retired for longer than now. */
  ghost predicate StillNeeded(row: Row, now: Time) {
    row.active || row.expiresAt == None || now < row.expiresAt.value
  }

  function Loaded(rows: map<Id, Row>, now: Time): set<Id> {
    set id | id in rows && Loads(rows[id], now) :: rows[id].kid
  }

  /** UPDATE signing_keys SET is_active = false, expires_at WHERE is_active */
  function Retired(rows: map<Id, Row>, at: Time): map<Id, Row> {
    map id | id in rows :: if rows[id].active then rows[id].(active := false, expiresAt := Some(at)) else rows[id]
  }

  predicate Lapsed(row: Row, now: Time) { !row.active && row.expiresAt.Some? && row.expiresAt.value < now }

  function Pruned(rows: map<Id, Row>, now: Time): map<Id, Row> {
    map id | id in rows && !Lapsed(rows[id], now) :: rows[id]
  }

  lemma AddedTable(rows: map<Id, Row>, nextId: Id, id: Id, now: Time)
    requires Table(rows, nextId) || (rows == map[] && BOOTSTRAP < nextId)
    requires id == nextId || (id == BOOTSTRAP && rows == map[])
    requires forall i :: i in rows ==> !rows[i].active
    ensures var after := rows[id := Row(nextId, true, now, None)];
      Table(after, nextId + 1) && ActiveOf(after, nextId)
  {
    var after := rows[id := Row(nextId, true, now, None)];
    forall i, j | SameKid(after, i, j) ensures i == j {
      assert i != id && j != id ==> SameKid(rows, i, j);
    }
    assert after[id].active;
  }

  lemma RetiredTable(rows: map<Id, Row>, nextId: Id, now: Time, overlap: Time, tokenTtl: Time, tokens: set<Token>)
    requires Table(rows, nextId) && tokenTtl <= overlap
    requires AllKept(rows, tokens, now) && forall t :: t in tokens ==> t.exp <= now + tokenTtl
    ensures var after := Retired(rows, now + overlap)[nextId := Row(nextId, true, now, None)];
      && Table(after, nextId + 1) && ActiveOf(after, nextId) && AllKept(after, tokens, now)
      && (overlap > 0 ==> Loaded(rows, now) <= Loaded(after, now))
  {
    var retired := Retired(rows, now + overlap);
    var after := retired[nextId := Row(nextId, true, now, None)];
    forall i, j | SameKid(after, i, j) ensures i == j {
      assert i != nextId && j != nextId ==> SameKid(rows, i, j);
    }
    assert after[nextId].active;
    forall t | t in tokens && now < t.exp ensures Kept(after, t) {
      assert Kept(rows, t);
      var id :| id in rows && rows[id].kid == t.kid && Outlives(rows[id], t.exp);
      assert after[id] == retired[id] && Outlives(after[id], t.exp);
    }
    forall kid | kid in Loaded(rows, now) && overlap > 0 ensures kid in Loaded(after, now) {
      var id :| id in rows && Loads(rows[id], now) && rows[id].kid == kid;
      assert id in after && Loads(after[id], now) && after[id].kid == kid;
    }
  }

  lemma PrunedTable(rows: map<Id, Row>, nextId: Id, now: Time, tokens: set<Token>)
    requires Table(rows, nextId) && AllKept(rows, tokens, now)
    ensures Table(Pruned(rows, now), nextId) && AllKept(Pruned(rows, now), tokens, now)
    ensures Loaded(Pruned(rows, now), now) == Loaded(rows, now)
    ensures forall kid :: ActiveOf(rows, kid) ==> ActiveOf(Pruned(rows, now), kid)
  {
    var after := Pruned(rows, now);
    forall i, j | SameKid(after, i, j) ensures i == j { assert SameKid(rows, i, j); }
    forall i, j | BothActive(after, i, j) ensures i == j { assert BothActive(rows, i, j); }
    if rows != map[] {
      var id :| id in rows && rows[id].active;
      assert id in after && after[id].active;
    }
    forall kid | kid in Loaded(rows, now) ensures kid in Loaded(after, now) {
      var id :| id in rows && Loads(rows[id], now) && rows[id].kid == kid;
      assert id in after && Loads(after[id], now);
    }
    forall t | t in tokens && now < t.exp ensures Kept(after, t) {
      assert Kept(rows, t);
      var id :| id in rows && rows[id].kid == t.kid && Outlives(rows[id], t.exp);
      assert id in after;
    }
    forall kid | ActiveOf(rows, kid) ensures ActiveOf(after, kid) {
      var id :| id in rows && rows[id].active && rows[id].kid == kid;
      assert id in after;
    }
  }

  class KeyService {
    const tokenTtl: Time
    var rows: map<Id, Row>
    var ring: Option<Ring>
    var now: Time
    /** Every token signed so far; nothing stores them. */
    var tokens: set<Token>
    var nextId: Id

    ghost predicate Valid()
      reads this
    {
      && Table(rows, nextId)
      && (ring.Some? ==> ActiveOf(rows, ring.value.activeKid))
      && AllKept(rows, tokens, now)
      && (forall t :: t in tokens ==> t.exp <= now + tokenTtl)
    }

    constructor (tokenTtl: Time, now: Time)
      ensures Valid() && this.tokenTtl == tokenTtl && this.now == now && rows == map[] && tokens == {}
    {
      this.tokenTtl, this.now := tokenTtl, now;
      rows, ring, tokens, nextId := map[], None, {}, BOOTSTRAP + 1;
    }

    method Tick(now: Time)
      requires Valid() && this.now <= now
      modifies this`now
      ensures Valid() && this.now == now
    {
      this.now := now;
    }

    /** Loads the ring, generating the bootstrap key on an empty table; then it is cached. */
    method EnsureKeyRing() returns (r: Ring)
      requires Table(rows, nextId) && (ring.Some? ==> ActiveOf(rows, ring.value.activeKid))
      modifies this`rows, this`ring, this`nextId
      ensures Table(rows, nextId) && ring == Some(r) && ActiveOf(rows, r.activeKid)
      ensures if old(rows) == map[] && old(ring).None? then rows.Keys == {BOOTSTRAP}
              else rows == old(rows) && nextId == old(nextId)
      ensures if old(ring).None? then r.kids == Loaded(rows, now) else r == old(ring).value
      ensures old(ring) == None ==> forall kid :: kid in r.kids <==>
        exists id :: id in rows && rows[id].kid == kid && StillNeeded(rows[id], now)
    {
      if ring.Some? { return ring.value; }
      if rows == map[] {
        AddedTable(rows, nextId, BOOTSTRAP, now);
        rows, nextId := rows[BOOTSTRAP := Row(nextId, true, now, None)], nextId + 1;
      }
      var active :| active in rows && rows[active].active;
      r := Ring(Loaded(rows, now), rows[active].kid);
      ring := Some(r);
    }

    method Sign() returns (t: Token)
      requires Valid() && tokenTtl > 0
      modifies this`rows, this`ring, this`nextId, this`tokens
      ensures Valid() && tokens == old(tokens) + {t} && t.exp == now + tokenTtl && ActiveOf(rows, t.kid)
    {
      var r := EnsureKeyRing();
      t := Token(r.activeKid, now + tokenTtl);
      StillKept(old(rows), rows, tokens, now);
      assert Kept(rows, t);
      tokens := tokens + {t};
    }

    /** Retires the active key for `overlap` and adds a new one, which becomes the active key. */
    method Rotate(overlap: Time) returns (r: Ring)
      requires Valid() && tokenTtl <= overlap
      modifies this`rows, this`ring, this`nextId
      ensures Valid() && ring == Some(r) && r.kids == Loaded(rows, now)
      ensures r.activeKid == old(nextId)
      ensures rows.Keys == old(rows).Keys + {old(nextId)} && rows[old(nextId)] == Row(old(nextId), true, now, None)
      ensures forall id :: id in old(rows) && id != old(nextId) ==>
        rows[id] == if old(rows)[id].active then old(rows)[id].(active := false, expiresAt := Some(now + overlap))
                    else old(rows)[id]
      ensures overlap > 0 ==> old(Loaded(rows, now)) <= r.kids
    {
      RetiredTable(rows, nextId, now, overlap, tokenTtl, tokens);
      rows := Retired(rows, now + overlap);
      rows := rows[nextId := Row(nextId, true, now, None)];
      ring := None;
      nextId := nextId + 1;
      ghost var added := nextId - 1;
      r := EnsureKeyRing();
      OneActive(rows, nextId, added, r.activeKid);
    }

    method PruneExpired() returns (count: nat)
      requires Valid()
      modifies this`rows
      ensures Valid()
      ensures rows == Pruned(old(rows), now) && count == |old(rows)| - |rows|
      ensures forall id :: id in old(rows) && id !in rows <==>
        id in old(rows) && !old(rows)[id].active && old(rows)[id].expiresAt != None
          && old(rows)[id].expiresAt.value < now
      ensures forall id :: id in rows ==> id in old(rows) && rows[id] == old(rows)[id]
      ensures Loaded(rows, now) == old(Loaded(rows, now))
    {
      PrunedTable(rows, nextId, now, tokens);
      var after := Pruned(rows, now);
      count := CountLost(rows, after);
      rows := after;
    }

    /** Every unexpired token verifies against a freshly loaded ring. */
    lemma UnexpiredVerifies(t: Token)
      requires Valid() && t in tokens && now < t.exp
      ensures t.kid in Loaded(rows, now)
    {
      assert Kept(rows, t);
      var id :| id in rows && rows[id].kid == t.kid && Outlives(rows[id], t.exp);
    }
  }

  function CountLost(before: map<Id, Row>, after: map<Id, Row>): nat
    requires after.Keys <= before.Keys
  {
    Smaller(after.Keys, before.Keys);
    |before| - |after|
  }

  lemma Smaller(a: set<Id>, b: set<Id>)
    requires a <= b
    ensures |a| <= |b|
  {
    assert b == a + (b - a);
  }

  /** A table that only gains the bootstrap row loses no key. */
  lemma StillKept(before: map<Id, Row>, after: map<Id, Row>, tokens: set<Token>, now: Time)
    requires AllKept(before, tokens, now) && (before == map[] || after == before)
    ensures AllKept(after, tokens, now)
  {
    forall t | t in tokens && now < t.exp ensures Kept(after, t) { assert Kept(before, t); }
  }

  lemma OneActive(rows: map<Id, Row>, nextId: Id, kid: Id, other: Id)
    requires Table(rows, nextId) && ActiveOf(rows, kid) && ActiveOf(rows, other)
    ensures kid == other
  {
    var i :| i in rows && rows[i].active && rows[i].kid == kid;
    var j :| j in rows && rows[j].active && rows[j].kid == other;
    assert BothActive(rows, i, j);
  }
}
