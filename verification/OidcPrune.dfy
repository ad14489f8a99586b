/** Pruning stale per-client sessions in batches of 500, by an id cursor. */
module OidcPrune {
  import opened Prelude

  const BATCH: nat := 500

  datatype Row = Row(session: Id, lastSeenAt: Time)

  /** The least of some ids. */
  method Least(ids: set<Id>) returns (least: Id)
    requires ids != {}
    ensures least in ids && forall id :: id in ids ==> least <= id
  {
    least :| least in ids;
    var rest := ids - {least};
    while rest != {}
      invariant rest <= ids && least in ids && least !in rest
      invariant forall id :: id in ids && id !in rest ==> least <= id
      decreases |rest|
    {
      var id :| id in rest;
      if id < least { least := id; }
      rest := rest - {id};
    }
  }

  /** `orderBy id asc, take n`: the first ids of a set in ascending order. */
  ghost predicate FirstOf(page: seq<Id>, ids: set<Id>, take: nat) {
    && (forall i :: 0 <= i < |page| ==> page[i] in ids)
    && (forall i, j :: 0 <= i < j < |page| ==> page[i] < page[j])
    && (forall id, i :: id in ids && id !in page && 0 <= i < |page| ==> page[i] < id)
    && (|page| == take || forall id :: id in ids ==> id in page)
    && |page| <= take
  }

  method Page(ids: set<Id>, take: nat) returns (page: seq<Id>)
    ensures FirstOf(page, ids, take)
  {
    page := [];
    var rest := ids;
    while rest != {} && |page| < take
      invariant |page| <= take
      invariant forall id :: id in rest <==> id in ids && id !in page
      invariant forall i :: 0 <= i < |page| ==> page[i] in ids
      invariant forall i, j :: 0 <= i < j < |page| ==> page[i] < page[j]
      invariant forall id, i :: id in rest && 0 <= i < |page| ==> page[i] < id
      decreases |rest|
    {
      var next := Least(rest);
      page, rest := page + [next], rest - {next};
    }
  }

  predicate IsStale(row: Row, staleBefore: Time) { row.lastSeenAt < staleBefore }

  /** The row is stale and its browser session is over: no logout can still need it. */
  predicate Removable(rows: map<Id, Row>, sessions: map<Id, Time>, staleBefore: Time, cutoff: Time, id: Id) {
    && id in rows && IsStale(rows[id], staleBefore)
    && !(rows[id].session in sessions && cutoff < sessions[rows[id].session])
  }

  /** The cursor has gone past the id. */
  predicate Passed(afterId: Option<Id>, id: Id) { afterId.Some? && id <= afterId.value }

  function Ahead(rows: map<Id, Row>, staleBefore: Time, afterId: Option<Id>): set<Id> {
    set id | id in rows && IsStale(rows[id], staleBefore) && !Passed(afterId, id)
  }

  /** The removable rows the cursor has passed. */
  function Behind(rows: map<Id, Row>, sessions: map<Id, Time>, staleBefore: Time, cutoff: Time,
                  afterId: Option<Id>): set<Id> {
    set id | id in rows && Removable(rows, sessions, staleBefore, cutoff, id) && Passed(afterId, id)
  }

  /** A page moves the cursor past exactly its own ids among the stale ones. */
  lemma PagePasses(rows: map<Id, Row>, staleBefore: Time, afterId: Option<Id>, page: seq<Id>)
    requires page != [] && FirstOf(page, Ahead(rows, staleBefore, afterId), BATCH)
    ensures var next := Some(page[|page| - 1]);
      && (forall id :: id in Ahead(rows, staleBefore, afterId) ==> (Passed(next, id) <==> id in page))
      && (forall id :: Passed(afterId, id) ==> Passed(next, id))
  {
    var ids, next := Ahead(rows, staleBefore, afterId), Some(page[|page| - 1]);
    assert page[|page| - 1] in ids;
    forall id | id in ids ensures Passed(next, id) <==> id in page {
      if id in page {
        var i :| 0 <= i < |page| && page[i] == id;
      }
    }
  }

  lemma BehindGrows(rows: map<Id, Row>, sessions: map<Id, Time>, staleBefore: Time, cutoff: Time, afterId: Option<Id>,
                    page: seq<Id>, removed: set<Id>)
    requires page != [] && FirstOf(page, Ahead(rows, staleBefore, afterId), BATCH)
    requires forall id :: id in removed <==> id in page && Removable(rows, sessions, staleBefore, cutoff, id)
    ensures var next := Some(page[|page| - 1]);
      && Behind(rows, sessions, staleBefore, cutoff, next)
        == Behind(rows, sessions, staleBefore, cutoff, afterId) + removed
      && Behind(rows, sessions, staleBefore, cutoff, afterId) !! removed
      && Ahead(rows, staleBefore, next) < Ahead(rows, staleBefore, afterId)
  {
    PagePasses(rows, staleBefore, afterId, page);
    var before, after := Ahead(rows, staleBefore, afterId), Ahead(rows, staleBefore, Some(page[|page| - 1]));
    assert page[0] in before && page[0] in page && page[0] !in after;
  }

  /** The rows last seen before the retention window whose browser session is gone or over. */
  ghost function Gone(rows: map<Id, Row>, sessions: map<Id, Time>, cutoff: Time, retention: Time): set<Id> {
    set id | id in rows && rows[id].lastSeenAt < cutoff - retention
             && (rows[id].session in sessions ==> sessions[rows[id].session] <= cutoff)
  }

  lemma GoneIsRemovable(rows: map<Id, Row>, sessions: map<Id, Time>, cutoff: Time, retention: Time)
    ensures Gone(rows, sessions, cutoff, retention)
      == set id | id in rows && Removable(rows, sessions, cutoff - retention, cutoff, id)
  {
  }

  class Store {
    var rows: map<Id, Row>
    var sessions: map<Id, Time>

    constructor (rows: map<Id, Row>, sessions: map<Id, Time>)
      ensures this.rows == rows && this.sessions == sessions
    {
      this.rows, this.sessions := rows, sessions;
    }

    /** Looks up the live browser sessions of a page, and deletes the rest of it, checking again
        that each row is stale. */
    method DeleteBatch(candidates: seq<Id>, staleBefore: Time, cutoff: Time) returns (deleted: set<Id>)
      modifies this`rows
      ensures rows == old(rows) - deleted
      ensures forall id ::
        id in deleted <==> id in candidates && Removable(old(rows), sessions, staleBefore, cutoff, id)
    {
      var live := set s | s in sessions && cutoff < sessions[s];
      var removable := set id | id in candidates && id in rows && rows[id].session !in live;
      deleted := set id | id in removable && id in rows && IsStale(rows[id], staleBefore);
      rows := rows - deleted;
    }

    /** Terminates having deleted exactly the stale rows without a live browser session, and
        counted each of them once, however many batches it takes. */
    method PruneStale(cutoff: Time, retention: Time) returns (count: nat)
      modifies this`rows
      ensures var gone := Gone(old(rows), sessions, cutoff, retention);
        rows == old(rows) - gone && count == |gone|
    {
      var staleBefore := cutoff - retention;
      var afterId: Option<Id> := None;
      ghost var found := rows;
      count := 0;
      assert Behind(found, sessions, staleBefore, cutoff, None) == {};
      GoneIsRemovable(found, sessions, cutoff, retention);
      while true
        invariant rows == found - Behind(found, sessions, staleBefore, cutoff, afterId)
        invariant count == |Behind(found, sessions, staleBefore, cutoff, afterId)|
        decreases Ahead(found, staleBefore, afterId)
      {
        AheadStays(found, sessions, staleBefore, cutoff, afterId);
        var candidates := Page(Ahead(rows, staleBefore, afterId), BATCH);
        if candidates == [] {
          AllPassed(found, sessions, staleBefore, cutoff, afterId);
          break;
        }
        ghost var passed := Behind(found, sessions, staleBefore, cutoff, afterId);
        var deleted := DeleteBatch(candidates, staleBefore, cutoff);
        SameRemovable(found, passed, sessions, staleBefore, cutoff, afterId, candidates);
        BehindGrows(found, sessions, staleBefore, cutoff, afterId, candidates, deleted);
        assert found - passed - deleted == found - (passed + deleted);
        count := count + |deleted|;
        afterId := Some(candidates[|candidates| - 1]);
        if |candidates| < BATCH {
          AllPassed(found, sessions, staleBefore, cutoff, afterId);
          break;
        }
      }
    }
  }

  /** Rows ahead of the cursor are as removable as they were found. */
  lemma SameRemovable(rows: map<Id, Row>, passed: set<Id>, sessions: map<Id, Time>, staleBefore: Time, cutoff: Time,
                      afterId: Option<Id>, page: seq<Id>)
    requires passed == Behind(rows, sessions, staleBefore, cutoff, afterId)
    requires forall i :: 0 <= i < |page| ==> page[i] in Ahead(rows, staleBefore, afterId)
    ensures forall id :: id in page ==>
      (Removable(rows - passed, sessions, staleBefore, cutoff, id) <==>
         Removable(rows, sessions, staleBefore, cutoff, id))
  {
  }

  /** Deleting rows behind the cursor leaves the stale rows ahead of it in place. */
  lemma AheadStays(rows: map<Id, Row>, sessions: map<Id, Time>, staleBefore: Time, cutoff: Time, afterId: Option<Id>)
    ensures Ahead(rows - Behind(rows, sessions, staleBefore, cutoff, afterId), staleBefore, afterId)
      == Ahead(rows, staleBefore, afterId)
  {
  }

  lemma AllPassed(rows: map<Id, Row>, sessions: map<Id, Time>, staleBefore: Time, cutoff: Time, afterId: Option<Id>)
    requires Ahead(rows, staleBefore, afterId) == {}
    ensures Behind(rows, sessions, staleBefore, cutoff, afterId) ==
      set id | id in rows && Removable(rows, sessions, staleBefore, cutoff, id)
  {
    forall id | id in rows && Removable(rows, sessions, staleBefore, cutoff, id) ensures Passed(afterId, id) {
      assert id !in Ahead(rows, staleBefore, afterId);
    }
  }
}
