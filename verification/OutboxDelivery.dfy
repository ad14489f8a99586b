/** Delivering queued back-channel logouts: a retrying outbox with one flusher. */
module OutboxDelivery {
  import opened Prelude

  datatype Row = Row(client: Id, jti: Id, attempts: nat, lastAttemptAt: Option<Time>, deliveredAt: Option<Time>)

  /** What came of a delivery: the client dropped its endpoint, answered 2xx, or did not. */
  datatype Outcome = NoEndpoint | Acknowledged | Failed

  /** One POST to a client's endpoint. Nothing stores these. */
  datatype Post = Post(row: Id, jti: Id, at: Time, ok: bool)

  function PostsOf(posts: seq<Post>, row: Id): nat {
    if posts == [] then 0 else PostsOf(posts[..|posts| - 1], row) + if posts[|posts| - 1].row == row then 1 else 0
  }

  lemma PostsAppend(posts: seq<Post>, p: Post, row: Id)
    ensures PostsOf(posts + [p], row) == PostsOf(posts, row) + if p.row == row then 1 else 0
  {
    assert (posts + [p])[..|posts|] == posts;
  }

  /** The row after a delivery: an attempt is recorded if a POST was made, and the row is
      settled if it was acknowledged or has nowhere to go. */
  function Delivered(row: Row, outcome: Outcome, at: Time): Row {
    match outcome
    case NoEndpoint => row.(deliveredAt := Some(at))
    case Acknowledged => row.(attempts := row.attempts + 1, lastAttemptAt := Some(at), deliveredAt := Some(at))
    case Failed => row.(attempts := row.attempts + 1, lastAttemptAt := Some(at))
  }

  /** One POST, with the row's own token, unless the client has no endpoint. */
  function Sent(id: Id, row: Row, outcome: Outcome, at: Time): seq<Post> {
    if outcome.NoEndpoint? then [] else [Post(id, row.jti, at, outcome.Acknowledged?)]
  }

  /** The POSTs a flush makes, in the order it makes them: one for each row that has somewhere
      to go, with that row's token. */
  function PostsMade(rows: map<Id, Row>, pending: seq<Id>, outcomes: seq<Outcome>, clock: seq<Time>): seq<Post>
    requires |pending| == |outcomes| == |clock| && forall i :: 0 <= i < |pending| ==> pending[i] in rows
  {
    if pending == [] then []
    else
      var n := |pending| - 1;
      PostsMade(rows, pending[..n], outcomes[..n], clock[..n])
      + Sent(pending[n], rows[pending[n]], outcomes[n], clock[n])
  }

  function AcknowledgedIn(outcomes: seq<Outcome>): nat {
    if outcomes == [] then 0
    else AcknowledgedIn(outcomes[..|outcomes| - 1]) + if outcomes[|outcomes| - 1].Acknowledged? then 1 else 0
  }

  /** What the first `n` deliveries have sent and counted. */
  ghost predicate SentSoFar(before: seq<Post>, posts: seq<Post>, rows: map<Id, Row>, pending: seq<Id>,
                            outcomes: seq<Outcome>, clock: seq<Time>, n: nat, delivered: nat)
    requires n <= |pending| == |outcomes| == |clock| && forall i :: 0 <= i < |pending| ==> pending[i] in rows
  {
    && posts == before + PostsMade(rows, pending[..n], outcomes[..n], clock[..n])
    && delivered == AcknowledgedIn(outcomes[..n])
  }

  lemma SentOne(before: seq<Post>, posts: seq<Post>, rows: map<Id, Row>, pending: seq<Id>, outcomes: seq<Outcome>,
                clock: seq<Time>, n: nat, delivered: nat)
    requires n < |pending| == |outcomes| == |clock| && forall i :: 0 <= i < |pending| ==> pending[i] in rows
    requires SentSoFar(before, posts, rows, pending, outcomes, clock, n, delivered)
    ensures SentSoFar(before, posts + Sent(pending[n], rows[pending[n]], outcomes[n], clock[n]), rows, pending,
                      outcomes, clock, n + 1, delivered + if outcomes[n].Acknowledged? then 1 else 0)
  {
    assert pending[..n + 1][..n] == pending[..n] && clock[..n + 1][..n] == clock[..n];
    assert outcomes[..n + 1][..n] == outcomes[..n];
  }

  lemma SentAll(before: seq<Post>, posts: seq<Post>, rows: map<Id, Row>, pending: seq<Id>, outcomes: seq<Outcome>,
                clock: seq<Time>, delivered: nat)
    requires |pending| == |outcomes| == |clock| && forall i :: 0 <= i < |pending| ==> pending[i] in rows
    requires SentSoFar(before, posts, rows, pending, outcomes, clock, |pending|, delivered)
    ensures posts == before + PostsMade(rows, pending, outcomes, clock) && delivered == AcknowledgedIn(outcomes)
  {
    assert pending[..|pending|] == pending && outcomes[..|pending|] == outcomes && clock[..|pending|] == clock;
  }

  /** The first `n` pending rows have been delivered, and no other row was touched. */
  ghost predicate Flushed(before: map<Id, Row>, rows: map<Id, Row>, pending: seq<Id>, outcomes: seq<Outcome>,
                          clock: seq<Time>, n: nat)
    requires n <= |pending| == |outcomes| == |clock|
  {
    && rows.Keys == before.Keys
    && (forall i :: 0 <= i < |pending| ==> pending[i] in rows)
    && (forall i :: 0 <= i < |pending| ==>
          rows[pending[i]] == if i < n then Delivered(before[pending[i]], outcomes[i], clock[i])
            else before[pending[i]])
    && (forall id :: id in before && id !in pending ==> rows[id] == before[id])
  }

  lemma FlushedOne(before: map<Id, Row>, rows: map<Id, Row>, pending: seq<Id>, outcomes: seq<Outcome>,
                   clock: seq<Time>, n: nat)
    requires n < |pending| == |outcomes| == |clock| && Flushed(before, rows, pending, outcomes, clock, n)
    requires forall i, j :: 0 <= i < j < |pending| ==> pending[i] != pending[j]
    ensures Flushed(before, rows[pending[n] := Delivered(before[pending[n]], outcomes[n], clock[n])], pending, outcomes,
                    clock, n + 1)
  {
  }

  /** Two POSTs of one row carry the same token, the earlier one failed, and they are more than
      the retry interval apart. */
  predicate Retried(a: Post, b: Post, retry: Time) {
    a.row == b.row ==> a.jti == b.jti && !a.ok && a.at + retry < b.at
  }

  ghost predicate AllRetried(posts: seq<Post>, retry: Time) {
    forall i, j {:trigger Retried(posts[i], posts[j], retry)} :: 0 <= i < j < |posts| ==>
      Retried(posts[i], posts[j], retry)
  }

  /** The row remembers the POST. */
  predicate Remembers(row: Row, p: Post) {
    && p.jti == row.jti && row.lastAttemptAt.Some? && p.at <= row.lastAttemptAt.value
    && (p.ok ==> row.deliveredAt.Some?)
  }

  /** The row accounts for all of its POSTs. */
  ghost predicate Accounts(id: Id, row: Row, posts: seq<Post>) {
    && PostsOf(posts, id) == row.attempts
    && (forall i {:trigger Remembers(row, posts[i])} :: 0 <= i < |posts| && posts[i].row == id ==>
        Remembers(row, posts[i]))
  }

  ghost predicate AllAccounted(rows: map<Id, Row>, posts: seq<Post>, maxAttempts: nat) {
    forall id {:trigger Accounts(id, rows[id], posts)} :: id in rows ==>
      rows[id].attempts <= maxAttempts && Accounts(id, rows[id], posts)
  }

  ghost predicate AllBounded(posts: seq<Post>, maxAttempts: nat) {
    forall id {:trigger PostsOf(posts, id)} :: PostsOf(posts, id) <= maxAttempts
  }

  ghost predicate Named(rows: map<Id, Row>, posts: seq<Post>, nextId: Id) {
    (forall id :: id in rows ==> id < nextId) && (forall i :: 0 <= i < |posts| ==> posts[i].row < nextId)
  }

  /** Not delivered, attempts left, and not attempted since `cutoff`. */
  ghost predicate Awaits(row: Row, maxAttempts: nat, cutoff: Time) {
    && row.deliveredAt == None && row.attempts < maxAttempts
    && (row.lastAttemptAt == None || row.lastAttemptAt.value < cutoff)
  }

  /** Nothing more will come of the row, and that has been so since before `cutoff`. */
  predicate Settled(row: Row, maxAttempts: nat, cutoff: Time) {
    || (row.deliveredAt.Some? && row.deliveredAt.value < cutoff)
    || (row.attempts >= maxAttempts && row.lastAttemptAt.Some? && row.lastAttemptAt.value < cutoff)
  }

  class Outbox {
    const maxAttempts: nat
    const retry: Time
    /** The rows not yet pruned. */
    var rows: map<Id, Row>
    var posts: seq<Post>
    var nextId: Id

    ghost predicate Valid()
      reads this
    {
      var accounted := AllAccounted(rows, posts, maxAttempts);
      var bounded := AllBounded(posts, maxAttempts);
      var retried := AllRetried(posts, retry);
      var named := Named(rows, posts, nextId);
      accounted && bounded && retried && named
    }

    constructor (maxAttempts: nat, retry: Time)
      ensures Valid() && this.maxAttempts == maxAttempts && this.retry == retry && rows == map[] && posts == []
    {
      this.maxAttempts, this.retry := maxAttempts, retry;
      rows, posts, nextId := map[], [], 0;
    }

    /** The `jti` is minted here, so that a retry sends the same token again. */
    method Enqueue(client: Id, jti: Id) returns (id: Id)
      requires Valid()
      modifies this`rows, this`nextId
      ensures Valid() && id !in old(rows) && rows == old(rows)[id := Row(client, jti, 0, None, None)]
    {
      id := nextId;
      NeverPosted(posts, id);
      Queued(rows, posts, maxAttempts, id, Row(client, jti, 0, None, None));
      rows := rows[id := Row(client, jti, 0, None, None)];
      nextId := nextId + 1;
    }

    /** Undelivered, with attempts left, and the retry interval over since the last one if any. */
    predicate Due(id: Id, at: Time)
      reads this
    {
      && id in rows && rows[id].deliveredAt.None? && rows[id].attempts < maxAttempts
      && (rows[id].lastAttemptAt.Some? ==> rows[id].lastAttemptAt.value < at - retry)
    }

    /** The oldest rows that are due, at most `limit`: ids grow with the time of queueing. */
    method FindPending(at: Time, limit: nat) returns (pending: seq<Id>)
      requires Valid()
      ensures |pending| <= limit && forall i, j :: 0 <= i < j < |pending| ==> pending[i] < pending[j]
      ensures forall i :: 0 <= i < |pending| ==> pending[i] in rows && Awaits(rows[pending[i]], maxAttempts, at - retry)
      ensures forall id :: id in rows && Awaits(rows[id], maxAttempts, at - retry) && id !in pending ==>
        |pending| == limit && forall i :: 0 <= i < |pending| ==> pending[i] < id
      ensures forall i :: 0 <= i < |pending| ==> Due(pending[i], at)
    {
      pending := [];
      for id := 0 to nextId
        invariant |pending| <= limit && forall i, j :: 0 <= i < j < |pending| ==> pending[i] < pending[j]
        invariant forall i :: 0 <= i < |pending| ==>
          pending[i] < id && pending[i] in rows && Awaits(rows[pending[i]], maxAttempts, at - retry)
        invariant forall i :: 0 <= i < |pending| ==> Due(pending[i], at)
        invariant forall x :: x in rows && x < id && Awaits(rows[x], maxAttempts, at - retry) && x !in pending ==>
          |pending| == limit && forall i :: 0 <= i < |pending| ==> pending[i] < x
      {
        if |pending| < limit && Due(id, at) { pending := pending + [id]; }
      }
    }

    method Deliver(id: Id, outcome: Outcome, at: Time) returns (delivered: bool)
      requires Valid() && Due(id, at) && retry >= 0
      modifies this`rows, this`posts
      ensures Valid() && delivered == outcome.Acknowledged?
      ensures posts == old(posts) + Sent(id, old(rows)[id], outcome, at)
      ensures rows == old(rows)[id := Delivered(old(rows)[id], outcome, at)]
    {
      var row := rows[id];
      assert Accounts(id, row, posts);
      if outcome.NoEndpoint? {
        Settles(rows, posts, maxAttempts, id, row.(deliveredAt := Some(at)));
        rows := rows[id := row.(deliveredAt := Some(at))];
        return false;
      }
      var post := Post(id, row.jti, at, outcome.Acknowledged?);
      var sent := row.(attempts := row.attempts + 1, lastAttemptAt := Some(at),
                       deliveredAt := if outcome.Acknowledged? then Some(at) else None);
      PostKeeps(posts, post, row, retry);
      Posted(rows, posts, maxAttempts, post, sent);
      posts := posts + [post];
      rows := rows[id := sent];
      return outcome.Acknowledged?;
    }

    /** `pending` is what was due at `at`; each row is delivered in turn, a little later. Every
        one of them is delivered once and rests until its retry interval is over. */
    method Flush(pending: seq<Id>, outcomes: seq<Outcome>, at: Time, clock: seq<Time>)
      returns (delivered: nat, failed: nat)
      requires Valid() && retry >= 0 && |outcomes| == |pending| == |clock|
      requires forall i :: 0 <= i < |pending| ==> pending[i] in rows && Due(pending[i], at) && at <= clock[i]
      requires forall i, j :: 0 <= i < j < |pending| ==> pending[i] != pending[j]
      modifies this`rows, this`posts
      ensures Valid() && Flushed(old(rows), rows, pending, outcomes, clock, |pending|)
      ensures posts == old(posts) + PostsMade(old(rows), pending, outcomes, clock)
      ensures delivered == AcknowledgedIn(outcomes) && delivered + failed == |pending|
      ensures forall i, later {:trigger Due(pending[i], later)} ::
        0 <= i < |pending| && later <= clock[i] + retry ==> !Due(pending[i], later)
    {
      delivered, failed := 0, 0;
      for n := 0 to |pending|
        invariant Valid() && Flushed(old(rows), rows, pending, outcomes, clock, n)
        invariant SentSoFar(old(posts), posts, old(rows), pending, outcomes, clock, n, delivered)
          && delivered + failed == n
      {
        assert rows[pending[n]] == old(rows)[pending[n]] && old(Due(pending[n], at));
        FlushedOne(old(rows), rows, pending, outcomes, clock, n);
        SentOne(old(posts), posts, old(rows), pending, outcomes, clock, n, delivered);
        var ok := Deliver(pending[n], outcomes[n], clock[n]);
        if ok { delivered := delivered + 1; } else { failed := failed + 1; }
      }
      SentAll(old(posts), posts, old(rows), pending, outcomes, clock, delivered);
    }

    /** Delivered rows, and those out of attempts, are dropped long after. */
    method PruneDelivered(cutoff: Time)
      requires Valid()
      modifies this`rows
      ensures Valid()
      ensures forall id :: id in rows <==> id in old(rows) && !Settled(old(rows)[id], maxAttempts, cutoff)
      ensures forall id :: id in rows ==> rows[id] == old(rows)[id]
      ensures forall id, later :: Due(id, later) <==> old(Due(id, later))
    {
      ghost var before := rows;
      rows := map id | id in rows
                && !(rows[id].deliveredAt.Some? && rows[id].deliveredAt.value < cutoff)
                && !(rows[id].attempts >= maxAttempts && rows[id].lastAttemptAt.Some?
                     && rows[id].lastAttemptAt.value < cutoff)
              :: rows[id];
      forall id | id in rows ensures rows[id].attempts <= maxAttempts && Accounts(id, rows[id], posts) {
        assert Accounts(id, before[id], posts);
      }
    }

    /** Each notice is POSTed at most `maxAttempts` times, always with one `jti`, never after it
        was acknowledged, and never sooner than the retry interval; also once its row is gone. */
    lemma PostsAreBounded(i: nat, j: nat)
      requires Valid() && i < j < |posts| && posts[i].row == posts[j].row
      ensures posts[i].jti == posts[j].jti && !posts[i].ok && posts[i].at + retry < posts[j].at
      ensures PostsOf(posts, posts[i].row) <= maxAttempts
    {
      assert Retried(posts[i], posts[j], retry);
    }
  }

  lemma {:induction false} NeverPosted(posts: seq<Post>, id: Id)
    requires forall i :: 0 <= i < |posts| ==> posts[i].row != id
    ensures PostsOf(posts, id) == 0
  {
    if posts != [] { NeverPosted(posts[..|posts| - 1], id); }
  }

  lemma Queued(rows: map<Id, Row>, posts: seq<Post>, maxAttempts: nat, id: Id, row: Row)
    requires AllAccounted(rows, posts, maxAttempts) && id !in rows && row.attempts == 0
    requires forall i :: 0 <= i < |posts| ==> posts[i].row != id
    requires PostsOf(posts, id) == 0
    ensures AllAccounted(rows[id := row], posts, maxAttempts)
  {
    var after := rows[id := row];
    forall other | other in after ensures Accounts(other, after[other], posts) {
      if other != id { assert Accounts(other, rows[other], posts); }
    }
  }

  lemma Settles(rows: map<Id, Row>, posts: seq<Post>, maxAttempts: nat, id: Id, row: Row)
    requires AllAccounted(rows, posts, maxAttempts) && id in rows
    requires row.deliveredAt.Some? && row == rows[id].(deliveredAt := row.deliveredAt)
    ensures AllAccounted(rows[id := row], posts, maxAttempts)
  {
    var after := rows[id := row];
    assert rows[id].attempts <= maxAttempts && Accounts(id, rows[id], posts);
    forall other | other in after ensures after[other].attempts <= maxAttempts && Accounts(other, after[other], posts) {
      assert Accounts(other, rows[other], posts);
      forall i | 0 <= i < |posts| && posts[i].row == other ensures Remembers(after[other], posts[i]) {
        assert Remembers(rows[other], posts[i]);
      }
    }
  }

  /** One POST more, and its row accounts for it. */
  lemma Posted(rows: map<Id, Row>, posts: seq<Post>, maxAttempts: nat, p: Post, sent: Row)
    requires AllAccounted(rows, posts, maxAttempts) && AllBounded(posts, maxAttempts)
    requires p.row in rows && p.jti == rows[p.row].jti && rows[p.row].attempts < maxAttempts
      && rows[p.row].deliveredAt.None?
    requires rows[p.row].lastAttemptAt.Some? ==> rows[p.row].lastAttemptAt.value <= p.at
    requires sent == rows[p.row].(attempts := rows[p.row].attempts + 1, lastAttemptAt := Some(p.at),
                                  deliveredAt := if p.ok then Some(p.at) else None)
    ensures AllAccounted(rows[p.row := sent], posts + [p], maxAttempts) && AllBounded(posts + [p], maxAttempts)
  {
    var after, all := rows[p.row := sent], posts + [p];
    assert Accounts(p.row, rows[p.row], posts);
    forall id ensures PostsOf(all, id) <= maxAttempts { PostsAppend(posts, p, id); }
    forall id | id in after ensures Accounts(id, after[id], all) {
      PostsAppend(posts, p, id);
      assert Accounts(id, rows[id], posts);
      forall i | 0 <= i < |all| && all[i].row == id ensures Remembers(after[id], all[i]) {
        if i < |posts| { assert Remembers(rows[id], posts[i]); }
      }
    }
  }

  /** A POST of a row that is due is a proper retry of every earlier one. */
  lemma PostKeeps(posts: seq<Post>, p: Post, row: Row, retry: Time)
    requires AllRetried(posts, retry) && Accounts(p.row, row, posts) && p.jti == row.jti
    requires row.deliveredAt.None? && (row.lastAttemptAt.Some? ==> row.lastAttemptAt.value < p.at - retry)
    ensures AllRetried(posts + [p], retry)
  {
    var all := posts + [p];
    forall i, j | 0 <= i < j < |all| ensures Retried(all[i], all[j], retry) {
      if j < |posts| { assert Retried(posts[i], posts[j], retry); }
      else if posts[i].row == p.row { assert Remembers(row, posts[i]); }
    }
  }
}
