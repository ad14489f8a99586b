/** The replay ledger of handoff tickets (RFC 7519 sections 2 and 4.1.7). */
module TicketLedger {
  import opened Prelude

  /** What a signed ticket says, in seconds: any finite numbers. */
  datatype Ticket = Ticket(provider: Id, jti: Id, iat: real, exp: real)

  /** `Math.floor(now / 1000)`, for a clock in milliseconds. */
  function Seconds(now: nat): nat { now / 1000 }

  /** `new Date(exp * 1000)` keeps whole milliseconds. */
  function Stored(exp: real): Time { if exp >= 0.0 then (1000.0 * exp).Floor else -(-1000.0 * exp).Floor }

  /** The time checks of `verify`: the expiry is compared as it was signed. */
  predicate Verifies(t: Ticket, now: nat, ticketTtl: nat) {
    var seconds := Seconds(now) as real;
    seconds < t.exp && t.iat <= seconds + 60.0 && t.exp - t.iat <= ticketTtl as real
  }

  /** A ledger row may be deleted. */
  predicate Prunable(stored: Time, now: nat) { stored < now }

  /** The expiry is a whole number of seconds, or within a second's last millisecond. */
  predicate Aligned(exp: real) {
    var part := exp - exp.Floor as real;
    part == 0.0 || part >= 0.999
  }

  /** The millisecond in which an expiry lies, and its second. */
  lemma StoredMillisecond(exp: real)
    requires exp > 0.0
    ensures Stored(exp) as real <= 1000.0 * exp < Stored(exp) as real + 1.0
    ensures exp.Floor as real <= exp < exp.Floor as real + 1.0
    ensures 1000 * exp.Floor <= Stored(exp) < 1000 * exp.Floor + 1000
  {
  }

  /** Once its row may be deleted, a ticket with an aligned expiry is rejected. */
  lemma AlignedIsRejected(exp: real, now: nat)
    requires exp > 0.0 && Aligned(exp) && Prunable(Stored(exp), now)
    ensures exp <= Seconds(now) as real
  {
    StoredMillisecond(exp);
    if exp == exp.Floor as real {
      assert Stored(exp) == 1000 * exp.Floor;
    } else {
      assert 1000.0 * exp >= 1000.0 * exp.Floor as real + 999.0;
      assert Stored(exp) >= 1000 * exp.Floor + 999;
    }
  }

  /** Any other is still accepted in the next millisecond. */
  lemma UnalignedIsAccepted(exp: real)
    requires exp > 0.0 && !Aligned(exp)
    ensures Stored(exp) + 1 >= 0 && Seconds(Stored(exp) + 1) as real < exp && Seconds(Stored(exp) + 1) == exp.Floor
  {
    StoredMillisecond(exp);
    assert 1000.0 * exp < 1000.0 * exp.Floor as real + 999.0;
    assert Stored(exp) < 1000 * exp.Floor + 999;
  }

  /** A row that may be deleted always belongs to a ticket that is rejected anyway, exactly when
      the expiry is aligned with the seconds that the check looks at. */
  lemma PrunableIsRejected(exp: real)
    requires exp > 0.0
    ensures (forall now: nat :: Prunable(Stored(exp), now) ==> exp <= Seconds(now) as real) <==> Aligned(exp)
  {
    if Aligned(exp) {
      forall now: nat | Prunable(Stored(exp), now) ensures exp <= Seconds(now) as real { AlignedIsRejected(exp, now); }
    } else {
      UnalignedIsAccepted(exp);
      var now := Stored(exp) + 1;
      assert Prunable(Stored(exp), now) && !(exp <= Seconds(now) as real);
    }
  }

  // --- The ledger over time ------------------------------------------------

  datatype Acceptance = Acceptance(ticket: Ticket, at: nat)

  class Ledger {
    const ticketTtl: nat
    var rows: map<(Id, Id), Time>
    var now: nat
    /** Every ticket accepted so far, by sign-in or by linking. */
    var accepted: seq<Acceptance>

    ghost predicate Valid()
      reads this
    {
      && (forall i :: 0 <= i < |accepted| ==> Recorded(rows, accepted[i], now))
      && Spaced(accepted)
    }

    constructor (ticketTtl: nat, now: nat)
      ensures this.ticketTtl == ticketTtl && this.now == now && Valid()
      ensures rows == map[] && accepted == []
    {
      this.ticketTtl := ticketTtl;
      this.now := now;
      rows := map[];
      accepted := [];
    }

    method Tick(now: nat)
      requires Valid() && this.now <= now
      modifies this`now
      ensures Valid() && this.now == now
    {
      this.now := now;
    }

    /** Verify and consume: `completeCallback` and `link` both start with it. The unique key on
        (provider, jti) refuses a ticket that is on record. */
    method Accept(t: Ticket) returns (ok: bool)
      requires Valid()
      modifies this`rows, this`accepted
      ensures Valid()
      ensures ok <==>
        && (now / 1000) as real < t.exp && t.iat <= (now / 1000) as real + 60.0 && t.exp - t.iat <= ticketTtl as real
        && (t.provider, t.jti) !in old(rows)
      ensures accepted == if ok then old(accepted) + [Acceptance(t, now)] else old(accepted)
      ensures rows == if ok then old(rows)[(t.provider, t.jti) := Stored(t.exp)] else old(rows)
    {
      if !Verifies(t, now, ticketTtl) { return false; }
      if (t.provider, t.jti) in rows { return false; }
      rows := rows[(t.provider, t.jti) := Stored(t.exp)];
      accepted := accepted + [Acceptance(t, now)];
      return true;
    }

    method PruneConsumedTickets()
      requires Valid()
      modifies this`rows
      ensures Valid()
      ensures rows == map k | k in old(rows) && now <= old(rows)[k] :: old(rows)[k]
    {
      ghost var before := rows;
      rows := map k | k in rows && !Prunable(rows[k], now) :: rows[k];
      forall i | 0 <= i < |accepted| ensures Recorded(rows, accepted[i], now) {
        var t := accepted[i].ticket;
        assert Recorded(before, accepted[i], now);
        if Aligned(t.exp) && Prunable(Stored(t.exp), now) { AlignedIsRejected(t.exp, now); }
      }
    }

    /** A ticket with an aligned expiry is never accepted twice, however the ledger was pruned
        in between; nor is another ticket with the same `jti` before the first one expired. */
    lemma AcceptedOnce(i: nat, j: nat)
      requires Valid() && i < j < |accepted| && Aligned(accepted[i].ticket.exp)
      ensures accepted[i].ticket != accepted[j].ticket
      ensures var first, second := accepted[i].ticket, accepted[j].ticket;
        first.provider == second.provider && first.jti == second.jti ==>
          first.exp <= Seconds(accepted[j].at) as real < second.exp
    {
      assert Apart(accepted[i], accepted[j]);
    }
  }

  /** The acceptance is on record, or its ticket no longer verifies. */
  predicate Recorded(rows: map<(Id, Id), Time>, a: Acceptance, now: nat) {
    var key := (a.ticket.provider, a.ticket.jti);
    && a.at <= now && Seconds(a.at) as real < a.ticket.exp
    && (Aligned(a.ticket.exp) ==>
          (key in rows && rows[key] == Stored(a.ticket.exp)) || a.ticket.exp <= Seconds(now) as real)
  }

  predicate Apart(a: Acceptance, b: Acceptance) {
    a.ticket.provider == b.ticket.provider && a.ticket.jti == b.ticket.jti && Aligned(a.ticket.exp) ==>
      a.ticket.exp <= Seconds(b.at) as real < b.ticket.exp
  }

  ghost predicate Spaced(accepted: seq<Acceptance>) {
    forall i, j {:trigger Apart(accepted[i], accepted[j])} :: 0 <= i < j < |accepted| ==>
      Apart(accepted[i], accepted[j])
  }

  /** Any other ticket that is acceptable at all is accepted twice in some run of the ledger: its
      row is pruned while the check, which only sees whole seconds, still lets it through. */
  method UnalignedReplays(t: Ticket, ticketTtl: nat, now: nat) returns (ledger: Ledger)
    requires Verifies(t, now, ticketTtl) && !Aligned(t.exp)
    ensures ledger.Valid() && ledger.ticketTtl == ticketTtl
    ensures ledger.accepted == [Acceptance(t, now), Acceptance(t, ledger.now)]
  {
    UnalignedIsAccepted(t.exp);
    StoredMillisecond(t.exp);
    ledger := new Ledger(ticketTtl, now);
    var first := ledger.Accept(t);
    var later := if now < Stored(t.exp) + 1 then Stored(t.exp) + 1 else now;
    assert Seconds(now) <= t.exp.Floor;
    assert Seconds(later) == Seconds(now) || Seconds(later) == t.exp.Floor;
    ledger.Tick(later);
    ledger.PruneConsumedTickets();
    var second := ledger.Accept(t);
  }
}
