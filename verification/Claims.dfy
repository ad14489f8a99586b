/** Assembling the claims of an account. A deployment's own scopes can add claims, but cannot
    speak for the issuer. */
module Claims {
  import opened Prelude

  datatype Json = Undefined | Null | Text(text: string) | Flag(flag: bool) | Number(number: int)

  /** `claims` are released from the account; `produced` is what the scope's `claimsFrom`
      returned, whose values come from attributes an upstream provider controls. */
  datatype Definition = Definition(claims: seq<string>, produced: map<string, Json>)

  const RESERVED_CLAIMS := {
    "iss", "sub", "aud", "exp", "iat", "nbf", "jti", "auth_time", "nonce", "acr", "amr", "azp", "sid", "at_hash",
    "c_hash", "client_id", "scope", "token_use"
  }

  const ACCOUNT_CLAIMS := {
    "email", "email_verified", "name", "preferred_username", "picture", "updated_at", "phone_number_verified"
  }

  /** A claim about the account that a scope may release. */
  predicate Releasable(base: map<string, Json>, claim: string) {
    && claim !in RESERVED_CLAIMS && claim in base
    && base[claim] != Undefined && base[claim] != Null && base[claim] != Text("")
  }

  /** A claim that a scope's own `claimsFrom` may add. */
  predicate Producible(d: Definition, claim: string) {
    && claim !in RESERVED_CLAIMS && claim !in ACCOUNT_CLAIMS
    && claim in d.produced && d.produced[claim] != Undefined && d.produced[claim] != Null
  }

  predicate Released(defs: map<Scope, Definition>, granted: seq<Scope>, base: map<string, Json>, claim: string) {
    && Releasable(base, claim)
    && exists i :: 0 <= i < |granted| && granted[i] in defs && claim in defs[granted[i]].claims
  }

  predicate Supplied(defs: map<Scope, Definition>, granted: seq<Scope>, claim: string, value: Json) {
    exists i :: 0 <= i < |granted| && granted[i] in defs && Producible(defs[granted[i]], claim)
                && defs[granted[i]].produced[claim] == value
  }

  /** Every value has a source: the account record, through a granted scope that releases the
      claim, or a granted custom scope, for a claim the issuer makes no statement about. */
  ghost predicate Sourced(defs: map<Scope, Definition>, granted: seq<Scope>, base: map<string, Json>,
                          result: map<string, Json>) {
    forall c {:trigger c in result} :: c in result ==>
      || (Released(defs, granted, base, c) && result[c] == base[c])
      || Supplied(defs, granted, c, result[c])
  }

  function Lookup(result: map<string, Json>, claim: string): Option<Json> {
    if claim in result then Some(result[claim]) else None
  }

  /** The last granted scope that has something to say about the claim says it, and what a scope
      produces itself comes after what it releases. */
  ghost function ValueOf(defs: map<Scope, Definition>, granted: seq<Scope>, base: map<string, Json>,
                         claim: string): Option<Json> {
    if granted == [] then None
    else
      var last := granted[|granted| - 1];
      if last in defs && Producible(defs[last], claim) then Some(defs[last].produced[claim])
      else if last in defs && claim in defs[last].claims && Releasable(base, claim) then Some(base[claim])
      else ValueOf(defs, granted[..|granted| - 1], base, claim)
  }

  lemma ReleasedByLast(defs: map<Scope, Definition>, granted: seq<Scope>, base: map<string, Json>, claim: string)
    requires granted != []
    ensures var last, before := granted[|granted| - 1], granted[..|granted| - 1];
      Released(defs, granted, base, claim) <==>
      Released(defs, before, base, claim) || (Releasable(base, claim) && last in defs && claim in defs[last].claims)
  {
    var n, before := |granted| - 1, granted[..|granted| - 1];
    if Released(defs, granted, base, claim) {
      var i :| 0 <= i < |granted| && granted[i] in defs && claim in defs[granted[i]].claims;
      if i < n { assert before[i] == granted[i]; }
    }
    if Released(defs, before, base, claim) {
      var i :| 0 <= i < n && before[i] in defs && claim in defs[before[i]].claims;
      assert granted[i] == before[i];
    }
  }

  lemma SuppliedByLast(defs: map<Scope, Definition>, granted: seq<Scope>, claim: string, value: Json)
    requires granted != []
    ensures var last, before := granted[|granted| - 1], granted[..|granted| - 1];
      Supplied(defs, granted, claim, value) <==>
      || Supplied(defs, before, claim, value)
      || (last in defs && Producible(defs[last], claim) && defs[last].produced[claim] == value)
  {
    var n, before := |granted| - 1, granted[..|granted| - 1];
    if Supplied(defs, granted, claim, value) {
      var i :| 0 <= i < |granted| && granted[i] in defs && Producible(defs[granted[i]], claim)
               && defs[granted[i]].produced[claim] == value;
      if i < n { assert before[i] == granted[i]; }
    }
    if Supplied(defs, before, claim, value) {
      var i :| 0 <= i < n && before[i] in defs && Producible(defs[before[i]], claim)
               && defs[before[i]].produced[claim] == value;
      assert granted[i] == before[i];
    }
  }

  /** A claim has a value exactly when a granted scope releases or produces it. */
  lemma {:induction false} ValueSourced(defs: map<Scope, Definition>, granted: seq<Scope>, base: map<string, Json>,
                                        claim: string)
    ensures var v := ValueOf(defs, granted, base, claim);
      && (v.Some? <==>
            Released(defs, granted, base, claim) || exists value :: Supplied(defs, granted, claim, value))
      && (v.Some? ==>
            (Released(defs, granted, base, claim) && v.value == base[claim]) || Supplied(defs, granted, claim, v.value))
  {
    if granted != [] {
      ValueSourced(defs, granted[..|granted| - 1], base, claim);
      ReleasedByLast(defs, granted, base, claim);
      forall value
        ensures Supplied(defs, granted, claim, value) <==>
          || Supplied(defs, granted[..|granted| - 1], claim, value)
          || (granted[|granted| - 1] in defs && Producible(defs[granted[|granted| - 1]], claim)
              && defs[granted[|granted| - 1]].produced[claim] == value)
      {
        SuppliedByLast(defs, granted, claim, value);
      }
      var last, earlier := granted[|granted| - 1], ValueOf(defs, granted[..|granted| - 1], base, claim);
      if last in defs && Producible(defs[last], claim) {
        assert Supplied(defs, granted, claim, defs[last].produced[claim]);
      } else if earlier.Some? {
        SuppliedByLast(defs, granted, claim, earlier.value);
      }
    }
  }

  lemma AllSourced(defs: map<Scope, Definition>, granted: seq<Scope>, base: map<string, Json>,
                   result: map<string, Json>)
    requires forall c {:trigger Lookup(result, c)} :: Lookup(result, c) == ValueOf(defs, granted, base, c)
    ensures Sourced(defs, granted, base, result)
    ensures forall c :: Released(defs, granted, base, c) ==> c in result
    ensures forall c, value :: Supplied(defs, granted, c, value) ==> c in result
  {
    forall c | c in result
      ensures (Released(defs, granted, base, c) && result[c] == base[c]) || Supplied(defs, granted, c, result[c])
    {
      assert Lookup(result, c) == ValueOf(defs, granted, base, c);
      ValueSourced(defs, granted, base, c);
    }
    forall c | Released(defs, granted, base, c) ensures c in result {
      assert Lookup(result, c) == ValueOf(defs, granted, base, c);
      ValueSourced(defs, granted, base, c);
    }
    forall c, value | Supplied(defs, granted, c, value) ensures c in result {
      assert Lookup(result, c) == ValueOf(defs, granted, base, c);
      ValueSourced(defs, granted, base, c);
    }
  }

  method ClaimsFor(defs: map<Scope, Definition>, granted: seq<Scope>,
                   base: map<string, Json>) returns (result: map<string, Json>)
    ensures forall c {:trigger Lookup(result, c)} :: Lookup(result, c) == ValueOf(defs, granted, base, c)
    ensures Sourced(defs, granted, base, result)
    ensures forall c :: Released(defs, granted, base, c) ==> c in result
    ensures forall c, value :: Supplied(defs, granted, c, value) ==> c in result
  {
    result := map[];
    for n := 0 to |granted|
      invariant forall c {:trigger Lookup(result, c)} :: Lookup(result, c) == ValueOf(defs, granted[..n], base, c)
    {
      assert granted[..n + 1][..n] == granted[..n] && granted[..n + 1][n] == granted[n];
      if granted[n] in defs {
        var d := defs[granted[n]];
        ghost var before := result;
        var released := Release(d, base, result);
        result := Supply(d, released);
        forall c ensures Lookup(result, c) == ValueOf(defs, granted[..n + 1], base, c) {
          assert Lookup(before, c) == ValueOf(defs, granted[..n], base, c);
        }
      }
    }
    assert granted[..|granted|] == granted;
    AllSourced(defs, granted, base, result);
  }

  predicate Present(v: Json) { !v.Undefined? && !v.Null? && v != Text("") }

  /** The claims of one scope, from the account. */
  method Release(d: Definition, base: map<string, Json>, before: map<string, Json>) returns (result: map<string, Json>)
    ensures forall c {:trigger Lookup(result, c)} ::
      Lookup(result, c) == if c in d.claims && Releasable(base, c) then Some(base[c]) else Lookup(before, c)
  {
    result := before;
    for k := 0 to |d.claims|
      invariant forall c {:trigger Lookup(result, c)} ::
        Lookup(result, c) == if c in d.claims[..k] && Releasable(base, c) then Some(base[c]) else Lookup(before, c)
    {
      var claim := d.claims[k];
      ghost var was := result;
      if claim !in RESERVED_CLAIMS && claim in base && Present(base[claim]) {
        result := result[claim := base[claim]];
      }
      assert d.claims[..k + 1] == d.claims[..k] + [claim];
      forall c
        ensures Lookup(result, c) ==
          if c in d.claims[..k + 1] && Releasable(base, c) then Some(base[c]) else Lookup(before, c)
      {
        assert Lookup(was, c) == if c in d.claims[..k] && Releasable(base, c) then Some(base[c]) else Lookup(before, c);
      }
    }
    assert d.claims[..|d.claims|] == d.claims;
  }

  /** What the scope's own `claimsFrom` adds. */
  method Supply(d: Definition, before: map<string, Json>) returns (result: map<string, Json>)
    ensures forall c {:trigger Lookup(result, c)} ::
      Lookup(result, c) == if Producible(d, c) then Some(d.produced[c]) else Lookup(before, c)
  {
    result := before;
    var pending := d.produced.Keys;
    while pending != {}
      invariant pending <= d.produced.Keys
      invariant forall c {:trigger Lookup(result, c)} ::
        Lookup(result, c) == if Producible(d, c) && c !in pending then Some(d.produced[c]) else Lookup(before, c)
      decreases |pending|
    {
      var claim :| claim in pending;
      ghost var was, left := result, pending;
      pending := pending - {claim};
      var value := d.produced[claim];
      if claim !in RESERVED_CLAIMS && claim !in ACCOUNT_CLAIMS && !value.Undefined? && !value.Null? {
        result := result[claim := value];
      }
      forall c
        ensures Lookup(result, c) ==
          if Producible(d, c) && c !in pending then Some(d.produced[c]) else Lookup(before, c)
      {
        assert Lookup(was, c) == if Producible(d, c) && c !in left then Some(d.produced[c]) else Lookup(before, c);
      }
    }
  }

  /** However a deployment configures its scopes, no claim the issuer reserves is asserted,
      and what it asserts about the account is what the account record says. */
  lemma IssuerSpeaksForItself(defs: map<Scope, Definition>, granted: seq<Scope>, base: map<string, Json>,
                              result: map<string, Json>)
    requires Sourced(defs, granted, base, result)
    ensures forall c :: c in result ==> c !in RESERVED_CLAIMS
    ensures forall c :: c in result && c in ACCOUNT_CLAIMS ==> c in base && result[c] == base[c]
  {
  }

  // --- The account's claims ------------------------------------------------

  datatype Account = Account(name: Json, username: Json, picture: Json, email: string, emailVerified: bool,
                             updatedAt: Json)

  const PLACEHOLDER := "@external.invalid"

  predicate Placeholder(email: string) {
    |email| >= |PLACEHOLDER| && email[|email| - |PLACEHOLDER|..] == PLACEHOLDER
  }

  function BaseClaims(a: Account): map<string, Json> {
    map[
      "name" := a.name,
      "preferred_username" := a.username,
      "picture" := a.picture,
      "email" := if Placeholder(a.email) then Null else Text(a.email),
      "email_verified" := if Placeholder(a.email) then Flag(false) else Flag(a.emailVerified),
      "updated_at" := a.updatedAt]
  }

  /** A synthesized address is never shown, nothing ever says that it was verified, and every
      claim about the account is what the account has. */
  method BuildUserClaims(defs: map<Scope, Definition>, granted: seq<Scope>,
                         account: Account) returns (result: map<string, Json>)
    ensures forall c {:trigger Lookup(result, c)} ::
      Lookup(result, c) == ValueOf(defs, granted, BaseClaims(account), c)
    ensures Placeholder(account.email) ==> "email" !in result
    ensures "email" in result ==> result["email"] == Text(account.email)
    ensures "email_verified" in result ==>
      result["email_verified"] == Flag(account.emailVerified && !Placeholder(account.email))
    ensures "name" in result ==> result["name"] == account.name
    ensures "preferred_username" in result ==> result["preferred_username"] == account.username
    ensures "picture" in result ==> result["picture"] == account.picture
    ensures "updated_at" in result ==> result["updated_at"] == account.updatedAt
  {
    result := ClaimsFor(defs, granted, BaseClaims(account));
    IssuerSpeaksForItself(defs, granted, BaseClaims(account), result);
  }
}
