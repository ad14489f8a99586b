/** The scope registry: the canonical form of a scope list, coverage, and the live authority
    that introspection reports. */
module Scopes {
  import opened Prelude
  import opened Lists

  /** What evaluating a deployment's `allowFor` rule on an account does. */
  datatype Verdict = Allows | Denies | Throws

  /** `restricted`: the scope has an `allowFor` rule. `claim`: its introspection boolean. */
  datatype Definition = Definition(name: Scope, restricted: bool, claim: Option<string>)

  /** Insertion order of the registry's `Map`. */
  type Registry = seq<Definition>

  predicate WellFormed(reg: Registry) {
    && (forall i, j :: 0 <= i < j < |reg| ==> reg[i].name != reg[j].name)
    && (forall i :: 0 <= i < |reg| && reg[i].claim.Some? ==> reg[i].restricted)
    && (forall i, j :: 0 <= i < j < |reg| && reg[i].claim.Some? ==> reg[i].claim != reg[j].claim)
  }

  predicate Has(reg: Registry, scope: Scope) {
    exists i :: 0 <= i < |reg| && reg[i].name == scope
  }

  // --- Building the registry -----------------------------------------------

  const STANDARD: seq<Scope> := ["openid", "profile", "email", "address", "phone", "offline_access"]

  /** A deployment's own scope. `legal`: its claims are not reserved, its functions are functions,
      and its introspection claim is a name that no response field has. */
  datatype Entry = Entry(name: Scope, restricted: bool, claim: Option<string>, legal: bool)

  predicate Acceptable(e: Entry) {
    LegalToken(e.name) && e.name !in STANDARD && e.legal && (e.claim.Some? ==> e.restricted)
  }

  predicate DistinctClaims(entries: seq<Entry>) {
    forall i, j :: 0 <= i < j < |entries| && entries[i].claim.Some? ==> entries[i].claim != entries[j].claim
  }

  predicate Configurable(entries: seq<Entry>) {
    (forall i :: 0 <= i < |entries| ==> Acceptable(entries[i])) && DistinctClaims(entries)
  }

  predicate StandardFirst(reg: Registry) {
    |reg| >= |STANDARD| && forall i :: 0 <= i < |STANDARD| ==> reg[i] == Definition(STANDARD[i], false, None)
  }

  ghost predicate ClaimsFrom(reg: Registry, entries: seq<Entry>) {
    forall i :: 0 <= i < |reg| && reg[i].claim.Some? ==> reg[i].claim.value in ClaimsOf(entries)
  }

  function Names(entries: seq<Entry>): seq<Scope> {
    if entries == [] then [] else Names(entries[..|entries| - 1]) + [entries[|entries| - 1].name]
  }

  function Defined(e: Entry): Definition { Definition(e.name, e.restricted, e.claim) }

  /** What the last entry of that name says. */
  function LastOf(entries: seq<Entry>, name: Scope): (d: Definition)
    requires name in Names(entries)
    ensures d.name == name
  {
    var last := entries[|entries| - 1];
    if last.name == name then Defined(last) else LastOf(entries[..|entries| - 1], name)
  }

  /** One custom definition for each name, where the name first appeared and as its last entry
      says; and no other. */
  ghost predicate CustomAfter(reg: Registry, entries: seq<Entry>) {
    var names := Dedup(Names(entries));
    && |reg| == |STANDARD| + |names|
    && forall i :: 0 <= i < |names| ==>
         names[i] in Names(entries) && reg[|STANDARD| + i] == LastOf(entries, names[i])
  }

  /** The standard scopes lead, then come the custom ones, and no boolean belongs to two scopes. */
  ghost predicate Built(reg: Registry, entries: seq<Entry>) {
    var formed := WellFormed(reg);
    var standard := StandardFirst(reg);
    var claims := ClaimsFrom(reg, entries);
    var custom := CustomAfter(reg, entries);
    formed && standard && claims && custom
  }

  /** A `Map` keeps the place of a key that is set again. */
  function SetIn(reg: Registry, d: Definition): Registry {
    var place := Place(reg, d.name);
    if place < |reg| then reg[place := d] else reg + [d]
  }

  lemma SetKeepsStandard(reg: Registry, d: Definition)
    requires StandardFirst(reg) && d.name !in STANDARD
    ensures StandardFirst(SetIn(reg, d))
  {
    assert forall i :: 0 <= i < |STANDARD| ==> reg[i].name in STANDARD;
  }

  lemma PlaceOf(reg: Registry, i: nat)
    requires WellFormed(reg) && i < |reg|
    ensures Place(reg, reg[i].name) == i
  {
    var p := Place(reg, reg[i].name);
    assert Has(reg, reg[i].name);
    assert reg[p].name == reg[i].name;
  }

  lemma SetKeepsForm(reg: Registry, d: Definition, entries: seq<Entry>)
    requires WellFormed(reg) && ClaimsFrom(reg, entries)
    requires d.claim.Some? ==> d.restricted && d.claim.value !in ClaimsOf(entries)
    ensures WellFormed(SetIn(reg, d))
  {
    var r, place := SetIn(reg, d), Place(reg, d.name);
    forall i | 0 <= i < |reg| && i != place
      ensures reg[i].name != d.name && (d.claim.Some? ==> reg[i].claim != d.claim)
    {
      PlaceOf(reg, i);
    }
  }

  lemma NamesGrow(entries: seq<Entry>, n: nat)
    requires n < |entries|
    ensures Names(entries[..n + 1]) == Names(entries[..n]) + [entries[n].name]
    ensures Dedup(Names(entries[..n + 1])) ==
            Dedup(Names(entries[..n])) + if entries[n].name in Names(entries[..n]) then [] else [entries[n].name]
  {
    assert entries[..n + 1][..n] == entries[..n];
    var before, after := Names(entries[..n]), Names(entries[..n + 1]);
    assert after[..|after| - 1] == before;
    DedupDistinct(before);
  }

  lemma LastGrows(entries: seq<Entry>, n: nat, name: Scope)
    requires n < |entries| && name in Names(entries[..n + 1])
    ensures name == entries[n].name ==> LastOf(entries[..n + 1], name) == Defined(entries[n])
    ensures name != entries[n].name ==>
      name in Names(entries[..n]) && LastOf(entries[..n + 1], name) == LastOf(entries[..n], name)
  {
    NamesGrow(entries, n);
    assert entries[..n + 1][..n] == entries[..n];
  }

  /** Where the name is to be set: its place among the custom ones, or the end. */
  lemma SetPlace(reg: Registry, entries: seq<Entry>, name: Scope) returns (k: nat)
    requires WellFormed(reg) && StandardFirst(reg) && CustomAfter(reg, entries) && name !in STANDARD
    ensures var names := Dedup(Names(entries));
      && k <= |names| && Place(reg, name) == |STANDARD| + k
      && (k < |names| <==> name in Names(entries)) && (k < |names| ==> names[k] == name)
  {
    var names := Dedup(Names(entries));
    DedupDistinct(Names(entries));
    if name in Names(entries) {
      k :| 0 <= k < |names| && names[k] == name;
      PlaceOf(reg, |STANDARD| + k);
    } else {
      k := |names|;
      forall i | 0 <= i < |reg| ensures reg[i].name != name {
        if i < |STANDARD| {
          assert reg[i].name == STANDARD[i];
        } else {
          assert reg[|STANDARD| + (i - |STANDARD|)].name == names[i - |STANDARD|];
        }
      }
      assert !Has(reg, name);
    }
  }

  lemma SetCustom(reg: Registry, entries: seq<Entry>, n: nat)
    requires n < |entries| && entries[n].name !in STANDARD
    requires WellFormed(reg) && StandardFirst(reg) && CustomAfter(reg, entries[..n])
    ensures CustomAfter(SetIn(reg, Defined(entries[n])), entries[..n + 1])
  {
    var d, after := Defined(entries[n]), entries[..n + 1];
    var names := Dedup(Names(after));
    var k := SetPlace(reg, entries[..n], d.name);
    NamesGrow(entries, n);
    DedupDistinct(Names(entries[..n]));
    DedupDistinct(Names(after));
    forall i | 0 <= i < |names|
      ensures names[i] in Names(after) && SetIn(reg, d)[|STANDARD| + i] == LastOf(after, names[i])
    {
      LastGrows(entries, n, names[i]);
    }
  }

  lemma SetClaims(reg: Registry, d: Definition, entries: seq<Entry>, n: nat)
    requires n < |entries| && ClaimsFrom(reg, entries[..n]) && d.claim == entries[n].claim
    ensures ClaimsFrom(SetIn(reg, d), entries[..n + 1])
  {
    ClaimsGrow(entries, n);
  }

  lemma BuiltGrows(reg: Registry, entries: seq<Entry>, n: nat)
    requires n < |entries| && Built(reg, entries[..n]) && Acceptable(entries[n])
    requires entries[n].claim.Some? ==> entries[n].claim.value !in ClaimsOf(entries[..n])
    ensures Built(SetIn(reg, Defined(entries[n])), entries[..n + 1])
  {
    var d := Defined(entries[n]);
    SetKeepsStandard(reg, d);
    SetKeepsForm(reg, d, entries[..n]);
    SetCustom(reg, entries, n);
    SetClaims(reg, d, entries, n);
  }

  lemma Accepts(entries: seq<Entry>, n: nat)
    requires n < |entries| && Configurable(entries[..n]) && Acceptable(entries[n])
    requires entries[n].claim.Some? ==> entries[n].claim.value !in ClaimsOf(entries[..n])
    ensures Configurable(entries[..n + 1])
  {
    ClaimsGrow(entries, n);
    var after := entries[..n + 1];
    forall i | 0 <= i < |after| ensures Acceptable(after[i]) {
      if i < n { assert Acceptable(entries[..n][i]); }
    }
  }

  lemma Rejects(entries: seq<Entry>, n: nat)
    requires n < |entries|
    requires !Acceptable(entries[n]) || (entries[n].claim.Some? && entries[n].claim.value in ClaimsOf(entries[..n]))
    ensures !Configurable(entries)
  {
    ClaimsGrow(entries, n);
  }

  method StandardScopes() returns (reg: Registry)
    ensures Built(reg, [])
  {
    reg := [];
    for i := 0 to |STANDARD|
      invariant |reg| == i && forall j :: 0 <= j < i ==> reg[j] == Definition(STANDARD[j], false, None)
    {
      reg := reg + [Definition(STANDARD[i], false, None)];
    }
  }

  /** The registry is built, well formed, exactly when every entry is acceptable and no two
      entries claim the same introspection boolean; otherwise the issuer does not start. */
  method CreateRegistry(entries: seq<Entry>) returns (r: Option<Registry>)
    ensures r.Some? <==> Configurable(entries)
    ensures r.Some? ==> Built(r.value, entries)
  {
    var reg := StandardScopes();
    var claims: set<string> := {};
    assert entries[..0] == [];
    for n := 0 to |entries|
      invariant Built(reg, entries[..n]) && Configurable(entries[..n]) && claims == ClaimsOf(entries[..n])
    {
      var e := entries[n];
      if !LegalToken(e.name) || e.name in STANDARD || !e.legal || (e.claim.Some? && !e.restricted)
         || (e.claim.Some? && e.claim.value in claims) {
        Rejects(entries, n);
        return None;
      }
      BuiltGrows(reg, entries, n);
      Accepts(entries, n);
      ClaimsGrow(entries, n);
      if e.claim.Some? { claims := claims + {e.claim.value}; }
      reg := SetIn(reg, Definition(e.name, e.restricted, e.claim));
    }
    assert entries[..|entries|] == entries;
    return Some(reg);
  }

  function ClaimsOf(entries: seq<Entry>): set<string> {
    set i | 0 <= i < |entries| && entries[i].claim.Some? :: entries[i].claim.value
  }

  lemma ClaimsGrow(entries: seq<Entry>, n: nat)
    requires n < |entries|
    ensures ClaimsOf(entries[..n + 1]) ==
            ClaimsOf(entries[..n]) + if entries[n].claim.Some? then {entries[n].claim.value} else {}
    ensures entries[n].claim.Some? && entries[n].claim.value !in ClaimsOf(entries[..n]) ==>
      forall k :: 0 <= k < n ==> entries[k].claim != entries[n].claim
    ensures entries[n].claim.Some? && entries[n].claim.value in ClaimsOf(entries[..n]) ==> !DistinctClaims(entries)
  {
    var before, after := entries[..n], entries[..n + 1];
    forall c ensures c in ClaimsOf(after) <==>
      c in ClaimsOf(before) || (entries[n].claim.Some? && c == entries[n].claim.value)
    {
      if c in ClaimsOf(before) {
        var i :| 0 <= i < |before| && before[i].claim == Some(c);
        assert after[i].claim == Some(c);
      }
      if entries[n].claim == Some(c) { assert after[n].claim == Some(c); }
      if c in ClaimsOf(after) {
        var i :| 0 <= i < |after| && after[i].claim == Some(c);
        if i < n { assert before[i].claim == Some(c); }
      }
    }
    forall k | 0 <= k < n && entries[k].claim.Some? ensures entries[k].claim.value in ClaimsOf(before) {
      assert before[k].claim == entries[k].claim;
    }
    if entries[n].claim.Some? && entries[n].claim.value in ClaimsOf(before) {
      var i :| 0 <= i < |before| && before[i].claim == entries[n].claim;
      assert entries[i].claim == entries[n].claim;
    }
  }

  // --- Canonical order -----------------------------------------------------

  /** The scope's place among the supported ones; unknown scopes come after all of them. */
  function Place(reg: Registry, scope: Scope): (i: nat)
    ensures i <= |reg| && (i < |reg| ==> reg[i].name == scope)
    ensures i < |reg| <==> Has(reg, scope)
  {
    if reg == [] then 0
    else if reg[0].name == scope then 0
    else
      assert forall i :: 0 < i < |reg| ==> reg[i] == reg[1..][i - 1];
      1 + Place(reg[1..], scope)
  }

  /** `collate(a, b)`: `a.localeCompare(b) <= 0`, a total preorder on strings. */
  ghost predicate Collation(collate: (Scope, Scope) -> bool) {
    && (forall a, b :: collate(a, b) || collate(b, a))
    && (forall a, b, c :: collate(a, b) && collate(b, c) ==> collate(a, c))
  }

  predicate Before(reg: Registry, collate: (Scope, Scope) -> bool, a: Scope, b: Scope) {
    Place(reg, a) < Place(reg, b) || (Place(reg, a) == Place(reg, b) && collate(a, b))
  }

  predicate Ordered(reg: Registry, collate: (Scope, Scope) -> bool, list: seq<Scope>) {
    forall i, j :: 0 <= i < j < |list| ==> Before(reg, collate, list[i], list[j])
  }

  function Insert(reg: Registry, collate: (Scope, Scope) -> bool, x: Scope, list: seq<Scope>): seq<Scope> {
    if list == [] then [x]
    else if Before(reg, collate, list[0], x) && !Before(reg, collate, x, list[0])
    then [list[0]] + Insert(reg, collate, x, list[1..])
    else [x] + list
  }

  /** A stable sort, as `Array.prototype.sort` is. */
  function InsertAll(reg: Registry, collate: (Scope, Scope) -> bool, list: seq<Scope>): seq<Scope> {
    if list == [] then [] else Insert(reg, collate, list[0], InsertAll(reg, collate, list[1..]))
  }

  function Sort(reg: Registry, collate: (Scope, Scope) -> bool, list: seq<Scope>): seq<Scope> {
    InsertAll(reg, collate, Dedup(list))
  }

  /** No two different members tie: true of registered scopes, and of any the locale tells apart. */
  ghost predicate Separates(reg: Registry, collate: (Scope, Scope) -> bool, list: seq<Scope>) {
    forall a, b :: a in list && b in list && Before(reg, collate, a, b) && Before(reg, collate, b, a) ==> a == b
  }

  lemma RegisteredSeparate(reg: Registry, collate: (Scope, Scope) -> bool, list: seq<Scope>)
    requires forall s :: s in list ==> Has(reg, s)
    ensures Separates(reg, collate, list)
  {
  }

  lemma BeforeTotal(reg: Registry, collate: (Scope, Scope) -> bool, a: Scope, b: Scope, c: Scope)
    requires Collation(collate)
    ensures Before(reg, collate, a, b) || Before(reg, collate, b, a)
    ensures Before(reg, collate, a, b) && Before(reg, collate, b, c) ==> Before(reg, collate, a, c)
  {
  }

  lemma {:induction false} InsertCounts(reg: Registry, collate: (Scope, Scope) -> bool, x: Scope, list: seq<Scope>)
    ensures multiset(Insert(reg, collate, x, list)) == multiset(list) + multiset{x}
  {
    if list != [] {
      InsertCounts(reg, collate, x, list[1..]);
      assert list == [list[0]] + list[1..];
    }
  }

  lemma InsertMembers(reg: Registry, collate: (Scope, Scope) -> bool, x: Scope, list: seq<Scope>, k: nat)
    requires k < |Insert(reg, collate, x, list)|
    ensures Insert(reg, collate, x, list)[k] == x || Insert(reg, collate, x, list)[k] in list
  {
    InsertCounts(reg, collate, x, list);
    assert Insert(reg, collate, x, list)[k] in multiset(Insert(reg, collate, x, list));
  }

  lemma {:induction false} InsertOrders(reg: Registry, collate: (Scope, Scope) -> bool, x: Scope, list: seq<Scope>)
    requires Collation(collate) && Ordered(reg, collate, list)
    ensures Ordered(reg, collate, Insert(reg, collate, x, list))
  {
    if list == [] {
    } else if Before(reg, collate, list[0], x) && !Before(reg, collate, x, list[0]) {
      var rest := Insert(reg, collate, x, list[1..]);
      InsertOrders(reg, collate, x, list[1..]);
      forall k | 0 <= k < |rest| ensures Before(reg, collate, list[0], rest[k]) {
        InsertMembers(reg, collate, x, list[1..], k);
      }
    } else {
      BeforeTotal(reg, collate, x, list[0], x);
      forall k | 0 <= k < |list| ensures Before(reg, collate, x, list[k]) {
        BeforeTotal(reg, collate, x, list[0], list[k]);
      }
    }
  }

  lemma {:induction false} InsertAllSorts(reg: Registry, collate: (Scope, Scope) -> bool, list: seq<Scope>)
    requires Collation(collate)
    ensures Ordered(reg, collate, InsertAll(reg, collate, list))
    ensures multiset(InsertAll(reg, collate, list)) == multiset(list)
  {
    if list != [] {
      InsertAllSorts(reg, collate, list[1..]);
      InsertOrders(reg, collate, list[0], InsertAll(reg, collate, list[1..]));
      InsertCounts(reg, collate, list[0], InsertAll(reg, collate, list[1..]));
      assert list == [list[0]] + list[1..];
    }
  }

  lemma DistinctByCount(list: seq<Scope>)
    ensures Distinct(list) <==> forall m :: m in multiset(list) ==> multiset(list)[m] == 1
  {
    if Distinct(list) { CountOnce(list); } else { CountTwice(list); }
  }

  lemma {:induction false} CountOnce(list: seq<Scope>)
    requires Distinct(list)
    ensures forall m :: m in multiset(list) ==> multiset(list)[m] == 1
  {
    if list != [] {
      CountOnce(list[1..]);
      assert list == [list[0]] + list[1..];
    }
  }

  lemma CountTwice(list: seq<Scope>)
    requires !Distinct(list)
    ensures exists m :: m in multiset(list) && multiset(list)[m] != 1
  {
    var i, j :| 0 <= i < j < |list| && list[i] == list[j];
    assert list == list[..i] + [list[i]] + list[i + 1..j] + [list[j]] + list[j + 1..];
    assert multiset(list)[list[i]] >= 2;
  }

  /** Sorting keeps the members, drops repetitions and puts the rest in order. */
  lemma SortSorts(reg: Registry, collate: (Scope, Scope) -> bool, list: seq<Scope>)
    requires Collation(collate)
    ensures var r := Sort(reg, collate, list);
      Ordered(reg, collate, r) && Distinct(r) && forall m :: m in r <==> m in list
  {
    var r := Sort(reg, collate, list);
    DedupDistinct(list);
    InsertAllSorts(reg, collate, Dedup(list));
    DistinctByCount(Dedup(list));
    DistinctByCount(r);
    forall m ensures m in r <==> m in Dedup(list) {
      assert m in r <==> m in multiset(r);
      assert m in Dedup(list) <==> m in multiset(Dedup(list));
    }
  }

  lemma FirstIsLeast(reg: Registry, collate: (Scope, Scope) -> bool, list: seq<Scope>, x: Scope)
    requires Ordered(reg, collate, list) && x in list
    ensures x == list[0] || Before(reg, collate, list[0], x)
  {
  }

  lemma SameEmptiness(a: seq<Scope>, b: seq<Scope>)
    requires forall m :: m in a <==> m in b
    ensures a == [] <==> b == []
  {
    if a != [] { assert a[0] in b; }
    if b != [] { assert b[0] in a; }
  }

  /** Registered scopes come in the registry's order, and before all others, which are collated. */
  lemma SortPlaces(reg: Registry, collate: (Scope, Scope) -> bool, x: seq<Scope>, p: nat, q: nat)
    requires Collation(collate) && p < q < |Sort(reg, collate, x)|
    ensures var a, b := Sort(reg, collate, x)[p], Sort(reg, collate, x)[q];
      && (Has(reg, b) ==> exists i, j :: 0 <= i <= j < |reg| && reg[i].name == a && reg[j].name == b)
      && (!Has(reg, a) ==> !Has(reg, b) && collate(a, b))
  {
    SortSorts(reg, collate, x);
    var a, b := Sort(reg, collate, x)[p], Sort(reg, collate, x)[q];
    assert Before(reg, collate, a, b);
    if Has(reg, b) { assert 0 <= Place(reg, a) <= Place(reg, b) < |reg|; }
  }

  /** At most one arrangement of distinct, separated members is in order: the canonical form
      does not depend on the sorting algorithm. */
  lemma {:induction false} OrderedUnique(reg: Registry, collate: (Scope, Scope) -> bool, a: seq<Scope>, b: seq<Scope>)
    requires Distinct(a) && Distinct(b) && Ordered(reg, collate, a) && Ordered(reg, collate, b)
    requires Separates(reg, collate, a) && forall m :: m in a <==> m in b
    ensures a == b
  {
    SameEmptiness(a, b);
    if a != [] {
      assert a[0] in b && b[0] in a;
      FirstIsLeast(reg, collate, a, b[0]);
      FirstIsLeast(reg, collate, b, a[0]);
      forall m ensures m in a[1..] <==> m in b[1..] {
        assert m in a <==> m == a[0] || m in a[1..];
        assert m in b <==> m == b[0] || m in b[1..];
      }
      OrderedUnique(reg, collate, a[1..], b[1..]);
      assert a == [a[0]] + a[1..] && b == [b[0]] + b[1..];
    }
  }

  /** Two lists have the same canonical form exactly when they have the same members. */
  lemma SortCanonical(reg: Registry, collate: (Scope, Scope) -> bool, x: seq<Scope>, y: seq<Scope>)
    requires Collation(collate) && Separates(reg, collate, x)
    ensures Sort(reg, collate, x) == Sort(reg, collate, y) <==> forall m :: m in x <==> m in y
  {
    var a, b := Sort(reg, collate, x), Sort(reg, collate, y);
    SortSorts(reg, collate, x);
    SortSorts(reg, collate, y);
    if forall m :: m in x <==> m in y {
      OrderedUnique(reg, collate, a, b);
    }
    if a == b {
      forall m ensures m in x <==> m in y { assert m in a <==> m in x; assert m in b <==> m in y; }
    }
  }

  lemma SortIdempotent(reg: Registry, collate: (Scope, Scope) -> bool, x: seq<Scope>)
    requires Collation(collate) && Separates(reg, collate, x)
    ensures Sort(reg, collate, Sort(reg, collate, x)) == Sort(reg, collate, x)
  {
    SortSorts(reg, collate, x);
    SortCanonical(reg, collate, x, Sort(reg, collate, x));
  }

  /** The characters RFC 6749 appendix A.4 allows in a scope token. */
  predicate LegalToken(scope: Scope) {
    scope != "" && forall c :: c in scope ==> c == '!' || '#' <= c <= '[' || ']' <= c <= '~'
  }

  lemma LegalIsTrimmed(scope: Scope)
    requires LegalToken(scope)
    ensures scope != "" && Trimmed(scope) && ' ' !in scope
  {
    assert scope[0] in scope && scope[|scope| - 1] in scope;
  }

  /** The canonical form survives the text column it is stored in. */
  lemma SortedSurvivesStorage(reg: Registry, collate: (Scope, Scope) -> bool, x: seq<Scope>)
    requires Collation(collate) && forall s :: s in x ==> LegalToken(s)
    ensures var sorted := Sort(reg, collate, x);
      EncodeScopes(sorted).Some? && DecodeScopes(EncodeScopes(sorted).value) == sorted
  {
    var sorted := Sort(reg, collate, x);
    SortSorts(reg, collate, x);
    forall m | m in sorted ensures m != "" && Trimmed(m) && ' ' !in m {
      LegalIsTrimmed(m);
    }
    StorageKeeps(sorted, ' ');
  }

  // --- Parsing -------------------------------------------------------------

  const MAX_SCOPE_LENGTH := 1024

  datatype Parsed = Refused | Parsed(requested: seq<Scope>, granted: seq<Scope>, unknown: seq<Scope>)

  function Filter(reg: Registry, list: seq<Scope>, known: bool): seq<Scope> {
    if list == [] then []
    else (if Has(reg, list[0]) == known then [list[0]] else []) + Filter(reg, list[1..], known)
  }

  function Parse(reg: Registry, collate: (Scope, Scope) -> bool, text: string, strict: bool): Parsed {
    if |text| > MAX_SCOPE_LENGTH then Refused
    else
      var requested := DecodeScopes(text);
      if exists s :: s in requested && !LegalToken(s) then Refused
      else
        var unknown := Filter(reg, requested, false);
        if strict && unknown != [] then Refused
        else Parsed(requested, Sort(reg, collate, Filter(reg, requested, true)), unknown)
  }

  lemma {:induction false} FilterMembers(reg: Registry, list: seq<Scope>, known: bool)
    ensures forall s :: s in Filter(reg, list, known) <==> s in list && Has(reg, s) == known
  {
    if list != [] {
      FilterMembers(reg, list[1..], known);
      assert list == [list[0]] + list[1..];
    }
  }

  /** Parsing refuses a text over the limit, an illegal token and, if strict, an unregistered
      scope; and nothing else. */
  lemma ParseRefuses(reg: Registry, collate: (Scope, Scope) -> bool, text: string, strict: bool)
    ensures Parse(reg, collate, text, strict) == Refused <==>
      || |text| > 1024
      || (exists s :: s in DecodeScopes(text) && !LegalToken(s))
      || (strict && exists s :: s in DecodeScopes(text) && !Has(reg, s))
  {
    FilterMembers(reg, DecodeScopes(text), false);
    var unknown := Filter(reg, DecodeScopes(text), false);
    if unknown != [] { assert unknown[0] in unknown; }
  }

  /** Parsing grants the registered scopes of the request, in canonical form, and nothing else;
      strict parsing refuses a request that names another. */
  lemma ParseGrants(reg: Registry, collate: (Scope, Scope) -> bool, text: string, strict: bool)
    requires Collation(collate) && Parse(reg, collate, text, strict).Parsed?
    ensures var p := Parse(reg, collate, text, strict);
      && Distinct(p.granted) && Ordered(reg, collate, p.granted)
      && (forall s :: s in p.granted <==> s in DecodeScopes(text) && Has(reg, s))
      && (strict ==> forall s :: s in DecodeScopes(text) ==> s in p.granted)
  {
    var requested := DecodeScopes(text);
    FilterMembers(reg, requested, true);
    FilterMembers(reg, requested, false);
    SortSorts(reg, collate, Filter(reg, requested, true));
  }

  /** A canonical list of registered scopes parses back to itself from its own text, as long as
      the text is not over the limit. */
  lemma ParseEncoded(reg: Registry, collate: (Scope, Scope) -> bool, x: seq<Scope>)
    requires Collation(collate) && forall s :: s in x ==> LegalToken(s) && Has(reg, s)
    ensures var sorted := Sort(reg, collate, x);
      && EncodeScopes(sorted).Some?
      && (|EncodeScopes(sorted).value| <= MAX_SCOPE_LENGTH ==>
            Parse(reg, collate, EncodeScopes(sorted).value, true) == Parsed(sorted, sorted, []))
  {
    var sorted := Sort(reg, collate, x);
    SortSorts(reg, collate, x);
    SortedSurvivesStorage(reg, collate, x);
    FilterMembers(reg, sorted, true);
    FilterMembers(reg, sorted, false);
    RegisteredSeparate(reg, collate, x);
    SortCanonical(reg, collate, x, Filter(reg, sorted, true));
    SameEmptiness(Filter(reg, sorted, false), []);
  }

  // --- Coverage ------------------------------------------------------------

  function Beyond(granted: seq<Scope>, candidate: seq<Scope>): seq<Scope> {
    if candidate == [] then []
    else (if candidate[0] in granted then [] else [candidate[0]]) + Beyond(granted, candidate[1..])
  }

  predicate Covers(granted: seq<Scope>, requested: seq<Scope>) {
    forall i :: 0 <= i < |requested| ==> requested[i] in granted
  }

  lemma {:induction false} BeyondMembers(granted: seq<Scope>, candidate: seq<Scope>)
    ensures forall m :: m in Beyond(granted, candidate) <==> m in candidate && m !in granted
  {
    if candidate != [] {
      BeyondMembers(granted, candidate[1..]);
      assert candidate == [candidate[0]] + candidate[1..];
    }
  }

  function Members(list: seq<Scope>): set<Scope> { set s | s in list }

  /** A grant covers a request exactly when nothing is beyond it, which is inclusion of sets. */
  lemma CoversIffNothingBeyond(granted: seq<Scope>, requested: seq<Scope>)
    ensures Covers(granted, requested) <==> Beyond(granted, requested) == []
    ensures Covers(granted, requested) <==> Members(requested) <= Members(granted)
  {
    BeyondMembers(granted, requested);
    if Beyond(granted, requested) == [] {
      forall i | 0 <= i < |requested| ensures requested[i] in granted {
        assert requested[i] !in Beyond(granted, requested);
      }
    } else {
      assert Beyond(granted, requested)[0] in Beyond(granted, requested);
    }
    if Members(requested) <= Members(granted) {
      forall i | 0 <= i < |requested| ensures requested[i] in granted { assert requested[i] in Members(requested); }
    }
  }

  // --- What an account may authorize ---------------------------------------

  datatype Permission = Permitted | NotPermitted(scope: Scope) | RuleThrew(scope: Scope)

  /** The scope's rule does not stand in the way; a scope without a definition has no rule. */
  predicate Passes(reg: Registry, verdict: Scope -> Verdict, scope: Scope) {
    Place(reg, scope) < |reg| && reg[Place(reg, scope)].restricted ==> verdict(scope).Allows?
  }

  predicate FirstRefused(reg: Registry, verdict: Scope -> Verdict, requested: seq<Scope>, i: nat)
    requires i < |requested|
  {
    !Passes(reg, verdict, requested[i]) && forall j :: 0 <= j < i ==> Passes(reg, verdict, requested[j])
  }

  method AssertAllowedForUser(reg: Registry, verdict: Scope -> Verdict, requested: seq<Scope>) returns (r: Permission)
    ensures r.Permitted? <==> forall i :: 0 <= i < |requested| ==> Passes(reg, verdict, requested[i])
    ensures !r.Permitted? ==>
      (exists i :: 0 <= i < |requested| && FirstRefused(reg, verdict, requested, i) && requested[i] == r.scope)
    ensures !r.Permitted? ==> (r.RuleThrew? <==> verdict(r.scope).Throws?)
  {
    for i := 0 to |requested|
      invariant forall j :: 0 <= j < i ==> Passes(reg, verdict, requested[j])
    {
      var place := Place(reg, requested[i]);
      if place < |reg| && reg[place].restricted {
        match verdict(requested[i]) {
          case Allows =>
          case Denies =>
            assert FirstRefused(reg, verdict, requested, i);
            return NotPermitted(requested[i]);
          case Throws =>
            assert FirstRefused(reg, verdict, requested, i);
            return RuleThrew(requested[i]);
        }
      }
    }
    return Permitted;
  }

  // --- Live authority ------------------------------------------------------

  datatype Authority = Authority(canRemainActive: bool, claims: map<string, bool>)

  /** The token was granted the scope and the account still satisfies its rule. */
  predicate Holds(d: Definition, verdict: Scope -> Verdict, granted: seq<Scope>) {
    d.name in granted && (d.restricted ==> verdict(d.name).Allows?)
  }

  /** A granted scope whose rule stopped passing and which reports no boolean about it. */
  predicate FailsClosed(d: Definition, verdict: Scope -> Verdict, granted: seq<Scope>) {
    d.name in granted && d.restricted && !verdict(d.name).Allows? && d.claim.None?
  }

  ghost predicate AuthorityOf(reg: Registry, verdict: Scope -> Verdict, granted: seq<Scope>, r: Authority) {
    && (r.canRemainActive <==> forall i :: 0 <= i < |reg| ==> !FailsClosed(reg[i], verdict, granted))
    && (forall i :: 0 <= i < |reg| && reg[i].claim.Some? ==> reg[i].claim.value in r.claims)
    && (forall i :: 0 <= i < |reg| && reg[i].claim.Some? && reg[i].claim.value in r.claims ==>
          (r.claims[reg[i].claim.value] <==> Holds(reg[i], verdict, granted)))
    && (forall c :: c in r.claims ==> exists i :: 0 <= i < |reg| && reg[i].claim == Some(c))
  }

  lemma AuthorityGrows(reg: Registry, n: nat, verdict: Scope -> Verdict, granted: seq<Scope>, r: Authority)
    requires WellFormed(reg) && n < |reg| && AuthorityOf(reg[..n], verdict, granted, r)
    ensures var d := reg[n];
      AuthorityOf(reg[..n + 1], verdict, granted,
                  Authority(r.canRemainActive && !FailsClosed(d, verdict, granted),
                            if d.claim.Some? then r.claims[d.claim.value := Holds(d, verdict, granted)] else r.claims))
  {
    var before, after, d := reg[..n], reg[..n + 1], reg[n];
    assert after == before + [d];
    var claims := if d.claim.Some? then r.claims[d.claim.value := Holds(d, verdict, granted)] else r.claims;
    forall c | c in claims ensures exists i :: 0 <= i < |after| && after[i].claim == Some(c) {
      if c in r.claims {
        var i :| 0 <= i < |before| && before[i].claim == Some(c);
        assert after[i].claim == Some(c);
      } else {
        assert after[n].claim == Some(c);
      }
    }
  }

  /** Computes the booleans introspection reports. A rule that throws counts as denied. */
  method IntrospectionAuthorityFor(reg: Registry, verdict: Scope -> Verdict, granted: seq<Scope>) returns (r: Authority)
    requires WellFormed(reg)
    ensures AuthorityOf(reg, verdict, granted, r)
  {
    var claims: map<string, bool> := map[];
    var canRemainActive := true;
    for n := 0 to |reg|
      invariant AuthorityOf(reg[..n], verdict, granted, Authority(canRemainActive, claims))
    {
      AuthorityGrows(reg, n, verdict, granted, Authority(canRemainActive, claims));
      var d := reg[n];
      var wasGranted := d.name in granted;
      var allowed := wasGranted;
      if wasGranted && d.restricted {
        allowed := verdict(d.name).Allows?;
      }
      if wasGranted && d.restricted && !allowed && d.claim.None? {
        canRemainActive := false;
      }
      if d.claim.Some? {
        claims := claims[d.claim.value := allowed];
      }
    }
    assert reg[..|reg|] == reg;
    return Authority(canRemainActive, claims);
  }

  /** The authority of a token is determined by its scopes and the account. */
  lemma AuthorityUnique(reg: Registry, verdict: Scope -> Verdict, granted: seq<Scope>, a: Authority, b: Authority)
    requires AuthorityOf(reg, verdict, granted, a) && AuthorityOf(reg, verdict, granted, b)
    ensures a == b
  {
    forall c ensures c in a.claims <==> c in b.claims {
      if c in a.claims { var i :| 0 <= i < |reg| && reg[i].claim == Some(c); }
      if c in b.claims { var i :| 0 <= i < |reg| && reg[i].claim == Some(c); }
    }
    forall c | c in a.claims ensures a.claims[c] == b.claims[c] {
      var i :| 0 <= i < |reg| && reg[i].claim == Some(c);
    }
    assert a.claims == b.claims;
  }
}
