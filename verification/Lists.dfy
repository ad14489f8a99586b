/** Lists of scopes and URIs as delimited text columns. */
module Lists {
  import opened Prelude

  /** What `String.prototype.trim` removes. */
  const WHITESPACE := {
    '\t', '\n', '\U{000B}', '\U{000C}', '\r', ' ', '\U{00A0}', '\U{1680}', '\U{2000}', '\U{2001}', '\U{2002}',
    '\U{2003}', '\U{2004}', '\U{2005}', '\U{2006}', '\U{2007}', '\U{2008}', '\U{2009}', '\U{200A}', '\U{2028}',
    '\U{2029}', '\U{202F}', '\U{205F}', '\U{3000}', '\U{FEFF}'
  }

  predicate IsSpace(c: char) { c in WHITESPACE }

  function TrimStart(s: string): string {
    if s != "" && IsSpace(s[0]) then TrimStart(s[1..]) else s
  }

  function TrimEnd(s: string): string {
    if s != "" && IsSpace(s[|s| - 1]) then TrimEnd(s[..|s| - 1]) else s
  }

  function Trim(s: string): string { TrimEnd(TrimStart(s)) }

  predicate Trimmed(s: string) { s != "" ==> !IsSpace(s[0]) && !IsSpace(s[|s| - 1]) }

  function Split(s: string, d: char): (parts: seq<string>)
    ensures |parts| > 0
  {
    if s == "" then [""]
    else
      var rest := Split(s[1..], d);
      if s[0] == d then [""] + rest else [[s[0]] + rest[0]] + rest[1..]
  }

  function Join(parts: seq<string>, d: char): string {
    if |parts| == 0 then ""
    else if |parts| == 1 then parts[0]
    else parts[0] + [d] + Join(parts[1..], d)
  }

  /** `.map(trim).filter(Boolean)` */
  function Cleaned(list: seq<string>): seq<string> {
    if list == [] then []
    else if Trim(list[0]) == "" then Cleaned(list[1..])
    else [Trim(list[0])] + Cleaned(list[1..])
  }

  /** `[...new Set(list)]`: each member where it first occurred. */
  function Dedup(list: seq<string>): seq<string> {
    if list == [] then []
    else
      var last := list[|list| - 1];
      var before := Dedup(list[..|list| - 1]);
      if last in before then before else before + [last]
  }

  predicate Distinct(list: seq<string>) {
    forall i, j :: 0 <= i < j < |list| ==> list[i] != list[j]
  }

  /** None when a member contains the delimiter, which the source throws on. */
  function Encode(list: seq<string>, d: char): Option<string> {
    var members := Dedup(Cleaned(list));
    if forall m :: m in members ==> d !in m then Some(Join(members, d)) else None
  }

  function Decode(text: string, d: char): seq<string> { Cleaned(Split(text, d)) }

  function EncodeScopes(scopes: seq<string>): Option<string> { Encode(scopes, ' ') }

  function DecodeScopes(text: string): seq<string> { Decode(text, ' ') }

  // --- Trimming ------------------------------------------------------------

  lemma {:induction false} TrimStartStops(s: string)
    ensures TrimStart(s) != "" ==> !IsSpace(TrimStart(s)[0])
    ensures forall c :: c in TrimStart(s) ==> c in s
  {
    if s != "" && IsSpace(s[0]) { TrimStartStops(s[1..]); }
  }

  lemma {:induction false} TrimEndStops(s: string)
    ensures TrimEnd(s) != "" ==> !IsSpace(TrimEnd(s)[|TrimEnd(s)| - 1]) && TrimEnd(s)[0] == s[0]
    ensures forall c :: c in TrimEnd(s) ==> c in s
    ensures TrimEnd(s) <= s
  {
    if s != "" && IsSpace(s[|s| - 1]) { TrimEndStops(s[..|s| - 1]); }
  }

  lemma TrimTrims(s: string)
    ensures Trimmed(Trim(s))
    ensures forall c :: c in Trim(s) ==> c in s
  {
    TrimStartStops(s);
    TrimEndStops(TrimStart(s));
  }

  lemma TrimKeeps(s: string)
    requires Trimmed(s)
    ensures Trim(s) == s
  {
  }

  // --- Cleaning and deduplicating ------------------------------------------

  predicate Clean(list: seq<string>) {
    forall m :: m in list ==> m != "" && Trimmed(m)
  }

  lemma {:induction false} CleanedIsClean(list: seq<string>)
    ensures Clean(Cleaned(list))
    ensures forall m :: m in Cleaned(list) <==> m != "" && exists x :: x in list && m == Trim(x)
  {
    if list != [] {
      CleanedIsClean(list[1..]);
      TrimTrims(list[0]);
      assert list == [list[0]] + list[1..];
    }
  }

  lemma {:induction false} CleanedKeeps(list: seq<string>)
    requires Clean(list)
    ensures Cleaned(list) == list
  {
    if list != [] {
      assert list[0] in list;
      TrimKeeps(list[0]);
      CleanedKeeps(list[1..]);
    }
  }

  lemma {:induction false} DedupDistinct(list: seq<string>)
    ensures Distinct(Dedup(list))
    ensures forall m :: m in Dedup(list) <==> m in list
  {
    if list != [] {
      DedupDistinct(list[..|list| - 1]);
      assert list == list[..|list| - 1] + [list[|list| - 1]];
    }
  }

  lemma {:induction false} DedupKeeps(list: seq<string>)
    requires Distinct(list)
    ensures Dedup(list) == list
  {
    if list != [] {
      var before := list[..|list| - 1];
      DedupKeeps(before);
      assert list == before + [list[|list| - 1]];
    }
  }

  // --- Splitting and joining -----------------------------------------------

  lemma {:induction false} SplitWhole(p: string, d: char)
    requires d !in p
    ensures Split(p, d) == [p]
  {
    if p != "" {
      SplitWhole(p[1..], d);
      assert p[0] != d && p == [p[0]] + p[1..];
    }
  }

  lemma {:induction false} SplitFirst(p: string, rest: string, d: char)
    requires d !in p
    ensures Split(p + [d] + rest, d) == [p] + Split(rest, d)
  {
    var s := p + [d] + rest;
    if p == "" {
      assert s[1..] == rest;
    } else {
      SplitFirst(p[1..], rest, d);
      assert p[0] != d && p == [p[0]] + p[1..];
      assert s[0] == p[0] && s[1..] == p[1..] + [d] + rest;
    }
  }

  lemma {:induction false} SplitJoin(parts: seq<string>, d: char)
    requires parts != [] && forall p :: p in parts ==> d !in p
    ensures Split(Join(parts, d), d) == parts
  {
    if |parts| == 1 {
      SplitWhole(parts[0], d);
    } else {
      SplitFirst(parts[0], Join(parts[1..], d), d);
      SplitJoin(parts[1..], d);
    }
  }

  // --- Round trips ---------------------------------------------------------

  /** Encoding fails only on a member that contains the delimiter, and otherwise decoding gives
      back the list, trimmed, without empty members and without repetitions. */
  lemma DecodeEncode(list: seq<string>, d: char)
    ensures Encode(list, d).None? <==> exists m :: m in Cleaned(list) && d in m
    ensures Encode(list, d).Some? ==> Decode(Encode(list, d).value, d) == Dedup(Cleaned(list))
  {
    var members := Dedup(Cleaned(list));
    CleanedIsClean(list);
    DedupDistinct(Cleaned(list));
    if Encode(list, d).Some? {
      if members == [] {
        assert Split("", d) == [""];
        assert Cleaned([""]) == [];
      } else {
        SplitJoin(members, d);
        CleanedKeeps(members);
      }
    }
  }

  /** A list that is clean already survives storage unchanged. */
  lemma StorageKeeps(list: seq<string>, d: char)
    requires Clean(list) && Distinct(list) && forall m :: m in list ==> d !in m
    ensures Encode(list, d).Some? && Decode(Encode(list, d).value, d) == list
  {
    CleanedKeeps(list);
    DedupKeeps(list);
    DecodeEncode(list, d);
  }

  lemma {:induction false} SplitParts(s: string, d: char)
    ensures forall p :: p in Split(s, d) ==> d !in p
  {
    if s != "" { SplitParts(s[1..], d); }
  }

  /** Whatever text a column holds, writing back what was read loses only repetitions. */
  lemma EncodeDecode(text: string, d: char)
    ensures Encode(Decode(text, d), d).Some?
    ensures Decode(Encode(Decode(text, d), d).value, d) == Dedup(Decode(text, d))
  {
    SplitParts(text, d);
    CleanedIsClean(Split(text, d));
    forall m | m in Decode(text, d) ensures d !in m {
      var x :| x in Split(text, d) && m == Trim(x);
      TrimTrims(x);
    }
    CleanedKeeps(Decode(text, d));
    DecodeEncode(Decode(text, d), d);
  }
}
