/** The fixed-window rate counter and the middleware that hits it twice per request. */
module RateLimit {
  import opened Prelude

  const SWEEP_AT := 10_000

  datatype Window = Window(count: nat, resetAt: Time)

  datatype Answer = Answer(allowed: bool, remaining: nat, retryAfterSeconds: nat)

  function CeilSeconds(ms: nat): (s: nat)
    ensures 1000 * s - 1000 < ms <= 1000 * s
  {
    (ms + 999) / 1000
  }

  function Max(a: int, b: int): int { if a < b then b else a }

  // --- One key -------------------------------------------------------------

  /** The window a hit at `at` is counted in. */
  function Counted(entry: Option<Window>, windowMs: nat, at: Time): Window {
    if entry.None? || entry.value.resetAt <= at then Window(1, at + windowMs)
    else Window(entry.value.count + 1, entry.value.resetAt)
  }

  function AnswerFor(entry: Option<Window>, windowMs: nat, limit: nat, at: Time): Answer
    requires limit > 0
  {
    if entry.None? || entry.value.resetAt <= at then Answer(true, limit - 1, CeilSeconds(windowMs))
    else
      var count := entry.value.count + 1;
      Answer(count <= limit, Max(0, limit - count), Max(1, CeilSeconds(entry.value.resetAt - at)))
  }

  predicate Sorted(times: seq<Time>) { forall i, j :: 0 <= i < j < |times| ==> times[i] <= times[j] }

  /** The hits on one key, allowed and counted in the window that resets at `reset`. */
  function AllowedInWindow(entry: Option<Window>, windowMs: nat, limit: nat, times: seq<Time>, reset: Time): nat
    requires limit > 0
    decreases |times|
  {
    if times == [] then 0
    else
      var next := Counted(entry, windowMs, times[0]);
      (if AnswerFor(entry, windowMs, limit, times[0]).allowed && next.resetAt == reset then 1 else 0)
      + AllowedInWindow(Some(next), windowMs, limit, times[1..], reset)
  }

  /** The hits on one key, allowed at a time from `a` up to but not including `b`. */
  function AllowedBetween(entry: Option<Window>, windowMs: nat, limit: nat, times: seq<Time>, a: Time, b: Time): nat
    requires limit > 0
    decreases |times|
  {
    if times == [] then 0
    else
      (if AnswerFor(entry, windowMs, limit, times[0]).allowed && a <= times[0] < b then 1 else 0)
      + AllowedBetween(Some(Counted(entry, windowMs, times[0])), windowMs, limit, times[1..], a, b)
  }

  /** What a window that resets at `reset` can still allow. */
  function WindowBudget(entry: Option<Window>, limit: nat, reset: Time): int {
    if entry.None? || entry.value.resetAt < reset then limit
    else if entry.value.resetAt == reset then Max(0, limit - entry.value.count)
    else 0
  }

  lemma {:induction false} WindowBound(entry: Option<Window>, windowMs: nat, limit: nat, times: seq<Time>, reset: Time)
    requires limit > 0 && windowMs > 0
    ensures AllowedInWindow(entry, windowMs, limit, times, reset) <= WindowBudget(entry, limit, reset)
    decreases |times|
  {
    if times != [] {
      WindowBound(Some(Counted(entry, windowMs, times[0])), windowMs, limit, times[1..], reset);
    }
  }

  /** In each window a key is allowed at most `limit` hits. */
  lemma AtMostLimitPerWindow(windowMs: nat, limit: nat, times: seq<Time>, reset: Time)
    requires limit > 0 && windowMs > 0
    ensures AllowedInWindow(None, windowMs, limit, times, reset) <= limit
  {
    WindowBound(None, windowMs, limit, times, reset);
  }

  /** What `[a, a + windowMs)` can still allow once it has begun: the rest of the current
      window, and a whole one after it when the current one began before `a`. */
  function IntervalBudget(entry: Option<Window>, windowMs: nat, limit: nat, a: Time): int {
    if entry.None? then limit
    else Max(0, limit - entry.value.count) + if entry.value.resetAt < a + windowMs then limit else 0
  }

  lemma {:induction false} AfterInterval(entry: Option<Window>, windowMs: nat, limit: nat, times: seq<Time>, a: Time,
                                         b: Time)
    requires limit > 0 && forall i :: 0 <= i < |times| ==> b <= times[i]
    ensures AllowedBetween(entry, windowMs, limit, times, a, b) == 0
    decreases |times|
  {
    if times != [] {
      AfterInterval(Some(Counted(entry, windowMs, times[0])), windowMs, limit, times[1..], a, b);
    }
  }

  lemma {:induction false} InsideInterval(entry: Option<Window>, windowMs: nat, limit: nat, times: seq<Time>, a: Time)
    requires limit > 0 && windowMs > 0 && Sorted(times) && forall i :: 0 <= i < |times| ==> a <= times[i]
    ensures AllowedBetween(entry, windowMs, limit, times, a, a + windowMs) <= IntervalBudget(entry, windowMs, limit, a)
    decreases |times|
  {
    if times != [] {
      var next := Some(Counted(entry, windowMs, times[0]));
      if times[0] < a + windowMs {
        InsideInterval(next, windowMs, limit, times[1..], a);
      } else {
        AfterInterval(entry, windowMs, limit, times, a, a + windowMs);
      }
    }
  }

  lemma {:induction false} BeforeInterval(entry: Option<Window>, windowMs: nat, limit: nat, times: seq<Time>, a: Time)
    requires limit > 0 && windowMs > 0 && Sorted(times)
    requires entry.Some? ==> entry.value.count > 0 && entry.value.resetAt < a + windowMs
    ensures AllowedBetween(entry, windowMs, limit, times, a, a + windowMs) <= 2 * limit - 1
    decreases |times|
  {
    if times == [] {
    } else if times[0] < a {
      BeforeInterval(Some(Counted(entry, windowMs, times[0])), windowMs, limit, times[1..], a);
    } else {
      InsideInterval(entry, windowMs, limit, times, a);
    }
  }

  /** In any half-open interval as long as a window, wherever the window boundaries fall, fewer
      than twice the limit: a window that reaches into the interval was opened by a hit before it. */
  lemma AtMostTwiceLimit(windowMs: nat, limit: nat, times: seq<Time>, a: Time)
    requires limit > 0 && windowMs > 0 && Sorted(times)
    ensures AllowedBetween(None, windowMs, limit, times, a, a + windowMs) <= 2 * limit - 1
  {
    BeforeInterval(None, windowMs, limit, times, a);
  }

  function Burst(n: nat, at: Time): seq<Time> { if n == 0 then [] else [at] + Burst(n - 1, at) }

  /** A burst that fits into its window is allowed. */
  lemma {:induction false} BurstAllowed(count: nat, reset: Time, windowMs: nat, limit: nat, n: nat, at: Time,
                                        rest: seq<Time>, a: Time, b: Time)
    requires limit > 0 && count + n <= limit && a <= at < b && at < reset
    ensures AllowedBetween(Some(Window(count, reset)), windowMs, limit, Burst(n, at) + rest, a, b) ==
            n + AllowedBetween(Some(Window(count + n, reset)), windowMs, limit, rest, a, b)
    decreases n
  {
    if n == 0 {
      assert Burst(0, at) + rest == rest;
    } else {
      assert (Burst(n, at) + rest)[0] == at && (Burst(n, at) + rest)[1..] == Burst(n - 1, at) + rest;
      BurstAllowed(count + 1, reset, windowMs, limit, n - 1, at, rest, a, b);
    }
  }

  lemma {:induction false} BurstTimes(n: nat, at: Time)
    ensures |Burst(n, at)| == n && forall i :: 0 <= i < n ==> Burst(n, at)[i] == at
  {
    if n > 0 { BurstTimes(n - 1, at); }
  }

  /** One hit opens a window; all but one of the limit come in its last millisecond, and the
      whole limit when the next window opens. */
  lemma TwoBursts(windowMs: nat, limit: nat) returns (times: seq<Time>)
    requires limit > 0 && windowMs > 1
    ensures Sorted(times)
    ensures AllowedBetween(None, windowMs, limit, times, windowMs - 1, 2 * windowMs - 1) == 2 * limit - 1
  {
    var late, next := Burst(limit - 1, windowMs - 1), Burst(limit - 1, windowMs);
    times := [0] + (late + ([windowMs] + next));
    BurstTimes(limit - 1, windowMs - 1);
    BurstTimes(limit - 1, windowMs);
    TwoBurstsAllowed(windowMs, limit);
  }

  lemma TwoBurstsAllowed(windowMs: nat, limit: nat)
    requires limit > 0 && windowMs > 1
    ensures var times := [0] + (Burst(limit - 1, windowMs - 1) + ([windowMs] + Burst(limit - 1, windowMs)));
      AllowedBetween(None, windowMs, limit, times, windowMs - 1, 2 * windowMs - 1) == 2 * limit - 1
  {
    var a, b := windowMs - 1, 2 * windowMs - 1;
    var late, next := Burst(limit - 1, windowMs - 1), Burst(limit - 1, windowMs);
    var rest := [windowMs] + next;
    assert ([0] + (late + rest))[1..] == late + rest && rest[1..] == next && next + [] == next;
    BurstAllowed(1, windowMs, windowMs, limit, limit - 1, windowMs - 1, rest, a, b);
    BurstAllowed(1, 2 * windowMs, windowMs, limit, limit - 1, windowMs, [], a, b);
  }

  /** A window of one millisecond is over before the next one. */
  lemma {:induction false} ShortWindow(entry: Option<Window>, limit: nat, times: seq<Time>, a: Time)
    requires limit > 0 && Sorted(times) && (entry.Some? ==> entry.value.resetAt <= a)
    ensures AllowedBetween(entry, 1, limit, times, a, a + 1) <= limit
    decreases |times|
  {
    if times == [] {
    } else if times[0] < a {
      ShortWindow(Some(Counted(entry, 1, times[0])), limit, times[1..], a);
    } else if times[0] == a {
      InsideInterval(Some(Counted(entry, 1, a)), 1, limit, times[1..], a);
    } else {
      AfterInterval(entry, 1, limit, times, a, a + 1);
    }
  }

  /** The hits have one short of twice the limit allowed within a window's length from `a`. */
  predicate Attains(windowMs: nat, limit: nat, times: seq<Time>, a: Time)
    requires limit > 0
  {
    Sorted(times) && AllowedBetween(None, windowMs, limit, times, a, a + windowMs) == 2 * limit - 1
  }

  /** Some hits attain the bound for every limit and window, except that windows of a single
      millisecond do not add up. */
  lemma TwiceLimitIsTight(windowMs: nat, limit: nat)
    requires limit > 0 && windowMs > 0
    ensures (exists times, a :: Attains(windowMs, limit, times, a)) <==> windowMs > 1 || limit == 1
  {
    if windowMs > 1 {
      var times := TwoBursts(windowMs, limit);
      assert Attains(windowMs, limit, times, windowMs - 1);
    } else {
      forall times, a | Attains(1, limit, times, a) ensures limit == 1 {
        ShortWindow(None, limit, times, a);
      }
      if limit == 1 {
        assert [0][1..] == [];
        assert Attains(1, 1, [0], 0);
      }
    }
  }

  /** An answer's `remaining` is how many more hits its window allows. */
  lemma {:induction false} RemainingIsExact(entry: Option<Window>, windowMs: nat, limit: nat, at: Time, n: nat,
                                            later: Time)
    requires limit > 0 && windowMs > 0 && at <= later < Counted(entry, windowMs, at).resetAt
    ensures var next, remaining := Some(Counted(entry, windowMs, at)), AnswerFor(entry, windowMs, limit, at).remaining;
      AllowedBetween(next, windowMs, limit, Burst(n, later), later, later + 1) == if n < remaining then n else remaining
    decreases n
  {
    var next, remaining := Counted(entry, windowMs, at), AnswerFor(entry, windowMs, limit, at).remaining;
    if n > 0 {
      assert Burst(n, later)[0] == later && Burst(n, later)[1..] == Burst(n - 1, later);
      RemainingIsExact(Some(next), windowMs, limit, later, n - 1, later);
    }
  }

  /** A blocked key stays blocked until less than a second of the advertised time is left. */
  lemma RetryAfterNeeded(entry: Option<Window>, windowMs: nat, limit: nat, at: Time, later: Time)
    requires limit > 0 && !AnswerFor(entry, windowMs, limit, at).allowed
    requires at <= later && later + 1000 <= at + 1000 * AnswerFor(entry, windowMs, limit, at).retryAfterSeconds
    ensures !AnswerFor(Some(Counted(entry, windowMs, at)), windowMs, limit, later).allowed
  {
  }

  /** A key left alone for the advertised time is allowed again. */
  lemma RetryAfterSuffices(entry: Option<Window>, windowMs: nat, limit: nat, at: Time, later: Time)
    requires limit > 0
    requires at + 1000 * AnswerFor(entry, windowMs, limit, at).retryAfterSeconds <= later
    ensures AnswerFor(Some(Counted(entry, windowMs, at)), windowMs, limit, later).allowed
  {
  }

  // --- All keys ------------------------------------------------------------

  type Windows = map<string, Window>

  /** The window a key is in at `at`, if its time is not up. */
  function Live(windows: Windows, key: string, at: Time): Option<Window> {
    if key in windows && at < windows[key].resetAt then Some(windows[key]) else None
  }

  ghost predicate Agree(a: Windows, b: Windows, at: Time) {
    forall k {:trigger Live(a, k, at)} {:trigger Live(b, k, at)} :: Live(a, k, at) == Live(b, k, at)
  }

  lemma AgreeLater(a: Windows, b: Windows, at: Time, later: Time)
    requires Agree(a, b, at) && at <= later
    ensures Agree(a, b, later)
  {
    forall k ensures Live(a, k, later) == Live(b, k, later) {
      assert Live(a, k, at) == Live(b, k, at);
    }
  }

  datatype Hit = Hit(key: string, limit: nat, at: Time)

  predicate Valid(hits: seq<Hit>) {
    && (forall i :: 0 <= i < |hits| ==> hits[i].limit > 0)
    && (forall i, j :: 0 <= i < j < |hits| ==> hits[i].at <= hits[j].at)
  }

  /** The answers of a counter that never sweeps. */
  function Answers(windows: Windows, windowMs: nat, hits: seq<Hit>): (answers: seq<Answer>)
    requires forall i :: 0 <= i < |hits| ==> hits[i].limit > 0
    ensures |answers| == |hits|
    decreases |hits|
  {
    if hits == [] then []
    else
      var h := hits[0];
      var entry := Live(windows, h.key, h.at);
      [AnswerFor(entry, windowMs, h.limit, h.at)]
        + Answers(windows[h.key := Counted(entry, windowMs, h.at)], windowMs, hits[1..])
  }

  /** Only the live windows matter to the answers. */
  lemma {:induction false} AnswersAgree(a: Windows, b: Windows, windowMs: nat, hits: seq<Hit>)
    requires Valid(hits) && (hits == [] || Agree(a, b, hits[0].at))
    ensures Answers(a, windowMs, hits) == Answers(b, windowMs, hits)
    decreases |hits|
  {
    if hits != [] {
      var h := hits[0];
      var entry := Live(a, h.key, h.at);
      assert entry == Live(b, h.key, h.at);
      var a', b' := a[h.key := Counted(entry, windowMs, h.at)], b[h.key := Counted(entry, windowMs, h.at)];
      assert Agree(a', b', h.at) by {
        forall k ensures Live(a', k, h.at) == Live(b', k, h.at) {
          if k != h.key { assert Live(a, k, h.at) == Live(b, k, h.at); }
        }
      }
      if |hits| > 1 { AgreeLater(a', b', h.at, hits[1].at); }
      AnswersAgree(a', b', windowMs, hits[1..]);
    }
  }

  /** How many of the served hits on `key`, made from `a` up to `b`, were allowed. */
  function AllowedHits(hits: seq<Hit>, answers: seq<Answer>, key: string, a: Time, b: Time): nat
    requires |answers| == |hits|
    decreases |hits|
  {
    if hits == [] then 0
    else
      (if hits[0].key == key && answers[0].allowed && a <= hits[0].at < b then 1 else 0)
      + AllowedHits(hits[1..], answers[1..], key, a, b)
  }

  function TimesOf(hits: seq<Hit>, key: string): seq<Time> {
    if hits == [] then []
    else (if hits[0].key == key then [hits[0].at] else []) + TimesOf(hits[1..], key)
  }

  lemma {:induction false} TimesOfSorted(hits: seq<Hit>, key: string)
    requires Valid(hits)
    ensures Sorted(TimesOf(hits, key))
    ensures forall t :: t in TimesOf(hits, key) ==> hits != [] && hits[0].at <= t
  {
    if hits != [] {
      var rest := TimesOf(hits[1..], key);
      TimesOfSorted(hits[1..], key);
      forall i | 0 <= i < |rest| ensures hits[0].at <= rest[i] {
        assert rest[i] in rest && hits[1..][0].at <= rest[i];
      }
    }
  }

  /** Keys do not disturb each other: the hits on one key are answered as if it were alone. */
  lemma {:induction false} KeysAreIndependent(windows: Windows, windowMs: nat, limit: nat, hits: seq<Hit>,
                                              key: string, a: Time, b: Time)
    requires limit > 0 && forall i :: 0 <= i < |hits| ==>
      hits[i].limit > 0 && (hits[i].key == key ==> hits[i].limit == limit)
    ensures AllowedHits(hits, Answers(windows, windowMs, hits), key, a, b) ==
      AllowedBetween(if key in windows then Some(windows[key]) else None, windowMs, limit, TimesOf(hits, key), a, b)
    decreases |hits|
  {
    if hits != [] {
      var h := hits[0];
      var next := windows[h.key := Counted(Live(windows, h.key, h.at), windowMs, h.at)];
      KeysAreIndependent(next, windowMs, limit, hits[1..], key, a, b);
      assert Answers(windows, windowMs, hits)[1..] == Answers(next, windowMs, hits[1..]);
      var entry := if key in windows then Some(windows[key]) else None;
      if h.key == key {
        assert TimesOf(hits, key)[1..] == TimesOf(hits[1..], key);
        assert Counted(entry, windowMs, h.at) == next[key];
        assert AnswerFor(entry, windowMs, limit, h.at) == Answers(windows, windowMs, hits)[0];
      } else {
        assert TimesOf(hits, key) == TimesOf(hits[1..], key);
      }
    }
  }

  /** However hits on other keys interleave, and however often the map is swept, a key with a
      fixed limit is allowed fewer than twice the limit in any interval as long as a window. */
  lemma ServedWithinLimit(windowMs: nat, limit: nat, hits: seq<Hit>, key: string, a: Time)
    requires windowMs > 0 && limit > 0 && Valid(hits)
    requires forall i :: 0 <= i < |hits| && hits[i].key == key ==> hits[i].limit == limit
    ensures AllowedHits(hits, Answers(map[], windowMs, hits), key, a, a + windowMs) <= 2 * limit - 1
  {
    TimesOfSorted(hits, key);
    KeysAreIndependent(map[], windowMs, limit, hits, key, a, a + windowMs);
    AtMostTwiceLimit(windowMs, limit, TimesOf(hits, key), a);
  }

  class Counter {
    const windowMs: nat
    var windows: Windows

    constructor (windowMs: nat)
      ensures this.windowMs == windowMs && windows == map[]
    {
      this.windowMs := windowMs;
      windows := map[];
    }

    /** Drops the windows that are over, and nothing else. */
    method Sweep(at: Time)
      modifies this`windows
      ensures windows == map k | k in old(windows) && at < old(windows)[k].resetAt :: old(windows)[k]
    {
      var pending := windows.Keys;
      while pending != {}
        invariant pending <= old(windows).Keys
        invariant windows == map k | k in old(windows)
          && (k in pending || at < old(windows)[k].resetAt) :: old(windows)[k]
        decreases |pending|
      {
        var key :| key in pending;
        pending := pending - {key};
        if windows[key].resetAt <= at {
          windows := windows - {key};
        }
      }
    }

    method Hit(key: string, limit: nat, at: Time) returns (answer: Answer)
      requires limit > 0
      modifies this`windows
      ensures answer == AnswerFor(old(Live(windows, key, at)), windowMs, limit, at)
      ensures Agree(windows, old(windows)[key := Counted(old(Live(windows, key, at)), windowMs, at)], at)
    {
      if |windows| > SWEEP_AT { Sweep(at); }
      assert Agree(windows, old(windows), at);
      assert Live(windows, key, at) == Live(old(windows), key, at);

      if key !in windows || windows[key].resetAt <= at {
        windows := windows[key := Window(1, at + windowMs)];
        return Answer(true, limit - 1, CeilSeconds(windowMs));
      }
      var entry := windows[key];
      windows := windows[key := entry.(count := entry.count + 1)];
      var count := entry.count + 1;
      return Answer(count <= limit, Max(0, limit - count), Max(1, CeilSeconds(entry.resetAt - at)));
    }

    /** Serving any number of hits, however often the map was swept in between, answers them
        as a counter that never sweeps. */
    method Serve(hits: seq<Hit>) returns (answers: seq<Answer>)
      requires Valid(hits)
      modifies this`windows
      ensures answers == Answers(old(windows), windowMs, hits)
    {
      answers := [];
      for n := 0 to |hits|
        invariant |answers| == n
        invariant answers + Answers(windows, windowMs, hits[n..]) == Answers(old(windows), windowMs, hits)
      {
        var h := hits[n];
        ghost var before := windows;
        var answer := Hit(h.key, h.limit, h.at);
        ghost var unswept := before[h.key := Counted(Live(before, h.key, h.at), windowMs, h.at)];
        assert hits[n..][0] == h && hits[n..][1..] == hits[n + 1..];
        if n + 1 < |hits| { AgreeLater(windows, unswept, h.at, hits[n + 1].at); }
        AnswersAgree(windows, unswept, windowMs, hits[n + 1..]);
        assert Answers(before, windowMs, hits[n..]) == [answer] + Answers(unswept, windowMs, hits[n + 1..]);
        answers := answers + [answer];
      }
      assert hits[|hits|..] == [];
    }

    /** One metered request: both keys are counted whatever the first one answers, and both
        have to pass. Returns how long to wait, or None. */
    method Meter(path: string, address: string, identifier: string, limit: nat, at: Time) returns (wait: Option<nat>)
      requires limit > 0 && windowMs > 0
      modifies this`windows
      ensures var ip, id := IpKey(path, address), IdKey(path, identifier);
        var first, second := old(Live(windows, ip, at)), old(Live(windows, id, at));
        && (wait.None? <==>
              && AnswerFor(first, windowMs, limit, at).allowed
              && (identifier == "" || AnswerFor(second, windowMs, limit, at).allowed))
        && (wait.Some? ==>
              var blocked := if AnswerFor(first, windowMs, limit, at).allowed then second else first;
              wait.value == AnswerFor(blocked, windowMs, limit, at).retryAfterSeconds
              && forall later :: at + 1000 * wait.value <= later ==>
                AnswerFor(Some(Counted(blocked, windowMs, at)), windowMs, limit, later).allowed)
        && Live(windows, ip, at) == Some(Counted(first, windowMs, at))
        && (identifier != "" ==> Live(windows, id, at) == Some(Counted(second, windowMs, at)))
    {
      KeysDiffer(path, address, identifier);
      ghost var before := windows;
      var byAddress := Hit(IpKey(path, address), limit, at);
      assert Live(windows, IdKey(path, identifier), at) == Live(before, IdKey(path, identifier), at);
      assert Live(windows, IpKey(path, address), at)
        == Some(Counted(Live(before, IpKey(path, address), at), windowMs, at));
      ghost var between := windows;
      var blocked := byAddress;
      if identifier != "" {
        var byIdentifier := Hit(IdKey(path, identifier), limit, at);
        assert Live(windows, IpKey(path, address), at) == Live(between, IpKey(path, address), at);
        if byAddress.allowed { blocked := byIdentifier; }
      }
      return if blocked.allowed then None else Some(blocked.retryAfterSeconds);
    }
  }

  function IpKey(path: string, address: string): string { path + "|ip|" + address }

  function IdKey(path: string, identifier: string): string { path + "|id|" + identifier }

  /** The two budgets of a request are never the same budget. */
  lemma KeysDiffer(path: string, address: string, identifier: string)
    ensures IpKey(path, address) != IdKey(path, identifier)
  {
    assert IpKey(path, address)[|path| + 2] == 'p';
    assert IdKey(path, identifier)[|path| + 2] == 'd';
  }
}
