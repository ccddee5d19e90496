/**
 The request rate limiter: a table of counting windows that is swept now and then, against the
 same table never swept, and the bounds on what it grants. The clock never goes back.
 */
module RateLimit {
  import opened Common

  datatype WindowEntry = WindowEntry(count: int, expiresAt: int)

  type Store = map<string, WindowEntry>

  datatype Answer = Answer(success: bool, remaining: int, reset: int)

  /** A request and the two readings of the clock it makes: in the cleanup, and after it. */
  datatype Call = Call(key: string, limit: int, windowSeconds: int, cleanAt: int, now: int)

  const CLEANUP_EVERY := 60_000

  function CeilDiv(a: int, n: int): (r: int)
    requires n > 0
    ensures (r - 1) * n < a <= r * n
  {
    -(-a / n)
  }

  /** The store key of an endpoint's caller. */
  function KeyOf(endpoint: string, identifier: string): string { "rl:" + endpoint + ":" + identifier }

  function BeforeColon(t: string): string {
    if t == "" || t[0] == ':' then "" else [t[0]] + BeforeColon(t[1..])
  }

  lemma {:induction false} BeforeColonIs(e: string, i: string)
    requires ':' !in e
    ensures BeforeColon(e + ":" + i) == e
  {
    if e != "" {
      assert (e + ":" + i)[1..] == e[1..] + ":" + i;
      BeforeColonIs(e[1..], i);
    }
  }

  /** Endpoint names without a colon keep callers apart, whatever the identifiers contain. */
  lemma KeysApart(e: string, i: string, f: string, j: string)
    requires ':' !in e && ':' !in f && KeyOf(e, i) == KeyOf(f, j)
    ensures e == f && i == j
  {
    var k, l := KeyOf(e, i), KeyOf(f, j);
    assert k[3..] == e + ":" + i && l[3..] == f + ":" + j;
    BeforeColonIs(e, i);
    BeforeColonIs(f, j);
    assert k[4 + |e|..] == i && l[4 + |e|..] == j;
  }

  predicate Expired(e: WindowEntry, now: int) { e.expiresAt < now }

  function Look(store: Store, key: string): Option<WindowEntry> {
    if key in store then Some(store[key]) else None
  }

  /** What a call makes of its key's entry, and the answer. */
  function CheckEntry(entry: Option<WindowEntry>, c: Call): (WindowEntry, Answer) {
    if entry.None? || Expired(entry.value, c.now) then
      (WindowEntry(1, c.now + c.windowSeconds * 1000), Answer(true, c.limit - 1, c.windowSeconds))
    else
      var e := entry.value.(count := entry.value.count + 1);
      var reset := CeilDiv(e.expiresAt - c.now, 1000);
      (e, if e.count > c.limit then Answer(false, 0, reset) else Answer(true, c.limit - e.count, reset))
  }

  /** The limiter without any cleanup: the table after a call, and the answer. */
  function Check(store: Store, c: Call): (Store, Answer) {
    var r := CheckEntry(Look(store, c.key), c);
    (store[c.key := r.0], r.1)
  }

  /** The swept table differs from the other only by entries that are over. */
  predicate SweptOf(swept: Store, plain: Store, clock: int) {
    && (forall k | k in swept :: k in plain && plain[k] == swept[k])
    && (forall k | k in plain && k !in swept :: Expired(plain[k], clock))
  }

  /** A sweep and the passing of time keep the two tables together. */
  lemma SweepKeeps(swept: Store, plain: Store, after: Store, before: int, clock: int)
    requires SweptOf(swept, plain, before) && before <= clock
    requires forall k :: k in after ==> k in swept && after[k] == swept[k]
    requires forall k :: k in swept && k !in after ==> Expired(swept[k], clock)
    ensures SweptOf(after, plain, clock)
  {
  }

  /** A call gets one answer from both tables and keeps them together. */
  lemma CheckAgrees(swept: Store, plain: Store, c: Call)
    requires SweptOf(swept, plain, c.now)
    ensures Check(swept, c).1 == Check(plain, c).1
    ensures SweptOf(Check(swept, c).0, Check(plain, c).0, c.now)
  {
  }

  class RateLimiter {
    var store: Store
    var lastCleanup: int
    /** The table that is never swept, and the last reading of the clock. */
    ghost var plain: Store
    ghost var clock: int

    ghost predicate Valid()
      reads this
    {
      SweptOf(store, plain, clock)
    }

    constructor (now: int)
      ensures Valid() && plain == map[] && clock == now
    {
      store, lastCleanup, plain, clock := map[], now, map[], now;
    }

    /** Deletes the entries that are over, at most once a minute. */
    method Cleanup(now: int)
      requires Valid() && clock <= now
      modifies this`store, this`lastCleanup, this`clock
      ensures Valid() && clock == now
      ensures lastCleanup == if now - old(lastCleanup) < 60_000 then old(lastCleanup) else now
      ensures now - old(lastCleanup) >= 60_000 ==>
                store == map k | k in old(store) && !Expired(old(store)[k], now) :: old(store)[k]
    {
      SweepKeeps(store, plain, store, clock, now);
      clock := now;
      if now - lastCleanup < CLEANUP_EVERY { return; }
      lastCleanup := now;
      var keys := store.Keys;
      while keys != {}
        invariant clock == now && lastCleanup == now
        invariant keys <= store.Keys && store.Keys <= old(store).Keys
        invariant forall k :: k in store ==> store[k] == old(store)[k] && (k in keys || !Expired(store[k], now))
        invariant forall k :: k in old(store) && k !in store ==> Expired(old(store)[k], now)
        decreases keys
      {
        var key :| key in keys;
        if Expired(store[key], now) { store := store - {key}; }
        keys := keys - {key};
      }
      SweepKeeps(old(store), plain, store, now, now);
    }

    /** Answers as the table that is never swept would. */
    method CheckRateLimit(c: Call) returns (r: Answer)
      requires Valid() && clock <= c.cleanAt <= c.now
      modifies this
      ensures Valid() && clock == c.now
      ensures plain == Check(old(plain), c).0 && r == Check(old(plain), c).1
    {
      Cleanup(c.cleanAt);
      var now, key := c.now, c.key;
      SweepKeeps(store, plain, store, clock, now);
      CheckAgrees(store, plain, c);
      clock, plain := now, Check(plain, c).0;
      if key !in store || store[key].expiresAt < now {
        store := store[key := WindowEntry(1, now + c.windowSeconds * 1000)];
        return Answer(true, c.limit - 1, c.windowSeconds);
      }
      store := store[key := store[key].(count := store[key].count + 1)];
      var entry := store[key];
      var reset := CeilDiv(entry.expiresAt - now, 1000);
      if entry.count > c.limit { return Answer(false, 0, reset); }
      return Answer(true, c.limit - entry.count, reset);
    }
  }

  // ---------------------------------------------------------------- what is granted

  function After(calls: seq<Call>): Store {
    if calls == [] then map[] else Check(After(calls[..|calls| - 1]), calls[|calls| - 1]).0
  }

  /** The answer to the i-th call. */
  function AnswerTo(calls: seq<Call>, i: nat): Answer
    requires i < |calls|
  {
    Check(After(calls[..i]), calls[i]).1
  }

  /** A granted call: when, and when its window began. */
  datatype Grant = Grant(at: int, start: int)

  /** What a call is granted. */
  function GrantOf(entry: Option<WindowEntry>, c: Call): seq<Grant> {
    var r := CheckEntry(entry, c);
    if r.1.success then [Grant(c.now, r.0.expiresAt - c.windowSeconds * 1000)] else []
  }

  /** The calls granted to a key, in order. */
  function Grants(calls: seq<Call>, key: string): seq<Grant> {
    if calls == [] then []
    else
      var init, c := calls[..|calls| - 1], calls[|calls| - 1];
      Grants(init, key) + if c.key == key then GrantOf(Look(After(init), key), c) else []
  }

  /** The clock does not go back, and the key is always called with one limit and one window. */
  predicate Steady(calls: seq<Call>, key: string, limit: int, windowSeconds: int) {
    && (forall i, j | 0 <= i < j < |calls| :: calls[i].now <= calls[j].now)
    && (forall i | 0 <= i < |calls| ::
          calls[i].key == key ==> calls[i].limit == limit && calls[i].windowSeconds == windowSeconds)
  }

  /** Of the grants, the last n are in the window that began at `start`, and all others in windows over before it. */
  predicate LastWindow(grants: seq<Grant>, start: int, n: nat, window: int) {
    && n <= |grants|
    && (forall i | |grants| - n <= i < |grants| :: grants[i].start == start)
    && (forall i | 0 <= i < |grants| - n :: grants[i].start + window < start)
  }

  /** Each grant is in its window, the first one at its start, and a limit's worth of grants further on another
      window has begun. */
  predicate Bounded(grants: seq<Grant>, limit: nat, window: int) {
    && (forall i | 0 <= i < |grants| :: grants[i].start <= grants[i].at <= grants[i].start + window)
    && (forall i, j | 0 <= i && i + limit <= j < |grants| :: grants[i].start + window < grants[j].start)
    && FirstsAtStart(grants)
  }

  predicate FirstsAtStart(grants: seq<Grant>) {
    forall i | 0 <= i < |grants| ::
      grants[i].at == grants[i].start || (i > 0 && grants[i - 1].start == grants[i].start)
  }

  function AtMost(count: int, limit: int): nat
    requires 1 <= count && 1 <= limit
  {
    if count < limit then count else limit
  }

  /** The table's entry counts the grants of the window it is for. */
  predicate EntryAgrees(entry: Option<WindowEntry>, grants: seq<Grant>, limit: int, window: int, clock: int)
    requires 1 <= limit
  {
    if entry.None? then grants == []
    else
      var e := entry.value;
      1 <= e.count && e.expiresAt - window <= clock
      && LastWindow(grants, e.expiresAt - window, AtMost(e.count, limit), window)
  }

  lemma GrantAppends(grants: seq<Grant>, limit: int, window: int, start: int, n: nat, g: Grant)
    requires 1 <= limit && 0 <= window && Bounded(grants, limit, window)
    requires LastWindow(grants, start, n, window) && n < limit
    requires g.start == start && start <= g.at <= start + window && (n == 0 ==> g.at == start)
    ensures Bounded(grants + [g], limit, window) && LastWindow(grants + [g], start, n + 1, window)
  {
  }

  lemma WindowOpens(grants: seq<Grant>, window: int, start: int, n: nat, next: int)
    requires 0 <= window && LastWindow(grants, start, n, window) && start + window < next
    ensures LastWindow(grants, next, 0, window)
  {
  }

  predicate Tracked(entry: Option<WindowEntry>, grants: seq<Grant>, limit: int, window: int, clock: int)
    requires 1 <= limit
  {
    EntryAgrees(entry, grants, limit, window, clock) && Bounded(grants, limit, window)
  }

  lemma OpeningGrants(entry: Option<WindowEntry>, grants: seq<Grant>, limit: int, window: int, clock: int, now: int)
    requires 1 <= limit && 0 <= window && clock <= now
    requires Tracked(entry, grants, limit, window, clock)
    requires entry.Some? ==> Expired(entry.value, now)
    ensures Tracked(Some(WindowEntry(1, now + window)), grants + [Grant(now, now)], limit, window, now)
  {
    if entry.Some? {
      WindowOpens(grants, window, entry.value.expiresAt - window, AtMost(entry.value.count, limit), now);
    }
    GrantAppends(grants, limit, window, now, 0, Grant(now, now));
  }

  lemma CountingGrants(e: WindowEntry, grants: seq<Grant>, limit: int, window: int, clock: int, now: int)
    requires 1 <= limit && 0 <= window && clock <= now && !Expired(e, now)
    requires Tracked(Some(e), grants, limit, window, clock)
    ensures Tracked(Some(e.(count := e.count + 1)),
                    grants + if e.count < limit then [Grant(now, e.expiresAt - window)] else [], limit, window, now)
  {
    if e.count < limit {
      GrantAppends(grants, limit, window, e.expiresAt - window, e.count, Grant(now, e.expiresAt - window));
    } else {
      assert grants + [] == grants;
    }
  }

  /** The entry a call leaves and the grant it makes, the answer's reset aside. */
  predicate Leaves(entry: Option<WindowEntry>, limit: int, window: int, now: int, next: WindowEntry,
                   granted: seq<Grant>) {
    if entry.None? || Expired(entry.value, now) then
      next == WindowEntry(1, now + window) && granted == [Grant(now, now)]
    else
      var e := entry.value;
      next == e.(count := e.count + 1) && granted == if e.count < limit then [Grant(now, e.expiresAt - window)] else []
  }

  lemma CheckLeaves(entry: Option<WindowEntry>, c: Call)
    ensures Leaves(entry, c.limit, c.windowSeconds * 1000, c.now, CheckEntry(entry, c).0, GrantOf(entry, c))
  {
  }

  lemma TrackStep(entry: Option<WindowEntry>, grants: seq<Grant>, limit: int, window: int, clock: int, now: int,
                  next: WindowEntry, granted: seq<Grant>)
    requires 1 <= limit && 0 <= window && clock <= now && Tracked(entry, grants, limit, window, clock)
    requires Leaves(entry, limit, window, now, next, granted)
    ensures Tracked(Some(next), grants + granted, limit, window, now)
  {
    if entry.None? || Expired(entry.value, now) {
      OpeningGrants(entry, grants, limit, window, clock, now);
    } else {
      CountingGrants(entry.value, grants, limit, window, clock, now);
    }
  }

  lemma CheckGrants(entry: Option<WindowEntry>, grants: seq<Grant>, c: Call, clock: int)
    requires 1 <= c.limit && 0 <= c.windowSeconds && clock <= c.now
    requires Tracked(entry, grants, c.limit, c.windowSeconds * 1000, clock)
    ensures Tracked(Some(CheckEntry(entry, c).0), grants + GrantOf(entry, c), c.limit, c.windowSeconds * 1000, c.now)
  {
    CheckLeaves(entry, c);
    TrackStep(entry, grants, c.limit, c.windowSeconds * 1000, clock, c.now, CheckEntry(entry, c).0, GrantOf(entry, c));
  }

  lemma TrackedLater(entry: Option<WindowEntry>, grants: seq<Grant>, limit: int, window: int, before: int, clock: int)
    requires 1 <= limit && Tracked(entry, grants, limit, window, before) && before <= clock
    ensures Tracked(entry, grants, limit, window, clock)
  {
  }

  function LastNow(calls: seq<Call>, default: int): int {
    if calls == [] then default else calls[|calls| - 1].now
  }

  lemma {:induction false} GrantsAreTracked(calls: seq<Call>, key: string, limit: int, windowSeconds: int, clock: int)
    requires 1 <= limit && 0 <= windowSeconds && Steady(calls, key, limit, windowSeconds)
    requires LastNow(calls, clock) <= clock
    ensures Tracked(Look(After(calls), key), Grants(calls, key), limit, windowSeconds * 1000, clock)
  {
    if calls != [] {
      var init, c := calls[..|calls| - 1], calls[|calls| - 1];
      GrantsAreTracked(init, key, limit, windowSeconds, c.now);
      var entry, grants := Look(After(init), key), Grants(init, key);
      if c.key == key {
        CheckGrants(entry, grants, c, c.now);
        TrackedLater(Look(After(calls), key), Grants(calls, key), limit, windowSeconds * 1000, c.now, clock);
      } else {
        assert Look(After(calls), key) == entry && Grants(calls, key) == grants;
        TrackedLater(entry, grants, limit, windowSeconds * 1000, c.now, clock);
      }
    }
  }

  lemma GrantsAreBounded(calls: seq<Call>, key: string, limit: int, windowSeconds: int)
    requires 1 <= limit && 0 <= windowSeconds && Steady(calls, key, limit, windowSeconds)
    ensures Bounded(Grants(calls, key), limit, windowSeconds * 1000)
  {
    GrantsAreTracked(calls, key, limit, windowSeconds, LastNow(calls, 0));
  }

  /** No window grants a key more than its limit: of any limit + 1 grants in a row the last is in a later window
      than the first. */
  lemma LimitPerWindow(calls: seq<Call>, key: string, limit: int, windowSeconds: int, i: nat)
    requires 1 <= limit && 0 <= windowSeconds && Steady(calls, key, limit, windowSeconds)
    requires i + limit < |Grants(calls, key)|
    ensures var g, h := Grants(calls, key)[i], Grants(calls, key)[i + limit];
            && g.start <= g.at <= g.start + windowSeconds * 1000
            && g.start + windowSeconds * 1000 < h.start <= h.at
  {
    GrantsAreBounded(calls, key, limit, windowSeconds);
  }

  /** Less than twice the limit in any stretch as long as a window: of any 2 * limit grants in a row the last
      comes more than a window after the first. */
  lemma LessThanTwiceTheLimit(calls: seq<Call>, key: string, limit: int, windowSeconds: int, i: nat)
    requires 1 <= limit && 0 <= windowSeconds && Steady(calls, key, limit, windowSeconds)
    requires i + 2 * limit - 1 < |Grants(calls, key)|
    ensures Grants(calls, key)[i + 2 * limit - 1].at - Grants(calls, key)[i].at > windowSeconds * 1000
  {
    GrantsAreBounded(calls, key, limit, windowSeconds);
    var grants := Grants(calls, key);
    if i > 0 && grants[i - 1].start == grants[i].start {
      LimitPerWindow(calls, key, limit, windowSeconds, i - 1);
      LimitPerWindow(calls, key, limit, windowSeconds, i + limit - 1);
    } else {
      OpensAtStart(calls, key, limit, windowSeconds, i);
      var j := i + 2 * limit - 1;
      assert i + limit <= j;
    }
  }

  lemma OpensAtStart(calls: seq<Call>, key: string, limit: int, windowSeconds: int, i: nat)
    requires 1 <= limit && 0 <= windowSeconds && Steady(calls, key, limit, windowSeconds) && i < |Grants(calls, key)|
    requires i > 0 ==> Grants(calls, key)[i - 1].start != Grants(calls, key)[i].start
    ensures Grants(calls, key)[i].at == Grants(calls, key)[i].start
  {
    GrantsAreBounded(calls, key, limit, windowSeconds);
  }

  /** When the calls of a burst come: the first opens a window, the rest of the limit comes in its last
      millisecond, and as many again one millisecond later. */
  function BurstAt(limit: int, window: int, at: int, i: int): int {
    if i == 0 then at else if i < limit then at + window else at + window + 1
  }

  function Burst(key: string, limit: int, windowSeconds: int, at: int, n: nat): seq<Call> {
    seq(n, i => var now := BurstAt(limit, windowSeconds * 1000, at, i); Call(key, limit, windowSeconds, now, now))
  }

  function BurstGrants(limit: int, window: int, at: int, n: nat): seq<Grant> {
    seq(n, i => Grant(BurstAt(limit, window, at, i), if i < limit then at else at + window + 1))
  }

  function BurstEntry(limit: int, window: int, at: int, n: nat): Option<WindowEntry> {
    if n == 0 then None
    else if n <= limit then Some(WindowEntry(n, at + window))
    else Some(WindowEntry(n - limit, at + window + 1 + window))
  }

  /** The n-th call of a burst is granted. */
  lemma BurstStep(limit: int, windowSeconds: int, at: int, n: nat, c: Call)
    requires 1 <= limit && 0 <= windowSeconds && n < 2 * limit
    requires c.limit == limit && c.windowSeconds == windowSeconds
             && c.now == BurstAt(limit, windowSeconds * 1000, at, n)
    ensures var window, entry := windowSeconds * 1000, BurstEntry(limit, windowSeconds * 1000, at, n);
            && Some(CheckEntry(entry, c).0) == BurstEntry(limit, window, at, n + 1)
            && GrantOf(entry, c) == [Grant(c.now, if n < limit then at else at + window + 1)]
  {
    CheckLeaves(BurstEntry(limit, windowSeconds * 1000, at, n), c);
  }

  lemma BurstGrowsOn(key: string, limit: int, windowSeconds: int, at: int, n: nat)
    ensures Burst(key, limit, windowSeconds, at, n + 1)[..n] == Burst(key, limit, windowSeconds, at, n)
    ensures var window := windowSeconds * 1000;
            BurstGrants(limit, window, at, n + 1)
            == BurstGrants(limit, window, at, n)
               + [Grant(BurstAt(limit, window, at, n), if n < limit then at else at + window + 1)]
  {
  }

  lemma OneMoreCall(calls: seq<Call>, init: seq<Call>, c: Call, entry: Option<WindowEntry>, grants: seq<Grant>)
    requires calls != [] && calls[..|calls| - 1] == init && calls[|calls| - 1] == c
    requires Look(After(init), c.key) == entry && Grants(init, c.key) == grants
    ensures Look(After(calls), c.key) == Some(CheckEntry(entry, c).0)
    ensures Grants(calls, c.key) == grants + GrantOf(entry, c)
  {
  }

  lemma {:induction false} BurstIsGranted(key: string, limit: int, windowSeconds: int, at: int, n: nat)
    requires 1 <= limit && 0 <= windowSeconds && n <= 2 * limit
    ensures var calls, window := Burst(key, limit, windowSeconds, at, n), windowSeconds * 1000;
            && Look(After(calls), key) == BurstEntry(limit, window, at, n)
            && Grants(calls, key) == BurstGrants(limit, window, at, n)
  {
    if n > 0 {
      var window, m := windowSeconds * 1000, n - 1;
      var calls := Burst(key, limit, windowSeconds, at, n);
      var entry, grants := BurstEntry(limit, window, at, m), BurstGrants(limit, window, at, m);
      BurstIsGranted(key, limit, windowSeconds, at, m);
      BurstGrowsOn(key, limit, windowSeconds, at, m);
      OneMoreCall(calls, Burst(key, limit, windowSeconds, at, m), calls[m], entry, grants);
      BurstStep(limit, windowSeconds, at, m, calls[m]);
    }
  }

  /** For every limit and window the bound is reached: twice the limit of calls can all be granted in one
      millisecond more than a window, all but the first of them in the last two milliseconds. */
  lemma BoundIsReached(key: string, limit: int, windowSeconds: int, at: int)
    requires 1 <= limit && 0 <= windowSeconds
    ensures exists calls ::
              && Steady(calls, key, limit, windowSeconds) && |calls| == |Grants(calls, key)| == 2 * limit
              && Grants(calls, key)[2 * limit - 1].at - Grants(calls, key)[0].at == windowSeconds * 1000 + 1
              && forall i | 0 < i < 2 * limit :: Grants(calls, key)[2 * limit - 1].at - Grants(calls, key)[i].at <= 1
  {
    BurstIsGranted(key, limit, windowSeconds, at, 2 * limit);
    assert Steady(Burst(key, limit, windowSeconds, at, 2 * limit), key, limit, windowSeconds);
  }

  /** A call is refused only in a window that has granted its whole limit. */
  lemma RefusedOnlyAtTheLimit(calls: seq<Call>, key: string, limit: int, windowSeconds: int)
    requires 1 <= limit && 0 <= windowSeconds && Steady(calls, key, limit, windowSeconds)
    requires calls != [] && calls[|calls| - 1].key == key && !AnswerTo(calls, |calls| - 1).success
    ensures var grants, now := Grants(calls, key), calls[|calls| - 1].now;
            && limit <= |grants|
            && (var start := grants[|grants| - 1].start;
                && start <= now <= start + windowSeconds * 1000
                && forall i | |grants| - limit <= i < |grants| :: grants[i].start == start)
  {
    var init, c := calls[..|calls| - 1], calls[|calls| - 1];
    GrantsAreTracked(init, key, limit, windowSeconds, c.now);
    CheckLeaves(Look(After(init), key), c);
    assert Grants(calls, key) == Grants(init, key);
  }

  /** What an answer tells: a granted call leaves as many as its window has still to give, and the window
      is over within the seconds told, rounded up. */
  lemma AnswerTells(calls: seq<Call>, key: string, limit: int, windowSeconds: int)
    requires 1 <= limit && 0 <= windowSeconds && Steady(calls, key, limit, windowSeconds)
    requires calls != [] && calls[|calls| - 1].key == key
    ensures var a, now, grants := AnswerTo(calls, |calls| - 1), calls[|calls| - 1].now, Grants(calls, key);
            && 0 <= a.remaining < limit && grants != []
            && (var start := grants[|grants| - 1].start;
                && LastWindow(grants, start, limit - a.remaining, windowSeconds * 1000)
                && (a.reset - 1) * 1000 < start + windowSeconds * 1000 - now <= a.reset * 1000)
  {
    var init, c := calls[..|calls| - 1], calls[|calls| - 1];
    GrantsAreTracked(init, key, limit, windowSeconds, c.now);
    GrantsAreTracked(calls, key, limit, windowSeconds, c.now);
    var entry := CheckEntry(Look(After(init), key), c).0;
    assert Look(After(calls), key) == Some(entry);
    assert LastWindow(Grants(calls, key), entry.expiresAt - windowSeconds * 1000,
                      AtMost(entry.count, limit), windowSeconds * 1000);
  }

  // ---------------------------------------------------------------- with the cleanup

  /** The table and the time of the last cleanup, after the cleanup at the start of a call. */
  function Cleaned(store: Store, lastCleanup: int, now: int): (Store, int) {
    if now - lastCleanup < CLEANUP_EVERY then (store, lastCleanup)
    else (map k | k in store && !Expired(store[k], now) :: store[k], now)
  }

  /** The swept limiter over a run that starts at `start`. */
  function SweptAfter(calls: seq<Call>, start: int): (Store, int) {
    if calls == [] then (map[], start)
    else
      var c, before := calls[|calls| - 1], SweptAfter(calls[..|calls| - 1], start);
      var cleaned := Cleaned(before.0, before.1, c.cleanAt);
      (Check(cleaned.0, c).0, cleaned.1)
  }

  /** The swept limiter's answer to the i-th call. */
  function SweptAnswerTo(calls: seq<Call>, start: int, i: nat): Answer
    requires i < |calls|
  {
    var before := SweptAfter(calls[..i], start);
    Check(Cleaned(before.0, before.1, calls[i].cleanAt).0, calls[i]).1
  }

  /** No reading of the clock comes before an earlier one. */
  predicate ClockRuns(calls: seq<Call>) {
    && (forall i | 0 <= i < |calls| :: calls[i].cleanAt <= calls[i].now)
    && (forall i, j | 0 <= i < j < |calls| :: calls[i].now <= calls[j].cleanAt)
  }

  lemma CleanedStays(store: Store, plain: Store, lastCleanup: int, before: int, c: Call)
    requires SweptOf(store, plain, before) && before <= c.cleanAt <= c.now
    ensures SweptOf(Cleaned(store, lastCleanup, c.cleanAt).0, plain, c.now)
  {
    SweepKeeps(store, plain, Cleaned(store, lastCleanup, c.cleanAt).0, before, c.now);
  }

  lemma {:induction false} TablesStayTogether(calls: seq<Call>, start: int, clock: int)
    requires ClockRuns(calls) && (calls != [] ==> calls[|calls| - 1].now <= clock)
    ensures SweptOf(SweptAfter(calls, start).0, After(calls), clock)
  {
    if calls != [] {
      var init, c := calls[..|calls| - 1], calls[|calls| - 1];
      TablesStayTogether(init, start, c.cleanAt);
      var before := SweptAfter(init, start);
      CleanedStays(before.0, After(init), before.1, c.cleanAt, c);
      CheckAgrees(Cleaned(before.0, before.1, c.cleanAt).0, After(init), c);
      SweepKeeps(SweptAfter(calls, start).0, After(calls), SweptAfter(calls, start).0, c.now, clock);
    }
  }

  /** Over any run, the cleanup changes no answer. */
  lemma CleanupChangesNoAnswer(calls: seq<Call>, start: int, i: nat)
    requires ClockRuns(calls) && i < |calls|
    ensures SweptAnswerTo(calls, start, i) == AnswerTo(calls, i)
  {
    var init, c := calls[..i], calls[i];
    TablesStayTogether(init, start, c.cleanAt);
    var before := SweptAfter(init, start);
    CleanedStays(before.0, After(init), before.1, c.cleanAt, c);
    CheckAgrees(Cleaned(before.0, before.1, c.cleanAt).0, After(init), c);
  }
}
