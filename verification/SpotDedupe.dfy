/**
 The cluster client's spots: line splitting under any chunking of the stream, and the
 suppression of repeated spots through a table that a timer sweeps. The clock never goes back.
 */
module SpotDedupe {

  const DEDUPE_WINDOW_MS := 60_000

  // ---------------------------------------------------------------- suppression of repeats

  /** What happens to the table: a spot of some hash comes in, the sweep timer fires, the client disconnects. */
  datatype Event = Spot(hash: string, now: int) | Sweep(now: int) | Disconnect

  /** A spot given to the handlers. */
  datatype Emission = Emission(hash: string, at: int)

  /** The specification: what a session has emitted decides; a spot is emitted if and only if none of its hash
      was less than 60 s before. */
  predicate Fresh(session: seq<Emission>, hash: string, now: int) {
    forall i | 0 <= i < |session| :: session[i].hash == hash ==> session[i].at + 60_000 <= now
  }

  function Emitted(session: seq<Emission>, e: Event): seq<Emission> {
    if e.Spot? && Fresh(session, e.hash, e.now) then [Emission(e.hash, e.now)] else []
  }

  /** The emissions of the session after an event; disconnecting ends it. */
  function Next(session: seq<Emission>, e: Event): seq<Emission> {
    if e.Disconnect? then [] else session + Emitted(session, e)
  }

  function Session(es: seq<Event>): seq<Emission> {
    if es == [] then [] else Next(Session(es[..|es| - 1]), es[|es| - 1])
  }

  predicate Timely(es: seq<Event>) {
    forall i, j | 0 <= i < j < |es| :: !es[i].Disconnect? && !es[j].Disconnect? ==> es[i].now <= es[j].now
  }

  /** Same-hash emissions are at least 60 s apart. */
  predicate Apart(session: seq<Emission>) {
    forall i, j | 0 <= i < j < |session| && session[i].hash == session[j].hash ::
      session[j].at - session[i].at >= 60_000
  }

  lemma {:induction false} SessionApart(es: seq<Event>)
    ensures Apart(Session(es))
  {
    if es != [] { SessionApart(es[..|es| - 1]); }
  }

  /** Every reading of the clock is at most `clock`. */
  predicate UpTo(es: seq<Event>, clock: int) {
    forall i | 0 <= i < |es| :: !es[i].Disconnect? ==> es[i].now <= clock
  }

  lemma {:induction false} EmittedBefore(es: seq<Event>, clock: int)
    requires UpTo(es, clock)
    ensures forall i | 0 <= i < |Session(es)| :: Session(es)[i].at <= clock
  {
    if es != [] { EmittedBefore(es[..|es| - 1], clock); }
  }

  // ---------------------------------------------------------------- the table

  /** An emission of the hash suppresses others until then. */
  predicate Lasts(session: seq<Emission>, hash: string, until: int) {
    exists i | 0 <= i < |session| :: session[i].hash == hash && session[i].at + DEDUPE_WINDOW_MS == until
  }

  /** The table knows of a hash what matters: until when its latest emission suppresses others. */
  ghost predicate Knows(cache: map<string, int>, session: seq<Emission>, clock: int) {
    && (forall k {:trigger Lasts(session, k, cache[k])} | k in cache :: Lasts(session, k, cache[k]))
    && (forall i | 0 <= i < |session| ::
          session[i].at + DEDUPE_WINDOW_MS > clock ==>
            session[i].hash in cache && session[i].at + DEDUPE_WINDOW_MS <= cache[session[i].hash])
  }

  lemma KnowsEmission(cache: map<string, int>, session: seq<Emission>, clock: int, hash: string, now: int)
    requires Knows(cache, session, clock) && clock <= now && (hash in cache ==> cache[hash] <= now)
    ensures Knows(cache[hash := now + DEDUPE_WINDOW_MS], session + [Emission(hash, now)], now)
    ensures Fresh(session, hash, now)
  {
    var after, more := cache[hash := now + DEDUPE_WINDOW_MS], session + [Emission(hash, now)];
    forall k | k in after
      ensures Lasts(more, k, after[k])
    {
      if k == hash {
        assert more[|session|].hash == k;
      } else {
        assert Lasts(session, k, cache[k]);
        var i :| 0 <= i < |session| && session[i].hash == k && session[i].at + DEDUPE_WINDOW_MS == cache[k];
        assert more[i].hash == k;
      }
    }
  }

  lemma KnowsSweep(cache: map<string, int>, after: map<string, int>, session: seq<Emission>, clock: int, now: int)
    requires Knows(cache, session, clock) && clock <= now
    requires after == map k | k in cache && cache[k] > now :: cache[k]
    ensures Knows(after, session, now)
  {
  }

  /** The entries that have not expired. */
  method SweepTable(cache: map<string, int>, now: int) returns (r: map<string, int>)
    ensures r == map k | k in cache && cache[k] > now :: cache[k]
  {
    var keys := cache.Keys;
    r := cache;
    while keys != {}
      invariant keys <= r.Keys && r.Keys <= cache.Keys
      invariant forall k :: k in r ==> r[k] == cache[k] && (k in keys || r[k] > now)
      invariant forall k :: k in cache && k !in r ==> cache[k] <= now
      decreases keys
    {
      var key :| key in keys;
      if r[key] <= now { r := r - {key}; }
      keys := keys - {key};
    }
  }

  // ---------------------------------------------------------------- runs of the table

  /** The table and what it let through in this session. */
  datatype Table = Table(cache: map<string, int>, passed: seq<Emission>)

  predicate Suppresses(t: Table, hash: string, now: int) { hash in t.cache && t.cache[hash] > now }

  /** What the client does with an event. */
  function TableStep(t: Table, e: Event): Table {
    match e
    case Spot(hash, now) =>
      if Suppresses(t, hash, now) then t
      else Table(t.cache[hash := now + DEDUPE_WINDOW_MS], t.passed + [Emission(hash, now)])
    case Sweep(now) => t.(cache := map k | k in t.cache && t.cache[k] > now :: t.cache[k])
    case Disconnect => Table(map[], [])
  }

  function TableRun(es: seq<Event>): Table {
    if es == [] then Table(map[], []) else TableStep(TableRun(es[..|es| - 1]), es[|es| - 1])
  }

  lemma KnowsStep(t: Table, e: Event, clock: int)
    requires Knows(t.cache, t.passed, clock) && (!e.Disconnect? ==> clock <= e.now)
    ensures var u := TableStep(t, e);
            Knows(u.cache, u.passed, if e.Disconnect? then clock else e.now) && u.passed == Next(t.passed, e)
    ensures e.Spot? ==> (Suppresses(t, e.hash, e.now) <==> !Fresh(t.passed, e.hash, e.now))
  {
    assert t.passed + [] == t.passed;
    match e
    case Spot(hash, now) =>
      if hash in t.cache { assert Lasts(t.passed, hash, t.cache[hash]); }
      if !Suppresses(t, hash, now) { KnowsEmission(t.cache, t.passed, clock, hash, now); }
    case Sweep(now) => KnowsSweep(t.cache, TableStep(t, e).cache, t.passed, clock, now);
    case Disconnect =>
  }

  /** In every run, sweeps and disconnections included, the table lets through what the specification emits. */
  lemma {:induction false} TableIsSession(es: seq<Event>, clock: int)
    requires Timely(es) && UpTo(es, clock)
    ensures var t := TableRun(es);
            t.passed == Session(es) && Knows(t.cache, t.passed, clock)
  {
    if es != [] {
      var init, e := es[..|es| - 1], es[|es| - 1];
      var before := if e.Disconnect? then clock else e.now;
      forall i | 0 <= i < |init|
        ensures !init[i].Disconnect? ==> init[i].now <= before
      {
        assert init[i] == es[i];
      }
      TableIsSession(init, before);
      KnowsStep(TableRun(init), e, before);
    }
  }

  /** Over every run of the table, the spots of one hash that a session lets through are at least 60 s apart. */
  lemma EmissionsApart(es: seq<Event>, clock: int)
    requires Timely(es) && UpTo(es, clock)
    ensures Apart(TableRun(es).passed)
  {
    TableIsSession(es, clock);
    SessionApart(es);
  }

  /** After every run of the table, a spot is suppressed if and only if it has a twin: a spot of its hash let
      through in this session, not later and less than 60 s earlier. */
  lemma SuppressedIffTwin(es: seq<Event>, hash: string, now: int)
    requires Timely(es) && UpTo(es, now)
    ensures var t := TableRun(es);
            Suppresses(t, hash, now) <==>
            exists i | 0 <= i < |t.passed| :: t.passed[i].hash == hash && 0 <= now - t.passed[i].at < 60_000
  {
    TableIsSession(es, now);
    EmittedBefore(es, now);
    var t := TableRun(es);
    if Suppresses(t, hash, now) { assert Lasts(t.passed, hash, t.cache[hash]); }
  }

  class ClusterDedupe {
    /** The hash of a spot and when its entry expires. */
    var dedupeCache: map<string, int>
    var spotsReceived: nat
    ghost var session: seq<Emission>
    ghost var clock: int

    ghost predicate Valid()
      reads this
    {
      Knows(dedupeCache, session, clock)
    }

    ghost function Now(): Table
      reads this
    {
      Table(dedupeCache, session)
    }

    constructor ()
      ensures Valid() && Now() == TableRun([])
    {
      dedupeCache, spotsReceived, session, clock := map[], 0, [], 0;
    }

    /** Emits the spot exactly if the session has emitted none of its hash in the last 60 s. */
    method HandleSpot(hash: string, now: int) returns (emitted: bool)
      requires Valid() && clock <= now
      modifies this
      ensures Valid() && clock == now
      ensures emitted <==> !Suppresses(old(Now()), hash, now)
      ensures emitted <==> Fresh(old(session), hash, now)
      ensures Now() == TableStep(old(Now()), Spot(hash, now)) && session == Next(old(session), Spot(hash, now))
      ensures spotsReceived == old(spotsReceived) + if emitted then 1 else 0
    {
      KnowsStep(Now(), Spot(hash, now), clock);
      clock := now;
      if hash in dedupeCache && dedupeCache[hash] > now { return false; }
      dedupeCache := dedupeCache[hash := now + DEDUPE_WINDOW_MS];
      spotsReceived := spotsReceived + 1;
      session := session + [Emission(hash, now)];
      return true;
    }

    /** The timer's sweep: it leaves the session as it is, and with it every later answer. */
    method Cleanup(now: int)
      requires Valid() && clock <= now
      modifies this`dedupeCache, this`clock
      ensures Valid() && clock == now
      ensures Now() == TableStep(old(Now()), Sweep(now)) && session == Next(old(session), Sweep(now))
    {
      var swept := SweepTable(dedupeCache, now);
      KnowsStep(Now(), Sweep(now), clock);
      clock, dedupeCache := now, swept;
    }

    method Disconnect()
      modifies this`dedupeCache, this`session
      ensures Valid()
      ensures Now() == TableStep(old(Now()), Event.Disconnect) && session == Next(old(session), Event.Disconnect)
    {
      dedupeCache, session := map[], [];
    }
  }

  // ---------------------------------------------------------------- lines

  predicate StartsCrlf(t: string) { |t| >= 2 && t[0] == '\r' && t[1] == '\n' }

  /** The text split at its line ends, LF or CRLF; the last part is what follows the last of them. */
  function SplitLines(t: string): (lines: seq<string>)
    ensures lines != []
  {
    if t == "" then [""]
    else if StartsCrlf(t) then [""] + SplitLines(t[2..])
    else if t[0] == '\n' then [""] + SplitLines(t[1..])
    else
      var lines := SplitLines(t[1..]);
      [[t[0]] + lines[0]] + lines[1..]
  }

  lemma {:induction false} OneLine(t: string)
    requires |SplitLines(t)| == 1
    ensures SplitLines(t)[0] == t
  {
    if t != "" { OneLine(t[1..]); }
  }

  function Init(lines: seq<string>): seq<string>
    requires lines != []
  {
    lines[..|lines| - 1]
  }

  function Last(lines: seq<string>): string
    requires lines != []
  {
    lines[|lines| - 1]
  }

  /** The text is these lines, each but the last with its line end: LF or CRLF, and a CR before an LF belongs to the
      line end. */
  predicate Reads(lines: seq<string>, t: string) {
    if lines == [] then false
    else if |lines| == 1 then t == lines[0] && '\n' !in t
    else
      && '\n' !in lines[0]
      && (|| (lines[0] + "\r\n" <= t && Reads(lines[1..], t[|lines[0]| + 2..]))
          || (&& lines[0] + "\n" <= t && (lines[0] != "" ==> lines[0][|lines[0]| - 1] != '\r')
              && Reads(lines[1..], t[|lines[0]| + 1..])))
  }

  lemma {:induction false} SplitReads(t: string)
    ensures Reads(SplitLines(t), t)
  {
    if t == "" {
    } else if StartsCrlf(t) {
      SplitReads(t[2..]);
      assert SplitLines(t)[1..] == SplitLines(t[2..]) && "" + "\r\n" <= t;
    } else if t[0] == '\n' {
      SplitReads(t[1..]);
      assert SplitLines(t)[1..] == SplitLines(t[1..]) && "" + "\n" <= t;
    } else {
      SplitReads(t[1..]);
      ReadsCons(t[0], SplitLines(t[1..]), t[1..]);
      assert t == [t[0]] + t[1..];
    }
  }

  lemma ReadsCons(c: char, lines: seq<string>, t: string)
    requires Reads(lines, t) && c != '\n' && !(c == '\r' && t != "" && t[0] == '\n')
    ensures Reads([[c] + lines[0]] + lines[1..], [c] + t)
  {
    var line, more := lines[0], [[c] + lines[0]] + lines[1..];
    assert more[1..] == lines[1..];
    if |lines| > 1 {
      if line + "\r\n" <= t && Reads(lines[1..], t[|line| + 2..]) {
        assert [c] + line + "\r\n" == [c] + (line + "\r\n") <= [c] + t;
        assert ([c] + t)[|line| + 3..] == t[|line| + 2..];
      } else {
        assert [c] + line + "\n" == [c] + (line + "\n") <= [c] + t;
        assert ([c] + t)[|line| + 2..] == t[|line| + 1..];
        if line == "" { assert t[0] == '\n'; }
      }
    }
  }

  /** Two pieces of a text: the rest of the first put before the second gives the lines of the whole. */
  predicate SplitsOn(a: string, b: string) {
    SplitLines(a + b) == Init(SplitLines(a)) + SplitLines(Last(SplitLines(a)) + b)
  }

  lemma SplitEnd(end: string, t: string)
    requires end == "\n" || end == "\r\n"
    ensures SplitLines(end + t) == [""] + SplitLines(t)
  {
    assert (end + t)[|end|..] == t;
  }

  lemma SplitChar(c: char, t: string)
    requires c != '\n' && !(c == '\r' && t != "" && t[0] == '\n')
    ensures SplitLines([c] + t) == Longer(c, SplitLines(t))
  {
    assert ([c] + t)[1..] == t;
  }

  function Longer(c: char, lines: seq<string>): seq<string>
    requires lines != []
  {
    [[c] + lines[0]] + lines[1..]
  }

  lemma FirstEmpty(lines: seq<string>, more: seq<string>)
    requires lines != []
    ensures [""] + (Init(lines) + more) == Init([""] + lines) + more && Last([""] + lines) == Last(lines)
  {
  }

  lemma FirstLonger(c: char, lines: seq<string>, more: seq<string>)
    requires |lines| >= 2
    ensures Longer(c, Init(lines) + more) == Init(Longer(c, lines)) + more && Last(Longer(c, lines)) == Last(lines)
  {
  }

  lemma LineEnd(end: string, rest: string, b: string)
    requires (end == "\n" || end == "\r\n") && SplitsOn(rest, b)
    ensures SplitsOn(end + rest, b)
  {
    SplitEnd(end, rest);
    SplitEnd(end, rest + b);
    assert end + rest + b == end + (rest + b);
    var lines := SplitLines(rest);
    FirstEmpty(lines, SplitLines(Last(lines) + b));
  }

  lemma Assemble(c: char, lines: seq<string>, more: seq<string>, inner: seq<string>, whole: seq<string>,
                 longer: seq<string>)
    requires |lines| >= 2 && inner == Init(lines) + more
    requires whole == Longer(c, inner) && longer == Longer(c, lines)
    ensures whole == Init(longer) + more && Last(longer) == Last(lines)
  {
    FirstLonger(c, lines, more);
  }

  lemma OneChar(a: string, rest: string, b: string)
    requires a != "" && |SplitLines(rest)| >= 2 && SplitsOn(rest, b)
    requires SplitLines(a) == Longer(a[0], SplitLines(rest))
    requires SplitLines(a + b) == Longer(a[0], SplitLines(rest + b))
    ensures SplitsOn(a, b)
  {
    var lines := SplitLines(rest);
    Assemble(a[0], lines, SplitLines(Last(lines) + b), SplitLines(rest + b), SplitLines(a + b), SplitLines(a));
  }

  lemma {:induction false} SplitOn(a: string, b: string)
    ensures SplitsOn(a, b)
  {
    var lines := SplitLines(a);
    if |lines| == 1 {
      OneLine(a);
      assert Init(lines) == [];
    } else {
      var n := if StartsCrlf(a) then 2 else 1;
      var end, rest := a[..n], a[n..];
      assert a == end + rest;
      SplitOn(rest, b);
      if StartsCrlf(a) || a[0] == '\n' {
        assert end == if StartsCrlf(a) then "\r\n" else "\n";
        LineEnd(end, rest, b);
      } else {
        NotLast(a);
        SplitChar(a[0], rest);
        SplitChar(a[0], rest + b);
        assert a == [a[0]] + rest && a + b == [a[0]] + (rest + b);
        OneChar(a, rest, b);
      }
    }
  }

  lemma NotLast(a: string)
    requires |SplitLines(a)| >= 2 && !StartsCrlf(a) && a[0] != '\n'
    ensures a[1..] != "" && |SplitLines(a[1..])| >= 2
  {
  }

  function Concat(chunks: seq<string>): string {
    if chunks == [] then "" else Concat(chunks[..|chunks| - 1]) + chunks[|chunks| - 1]
  }

  class ClusterStream {
    var buffer: string
    /** The lines handled so far. */
    var handled: seq<string>
    ghost var received: seq<string>

    /** Whatever the chunks, the handled lines and the buffer are the lines of the whole stream. */
    ghost predicate Valid()
      reads this
    {
      handled + [buffer] == SplitLines(Concat(received))
    }

    constructor ()
      ensures Valid() && received == []
    {
      buffer, handled, received := "", [], [];
    }

    method OnData(data: string)
      requires Valid()
      modifies this
      ensures Valid() && received == old(received) + [data]
    {
      SplitOn(Concat(received), data);
      assert SplitLines(Concat(received)) == handled + [buffer];
      assert (received + [data])[..|received|] == received;
      received := received + [data];
      buffer := buffer + data;
      ProcessBuffer();
    }

    method ProcessBuffer()
      modifies this`buffer, this`handled
      ensures handled + [buffer] == old(handled) + SplitLines(old(buffer))
    {
      var lines := SplitLines(buffer);
      assert lines == lines[..|lines| - 1] + [lines[|lines| - 1]];
      buffer := lines[|lines| - 1];
      lines := lines[..|lines| - 1];
      var i := 0;
      while i < |lines|
        invariant 0 <= i <= |lines| && handled == old(handled) + lines[..i]
        invariant lines + [buffer] == SplitLines(old(buffer))
      {
        handled := handled + [lines[i]];
        i := i + 1;
      }
      assert lines[..i] == lines;
    }
  }
}
