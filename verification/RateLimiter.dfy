/** The per-source token bucket in front of the handshake, and the sweep of idle entries. */
module RateLimiter {
  import opened Basics

  const NSEC_PER_SEC := 1_000_000_000
  const PACKETS_BURSTABLE := 5
  // A twentieth of a second, and PACKETS_BURSTABLE times that.
  const PACKET_COST := 50_000_000
  const TOKEN_MAX := 250_000_000

  // A network namespace and the 32 bits of an IPv4 address or the upper 64 of an IPv6 one.
  datatype Source = V4(net: nat, ip: nat) | V6(net: nat, ip: nat)

  datatype Level = Level(tokens: nat, last: nat)

  predicate Proper(l: Level, now: nat) {
    l.tokens <= TOKEN_MAX && l.last <= now
  }

  function Min(a: nat, b: nat): nat {
    if a <= b then a else b
  }

  // The tokens a packet finds; a source with no entry finds a full bucket.
  function Found(l: Level, now: nat): nat
    requires l.last <= now
  {
    Min(TOKEN_MAX, l.tokens + (now - l.last))
  }

  // What a packet leaves behind in an entry it finds, and in one it opens.
  function Lowered(l: Level, now: nat): Level
    requires l.last <= now
  {
    var found := Found(l, now);
    Level(if found >= PACKET_COST then found - PACKET_COST else found, now)
  }

  function Opened(now: nat): Level {
    Level(TOKEN_MAX - PACKET_COST, now)
  }

  type Levels = map<Source, Level>

  // `room` says the table is not full and memory is to be had.
  function Passes(t: Levels, s: Source, now: nat, room: bool): bool
    requires s in t ==> t[s].last <= now
  {
    if s in t then Found(t[s], now) >= PACKET_COST else room
  }

  function Charged(t: Levels, s: Source, now: nat, room: bool): Levels
    requires s in t ==> t[s].last <= now
  {
    if s in t then t[s := Lowered(t[s], now)] else if room then t[s := Opened(now)] else t
  }

  // What a sweep leaves alone. The idle time is an unsigned difference from a time read once, at the start of the
  // sweep: an entry touched since then looks idle for ages.
  predicate Stays(l: Level, asOf: nat) {
    l.last <= asOf && asOf - l.last <= NSEC_PER_SEC
  }

  function Swept(t: Levels, asOf: nat): Levels {
    map s | s in t && Stays(t[s], asOf) :: t[s]
  }

  // ---------------------------------------------------------------- the table, in place

  datatype Row = Row(source: Source, level: Level)

  function Find(bucket: seq<Row>, s: Source): (i: nat)
    ensures i <= |bucket|
    ensures i < |bucket| ==> bucket[i].source == s
    ensures forall j | 0 <= j < i :: bucket[j].source != s
  {
    if bucket == [] || bucket[0].source == s then 0
    else
      assert forall j | 1 <= j < |bucket| :: bucket[1..][j - 1] == bucket[j];
      1 + Find(bucket[1..], s)
  }

  predicate Once(bucket: seq<Row>) {
    forall i, j | 0 <= i < j < |bucket| :: bucket[i].source != bucket[j].source
  }

  // A bucket holds exactly the sources of `t` that hash to it.
  ghost predicate Holds(bucket: seq<Row>, t: Levels, hash: Source -> nat, b: nat) {
    Once(bucket)
    && (forall i | 0 <= i < |bucket| ::
      bucket[i].source in t && bucket[i].level == t[bucket[i].source] && hash(bucket[i].source) == b)
    && (forall s | s in t && hash(s) == b :: exists i :: 0 <= i < |bucket| && bucket[i].source == s)
  }

  method SweepBucket(bucket: seq<Row>, asOf: nat, ghost t: Levels, ghost hash: Source -> nat, ghost b: nat)
    returns (kept: seq<Row>)
    requires Holds(bucket, t, hash, b)
    ensures Holds(kept, Swept(t, asOf), hash, b)
  {
    kept := [];
    for i := 0 to |bucket|
      invariant forall k | 0 <= k < |kept| :: kept[k] in bucket[..i] && Stays(kept[k].level, asOf)
      invariant Once(kept)
      invariant forall j | 0 <= j < i && Stays(bucket[j].level, asOf) :: bucket[j] in kept
    {
      if Stays(bucket[i].level, asOf) {
        assert forall k | 0 <= k < |kept| :: kept[k].source != bucket[i].source;
        kept := kept + [bucket[i]];
      }
    }
    forall s | s in Swept(t, asOf) && hash(s) == b ensures exists i :: 0 <= i < |kept| && kept[i].source == s {
      var i :| 0 <= i < |bucket| && bucket[i].source == s;
      assert bucket[i] in kept;
    }
  }

  lemma FindDecides(bucket: seq<Row>, t: Levels, hash: Source -> nat, s: Source)
    requires Holds(bucket, t, hash, hash(s))
    ensures var i := Find(bucket, s);
      (s in t <==> i < |bucket|) && (i < |bucket| ==> bucket[i] == Row(s, t[s]))
  {
  }

  lemma HoldsUpdated(bucket: seq<Row>, t: Levels, hash: Source -> nat, s: Source, i: nat, level: Level)
    requires Holds(bucket, t, hash, hash(s)) && i < |bucket| && bucket[i].source == s
    ensures Holds(bucket[i := Row(s, level)], t[s := level], hash, hash(s))
  {
    var c := bucket[i := Row(s, level)];
    forall x | x in t && hash(x) == hash(s) ensures exists k :: 0 <= k < |c| && c[k].source == x {
      var k :| 0 <= k < |bucket| && bucket[k].source == x;
      assert c[k].source == x;
    }
  }

  lemma HoldsAdded(bucket: seq<Row>, t: Levels, hash: Source -> nat, s: Source, level: Level)
    requires Holds(bucket, t, hash, hash(s)) && s !in t
    ensures Holds([Row(s, level)] + bucket, t[s := level], hash, hash(s))
  {
    var c := [Row(s, level)] + bucket;
    forall x | x in t[s := level] && hash(x) == hash(s) ensures exists k :: 0 <= k < |c| && c[k].source == x {
      if x == s { assert c[0].source == x; } else {
        var k :| 0 <= k < |bucket| && bucket[k].source == x;
        assert c[k + 1].source == x;
      }
    }
  }

  lemma HoldsElsewhere(bucket: seq<Row>, t: Levels, hash: Source -> nat, b: nat, s: Source, level: Level)
    requires Holds(bucket, t, hash, b) && hash(s) != b
    ensures Holds(bucket, t[s := level], hash, b)
  {
  }

  class Limiter {
    const maxEntries: nat
    const hash: Source -> nat
    const buckets: array<seq<Row>>
    ghost var levels: Levels
    // Entries counted, among them `retired` ones swept but not yet freed.
    var total: nat
    ghost var retired: nat

    ghost predicate Valid(now: nat)
      reads this, buckets
    {
      Indexed(now) && total == |levels| + retired
    }

    ghost function View(): Table
      reads this
    {
      Table(levels, retired)
    }

    ghost predicate Indexed(now: nat)
      reads this, buckets
    {
      buckets.Length > 0
      && (forall s | s in levels :: hash(s) < buckets.Length && Proper(levels[s], now))
      && (forall b | 0 <= b < buckets.Length :: Holds(buckets[b], levels, hash, b))
    }

    constructor (size: nat, hash: Source -> nat)
      requires size > 0
      ensures Valid(0) && levels == map[] && fresh(buckets) && buckets.Length == size && this.hash == hash
        && maxEntries == size * 8
    {
      this.hash := hash;
      buckets := new seq<Row>[size](_ => []);
      levels, total, retired, maxEntries := map[], 0, 0, size * 8;
    }

    // Writes one bucket and the level it now holds.
    method Store(s: Source, level: Level, bucket: seq<Row>, now: nat)
      requires Indexed(now) && hash(s) < buckets.Length && Proper(level, now)
      requires Holds(bucket, levels[s := level], hash, hash(s))
      modifies this`levels, buckets
      ensures Indexed(now) && levels == old(levels)[s := level]
    {
      forall b | 0 <= b < buckets.Length && b != hash(s) ensures Holds(buckets[b], levels[s := level], hash, b) {
        HoldsElsewhere(buckets[b], levels, hash, b, s, level);
      }
      hide Holds;
      buckets[hash(s)] := bucket;
      levels := levels[s := level];
    }

    method Allow(s: Source, now: nat, memory: bool) returns (ok: bool)
      requires Valid(now) && hash(s) < buckets.Length
      modifies this, buckets
      ensures Valid(now)
      ensures var room := Room(old(View()), maxEntries, memory);
        ok == Passes(old(levels), s, now, room) && levels == Charged(old(levels), s, now, room)
          && retired == old(retired)
    {
      hide Holds;
      var bucket := buckets[hash(s)];
      FindDecides(bucket, levels, hash, s);
      var i := Find(bucket, s);
      if i < |bucket| {
        var entry := bucket[i].level;
        var tokens := Min(TOKEN_MAX, entry.tokens + (now - entry.last));
        ok := tokens >= PACKET_COST;
        var level := Level(if ok then tokens - PACKET_COST else tokens, now);
        HoldsUpdated(bucket, levels, hash, s, i, level);
        Store(s, level, bucket[i := Row(s, level)], now);
        assert levels.Keys == old(levels).Keys;
        return;
      }
      total := total + 1;
      if total > maxEntries || !memory {
        total := total - 1;
        return false;
      }
      var level := Level(TOKEN_MAX - PACKET_COST, now);
      HoldsAdded(bucket, levels, hash, s, level);
      Store(s, level, [Row(s, level)] + bucket, now);
      return true;
    }

    // What has not stayed leaves the table; it is counted until it is freed.
    method Sweep(asOf: nat, ghost now: nat)
      requires Valid(now)
      modifies this`levels, this`retired, buckets
      ensures Valid(now) && levels == Swept(old(levels), asOf) && View() == Retire(old(View()), asOf)
    {
      hide Holds;
      ghost var was := levels;
      for b := 0 to buckets.Length
        invariant levels == was && AllProper(was, now)
        invariant forall c | 0 <= c < b :: Holds(buckets[c], Swept(was, asOf), hash, c)
        invariant forall c | b <= c < buckets.Length :: Holds(buckets[c], was, hash, c)
      {
        buckets[b] := SweepBucket(buckets[b], asOf, was, hash, b);
      }
      levels := Swept(was, asOf);
      SubMap(levels, was);
      retired := total - |levels|;
    }

    method Free(ghost now: nat)
      requires Valid(now) && retired > 0
      modifies this`total, this`retired
      ensures Valid(now) && View() == old(View()).(retired := old(retired) - 1)
    {
      total := total - 1;
      retired := retired - 1;
    }
  }

  predicate AllProper(t: Levels, now: nat) {
    forall s | s in t :: Proper(t[s], now)
  }

  lemma {:induction false} SubMap(a: Levels, b: Levels)
    requires a.Keys <= b.Keys
    ensures |a| <= |b|
  {
    SubsetSize(a.Keys, b.Keys);
  }

  // ---------------------------------------------------------------- what a sweep changes

  // The table that was swept misses only sources whose bucket has filled up again.
  ghost predicate Alike(kept: Levels, swept: Levels, now: nat) {
    AllProper(kept, now) && swept.Keys <= kept.Keys
    && (forall s | s in swept :: swept[s] == kept[s])
    && (forall s | s in kept && s !in swept :: Found(kept[s], now) == TOKEN_MAX)
  }

  // An entry touched within the last second stays.
  lemma SweepSpares(t: Levels, s: Source, now: nat)
    requires s in t && t[s].last <= now <= t[s].last + 1_000_000_000
    ensures s in Swept(t, now) && Swept(t, now)[s] == t[s]
  {
  }

  lemma SweepAlike(kept: Levels, swept: Levels, now: nat)
    requires Alike(kept, swept, now)
    ensures Alike(kept, Swept(swept, now), now)
  {
  }

  // The entries counted against the maximum: those listed, and those swept but not yet freed.
  datatype Table = Table(levels: Levels, retired: nat)

  predicate Room(t: Table, max: nat, memory: bool) {
    |t.levels| + t.retired < max && memory
  }

  // What a packet of s may find when sweeping makes no difference to it: a source still counted by the table never
  // swept passes there or not by its level, so a swept one must find room to come back; a source counted by neither
  // must find room in both or in neither.
  predicate Indifferent(kept: Levels, swept: Levels, s: Source, roomKept: bool, roomSwept: bool) {
    if s in kept then s !in swept ==> roomSwept else roomKept == roomSwept
  }

  lemma AllowAlike(kept: Levels, swept: Levels, s: Source, now: nat, roomKept: bool, roomSwept: bool)
    requires Alike(kept, swept, now)
    ensures Passes(kept, s, now, roomKept) == Passes(swept, s, now, roomSwept)
      <==> Indifferent(kept, swept, s, roomKept, roomSwept)
    ensures Indifferent(kept, swept, s, roomKept, roomSwept) ==>
      Alike(Charged(kept, s, now, roomKept), Charged(swept, s, now, roomSwept), now)
  {
  }

  // Packets one at a time, each with memory to be had or not; sweeps by the time they are made; and the freeing of
  // an entry that was swept.
  datatype Event = Packet(s: Source, now: nat, memory: bool) | Idle(now: nat) | Free(now: nat)

  predicate InOrder(events: seq<Event>, now: nat)
    decreases |events|
  {
    events == [] || (now <= events[0].now && InOrder(events[1..], events[0].now))
  }

  function Retire(t: Table, now: nat): (u: Table)
    ensures |u.levels| + u.retired == |t.levels| + t.retired
  {
    var rest := Swept(t.levels, now);
    SubMap(rest, t.levels);
    Table(rest, t.retired + |t.levels| - |rest|)
  }

  function After(t: Table, e: Event, max: nat, sweeping: bool): Table
    requires AllProper(t.levels, e.now)
  {
    match e
    case Packet(s, n, memory) => t.(levels := Charged(t.levels, s, n, Room(t, max, memory)))
    case Idle(n) => if sweeping then Retire(t, n) else t
    case Free(_) => if t.retired > 0 then t.(retired := t.retired - 1) else t
  }

  // The answers given when the sweeps in the stream are carried out, or skipped.
  function Answers(t: Table, events: seq<Event>, max: nat, sweeping: bool, now: nat): seq<bool>
    requires AllProper(t.levels, now) && InOrder(events, now)
    decreases |events|
  {
    if events == [] then []
    else
      var e := events[0];
      var answer := if e.Packet? then [Passes(t.levels, e.s, e.now, Room(t, max, e.memory))] else [];
      answer + Answers(After(t, e, max, sweeping), events[1..], max, sweeping, e.now)
  }

  // Every packet of a source swept away finds room, and every packet of a source counted by neither table finds room
  // in both or in neither.
  predicate Roomy(kept: Table, swept: Table, events: seq<Event>, max: nat, now: nat)
    requires AllProper(kept.levels, now) && AllProper(swept.levels, now) && InOrder(events, now)
    decreases |events|
  {
    events == []
    || (var e := events[0];
        (e.Packet? ==>
          Indifferent(kept.levels, swept.levels, e.s, Room(kept, max, e.memory), Room(swept, max, e.memory)))
        && Roomy(After(kept, e, max, false), After(swept, e, max, true), events[1..], max, e.now))
  }

  lemma AfterAlike(kept: Table, swept: Table, e: Event, max: nat)
    requires Alike(kept.levels, swept.levels, e.now)
    requires e.Packet? ==>
      Indifferent(kept.levels, swept.levels, e.s, Room(kept, max, e.memory), Room(swept, max, e.memory))
    ensures Alike(After(kept, e, max, false).levels, After(swept, e, max, true).levels, e.now)
  {
    match e
    case Packet(s, n, memory) =>
      AllowAlike(kept.levels, swept.levels, s, n, Room(kept, max, memory), Room(swept, max, memory));
    case Idle(n) => SweepAlike(kept.levels, swept.levels, n);
    case Free(_) =>
  }

  // Every packet of a run gets the answer it would have got had nothing ever been swept, exactly when its room is
  // such that sweeping makes no difference to it.
  lemma {:induction false} InvisibleExactly(kept: Table, swept: Table, events: seq<Event>, max: nat, now: nat)
    requires Alike(kept.levels, swept.levels, now) && InOrder(events, now)
    ensures AllProper(swept.levels, now)
    ensures Answers(kept, events, max, false, now) == Answers(swept, events, max, true, now)
      <==> Roomy(kept, swept, events, max, now)
    decreases |events|
  {
    if events != [] {
      var e, rest := events[0], events[1..];
      var n := e.now;
      assert Alike(kept.levels, swept.levels, n);
      var k, w := After(kept, e, max, false), After(swept, e, max, true);
      if e.Packet? {
        var roomKept, roomSwept := Room(kept, max, e.memory), Room(swept, max, e.memory);
        var a, b := Passes(kept.levels, e.s, n, roomKept), Passes(swept.levels, e.s, n, roomSwept);
        AllowAlike(kept.levels, swept.levels, e.s, n, roomKept, roomSwept);
        hide Alike, Passes, Indifferent, Room, After;
        if a == b {
          AfterAlike(kept, swept, e, max);
          InvisibleExactly(k, w, rest, max, n);
          SameTail(a, Answers(k, rest, max, false, n), Answers(w, rest, max, true, n));
        } else {
          assert Answers(kept, events, max, false, now)[0] == a && Answers(swept, events, max, true, now)[0] == b;
        }
      } else {
        hide Alike, Room, After;
        AfterAlike(kept, swept, e, max);
        InvisibleExactly(k, w, rest, max, n);
        var x, y := Answers(k, rest, max, false, n), Answers(w, rest, max, true, n);
        assert [] + x == x && [] + y == y;
      }
    }
  }

  lemma SameTail(a: bool, x: seq<bool>, y: seq<bool>)
    ensures [a] + x == [a] + y <==> x == y
  {
    if [a] + x == [a] + y { assert x == ([a] + x)[1..] == ([a] + y)[1..] == y; }
  }

  // A full table in which s has been silent for more than a second.
  ghost predicate FullWith(t: Table, max: nat, s: Source, now: nat) {
    AllProper(t.levels, now) && |t.levels| + t.retired == max && s in t.levels
    && t.levels[s].last + 1_000_000_000 < now
  }

  lemma OnePacket(t: Table, s: Source, now: nat, max: nat, memory: bool, sweeping: bool)
    requires AllProper(t.levels, now)
    ensures Answers(t, [Packet(s, now, memory)], max, sweeping, now)
      == [Passes(t.levels, s, now, Room(t, max, memory))]
  {
    var e := [Packet(s, now, memory)];
    assert e[1..] == [];
    assert Answers(After(t, e[0], max, sweeping), e[1..], max, sweeping, now) == [];
  }

  lemma OneOther(t: Table, e: Event, events: seq<Event>, max: nat, sweeping: bool)
    requires AllProper(t.levels, e.now) && !e.Packet? && InOrder(events, e.now)
    ensures AllProper(After(t, e, max, sweeping).levels, e.now) && InOrder([e] + events, e.now)
    ensures Answers(t, [e] + events, max, sweeping, e.now)
      == Answers(After(t, e, max, sweeping), events, max, sweeping, e.now)
  {
    assert ([e] + events)[1..] == events;
  }

  // Sweeping can cost a packet: a source swept from a full table is refused when it comes back before its old entry
  // is freed.
  lemma SweepShows(t: Table, max: nat, s: Source, now: nat)
    requires FullWith(t, max, s, now)
    ensures var events := [Idle(now)] + [Packet(s, now, true)];
      InOrder(events, now) && Answers(t, events, max, false, now) == [true]
        && Answers(t, events, max, true, now) == [false]
  {
    var packet := [Packet(s, now, true)];
    OneOther(t, Idle(now), packet, max, false);
    OneOther(t, Idle(now), packet, max, true);
    OnePacket(t, s, now, max, true, false);
    OnePacket(Retire(t, now), s, now, max, true, true);
    hide Answers;
  }

  // And it can gain one: a new source is let in where an idle one has been swept and freed.
  lemma SweepMakesRoom(t: Table, max: nat, s: Source, b: Source, now: nat)
    requires FullWith(t, max, s, now) && t.retired == 0 && b !in t.levels
    ensures var events := [Idle(now)] + ([Free(now)] + [Packet(b, now, true)]);
      InOrder(events, now) && Answers(t, events, max, false, now) == [false]
        && Answers(t, events, max, true, now) == [true]
  {
    var packet := [Packet(b, now, true)];
    var swept := Retire(t, now);
    assert swept.retired > 0 by {
      assert s !in swept.levels;
      SubMap(swept.levels, t.levels - {s});
    }
    OneOther(t, Free(now), packet, max, false);
    OneOther(t, Idle(now), [Free(now)] + packet, max, false);
    OneOther(swept, Free(now), packet, max, true);
    OneOther(t, Idle(now), [Free(now)] + packet, max, true);
    OnePacket(t, b, now, max, true, false);
    OnePacket(swept.(retired := swept.retired - 1), b, now, max, true, true);
    hide Answers;
  }

  function One(b: bool): nat {
    if b then 1 else 0
  }

  // ---------------------------------------------------------------- the answers, from the answers before them

  // A packet of one source and what became of it.
  datatype Past = Past(now: nat, passed: bool)

  function Passed(h: seq<Past>): nat {
    if h == [] then 0 else Passed(h[..|h| - 1]) + One(h[|h| - 1].passed)
  }

  // Five at once and twenty a second: what may pass in a stretch of time, in nanoseconds.
  function Quota(stretch: nat): nat {
    5 + 20 * stretch / 1_000_000_000
  }

  predicate Ordered(h: seq<Past>, now: nat) {
    (forall i, j | 0 <= i <= j < |h| :: h[i].now <= h[j].now) && (forall i | 0 <= i < |h| :: h[i].now <= now)
  }

  // With one more packet now, no stretch of time that ends now would hold more than its quota.
  predicate Within(h: seq<Past>, now: nat)
    requires Ordered(h, now)
  {
    forall j | 0 <= j < |h| :: Passed(h[j..]) + 1 <= Quota(now - h[j].now)
  }

  // The bucket as its history tells it.
  function Tokens(h: seq<Past>, now: nat): int {
    if h == [] then TOKEN_MAX
    else
      var n := |h| - 1;
      var left := Tokens(h[..n], h[n].now) - PACKET_COST * One(h[n].passed) + (now - h[n].now);
      if left < TOKEN_MAX then left else TOKEN_MAX
  }

  lemma PassedBack(h: seq<Past>, j: nat)
    requires j < |h|
    ensures var n := |h| - 1; Passed(h[j..]) == Passed(h[..n][j..]) + One(h[n].passed)
  {
    var n := |h| - 1;
    assert h[j..][..n - j] == h[..n][j..] && h[j..][n - j] == h[n];
  }

  // What the bucket would hold had it been full at packet j.
  function Since(h: seq<Past>, now: nat, j: nat): int
    requires j <= |h|
  {
    if j == |h| then TOKEN_MAX else TOKEN_MAX + (now - h[j].now) - PACKET_COST * Passed(h[j..])
  }

  lemma SinceBack(h: seq<Past>, now: nat, j: nat)
    requires j < |h|
    ensures var n := |h| - 1;
      Since(h, now, j) == Since(h[..n], h[n].now, j) - PACKET_COST * One(h[n].passed) + (now - h[n].now)
  {
    PassedBack(h, j);
    var n := |h| - 1;
    if j == n { assert h[..n][j..] == []; }
  }

  // The bucket holds the least of these.
  lemma {:induction false} TokensLeast(h: seq<Past>, now: nat) returns (k: nat)
    ensures k <= |h| && Tokens(h, now) == Since(h, now, k)
    ensures forall j: nat | j <= |h| :: Tokens(h, now) <= Since(h, now, j)
  {
    var n := |h| - 1;
    if h == [] {
      k := 0;
    } else {
      k := TokensLeast(h[..n], h[n].now);
      forall j: nat | j < |h| ensures Tokens(h, now) <= Since(h, now, j) { SinceBack(h, now, j); }
      SinceBack(h, now, k);
      if Tokens(h, now) != Since(h, now, k) { k := |h|; }
    }
  }

  lemma QuotaCost(passes: nat, stretch: nat)
    ensures passes + 1 <= Quota(stretch) <==> TOKEN_MAX + stretch - PACKET_COST * passes >= PACKET_COST
  {
  }

  // There is a packet's worth in it exactly when every stretch has room for one more.
  lemma TokensWithin(h: seq<Past>, now: nat)
    requires Ordered(h, now)
    ensures Tokens(h, now) >= PACKET_COST <==> Within(h, now)
  {
    var k := TokensLeast(h, now);
    forall j: nat | j < |h|
      ensures Since(h, now, j) >= PACKET_COST <==> Passed(h[j..]) + 1 <= Quota(now - h[j].now)
    {
      QuotaCost(Passed(h[j..]), now - h[j].now);
    }
    if !Within(h, now) {
      var j :| 0 <= j < |h| && !(Passed(h[j..]) + 1 <= Quota(now - h[j].now));
      assert Tokens(h, now) <= Since(h, now, j);
    }
  }

  // One source's packets in a run, with the answers they got.
  function History(events: seq<Event>, answers: seq<bool>, s: Source): seq<Past> {
    if events == [] then []
    else
      var n, m := |events| - 1, |answers| - 1;
      var e := events[n];
      if !e.Packet? then History(events[..n], answers, s)
      else if answers == [] then []
      else History(events[..n], answers[..m], s) + if e.s == s then [Past(e.now, answers[m])] else []
  }

  function TableAfter(t: Table, events: seq<Event>, max: nat, sweeping: bool, now: nat): Table
    requires AllProper(t.levels, now) && InOrder(events, now)
    decreases |events|
  {
    if events == [] then t
    else TableAfter(After(t, events[0], max, sweeping), events[1..], max, sweeping, events[0].now)
  }

  function TimeAfter(events: seq<Event>, now: nat): nat {
    if events == [] then now else events[|events| - 1].now
  }

  // What a bucket's entry, or the lack of one, says of the history.
  ghost predicate Tells(t: Table, s: Source, h: seq<Past>, now: nat) {
    Ordered(h, now) && AllProper(t.levels, now)
    && Tokens(h, now) == if s in t.levels then Found(t.levels[s], now) else TOKEN_MAX
  }

  lemma TokensLater(h: seq<Past>, now: nat, later: nat)
    requires now <= later && Ordered(h, now) && Tokens(h, now) <= TOKEN_MAX
    ensures var filled := Tokens(h, now) + (later - now);
      Tokens(h, later) == if filled < TOKEN_MAX then filled else TOKEN_MAX
  {
  }

  lemma TellsLater(t: Table, s: Source, h: seq<Past>, now: nat, later: nat)
    requires Tells(t, s, h, now) && now <= later
    ensures Tells(t, s, h, later)
  {
    TokensLater(h, now, later);
  }

  lemma TokensNext(h: seq<Past>, now: nat, passed: bool)
    requires Ordered(h, now)
    ensures var left := Tokens(h, now) - PACKET_COST * One(passed);
      Tokens(h + [Past(now, passed)], now) == (if left < TOKEN_MAX then left else TOKEN_MAX)
      && Ordered(h + [Past(now, passed)], now)
  {
    assert (h + [Past(now, passed)])[..|h|] == h;
  }

  // The history grows by a packet of the source and by nothing else.
  function Grown(h: seq<Past>, t: Table, e: Event, max: nat, s: Source): seq<Past>
    requires e.Packet? ==> AllProper(t.levels, e.now)
  {
    if e.Packet? && e.s == s then h + [Past(e.now, Passes(t.levels, s, e.now, Room(t, max, e.memory)))] else h
  }

  // What a source would find, listed or not.
  function Finds(t: Levels, s: Source, now: nat): nat
    requires AllProper(t, now)
  {
    if s in t then Found(t[s], now) else TOKEN_MAX
  }

  lemma FindsLess(t: Levels, s: Source, now: nat, room: bool)
    requires AllProper(t, now)
    ensures AllProper(Charged(t, s, now, room), now)
    ensures Finds(Charged(t, s, now, room), s, now) == Finds(t, s, now) - PACKET_COST * One(Passes(t, s, now, room))
    ensures Finds(t, s, now) <= TOKEN_MAX
  {
  }

  lemma TellsCharged(t: Table, s: Source, h: seq<Past>, now: nat, room: bool)
    requires Tells(t, s, h, now)
    ensures var more := [Past(now, Passes(t.levels, s, now, room))];
      Tells(t.(levels := Charged(t.levels, s, now, room)), s, h + more, now)
  {
    TokensNext(h, now, Passes(t.levels, s, now, room));
    FindsLess(t.levels, s, now, room);
    hide Tokens, Ordered, Charged, Passes, Found, AllProper;
  }

  lemma TellsOther(t: Table, s: Source, h: seq<Past>, u: Source, now: nat, room: bool)
    requires Tells(t, s, h, now) && u != s
    ensures Tells(t.(levels := Charged(t.levels, u, now, room)), s, h, now)
  {
    hide Tokens, Ordered;
  }

  lemma TellsSwept(t: Table, s: Source, h: seq<Past>, now: nat)
    requires Tells(t, s, h, now)
    ensures Tells(Retire(t, now), s, h, now)
  {
    hide Tokens, Ordered;
  }

  lemma TellsNext(t: Table, s: Source, h: seq<Past>, e: Event, max: nat, sweeping: bool)
    requires Tells(t, s, h, e.now)
    ensures Tells(After(t, e, max, sweeping), s, Grown(h, t, e, max, s), e.now)
  {
    match e
    case Packet(u, now, memory) =>
      var room := Room(t, max, memory);
      if u == s { TellsCharged(t, s, h, now, room); } else { TellsOther(t, s, h, u, now, room); }
    case Idle(now) => TellsSwept(t, s, h, now);
    case Free(_) =>
  }

  lemma {:induction false} InOrderBack(events: seq<Event>, e: Event, now: nat)
    requires InOrder(events + [e], now)
    ensures InOrder(events, now) && now <= TimeAfter(events, now) <= e.now
    decreases |events|
  {
    var all := events + [e];
    if events != [] {
      assert all[1..] == events[1..] + [e] && all[0] == events[0];
      InOrderBack(events[1..], e, events[0].now);
    }
  }

  lemma AfterProper(t: Table, e: Event, max: nat, sweeping: bool)
    requires AllProper(t.levels, e.now)
    ensures AllProper(After(t, e, max, sweeping).levels, e.now)
  {
  }

  lemma {:induction false} AnswersBack(t: Table, events: seq<Event>, e: Event, max: nat, sweeping: bool, now: nat)
    requires AllProper(t.levels, now) && InOrder(events + [e], now)
    ensures InOrder(events, now)
    ensures var u := TableAfter(t, events, max, sweeping, now);
      AllProper(u.levels, e.now)
      && TableAfter(t, events + [e], max, sweeping, now) == After(u, e, max, sweeping)
      && Answers(t, events + [e], max, sweeping, now)
         == Answers(t, events, max, sweeping, now)
            + if e.Packet? then [Passes(u.levels, e.s, e.now, Room(u, max, e.memory))] else []
    decreases |events|
  {
    var all := events + [e];
    InOrderBack(events, e, now);
    if events == [] {
      assert all[1..] == [];
    } else {
      var d := events[0];
      assert all[1..] == events[1..] + [e] && all[0] == d;
      AfterProper(t, d, max, sweeping);
      hide After, AllProper, Passes, Room;
      AnswersBack(After(t, d, max, sweeping), events[1..], e, max, sweeping, d.now);
    }
  }

  lemma HistoryBack(events: seq<Event>, answers: seq<bool>, e: Event, s: Source, answer: bool)
    ensures History(events + [e], answers + if e.Packet? then [answer] else [], s)
      == History(events, answers, s) + if e.Packet? && e.s == s then [Past(e.now, answer)] else []
  {
    assert (events + [e])[..|events|] == events;
    if e.Packet? { assert (answers + [answer])[..|answers|] == answers; } else { assert answers + [] == answers; }
  }

  lemma TellsNew(t: Table, max: nat, sweeping: bool, now: nat, s: Source)
    requires AllProper(t.levels, now) && s !in t.levels
    ensures Tells(TableAfter(t, [], max, sweeping, now), s, History([], Answers(t, [], max, sweeping, now), s), now)
  {
  }

  // All along a run the entry of a source tells its history since it was new.
  lemma {:induction false} RunTells(t: Table, events: seq<Event>, max: nat, sweeping: bool, now: nat, s: Source)
    requires AllProper(t.levels, now) && InOrder(events, now) && s !in t.levels
    ensures var h := History(events, Answers(t, events, max, sweeping, now), s);
      Tells(TableAfter(t, events, max, sweeping, now), s, h, TimeAfter(events, now))
    decreases |events|
  {
    hide Tells, After, TableAfter, Answers, History, InOrder, Passes, Room;
    if events == [] {
      TellsNew(t, max, sweeping, now, s);
    } else {
      var front, e := events[..|events| - 1], events[|events| - 1];
      assert events == front + [e];
      AnswersBack(t, front, e, max, sweeping, now);
      InOrderBack(front, e, now);
      RunTells(t, front, max, sweeping, now, s);
      var u, answers := TableAfter(t, front, max, sweeping, now), Answers(t, front, max, sweeping, now);
      var h := History(front, answers, s);
      TellsLater(u, s, h, TimeAfter(front, now), e.now);
      TellsNext(u, s, h, e, max, sweeping);
      if e.Packet? {
        HistoryBack(front, answers, e, s, Passes(u.levels, e.s, e.now, Room(u, max, e.memory)));
        assert h + [] == h;
      } else {
        HistoryBack(front, answers, e, s, false);
        assert answers + [] == answers && h + [] == h;
      }
    }
  }

  // Over any run, sweeps and other sources included, a packet of a source that was new at the start passes exactly
  // when with it no stretch of time would hold more than five packets and twenty a second, given that it is listed
  // or can be; and never otherwise.
  lemma AnsweredByQuota(t: Table, events: seq<Event>, e: Event, max: nat, sweeping: bool, now: nat)
    requires AllProper(t.levels, now) && InOrder(events + [e], now) && e.Packet? && e.s !in t.levels
    ensures InOrder(events, now)
    ensures var u := TableAfter(t, events, max, sweeping, now);
      var before := Answers(t, events, max, sweeping, now);
      var h := History(events, before, e.s);
      Ordered(h, e.now)
      && Answers(t, events + [e], max, sweeping, now)
         == before + [Within(h, e.now) && (e.s in u.levels || Room(u, max, e.memory))]
  {
    AnswersBack(t, events, e, max, sweeping, now);
    InOrderBack(events, e, now);
    RunTells(t, events, max, sweeping, now, e.s);
    var u := TableAfter(t, events, max, sweeping, now);
    var h := History(events, Answers(t, events, max, sweeping, now), e.s);
    TellsLater(u, e.s, h, TimeAfter(events, now), e.now);
    hide TableAfter, Answers, History, InOrder, Tokens, Within, Room;
    TokensWithin(h, e.now);
  }

  // Every packet that passed had its place in the quota.
  ghost predicate Lawful(h: seq<Past>) {
    forall k | 0 <= k < |h| && h[k].passed :: Ordered(h[..k], h[k].now) && Within(h[..k], h[k].now)
  }

  lemma LawfulNext(h: seq<Past>, now: nat, passed: bool)
    requires Lawful(h) && (passed ==> Ordered(h, now) && Within(h, now))
    ensures Lawful(h + [Past(now, passed)])
  {
    var g := h + [Past(now, passed)];
    forall k | 0 <= k < |g| && g[k].passed ensures Ordered(g[..k], g[k].now) && Within(g[..k], g[k].now) {
      if k < |h| { assert g[..k] == h[..k] && g[k] == h[k]; } else { assert g[..k] == h; }
    }
  }

  lemma {:induction false} RunLawful(t: Table, events: seq<Event>, max: nat, sweeping: bool, now: nat, s: Source)
    requires AllProper(t.levels, now) && InOrder(events, now) && s !in t.levels
    ensures Lawful(History(events, Answers(t, events, max, sweeping, now), s))
    decreases |events|
  {
    if events != [] {
      var front, e := events[..|events| - 1], events[|events| - 1];
      assert events == front + [e];
      AnswersBack(t, front, e, max, sweeping, now);
      hide TableAfter, Answers, History, InOrder, Lawful, Within, After, AllProper, Passes, Room;
      RunLawful(t, front, max, sweeping, now, s);
      var answers := Answers(t, front, max, sweeping, now);
      var h := History(front, answers, s);
      if e.Packet? && e.s == s {
        AnsweredByQuota(t, front, e, max, sweeping, now);
        var answer := Answers(t, events, max, sweeping, now)[|answers|];
        HistoryBack(front, answers, e, s, answer);
        LawfulNext(h, e.now, answer);
      } else if e.Packet? {
        var answer := Answers(t, events, max, sweeping, now)[|answers|];
        HistoryBack(front, answers, e, s, answer);
        assert h + [] == h;
      } else {
        HistoryBack(front, answers, e, s, false);
        assert answers + [] == answers && h + [] == h;
      }
    }
  }

  lemma {:induction false} LawfulQuota(h: seq<Past>, now: nat, i: nat, j: nat)
    requires Lawful(h) && i < j <= |h| && Ordered(h, now)
    ensures h[i].now <= h[j - 1].now && Passed(h[i..j]) <= Quota(h[j - 1].now - h[i].now)
    decreases j
  {
    var g := h[i..j];
    assert g[..j - 1 - i] == h[i..j - 1] && g[j - 1 - i] == h[j - 1];
    if i < j - 1 {
      if h[j - 1].passed {
        assert h[..j - 1][i..] == h[i..j - 1] && h[..j - 1][i] == h[i];
      } else {
        LawfulQuota(h, now, i, j - 1);
        QuotaGrows(h[j - 2].now - h[i].now, h[j - 1].now - h[i].now);
      }
    } else {
      assert g[..0] == [];
    }
  }

  lemma QuotaGrows(a: nat, b: nat)
    requires a <= b
    ensures Quota(a) <= Quota(b)
  {
  }

  lemma TellsOrdered(t: Table, s: Source, h: seq<Past>, now: nat)
    requires Tells(t, s, h, now)
    ensures Ordered(h, now)
  {
  }

  // In any stretch of any run, whoever else sends, whatever is swept and however full the table is, a source that
  // was new at the start gets no more than its quota through.
  lemma QuotaKept(t: Table, events: seq<Event>, max: nat, sweeping: bool, now: nat, s: Source, i: nat, j: nat)
    requires AllProper(t.levels, now) && InOrder(events, now) && s !in t.levels
    requires i < j <= |History(events, Answers(t, events, max, sweeping, now), s)|
    ensures var h := History(events, Answers(t, events, max, sweeping, now), s);
      h[i].now <= h[j - 1].now && Passed(h[i..j]) <= Quota(h[j - 1].now - h[i].now)
  {
    hide History, Answers, TableAfter, InOrder, AllProper, Lawful, Quota, Passed, Tells, TimeAfter, Ordered;
    var h := History(events, Answers(t, events, max, sweeping, now), s);
    RunLawful(t, events, max, sweeping, now, s);
    RunTells(t, events, max, sweeping, now, s);
    TellsOrdered(TableAfter(t, events, max, sweeping, now), s, h, TimeAfter(events, now));
    LawfulQuota(h, TimeAfter(events, now), i, j);
  }

  // ---- a burst

  function Copies(e: Event, n: nat): seq<Event> {
    seq(n, _ => e)
  }

  function FirstFive(n: nat): seq<bool> {
    seq(n, i => i < 5)
  }

  lemma {:induction false} CopiesInOrder(e: Event, n: nat, now: nat)
    requires now <= e.now
    ensures InOrder(Copies(e, n), now)
    decreases n
  {
    if n > 0 {
      assert Copies(e, n)[1..] == Copies(e, n - 1);
      CopiesInOrder(e, n - 1, e.now);
    }
  }

  lemma {:induction false} FiveHistory(e: Event, n: nat)
    requires e.Packet?
    ensures History(Copies(e, n), FirstFive(n), e.s) == seq(n, i => Past(e.now, i < 5))
    decreases n
  {
    if n > 0 {
      assert Copies(e, n)[..n - 1] == Copies(e, n - 1) && FirstFive(n)[..n - 1] == FirstFive(n - 1);
      FiveHistory(e, n - 1);
    }
  }

  lemma {:induction false} FivePassed(now: nat, n: nat, j: nat)
    requires j <= n
    ensures Passed(seq(n, i => Past(now, i < 5))[j..]) == if n <= 5 then n - j else if j <= 5 then 5 - j else 0
    decreases n - j
  {
    var h := seq(n, i => Past(now, i < 5));
    if j < n {
      PassedBack(h, j);
      assert h[..n - 1] == seq(n - 1, i => Past(now, i < 5));
      FivePassed(now, n - 1, j);
    } else {
      assert h[j..] == [];
    }
  }

  lemma FiveWithin(now: nat, n: nat)
    ensures var h := seq(n, i => Past(now, i < 5)); Ordered(h, now) && (Within(h, now) <==> n < 5)
  {
    var h := seq(n, i => Past(now, i < 5));
    forall j | 0 <= j < n ensures Passed(h[j..]) + 1 <= Quota(now - h[j].now) <==> n < 5 || j > 0 {
      FivePassed(now, n, j);
    }
    if n >= 5 { assert !(Passed(h[0..]) + 1 <= Quota(now - h[0].now)); }
  }

  // Of the packets a new source sends at once into a table with room, exactly the first five pass.
  lemma {:induction false} FiveAtOnce(t: Table, e: Event, n: nat, max: nat, sweeping: bool)
    requires e.Packet? && AllProper(t.levels, e.now) && e.s !in t.levels && Room(t, max, e.memory)
    ensures InOrder(Copies(e, n), e.now) && Answers(t, Copies(e, n), max, sweeping, e.now) == FirstFive(n)
    ensures n > 0 ==> e.s in TableAfter(t, Copies(e, n), max, sweeping, e.now).levels
    decreases n
  {
    CopiesInOrder(e, n, e.now);
    if n > 0 {
      FiveAtOnce(t, e, n - 1, max, sweeping);
      var front := Copies(e, n - 1);
      assert Copies(e, n) == front + [e];
      AnsweredByQuota(t, front, e, max, sweeping, e.now);
      AnswersBack(t, front, e, max, sweeping, e.now);
      FiveHistory(e, n - 1);
      FiveWithin(e.now, n - 1);
      hide Answers, History, InOrder, Within, AllProper, Passes;
      assert FirstFive(n) == FirstFive(n - 1) + [n - 1 < 5];
    }
  }

  // ---- the limiter driven through a run

  // Only an entry that was swept is freed.
  predicate FreesDue(t: Table, events: seq<Event>, max: nat, now: nat)
    requires AllProper(t.levels, now) && InOrder(events, now)
    decreases |events|
  {
    events == []
    || ((events[0].Free? ==> t.retired > 0)
      && FreesDue(After(t, events[0], max, true), events[1..], max, events[0].now))
  }

  method HandleOne(l: Limiter, e: Event) returns (answer: seq<bool>)
    requires l.Valid(e.now) && (e.Packet? ==> l.hash(e.s) < l.buckets.Length) && (e.Free? ==> l.retired > 0)
    modifies l, l.buckets
    ensures l.Valid(e.now) && l.View() == After(old(l.View()), e, l.maxEntries, true)
    ensures answer == if e.Packet? then [Passes(old(l.levels), e.s, e.now, Room(old(l.View()), l.maxEntries, e.memory))]
      else []
  {
    answer := [];
    match e
    case Packet(s, now, memory) =>
      var ok := l.Allow(s, now, memory);
      answer := [ok];
    case Idle(now) => l.Sweep(now, now);
    case Free(now) => l.Free(now);
  }

  // Driven through any run, the limiter gives the answers that the quota decides.
  method Handle(l: Limiter, events: seq<Event>, ghost now: nat) returns (answers: seq<bool>)
    requires l.Valid(now) && InOrder(events, now) && FreesDue(l.View(), events, l.maxEntries, now)
    requires forall i | 0 <= i < |events| && events[i].Packet? :: l.hash(events[i].s) < l.buckets.Length
    modifies l, l.buckets
    ensures answers == Answers(old(l.View()), events, l.maxEntries, true, now)
    decreases |events|
  {
    if events == [] { return []; }
    ghost var t := l.View();
    ValidLater(l, now, events[0].now);
    hide Passes, Room, After;
    var first := HandleOne(l, events[0]);
    assert l.View() == After(t, events[0], l.maxEntries, true);
    var rest := Handle(l, events[1..], events[0].now);
    answers := first + rest;
  }

  lemma ValidLater(l: Limiter, now: nat, later: nat)
    requires l.Valid(now) && now <= later
    ensures l.Valid(later)
  {
  }

  // ---------------------------------------------------------------- many workers at once

  // One source's entries as several workers see them: the chain of listed entries, newest first, which is the order
  // in which a look meets them; and what each worker holds between its look and its lock. What other sources do
  // shows only in whether there is room.
  datatype Held = Seen(id: nat) | Missing | Stamped(at: nat)
  datatype Race = Race(chain: seq<nat>, level: map<nat, Level>, held: map<nat, Held>, made: nat, now: nat)

  // Look: a worker walks the bucket, unlocked. Act: it charges the entry it met, or makes one, stamped with the time,
  // without looking again. Insert: it lists the entry it made. Purge: a sweep that read its time at asOf.
  datatype Move =
    | Look(w: nat, now: nat)
    | Act(w: nat, now: nat, room: bool)
    | Insert(w: nat, now: nat)
    | Purge(asOf: nat, now: nat)

  predicate Enabled(r: Race, m: Move) {
    r.now <= m.now
    && match m
       case Look(w, _) => w !in r.held
       case Act(w, _, _) => w in r.held && !r.held[w].Stamped?
       case Insert(w, _) => w in r.held && r.held[w].Stamped?
       case Purge(asOf, now) => asOf <= now
  }

  predicate Listed(r: Race, id: nat) {
    r.chain != [] && r.chain[0] == id
  }

  ghost predicate Sound(r: Race) {
    (forall i | 0 <= i < |r.chain| :: r.chain[i] in r.level)
    && (forall w | w in r.held && r.held[w].Seen? :: r.held[w].id in r.level)
    && (forall w | w in r.held && r.held[w].Stamped? :: r.held[w].at <= r.now)
    && (forall id | id in r.level :: id < r.made && Proper(r.level[id], r.now))
  }

  function Remaining(chain: seq<nat>, level: map<nat, Level>, asOf: nat): (kept: seq<nat>)
    requires forall i | 0 <= i < |chain| :: chain[i] in level
    ensures forall i | 0 <= i < |kept| :: kept[i] in chain
    ensures chain != [] && Stays(level[chain[0]], asOf) ==> kept != [] && kept[0] == chain[0]
  {
    if chain == [] then []
    else if Stays(level[chain[0]], asOf) then [chain[0]] + Remaining(chain[1..], level, asOf)
    else Remaining(chain[1..], level, asOf)
  }

  ghost function Next(r: Race, m: Move): Race
    requires Sound(r) && Enabled(r, m)
  {
    var t := r.(now := m.now);
    match m
    case Look(w, _) => t.(held := r.held[w := if r.chain == [] then Missing else Seen(r.chain[0])])
    case Act(w, now, room) =>
      if r.held[w].Seen? then
        var id := r.held[w].id;
        t.(held := r.held - {w}, level := r.level[id := Lowered(r.level[id], now)])
      else if room then t.(held := r.held[w := Stamped(now)])
      else t.(held := r.held - {w})
    case Insert(w, _) =>
      t.(held := r.held - {w},
         chain := [r.made] + r.chain,
         level := r.level[r.made := Opened(r.held[w].at)],
         made := r.made + 1)
    case Purge(asOf, _) => t.(chain := Remaining(r.chain, r.level, asOf))
  }

  lemma NextSound(r: Race, m: Move)
    requires Sound(r) && Enabled(r, m)
    ensures Sound(Next(r, m))
  {
    var t := Next(r, m);
    if m.Purge? {
      forall i | 0 <= i < |t.chain| ensures t.chain[i] in t.level { assert t.chain[i] in r.chain; }
    } else if m.Insert? {
      forall i | 0 <= i < |t.chain| ensures t.chain[i] in t.level { if i > 0 { assert t.chain[i] == r.chain[i - 1]; } }
    }
  }

  ghost predicate Passing(r: Race, m: Move)
    requires Sound(r) && Enabled(r, m)
  {
    m.Insert? || (m.Act? && r.held[m.w].Seen? && Found(r.level[r.held[m.w].id], m.now) >= PACKET_COST)
  }

  // A second entry inserted beside one that is listed, or the listed one purged because it was touched after the
  // sweep read its time.
  ghost predicate Renews(r: Race, m: Move)
    requires Sound(r) && Enabled(r, m)
  {
    (m.Insert? && r.chain != [])
    || (m.Purge? && r.chain != [] && r.level[r.chain[0]].last > m.asOf)
  }

  // A pass charged to an entry that a look would no longer meet.
  ghost predicate Stray(r: Race, m: Move)
    requires Sound(r) && Enabled(r, m)
  {
    m.Act? && r.held[m.w].Seen? && !Listed(r, r.held[m.w].id) && Passing(r, m)
  }

  // An entry listed some time after it was stamped, which has begun to fill up again unseen.
  ghost predicate Late(r: Race, m: Move)
    requires Sound(r) && Enabled(r, m)
  {
    m.Insert? && r.held[m.w].at < m.now
  }

  datatype Count = Count(passes: nat, renewals: nat, strays: nat, late: nat, end: nat)

  ghost predicate Possible(r: Race, moves: seq<Move>)
    requires Sound(r)
    decreases |moves|
  {
    moves == [] || (Enabled(r, moves[0]) && (NextSound(r, moves[0]); Possible(Next(r, moves[0]), moves[1..])))
  }

  ghost function Tally(r: Race, moves: seq<Move>): Count
    requires Sound(r) && Possible(r, moves)
    decreases |moves|
  {
    if moves == [] then Count(0, 0, 0, 0, r.now)
    else
      NextSound(r, moves[0]);
      var m, c := moves[0], Tally(Next(r, moves[0]), moves[1..]);
      Count(c.passes + One(Passing(r, m)), c.renewals + One(Renews(r, m)), c.strays + One(Stray(r, m)),
            c.late + One(Late(r, m)), c.end)
  }

  // The tokens the next worker to look would find.
  ghost function Available(r: Race): nat
    requires Sound(r)
  {
    if r.chain == [] then TOKEN_MAX else Found(r.level[r.chain[0]], r.now)
  }

  lemma MoveCost(r: Race, m: Move)
    requires Sound(r) && Enabled(r, m)
    ensures Sound(Next(r, m))
    ensures Available(Next(r, m)) + PACKET_COST * One(Passing(r, m))
         <= Available(r) + (m.now - r.now) + TOKEN_MAX * One(Renews(r, m))
            + PACKET_COST * One(Stray(r, m)) + PACKET_COST * One(Late(r, m))
  {
    NextSound(r, m);
  }

  lemma {:induction false} TallyCost(r: Race, moves: seq<Move>)
    requires Sound(r) && Possible(r, moves)
    ensures var c := Tally(r, moves);
      r.now <= c.end
      && c.passes * PACKET_COST
         <= Available(r) + (c.end - r.now) + c.renewals * TOKEN_MAX + c.strays * PACKET_COST + c.late * PACKET_COST
    decreases |moves|
  {
    if moves != [] {
      MoveCost(r, moves[0]);
      TallyCost(Next(r, moves[0]), moves[1..]);
      hide Available, Passing, Renews, Stray, Late, Next, Sound, One;
    }
  }

  // In any stretch of time T of any run, whoever else sends and however full the table is, a source gets through at
  // most 5 + T / PACKET_COST packets, five more for each time its entry was duplicated or purged too early, one more
  // for each pass charged to an entry no longer in force, and one more for each entry listed late.
  lemma RateBound(r: Race, moves: seq<Move>)
    requires Sound(r) && Possible(r, moves)
    ensures var c := Tally(r, moves);
      r.now <= c.end
      && c.passes <= PACKETS_BURSTABLE * (1 + c.renewals) + c.strays + c.late + (c.end - r.now) / PACKET_COST
  {
    TallyCost(r, moves);
    assert Available(r) <= TOKEN_MAX;
    hide Tally, Available, Sound;
  }

  // ---------------------------------------------------------------- the bound is met

  ghost function Ended(r: Race, moves: seq<Move>): (t: Race)
    requires Sound(r) && Possible(r, moves)
    ensures Sound(t)
    decreases |moves|
  {
    if moves == [] then r
    else
      NextSound(r, moves[0]);
      Ended(Next(r, moves[0]), moves[1..])
  }

  ghost predicate Does(r: Race, moves: seq<Move>, passes: nat, renewals: nat, late: nat, t: Race) {
    Sound(r) && Possible(r, moves) && Ended(r, moves) == t && Tally(r, moves) == Count(passes, renewals, 0, late, t.now)
  }

  lemma {:induction false} DoesBoth(r: Race, a: seq<Move>, b: seq<Move>, p: nat, q: nat, u: nat, v: nat, x: nat, y: nat,
    s: Race, t: Race)
    requires Does(r, a, p, u, x, s) && Does(s, b, q, v, y, t)
    ensures Does(r, a + b, p + q, u + v, x + y, t)
    decreases |a|
  {
    if a == [] {
      assert a + b == b;
    } else {
      NextSound(r, a[0]);
      var m, r' := a[0], Next(r, a[0]);
      var c := Tally(r', a[1..]);
      assert Does(r', a[1..], c.passes, c.renewals, c.late, s);
      DoesBoth(r', a[1..], b, c.passes, q, c.renewals, v, c.late, y, s, t);
      assert (a + b)[0] == m && (a + b)[1..] == a[1..] + b;
    }
  }

  lemma DoesOne(r: Race, m: Move)
    requires Sound(r) && Enabled(r, m) && !Stray(r, m)
    ensures Does(r, [m], One(Passing(r, m)), One(Renews(r, m)), One(Late(r, m)), Next(r, m))
  {
    NextSound(r, m);
    assert [m][1..] == [];
  }

  // A source with k packets' worth left, seen by a worker that is free.
  ghost predicate Full(r: Race, w: nat, k: nat) {
    Sound(r) && w !in r.held && r.chain != [] && k <= PACKETS_BURSTABLE
    && Found(r.level[r.chain[0]], r.now) == k * PACKET_COST
  }

  // One packet: a look and a charge.
  function Single(w: nat, now: nat): seq<Move> {
    [Look(w, now)] + [Act(w, now, true)]
  }

  lemma SinglePasses(r: Race, w: nat, k: nat, now: nat) returns (t: Race)
    requires Sound(r) && w !in r.held && r.chain != [] && r.now <= now && k < PACKETS_BURSTABLE
    requires Found(r.level[r.chain[0]], now) == (k + 1) * PACKET_COST
    ensures Does(r, Single(w, now), 1, 0, 0, t) && Full(t, w, k) && t.held == r.held && t.now == now
  {
    var a := Next(r, Look(w, now));
    DoesOne(r, Look(w, now));
    t := Next(a, Act(w, now, true));
    DoesOne(a, Act(w, now, true));
    assert t.held == r.held;
    DoesBoth(r, [Look(w, now)], [Act(w, now, true)], 0, 1, 0, 0, 0, 0, a, t);
  }

  function Burst(w: nat, now: nat, k: nat): seq<Move>
    decreases k
  {
    if k == 0 then [] else Single(w, now) + Burst(w, now, k - 1)
  }

  lemma {:induction false} BurstPasses(r: Race, w: nat, k: nat) returns (t: Race)
    requires Full(r, w, k)
    ensures Does(r, Burst(w, r.now, k), k, 0, 0, t) && Full(t, w, 0) && t.held == r.held && t.now == r.now
    decreases k
  {
    if k == 0 {
      t := r;
    } else {
      var b := SinglePasses(r, w, k - 1, r.now);
      t := BurstPasses(b, w, k - 1);
      DoesBoth(r, Single(w, r.now), Burst(w, r.now, k - 1), 1, k - 1, 0, 0, 0, 0, b, t);
    }
  }

  // Workers from k on list their entries in turn, and packets follow on each until it is drained.
  function Rounds(k: nat, n: nat, now: nat, left: nat): seq<Move>
    requires k <= n
    decreases n - k
  {
    if k == n then [] else ([Insert(k, now)] + Burst(n, now, left)) + Rounds(k + 1, n, now, left)
  }

  // Workers from k on have each stamped an entry at the same time.
  ghost predicate Blind(r: Race, k: nat, n: nat, at: nat) {
    Sound(r) && n !in r.held && at <= r.now && forall w: nat | k <= w < n :: w in r.held && r.held[w] == Stamped(at)
  }

  // How many packets follow an entry's first one at once.
  function Left(at: nat, now: nat): nat {
    if at + PACKET_COST <= now then 5 else 4
  }

  // Stamped just now, or held up for the price of a packet.
  predicate Stamp(at: nat, now: nat) {
    at == now || at + PACKET_COST <= now
  }

  lemma RoundPasses(r: Race, k: nat, n: nat, at: nat, left: nat) returns (t: Race)
    requires Blind(r, k, n, at) && k < n && Stamp(at, r.now) && left == Left(at, r.now)
    ensures Does(r, [Insert(k, r.now)] + Burst(n, r.now, left), 1 + left, One(r.chain != []), One(at < r.now), t)
    ensures Blind(t, k + 1, n, at) && t.chain != [] && t.now == r.now && Full(t, n, 0)
  {
    var m := Insert(k, r.now);
    assert k in r.held && r.held[k] == Stamped(at);
    var a := Next(r, m);
    DoesOne(r, m);
    t := BurstPasses(a, n, left);
    DoesBoth(r, [m], Burst(n, r.now, left), 1, left, One(r.chain != []), 0, One(at < r.now), 0, a, t);
  }

  // All but the first of n entries listed are duplicates, and the first too if there was one.
  function Duplicates(r: Race, n: nat): nat {
    if r.chain == [] && n > 0 then n - 1 else n
  }

  function Lates(at: nat, now: nat, n: nat): nat {
    if at < now then n else 0
  }

  // Each round lets the first packet through and those that follow.
  function InRounds(left: nat, n: nat): nat {
    (1 + left) * n
  }

  lemma OneRoundMore(left: nat, n: nat)
    requires n > 0
    ensures InRounds(left, n) == 1 + left + InRounds(left, n - 1)
  {
  }

  lemma DoesNothing(r: Race)
    requires Sound(r)
    ensures Does(r, [], 0, 0, 0, r)
  {
  }

  lemma RoundJoins(r: Race, s: Race, t: Race, k: nat, n: nat, at: nat, left: nat)
    requires k < n && s.chain != [] && s.now == r.now
    requires Does(r, [Insert(k, r.now)] + Burst(n, r.now, left), 1 + left, One(r.chain != []), One(at < r.now), s)
    requires Does(s, Rounds(k + 1, n, s.now, left), InRounds(left, n - (k + 1)), Duplicates(s, n - (k + 1)),
                  Lates(at, s.now, n - (k + 1)), t)
    ensures Does(r, Rounds(k, n, r.now, left), InRounds(left, n - k), Duplicates(r, n - k), Lates(at, r.now, n - k), t)
  {
    OneRoundMore(left, n - k);
    hide Does, InRounds, Burst;
    var m := n - (k + 1);
    assert Duplicates(r, n - k) == One(r.chain != []) + Duplicates(s, m);
    assert Lates(at, r.now, n - k) == One(at < r.now) + Lates(at, r.now, m);
    DoesBoth(r, [Insert(k, r.now)] + Burst(n, r.now, left), Rounds(k + 1, n, r.now, left), 1 + left, InRounds(left, m),
             One(r.chain != []), Duplicates(s, m), One(at < r.now), Lates(at, r.now, m), s, t);
  }

  lemma {:induction false} RoundsPass(r: Race, k: nat, n: nat, at: nat, left: nat) returns (t: Race)
    requires Blind(r, k, n, at) && k <= n && Stamp(at, r.now) && left == Left(at, r.now)
    ensures k == n ==> t == r
    ensures Does(r, Rounds(k, n, r.now, left), InRounds(left, n - k), Duplicates(r, n - k), Lates(at, r.now, n - k), t)
    ensures t.now == r.now && (k < n ==> Full(t, n, 0))
    decreases n - k
  {
    if k == n {
      t := r;
      DoesNothing(r);
    } else {
      hide Does, Full, Blind, InRounds, Left, Stamp, Burst;
      var s := RoundPasses(r, k, n, at, left);
      t := RoundsPass(s, k + 1, n, at, left);
      RoundJoins(r, s, t, k, n, at, left);
    }
  }

  // One packet each time the price of one has come back.
  function Steady(w: nat, now: nat, k: nat): seq<Move>
    decreases k
  {
    if k == 0 then [] else Single(w, now + PACKET_COST) + Steady(w, now + PACKET_COST, k - 1)
  }

  lemma {:induction false} SteadyPasses(r: Race, w: nat, k: nat) returns (t: Race)
    requires Full(r, w, 0)
    ensures Does(r, Steady(w, r.now, k), k, 0, 0, t) && t.now == r.now + k * PACKET_COST
    decreases k
  {
    if k == 0 {
      t := r;
    } else {
      var now := r.now + PACKET_COST;
      var b := SinglePasses(r, w, 0, now);
      t := SteadyPasses(b, w, k - 1);
      DoesBoth(r, Single(w, now), Steady(w, now, k - 1), 1, k - 1, 0, 0, 0, 0, b, t);
    }
  }

  // However many duplicates there are and whether or not they are listed late, the bound for that many is reached: n
  // workers that had each stamped an entry before any was listed get five packets through each at once, or six if
  // they were held up in between, and after that one passes per price paid back.
  lemma BoundMet(r: Race, n: nat, at: nat, left: nat, k: nat) returns (t: Race)
    requires n > 0 && r.chain == [] && Blind(r, 0, n, at) && Stamp(at, r.now) && left == Left(at, r.now)
    ensures Does(r, Rounds(0, n, r.now, left) + Steady(n, r.now, k),
                 PACKETS_BURSTABLE * n + Lates(at, r.now, n) + k, n - 1, Lates(at, r.now, n), t)
    ensures t.now == r.now + k * PACKET_COST
  {
    var s := RoundsPass(r, 0, n, at, left);
    t := SteadyPasses(s, n, k);
    assert InRounds(left, n) == PACKETS_BURSTABLE * n + Lates(at, r.now, n);
    hide Does, Full, Blind, InRounds;
    DoesBoth(r, Rounds(0, n, r.now, left), Steady(n, r.now, k), InRounds(left, n), k, n - 1, 0,
             Lates(at, r.now, n), 0, s, t);
  }

  // Such a start can come about: nothing is listed, n workers look, and each stamps an entry.
  function Looks(n: nat): seq<Move> {
    if n == 0 then [] else Looks(n - 1) + [Look(n - 1, 0)]
  }

  function Stamps(n: nat): seq<Move> {
    if n == 0 then [] else Stamps(n - 1) + [Act(n - 1, 0, true)]
  }

  const NOTHING := Race([], map[], map[], 0, 0)

  lemma {:induction false} AllLook(n: nat) returns (t: Race)
    ensures Does(NOTHING, Looks(n), 0, 0, 0, t) && t.chain == [] && t.now == 0
    ensures forall w: nat :: w in t.held <==> w < n
    ensures forall w: nat | w < n :: t.held[w] == Missing
  {
    if n == 0 {
      t := NOTHING;
    } else {
      var s := AllLook(n - 1);
      var m := Look(n - 1, 0);
      t := Next(s, m);
      DoesOne(s, m);
      DoesBoth(NOTHING, Looks(n - 1), [m], 0, 0, 0, 0, 0, 0, s, t);
    }
  }

  // After k of the n workers that looked have stamped an entry.
  ghost predicate Stamping(r: Race, k: nat, n: nat) {
    Sound(r) && r.chain == [] && r.now == 0 && n !in r.held
    && (forall w: nat | w < k :: w in r.held && r.held[w] == Stamped(0))
    && (forall w: nat | k <= w < n :: w in r.held && r.held[w] == Missing)
  }

  lemma {:induction false} AllStamp(s: Race, k: nat, n: nat) returns (t: Race)
    requires Stamping(s, 0, n) && k <= n
    ensures Does(s, Stamps(k), 0, 0, 0, t) && Stamping(t, k, n)
  {
    if k == 0 {
      t := s;
    } else {
      var u := AllStamp(s, k - 1, n);
      var m := Act(k - 1, 0, true);
      assert k - 1 in u.held && u.held[k - 1] == Missing;
      t := Next(u, m);
      DoesOne(u, m);
      DoesBoth(s, Stamps(k - 1), [m], 0, 0, 0, 0, 0, 0, u, t);
    }
  }

  lemma Prepared(n: nat) returns (t: Race)
    ensures Does(NOTHING, Looks(n) + Stamps(n), 0, 0, 0, t) && Stamping(t, n, n)
  {
    var s := AllLook(n);
    assert Stamping(s, 0, n);
    t := AllStamp(s, n, n);
    hide Does, Stamping;
    DoesBoth(NOTHING, Looks(n), Stamps(n), 0, 0, 0, 0, 0, 0, s, t);
  }

  // So two packets of a new source that look at once let ten through at once, and n let 5n.
  lemma DuplicatesPass(n: nat, k: nat) returns (t: Race)
    requires n > 0
    ensures Does(NOTHING, (Looks(n) + Stamps(n)) + (Rounds(0, n, 0, 4) + Steady(n, 0, k)),
                 PACKETS_BURSTABLE * n + k, n - 1, 0, t)
    ensures t.now == k * PACKET_COST
  {
    var s := Prepared(n);
    t := BoundMet(s, n, 0, 4, k);
    DoesBoth(NOTHING, Looks(n) + Stamps(n), Rounds(0, n, 0, 4) + Steady(n, 0, k), 0, PACKETS_BURSTABLE * n + k,
             0, n - 1, 0, 0, s, t);
  }

  // And held up for the price of a packet before they are listed, they let 6n through.
  lemma LatePass(n: nat, k: nat) returns (s: Race, t: Race)
    requires n > 0
    ensures Does(NOTHING, (Looks(n) + Stamps(n)) + [Purge(0, PACKET_COST)], 0, 0, 0, s) && s.now == PACKET_COST
    ensures Does(s, Rounds(0, n, s.now, 5) + Steady(n, s.now, k), (PACKETS_BURSTABLE + 1) * n + k, n - 1, n, t)
    ensures t.now == s.now + k * PACKET_COST
  {
    var m := Purge(0, PACKET_COST);
    var u := Prepared(n);
    s := Next(u, m);
    DoesOne(u, m);
    DoesBoth(NOTHING, Looks(n) + Stamps(n), [m], 0, 0, 0, 0, 0, 0, u, s);
    t := BoundMet(s, n, 0, 5, k);
  }
}
