/** A node's traffic metering: readings of climbing counters become reports, and the baselines move only once a report
    has landed. */
module Traffic {
  import opened Basics

  const METRICS_SANITY := 0x1000_0000_0000

  datatype Counter = Counter(up: int, down: int)

  const ZERO := Counter(0, 0)

  function Plus(a: Counter, b: Counter): Counter {
    Counter(a.up + b.up, a.down + b.down)
  }

  lemma PlusZero(a: Counter)
    ensures Plus(ZERO, a) == a == Plus(a, ZERO)
  {
  }

  // The step from one reading of a climbing counter to the next; a smaller reading means it began again at zero.
  function Step(last: int, current: int): int {
    if current <= 0 then 0 else if current < last then current else current - last
  }

  // A counter that began again after it stood at last and has since climbed to current is credited in full exactly
  // while it is still below where it stood; past that, exactly what it stood at is missing.
  lemma RestartLoss(last: int, current: int)
    requires last >= 0 && current >= 0
    ensures Step(last, current) == current <==> current < last || last == 0
    ensures Step(last, current) == if current < last then current else current - last
  {
  }

  // Two maps of the meter side by side: the users' or the inbounds'. A name never committed stands at zero.
  datatype Ledger = Ledger(up: map<string, int>, down: map<string, int>)

  function Base(l: Ledger, name: string): Counter {
    Counter(if name in l.up then l.up[name] else 0, if name in l.down then l.down[name] else 0)
  }

  function Moved(l: Ledger, name: string, reading: Counter): Counter {
    Counter(Step(Base(l, name).up, reading.up), Step(Base(l, name).down, reading.down))
  }

  // What is reported of a name: nothing if it did not move, or if a user moved absurdly far.
  function Sample(l: Ledger, name: string, reading: Counter, user: bool): Option<Counter> {
    var moved := Moved(l, name, reading);
    if moved == ZERO || (user && (moved.up > METRICS_SANITY || moved.down > METRICS_SANITY)) then None else Some(moved)
  }

  // ---------------------------------------------------------------- the meter

  // One row of the core's answer, in whatever order it comes, and one line of the report.
  datatype Row = Row(name: string, counter: Counter)
  datatype Line = Line(name: string, moved: Counter)

  function Readings(skip: set<string>, rows: seq<Row>): Ledger {
    if rows == [] then Ledger(map[], map[])
    else
      var n := |rows| - 1;
      var l, name := Readings(skip, rows[..n]), rows[n].name;
      if name in skip then l else Ledger(l.up[name := rows[n].counter.up], l.down[name := rows[n].counter.down])
  }

  function Lines(skip: set<string>, base: Ledger, user: bool, rows: seq<Row>): seq<Line> {
    if rows == [] then []
    else
      var n := |rows| - 1;
      var name := rows[n].name;
      Lines(skip, base, user, rows[..n])
      + if name in skip || Sample(base, name, rows[n].counter, user).None? then []
        else [Line(name, Moved(base, name, rows[n].counter))]
  }

  // The core's answer under trimmed names.
  function Trimmed(trim: string -> string, rows: seq<Row>): seq<Row> {
    seq(|rows|, i requires 0 <= i < |rows| => Row(trim(rows[i].name), rows[i].counter))
  }

  method Pass(trim: string -> string, skip: set<string>, base: Ledger, user: bool, rows: seq<Row>)
    returns (readings: Ledger, report: seq<Line>)
    ensures readings == Readings(skip, Trimmed(trim, rows)) && report == Lines(skip, base, user, Trimmed(trim, rows))
  {
    readings, report := Ledger(map[], map[]), [];
    ghost var trimmed := Trimmed(trim, rows);
    for i := 0 to |rows|
      invariant readings == Readings(skip, trimmed[..i]) && report == Lines(skip, base, user, trimmed[..i])
    {
      assert trimmed[..i + 1][..i] == trimmed[..i] && trimmed[..i + 1][i] == trimmed[i];
      var name := trim(rows[i].name);
      if name in skip { continue; }
      readings := Ledger(readings.up[name := rows[i].counter.up], readings.down[name := rows[i].counter.down]);
      var moved := Moved(base, name, rows[i].counter);
      if moved == ZERO { continue; }
      if user && (moved.up > METRICS_SANITY || moved.down > METRICS_SANITY) { continue; }
      report := report + [Line(name, moved)];
    }
    assert trimmed[..|rows|] == trimmed;
  }

  function Merged(l: Ledger, d: Ledger): Ledger {
    Ledger(l.up + d.up, l.down + d.down)
  }

  const OWN_LISTENERS := {"", "api", "metrics"}

  class Meter {
    var userUp: map<string, int>
    var userDown: map<string, int>
    var tagUp: map<string, int>
    var tagDown: map<string, int>

    function Users(): Ledger
      reads this
    {
      Ledger(userUp, userDown)
    }

    function Tags(): Ledger
      reads this
    {
      Ledger(tagUp, tagDown)
    }

    constructor ()
      ensures Users() == Tags() == Ledger(map[], map[])
    {
      userUp, userDown, tagUp, tagDown := map[], map[], map[], map[];
    }

    // Merged rather than replaced: a name missing from this reading keeps its baseline.
    method Commit(users: Ledger, tags: Ledger)
      modifies this
      ensures Users() == Merged(old(Users()), users) && Tags() == Merged(old(Tags()), tags)
    {
      userUp := userUp + users.up;
      userDown := userDown + users.down;
      tagUp := tagUp + tags.up;
      tagDown := tagDown + tags.down;
    }

    // One interval: a report with nothing in it commits by itself, any other only if it lands.
    method Report(trim: string -> string, users: seq<Row>, inbounds: seq<Row>, lands: bool)
      returns (userLines: seq<Line>, tagLines: seq<Line>)
      modifies this
      ensures userLines == Lines({""}, old(Users()), true, Trimmed(trim, users))
      ensures tagLines == Lines(OWN_LISTENERS, old(Tags()), false, Trimmed(trim, inbounds))
      ensures if lands || (userLines == [] && tagLines == [])
        then Users() == Merged(old(Users()), Readings({""}, Trimmed(trim, users)))
          && Tags() == Merged(old(Tags()), Readings(OWN_LISTENERS, Trimmed(trim, inbounds)))
        else unchanged(this)
    {
      var userReadings, tagReadings;
      userReadings, userLines := Pass(trim, {""}, Users(), true, users);
      tagReadings, tagLines := Pass(trim, OWN_LISTENERS, Tags(), false, inbounds);
      hide Lines, Readings;
      if lands || (userLines == [] && tagLines == []) { Commit(userReadings, tagReadings); }
    }
  }

  // ---------------------------------------------------------------- a report, name by name

  // Two keys that trim to one name are two rows for it; the core is expected not to answer so.
  predicate Distinct(rows: seq<Row>) {
    forall i, j | 0 <= i < j < |rows| :: rows[i].name != rows[j].name
  }

  predicate ListedAt(skip: set<string>, rows: seq<Row>, i: int, name: string) {
    0 <= i < |rows| && rows[i].name == name && name !in skip
  }

  function Credit(lines: seq<Line>, name: string): Counter {
    if lines == [] then ZERO
    else
      var rest := Credit(lines[..|lines| - 1], name);
      if lines[|lines| - 1].name == name then Plus(rest, lines[|lines| - 1].moved) else rest
  }

  function Credited(s: Option<Counter>): Counter {
    if s.Some? then s.value else ZERO
  }

  lemma CreditAppend(lines: seq<Line>, l: Line, name: string)
    ensures Credit(lines + [l], name) == if l.name == name then Plus(Credit(lines, name), l.moved)
      else Credit(lines, name)
  {
    assert (lines + [l])[..|lines|] == lines;
  }

  lemma LinesAppend(skip: set<string>, base: Ledger, user: bool, rows: seq<Row>, r: Row, name: string,
    s: Option<Counter>)
    requires name == r.name && s == Sample(base, name, r.counter, user)
    ensures name in skip || s.None? ==> Lines(skip, base, user, rows + [r]) == Lines(skip, base, user, rows)
    ensures name !in skip && s.Some? ==>
      Lines(skip, base, user, rows + [r]) == Lines(skip, base, user, rows) + [Line(name, s.value)]
  {
    assert (rows + [r])[..|rows|] == rows;
  }

  // What a row adds to the credit of a name.
  lemma LastRow(skip: set<string>, base: Ledger, user: bool, rows: seq<Row>, r: Row, name: string, s: Option<Counter>)
    requires s == Sample(base, r.name, r.counter, user)
    ensures r.name == name && name !in skip ==>
      Credit(Lines(skip, base, user, rows + [r]), name)
        == Plus(Credit(Lines(skip, base, user, rows), name), Credited(s))
    ensures r.name != name || name in skip ==>
      Credit(Lines(skip, base, user, rows + [r]), name) == Credit(Lines(skip, base, user, rows), name)
  {
    hide Lines, Credit, Sample;
    var key := r.name;
    LinesAppend(skip, base, user, rows, r, key, s);
    if key !in skip && s.Some? {
      CreditAppend(Lines(skip, base, user, rows), Line(key, s.value), name);
    } else {
      PlusZero(Credit(Lines(skip, base, user, rows), name));
    }
  }

  predicate Absent(rows: seq<Row>, name: string) {
    forall i | 0 <= i < |rows| :: rows[i].name != name
  }

  lemma {:induction false} AbsentNoCredit(skip: set<string>, base: Ledger, user: bool, rows: seq<Row>, name: string)
    requires name in skip || Absent(rows, name)
    ensures Credit(Lines(skip, base, user, rows), name) == ZERO
    ensures name !in Readings(skip, rows).up && name !in Readings(skip, rows).down
  {
    if rows != [] {
      var n := |rows| - 1;
      AbsentNoCredit(skip, base, user, rows[..n], name);
      LastRow(skip, base, user, rows[..n], rows[n], name, Sample(base, rows[n].name, rows[n].counter, user));
      assert rows[..n] + [rows[n]] == rows;
    }
  }

  // Row i is the only one of its name.
  predicate Unique(rows: seq<Row>, i: int, name: string) {
    0 <= i < |rows| && rows[i].name == name && forall j | 0 <= j < |rows| && rows[j].name == name :: j == i
  }

  lemma UniqueFront(rows: seq<Row>, i: int, name: string)
    requires Unique(rows, i, name)
    ensures var n := |rows| - 1;
      if i == n then Absent(rows[..n], name) else rows[n].name != name && Unique(rows[..n], i, name)
  {
    var n := |rows| - 1;
    assert i == n || rows[n].name != name;
    forall j | 0 <= j < n ensures rows[..n][j] == rows[j] {}
  }

  lemma {:induction false} ListedCredit(skip: set<string>, base: Ledger, user: bool, rows: seq<Row>, i: int,
    name: string)
    requires Unique(rows, i, name) && name !in skip
    ensures Credit(Lines(skip, base, user, rows), name) == Credited(Sample(base, name, rows[i].counter, user))
  {
    var n := |rows| - 1;
    UniqueFront(rows, i, name);
    var front, r := rows[..n], rows[n];
    assert rows == front + [r] && (i < n ==> front[i] == rows[i]);
    PlusZero(Credited(Sample(base, r.name, r.counter, user)));
    hide Unique, Absent, Lines, Credit, Sample, Credited, Plus;
    LastRow(skip, base, user, front, r, name, Sample(base, r.name, r.counter, user));
    if i == n {
      AbsentNoCredit(skip, base, user, front, name);
    } else {
      ListedCredit(skip, base, user, front, i, name);
    }
  }

  lemma {:induction false} ListedReading(skip: set<string>, rows: seq<Row>, i: int, name: string)
    requires Unique(rows, i, name) && name !in skip
    ensures name in Readings(skip, rows).up && name in Readings(skip, rows).down
    ensures Base(Readings(skip, rows), name) == rows[i].counter
  {
    var n := |rows| - 1;
    UniqueFront(rows, i, name);
    if i < n { ListedReading(skip, rows[..n], i, name); }
  }

  // What the rows of a name would be credited one by one.
  function RowSum(skip: set<string>, base: Ledger, user: bool, rows: seq<Row>, name: string): Counter {
    if rows == [] then ZERO
    else
      var n := |rows| - 1;
      var before := RowSum(skip, base, user, rows[..n], name);
      if rows[n].name == name && name !in skip then Plus(before, Credited(Sample(base, name, rows[n].counter, user)))
        else before
  }

  // However often a name is listed, every row of it is credited in full.
  lemma {:induction false} CreditIsSum(skip: set<string>, base: Ledger, user: bool, rows: seq<Row>, name: string)
    ensures Credit(Lines(skip, base, user, rows), name) == RowSum(skip, base, user, rows, name)
  {
    if rows == [] {
      assert Lines(skip, base, user, rows) == [];
    } else {
      var n := |rows| - 1;
      CreditIsSum(skip, base, user, rows[..n], name);
      assert rows[..n] + [rows[n]] == rows;
      hide Lines, Credit, Sample;
      LastRow(skip, base, user, rows[..n], rows[n], name, Sample(base, rows[n].name, rows[n].counter, user));
    }
  }

  // The core's own listeners, and rows without a name, are in no report.
  lemma ListenersSilent(base: Ledger, rows: seq<Row>, name: string)
    requires name == "api" || name == "metrics" || name == ""
    ensures Credit(Lines(OWN_LISTENERS, base, false, rows), name) == ZERO
  {
    AbsentNoCredit(OWN_LISTENERS, base, false, rows, name);
  }

  // ---------------------------------------------------------------- every run

  type Totals = map<string, Counter>

  function Get(m: Totals, n: string): Counter {
    if n in m then m[n] else ZERO
  }

  // A report on its way: what was read, what it says, and how much had been served when it was read. Names whose
  // counter began again since then are remembered, both since this reading and since the baseline's.
  datatype Pending = Pending(rows: seq<Row>, lines: seq<Line>, served: Totals, reset: set<string>)

  // The core counts by key; everything else goes by trimmed name. `panel` is what the panel has booked, `acked` what
  // the node knows it has, `unheard` what it booked from reports whose reply was lost.
  datatype World = World(
    counter: Totals,
    served: Totals,
    acked: Totals,
    panel: Totals,
    unheard: Totals,
    base: Ledger,
    pending: Option<Pending>,
    mark: Totals,
    reset: set<string>,
    restarted: set<string>,
    passed: set<string>)

  // A report is lost on the way, lands and is answered, or lands and the answer is lost. One without a line in
  // either half counts as answered.
  datatype Fate = Lost | Landed | Unheard

  datatype Event =
    | Serve(key: string, moved: Counter)
    | Restart(keys: set<string>)
    | Scrape(rows: seq<Row>)
    | Settle(fate: Fate)

  // How names come from keys, which are passed over, whether the sanity limit applies, and the keys the core has.
  datatype Setting = Setting(trim: string -> string, skip: set<string>, user: bool, keys: set<string>)

  predicate Enabled(g: Setting, w: World, e: Event) {
    match e
    case Serve(key, moved) => key in g.keys && moved.up >= 0 && moved.down >= 0
    case Restart(keys) => keys <= g.keys
    case Scrape(rows) =>
      w.pending.None? && Distinct(rows) && forall i | 0 <= i < |rows| ::
        rows[i].name in g.keys && rows[i].counter == Get(w.counter, rows[i].name)
    case Settle(_) => w.pending.Some?
  }

  // No two keys the core has stand for one metered name.
  predicate Injective(g: Setting) {
    forall a, b | a in g.keys && b in g.keys && g.trim(a) == g.trim(b) && g.trim(a) !in g.skip :: a == b
  }

  function NamesOf(g: Setting, keys: set<string>): set<string> {
    set k | k in keys :: g.trim(k)
  }

  function Names(g: Setting, rows: seq<Row>): set<string> {
    (set i | 0 <= i < |rows| :: rows[i].name) - g.skip
  }

  // Names a commit moves past without credit: users whose step was taken for a misreading.
  ghost predicate PassedOver(g: Setting, base: Ledger, rows: seq<Row>, name: string) {
    exists i :: ListedAt(g.skip, rows, i, name)
      && Credited(Sample(base, name, rows[i].counter, g.user)) != Moved(base, name, rows[i].counter)
  }

  function Served(g: Setting, w: World, k: string, moved: Counter): World {
    var n := g.trim(k);
    w.(counter := w.counter[k := Plus(Get(w.counter, k), moved)],
      served := w.served[n := Plus(Get(w.served, n), moved)])
  }

  function Restarted(g: Setting, w: World, keys: set<string>): World {
    var names := NamesOf(g, keys);
    w.(counter := map k | k in w.counter :: if k in keys then ZERO else w.counter[k],
       reset := w.reset + names,
       pending := if w.pending.Some? then Some(w.pending.value.(reset := w.pending.value.reset + names)) else None,
       restarted := w.restarted + names)
  }

  // The books of a report: each name it reads is credited what its lines say.
  function Booked(m: Totals, names: set<string>, lines: seq<Line>): Totals {
    m + map n | n in names :: Plus(Get(m, n), Credit(lines, n))
  }

  ghost function Committed(g: Setting, w: World, p: Pending): World {
    var read := Names(g, p.rows);
    w.(pending := None,
       base := Merged(w.base, Readings(g.skip, p.rows)),
       acked := Booked(w.acked, read, p.lines),
       panel := Booked(w.panel, read, p.lines),
       mark := w.mark + (map n | n in read :: Get(p.served, n)),
       reset := (w.reset - read) + (p.reset * read),
       passed := w.passed + (set n | n in read && PassedOver(g, w.base, p.rows, n)))
  }

  ghost function Next(g: Setting, w: World, e: Event): World
    requires Enabled(g, w, e)
  {
    match e
    case Serve(k, moved) => Served(g, w, k, moved)
    case Restart(keys) => Restarted(g, w, keys)
    case Scrape(rows) =>
      var named := Trimmed(g.trim, rows);
      w.(pending := Some(Pending(named, Lines(g.skip, w.base, g.user, named), w.served, {})))
    case Settle(fate) =>
      var p := w.pending.value;
      match fate
      case Lost => w.(pending := None)
      case Landed => Committed(g, w, p)
      case Unheard =>
        var read := Names(g, p.rows);
        w.(pending := None, panel := Booked(w.panel, read, p.lines), unheard := Booked(w.unheard, read, p.lines))
  }

  // One direction of one name. Until the counter begins again it has climbed from the baseline by exactly what was
  // served since; afterwards it shows no more than that.
  predicate Tracks(base: int, acked: int, mark: int, served: int, counter: int, reset: bool) {
    0 <= base && 0 <= counter && 0 <= acked <= mark <= served
    && (if reset then counter <= served - mark else counter - base == served - mark)
  }

  // One name: where it stands against its baseline, and whether anything came between it and exact credit.
  datatype Standing = Standing(
    base: Counter,
    acked: Counter,
    mark: Counter,
    served: Counter,
    counter: Counter,
    reset: bool,
    restarted: bool,
    passed: bool)

  predicate Sound(t: Standing, user: bool) {
    Tracks(t.base.up, t.acked.up, t.mark.up, t.served.up, t.counter.up, t.reset)
    && Tracks(t.base.down, t.acked.down, t.mark.down, t.served.down, t.counter.down, t.reset)
    && (t.reset ==> t.restarted)
    && (t.passed ==> user && (t.served.up > METRICS_SANITY || t.served.down > METRICS_SANITY))
    && (!t.restarted && !t.passed ==> t.acked == t.base)
  }

  function Stands(w: World, k: string, n: string): Standing {
    Standing(Base(w.base, n), Get(w.acked, n), Get(w.mark, n), Get(w.served, n), Get(w.counter, k),
             n in w.reset, n in w.restarted, n in w.passed)
  }

  // Where the name will stand once the pending report has landed.
  ghost function WillStand(g: Setting, w: World, p: Pending, i: int, k: string, n: string): Standing
    requires 0 <= i < |p.rows|
  {
    var v := p.rows[i].counter;
    var credit := Credited(Sample(w.base, n, v, g.user));
    Standing(v, Plus(Get(w.acked, n), credit), Get(p.served, n), Get(w.served, n), Get(w.counter, k), n in p.reset,
      n in w.restarted,
             n in w.passed || credit != Moved(w.base, n, v))
  }

  predicate Metered(g: Setting, k: string) {
    k in g.keys && g.trim(k) !in g.skip
  }

  ghost predicate RowSound(g: Setting, w: World, p: Pending, i: int, k: string)
    requires 0 <= i < |p.rows|
  {
    Unique(p.rows, i, g.trim(k)) && Sound(WillStand(g, w, p, i, k, g.trim(k)), g.user)
  }

  ghost predicate PendingSound(g: Setting, w: World, p: Pending) {
    p.lines == Lines(g.skip, w.base, g.user, p.rows)
    && (forall i, k | 0 <= i < |p.rows| && Metered(g, k) && p.rows[i].name == g.trim(k) :: RowSound(g, w, p, i, k))
    && (forall i | 0 <= i < |p.rows| :: p.rows[i].name in NamesOf(g, g.keys))
  }

  ghost predicate Inv(g: Setting, w: World) {
    (forall k | Metered(g, k) :: Sound(Stands(w, k, g.trim(k)), g.user))
    && (w.pending.Some? ==> PendingSound(g, w, w.pending.value))
    && (forall n | n in w.acked :: n in NamesOf(g, g.keys) - g.skip)
    && (forall n: string :: Get(w.served, n).up >= 0 && Get(w.served, n).down >= 0)
  }

  // ---- one name at a time

  lemma SoundServed(t: Standing, moved: Counter, user: bool)
    requires Sound(t, user) && moved.up >= 0 && moved.down >= 0
    ensures Sound(t.(served := Plus(t.served, moved), counter := Plus(t.counter, moved)), user)
  {
  }

  lemma SoundRestarted(t: Standing, user: bool)
    requires Sound(t, user)
    ensures Sound(t.(counter := ZERO, reset := true, restarted := true), user)
  {
  }

  // A step is never more than what was served since the last committed reading, and leads there if the counter did
  // not begin again.
  lemma StepTracks(base: int, acked: int, mark: int, served: int, counter: int, reset: bool)
    requires Tracks(base, acked, mark, served, counter, reset)
    ensures var step := Step(base, counter);
      0 <= step <= served && Tracks(counter, acked + step, served, served, counter, false)
      && Tracks(counter, acked, served, served, counter, false) && (!reset ==> base + step == counter)
  {
  }

  lemma CreditCases(l: Ledger, n: string, reading: Counter, user: bool, moved: Counter)
    requires moved == Moved(l, n, reading)
    ensures var credit := Credited(Sample(l, n, reading, user));
      credit == moved || (credit == ZERO && user && (moved.up > METRICS_SANITY || moved.down > METRICS_SANITY))
  {
    hide Moved;
  }

  lemma SameCounter(a: Counter, b: Counter)
    requires a.up == b.up && a.down == b.down
    ensures a == b
  {
  }

  lemma SoundNow(t: Standing, moved: Counter, credit: Counter, acked: Counter, user: bool)
    requires Sound(t, user) && acked.up == t.acked.up + credit.up && acked.down == t.acked.down + credit.down
    requires moved.up == Step(t.base.up, t.counter.up) && moved.down == Step(t.base.down, t.counter.down)
    requires credit == moved || (credit == ZERO && user && (moved.up > METRICS_SANITY || moved.down > METRICS_SANITY))
    ensures Sound(Standing(t.counter, acked, t.served, t.served, t.counter, false, t.restarted,
                           t.passed || credit != moved), user)
  {
    StepTracks(t.base.up, t.acked.up, t.mark.up, t.served.up, t.counter.up, t.reset);
    StepTracks(t.base.down, t.acked.down, t.mark.down, t.served.down, t.counter.down, t.reset);
    hide Step, Tracks;
    if !t.restarted && !t.passed && credit == moved { SameCounter(acked, t.counter); }
  }

  lemma SoundRead(t: Standing, l: Ledger, n: string, user: bool)
    requires Sound(t, user) && t.base == Base(l, n)
    ensures var credit := Credited(Sample(l, n, t.counter, user));
      Sound(Standing(t.counter, Plus(t.acked, credit), t.served, t.served, t.counter, false, t.restarted,
                     t.passed || credit != Moved(l, n, t.counter)), user)
  {
    var moved := Moved(l, n, t.counter);
    CreditCases(l, n, t.counter, user, moved);
    assert moved.up == Step(t.base.up, t.counter.up) && moved.down == Step(t.base.down, t.counter.down);
    hide Sample, Credited, Moved, Step, Base, Sound;
    var credit := Credited(Sample(l, n, t.counter, user));
    SoundNow(t, moved, credit, Plus(t.acked, credit), user);
  }

  // ---- all of them

  lemma ServeStands(g: Setting, w: World, key: string, moved: Counter, k: string)
    requires Injective(g) && Metered(g, k) && key in g.keys
    requires Sound(Stands(w, k, g.trim(k)), g.user) && moved.up >= 0 && moved.down >= 0
    ensures Sound(Stands(Served(g, w, key, moved), k, g.trim(k)), g.user)
  {
    var t, v := Stands(w, k, g.trim(k)), Served(g, w, key, moved);
    if k == key {
      SoundServed(t, moved, g.user);
      assert Stands(v, k, g.trim(k)) == t.(served := Plus(t.served, moved), counter := Plus(t.counter, moved));
    } else {
      assert g.trim(k) != g.trim(key);
      assert Stands(v, k, g.trim(k)) == t;
    }
  }

  lemma ServeWillStand(g: Setting, w: World, p: Pending, key: string, moved: Counter, i: int, k: string)
    requires Injective(g) && Metered(g, k) && key in g.keys && 0 <= i < |p.rows| && RowSound(g, w, p, i, k)
    requires moved.up >= 0 && moved.down >= 0
    ensures RowSound(g, Served(g, w, key, moved), p, i, k)
  {
    hide Sound, Sample, Moved, Base, Credited, Unique;
    var t, v := WillStand(g, w, p, i, k, g.trim(k)), Served(g, w, key, moved);
    if k == key {
      SoundServed(t, moved, g.user);
      assert WillStand(g, v, p, i, k, g.trim(k))
        == t.(served := Plus(t.served, moved), counter := Plus(t.counter, moved));
    } else {
      assert g.trim(k) != g.trim(key);
      assert WillStand(g, v, p, i, k, g.trim(k)) == t;
    }
  }

  lemma ServeKeeps(g: Setting, w: World, key: string, moved: Counter)
    requires Injective(g) && Inv(g, w) && Enabled(g, w, Serve(key, moved))
    ensures Inv(g, Served(g, w, key, moved))
  {
    var v := Served(g, w, key, moved);
    hide Sound, RowSound, Stands, Lines, Injective, Metered, Plus;
    forall k | Metered(g, k) ensures Sound(Stands(v, k, g.trim(k)), g.user) { ServeStands(g, w, key, moved, k); }
    if w.pending.Some? {
      var p := w.pending.value;
      forall i, k | 0 <= i < |p.rows| && Metered(g, k) && p.rows[i].name == g.trim(k) ensures RowSound(g, v, p, i, k) {
        ServeWillStand(g, w, p, key, moved, i, k);
      }
    }
    forall n: string ensures Get(v.served, n).up >= 0 && Get(v.served, n).down >= 0 { MoreServed(g, w, key, moved, n); }
  }

  lemma MoreServed(g: Setting, w: World, key: string, moved: Counter, n: string)
    requires Get(w.served, n).up >= 0 && Get(w.served, n).down >= 0 && moved.up >= 0 && moved.down >= 0
    ensures var v := Served(g, w, key, moved); Get(v.served, n).up >= 0 && Get(v.served, n).down >= 0
  {
  }

  lemma RestartStands(g: Setting, w: World, keys: set<string>, k: string)
    requires Injective(g) && Metered(g, k) && keys <= g.keys && Sound(Stands(w, k, g.trim(k)), g.user)
    ensures Sound(Stands(Restarted(g, w, keys), k, g.trim(k)), g.user)
  {
    var t, v := Stands(w, k, g.trim(k)), Restarted(g, w, keys);
    KeyOfName(g, keys, k);
    SoundRestarted(t, g.user);
    hide Sound, Injective, NamesOf;
    assert Stands(v, k, g.trim(k)) == if k in keys then t.(counter := ZERO, reset := true, restarted := true) else t;
  }

  lemma KeyOfName(g: Setting, keys: set<string>, k: string)
    requires Injective(g) && Metered(g, k) && keys <= g.keys
    ensures g.trim(k) in NamesOf(g, keys) <==> k in keys
  {
  }

  lemma RestartWillStand(g: Setting, w: World, p: Pending, keys: set<string>, i: int, k: string)
    requires Injective(g) && Metered(g, k) && keys <= g.keys && 0 <= i < |p.rows| && RowSound(g, w, p, i, k)
    ensures RowSound(g, Restarted(g, w, keys), p.(reset := p.reset + NamesOf(g, keys)), i, k)
  {
    KeyOfName(g, keys, k);
    hide Sound, Sample, Moved, Injective, NamesOf, Unique, Base, Credited;
    var t, v, q := WillStand(g, w, p, i, k, g.trim(k)), Restarted(g, w, keys), p.(reset := p.reset + NamesOf(g, keys));
    SoundRestarted(t, g.user);
    assert WillStand(g, v, q, i, k, g.trim(k)) == if k in keys
      then t.(counter := ZERO, reset := true, restarted := true) else t;
  }

  lemma RestartKeeps(g: Setting, w: World, keys: set<string>)
    requires Injective(g) && Inv(g, w) && keys <= g.keys
    ensures Inv(g, Restarted(g, w, keys))
  {
    var v := Restarted(g, w, keys);
    hide Sound, RowSound, Stands, Lines, Injective, Metered, NamesOf;
    forall k | Metered(g, k) ensures Sound(Stands(v, k, g.trim(k)), g.user) { RestartStands(g, w, keys, k); }
    if w.pending.Some? {
      var p, q := w.pending.value, v.pending.value;
      forall i, k | 0 <= i < |p.rows| && Metered(g, k) && p.rows[i].name == g.trim(k) ensures RowSound(g, v, q, i, k) {
        RestartWillStand(g, w, p, keys, i, k);
      }
    }
  }

  lemma RowOfKey(g: Setting, w: World, rows: seq<Row>, i: int, k: string)
    requires Injective(g) && Enabled(g, w, Scrape(rows)) && Metered(g, k)
    requires 0 <= i < |rows| && g.trim(rows[i].name) == g.trim(k)
    ensures rows[i] == Row(k, Get(w.counter, k)) && Unique(Trimmed(g.trim, rows), i, g.trim(k))
  {
    var named := Trimmed(g.trim, rows);
    assert rows[i].name in g.keys;
    forall j | 0 <= j < |named| && named[j].name == g.trim(k) ensures j == i {
      assert rows[j].name in g.keys && rows[j].name == k;
    }
  }

  lemma ScrapeRow(g: Setting, w: World, rows: seq<Row>, p: Pending, i: int, k: string)
    requires Injective(g) && Enabled(g, w, Scrape(rows)) && Metered(g, k) && Sound(Stands(w, k, g.trim(k)), g.user)
    requires p.rows == Trimmed(g.trim, rows) && p.served == w.served && p.reset == {}
    requires 0 <= i < |p.rows| && p.rows[i].name == g.trim(k)
    ensures RowSound(g, w, p, i, k)
  {
    RowOfKey(g, w, rows, i, k);
    SoundRead(Stands(w, k, g.trim(k)), w.base, g.trim(k), g.user);
    hide Sound, Sample, Moved, Injective, Unique, Base, Enabled, Credited;
  }

  lemma ScrapePending(g: Setting, w: World, rows: seq<Row>, p: Pending)
    requires Injective(g) && Inv(g, w) && Enabled(g, w, Scrape(rows))
    requires p == Pending(Trimmed(g.trim, rows), Lines(g.skip, w.base, g.user, Trimmed(g.trim, rows)), w.served, {})
    ensures PendingSound(g, w, p)
  {
    forall i | 0 <= i < |p.rows| ensures p.rows[i].name in NamesOf(g, g.keys) { assert rows[i].name in g.keys; }
    hide RowSound, Lines, Injective, Sound, Stands, Enabled, Metered, NamesOf;
    forall i, k | 0 <= i < |p.rows| && Metered(g, k) && p.rows[i].name == g.trim(k) ensures RowSound(g, w, p, i, k) {
      assert Sound(Stands(w, k, g.trim(k)), g.user);
      ScrapeRow(g, w, rows, p, i, k);
    }
  }

  // What is pending does not look at what is pending.
  lemma PendingOf(g: Setting, w: World, v: World, p: Pending)
    requires PendingSound(g, w, p) && v == w.(pending := Some(p))
    ensures PendingSound(g, v, p)
  {
    hide Lines, Sound, Unique, Sample, Moved, Base, NamesOf, Metered;
    forall i, k | 0 <= i < |p.rows| && Metered(g, k) && p.rows[i].name == g.trim(k) ensures RowSound(g, v, p, i, k) {
      assert RowSound(g, w, p, i, k);
    }
  }

  lemma StandsOf(w: World, v: World, k: string, n: string)
    requires v == w.(pending := v.pending, panel := v.panel, unheard := v.unheard)
    ensures Stands(v, k, n) == Stands(w, k, n)
  {
  }

  lemma ScrapeKeeps(g: Setting, w: World, rows: seq<Row>)
    requires Injective(g) && Inv(g, w) && Enabled(g, w, Scrape(rows))
    ensures Inv(g, Next(g, w, Scrape(rows)))
  {
    var v := Next(g, w, Scrape(rows));
    var p := v.pending.value;
    ScrapePending(g, w, rows, p);
    PendingOf(g, w, v, p);
    hide Sound, PendingSound, Lines, Injective, Trimmed, Metered, Stands, NamesOf;
    forall k | Metered(g, k) ensures Sound(Stands(v, k, g.trim(k)), g.user) { StandsOf(w, v, k, g.trim(k)); }
  }

  lemma CommitRead(g: Setting, w: World, p: Pending, i: int, k: string)
    requires Metered(g, k) && PendingSound(g, w, p) && 0 <= i < |p.rows| && RowSound(g, w, p, i, k)
    ensures Stands(Committed(g, w, p), k, g.trim(k)) == WillStand(g, w, p, i, k, g.trim(k))
  {
    var n := g.trim(k);
    assert Unique(p.rows, i, n) && p.rows[i].name == n;
    ListedCredit(g.skip, w.base, g.user, p.rows, i, n);
    ListedReading(g.skip, p.rows, i, n);
    assert n in Names(g, p.rows);
    assert PassedOver(g, w.base, p.rows, n) <==>
      Credited(Sample(w.base, n, p.rows[i].counter, g.user)) != Moved(w.base, n, p.rows[i].counter)
        by { OneRow(g, w, p, i, n); }
    hide Lines, Readings, Credit, Credited, Sample, Moved, Sound, Names, PassedOver, Unique, Plus;
  }

  lemma OneRow(g: Setting, w: World, p: Pending, i: int, n: string)
    requires Unique(p.rows, i, n) && n !in g.skip
    ensures PassedOver(g, w.base, p.rows, n) <==>
      Credited(Sample(w.base, n, p.rows[i].counter, g.user)) != Moved(w.base, n, p.rows[i].counter)
  {
    hide Sample, Moved, Credited;
    assert ListedAt(g.skip, p.rows, i, n);
    forall j | ListedAt(g.skip, p.rows, j, n) ensures j == i {}
  }

  lemma CommitUnread(g: Setting, w: World, p: Pending, k: string)
    requires Metered(g, k) && Absent(p.rows, g.trim(k))
    ensures Stands(Committed(g, w, p), k, g.trim(k)) == Stands(w, k, g.trim(k))
  {
    AbsentNoCredit(g.skip, w.base, g.user, p.rows, g.trim(k));
    assert g.trim(k) !in Names(g, p.rows);
    hide Lines, Readings, Credit, Credited, Sample, Moved, Sound, Names, Absent, Plus;
  }

  lemma CommitStands(g: Setting, w: World, k: string)
    requires Inv(g, w) && w.pending.Some? && Metered(g, k)
    ensures Sound(Stands(Committed(g, w, w.pending.value), k, g.trim(k)), g.user)
  {
    var p := w.pending.value;
    if Absent(p.rows, g.trim(k)) {
      CommitUnread(g, w, p, k);
    } else {
      var i :| 0 <= i < |p.rows| && p.rows[i].name == g.trim(k);
      assert RowSound(g, w, p, i, k);
      CommitRead(g, w, p, i, k);
    }
  }

  lemma BookedNames(g: Setting, w: World, p: Pending, n: string)
    requires PendingSound(g, w, p) && n in Names(g, p.rows)
    ensures n in NamesOf(g, g.keys) - g.skip
  {
  }

  lemma DroppedKeeps(g: Setting, w: World, v: World)
    requires Inv(g, w) && v == w.(pending := None, panel := v.panel, unheard := v.unheard)
    ensures Inv(g, v)
  {
    hide Sound, PendingSound, Stands, NamesOf, Metered;
    forall k | Metered(g, k) ensures Sound(Stands(v, k, g.trim(k)), g.user) { StandsOf(w, v, k, g.trim(k)); }
  }

  lemma CommitNames(g: Setting, w: World, n: string)
    requires Inv(g, w) && w.pending.Some? && n in Committed(g, w, w.pending.value).acked
    ensures n in NamesOf(g, g.keys) - g.skip
  {
    var p := w.pending.value;
    assert n in Booked(w.acked, Names(g, p.rows), p.lines);
    hide Sound, PendingSound, Stands, NamesOf, Metered, Committed;
    if n !in w.acked { BookedNames(g, w, p, n); }
  }

  lemma CommitKeeps(g: Setting, w: World)
    requires Inv(g, w) && w.pending.Some?
    ensures Inv(g, Committed(g, w, w.pending.value))
  {
    var v := Committed(g, w, w.pending.value);
    assert v.pending.None?;
    hide Sound, PendingSound, Stands, NamesOf, Metered, Names, Booked, Committed;
    forall n | n in v.acked ensures n in NamesOf(g, g.keys) - g.skip { CommitNames(g, w, n); }
    forall k | Metered(g, k) ensures Sound(Stands(v, k, g.trim(k)), g.user) { CommitStands(g, w, k); }
  }

  lemma SettleKeeps(g: Setting, w: World, fate: Fate)
    requires Inv(g, w) && w.pending.Some?
    ensures Inv(g, Next(g, w, Settle(fate)))
  {
    hide Inv, Committed, Booked, Names;
    if fate.Landed? { CommitKeeps(g, w); } else { DroppedKeeps(g, w, Next(g, w, Settle(fate))); }
  }

  lemma StepKeeps(g: Setting, w: World, e: Event)
    requires Injective(g) && Inv(g, w) && Enabled(g, w, e)
    ensures Inv(g, Next(g, w, e))
  {
    match e
    case Serve(k, moved) => ServeKeeps(g, w, k, moved);
    case Restart(keys) => RestartKeeps(g, w, keys);
    case Scrape(rows) => ScrapeKeeps(g, w, rows);
    case Settle(fate) => SettleKeeps(g, w, fate);
  }

  ghost predicate Run(g: Setting, w: World, events: seq<Event>, v: World)
    decreases |events|
  {
    if events == [] then w == v else Enabled(g, w, events[0]) && Run(g, Next(g, w, events[0]), events[1..], v)
  }

  const FRESH := World(map[], map[], map[], map[], map[], Ledger(map[], map[]), None, map[], {}, {}, {})

  lemma {:induction false} RunKeeps(g: Setting, w: World, events: seq<Event>, v: World)
    requires Injective(g) && Inv(g, w) && Run(g, w, events, v)
    ensures Inv(g, v)
    decreases |events|
  {
    if events != [] {
      StepKeeps(g, w, events[0]);
      RunKeeps(g, Next(g, w, events[0]), events[1..], v);
    }
  }

  lemma FreshInv(g: Setting)
    ensures Inv(g, FRESH)
  {
  }

  lemma {:induction false} OnlyRestarts(g: Setting, w: World, events: seq<Event>, v: World, n: string)
    requires Run(g, w, events, v) && n !in w.restarted
    requires forall i | 0 <= i < |events| && events[i].Restart? :: n !in NamesOf(g, events[i].keys)
    ensures n !in v.restarted
    decreases |events|
  {
    if events != [] { OnlyRestarts(g, Next(g, w, events[0]), events[1..], v, n); }
  }

  predicate Within(a: Counter, b: Counter) {
    a.up <= b.up && a.down <= b.down
  }

  // Whatever is scraped, lost, committed or restarted, no name is ever credited with more than it was served, as
  // long as no two of the core's keys stand for one name.
  lemma NeverOverCredited(g: Setting, events: seq<Event>, v: World, n: string)
    requires Injective(g) && Run(g, FRESH, events, v)
    ensures Within(Get(v.acked, n), Get(v.served, n))
  {
    FreshInv(g);
    RunKeeps(g, FRESH, events, v);
    if n in v.acked {
      var k :| k in g.keys && g.trim(k) == n;
      assert Metered(g, k) && Sound(Stands(v, k, g.trim(k)), g.user);
    }
  }

  const SIXTEEN_TEBIBYTES := 16 * 1024 * 1024 * 1024 * 1024

  // A user that seems to have moved more than that since the last report is passed over; an inbound is not.
  lemma AbsurdStep(l: Ledger, name: string, reading: Counter, user: bool)
    requires Moved(l, name, reading).up > SIXTEEN_TEBIBYTES
    ensures Sample(l, name, reading, user) == if user then None else Some(Moved(l, name, reading))
  {
  }

  // If its counter never began again, and it is an inbound or a user within the sanity limit, it is credited with
  // exactly its last committed reading.
  lemma CreditedExactly(g: Setting, events: seq<Event>, v: World, k: string)
    requires Injective(g) && Run(g, FRESH, events, v) && Metered(g, k)
    requires forall i | 0 <= i < |events| && events[i].Restart? :: g.trim(k) !in NamesOf(g, events[i].keys)
    requires g.user ==> Within(Get(v.served, g.trim(k)), Counter(SIXTEEN_TEBIBYTES, SIXTEEN_TEBIBYTES))
    ensures Get(v.acked, g.trim(k)) == Base(v.base, g.trim(k))
  {
    FreshInv(g);
    RunKeeps(g, FRESH, events, v);
    OnlyRestarts(g, FRESH, events, v, g.trim(k));
    assert Sound(Stands(v, k, g.trim(k)), g.user);
  }

  // ---------------------------------------------------------------- two keys for one name

  lemma RowSumAppend(skip: set<string>, base: Ledger, user: bool, rows: seq<Row>, r: Row)
    requires r.name !in skip
    ensures RowSum(skip, base, user, rows + [r], r.name)
         == Plus(RowSum(skip, base, user, rows, r.name), Credited(Sample(base, r.name, r.counter, user)))
  {
    assert (rows + [r])[..|rows|] == rows;
  }

  lemma ReadingsAppend(skip: set<string>, rows: seq<Row>, r: Row)
    requires r.name !in skip
    ensures var l := Readings(skip, rows);
      Readings(skip, rows + [r]) == Ledger(l.up[r.name := r.counter.up], l.down[r.name := r.counter.down])
  {
    assert (rows + [r])[..|rows|] == rows;
  }

  lemma TwoRows(skip: set<string>, base: Ledger, user: bool, r: Row, q: Row)
    requires r.name == q.name && r.name !in skip
    ensures var rows, n := [] + [r] + [q], r.name;
      Credit(Lines(skip, base, user, rows), n)
      == Plus(Credited(Sample(base, n, r.counter, user)), Credited(Sample(base, n, q.counter, user)))
      && Base(Merged(base, Readings(skip, rows)), n) == q.counter
  {
    var rows, n := [] + [r] + [q], r.name;
    CreditIsSum(skip, base, user, rows, n);
    assert RowSum(skip, base, user, [], n) == ZERO;
    PlusZero(Credited(Sample(base, n, r.counter, user)));
    hide Lines, Credit, Sample, Credited, RowSum, Readings, Plus;
    RowSumAppend(skip, base, user, [], r);
    RowSumAppend(skip, base, user, [] + [r], q);
    ReadingsAppend(skip, [], r);
    ReadingsAppend(skip, [] + [r], q);
  }

  lemma RunTwo(g: Setting, w: World, e: Event, f: Event)
    requires Enabled(g, w, e) && Enabled(g, Next(g, w, e), f)
    ensures Run(g, w, [e, f], Next(g, Next(g, w, e), f))
  {
    hide Enabled, Next;
    var u := Next(g, w, e);
    assert [e, f][1..] == [f] && [f][1..] == [];
    assert Run(g, Next(g, u, f), [], Next(g, u, f));
    assert Run(g, u, [f], Next(g, u, f));
  }

  lemma BookedGet(m: Totals, names: set<string>, lines: seq<Line>, n: string)
    ensures Get(Booked(m, names, lines), n) == if n in names then Plus(Get(m, n), Credit(lines, n)) else Get(m, n)
  {
  }

  // Both keys are read and the report lands.
  function Round(a: Row, b: Row): seq<Event> {
    [Scrape([] + [a] + [b]), Settle(Landed)]
  }

  lemma TrimmedTwo(g: Setting, a: Row, b: Row)
    ensures Trimmed(g.trim, [] + [a] + [b]) == [] + [Row(g.trim(a.name), a.counter)] + [Row(g.trim(b.name), b.counter)]
  {
  }

  lemma ScrapeTwo(g: Setting, w: World, a: Row, b: Row)
    requires w.pending.None? && a.name in g.keys && b.name in g.keys && a.name != b.name
    requires Get(w.counter, a.name) == a.counter && Get(w.counter, b.name) == b.counter
    ensures Enabled(g, w, Scrape([] + [a] + [b]))
  {
    var rows := [] + [a] + [b];
    assert |rows| == 2 && rows[0] == a && rows[1] == b;
    assert Distinct(rows);
  }

  lemma SettleAny(g: Setting, w: World, fate: Fate)
    requires w.pending.Some?
    ensures Enabled(g, w, Settle(fate))
  {
  }

  // What the two rows of one name come to, each measured against the same baseline.
  function Twice(base: Ledger, n: string, a: Counter, b: Counter, user: bool): Counter {
    Plus(Credited(Sample(base, n, a, user)), Credited(Sample(base, n, b, user)))
  }

  lemma LandedTwo(g: Setting, w: World, named: seq<Row>, n: string, a: Counter, b: Counter, p: Pending)
    requires n !in g.skip && named == [] + [Row(n, a)] + [Row(n, b)]
    requires p.rows == named && p.lines == Lines(g.skip, w.base, g.user, named)
    ensures var v := Committed(g, w, p);
      Base(v.base, n) == b && Get(v.acked, n) == Plus(Get(w.acked, n), Twice(w.base, n, a, b, g.user))
  {
    TwoRows(g.skip, w.base, g.user, Row(n, a), Row(n, b));
    assert n in Names(g, named) by { assert named[0].name == n; }
    BookedGet(w.acked, Names(g, named), p.lines, n);
    hide Lines, Credit, Readings, Sample, Credited, Plus, Names, Booked, Get, Base, Merged;
  }

  lemma RoundRuns(g: Setting, w: World, a: Row, b: Row) returns (v: World)
    requires w.pending.None? && a.name in g.keys && b.name in g.keys && a.name != b.name
    requires g.trim(a.name) == g.trim(b.name) && g.trim(a.name) !in g.skip
    requires Get(w.counter, a.name) == a.counter && Get(w.counter, b.name) == b.counter
    ensures Run(g, w, Round(a, b), v) && v.pending.None? && v.counter == w.counter && v.served == w.served
    ensures var n := g.trim(a.name);
      Base(v.base, n) == b.counter && Get(v.acked, n)
        == Plus(Get(w.acked, n), Twice(w.base, n, a.counter, b.counter, g.user))
  {
    hide Lines, Readings, Plus, Names, Booked, Trimmed, Run, Get, Base, Merged, Enabled, Twice, PassedOver;
    var rows, n := [] + [a] + [b], g.trim(a.name);
    ScrapeTwo(g, w, a, b);
    TrimmedTwo(g, a, b);
    var u := Next(g, w, Scrape(rows));
    SettleAny(g, u, Landed);
    RunTwo(g, w, Scrape(rows), Settle(Landed));
    LandedTwo(g, u, Trimmed(g.trim, rows), n, a.counter, b.counter, u.pending.value);
    v := Next(g, u, Settle(Landed));
  }

  lemma {:induction false} RunsOn(g: Setting, w: World, a: seq<Event>, u: World, b: seq<Event>, v: World)
    requires Run(g, w, a, u) && Run(g, u, b, v)
    ensures Run(g, w, a + b, v)
    decreases |a|
  {
    if a == [] {
      assert a + b == b;
    } else {
      assert (a + b)[0] == a[0] && (a + b)[1..] == a[1..] + b;
      RunsOn(g, Next(g, w, a[0]), a[1..], u, b, v);
    }
  }

  lemma ServedGet(g: Setting, w: World, k: string, moved: Counter, other: string)
    ensures var v := Served(g, w, k, moved);
      Get(v.counter, k) == Plus(Get(w.counter, k), moved)
        && Get(v.served, g.trim(k)) == Plus(Get(w.served, g.trim(k)), moved)
      && (other != k ==> Get(v.counter, other) == Get(w.counter, other))
      && v.pending == w.pending && v.base == w.base && v.acked == w.acked
  {
  }

  lemma ServeAny(g: Setting, w: World, k: string, moved: Counter)
    requires k in g.keys && moved.up >= 0 && moved.down >= 0
    ensures Enabled(g, w, Serve(k, moved)) && Next(g, w, Serve(k, moved)) == Served(g, w, k, moved)
  {
  }

  lemma TwoAndOne(two: Counter, one: Counter)
    requires two == Counter(2, 0) && one == Counter(1, 0)
    ensures Plus(two, one) == Counter(3, 0) && Plus(Counter(3, 0), one) == Counter(4, 0)
  {
  }

  lemma ServedBoth(g: Setting, w: World, a: string, b: string, x: Counter, y: Counter)
    requires a != b && g.trim(a) == g.trim(b)
    ensures var v := Served(g, Served(g, w, a, x), b, y);
      Get(v.counter, a) == Plus(Get(w.counter, a), x) && Get(v.counter, b) == Plus(Get(w.counter, b), y)
      && Get(v.served, g.trim(a)) == Plus(Plus(Get(w.served, g.trim(a)), x), y)
      && v.pending == w.pending && v.base == w.base && v.acked == w.acked
  {
    hide Served, Get, Plus;
    var u := Served(g, w, a, x);
    ServedGet(g, w, a, x, b);
    ServedGet(g, u, b, y, a);
  }

  lemma NothingServed(w: World, k: string)
    requires w == FRESH
    ensures Get(w.counter, k) == ZERO && Get(w.served, k) == ZERO
    ensures w.pending.None? && w.base == Ledger(map[], map[]) && w.acked == map[]
  {
  }

  lemma ServedFirst(g: Setting, w: World, a: string, b: string, x: Counter, y: Counter)
    requires a != b && g.trim(a) == g.trim(b) && w == FRESH
    ensures var v := Served(g, Served(g, w, a, x), b, y);
      Get(v.counter, a) == x && Get(v.counter, b) == y && Get(v.served, g.trim(a)) == Plus(x, y)
      && v.pending.None? && v.base == Ledger(map[], map[]) && v.acked == map[]
  {
    NothingServed(w, a);
    NothingServed(w, b);
    NothingServed(w, g.trim(a));
    ServedBoth(g, w, a, b, x, y);
    PlusZero(x);
    PlusZero(y);
    hide Served, Get, Plus;
  }

  lemma ServeBoth(g: Setting, w: World, a: string, b: string, x: Counter, y: Counter)
    requires a in g.keys && b in g.keys && x.up >= 0 && x.down >= 0 && y.up >= 0 && y.down >= 0
    ensures Run(g, w, [Serve(a, x), Serve(b, y)], Served(g, Served(g, w, a, x), b, y))
  {
    hide Enabled, Next, Served, Run;
    var u := Served(g, w, a, x);
    ServeAny(g, w, a, x);
    ServeAny(g, u, b, y);
    RunTwo(g, w, Serve(a, x), Serve(b, y));
  }

  lemma Uneven(g: Setting, a: string, b: string, two: Counter, one: Counter) returns (w: World)
    requires a in g.keys && b in g.keys && a != b && g.trim(a) == g.trim(b) && two == Counter(2, 0)
      && one == Counter(1, 0)
    ensures Run(g, FRESH, [Serve(a, two), Serve(b, one)], w) && w.pending.None?
    ensures Get(w.counter, a) == two && Get(w.counter, b) == one
    ensures Get(w.served, g.trim(a)) == Counter(3, 0) && w.base == Ledger(map[], map[]) && w.acked == map[]
  {
    hide Get, Served, Run, Plus;
    w := Served(g, Served(g, FRESH, a, two), b, one);
    ServeBoth(g, FRESH, a, b, two, one);
    ServedFirst(g, FRESH, a, b, two, one);
    TwoAndOne(two, one);
  }

  lemma SmallStep(base: Ledger, n: string, reading: Counter, user: bool, moved: Counter)
    requires Step(Base(base, n).up, reading.up) == moved.up <= 2
      && Step(Base(base, n).down, reading.down) == moved.down == 0
    ensures Credited(Sample(base, n, reading, user)) == moved
  {
    assert Moved(base, n, reading) == moved;
    hide Moved;
  }

  // Measured against nothing the two keys come to three.
  lemma FirstReading(base: Ledger, n: string, two: Counter, one: Counter, user: bool)
    requires two == Counter(2, 0) && one == Counter(1, 0) && Base(base, n) == ZERO
    ensures Twice(base, n, two, one, user) == Counter(3, 0)
  {
    hide Sample, Credited, Plus, Base;
    TwoAndOne(two, one);
    SmallStep(base, n, two, user, two);
    SmallStep(base, n, one, user, one);
  }

  // Measured against the second key's reading they come to one more.
  lemma SecondReading(base: Ledger, n: string, two: Counter, one: Counter, user: bool)
    requires two == Counter(2, 0) && one == Counter(1, 0) && Base(base, n) == one
    ensures Twice(base, n, two, one, user) == one
  {
    hide Sample, Credited, Plus, Base;
    PlusZero(one);
    SmallStep(base, n, two, user, one);
    SmallStep(base, n, one, user, ZERO);
  }

  lemma NothingYet(base: Ledger, m: Totals, n: string)
    requires base == Ledger(map[], map[]) && m == map[]
    ensures Base(base, n) == ZERO && Get(m, n) == ZERO
  {
  }

  lemma TwoRounds(g: Setting, w: World, a: string, b: string, two: Counter, one: Counter) returns (u: World, v: World)
    requires a in g.keys && b in g.keys && a != b && g.trim(a) == g.trim(b) && g.trim(a) !in g.skip
    requires two == Counter(2, 0) && one == Counter(1, 0) && w.pending.None? && w.base == Ledger(map[], map[])
      && w.acked == map[]
    requires Get(w.counter, a) == two && Get(w.counter, b) == one
    ensures Run(g, w, Round(Row(a, two), Row(b, one)), u) && Run(g, u, Round(Row(a, two), Row(b, one)), v)
    ensures Get(v.acked, g.trim(a)) == Counter(4, 0) && v.served == w.served
  {
    hide Run, Next, Plus, Get, Base, Twice, Round;
    var n := g.trim(a);
    NothingYet(w.base, w.acked, n);
    FirstReading(w.base, n, two, one, g.user);
    u := RoundRuns(g, w, Row(a, two), Row(b, one));
    SecondReading(u.base, n, two, one, g.user);
    v := RoundRuns(g, u, Row(a, two), Row(b, one));
    TwoAndOne(two, one);
    PlusZero(Counter(3, 0));
  }

  // Two bytes under one key and one under the other, read twice: the second reading is measured against the other
  // key's baseline, and a byte is credited again.
  lemma OverCredited(g: Setting, a: string, b: string) returns (events: seq<Event>, v: World)
    requires a in g.keys && b in g.keys && a != b && g.trim(a) == g.trim(b) && g.trim(a) !in g.skip
    ensures Run(g, FRESH, events, v) && Get(v.acked, g.trim(a)) == Counter(4, 0)
      && Get(v.served, g.trim(a)) == Counter(3, 0)
  {
    hide Run, Next, Get, Round;
    var two, one := Counter(2, 0), Counter(1, 0);
    var start, round := [Serve(a, two), Serve(b, one)], Round(Row(a, two), Row(b, one));
    var w := Uneven(g, a, b, two, one);
    var u;
    u, v := TwoRounds(g, w, a, b, two, one);
    RunsOn(g, FRESH, start, w, round, u);
    RunsOn(g, FRESH, start + round, u, round, v);
    events := start + round + round;
  }

  // In no run is any name credited with more than it was served.
  ghost predicate Honest(g: Setting) {
    forall events: seq<Event>, v: World, n: string | Run(g, FRESH, events, v) ::
      Within(Get(v.acked, n), Get(v.served, n))
  }

  // That is so exactly when no two of the core's keys stand for one metered name.
  lemma OverCreditExactly(g: Setting)
    ensures Injective(g) <==> Honest(g)
  {
    if Injective(g) {
      forall events: seq<Event>, v: World, n: string | Run(g, FRESH, events, v)
        ensures Within(Get(v.acked, n), Get(v.served, n)) {
        NeverOverCredited(g, events, v, n);
      }
    } else {
      var a, b :| a in g.keys && b in g.keys && g.trim(a) == g.trim(b) && g.trim(a) !in g.skip && a != b;
      var events, v := OverCredited(g, a, b);
      assert !Within(Get(v.acked, g.trim(a)), Get(v.served, g.trim(a)));
      hide Run, Get;
      assert !Honest(g);
    }
  }

  // ---------------------------------------------------------------- what the panel has booked

  lemma PlusMoves(a: Counter, b: Counter, c: Counter)
    ensures Plus(Plus(a, b), c) == Plus(Plus(a, c), b) == Plus(a, Plus(b, c))
  {
  }

  // The panel has booked what was acknowledged and what was not heard of.
  predicate Balanced(w: World, n: string) {
    Get(w.panel, n) == Plus(Get(w.acked, n), Get(w.unheard, n))
  }

  lemma BalancedLanded(w: World, v: World, read: set<string>, lines: seq<Line>, n: string)
    requires Balanced(w, n) && v.panel == Booked(w.panel, read, lines)
    requires (v.acked == Booked(w.acked, read, lines) && v.unheard == w.unheard)
          || (v.acked == w.acked && v.unheard == Booked(w.unheard, read, lines))
    ensures Balanced(v, n)
  {
    BookedGet(w.panel, read, lines, n);
    BookedGet(w.acked, read, lines, n);
    BookedGet(w.unheard, read, lines, n);
    PlusMoves(Get(w.acked, n), Credit(lines, n), Get(w.unheard, n));
    PlusMoves(Get(w.acked, n), Get(w.unheard, n), Credit(lines, n));
    hide Booked, Credit, Plus, Get;
  }

  lemma BalancedSame(w: World, v: World, n: string)
    requires Balanced(w, n) && v.panel == w.panel && v.acked == w.acked && v.unheard == w.unheard
    ensures Balanced(v, n)
  {
  }

  lemma SettledTotals(g: Setting, w: World, fate: Fate, read: set<string>, lines: seq<Line>)
    requires w.pending.Some? && !fate.Lost? && read == Names(g, w.pending.value.rows) && lines == w.pending.value.lines
    ensures Enabled(g, w, Settle(fate)) && Next(g, w, Settle(fate)).panel == Booked(w.panel, read, lines)
    ensures var v := Next(g, w, Settle(fate));
      if fate.Landed? then v.acked == Booked(w.acked, read, lines) && v.unheard == w.unheard
      else v.acked == w.acked && v.unheard == Booked(w.unheard, read, lines)
  {
    hide Booked, Readings, Names, Merged, PassedOver;
  }

  lemma OtherTotals(g: Setting, w: World, e: Event)
    requires Enabled(g, w, e) && (e.Settle? ==> e.fate.Lost?)
    ensures var v := Next(g, w, e); v.panel == w.panel && v.acked == w.acked && v.unheard == w.unheard
  {
    hide Readings, Names, Lines, Trimmed, Distinct, NamesOf, Plus, Get;
  }

  lemma UnderWay(g: Setting, w: World, e: Event)
    requires Enabled(g, w, e) && e.Settle?
    ensures w.pending.Some?
  {
  }

  lemma PanelStep(g: Setting, w: World, e: Event, n: string)
    requires Enabled(g, w, e) && Balanced(w, n)
    ensures Balanced(Next(g, w, e), n)
  {
    hide Booked, Balanced, Names, Next, Enabled;
    if e.Settle? && !e.fate.Lost? {
      UnderWay(g, w, e);
      var read, lines := Names(g, w.pending.value.rows), w.pending.value.lines;
      SettledTotals(g, w, e.fate, read, lines);
      BalancedLanded(w, Next(g, w, e), read, lines, n);
    } else {
      OtherTotals(g, w, e);
      BalancedSame(w, Next(g, w, e), n);
    }
  }

  lemma {:induction false} PanelRuns(g: Setting, w: World, events: seq<Event>, v: World, n: string)
    requires Run(g, w, events, v) && Balanced(w, n)
    ensures Balanced(v, n)
    decreases |events|
  {
    hide Next, Enabled, Balanced;
    if events != [] {
      PanelStep(g, w, events[0], n);
      PanelRuns(g, Next(g, w, events[0]), events[1..], v, n);
    }
  }

  lemma FreshBalanced(n: string)
    ensures Balanced(FRESH, n)
  {
    PlusZero(ZERO);
    hide Plus;
  }

  lemma BalancedGet(w: World, n: string)
    requires Balanced(w, n)
    ensures Get(w.panel, n) == Plus(Get(w.acked, n), Get(w.unheard, n))
  {
  }

  lemma WithinPlus(p: Counter, a: Counter, b: Counter, c: Counter)
    requires p == Plus(a, c) && Within(a, b)
    ensures Within(p, Plus(b, c))
  {
  }

  // The panel has booked what the node was told it had and, beyond that, exactly what was said by the reports whose
  // answer was lost; those bytes are still due in the node's eyes and will be reported again.
  lemma PanelBooks(g: Setting, events: seq<Event>, v: World, n: string)
    requires Run(g, FRESH, events, v)
    ensures Get(v.panel, n) == Plus(Get(v.acked, n), Get(v.unheard, n))
    ensures Injective(g) ==> Within(Get(v.panel, n), Plus(Get(v.served, n), Get(v.unheard, n)))
  {
    hide Run, Get, Balanced, Plus, Within;
    FreshBalanced(n);
    PanelRuns(g, FRESH, events, v, n);
    BalancedGet(v, n);
    if Injective(g) {
      NeverOverCredited(g, events, v, n);
      WithinPlus(Get(v.panel, n), Get(v.acked, n), Get(v.served, n), Get(v.unheard, n));
    }
  }
}
