/** The usage figure of a subscription: entries folded per identity, then across identities. */
module Usage {

  datatype Traffic = Traffic(up: int, down: int, total: int, expiry: int)

  // The fold of one or more entries; `seeded` says there was one.
  datatype Fold = Fold(traffic: Traffic, seeded: bool)

  const UNSEEDED := Fold(Traffic(0, 0, 0, 0), false)

  function Folded(f: Fold, t: Traffic): Fold {
    if !f.seeded then Fold(t.(expiry := if t.expiry > 0 then t.expiry else 0), true)
    else
      var g := f.traffic;
      Fold(Traffic(g.up + t.up, g.down + t.down,
                   if g.total == 0 || t.total == 0 then 0 else g.total + t.total,
                   if t.expiry != g.expiry then 0 else g.expiry), true)
  }

  function FoldAll(ts: seq<Traffic>): Fold {
    if ts == [] then UNSEEDED else Folded(FoldAll(ts[..|ts| - 1]), ts[|ts| - 1])
  }

  // ---------------------------------------------------------------- the accumulator, in place

  class QuotaFold {
    var traffic: Traffic
    var seeded: bool

    function View(): Fold
      reads this
    {
      Fold(traffic, seeded)
    }

    predicate Valid()
      reads this
    {
      seeded || View() == UNSEEDED
    }

    constructor ()
      ensures View() == UNSEEDED && Valid()
    {
      traffic, seeded := Traffic(0, 0, 0, 0), false;
    }

    method Add(t: Traffic)
      requires Valid()
      modifies this
      ensures View() == Folded(old(View()), t) && Valid()
    {
      if !seeded {
        seeded := true;
        traffic := traffic.(up := t.up, down := t.down, total := t.total);
        if t.expiry > 0 { traffic := traffic.(expiry := t.expiry); }
        return;
      }
      traffic := traffic.(up := traffic.up + t.up, down := traffic.down + t.down);
      if traffic.total == 0 || t.total == 0 {
        traffic := traffic.(total := 0);
      } else {
        traffic := traffic.(total := traffic.total + t.total);
      }
      if t.expiry != traffic.expiry { traffic := traffic.(expiry := 0); }
    }
  }

  // One membership's contribution: its identity, its row, and whether the row came from the accounts layer.
  datatype Call = Call(key: string, traffic: Traffic, lastOnline: int, backed: bool)

  datatype Item = Item(fold: Fold, counted: bool)

  // The identities in order of appearance, and what each has come to.
  datatype State = State(order: seq<string>, entries: map<string, Item>, lastOnline: int)

  function Added(s: State, c: Call): State {
    var online := if c.lastOnline > s.lastOnline then c.lastOnline else s.lastOnline;
    var known := c.key in s.entries;
    var item := if known then s.entries[c.key] else Item(UNSEEDED, false);
    var order := if known then s.order else s.order + [c.key];
    if c.backed && item.counted then State(order, s.entries[c.key := item], online)
    else State(order, s.entries[c.key := Item(Folded(item.fold, c.traffic), item.counted || c.backed)], online)
  }

  function Collect(calls: seq<Call>): State {
    if calls == [] then State([], map[], 0) else Added(Collect(calls[..|calls| - 1]), calls[|calls| - 1])
  }

  ghost predicate Indexed(s: State) {
    (forall k :: k in s.order <==> k in s.entries) && (forall i, j | 0 <= i < j < |s.order| :: s.order[i] != s.order[j])
  }

  ghost function Figures(s: State): seq<Traffic>
    requires Indexed(s)
  {
    seq(|s.order|, i requires 0 <= i < |s.order| => assert s.order[i] in s.order; s.entries[s.order[i]].fold.traffic)
  }

  class SubUsage {
    var order: seq<string>
    var entries: map<string, Item>
    var lastOnline: int

    function View(): State
      reads this
    {
      State(order, entries, lastOnline)
    }

    constructor ()
      ensures View() == Collect([])
    {
      order, entries, lastOnline := [], map[], 0;
    }

    method Add(c: Call)
      modifies this
      ensures View() == Added(old(View()), c)
    {
      if c.lastOnline > lastOnline { lastOnline := c.lastOnline; }
      if c.key !in entries {
        entries := entries[c.key := Item(UNSEEDED, false)];
        order := order + [c.key];
      }
      var entry := entries[c.key];
      if c.backed {
        if entry.counted { return; }
        entry := entry.(counted := true);
      }
      entries := entries[c.key := entry.(fold := Folded(entry.fold, c.traffic))];
    }

    method Result() returns (t: Traffic)
      requires Indexed(View())
      ensures t == FoldAll(Figures(View())).traffic
    {
      var out := new QuotaFold();
      ghost var figures := Figures(View());
      for i := 0 to |order|
        invariant out.Valid() && fresh(out) && out.View() == FoldAll(figures[..i])
      {
        assert figures[..i + 1][..i] == figures[..i];
        assert order[i] in order;
        out.Add(entries[order[i]].fold.traffic);
      }
      assert figures[..|order|] == figures;
      t := out.traffic;
    }
  }

  // ---------------------------------------------------------------- two levels are one

  // For non-negative totals the fold is a commutative, associative joining of rows with negative expiries struck out.
  function Norm(t: Traffic): Traffic {
    t.(expiry := if t.expiry > 0 then t.expiry else 0)
  }

  function Join(a: Traffic, b: Traffic): Traffic {
    Traffic(a.up + b.up, a.down + b.down,
            if a.total == 0 || b.total == 0 then 0 else a.total + b.total,
            if a.expiry == b.expiry then a.expiry else 0)
  }

  predicate Plain(ts: seq<Traffic>) {
    forall i | 0 <= i < |ts| :: ts[i].total >= 0
  }

  predicate Proper(t: Traffic) {
    t.total >= 0 && t.expiry >= 0
  }

  lemma JoinLaws(a: Traffic, b: Traffic, c: Traffic)
    requires Proper(a) && Proper(b) && Proper(c)
    ensures Join(a, b) == Join(b, a) && Join(Join(a, b), c) == Join(a, Join(b, c)) && Proper(Join(a, b))
  {
  }

  lemma JoinSwap(x: Traffic, t: Traffic, u: Traffic)
    requires Proper(x) && Proper(t) && Proper(u)
    ensures Join(Join(x, t), u) == Join(Join(x, u), t)
  {
  }

  lemma {:induction false} FoldStep(ts: seq<Traffic>, t: Traffic)
    requires Plain(ts) && t.total >= 0
    ensures var f := FoldAll(ts + [t]);
      f.seeded && Proper(f.traffic) && f.traffic == if ts == [] then Norm(t) else Join(FoldAll(ts).traffic, Norm(t))
    ensures ts != [] ==> FoldAll(ts).seeded && Proper(FoldAll(ts).traffic)
    decreases |ts|
  {
    LastFold(ts, t);
    if ts == [] {
      assert FoldAll(ts) == UNSEEDED;
    } else {
      var n := |ts| - 1;
      assert ts[..n] + [ts[n]] == ts;
      FoldStep(ts[..n], ts[n]);
      hide FoldAll;
      JoinProper(FoldAll(ts), t);
    }
  }

  lemma LastFold(ts: seq<Traffic>, t: Traffic)
    ensures FoldAll(ts + [t]) == Folded(FoldAll(ts), t)
  {
    assert (ts + [t])[..|ts|] == ts;
  }

  lemma JoinProper(f: Fold, t: Traffic)
    requires f.seeded && Proper(f.traffic) && t.total >= 0
    ensures Folded(f, t) == Fold(Join(f.traffic, Norm(t)), true) && Proper(Join(f.traffic, Norm(t)))
  {
  }

  lemma NormProper(t: Traffic)
    requires t.total >= 0
    ensures Proper(Norm(t))
  {
  }

  lemma InsertBeforeOne(t: Traffic, u: Traffic)
    requires t.total >= 0 && u.total >= 0
    ensures FoldAll([t] + [u]).traffic == Join(FoldAll([] + [u]).traffic, Norm(t)) && Proper(FoldAll([] + [u]).traffic)
  {
    FoldStep([], u);
    assert [] + [t] == [t];
    FoldStep([], t);
    FoldStep([t], u);
  }

  lemma InsertBeforeLast(x: seq<Traffic>, y: seq<Traffic>, t: Traffic, u: Traffic)
    requires Plain(x) && Plain(y) && t.total >= 0 && u.total >= 0 && x != [] && y != []
    requires FoldAll(y).traffic == Join(FoldAll(x).traffic, Norm(t)) && Proper(FoldAll(x).traffic)
    ensures FoldAll(y + [u]).traffic == Join(FoldAll(x + [u]).traffic, Norm(t)) && Proper(FoldAll(x + [u]).traffic)
  {
    FoldStep(x, u);
    FoldStep(y, u);
    NormProper(t);
    NormProper(u);
    hide FoldAll, Join, Norm;
    JoinSwap(FoldAll(x).traffic, Norm(t), Norm(u));
  }

  // An entry counts the same wherever it stands among the others.
  lemma {:induction false} FoldInsert(a: seq<Traffic>, t: Traffic, b: seq<Traffic>)
    requires Plain(a) && Plain(b) && t.total >= 0 && a + b != []
    ensures FoldAll(a + [t] + b).traffic == Join(FoldAll(a + b).traffic, Norm(t)) && Proper(FoldAll(a + b).traffic)
    decreases |b|
  {
    if b == [] {
      assert a + [t] + b == a + [t] && a + b == a;
      FoldStep(a, t);
    } else {
      var n := |b| - 1;
      var front, u := b[..n], b[n];
      assert b == front + [u];
      assert a + [t] + b == (a + [t] + front) + [u] && a + b == (a + front) + [u];
      hide FoldAll, Join, Norm;
      if a + front == [] {
        assert a + [t] + front == [t];
        InsertBeforeOne(t, u);
      } else {
        FoldInsert(a, t, front);
        InsertBeforeLast(a + front, a + [t] + front, t, u);
      }
    }
  }

  lemma Without(b: seq<Traffic>, i: nat)
    requires i < |b|
    ensures multiset(b[..i] + b[i + 1..]) == multiset(b) - multiset{b[i]} && b == b[..i] + [b[i]] + b[i + 1..]
  {
    assert b == b[..i] + [b[i]] + b[i + 1..];
  }

  lemma SameSize(a: seq<Traffic>, b: seq<Traffic>)
    requires multiset(a) == multiset(b)
    ensures |a| == |b|
  {
    assert |a| == |multiset(a)| && |b| == |multiset(b)|;
  }

  lemma MoveToEnd(front: seq<Traffic>, left: seq<Traffic>, t: Traffic, right: seq<Traffic>)
    requires Plain(front) && Plain(left) && Plain(right) && t.total >= 0
    requires FoldAll(front) == FoldAll(left + right) && |front| == |left + right|
    ensures FoldAll(front + [t]) == FoldAll(left + [t] + right)
  {
    hide FoldAll, Plain;
    FoldStep(front, t);
    if left + right == [] {
      assert front + [t] == left + [t] + right;
    } else {
      FoldInsert(left, t, right);
      SeededAll(left + [t] + right);
      SameFold(FoldAll(front + [t]), FoldAll(left + [t] + right));
    }
  }

  lemma SameFold(a: Fold, b: Fold)
    requires a.traffic == b.traffic && a.seeded == b.seeded
    ensures a == b
  {
  }

  lemma Matched(a: seq<Traffic>, b: seq<Traffic>)
    returns (front: seq<Traffic>, left: seq<Traffic>, t: Traffic, right: seq<Traffic>)
    requires multiset(a) == multiset(b) && a != []
    ensures a == front + [t] && b == left + [t] + right && multiset(front) == multiset(left + right)
  {
    var n := |a| - 1;
    front, t := a[..n], a[n];
    assert t in multiset(b);
    var i :| 0 <= i < |b| && b[i] == t;
    left, right := b[..i], b[i + 1..];
    Without(b, i);
    Without(a, n);
    assert a[..n] + a[n + 1..] == a[..n];
  }

  // The fold does not depend on the order of the entries.
  lemma {:induction false} FoldAnyOrder(a: seq<Traffic>, b: seq<Traffic>)
    requires multiset(a) == multiset(b) && Plain(a)
    ensures FoldAll(a) == FoldAll(b)
    decreases |a|
  {
    SameSize(a, b);
    if a != [] {
      var front, left, t, right := Matched(a, b);
      PlainSame(a, b);
      assert Plain(front) && Plain(left) && Plain(right) && a[|front|] == t by {
        assert forall i | 0 <= i < |front| :: front[i] == a[i];
        assert forall i | 0 <= i < |left| :: left[i] == b[i];
        assert forall i | 0 <= i < |right| :: right[i] == b[|left| + 1 + i];
      }
      hide FoldAll, Plain;
      FoldAnyOrder(front, left + right);
      MoveToEnd(front, left, t, right);
    }
  }

  lemma PlainSame(a: seq<Traffic>, b: seq<Traffic>)
    requires multiset(a) == multiset(b) && Plain(a)
    ensures Plain(b)
  {
    forall i | 0 <= i < |b| ensures b[i].total >= 0 {
      assert b[i] in multiset(b);
      assert b[i] in a;
    }
  }

  lemma SeededAll(ts: seq<Traffic>)
    ensures ts != [] ==> FoldAll(ts).seeded
  {
  }

  // ---- the entries that count

  ghost predicate Counts(calls: seq<Call>, key: string) {
    exists i :: 0 <= i < |calls| && calls[i].backed && calls[i].key == key
  }

  // Of the rows an account's memberships bring, only the first counts; every other entry counts by itself.
  ghost function Kept(calls: seq<Call>): seq<Traffic> {
    if calls == [] then []
    else
      var n := |calls| - 1;
      if calls[n].backed && Counts(calls[..n], calls[n].key) then Kept(calls[..n])
        else Kept(calls[..n]) + [calls[n].traffic]
  }

  ghost predicate Tidy(calls: seq<Call>) {
    var s := Collect(calls);
    Indexed(s) && (forall k | k in s.entries ::
      s.entries[k].fold.seeded && (s.entries[k].counted <==> Counts(calls, k)))
  }

  lemma CountsStep(calls: seq<Call>, k: string)
    requires calls != []
    ensures var n := |calls| - 1;
      Counts(calls, k) <==> Counts(calls[..n], k) || (calls[n].backed && calls[n].key == k)
  {
    var n := |calls| - 1;
    if Counts(calls, k) {
      var i :| 0 <= i < |calls| && calls[i].backed && calls[i].key == k;
      assert i == n || (calls[..n][i].backed && calls[..n][i].key == k);
    }
    if Counts(calls[..n], k) {
      var i :| 0 <= i < n && calls[..n][i].backed && calls[..n][i].key == k;
      assert calls[i].backed && calls[i].key == k;
    }
  }

  lemma AddedIndexed(s: State, c: Call)
    requires Indexed(s)
    ensures Indexed(Added(s, c))
  {
    var t := Added(s, c);
    forall k ensures k in t.order <==> k in t.entries {
      assert k in s.order <==> k in s.entries;
    }
  }

  lemma {:induction false} AlwaysTidy(calls: seq<Call>)
    ensures Tidy(calls)
    ensures forall k | Counts(calls, k) :: k in Collect(calls).entries
  {
    if calls != [] {
      var n := |calls| - 1;
      var front, c := calls[..n], calls[n];
      AlwaysTidy(front);
      AddedIndexed(Collect(front), c);
      forall k ensures Counts(calls, k) <==> Counts(front, k) || (c.backed && c.key == k) { CountsStep(calls, k); }
    }
  }

  // ---- the two levels

  lemma ProperNorm(t: Traffic)
    requires Proper(t)
    ensures Norm(t) == t
  {
  }

  lemma FoldUpdate(fs: seq<Traffic>, i: nat, t: Traffic)
    requires i < |fs| && (forall j | 0 <= j < |fs| :: Proper(fs[j])) && Proper(t)
    ensures FoldAll(fs[i := Join(fs[i], t)]).traffic == Join(FoldAll(fs).traffic, t)
  {
    var left, x, right := fs[..i], fs[i], fs[i + 1..];
    var y := Join(x, t);
    assert fs == left + [x] + right && fs[i := y] == left + [y] + right;
    JoinLaws(x, t, t);
    ProperNorm(x);
    ProperNorm(y);
    ProperNorm(t);
    if left + right == [] {
      assert fs == [] + [x] && fs[i := y] == [] + [y];
      FoldStep([], x);
      FoldStep([], y);
    } else {
      FoldInsert(left, x, right);
      FoldInsert(left, y, right);
      JoinLaws(FoldAll(left + right).traffic, x, t);
    }
  }

  ghost predicate ProperItems(s: State) {
    forall k | k in s.entries :: s.entries[k].fold.seeded && Proper(s.entries[k].fold.traffic)
  }

  lemma FiguresProper(s: State)
    requires Indexed(s) && ProperItems(s)
    ensures forall j | 0 <= j < |Figures(s)| :: Proper(Figures(s)[j])
  {
    forall j | 0 <= j < |Figures(s)| ensures Proper(Figures(s)[j]) { assert s.order[j] in s.order; }
  }

  lemma AddedProper(s: State, c: Call)
    requires ProperItems(s) && c.traffic.total >= 0
    ensures ProperItems(Added(s, c))
  {
  }

  lemma AddedKnown(s: State, c: Call) returns (i: nat)
    requires Indexed(s) && c.key in s.entries && s.entries[c.key].fold.seeded && !(c.backed && s.entries[c.key].counted)
    ensures Indexed(Added(s, c)) && i < |Figures(s)| && s.order[i] == c.key
    ensures Figures(Added(s, c)) == Figures(s)[i := Folded(Fold(Figures(s)[i], true), c.traffic).traffic]
  {
    AddedIndexed(s, c);
    assert c.key in s.order;
    i :| 0 <= i < |s.order| && s.order[i] == c.key;
  }

  lemma AddedUnknown(s: State, c: Call)
    requires Indexed(s) && c.key !in s.entries
    ensures Indexed(Added(s, c)) && Figures(Added(s, c)) == Figures(s) + [Norm(c.traffic)]
  {
    AddedIndexed(s, c);
    forall i | 0 <= i < |s.order| ensures s.order[i] in s.entries { assert s.order[i] in s.order; }
  }

  // A new row joins the overall figure whichever identity it goes to.
  lemma AddedFigure(s: State, c: Call)
    requires Indexed(s) && ProperItems(s) && c.traffic.total >= 0
    requires !(c.backed && c.key in s.entries && s.entries[c.key].counted)
    ensures Indexed(Added(s, c)) && ProperItems(Added(s, c))
    ensures var before, after := FoldAll(Figures(s)), FoldAll(Figures(Added(s, c)));
      after.traffic == if s.order == [] then Norm(c.traffic) else Join(before.traffic, Norm(c.traffic))
  {
    AddedProper(s, c);
    FiguresProper(s);
    var fs, t := Figures(s), Norm(c.traffic);
    if c.key in s.entries {
      var i := AddedKnown(s, c);
      assert Folded(Fold(fs[i], true), c.traffic).traffic == Join(fs[i], t);
      hide FoldAll, Figures, Added, Join;
      FoldUpdate(fs, i, t);
      assert s.order != [] by { assert c.key in s.order; }
    } else {
      AddedUnknown(s, c);
      assert |fs| == |s.order|;
      hide FoldAll, Figures, Added, Join;
      FoldStep(fs, t);
    }
  }

  // Folding per identity and then across identities gives what folding the counted entries one after another
  // gives, and so in any order.
  lemma {:induction false} TwoLevels(calls: seq<Call>)
    requires Plain(Kept(calls))
    ensures var s := Collect(calls);
      Indexed(s) && ProperItems(s) && FoldAll(Figures(s)).traffic == FoldAll(Kept(calls)).traffic
      && (s.order == [] <==> Kept(calls) == [])
  {
    if calls != [] {
      var n := |calls| - 1;
      var front, c := calls[..n], calls[n];
      AlwaysTidy(front);
      KeptPlain(front, c.traffic, Kept(calls));
      TwoLevels(front);
      AddedIndexed(Collect(front), c);
      if c.backed && Counts(front, c.key) {
        assert Figures(Collect(calls)) == Figures(Collect(front));
      } else {
        var kept := Kept(front);
        assert Kept(calls) == kept + [c.traffic] && Kept(calls)[|kept|] == c.traffic;
        AddedFigure(Collect(front), c);
        FoldStep(kept, c.traffic);
      }
    }
  }

  lemma KeptPlain(front: seq<Call>, t: Traffic, all: seq<Traffic>)
    requires Plain(all) && (all == Kept(front) || all == Kept(front) + [t])
    ensures Plain(Kept(front))
  {
    forall i | 0 <= i < |Kept(front)| ensures Kept(front)[i].total >= 0 { assert all[i] == Kept(front)[i]; }
  }

  lemma AnyOrder(calls: seq<Call>, entries: seq<Traffic>)
    requires Plain(Kept(calls)) && multiset(entries) == multiset(Kept(calls))
    ensures Indexed(Collect(calls)) && FoldAll(Figures(Collect(calls))).traffic == FoldAll(entries).traffic
  {
    TwoLevels(calls);
    FoldAnyOrder(Kept(calls), entries);
  }

  // However many memberships an account has, it contributes once.
  lemma CountedOnce(calls: seq<Call>, c: Call)
    requires c.backed && Counts(calls, c.key)
    ensures Indexed(Collect(calls)) && Indexed(Collect(calls + [c]))
      && Figures(Collect(calls + [c])) == Figures(Collect(calls))
  {
    AlwaysTidy(calls);
    assert (calls + [c])[..|calls|] == calls;
    AddedIndexed(Collect(calls), c);
  }

  // ---------------------------------------------------------------- what the figures mean

  function Ups(ts: seq<Traffic>): int {
    if ts == [] then 0 else Ups(ts[..|ts| - 1]) + ts[|ts| - 1].up
  }

  function Downs(ts: seq<Traffic>): int {
    if ts == [] then 0 else Downs(ts[..|ts| - 1]) + ts[|ts| - 1].down
  }

  // The entries agree on when they expire, never being zero.
  predicate ExpireAt(ts: seq<Traffic>, when: int) {
    forall i | 0 <= i < |ts| :: (if ts[i].expiry > 0 then ts[i].expiry else 0) == when
  }

  // The bytes are added up, and the expiry is that of every entry if they all have the same one, else none.
  lemma {:induction false} FoldMeans(ts: seq<Traffic>)
    ensures FoldAll(ts).traffic.up == Ups(ts) && FoldAll(ts).traffic.down == Downs(ts)
    ensures ts != [] ==> FoldAll(ts).seeded
    ensures forall when | ts != [] && ExpireAt(ts, when) :: FoldAll(ts).traffic.expiry == when
    ensures FoldAll(ts).traffic.expiry != 0 ==> ExpireAt(ts, FoldAll(ts).traffic.expiry)
    ensures FoldAll(ts).traffic.expiry >= 0
  {
    if ts != [] {
      var n := |ts| - 1;
      var front, t := ts[..n], ts[n];
      FoldMeans(front);
      forall when ensures ExpireAt(ts, when) <==>
        ExpireAt(front, when) && (if t.expiry > 0 then t.expiry else 0) == when {
        assert forall i | 0 <= i < n :: front[i] == ts[i];
      }
    }
  }

  // When the subscription was last online is the latest of its memberships' times, and never before the epoch.
  lemma {:induction false} OnlineIsLatest(calls: seq<Call>)
    ensures var last := Collect(calls).lastOnline;
      last >= 0 && (forall i | 0 <= i < |calls| :: calls[i].lastOnline <= last)
      && (last == 0 || exists i | 0 <= i < |calls| :: calls[i].lastOnline == last)
  {
    if calls != [] {
      var n := |calls| - 1;
      OnlineIsLatest(calls[..n]);
      assert forall i | 0 <= i < n :: calls[..n][i] == calls[i];
      var before, last := Collect(calls[..n]).lastOnline, Collect(calls).lastOnline;
      if last == before && last != 0 {
        var i :| 0 <= i < n && calls[..n][i].lastOnline == before;
        assert calls[i].lastOnline == last;
      }
    }
  }

  // ---------------------------------------------------------------- totals that may be negative

  function Sum(xs: seq<int>): int {
    if xs == [] then 0 else Sum(xs[..|xs| - 1]) + xs[|xs| - 1]
  }

  // A running total that meets a zero, or comes to zero, stays there.
  ghost predicate Collapses(xs: seq<int>) {
    exists i :: CollapsesAt(xs, i)
  }

  predicate CollapsesAt(xs: seq<int>, i: int) {
    0 <= i < |xs| && (xs[i] == 0 || Sum(xs[..i + 1]) == 0)
  }

  function Totals(ts: seq<Traffic>): seq<int> {
    seq(|ts|, i requires 0 <= i < |ts| => ts[i].total)
  }

  lemma CollapsesStep(xs: seq<int>, x: int)
    ensures Collapses(xs + [x]) <==> Collapses(xs) || x == 0 || Sum(xs + [x]) == 0
  {
    var ys := xs + [x];
    forall i | 0 <= i < |xs| ensures CollapsesAt(ys, i) == CollapsesAt(xs, i) { assert ys[..i + 1] == xs[..i + 1]; }
    assert ys[..|xs| + 1] == ys && (CollapsesAt(ys, |xs|) <==> x == 0 || Sum(ys) == 0);
    if Collapses(xs) {
      var i :| CollapsesAt(xs, i);
      assert CollapsesAt(ys, i);
    }
    if Collapses(ys) {
      var i :| CollapsesAt(ys, i);
      assert i < |xs| ==> CollapsesAt(xs, i);
    }
  }

  lemma SumStep(xs: seq<int>, x: int)
    ensures Sum(xs + [x]) == Sum(xs) + x
  {
    assert (xs + [x])[..|xs|] == xs;
  }

  lemma {:induction false} FoldTotal(ts: seq<Traffic>)
    ensures FoldAll(ts).traffic.total == if Collapses(Totals(ts)) then 0 else Sum(Totals(ts))
  {
    if ts == [] {
      assert Totals(ts) == [];
    } else {
      var n := |ts| - 1;
      FoldTotal(ts[..n]);
      assert Totals(ts) == Totals(ts[..n]) + [ts[n].total];
      CollapsesStep(Totals(ts[..n]), ts[n].total);
      SumStep(Totals(ts[..n]), ts[n].total);
      SeededAll(ts[..n]);
      var xs := Totals(ts[..n]);
      assert n > 0 ==> xs[..n] == xs && (CollapsesAt(xs, n - 1) || Sum(xs) != 0);
    }
  }

  lemma {:induction false} SumUpdate(xs: seq<int>, i: nat, y: int)
    requires i < |xs|
    ensures Sum(xs[i := y]) == Sum(xs) + y - xs[i]
  {
    var n := |xs| - 1;
    if i < n {
      SumUpdate(xs[..n], i, y);
      assert xs[i := y][..n] == xs[..n][i := y];
    } else {
      assert xs[i := y][..n] == xs[..n];
    }
  }

  predicate NoZero(xs: seq<int>) {
    forall i | 0 <= i < |xs| :: xs[i] != 0
  }

  // While no identity's own total has collapsed, the identities' totals add up to the entries'.
  lemma {:induction false} SumsAgree(calls: seq<Call>)
    ensures Indexed(Collect(calls))
    ensures NoZero(Totals(Figures(Collect(calls)))) ==> Sum(Totals(Figures(Collect(calls)))) == Sum(Totals(Kept(calls)))
  {
    AlwaysTidy(calls);
    if calls != [] {
      var n := |calls| - 1;
      var front, c := calls[..n], calls[n];
      AlwaysTidy(front);
      SumsAgree(front);
      var s := Collect(front);
      if c.backed && Counts(front, c.key) {
        assert Figures(Collect(calls)) == Figures(s);
      } else {
        assert Kept(calls) == Kept(front) + [c.traffic];
        assert Totals(Kept(calls)) == Totals(Kept(front)) + [c.traffic.total];
        SumStep(Totals(Kept(front)), c.traffic.total);
        AddedSum(s, c);
      }
    }
  }

  lemma SumOfUpdate(fs: seq<int>, i: nat, x: int, gs: seq<int>)
    requires i < |fs| && gs == fs[i := if fs[i] == 0 || x == 0 then 0 else fs[i] + x] && NoZero(gs)
    ensures NoZero(fs) && Sum(gs) == Sum(fs) + x
  {
    SumUpdate(fs, i, gs[i]);
    forall j | 0 <= j < |fs| ensures fs[j] != 0 { assert j != i ==> gs[j] == fs[j]; }
  }

  lemma SumOfAppend(fs: seq<int>, x: int)
    requires NoZero(fs + [x])
    ensures NoZero(fs) && Sum(fs + [x]) == Sum(fs) + x
  {
    SumStep(fs, x);
    forall j | 0 <= j < |fs| ensures fs[j] != 0 { assert (fs + [x])[j] == fs[j]; }
  }

  lemma AddedSum(s: State, c: Call)
    requires Indexed(s) && (forall k | k in s.entries :: s.entries[k].fold.seeded)
    requires !(c.backed && c.key in s.entries && s.entries[c.key].counted)
    ensures Indexed(Added(s, c))
    ensures NoZero(Totals(Figures(Added(s, c)))) ==>
      NoZero(Totals(Figures(s))) && Sum(Totals(Figures(Added(s, c)))) == Sum(Totals(Figures(s))) + c.traffic.total
  {
    var fs, x := Totals(Figures(s)), c.traffic.total;
    if c.key in s.entries {
      var i := AddedKnown(s, c);
      hide Figures, Added, NoZero, Sum;
      var gs := Totals(Figures(Added(s, c)));
      assert gs == fs[i := if fs[i] == 0 || x == 0 then 0 else fs[i] + x];
      if NoZero(gs) { SumOfUpdate(fs, i, x, gs); }
    } else {
      AddedUnknown(s, c);
      hide Figures, Added, NoZero, Sum;
      var gs := Totals(Figures(Added(s, c)));
      assert gs == fs + [x];
      if NoZero(gs) { SumOfAppend(fs, x); }
    }
  }

  // ---- identity by identity

  // The identities in the order in which they are first met, and the entries of one that count.
  ghost function Identities(calls: seq<Call>): seq<string> {
    if calls == [] then []
    else
      var n := |calls| - 1;
      var before := Identities(calls[..n]);
      if calls[n].key in before then before else before + [calls[n].key]
  }

  ghost function Entries(calls: seq<Call>, key: string): seq<Traffic> {
    if calls == [] then []
    else
      var n := |calls| - 1;
      var before := Entries(calls[..n], key);
      if calls[n].key != key || (calls[n].backed && Counts(calls[..n], key)) then before
        else before + [calls[n].traffic]
  }

  // An identity's figure is the fold of its own entries.
  ghost predicate Separate(calls: seq<Call>, s: State) {
    Indexed(s) && s.order == Identities(calls)
    && (forall k | k in s.entries :: s.entries[k].fold == FoldAll(Entries(calls, k)))
    && (forall k | k !in s.entries :: Entries(calls, k) == [])
  }

  lemma EntriesStep(front: seq<Call>, c: Call, k: string)
    ensures var now, before := Entries(front + [c], k), Entries(front, k);
      if c.key != k || (c.backed && Counts(front, k)) then now == before
      else now == before + [c.traffic] && FoldAll(now) == Folded(FoldAll(before), c.traffic)
  {
    assert (front + [c])[..|front|] == front;
    LastFold(Entries(front, k), c.traffic);
  }

  lemma IdentitiesStep(front: seq<Call>, c: Call)
    ensures Identities(front + [c]) == if c.key in Identities(front) then Identities(front)
      else Identities(front) + [c.key]
    ensures Collect(front + [c]) == Added(Collect(front), c)
  {
    assert (front + [c])[..|front|] == front;
  }

  lemma SeparateKey(front: seq<Call>, c: Call, s: State, k: string)
    requires if k in s.entries
      then s.entries[k].fold == FoldAll(Entries(front, k)) && (s.entries[k].counted <==> Counts(front, k))
      else Entries(front, k) == [] && !Counts(front, k)
    ensures var t := Added(s, c);
      if k in t.entries then t.entries[k].fold == FoldAll(Entries(front + [c], k)) else Entries(front + [c], k) == []
  {
    EntriesStep(front, c, k);
    assert FoldAll([]) == UNSEEDED;
    hide Entries, FoldAll, Counts, Folded;
  }

  lemma SeparateStep(front: seq<Call>, c: Call, s: State)
    requires s == Collect(front) && Separate(front, s) && Tidy(front) && (forall k | Counts(front, k) :: k in s.entries)
    ensures Separate(front + [c], Added(s, c))
  {
    AddedIndexed(s, c);
    IdentitiesStep(front, c);
    var t := Added(s, c);
    assert c.key in s.order <==> c.key in s.entries;
    assert t.order == Identities(front + [c]);
    hide Collect, Entries, FoldAll, Counts, Added, Identities;
    forall k ensures if k in t.entries then t.entries[k].fold == FoldAll(Entries(front + [c], k))
      else Entries(front + [c], k) == [] {
      SeparateKey(front, c, s, k);
    }
  }

  lemma {:induction false} AlwaysSeparate(calls: seq<Call>)
    ensures Separate(calls, Collect(calls))
  {
    if calls == [] {
      assert FoldAll([]) == UNSEEDED;
    } else {
      var n := |calls| - 1;
      var front, c := calls[..n], calls[n];
      assert front + [c] == calls;
      hide Separate, Identities, Entries, Tidy, Counts, Added, Collect;
      AlwaysSeparate(front);
      AlwaysTidy(front);
      SeparateStep(front, c, Collect(front));
      IdentitiesStep(front, c);
    }
  }

  ghost function EntryTotals(calls: seq<Call>, key: string): seq<int> {
    Totals(Entries(calls, key))
  }

  ghost function IdentitySums(calls: seq<Call>): seq<int> {
    seq(|Identities(calls)|, i requires 0 <= i < |Identities(calls)| => Sum(EntryTotals(calls, Identities(calls)[i])))
  }

  // What a caller can tell from the entries: some identity's own running total collapses, or that of the
  // identities' sums does.
  ghost predicate TwiceCollapses(calls: seq<Call>) {
    (exists k :: k in Identities(calls) && Collapses(EntryTotals(calls, k))) || Collapses(IdentitySums(calls))
  }

  lemma FigureAt(calls: seq<Call>, i: nat)
    requires i < |Identities(calls)|
    ensures Indexed(Collect(calls)) && |Figures(Collect(calls))| == |Identities(calls)|
    ensures Figures(Collect(calls))[i] == FoldAll(Entries(calls, Identities(calls)[i])).traffic
  {
    AlwaysSeparate(calls);
    var s := Collect(calls);
    assert s.order[i] in s.order;
  }

  lemma FigureTotal(calls: seq<Call>, i: nat)
    requires i < |Identities(calls)|
    ensures Indexed(Collect(calls)) && |Figures(Collect(calls))| == |Identities(calls)|
    ensures var own := EntryTotals(calls, Identities(calls)[i]);
      Figures(Collect(calls))[i].total == if Collapses(own) then 0 else Sum(own)
  {
    FigureAt(calls, i);
    FoldTotal(Entries(calls, Identities(calls)[i]));
  }

  lemma FiguresCollapse(calls: seq<Call>)
    ensures Indexed(Collect(calls)) && (Collapses(Totals(Figures(Collect(calls)))) <==> TwiceCollapses(calls))
  {
    AlwaysSeparate(calls);
    var figures, names := Totals(Figures(Collect(calls))), Identities(calls);
    hide Collect, Identities, Entries, Sum, Figures;
    if k :| k in names && Collapses(EntryTotals(calls, k)) {
      var i :| 0 <= i < |names| && names[i] == k;
      FigureTotal(calls, i);
      assert CollapsesAt(figures, i);
    } else {
      forall i | 0 <= i < |names| ensures figures[i] == IdentitySums(calls)[i] { FigureTotal(calls, i); }
      assert figures == IdentitySums(calls);
    }
  }

  // ---- everything but the total

  function Blank(t: Traffic): Traffic {
    t.(total := 0)
  }

  function Blanks(ts: seq<Traffic>): seq<Traffic> {
    seq(|ts|, i requires 0 <= i < |ts| => Blank(ts[i]))
  }

  function BlankCalls(calls: seq<Call>): seq<Call> {
    seq(|calls|, i requires 0 <= i < |calls| => calls[i].(traffic := Blank(calls[i].traffic)))
  }

  lemma {:induction false} FoldBlanks(ts: seq<Traffic>)
    ensures FoldAll(Blanks(ts)).traffic == Blank(FoldAll(ts).traffic)
      && FoldAll(Blanks(ts)).seeded == FoldAll(ts).seeded
  {
    if ts != [] {
      var n := |ts| - 1;
      FoldBlanks(ts[..n]);
      assert Blanks(ts)[..n] == Blanks(ts[..n]);
      SeededAll(ts[..n]);
      SeededAll(Blanks(ts[..n]));
    }
  }

  lemma BlankFront(calls: seq<Call>, key: string)
    requires calls != []
    ensures var n := |calls| - 1; BlankCalls(calls)[..n] == BlankCalls(calls[..n])
    ensures Counts(BlankCalls(calls), key) <==> Counts(calls, key)
  {
    var bare := BlankCalls(calls);
    assert bare[..|calls| - 1] == BlankCalls(calls[..|calls| - 1]);
    if i :| 0 <= i < |calls| && calls[i].backed && calls[i].key == key { assert bare[i].backed && bare[i].key == key; }
    if i :| 0 <= i < |bare| && bare[i].backed && bare[i].key == key { assert calls[i].backed && calls[i].key == key; }
  }

  lemma BlanksAppend(ts: seq<Traffic>, t: Traffic)
    ensures Blanks(ts + [t]) == Blanks(ts) + [Blank(t)]
  {
  }

  lemma BlankCounts(calls: seq<Call>, key: string)
    ensures Counts(BlankCalls(calls), key) <==> Counts(calls, key)
  {
    if calls != [] { BlankFront(calls, key); }
  }

  lemma {:induction false} BlankKept(calls: seq<Call>)
    ensures Kept(BlankCalls(calls)) == Blanks(Kept(calls))
  {
    if calls != [] {
      var n := |calls| - 1;
      BlankKept(calls[..n]);
      BlankFront(calls, calls[n].key);
      BlankCounts(calls[..n], calls[n].key);
      hide Counts;
      BlanksAppend(Kept(calls[..n]), calls[n].traffic);
    }
  }

  lemma {:induction false} BlankEntries(calls: seq<Call>, key: string)
    ensures Entries(BlankCalls(calls), key) == Blanks(Entries(calls, key))
  {
    if calls != [] {
      var n := |calls| - 1;
      BlankEntries(calls[..n], key);
      BlankFront(calls, key);
      BlankCounts(calls[..n], key);
      hide Counts;
      BlanksAppend(Entries(calls[..n], key), calls[n].traffic);
    }
  }

  lemma {:induction false} BlankIdentities(calls: seq<Call>)
    ensures Identities(BlankCalls(calls)) == Identities(calls)
  {
    if calls != [] {
      var n := |calls| - 1;
      BlankIdentities(calls[..n]);
      BlankFront(calls, calls[n].key);
    }
  }

  lemma BlankFigures(calls: seq<Call>)
    ensures Indexed(Collect(calls)) && Indexed(Collect(BlankCalls(calls)))
    ensures Figures(Collect(BlankCalls(calls))) == Blanks(Figures(Collect(calls)))
  {
    AlwaysSeparate(calls);
    AlwaysSeparate(BlankCalls(calls));
    BlankIdentities(calls);
    var bare, figures, names := Figures(Collect(BlankCalls(calls))), Figures(Collect(calls)), Identities(calls);
    assert |bare| == |figures| == |names|;
    hide Collect, Identities, Entries, Figures, FoldAll;
    forall i | 0 <= i < |names| ensures bare[i] == Blank(figures[i]) {
      FigureAt(calls, i);
      FigureAt(BlankCalls(calls), i);
      BlankEntries(calls, names[i]);
      FoldBlanks(Entries(calls, names[i]));
    }
  }

  // Whatever the totals, the bytes and the expiry are those of the flat fold.
  lemma RestAgrees(calls: seq<Call>)
    ensures Indexed(Collect(calls))
      && Blank(FoldAll(Figures(Collect(calls))).traffic) == Blank(FoldAll(Kept(calls)).traffic)
  {
    BlankFigures(calls);
    BlankKept(calls);
    FoldBlanks(Figures(Collect(calls)));
    FoldBlanks(Kept(calls));
    hide Collect, Figures, Kept, FoldAll;
    TwoLevels(BlankCalls(calls));
  }

  // For totals of either sign the two-level figure is the flat one exactly when both running totals collapse or
  // neither does, or there is nothing to tell apart because the entries sum to zero.
  lemma AgreeExactly(calls: seq<Call>)
    ensures Indexed(Collect(calls))
    ensures FoldAll(Figures(Collect(calls))).traffic == FoldAll(Kept(calls)).traffic
      <==> ((TwiceCollapses(calls) <==> Collapses(Totals(Kept(calls)))) || Sum(Totals(Kept(calls))) == 0)
  {
    SumsAgree(calls);
    RestAgrees(calls);
    FiguresCollapse(calls);
    var figures, kept := Figures(Collect(calls)), Kept(calls);
    FoldTotal(figures);
    FoldTotal(kept);
    hide Collect, Figures, Kept, FoldAll, Sum, TwiceCollapses;
    if !Collapses(Totals(figures)) {
      forall i | 0 <= i < |Totals(figures)| ensures Totals(figures)[i] != 0 { assert !CollapsesAt(Totals(figures), i); }
    }
  }

  function Row(key: string, total: int): Call {
    Call(key, Traffic(0, 0, total, 0), 0, false)
  }

  lemma LastKept(calls: seq<Call>, c: Call)
    requires !c.backed
    ensures Kept(calls + [c]) == Kept(calls) + [c.traffic]
  {
    assert (calls + [c])[..|calls|] == calls;
  }

  lemma FlatZero(a: Call, b: Call, c: Call)
    requires !a.backed && !b.backed && !c.backed && a.traffic.total + b.traffic.total == 0
    ensures FoldAll(Kept([] + [a] + [b] + [c])).traffic.total == 0
  {
    LastKept([], a);
    LastKept([] + [a], b);
    LastKept([] + [a] + [b], c);
    LastFold([], a.traffic);
    LastFold([] + [a.traffic], b.traffic);
    LastFold([] + [a.traffic] + [b.traffic], c.traffic);
    assert FoldAll([]) == UNSEEDED && Kept([]) == [];
    hide FoldAll, Kept;
  }

  lemma OneNew(front: seq<Call>, c: Call, s: State)
    requires s == Collect(front) && Indexed(s) && c.key !in s.entries && !c.backed
    ensures var t := Collect(front + [c]);
      Indexed(t) && t.order == s.order + [c.key] && t.entries.Keys == s.entries.Keys + {c.key}
      && t.entries[c.key] == Item(Folded(UNSEEDED, c.traffic), false) && Figures(t) == Figures(s) + [Norm(c.traffic)]
  {
    IdentitiesStep(front, c);
    AddedUnknown(s, c);
    hide Collect, Figures, Indexed;
  }

  lemma TwoNew(k: string, l: string, a: Call, b: Call)
    requires k != l && a.key == k && b.key == l && !a.backed && !b.backed
    ensures var s := Collect([] + [a] + [b]);
      Indexed(s) && s.order == [k, l] && l in s.entries && s.entries[l] == Item(Folded(UNSEEDED, b.traffic), false)
      && Figures(s) == [] + [Norm(a.traffic)] + [Norm(b.traffic)]
  {
    var s := Collect([]);
    assert s == State([], map[], 0) && Indexed(s) && Figures(s) == [];
    hide Collect, Indexed, Figures, Folded;
    OneNew([], a, s);
    OneNew([] + [a], b, Collect([] + [a]));
  }

  lemma FiguresOf(k: string, l: string, n: int, m: int)
    requires k != l && n != 0 && m != 0
    ensures var s := Collect([] + [Row(k, n)] + [Row(l, -n)] + [Row(l, m)]);
      Indexed(s) && Figures(s) == [] + [Row(k, n).traffic] + [Row(k, m - n).traffic]
  {
    hide Collect, Identities, Added, Figures;
    var a, b, c := Row(k, n), Row(l, -n), Row(l, m);
    TwoNew(k, l, a, b);
    IdentitiesStep([] + [a] + [b], c);
    var s := Collect([] + [a] + [b]);
    var i := AddedKnown(s, c);
    assert i == 1;
  }

  // And they do differ: with n for one identity, -n and then m for another, the flat total collapses to zero, which
  // reads as unlimited, and the two-level one is m.
  lemma NegativeTotalsDiffer(k: string, l: string, n: int, m: int)
    requires k != l && n != 0 && m != 0 && m != n
    ensures var calls := [] + [Row(k, n)] + [Row(l, -n)] + [Row(l, m)];
      Indexed(Collect(calls)) && FoldAll(Kept(calls)).traffic.total == 0
        && FoldAll(Figures(Collect(calls))).traffic.total == m
  {
    FlatZero(Row(k, n), Row(l, -n), Row(l, m));
    FiguresOf(k, l, n, m);
    assert FoldAll([]) == UNSEEDED;
    hide FoldAll, Figures, Kept, Collect;
    LastFold([], Row(k, n).traffic);
    LastFold([] + [Row(k, n).traffic], Row(k, m - n).traffic);
  }
}
