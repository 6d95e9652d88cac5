/** The table that finds a handshake or a keypair by the 32-bit index a packet carries. */
module IndexTable {
  import opened Basics

  const BUCKETS := 8192
  newtype Index = x | 0 <= x < 0x1_0000_0000

  datatype Kind = Handshake | Keypair

  class Entry {
    var index: Index
    var hashed: bool
    const kind: Kind

    constructor (kind: Kind)
      ensures !hashed && this.kind == kind
    {
      this.kind, hashed, index := kind, false, 0;
    }
  }

  function Bucket(index: Index): nat {
    index as nat % BUCKETS
  }

  predicate Once<X(==)>(s: seq<X>) {
    s == [] || (s[0] !in s[1..] && Once(s[1..]))
  }

  function Without<X(==)>(s: seq<X>, x: X): (r: seq<X>)
    ensures Once(s) ==> Once(r) && x !in r
    ensures forall y | y in s :: y != x ==> y in r
    ensures forall y | y in r :: y in s
  {
    if s == [] then []
    else
      var tail := Without(s[1..], x);
      assert s == [s[0]] + s[1..];
      if s[0] == x then s[1..] else [s[0]] + tail
  }

  function Swapped<X(==)>(s: seq<X>, x: X, y: X): (r: seq<X>)
    requires x in s && y !in s
    ensures Once(s) ==> Once(r) && x !in r
    ensures y in r && |r| == |s|
    ensures forall z | z in s :: z != x ==> z in r
    ensures forall z | z in r :: z == y || z in s
  {
    assert s == [s[0]] + s[1..];
    if s[0] == x then [y] + s[1..] else [s[0]] + Swapped(s[1..], x, y)
  }

  class Table {
    var buckets: seq<seq<Entry>>
    ghost var entries: set<Entry>

    ghost predicate Valid()
      reads this, entries
    {
      |buckets| == BUCKETS
      && (forall b | 0 <= b < BUCKETS :: Once(buckets[b]))
      && (forall b, e | 0 <= b < BUCKETS && e in buckets[b] :: e in entries && Bucket(e.index) == b)
      && (forall e | e in entries :: e.hashed && e in buckets[Bucket(e.index)])
      && (forall e, f | e in entries && f in entries && e.index == f.index :: e == f)
    }

    constructor ()
      ensures Valid() && entries == {}
    {
      buckets := seq(BUCKETS, _ => []);
      entries := {};
    }

    // Scanning the one bucket decides the whole table.
    method Scan(index: Index) returns (found: Entry?)
      requires Valid()
      ensures found != null <==> InUse(index, entries)
      ensures found != null ==> found in entries && found.index == index
    {
      var bucket := buckets[Bucket(index)];
      for i := 0 to |bucket|
        invariant forall j | 0 <= j < i :: bucket[j].index != index
      {
        if bucket[i].index == index { return bucket[i]; }
      }
      return null;
    }

    method Lookup(kinds: set<Kind>, index: Index) returns (found: Entry?)
      requires Valid()
      ensures found != null <==> exists e | e in entries :: e.index == index && e.kind in kinds
      ensures found != null ==> found in entries && found.index == index && found.kind in kinds
    {
      found := Scan(index);
      if found != null && found.kind !in kinds { found := null; }
    }

    method Remove(e: Entry)
      requires Valid() && (e.hashed <==> e in entries)
      modifies this, e`hashed
      ensures Valid() && entries == old(entries) - {e} && !e.hashed
    {
      if !e.hashed { return; }
      var b := Bucket(e.index);
      buckets := buckets[b := Without(buckets[b], e)];
      entries := entries - {e};
      e.hashed := false;
    }

    // The unlocked search: `draws` are the random numbers tried in turn, up to the first one free.
    method Search(e: Entry, draws: seq<Index>) returns (tried: nat)
      requires Valid() && e !in entries
      modifies e`index
      ensures Valid() && tried <= |draws|
      ensures forall i | 0 <= i < tried :: InUse(draws[i], entries)
      ensures tried < |draws| ==> !InUse(draws[tried], entries) && e.index == draws[tried]
    {
      hide Table.Valid, InUse;
      tried := 0;
      while tried < |draws|
        invariant tried <= |draws| && Valid()
        invariant forall i | 0 <= i < tried :: InUse(draws[i], entries)
      {
        e.index := draws[tried];
        var taken := Scan(e.index);
        if taken == null { return; }
        tried := tried + 1;
      }
    }

    // Undisturbed, the entry ends up under the first number drawn that no other entry uses, whatever it was
    // under before; while every number drawn is in use it is still searching, and unhashed.
    method Insert(e: Entry, draws: seq<Index>) returns (tried: nat)
      requires Valid() && (e.hashed <==> e in entries)
      modifies this, e
      ensures Valid() && tried <= |draws|
      ensures forall i | 0 <= i < tried :: InUse(draws[i], entries - {e})
      ensures if tried < |draws| then !InUse(draws[tried], entries - {e}) && e.index == draws[tried]
        && entries == old(entries) + {e}
              else entries == old(entries) - {e} && !e.hashed
    {
      hide Table.Valid;
      Remove(e);
      tried := Search(e, draws);
      assert entries - {e} == entries;
      if tried < |draws| {
        Link(e);
        assert entries - {e} == old(entries) - {e};
      }
    }

    // hlist_add_head
    method Link(e: Entry)
      requires Valid() && e !in entries && !InUse(e.index, entries)
      modifies this, e`hashed
      ensures Valid() && entries == old(entries) + {e}
    {
      var b := Bucket(e.index);
      assert e !in buckets[b];
      buckets := buckets[b := [e] + buckets[b]];
      entries := entries + {e};
      e.hashed := true;
    }

    // The new entry takes over the old one's index and its place in the bucket.
    method Replace(old': Entry, new': Entry) returns (ok: bool)
      requires Valid() && (old'.hashed <==> old' in entries) && new' !in entries && !new'.hashed && old' != new'
      modifies this, old'`hashed, new'
      ensures Valid() && ok == old(old' in entries)
      ensures if ok then entries == old(entries) - {old'} + {new'} && new'.index == old'.index && new'.hashed
        && !old'.hashed
              else entries == old(entries) && unchanged(new') && unchanged(old')
    {
      hide Once, Swapped;
      ok := old'.hashed;
      if !ok { return; }
      var b := Bucket(old'.index);
      assert new' !in buckets[b];
      new'.index := old'.index;
      new'.hashed := true;
      buckets := buckets[b := Swapped(buckets[b], old', new')];
      old'.hashed := false;
      entries := entries - {old'} + {new'};
    }
  }

  ghost predicate InUse(index: Index, entries: set<Entry>)
    reads entries
  {
    exists e | e in entries :: e.index == index
  }

  // ---------------------------------------------------------------- many inserters at once

  // Which entries are hashed and under what index, and which are being inserted: each of those has either
  // found a number free at the time it looked, or not yet.
  datatype State = State(hashed: map<nat, Index>, searching: map<nat, Option<Index>>)

  // Unhash opens an insertion; Probe is one unlocked look; Commit is the look repeated under the lock, which
  // inserts or starts over.
  datatype Step =
    | Unhash(e: nat)
    | Probe(e: nat, index: Index)
    | Commit(e: nat)
    | Replace(old': nat, new': nat)
    | Remove(e: nat)

  predicate Enabled(s: State, a: Step) {
    match a
    case Unhash(e) => e !in s.searching
    case Probe(e, _) => e in s.searching
    case Commit(e) => e in s.searching && s.searching[e].Some?
    case Replace(_, n) => n !in s.hashed && n !in s.searching
    case Remove(_) => true
  }

  predicate Taken(s: State, index: Index) {
    exists e | e in s.hashed :: s.hashed[e] == index
  }

  function Next(s: State, a: Step): State
    requires Enabled(s, a)
  {
    match a
    case Unhash(e) => State(s.hashed - {e}, s.searching[e := None])
    case Probe(e, index) => s.(searching := s.searching[e := if Taken(s, index) then None else Some(index)])
    case Commit(e) =>
      var index := s.searching[e].value;
      if Taken(s, index) then s.(searching := s.searching[e := None])
      else State(s.hashed[e := index], s.searching - {e})
    case Replace(o, n) => if o in s.hashed then s.(hashed := (s.hashed - {o})[n := s.hashed[o]]) else s
    case Remove(e) => s.(hashed := s.hashed - {e})
  }

  predicate Exclusive(s: State) {
    forall e, f | e in s.hashed && f in s.hashed && s.hashed[e] == s.hashed[f] :: e == f
  }

  ghost predicate Reach(s: State, steps: seq<Step>, t: State)
    decreases |steps|
  {
    if steps == [] then s == t
    else Enabled(s, steps[0]) && Reach(Next(s, steps[0]), steps[1..], t)
  }

  // However searches, commits, takeovers and removals interleave, no two hashed entries share an index.
  lemma {:induction false} ExclusiveAlways(s: State, steps: seq<Step>, t: State)
    requires Exclusive(s) && Reach(s, steps, t)
    ensures Exclusive(t)
    decreases |steps|
  {
    if steps != [] { ExclusiveAlways(Next(s, steps[0]), steps[1..], t); }
  }

  // Undisturbed, an insertion ends with the entry under the number it found free, and a removal takes it out.
  lemma InsertAlone(s: State, e: nat, index: Index)
    requires e !in s.searching && !Taken(State(s.hashed - {e}, s.searching), index)
    ensures var a := Next(s, Unhash(e));
      Enabled(a, Probe(e, index))
      && var b := Next(a, Probe(e, index));
         Enabled(b, Commit(e)) && Next(b, Commit(e)) == State((s.hashed - {e})[e := index], s.searching)
         && Next(Next(b, Commit(e)), Remove(e)).hashed == s.hashed - {e}
  {
    var a := Next(s, Unhash(e));
    assert !Taken(a, index);
    var b := Next(a, Probe(e, index));
    assert !Taken(b, index);
    assert b.searching - {e} == s.searching;
    assert (s.hashed - {e})[e := index] - {e} == s.hashed - {e};
  }

  // A number seen free by the unlocked look may be gone at the lock. From any table, two entries can both be
  // holding the same free number; once one commits, inserting the other unchecked would break exclusivity, and
  // the second look sends it back to searching instead.
  lemma SecondLookNeeded(s: State, a: nat, b: nat, index: Index)
    requires Exclusive(s) && a != b && a !in s.searching && b !in s.searching && !Taken(s, index)
    ensures var s3 := Next(Next(Next(s, Unhash(a)), Unhash(b)), Probe(a, index));
      var t := Next(Next(s3, Probe(b, index)), Commit(a));
      Enabled(t, Commit(b)) && t.searching[b] == Some(index) && !Exclusive(t.(hashed := t.hashed[b := index]))
      && Next(t, Commit(b)) == t.(searching := t.searching[b := None])
  {
    var s2 := Next(Next(s, Unhash(a)), Unhash(b));
    assert !Taken(s2, index);
    var s3 := Next(s2, Probe(a, index));
    assert !Taken(s3, index);
    var s4 := Next(s3, Probe(b, index));
    assert !Taken(s4, index);
    var t := Next(s4, Commit(a));
    assert t.hashed[a] == index && b != a;
    var u := t.(hashed := t.hashed[b := index]);
    assert u.hashed[a] == u.hashed[b];
  }

  // A keypair taking over a handshake's entry is found under the handshake's index, and nothing else is.
  lemma Takeover(s: State, o: nat, n: nat, e: nat)
    requires Exclusive(s) && Enabled(s, Replace(o, n)) && o in s.hashed && o != n
    ensures var t := Next(s, Replace(o, n));
      t.hashed.Keys == s.hashed.Keys - {o} + {n} && t.hashed[n] == s.hashed[o]
        && (e in t.hashed && t.hashed[e] == s.hashed[o] ==> e == n)
  {
    assert Exclusive(Next(s, Replace(o, n)));
  }

  // While fewer than 2^32 entries are hashed some number is free, so a search can always end.
  lemma SomeIndexFree(s: State)
    requires |s.hashed| < 0x1_0000_0000
    ensures exists index: Index :: !Taken(s, index)
  {
    if forall index: Index :: Taken(s, index) {
      var used := set e | e in s.hashed :: s.hashed[e] as int;
      forall i: int | 0 <= i < 0x1_0000_0000 ensures i in used {
        assert Taken(s, i as Index);
        var e :| e in s.hashed && s.hashed[e] == i as Index;
        assert s.hashed[e] as int == i;
      }
      ImageSize(s.hashed, used);
      RangeSize(0x1_0000_0000, used);
    }
  }

  lemma {:induction false} ImageSize(m: map<nat, Index>, image: set<int>)
    requires image == set e | e in m :: m[e] as int
    ensures |image| <= |m|
  {
    if m.Keys != {} {
      var e :| e in m.Keys;
      var rest := m - {e};
      var smaller := set f | f in rest :: rest[f] as int;
      ImageSize(rest, smaller);
      forall i | i in image && i != m[e] as int ensures i in smaller {
        var f :| f in m && m[f] as int == i;
        assert f in rest && rest[f] as int == i;
      }
      SubsetSize(image - {m[e] as int}, smaller);
    }
  }

  lemma {:induction false} RangeSize(n: nat, s: set<int>)
    requires forall i: int | 0 <= i < n :: i in s
    ensures n <= |s|
  {
    if n > 0 { RangeSize(n - 1, s - {n - 1}); }
  }
}
