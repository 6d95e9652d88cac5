/** The intrusive packet queue with many producers and one consumer, as atomic steps under interleaving. */
module PrevQueue {

  const MAX_QUEUED_PACKETS := 1024

  // An element of the list: a packet, or the stub that belongs to the queue.
  datatype Elem = Stub | Skb(id: nat)

  // Where a producer stands inside the enqueue.
  datatype Producer =
    | Idle
    | Reserved(skb: nat)             // counted, the packet's next pointer not yet cleared
    | Cleared(skb: nat)              // about to exchange the head
    | Linking(skb: nat, prev: Elem)  // head exchanged, the old head not yet linked

  // Where the consumer stands inside the dequeue; tail is its local copy.
  datatype Consumer =
    | Rest
    | Second(tail: nat)                // went past the stub, about to load the next pointer of the packet
    | HeadCheck(tail: nat)             // nothing follows tail, about to read the head
    | StubClear(tail: nat)             // tail was the head, about to clear the stub
    | StubExchange(tail: nat)
    | StubLink(tail: nat, prev: Elem)
    | Reload(tail: nat)                // the stub is in, about to load the next pointer of tail again
    | Decrement(tail: nat)             // tail taken off the list, about to lower the count and return it

  /** The queue, its users, and three histories: the elements between tail and head in the order of the
      exchanges, the packets in the order of the exchanges, and the packets in the order they were returned.
      No step decides anything by looking at a history. */
  datatype State = State(
    next: map<Elem, Elem>, head: Elem, tail: Elem, count: nat,
    producers: map<nat, Producer>, consumer: Consumer,
    chain: seq<Elem>, entered: seq<nat>, left: seq<nat>)

  datatype Event = Reserve(p: nat, skb: nat) | Clear(p: nat) | Exchange(p: nat) | Link(p: nat) | Consume

  function Init(): State {
    State(map[], Stub, Stub, 0, map[], Rest, [Stub], [], [])
  }

  function At(s: State, p: nat): Producer {
    if p in s.producers then s.producers[p] else Idle
  }

  // A packet some producer is about to insert.
  predicate Owns(pr: Producer, skb: nat) {
    (pr.Reserved? || pr.Cleared?) && pr.skb == skb
  }

  predicate Free(s: State, skb: nat) {
    Skb(skb) !in s.chain && (forall p | p in s.producers :: !Owns(s.producers[p], skb))
      && !(s.consumer.Decrement? && s.consumer.tail == skb)
  }

  // A producer starts only with a packet that nobody else is queueing.
  predicate Enabled(s: State, e: Event) {
    match e
    case Reserve(p, skb) => At(s, p).Idle? && Free(s, skb)
    case Clear(p) => At(s, p).Reserved?
    case Exchange(p) => At(s, p).Cleared?
    case Link(p) => At(s, p).Linking?
    case Consume => true
  }

  function Step(s: State, e: Event): State
    requires Enabled(s, e)
  {
    match e
    case Reserve(p, skb) =>
      if s.count == MAX_QUEUED_PACKETS then s
      else s.(count := s.count + 1, producers := s.producers[p := Reserved(skb)])
    case Clear(p) =>
      var skb := At(s, p).skb;
      s.(next := s.next - {Skb(skb)}, producers := s.producers[p := Cleared(skb)])
    case Exchange(p) =>
      var skb := At(s, p).skb;
      s.(head := Skb(skb), producers := s.producers[p := Linking(skb, s.head)],
         chain := s.chain + [Skb(skb)], entered := s.entered + [skb])
    case Link(p) =>
      var Linking(skb, prev) := At(s, p);
      s.(next := s.next[prev := Skb(skb)], producers := s.producers - {p})
    case Consume => ConsumerStep(s)
  }

  function Rests(s: State): State {
    s.(consumer := Rest)
  }

  // Take the first element off the list.
  function Advance(s: State, to: Elem): State {
    s.(tail := to, chain := if s.chain == [] then [] else s.chain[1..])
  }

  // With the packet tail in hand: return it if something follows, else see whether it is the last one.
  function Follow(s: State, tail: nat): State {
    if Skb(tail) in s.next then Advance(s, s.next[Skb(tail)]).(consumer := Decrement(tail))
    else s.(consumer := HeadCheck(tail))
  }

  function ConsumerStep(s: State): State {
    match s.consumer
    case Rest =>
      (match s.tail
       case Stub =>
         if Stub !in s.next then s
         else (match s.next[Stub]
               case Stub => s
               case Skb(id) => Advance(s, Skb(id)).(consumer := Second(id)))
       case Skb(id) => Follow(s, id))
    case Second(tail) => Follow(s, tail)
    case HeadCheck(tail) => if Skb(tail) != s.head then Rests(s) else s.(consumer := StubClear(tail))
    case StubClear(tail) => s.(next := s.next - {Stub}, consumer := StubExchange(tail))
    case StubExchange(tail) => s.(head := Stub, consumer := StubLink(tail, s.head), chain := s.chain + [Stub])
    case StubLink(tail, prev) => s.(next := s.next[prev := Stub], consumer := Reload(tail))
    case Reload(tail) =>
      if Skb(tail) in s.next then Advance(s, s.next[Skb(tail)]).(consumer := Decrement(tail)) else Rests(s)
    case Decrement(tail) => Rests(s).(count := if s.count > 0 then s.count - 1 else 0, left := s.left + [tail])
  }

  // ---------------------------------------------------------------- what every step keeps

  predicate Holding(c: Consumer) {
    c.Second? || c.HeadCheck? || c.StubClear? || c.StubExchange? || c.StubLink? || c.Reload?
  }

  predicate Distinct(chain: seq<Elem>) {
    forall i, j | 0 <= i < j < |chain| :: chain[i] != chain[j]
  }

  // Somebody has exchanged the head for chain[i + 1] and still owes the link from chain[i].
  predicate Owed(s: State, i: nat)
    requires i + 1 < |s.chain|
  {
    (exists p | p in s.producers :: OwesLink(s.producers[p], s.chain[i], s.chain[i + 1]))
    || (s.consumer.StubLink? && s.chain[i + 1] == Stub && s.consumer.prev == s.chain[i])
  }

  predicate OwesLink(pr: Producer, a: Elem, b: Elem) {
    pr.Linking? && pr.prev == a && Skb(pr.skb) == b
  }

  // Each step of the chain is linked, or unlinked and owed.
  predicate Joined(s: State, i: nat)
    requires i + 1 < |s.chain|
  {
    if s.chain[i] in s.next then s.next[s.chain[i]] == s.chain[i + 1] else Owed(s, i)
  }

  predicate Chained(s: State) {
    0 < |s.chain| && Distinct(s.chain) && s.chain[0] == s.tail && s.chain[|s.chain| - 1] == s.head
    && s.head !in s.next && forall i | 0 <= i < |s.chain| - 1 :: Joined(s, i)
  }

  // A link still owed joins two neighbours of the chain, the first of which is not linked yet.
  predicate Debt(s: State, a: Elem, b: Elem) {
    a !in s.next && exists i | 0 <= i < |s.chain| - 1 :: s.chain[i] == a && s.chain[i + 1] == b
  }

  predicate ProducerOk(s: State, p: nat)
    requires p in s.producers
  {
    var pr := s.producers[p];
    match pr
    case Idle => true
    case Reserved(skb) => Alone(s, p, skb)
    case Cleared(skb) => Alone(s, p, skb) && Skb(skb) !in s.next
    case Linking(skb, prev) =>
      Debt(s, prev, Skb(skb)) && forall q | q in s.producers && q != p && s.producers[q].Linking? ::
        s.producers[q].skb != skb
  }

  // The packet is on no list and in no other hands.
  predicate Alone(s: State, p: nat, skb: nat) {
    Skb(skb) !in s.chain && (forall q | q in s.producers && q != p :: !Owns(s.producers[q], skb))
    && !(s.consumer.Decrement? && s.consumer.tail == skb)
  }

  predicate ConsumerOk(s: State) {
    (Holding(s.consumer) ==> s.tail == Skb(s.consumer.tail))
    && (s.consumer.StubClear? || s.consumer.StubExchange? ==> Stub !in s.chain)
    && (s.consumer.StubExchange? ==> Stub !in s.next)
    && (s.consumer.StubLink? ==> Debt(s, s.consumer.prev, Stub))
    && (s.consumer.Decrement? ==> Skb(s.consumer.tail) !in s.chain)
  }

  function Packets(chain: seq<Elem>): seq<nat> {
    if chain == [] then [] else (if chain[0].Skb? then [chain[0].id] else []) + Packets(chain[1..])
  }

  function Taken(c: Consumer): seq<nat> {
    if c.Decrement? then [c.tail] else []
  }

  function Waiting(s: State): set<nat> {
    set p | p in s.producers && (s.producers[p].Reserved? || s.producers[p].Cleared?)
  }

  predicate Accounted(s: State) {
    s.entered == s.left + Taken(s.consumer) + Packets(s.chain)
    && s.count == |Packets(s.chain)| + |Waiting(s)| + |Taken(s.consumer)| && s.count <= MAX_QUEUED_PACKETS
  }

  predicate Inv(s: State) {
    Chained(s) && (forall p | p in s.producers :: ProducerOk(s, p)) && ConsumerOk(s) && Accounted(s)
  }

  lemma InitInv()
    ensures Inv(Init())
  {
    assert Packets([Stub]) == [] by { assert [Stub][1..] == []; }
  }

  // ---------------------------------------------------------------- producers

  lemma ReserveInv(s: State, p: nat, skb: nat)
    requires Inv(s) && Enabled(s, Reserve(p, skb))
    ensures Inv(Step(s, Reserve(p, skb)))
  {
    var t := Step(s, Reserve(p, skb));
    if t != s {
      forall i | 0 <= i < |t.chain| - 1 ensures Joined(t, i) {
        assert Joined(s, i);
        if t.chain[i] !in t.next { OwedKept(s, t, i); }
      }
      forall q | q in t.producers ensures ProducerOk(t, q) {
        if q != p { assert ProducerOk(s, q); DebtSame(s, t, q); }
      }
      assert Waiting(t) == Waiting(s) + {p};
    }
  }

  // What is owed stays owed while the list is the same and no link is paid.
  lemma OwedKept(s: State, t: State, i: nat)
    requires i + 1 < |s.chain| && s.chain == t.chain && Owed(s, i)
    requires forall q | q in s.producers && s.producers[q].Linking? ::
      q in t.producers && t.producers[q] == s.producers[q]
    requires s.consumer.StubLink? ==> t.consumer == s.consumer
    ensures Owed(t, i)
  {
  }

  lemma DebtSame(s: State, t: State, q: nat)
    requires q in s.producers && s.chain == t.chain && s.next == t.next && ProducerOk(s, q)
    ensures s.producers[q].Linking? ==> Debt(t, s.producers[q].prev, Skb(s.producers[q].skb))
  {
  }

  lemma ClearInv(s: State, p: nat)
    requires Inv(s) && Enabled(s, Clear(p))
    ensures Inv(Step(s, Clear(p)))
  {
    var t := Step(s, Clear(p));
    var skb := At(s, p).skb;
    assert ProducerOk(s, p);
    forall i | 0 <= i < |t.chain| - 1 ensures Joined(t, i) {
      assert Joined(s, i);
      if t.chain[i] !in t.next { OwedKept(s, t, i); }
    }
    forall q | q in t.producers ensures ProducerOk(t, q) {
      assert ProducerOk(s, q);
    }
    assert Waiting(t) == Waiting(s);
  }

  // ---------------------------------------------------------------- appending an element

  lemma {:induction false} PacketsAppend(chain: seq<Elem>, x: Elem)
    ensures Packets(chain + [x]) == Packets(chain) + if x.Skb? then [x.id] else []
  {
    if chain == [] {
      assert [] + [x] == [x] && [x][1..] == [];
    } else {
      PacketsAppend(chain[1..], x);
      assert (chain + [x])[1..] == chain[1..] + [x];
    }
  }

  // The head is exchanged for x, and somebody owes the link to it.
  lemma AppendChained(s: State, t: State, x: Elem)
    requires Chained(s) && x !in s.chain && x !in s.next && t.next == s.next && t.chain == s.chain + [x] && t.head == x
      && t.tail == s.tail
    requires forall q | q in s.producers && s.producers[q].Linking? ::
      q in t.producers && t.producers[q] == s.producers[q]
    requires s.consumer.StubLink? ==> t.consumer == s.consumer
    requires Owed(t, |s.chain| - 1)
    ensures Chained(t)
  {
    forall i | 0 <= i < |t.chain| - 1 ensures Joined(t, i) {
      if i < |s.chain| - 1 {
        assert Joined(s, i);
        if s.chain[i] !in s.next { OwedGrown(s, t, i); }
      }
    }
  }

  lemma OwedGrown(s: State, t: State, i: nat)
    requires i + 1 < |s.chain| && s.chain <= t.chain && Owed(s, i)
    requires forall q | q in s.producers && s.producers[q].Linking? ::
      q in t.producers && t.producers[q] == s.producers[q]
    requires s.consumer.StubLink? ==> t.consumer == s.consumer
    ensures Owed(t, i)
  {
  }

  lemma DebtGrown(s: State, t: State, a: Elem, b: Elem)
    requires Debt(s, a, b) && s.chain <= t.chain && t.next == s.next
    ensures Debt(t, a, b)
  {
    var i :| 0 <= i < |s.chain| - 1 && s.chain[i] == a && s.chain[i + 1] == b;
    assert t.chain[i] == a && t.chain[i + 1] == b;
  }

  lemma ExchangeProducers(s: State, p: nat)
    requires Inv(s) && Enabled(s, Exchange(p))
    ensures var t := Step(s, Exchange(p)); forall q | q in t.producers :: ProducerOk(t, q)
  {
    var t := Step(s, Exchange(p));
    var skb := At(s, p).skb;
    assert ProducerOk(s, p);
    hide Accounted, ConsumerOk;
    assert t.chain[|s.chain| - 1] == s.head && t.chain[|s.chain|] == Skb(skb);
    assert Debt(t, s.head, Skb(skb));
    forall q | q in t.producers ensures ProducerOk(t, q) {
      if q == p {
        forall r | r in t.producers && r != p && t.producers[r].Linking?
          ensures t.producers[r].skb != skb { assert ProducerOk(s, r); }
      } else {
        assert ProducerOk(s, q);
        if s.producers[q].Linking? { DebtGrown(s, t, s.producers[q].prev, Skb(s.producers[q].skb)); }
      }
    }
  }

  lemma ExchangeInv(s: State, p: nat)
    requires Inv(s) && Enabled(s, Exchange(p))
    ensures Inv(Step(s, Exchange(p)))
  {
    var t := Step(s, Exchange(p));
    var skb := At(s, p).skb;
    assert ProducerOk(s, p);
    assert OwesLink(t.producers[p], t.chain[|s.chain| - 1], t.chain[|s.chain|]);
    ExchangeProducers(s, p);
    AppendChained(s, t, Skb(skb));
    hide Chained, ProducerOk;
    PacketsAppend(s.chain, Skb(skb));
    if s.consumer.StubLink? { DebtGrown(s, t, s.consumer.prev, Stub); }
    assert p in Waiting(s) && Waiting(t) == Waiting(s) - {p};
  }

  // ---------------------------------------------------------------- paying a link

  // The link from a to its successor b is written; nobody else owes it.
  lemma PaidChained(s: State, t: State, a: Elem, b: Elem)
    requires Chained(s) && Debt(s, a, b) && t.next == s.next[a := b] && t.chain == s.chain && t.head == s.head
      && t.tail == s.tail
    requires forall q | q in s.producers && s.producers[q].Linking? && s.producers[q].prev != a ::
      q in t.producers && t.producers[q] == s.producers[q]
    requires s.consumer.StubLink? && s.consumer.prev != a ==> t.consumer == s.consumer
    ensures Chained(t)
  {
    var k :| 0 <= k < |s.chain| - 1 && s.chain[k] == a && s.chain[k + 1] == b;
    forall i | 0 <= i < |t.chain| - 1 ensures Joined(t, i) {
      assert Joined(s, i);
      if i != k && s.chain[i] !in s.next { OwedLeft(s, t, i, a); }
    }
  }

  lemma OwedLeft(s: State, t: State, i: nat, a: Elem)
    requires i + 1 < |s.chain| && s.chain == t.chain && Owed(s, i) && s.chain[i] != a
    requires forall q | q in s.producers && s.producers[q].Linking? && s.producers[q].prev != a ::
      q in t.producers && t.producers[q] == s.producers[q]
    requires s.consumer.StubLink? && s.consumer.prev != a ==> t.consumer == s.consumer
    ensures Owed(t, i)
  {
  }

  // A debt for another element is for another link.
  lemma DebtLeft(s: State, t: State, a: Elem, b: Elem, c: Elem, d: Elem)
    requires Distinct(s.chain) && Debt(s, a, b) && Debt(s, c, d) && b != d && t.next == s.next[a := b]
      && t.chain == s.chain
    ensures c != a && Debt(t, c, d)
  {
    var i :| 0 <= i < |s.chain| - 1 && s.chain[i] == a && s.chain[i + 1] == b;
    var j :| 0 <= j < |s.chain| - 1 && s.chain[j] == c && s.chain[j + 1] == d;
    assert t.chain[j] == c && t.chain[j + 1] == d;
  }

  lemma LinkInv(s: State, p: nat)
    requires Inv(s) && Enabled(s, Link(p))
    ensures Inv(Step(s, Link(p)))
  {
    var t := Step(s, Link(p));
    var Linking(skb, prev) := At(s, p);
    assert ProducerOk(s, p);
    forall q | q in s.producers && s.producers[q].Linking? && s.producers[q].prev != prev ensures q in t.producers { }
    if s.consumer.StubLink? { DebtLeft(s, t, prev, Skb(skb), s.consumer.prev, Stub); }
    PaidChained(s, t, prev, Skb(skb));
    assert prev in s.chain;
    forall q | q in t.producers ensures ProducerOk(t, q) {
      assert ProducerOk(s, q);
      if s.producers[q].Linking? { DebtLeft(s, t, prev, Skb(skb), s.producers[q].prev, Skb(s.producers[q].skb)); }
    }
    assert Waiting(t) == Waiting(s);
  }

  // ---------------------------------------------------------------- the consumer

  lemma AdvanceChained(s: State, t: State)
    requires Chained(s) && s.tail in s.next && t.chain == s.chain[1..] && t.tail == s.next[s.tail] && t.next == s.next
      && t.head == s.head
    requires t.producers == s.producers && !s.consumer.StubLink?
    ensures |s.chain| > 1 && t.tail == s.chain[1] && Chained(t)
  {
    assert Joined(s, 0);
    forall i | 0 <= i < |t.chain| - 1 ensures Joined(t, i) {
      assert Joined(s, i + 1);
    }
  }

  lemma DebtAdvanced(s: State, t: State, a: Elem, b: Elem)
    requires Debt(s, a, b) && Chained(s) && s.tail in s.next && t.chain == s.chain[1..] && t.next == s.next
    ensures Debt(t, a, b)
  {
    var i :| 0 <= i < |s.chain| - 1 && s.chain[i] == a && s.chain[i + 1] == b;
    assert i > 0;
    assert t.chain[i - 1] == a && t.chain[i] == b;
  }

  lemma AdvanceProducers(s: State, t: State)
    requires Inv(s) && s.tail in s.next && t.chain == s.chain[1..] && t.next == s.next && t.producers == s.producers
    requires t.consumer.Decrement? ==> Skb(t.consumer.tail) == s.tail
    ensures forall p | p in t.producers :: ProducerOk(t, p)
  {
    forall p | p in t.producers ensures ProducerOk(t, p) {
      assert ProducerOk(s, p);
      assert s.tail in s.chain;
      if s.producers[p].Linking? { DebtAdvanced(s, t, s.producers[p].prev, Skb(s.producers[p].skb)); }
    }
  }

  // The consumer takes the first packet off the list.
  lemma TakeInv(s: State, tail: nat)
    requires Inv(s) && s.tail == Skb(tail) && s.tail in s.next && !s.consumer.StubLink? && !s.consumer.Decrement?
    ensures Inv(Advance(s, s.next[s.tail]).(consumer := Decrement(tail)))
  {
    var t := Advance(s, s.next[s.tail]).(consumer := Decrement(tail));
    AdvanceChained(s, t);
    AdvanceProducers(s, t);
    assert Waiting(t) == Waiting(s);
    assert Packets(s.chain) == [tail] + Packets(t.chain);
    assert Skb(tail) !in t.chain;
  }

  // The consumer goes past the stub.
  lemma SkipInv(s: State)
    requires Inv(s) && s.tail == Stub && Stub in s.next && s.consumer == Rest
    ensures Inv(ConsumerStep(s))
  {
    var t := ConsumerStep(s);
    assert Joined(s, 0);
    assert s.next[Stub] == s.chain[1] && s.chain[1].Skb?;
    AdvanceChained(s, t);
    AdvanceProducers(s, t);
    assert Waiting(t) == Waiting(s);
    assert Packets(s.chain) == Packets(t.chain);
  }

  // Moves between program points that touch neither the list nor the histories.
  lemma MoveInv(s: State, t: State)
    requires Inv(s) && t == s.(consumer := t.consumer) && ConsumerOk(t) && !s.consumer.StubLink?
      && !s.consumer.Decrement? && !t.consumer.Decrement?
    ensures Inv(t)
  {
    forall i | 0 <= i < |t.chain| - 1 ensures Joined(t, i) {
      assert Joined(s, i);
      if t.chain[i] !in t.next { OwedKept(s, t, i); }
    }
    forall p | p in t.producers ensures ProducerOk(t, p) {
      assert ProducerOk(s, p);
      DebtSame(s, t, p);
    }
    assert Waiting(t) == Waiting(s);
  }

  lemma StubClearInv(s: State)
    requires Inv(s) && s.consumer.StubClear?
    ensures Inv(ConsumerStep(s))
  {
    var t := ConsumerStep(s);
    forall i | 0 <= i < |t.chain| - 1 ensures Joined(t, i) {
      assert Joined(s, i);
      if t.chain[i] !in t.next { OwedKept(s, t, i); }
    }
    forall q | q in t.producers ensures ProducerOk(t, q) {
      assert ProducerOk(s, q);
    }
    assert Waiting(t) == Waiting(s);
  }

  lemma StubExchangeInv(s: State)
    requires Inv(s) && s.consumer.StubExchange?
    ensures Inv(ConsumerStep(s))
  {
    var t := ConsumerStep(s);
    var n := |s.chain|;
    assert t.chain[n - 1] == s.head && t.chain[n] == Stub;
    AppendChained(s, t, Stub);
    PacketsAppend(s.chain, Stub);
    forall q | q in t.producers ensures ProducerOk(t, q) {
      assert ProducerOk(s, q);
      if s.producers[q].Linking? { DebtGrown(s, t, s.producers[q].prev, Skb(s.producers[q].skb)); }
    }
    assert Waiting(t) == Waiting(s);
  }

  lemma StubLinkInv(s: State)
    requires Inv(s) && s.consumer.StubLink?
    ensures Inv(ConsumerStep(s))
  {
    var t := ConsumerStep(s);
    var prev := s.consumer.prev;
    PaidChained(s, t, prev, Stub);
    assert prev in s.chain;
    forall q | q in t.producers ensures ProducerOk(t, q) {
      assert ProducerOk(s, q);
      if s.producers[q].Linking? { DebtLeft(s, t, prev, Stub, s.producers[q].prev, Skb(s.producers[q].skb)); }
    }
    assert Waiting(t) == Waiting(s);
  }

  lemma DecrementInv(s: State)
    requires Inv(s) && s.consumer.Decrement?
    ensures Inv(ConsumerStep(s))
  {
    var t := ConsumerStep(s);
    forall i | 0 <= i < |t.chain| - 1 ensures Joined(t, i) {
      assert Joined(s, i);
      if t.chain[i] !in t.next { OwedKept(s, t, i); }
    }
    forall q | q in t.producers ensures ProducerOk(t, q) {
      assert ProducerOk(s, q);
      DebtSame(s, t, q);
    }
    assert Waiting(t) == Waiting(s);
  }

  lemma FollowInv(s: State, tail: nat)
    requires Inv(s) && s.tail == Skb(tail) && !s.consumer.StubLink? && !s.consumer.Decrement?
    ensures Inv(Follow(s, tail))
  {
    if Skb(tail) in s.next { TakeInv(s, tail); } else { MoveInv(s, s.(consumer := HeadCheck(tail))); }
  }

  lemma ConsumeInv(s: State)
    requires Inv(s)
    ensures Inv(ConsumerStep(s))
  {
    match s.consumer
    case Rest =>
      if s.tail.Skb? { FollowInv(s, s.tail.id); } else if Stub in s.next { SkipInv(s); }
    case Second(tail) => FollowInv(s, tail);
    case HeadCheck(tail) =>
      if Skb(tail) == s.head { assert |s.chain| == 1; }
      MoveInv(s, ConsumerStep(s));
    case StubClear(_) => StubClearInv(s);
    case StubExchange(_) => StubExchangeInv(s);
    case StubLink(_, _) => StubLinkInv(s);
    case Reload(tail) => if Skb(tail) in s.next { TakeInv(s, tail); } else { MoveInv(s, Rests(s)); }
    case Decrement(_) => DecrementInv(s);
  }

  lemma StepInv(s: State, e: Event)
    requires Inv(s) && Enabled(s, e)
    ensures Inv(Step(s, e))
  {
    match e
    case Reserve(p, skb) => ReserveInv(s, p, skb);
    case Clear(p) => ClearInv(s, p);
    case Exchange(p) => ExchangeInv(s, p);
    case Link(p) => LinkInv(s, p);
    case Consume => ConsumeInv(s);
  }

  // ---------------------------------------------------------------- whole runs

  predicate Run(s: State, es: seq<Event>)
    decreases es
  {
    es != [] ==> Enabled(s, es[0]) && Run(Step(s, es[0]), es[1..])
  }

  function After(s: State, es: seq<Event>): State
    requires Run(s, es)
    decreases es
  {
    if es == [] then s else After(Step(s, es[0]), es[1..])
  }

  lemma {:induction false} RunInv(s: State, es: seq<Event>)
    requires Inv(s) && Run(s, es)
    ensures Inv(After(s, es))
    decreases es
  {
    hide Inv, Step, Enabled;
    if es != [] {
      StepInv(s, es[0]);
      RunInv(Step(s, es[0]), es[1..]);
    }
  }

  function Stubs(chain: seq<Elem>): nat {
    if chain == [] then 0 else (if chain[0] == Stub then 1 else 0) + Stubs(chain[1..])
  }

  lemma {:induction false} StubsAtMostOne(chain: seq<Elem>)
    requires Distinct(chain)
    ensures Stubs(chain) <= 1 && (Stub !in chain ==> Stubs(chain) == 0)
    ensures |Packets(chain)| + Stubs(chain) == |chain|
  {
    if chain != [] {
      StubsAtMostOne(chain[1..]);
      assert chain == [chain[0]] + chain[1..];
    }
  }

  // Under every interleaving packets leave in the order of the exchanges, each once, and what has not left is
  // still on the list in that order or in the consumer's hand; the stub is on the list at most once; the
  // count stays within the limit and covers everything queued.
  lemma Fifo(es: seq<Event>)
    requires Run(Init(), es)
    ensures var t := After(Init(), es);
      t.left <= t.entered && t.entered[|t.left|..] == Taken(t.consumer) + Packets(t.chain)
      && Stubs(t.chain) <= 1 && |Packets(t.chain)| <= t.count <= MAX_QUEUED_PACKETS
  {
    hide Run, After, Init;
    InitInv();
    RunInv(Init(), es);
    InvFifo(After(Init(), es));
  }

  lemma InvFifo(t: State)
    requires Inv(t)
    ensures t.left <= t.entered && t.entered[|t.left|..] == Taken(t.consumer) + Packets(t.chain)
    ensures Stubs(t.chain) <= 1 && |Packets(t.chain)| <= t.count <= MAX_QUEUED_PACKETS
  {
    StubsAtMostOne(t.chain);
    assert t.entered == t.left + (Taken(t.consumer) + Packets(t.chain));
  }

  // ---------------------------------------------------------------- one dequeue, uninterrupted

  function Rank(c: Consumer): nat {
    match c
    case Rest => 0
    case Second(_) => 7
    case HeadCheck(_) => 6
    case StubClear(_) => 5
    case StubExchange(_) => 4
    case StubLink(_, _) => 3
    case Reload(_) => 2
    case Decrement(_) => 1
  }

  function Finish(s: State): State
    decreases Rank(s.consumer)
  {
    if s.consumer.Rest? then s else Finish(ConsumerStep(s))
  }

  function Dequeue(s: State): State {
    Finish(ConsumerStep(s))
  }

  // The first packet can be handed out: the link to it from the stub is in, and the link from it is in or it
  // is the last element.
  predicate Ready(s: State) {
    if s.tail == Stub then Stub in s.next && |s.chain| > 1 && (s.chain[1] in s.next || s.chain[1] == s.head)
    else s.tail in s.next || s.tail == s.head
  }

  function First(s: State): seq<nat> {
    if Ready(s) then Packets(s.chain)[..if |Packets(s.chain)| > 0 then 1 else 0] else []
  }

  lemma FinishDecrement(s: State)
    requires s.consumer.Decrement?
    ensures Finish(s) == ConsumerStep(s)
  {
  }

  // The last packet: the stub goes in behind it, and then it can be taken.
  lemma LastPacket(s: State, tail: nat)
    requires s.consumer == HeadCheck(tail) && Skb(tail) == s.head == s.tail && s.chain != []
    ensures var t := Finish(s); t.left == s.left + [tail] && t.producers == s.producers && t.entered == s.entered
  {
    var s2 := s.(consumer := StubClear(tail));
    var s3 := s2.(next := s2.next - {Stub}, consumer := StubExchange(tail));
    var s4 := s3.(head := Stub, consumer := StubLink(tail, s.head), chain := s3.chain + [Stub]);
    var s5 := s4.(next := s4.next[s.head := Stub], consumer := Reload(tail));
    var s6 := ConsumerStep(s5);
    assert ConsumerStep(s) == s2 && ConsumerStep(s2) == s3 && ConsumerStep(s3) == s4 && ConsumerStep(s4) == s5;
    FinishDecrement(s6);
    hide ConsumerStep;
    assert Finish(s) == Finish(s2) == Finish(s3);
    assert Finish(s3) == Finish(s4) == Finish(s5) == Finish(s6);
  }

  // From a packet in hand to the end of the call.
  lemma FinishFollow(s: State, tail: nat)
    requires Inv(s) && s.tail == Skb(tail)
    ensures var t := Finish(Follow(s, tail));
      t.left == s.left + (if Skb(tail) in s.next || Skb(tail) == s.head then [tail] else [])
      && t.producers == s.producers && t.entered == s.entered
  {
    if Skb(tail) in s.next {
      FinishDecrement(Follow(s, tail));
    } else if Skb(tail) == s.head {
      LastPacket(Follow(s, tail), tail);
    } else {
      assert ConsumerStep(Follow(s, tail)).consumer.Rest?;
    }
  }

  // A dequeue that nobody interrupts returns the first packet exactly when it is ready.
  lemma DequeueExact(s: State)
    requires Inv(s) && s.consumer.Rest?
    ensures var t := Dequeue(s);
      t.left == s.left + First(s) && t.entered == s.entered && t.producers == s.producers && Inv(t) && t.consumer.Rest?
    ensures Ready(s) ==> |First(s)| == 1
  {
    ConsumeInv(s);
    FinishInv(ConsumerStep(s));
    if s.tail.Skb? {
      FinishFollow(s, s.tail.id);
      assert Packets(s.chain)[..1] == [s.tail.id];
    } else if Stub in s.next {
      var u := ConsumerStep(s);
      assert Joined(s, 0);
      assert s.chain[1].Skb? && u.chain == s.chain[1..] && u.consumer == Second(s.chain[1].id);
      assert Finish(u) == Finish(Follow(u, s.chain[1].id));
      FinishFollow(u, s.chain[1].id);
      assert Packets(s.chain) == Packets(u.chain);
      assert Packets(u.chain)[..1] == [s.chain[1].id];
    }
  }

  lemma {:induction false} FinishInv(s: State)
    requires Inv(s)
    ensures Inv(Finish(s)) && Finish(s).consumer.Rest?
    decreases Rank(s.consumer)
  {
    hide Inv;
    if !s.consumer.Rest? {
      ConsumeInv(s);
      FinishInv(ConsumerStep(s));
    }
  }

  // ---------------------------------------------------------------- nothing is lost

  function Dequeues(s: State, n: nat): State
    decreases n
  {
    if n == 0 then s else Dequeues(Dequeue(s), n - 1)
  }

  predicate Quiet(s: State) {
    s.consumer.Rest? && forall p | p in s.producers :: !s.producers[p].Linking?
  }

  lemma QuietReady(s: State)
    requires Inv(s) && Quiet(s) && Packets(s.chain) != []
    ensures Ready(s)
  {
    forall i | 0 <= i < |s.chain| - 1 ensures s.chain[i] in s.next { assert Joined(s, i); }
  }

  // Once no link is owed, as many dequeues as there are packets return all of them, in order.
  lemma {:induction false} Drain(s: State)
    requires Inv(s) && Quiet(s)
    ensures Dequeues(s, |Packets(s.chain)|).left == s.entered
    decreases |Packets(s.chain)|
  {
    if Packets(s.chain) != [] {
      QuietReady(s);
      DequeueExact(s);
      var t := Dequeue(s);
      assert |t.left| == |s.left| + 1;
      Drain(t);
    }
  }

  // ---------------------------------------------------------------- one enqueue, uninterrupted

  // The steps of an enqueue that is let in.
  function LetIn(p: nat, skb: nat): seq<Event> {
    [Reserve(p, skb), Clear(p), Exchange(p), Link(p)]
  }

  lemma EnqueueSteps(s: State, p: nat, skb: nat) returns (t: State)
    requires At(s, p).Idle? && Free(s, skb) && s.count < 1024
    ensures Run(s, LetIn(p, skb)) && t == After(s, LetIn(p, skb))
    ensures t.entered == s.entered + [skb] && t.left == s.left && t.chain == s.chain + [Skb(skb)]
    ensures t.count == s.count + 1 && t.producers == s.producers - {p} && t.consumer == s.consumer
    ensures t.next == (s.next - {Skb(skb)})[s.head := Skb(skb)] && t.head == Skb(skb) && t.tail == s.tail
  {
    var es := LetIn(p, skb);
    var a := Step(s, es[0]);
    var b := Step(a, es[1]);
    var c := Step(b, es[2]);
    t := Step(c, es[3]);
    assert t.producers == s.producers - {p};
    assert es[1..] == [es[1], es[2], es[3]] && es[1..][1..] == [es[2], es[3]];
    assert es[1..][1..][1..] == [es[3]] && [es[3]][1..] == [];
    RunOne(c, es[3], []);
    RunOne(b, es[2], [es[3]]);
    RunOne(a, es[1], es[1..][1..]);
    RunOne(s, es[0], es[1..]);
  }

  lemma RunOne(s: State, e: Event, rest: seq<Event>)
    requires Enabled(s, e) && Run(Step(s, e), rest)
    ensures Run(s, [e] + rest) && After(s, [e] + rest) == After(Step(s, e), rest)
  {
    assert ([e] + rest)[1..] == rest;
  }

  // An enqueue that nobody interrupts puts its packet last exactly when fewer than 1024 are counted, and otherwise
  // turns it away with nothing changed.
  lemma EnqueueExact(s: State, p: nat, skb: nat)
    requires Inv(s) && At(s, p).Idle? && Free(s, skb)
    ensures s.count < 1024 ==> Run(s, LetIn(p, skb))
    ensures s.count < 1024 ==> var t := After(s, LetIn(p, skb));
      t.entered == s.entered + [skb] && Packets(t.chain) == Packets(s.chain) + [skb] && t.count == s.count + 1
      && t.left == s.left && t.consumer == s.consumer && t.producers == s.producers - {p} && Inv(t)
    ensures s.count >= 1024 ==> Step(s, Reserve(p, skb)) == s
  {
    if s.count < 1024 {
      var t := EnqueueSteps(s, p, skb);
      PacketsAppend(s.chain, Skb(skb));
      RunInv(s, LetIn(p, skb));
    }
  }

  lemma {:induction false} RunOn(s: State, a: seq<Event>, b: seq<Event>)
    requires Run(s, a) && Run(After(s, a), b)
    ensures Run(s, a + b) && After(s, a + b) == After(After(s, a), b)
    decreases |a|
  {
    if a == [] {
      assert a + b == b;
    } else {
      assert (a + b)[1..] == a[1..] + b;
      RunOn(Step(s, a[0]), a[1..], b);
    }
  }

  function Naturals(n: nat): seq<nat> {
    seq(n, i => i)
  }

  ghost predicate Loaded(t: State, n: nat) {
    Inv(t) && Packets(t.chain) == Naturals(n) && t.count == n && t.producers == map[] && t.consumer.Rest?
    && forall k: nat | Skb(k) in t.chain :: k < n
  }

  lemma LoadOne(s: State, n: nat)
    requires Loaded(s, n) && n < 1024
    ensures Run(s, LetIn(0, n)) && Loaded(After(s, LetIn(0, n)), n + 1)
  {
    assert At(s, 0).Idle? && Free(s, n);
    assert Naturals(n + 1) == Naturals(n) + [n];
    hide Inv, Run, After, Free, Packets, At;
    var t := EnqueueSteps(s, 0, n);
    EnqueueExact(s, 0, n);
  }

  // So the queue fills up to 1024 packets, and the next one is turned away.
  lemma {:induction false} FillsUp(n: nat) returns (es: seq<Event>)
    requires n <= 1024
    ensures Run(Init(), es) && Loaded(After(Init(), es), n)
    ensures n == 1024 ==> var t := After(Init(), es); Enabled(t, Reserve(0, n)) && Step(t, Reserve(0, n)) == t
  {
    if n == 0 {
      es := [];
      InitInv();
      assert [Stub][1..] == [];
    } else {
      hide Inv, Run, After, Packets;
      var front := FillsUp(n - 1);
      LoadOne(After(Init(), front), n - 1);
      RunOn(Init(), front, LetIn(0, n - 1));
      es := front + LetIn(0, n - 1);
    }
  }
}
