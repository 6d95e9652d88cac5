/** The three keypair slots of a peer, their rotation, and the index entries a peer holds. */
module Keypairs {
  import opened Basics

  // Keypairs are named by their creation number.
  datatype Slots = Slots(next: Option<nat>, current: Option<nat>, previous: Option<nat>)

  const EMPTY := Slots(None, None, None)

  function Held(o: Option<nat>): set<nat> {
    if o.None? then {} else {o.value}
  }

  function Filled(s: Slots): set<nat> {
    Held(s.next) + Held(s.current) + Held(s.previous)
  }

  // What one rotation leaves in the slots, and the references it drops, in order.
  datatype Rotated = Rotated(slots: Slots, dropped: seq<nat>)

  function Drop(o: Option<nat>): seq<nat> {
    if o.None? then [] else [o.value]
  }

  // A keypair we initiated is current at once; one we answered waits in next for a packet.
  function Added(s: Slots, k: nat, initiator: bool): Rotated {
    if !initiator then Rotated(Slots(Some(k), s.current, None), Drop(s.next) + Drop(s.previous))
    else if s.next.Some? then Rotated(Slots(None, Some(k), s.next), Drop(s.current) + Drop(s.previous))
    else Rotated(Slots(None, Some(k), s.current), Drop(s.previous))
  }

  function Confirmed(s: Slots, k: nat): Rotated {
    if s.next != Some(k) then Rotated(s, []) else Rotated(Slots(None, Some(k), s.current), Drop(s.previous))
  }

  function Cleared(s: Slots): Rotated {
    Rotated(EMPTY, Drop(s.next) + Drop(s.previous) + Drop(s.current))
  }

  // ---------------------------------------------------------------- the slots updated in place

  class Keypair {
    const id: nat
    const initiator: bool
    var sendingValid: bool

    constructor (id: nat, initiator: bool)
      ensures this.id == id && this.initiator == initiator && sendingValid
    {
      this.id, this.initiator, sendingValid := id, initiator, true;
    }
  }

  class KeypairSlots {
    var next: Keypair?
    var current: Keypair?
    var previous: Keypair?
    var dropped: seq<nat>

    function Name(k: Keypair?): Option<nat> {
      if k == null then None else Some(k.id)
    }

    function View(): Slots
      reads this
    {
      Slots(Name(next), Name(current), Name(previous))
    }

    constructor ()
      ensures View() == EMPTY && dropped == []
    {
      next, current, previous, dropped := null, null, null, [];
    }

    method Put(k: Keypair?)
      modifies this`dropped
      ensures dropped == old(dropped) + Drop(Name(k))
    {
      if k == null { return; }
      dropped := dropped + [k.id];
    }

    method AddNew(k: Keypair)
      modifies this
      ensures View() == Added(old(View()), k.id, k.initiator).slots
        && dropped == old(dropped) + Added(old(View()), k.id, k.initiator).dropped
    {
      var previousKeypair, nextKeypair, currentKeypair := previous, next, current;
      if k.initiator {
        if nextKeypair != null {
          next := null;
          previous := nextKeypair;
          Put(currentKeypair);
        } else {
          previous := currentKeypair;
        }
        Put(previousKeypair);
        current := k;
      } else {
        next := k;
        Put(nextKeypair);
        previous := null;
        Put(previousKeypair);
      }
    }

    // The test repeated under the lock finds the same answer here; interleavings are the state machine's business.
    method ReceivedWith(k: Keypair) returns (isNew: bool)
      requires next != null && next.id == k.id ==> next == k
      modifies this
      ensures isNew == (old(View()).next == Some(k.id))
      ensures View() == Confirmed(old(View()), k.id).slots
        && dropped == old(dropped) + Confirmed(old(View()), k.id).dropped
    {
      if k != next { return false; }
      var old' := previous;
      previous := current;
      Put(old');
      current := k;
      next := null;
      return true;
    }

    method Clear()
      modifies this
      ensures View() == Cleared(old(View())).slots && dropped == old(dropped) + Cleared(old(View())).dropped
    {
      var old' := next;
      next := null;
      Put(old');
      old' := previous;
      previous := null;
      Put(old');
      old' := current;
      current := null;
      Put(old');
    }
  }

  // ---------------------------------------------------------------- whole runs

  datatype Entry = Handshake | Pair(k: nat)

  // A session start holds the handshake's lock from the moment it fills a slot until it has moved the index
  // entry; `starting` is the keypair in that window.
  datatype State = State(
    slots: Slots,
    created: nat,
    initiated: set<nat>,
    dropped: seq<nat>,
    valid: set<nat>,
    hashed: set<Entry>,
    starting: Option<nat>)

  const START := State(EMPTY, 0, {}, [], {}, {}, None)

  // Message: an initiation or a response is made, and the handshake's entry (re)inserted.
  // Establish, Reindex: the two halves of a session start.
  // Receive: an authenticated packet arrives under a keypair.
  // Unhash: the handshake is cleared. Clear: the slots are cleared. Stop: sending under the slots' keys is stopped.
  // LastPut: the last reference to a keypair let go earlier is dropped.
  // Forgetting a peer's keys is Unhash and then Clear; expiring them is Unhash and then Stop.
  datatype Event =
    | Message | Establish(initiator: bool) | Reindex | Receive(k: nat) | Unhash | Clear | Stop | LastPut(k: nat)

  // What takes the handshake's lock waits for a session start to end; the slots have a lock of their own. A session
  // starts only from a handshake that has sent a message since it was last cleared.
  predicate Enabled(s: State, e: Event) {
    match e
    case Message => s.starting.None?
    case Unhash => s.starting.None?
    case Establish(_) => s.starting.None? && Handshake in s.hashed
    case Reindex => s.starting.Some?
    case Receive(k) => k < s.created
    case LastPut(k) => k in s.dropped
    case _ => true
  }

  function Without(hashed: set<Entry>, dropped: seq<nat>): set<Entry> {
    set x | x in hashed && !(x.Pair? && x.k in dropped)
  }

  function Rotate(s: State, r: Rotated): State {
    s.(slots := r.slots, dropped := s.dropped + r.dropped, hashed := Without(s.hashed, r.dropped))
  }

  function Step(s: State, e: Event): State {
    if !Enabled(s, e) then s
    else
      match e
      case Message => s.(hashed := s.hashed + {Handshake})
      case Establish(i) =>
        var k := s.created;
        Rotate(s, Added(s.slots, k, i)).(
          created := k + 1, initiated := if i then s.initiated + {k} else s.initiated,
          valid := s.valid + {k}, starting := Some(k))
      case Reindex => s.(hashed := s.hashed - {Handshake} + {Pair(s.starting.value)}, starting := None)
      case Receive(k) => Rotate(s, Confirmed(s.slots, k))
      case Unhash => s.(hashed := s.hashed - {Handshake})
      case Clear => Rotate(s, Cleared(s.slots))
      case Stop => s.(valid := s.valid - Held(s.slots.next) - Held(s.slots.current))
      case LastPut(k) => s.(hashed := s.hashed - {Pair(k)})
  }

  function Run(events: seq<Event>): State {
    if events == [] then START else Step(Run(events[..|events| - 1]), events[|events| - 1])
  }

  predicate Distinct(s: seq<nat>) {
    forall i, j | 0 <= i < j < |s| :: s[i] != s[j]
  }

  predicate Apart(s: Slots) {
    Held(s.next) !! Held(s.current) && Held(s.next) !! Held(s.previous) && Held(s.current) !! Held(s.previous)
  }

  // Every keypair made is in a slot or was let go, once.
  ghost predicate Accounted(slots: Slots, dropped: seq<nat>, created: nat) {
    && Distinct(dropped)
    && (forall k: nat :: k in Filled(slots) ==> k !in dropped && k < created)
    && (forall k: nat :: k < created ==> k in Filled(slots) || k in dropped)
    && (forall k | k in dropped :: k < created)
  }

  ghost predicate Inv(s: State) {
    && (s.slots.next.None? || s.slots.previous.None?)
    && Apart(s.slots)
    && Accounted(s.slots, s.dropped, s.created)
    && (forall x | x in s.hashed && x.Pair? :: x.k < s.created)
    && (s.starting.Some? ==> s.starting.value < s.created && Handshake in s.hashed)
  }

  lemma StepKeeps(s: State, e: Event)
    requires Inv(s)
    ensures Inv(Step(s, e))
  {
    if Enabled(s, e) {
      match e
      case Establish(i) => RotateKeeps(s, s.created, i);
      case Receive(k) => ConfirmKeeps(s, k);
      case Clear => ClearKeeps(s);
      case _ =>
    }
  }

  // What the slots held and what is new is held afterwards or let go.
  lemma StillAccounted(was: Slots, dropped: seq<nat>, created: nat, r: Rotated, made: nat)
    requires Accounted(was, dropped, created) && created <= made && Distinct(r.dropped)
    requires forall x: nat :: x in Filled(was) || created <= x < made <==> x in Filled(r.slots) || x in r.dropped
    requires forall x | x in r.dropped :: x !in Filled(r.slots)
    ensures Accounted(r.slots, dropped + r.dropped, made)
  {
    assert forall x: nat :: x in dropped + r.dropped <==> x in dropped || x in r.dropped;
    DistinctSum(dropped, r.dropped);
    hide Distinct, Filled;
  }

  // A fresh keypair pushes out only what the slots held, each once.
  lemma AddedMoves(s: Slots, k: nat, initiator: bool)
    requires Apart(s) && (s.next.None? || s.previous.None?) && k !in Filled(s)
    ensures var r := Added(s, k, initiator);
      Apart(r.slots) && (r.slots.next.None? || r.slots.previous.None?) && Distinct(r.dropped)
      && (forall x: nat :: x in Filled(s) || x == k <==> x in Filled(r.slots) || x in r.dropped)
      && (forall x | x in r.dropped :: x !in Filled(r.slots))
  {
  }

  lemma AddedAccounted(s: Slots, dropped: seq<nat>, k: nat, initiator: bool)
    requires Apart(s) && (s.next.None? || s.previous.None?) && Accounted(s, dropped, k)
    ensures var r := Added(s, k, initiator);
      Apart(r.slots) && (r.slots.next.None? || r.slots.previous.None?)
      && Accounted(r.slots, dropped + r.dropped, k + 1)
  {
    assert k !in Filled(s);
    hide Distinct, Filled, Accounted, Apart, Added;
    AddedMoves(s, k, initiator);
    StillAccounted(s, dropped, k, Added(s, k, initiator), k + 1);
  }

  lemma RotateKeeps(s: State, k: nat, initiator: bool)
    requires Inv(s) && k == s.created && Enabled(s, Establish(initiator))
    ensures Inv(Step(s, Establish(initiator)))
  {
    hide Accounted, Apart, Added;
    AddedAccounted(s.slots, s.dropped, k, initiator);
  }

  lemma DistinctSum(a: seq<nat>, b: seq<nat>)
    requires Distinct(a) && Distinct(b) && forall x | x in b :: x !in a
    ensures Distinct(a + b)
  {
    forall i, j | 0 <= i < j < |a + b| ensures (a + b)[i] != (a + b)[j] {
      if i < |a| <= j { assert b[j - |a|] in b; }
    }
  }

  // A keypair waiting in next means there is no previous one, so confirming it drops nothing.
  lemma ConfirmKeeps(s: State, k: nat)
    requires Inv(s)
    ensures Inv(Rotate(s, Confirmed(s.slots, k))) && Confirmed(s.slots, k).dropped == []
    ensures Filled(Confirmed(s.slots, k).slots) == Filled(s.slots)
  {
    var r := Confirmed(s.slots, k);
    assert forall x: nat :: x in Filled(s.slots) <==> x in Filled(r.slots);
    assert s.dropped + r.dropped == s.dropped;
  }

  lemma ClearedAccounted(s: Slots, dropped: seq<nat>, created: nat)
    requires Apart(s) && Accounted(s, dropped, created)
    ensures var r := Cleared(s);
      Apart(r.slots) && r.slots.next.None? && Accounted(r.slots, dropped + r.dropped, created)
  {
    var r := Cleared(s);
    assert forall x: nat :: x in Filled(s) <==> x in Filled(r.slots) || x in r.dropped;
    assert Distinct(r.dropped) && forall x | x in r.dropped :: x !in Filled(r.slots);
    assert Apart(r.slots);
    hide Distinct, Filled, Accounted, Apart;
    StillAccounted(s, dropped, created, r, created);
  }

  lemma ClearKeeps(s: State)
    requires Inv(s)
    ensures Inv(Step(s, Clear))
  {
    hide Accounted, Apart, Cleared;
    ClearedAccounted(s.slots, s.dropped, s.created);
  }

  lemma {:induction false} RunKeeps(events: seq<Event>)
    ensures Inv(Run(events))
  {
    if events != [] {
      RunKeeps(events[..|events| - 1]);
      StepKeeps(Run(events[..|events| - 1]), events[|events| - 1]);
    }
  }

  lemma {:induction false} RunOn(events: seq<Event>, more: seq<Event>)
    ensures more != [] ==> Run(events + more) == Step(Run(events + more[..|more| - 1]), more[|more| - 1])
  {
    if more != [] {
      var all := events + more;
      assert all[..|all| - 1] == events + more[..|more| - 1];
    }
  }

  lemma {:induction false} DroppedStays(events: seq<Event>, more: seq<Event>)
    ensures Run(events).dropped <= Run(events + more).dropped
  {
    if more == [] {
      assert events + more == events;
    } else {
      DroppedStays(events, more[..|more| - 1]);
      RunOn(events, more);
    }
  }

  // In every run every keypair made is either in exactly one slot or has been let go exactly once; next and
  // previous are never both filled.
  lemma Rotation(events: seq<Event>, k: nat)
    ensures var s := Run(events);
      (s.slots.next.None? || s.slots.previous.None?) && Apart(s.slots)
      && (k < s.created ==> (k in Filled(s.slots) <==> k !in s.dropped))
      && multiset(s.dropped)[k] <= 1
  {
    RunKeeps(events);
    DistinctOnce(Run(events).dropped, k);
  }

  lemma {:induction false} DistinctOnce(s: seq<nat>, k: nat)
    requires Distinct(s)
    ensures multiset(s)[k] <= 1
  {
    if s != [] {
      var n := |s| - 1;
      assert s == s[..n] + [s[n]];
      DistinctOnce(s[..n], k);
      assert s[n] !in s[..n];
    }
  }

  // A keypair once let go never comes back to a slot and is never let go again.
  lemma NeverReturns(events: seq<Event>, more: seq<Event>, k: nat)
    requires k in Run(events).dropped
    ensures k !in Filled(Run(events + more).slots) && multiset(Run(events + more).dropped)[k] == 1
  {
    DroppedStays(events, more);
    RunKeeps(events + more);
    DistinctOnce(Run(events + more).dropped, k);
    assert k in multiset(Run(events + more).dropped);
  }

  // ---------------------------------------------------------------- confirmation

  ghost predicate ConfirmedBy(s: State, events: seq<Event>) {
    (s.slots.current.Some? && s.slots.current.value !in s.initiated ==> Receive(s.slots.current.value) in events)
    && forall k | k in s.initiated :: k < s.created
  }

  // The current keypair is one we initiated, or a packet has arrived under it.
  lemma {:induction false} CurrentIsConfirmed(events: seq<Event>)
    ensures ConfirmedBy(Run(events), events)
  {
    if events != [] {
      var before, e := events[..|events| - 1], events[|events| - 1];
      CurrentIsConfirmed(before);
      RunKeeps(before);
      assert events == before + [e];
      var s, t := Run(before), Run(events);
      if e.Establish? && Enabled(s, e) {
        assert s.created !in Filled(s.slots);
        assert !e.initiator ==> t.slots.current == s.slots.current && s.slots.current != Some(s.created);
      }
    }
  }

  // ---------------------------------------------------------------- the slots, from what happened

  // What happened to a peer's keypairs, in order: one was made, a packet arrived under one, the slots were cleared,
  // sending was stopped.
  datatype Turn = Began(k: nat, initiator: bool) | Heard(k: nat) | Emptied | Stopped

  function Turned(s: State, e: Event): seq<Turn> {
    match e
    case Establish(i) => if Enabled(s, e) then [Began(s.created, i)] else []
    case Receive(k) => if Enabled(s, e) then [Heard(k)] else []
    case Clear => [Emptied]
    case Stop => [Stopped]
    case _ => []
  }

  function Turns(events: seq<Event>): seq<Turn> {
    if events == [] then []
    else
      var n := |events| - 1;
      Turns(events[..n]) + Turned(Run(events[..n]), events[n])
  }

  // We answered for k, and since then nothing else began, no packet came under it and nothing was cleared.
  ghost predicate AwaitsFrom(turns: seq<Turn>, k: nat, i: int) {
    0 <= i < |turns| && turns[i] == Began(k, false)
    && forall j | i < j < |turns| :: !turns[j].Began? && turns[j] != Heard(k) && !turns[j].Emptied?
  }

  ghost predicate Awaits(turns: seq<Turn>, k: nat) {
    exists i :: AwaitsFrom(turns, k, i)
  }

  // Turn i is the start of a session of ours, or the first packet of one that was waited for.
  ghost predicate Promotes(turns: seq<Turn>, i: int, k: nat) {
    0 <= i < |turns| && (turns[i] == Began(k, true) || (turns[i] == Heard(k) && Awaits(turns[..i], k)))
  }

  ghost predicate Promotion(turns: seq<Turn>, i: int) {
    exists k: nat :: Promotes(turns, i, k)
  }

  ghost predicate ReignsFrom(turns: seq<Turn>, k: nat, i: int) {
    Promotes(turns, i, k) && forall j | i < j < |turns| :: !turns[j].Emptied? && !Promotion(turns, j)
  }

  ghost predicate Reigns(turns: seq<Turn>, k: nat) {
    exists i :: ReignsFrom(turns, k, i)
  }

  ghost predicate SomeAwaits(turns: seq<Turn>) {
    exists k: nat :: Awaits(turns, k)
  }

  // The last promotion displaced k, and since then nothing began and nothing was cleared. A session of ours that
  // overtakes a waiting one leaves the waiting one behind; otherwise it is the one that reigned.
  ghost predicate FollowsFrom(turns: seq<Turn>, k: nat, i: int) {
    Promotion(turns, i)
    && (forall j | i < j < |turns| :: !turns[j].Emptied? && !turns[j].Began? && !Promotion(turns, j))
    && if turns[i].Began? && SomeAwaits(turns[..i]) then Awaits(turns[..i], k) else Reigns(turns[..i], k)
  }

  ghost predicate Follows(turns: seq<Turn>, k: nat) {
    exists i :: FollowsFrom(turns, k, i)
  }

  // ---- one turn more

  lemma AwaitsNext(turns: seq<Turn>, x: Turn, k: nat)
    ensures Awaits(turns + [x], k)
      <==> x == Began(k, false) || (Awaits(turns, k) && !x.Began? && x != Heard(k) && !x.Emptied?)
  {
    var all, n := turns + [x], |turns|;
    assert all[n] == x && forall i | 0 <= i < n :: all[i] == turns[i];
    if i :| AwaitsFrom(all, k, i) {
      if i < n { assert AwaitsFrom(turns, k, i); }
    }
    if x == Began(k, false) { assert AwaitsFrom(all, k, n); }
    if i :| AwaitsFrom(turns, k, i) {
      if !x.Began? && x != Heard(k) && !x.Emptied? { assert AwaitsFrom(all, k, i); }
    }
  }

  lemma PromotesNext(turns: seq<Turn>, x: Turn, i: int, k: nat)
    ensures i < |turns| ==> (Promotes(turns + [x], i, k) <==> Promotes(turns, i, k))
    ensures i == |turns| ==>
      (Promotes(turns + [x], i, k) <==> x == Began(k, true) || (x == Heard(k) && Awaits(turns, k)))
  {
    if 0 <= i < |turns| { assert (turns + [x])[..i] == turns[..i]; }
    assert (turns + [x])[..|turns|] == turns;
  }

  lemma PromotionNext(turns: seq<Turn>, x: Turn, i: int)
    ensures i < |turns| ==> (Promotion(turns + [x], i) <==> Promotion(turns, i))
    ensures i == |turns| ==>
      (Promotion(turns + [x], i) <==> (x.Began? && x.initiator) || (x.Heard? && Awaits(turns, x.k)))
  {
    if k: nat :| Promotes(turns + [x], i, k) { PromotesNext(turns, x, i, k); }
    if k: nat :| Promotes(turns, i, k) { PromotesNext(turns, x, i, k); }
    if i == |turns| && (x.Began? || x.Heard?) { PromotesNext(turns, x, i, x.k); }
  }

  // Whether this turn promotes.
  ghost predicate Promoting(turns: seq<Turn>, x: Turn) {
    (x.Began? && x.initiator) || (x.Heard? && Awaits(turns, x.k))
  }

  lemma ReignsNext(turns: seq<Turn>, x: Turn, k: nat)
    ensures Reigns(turns + [x], k)
      <==> if Promoting(turns, x) then x.k == k else Reigns(turns, k) && !x.Emptied?
  {
    var all, n := turns + [x], |turns|;
    assert all[n] == x && forall i | 0 <= i < n :: all[i] == turns[i];
    forall i ensures i < n ==> (Promotes(all, i, k) <==> Promotes(turns, i, k)) { PromotesNext(turns, x, i, k); }
    forall i ensures i < n ==> (Promotion(all, i) <==> Promotion(turns, i)) { PromotionNext(turns, x, i); }
    PromotesNext(turns, x, n, k);
    PromotionNext(turns, x, n);
    hide Promotes, Promotion, Awaits;
    if i :| ReignsFrom(all, k, i) {
      PromotesIn(all, i, k);
      if i < n { assert ReignsFrom(turns, k, i); }
    }
    if Promoting(turns, x) && x.k == k { assert ReignsFrom(all, k, n); }
    if i :| ReignsFrom(turns, k, i) {
      PromotesIn(turns, i, k);
      if !Promoting(turns, x) && !x.Emptied? { assert ReignsFrom(all, k, i); }
    }
  }

  lemma PromotesIn(turns: seq<Turn>, i: int, k: nat)
    requires Promotes(turns, i, k)
    ensures 0 <= i < |turns| && Promotion(turns, i)
  {
  }

  lemma PromotionIn(turns: seq<Turn>, i: int)
    requires Promotion(turns, i)
    ensures 0 <= i < |turns|
  {
  }

  lemma FollowsNext(turns: seq<Turn>, x: Turn, k: nat)
    ensures Follows(turns + [x], k)
      <==> if Promoting(turns, x)
           then (if x.Began? && SomeAwaits(turns) then Awaits(turns, k) else Reigns(turns, k))
           else Follows(turns, k) && !x.Emptied? && !x.Began?
  {
    var all, n := turns + [x], |turns|;
    assert forall i | 0 <= i < n :: all[i] == turns[i] && all[..i] == turns[..i];
    assert all[..n] == turns;
    forall i ensures i < n ==> (Promotion(all, i) <==> Promotion(turns, i)) { PromotionNext(turns, x, i); }
    PromotionNext(turns, x, n);
    hide Promotion, Awaits, SomeAwaits, Reigns;
    if i :| FollowsFrom(all, k, i) {
      PromotionIn(all, i);
      if i < n { assert FollowsFrom(turns, k, i); }
    }
    if Promoting(turns, x) && (if x.Began? && SomeAwaits(turns) then Awaits(turns, k) else Reigns(turns, k)) {
      assert FollowsFrom(all, k, n);
    }
    if i :| FollowsFrom(turns, k, i) {
      PromotionIn(turns, i);
      if !Promoting(turns, x) && !x.Emptied? && !x.Began? { assert FollowsFrom(all, k, i); }
    }
  }

  // ---- and so the slots

  ghost predicate Told(slots: Slots, turns: seq<Turn>) {
    forall k: nat ::
      (slots.next == Some(k) <==> Awaits(turns, k)) && (slots.current == Some(k) <==> Reigns(turns, k))
      && (slots.previous == Some(k) <==> Follows(turns, k))
  }

  lemma ToldNext(slots: Slots, turns: seq<Turn>, x: Turn, after: Slots)
    requires Told(slots, turns) && (slots.next.None? || slots.previous.None?)
    requires match x
      case Began(k, i) => after == Added(slots, k, i).slots
      case Heard(k) => after == Confirmed(slots, k).slots
      case Emptied => after == EMPTY
      case Stopped => after == slots
    ensures Told(after, turns + [x])
  {
    assert SomeAwaits(turns) <==> slots.next.Some? by {
      if slots.next.Some? { assert Awaits(turns, slots.next.value); }
    }
    hide Awaits, Reigns, Follows, SomeAwaits;
    forall k: nat
      ensures (after.next == Some(k) <==> Awaits(turns + [x], k))
        && (after.current == Some(k) <==> Reigns(turns + [x], k))
        && (after.previous == Some(k) <==> Follows(turns + [x], k))
    {
      AwaitsNext(turns, x, k);
      ReignsNext(turns, x, k);
      FollowsNext(turns, x, k);
    }
  }

  lemma ToldNothing()
    ensures Told(EMPTY, [])
  {
  }

  lemma ToldStep(s: State, e: Event, turns: seq<Turn>)
    requires Inv(s) && Told(s.slots, turns)
    ensures Told(Step(s, e).slots, turns + Turned(s, e))
  {
    hide Told, Inv;
    assert s.slots.next.None? || s.slots.previous.None? by { InvSlots(s); }
    if Turned(s, e) == [] {
      assert turns + [] == turns;
    } else {
      ToldNext(s.slots, turns, Turned(s, e)[0], Step(s, e).slots);
    }
  }

  lemma InvSlots(s: State)
    requires Inv(s)
    ensures s.slots.next.None? || s.slots.previous.None?
  {
  }

  // In every run the slots hold what the turns say: in next the keypair answered for and still waited for, in current
  // the one last promoted, in previous the one that promotion displaced.
  lemma {:induction false} SlotsTold(events: seq<Event>)
    ensures Told(Run(events).slots, Turns(events))
  {
    hide Told, Step, Turned;
    if events == [] {
      ToldNothing();
    } else {
      var n := |events| - 1;
      SlotsTold(events[..n]);
      RunKeeps(events[..n]);
      ToldStep(Run(events[..n]), events[n], Turns(events[..n]));
    }
  }

  // ---- and who can send

  // k began, and sending was never stopped while it was waited for or reigned.
  ghost predicate SpeaksFrom(turns: seq<Turn>, k: nat, i: int) {
    0 <= i < |turns| && turns[i].Began? && turns[i].k == k
    && forall j | i < j < |turns| && turns[j].Stopped? :: !Awaits(turns[..j], k) && !Reigns(turns[..j], k)
  }

  ghost predicate Speaks(turns: seq<Turn>, k: nat) {
    exists i :: SpeaksFrom(turns, k, i)
  }

  lemma SpeaksNext(turns: seq<Turn>, x: Turn, k: nat)
    requires x.Began? ==> x.k != k || !exists i | 0 <= i < |turns| :: turns[i].Began? && turns[i].k == k
    ensures Speaks(turns + [x], k)
      <==> (x.Began? && x.k == k) || (Speaks(turns, k) && !(x.Stopped? && (Awaits(turns, k) || Reigns(turns, k))))
  {
    var all, n := turns + [x], |turns|;
    assert forall i | 0 <= i < n :: all[i] == turns[i] && all[..i] == turns[..i];
    assert all[..n] == turns;
    hide Awaits, Reigns;
    if i :| SpeaksFrom(all, k, i) {
      if i < n { assert SpeaksFrom(turns, k, i); }
    }
    if x.Began? && x.k == k { assert SpeaksFrom(all, k, n); }
    if i :| SpeaksFrom(turns, k, i) {
      if !(x.Stopped? && (Awaits(turns, k) || Reigns(turns, k))) { assert SpeaksFrom(all, k, i); }
    }
  }

  ghost predicate Numbered(turns: seq<Turn>, created: nat) {
    forall i | 0 <= i < |turns| && turns[i].Began? :: turns[i].k < created
  }

  lemma SpeaksStep(s: State, e: Event, turns: seq<Turn>, k: nat)
    requires Told(s.slots, turns) && Numbered(turns, s.created) && (k in s.valid <==> Speaks(turns, k))
    ensures k in Step(s, e).valid <==> Speaks(turns + Turned(s, e), k)
    ensures Numbered(turns + Turned(s, e), Step(s, e).created)
  {
    assert Awaits(turns, k) <==> s.slots.next == Some(k);
    assert Reigns(turns, k) <==> s.slots.current == Some(k);
    hide Told, Speaks, Awaits, Reigns;
    if Turned(s, e) == [] {
      assert turns + [] == turns;
    } else {
      SpeaksNext(turns, Turned(s, e)[0], k);
    }
  }

  // In every run a keypair can send exactly from its start until an expiry meets it in next or current.
  lemma {:induction false} SendersTold(events: seq<Event>, k: nat)
    ensures k in Run(events).valid <==> Speaks(Turns(events), k)
    ensures Numbered(Turns(events), Run(events).created)
  {
    if events != [] {
      hide Told, Step, Turned, Speaks, Numbered;
      var n := |events| - 1;
      SendersTold(events[..n], k);
      SlotsTold(events[..n]);
      SpeaksStep(Run(events[..n]), events[n], Turns(events[..n]), k);
    }
  }

  // ---- and what is in the index

  ghost predicate Happens(events: seq<Event>, i: int, e: Event) {
    0 <= i < |events| && events[i] == e && Enabled(Run(events[..i]), e)
  }

  // A message was made, and since then no session start ended and the handshake was not cleared.
  ghost predicate CallsFrom(events: seq<Event>, i: int) {
    Happens(events, i, Message)
    && forall j | i < j < |events| :: !Happens(events, j, Reindex) && !Happens(events, j, Unhash)
  }

  ghost predicate Calls(events: seq<Event>) {
    exists i :: CallsFrom(events, i)
  }

  // Turn i puts k in the index, or takes it out.
  ghost predicate Lists(events: seq<Event>, i: int, k: nat) {
    Happens(events, i, Reindex) && Run(events[..i]).starting == Some(k)
  }

  ghost predicate Unlists(events: seq<Event>, i: int, k: nat) {
    0 <= i < |events|
    && (Happens(events, i, LastPut(k)) || (k in Run(events[..i + 1]).dropped && k !in Run(events[..i]).dropped))
  }

  ghost predicate ListedFrom(events: seq<Event>, k: nat, i: int) {
    Lists(events, i, k) && forall j | i < j < |events| :: !Unlists(events, j, k)
  }

  ghost predicate Listed(events: seq<Event>, k: nat) {
    exists i :: ListedFrom(events, k, i)
  }

  lemma HappensNext(events: seq<Event>, x: Event, i: int, e: Event)
    ensures i < |events| ==> (Happens(events + [x], i, e) <==> Happens(events, i, e))
    ensures i == |events| ==> (Happens(events + [x], i, e) <==> x == e && Enabled(Run(events), e))
  {
    if 0 <= i < |events| { assert (events + [x])[..i] == events[..i]; }
    assert (events + [x])[..|events|] == events;
  }

  lemma CallsNext(events: seq<Event>, x: Event)
    ensures Calls(events + [x])
      <==> if Enabled(Run(events), x)
           then x.Message? || (Calls(events) && !x.Reindex? && !x.Unhash?) else Calls(events)
  {
    var all, n := events + [x], |events|;
    forall i, e ensures i < n ==> (Happens(all, i, e) <==> Happens(events, i, e)) { HappensNext(events, x, i, e); }
    HappensNext(events, x, n, Message);
    HappensNext(events, x, n, Reindex);
    HappensNext(events, x, n, Unhash);
    assert forall i, e | Happens(all, i, e) :: i <= n;
    assert forall i, e | Happens(events, i, e) :: i < n;
    hide Happens;
    if i :| CallsFrom(all, i) {
      if i < n { assert CallsFrom(events, i); }
    }
    if Happens(all, n, Message) { assert CallsFrom(all, n); }
    if i :| CallsFrom(events, i) {
      if !Happens(all, n, Reindex) && !Happens(all, n, Unhash) { assert CallsFrom(all, i); }
    }
  }

  // In every run the handshake's entry is in the index exactly while a message of it waits for its session.
  lemma {:induction false} HandshakeTold(events: seq<Event>)
    ensures Handshake in Run(events).hashed <==> Calls(events)
  {
    if events != [] {
      var n := |events| - 1;
      var front, x := events[..n], events[n];
      assert events == front + [x];
      HandshakeTold(front);
      CallsNext(front, x);
      hide Calls;
    }
  }

  lemma ListsBefore(events: seq<Event>, x: Event, i: int, k: nat)
    requires i < |events|
    ensures Lists(events + [x], i, k) <==> Lists(events, i, k)
  {
    HappensNext(events, x, i, Reindex);
    if 0 <= i { assert (events + [x])[..i] == events[..i]; }
  }

  lemma UnlistsBefore(events: seq<Event>, x: Event, i: int, k: nat)
    requires i < |events|
    ensures Unlists(events + [x], i, k) <==> Unlists(events, i, k)
  {
    if 0 <= i {
      HappensNext(events, x, i, LastPut(k));
      assert (events + [x])[..i] == events[..i] && (events + [x])[..i + 1] == events[..i + 1];
      hide Run, Happens;
    }
  }

  lemma ListsLast(events: seq<Event>, x: Event, k: nat)
    ensures Lists(events + [x], |events|, k) <==> x.Reindex? && Run(events).starting == Some(k)
  {
    HappensNext(events, x, |events|, Reindex);
    assert (events + [x])[..|events|] == events;
    hide Run, Happens;
  }

  lemma UnlistsLast(events: seq<Event>, x: Event, k: nat)
    ensures Unlists(events + [x], |events|, k) <==>
      ((x == LastPut(k) && k in Run(events).dropped)
       || (k in Run(events + [x]).dropped && k !in Run(events).dropped))
  {
    HappensNext(events, x, |events|, LastPut(k));
    assert (events + [x])[..|events|] == events && (events + [x])[..|events| + 1] == events + [x];
    hide Run, Happens;
  }

  lemma ListedNext(events: seq<Event>, x: Event, k: nat)
    ensures Listed(events + [x], k)
      <==> Lists(events + [x], |events|, k) || (Listed(events, k) && !Unlists(events + [x], |events|, k))
  {
    var all, n := events + [x], |events|;
    forall i
      ensures i < n ==> (Lists(all, i, k) <==> Lists(events, i, k)) && (Unlists(all, i, k) <==> Unlists(events, i, k))
    {
      if i < n {
        ListsBefore(events, x, i, k);
        UnlistsBefore(events, x, i, k);
      }
    }
    assert forall i | Lists(all, i, k) :: i <= n;
    assert forall i | Lists(events, i, k) :: i < n;
    hide Lists, Unlists;
    if i :| ListedFrom(all, k, i) {
      if i < n { assert ListedFrom(events, k, i); }
    }
    if Lists(all, n, k) { assert ListedFrom(all, k, n); }
    if i :| ListedFrom(events, k, i) {
      if !Unlists(all, n, k) { assert ListedFrom(all, k, i); }
    }
  }

  // And a keypair's from the end of its session start until it is let go, or until its last reference goes if the
  // start was cut.
  lemma {:induction false} EntriesTold(events: seq<Event>, k: nat)
    ensures Pair(k) in Run(events).hashed <==> Listed(events, k)
  {
    if events != [] {
      var n := |events| - 1;
      var front, x := events[..n], events[n];
      assert events == front + [x];
      EntriesTold(front, k);
      RunKeeps(front);
      ListedNext(front, x, k);
      ListsLast(front, x, k);
      UnlistsLast(front, x, k);
      hide Listed, Lists, Unlists;
      EntryStep(Run(front), x, k);
    }
  }

  lemma EntryStep(s: State, e: Event, k: nat)
    requires Inv(s)
    ensures var t := Step(s, e);
      Pair(k) in t.hashed <==>
        ((e.Reindex? && s.starting == Some(k))
         || (Pair(k) in s.hashed && !(e == LastPut(k) && k in s.dropped) && !(k in t.dropped && k !in s.dropped)))
  {
  }

  // ---------------------------------------------------------------- expiry

  // After an expiry nothing can be sent until a new session starts: whatever becomes current meanwhile is a
  // keypair whose sending side was switched off, also one whose session start was still under way.
  ghost predicate Silent(s: State) {
    Held(s.slots.next) !! s.valid && Held(s.slots.current) !! s.valid
  }

  lemma {:induction false} ExpirySilences(events: seq<Event>, more: seq<Event>)
    requires forall e | e in more :: !e.Establish?
    ensures Silent(Run(events + [Stop] + more))
  {
    if more == [] {
      assert events + [Stop] + more == events + [Stop];
      assert (events + [Stop])[..|events|] == events;
    } else {
      var before, e := more[..|more| - 1], more[|more| - 1];
      ExpirySilences(events, before);
      RunOn(events + [Stop], more);
    }
  }

  // ---------------------------------------------------------------- index entries

  // The handshake and the keypairs in slots are all a peer ought to have in the index.
  predicate Tidy(s: State) {
    forall x | x in s.hashed && x.Pair? :: x.k in Filled(s.slots)
  }

  // A clear of the slots that falls between the two halves of a session start.
  predicate Cuts(s: State, e: Event) {
    e.Clear? && s.starting.Some?
  }

  predicate Uncut(events: seq<Event>) {
    forall i | 0 <= i < |events| :: !Cuts(Run(events[..i]), events[i])
  }

  ghost predicate Indexed(s: State) {
    Tidy(s) && (s.starting.Some? ==> s.starting.value in Filled(s.slots))
  }

  lemma StepIndexed(s: State, e: Event)
    requires Inv(s) && Indexed(s) && !Cuts(s, e)
    ensures Indexed(Step(s, e))
  {
    if Enabled(s, e) {
      match e
      case Establish(i) => RotateIndexed(s, i);
      case Receive(k) => ConfirmKeeps(s, k);
      case _ =>
    }
  }

  lemma RotateIndexed(s: State, initiator: bool)
    requires Inv(s) && Indexed(s) && Enabled(s, Establish(initiator))
    ensures Indexed(Step(s, Establish(initiator)))
  {
    var r := Added(s.slots, s.created, initiator);
    assert forall x: nat :: x in Filled(s.slots) ==> x in Filled(r.slots) || x in r.dropped;
    assert s.created in Filled(r.slots);
  }

  lemma UncutFront(events: seq<Event>)
    requires events != [] && Uncut(events)
    ensures Uncut(events[..|events| - 1])
  {
    var front := events[..|events| - 1];
    forall i | 0 <= i < |front| ensures !Cuts(Run(front[..i]), front[i]) {
      assert front[..i] == events[..i] && front[i] == events[i];
    }
  }

  lemma {:induction false} UncutIndexed(events: seq<Event>)
    requires Uncut(events)
    ensures Indexed(Run(events))
  {
    if events != [] {
      var n := |events| - 1;
      UncutFront(events);
      UncutIndexed(events[..n]);
      RunKeeps(events[..n]);
      StepIndexed(Run(events[..n]), events[n]);
    }
  }

  // A start cut short stays cut: its keypair has been let go, and it will be put in the index all the same.
  ghost predicate Severed(s: State) {
    s.starting.Some? && s.starting.value in s.dropped
  }

  lemma CutUntidy(events: seq<Event>, i: nat)
    requires i < |events| && Cuts(Run(events[..i]), events[i]) && Run(events).starting.None?
    ensures exists j | 0 <= j <= |events| :: !Tidy(Run(events[..j]))
  {
    RunKeeps(events[..i]);
    assert events[..i + 1][..i] == events[..i] && events[..i + 1][i] == events[i];
    CutSevers(Run(events[..i]));
    SeveredUntidy(events, i + 1);
  }

  lemma {:induction false} SeveredUntidy(events: seq<Event>, j: nat)
    requires j <= |events| && Severed(Run(events[..j])) && Run(events).starting.None?
    ensures exists i | 0 <= i <= |events| :: !Tidy(Run(events[..i]))
    decreases |events| - j
  {
    assert events[..|events|] == events;
    RunKeeps(events[..j]);
    var s := Run(events[..j]);
    assert events[..j + 1][..j] == events[..j] && events[..j + 1][j] == events[j];
    assert Run(events[..j + 1]) == Step(s, events[j]);
    hide Run;
    if events[j].Reindex? {
      SeveredReindexed(s);
    } else {
      StaysSevered(s, events[j]);
      SeveredUntidy(events, j + 1);
    }
  }

  lemma SeveredReindexed(s: State)
    requires Inv(s) && Severed(s)
    ensures !Tidy(Step(s, Reindex))
  {
    assert Pair(s.starting.value) in Step(s, Reindex).hashed;
  }

  lemma CutSevers(s: State)
    requires Inv(s) && s.starting.Some?
    ensures Severed(Step(s, Clear))
  {
    var k, r := s.starting.value, Cleared(s.slots);
    assert k in Filled(s.slots) || k in s.dropped;
    assert forall x: nat :: x in Filled(s.slots) <==> x in r.dropped;
  }

  lemma StaysSevered(s: State, e: Event)
    requires Inv(s) && Severed(s) && !e.Reindex?
    ensures Severed(Step(s, e))
  {
  }

  // A peer's index entries are never more than its handshake and the keypairs in its slots, exactly when no clear
  // of the slots falls inside a session start.
  lemma TidyExactly(events: seq<Event>)
    requires Run(events).starting.None?
    ensures Uncut(events) <==> forall j | 0 <= j <= |events| :: Tidy(Run(events[..j]))
  {
    if Uncut(events) {
      forall j | 0 <= j <= |events| ensures Tidy(Run(events[..j])) { UncutIndexed(PrefixUncut(events, j)); }
    } else {
      var i :| 0 <= i < |events| && Cuts(Run(events[..i]), events[i]);
      CutUntidy(events, i);
    }
  }

  ghost function PrefixUncut(events: seq<Event>, j: nat): (front: seq<Event>)
    requires j <= |events| && Uncut(events)
    ensures front == events[..j] && Uncut(front)
  {
    assert forall i | 0 <= i < j :: events[..j][..i] == events[..i] && events[..j][i] == events[i];
    events[..j]
  }

  function Pairs(o: Option<nat>): set<Entry> {
    if o.None? then {} else {Pair(o.value)}
  }

  lemma IndexedFew(s: State)
    requires Inv(s) && Tidy(s)
    ensures |s.hashed| <= 3
  {
    var room := if s.slots.next.Some? then {Handshake} + Pairs(s.slots.next) + Pairs(s.slots.current)
                else {Handshake} + Pairs(s.slots.current) + Pairs(s.slots.previous);
    forall x | x in s.hashed ensures x in room {
      if x.Pair? { assert x == Pair(x.k) && x.k in Filled(s.slots); }
    }
    SubsetSize(s.hashed, room);
  }

  lemma AtMostThree(events: seq<Event>)
    requires Uncut(events)
    ensures |Run(events).hashed| <= 3
  {
    RunKeeps(events);
    UncutIndexed(events);
    IndexedFew(Run(events));
  }

  // One more session of our own making.
  function Session(s: State): State {
    Step(Step(Step(s, Message), Establish(true)), Reindex)
  }

  lemma SessionAdds(s: State)
    requires Inv(s) && s.starting.None?
    ensures var t := Session(s);
      Inv(t) && t.starting.None? && t.created == s.created + 1 && t.slots.current == Some(s.created)
        && t.slots.next.None?
      && Pair(s.created) in t.hashed && s.dropped <= t.dropped
    ensures forall k | k in s.dropped && Pair(k) in s.hashed :: Pair(k) in Session(s).hashed
    ensures s.slots.next.None? && s.slots.current.Some? && Pair(s.slots.current.value) in s.hashed ==>
      Pair(s.slots.current.value) in Session(s).hashed
  {
    var a := Step(s, Message);
    StepKeeps(s, Message);
    StepKeeps(a, Establish(true));
    StepKeeps(Step(a, Establish(true)), Reindex);
    var r := Added(a.slots, a.created, true);
    assert forall k | k in r.dropped :: k in Filled(s.slots);
  }

  lemma FourEntries(hashed: set<Entry>, k: nat, a: nat, b: nat)
    requires k != a && k != b && a != b && Handshake in hashed && Pair(k) in hashed && Pair(a) in hashed
      && Pair(b) in hashed
    ensures |hashed| >= 4
  {
    var four := {Handshake, Pair(k), Pair(a), Pair(b)};
    assert |four| == 4;
    SubsetSize(four, hashed);
  }

  // An entry left behind by a start cut short can stay: two sessions and a message later the peer holds four.
  lemma LeftBehindFour(s: State, k: nat)
    requires Inv(s) && s.starting.None? && k in s.dropped && Pair(k) in s.hashed
    ensures |Step(Session(Session(s)), Message).hashed| >= 4
  {
    assert k < s.created;
    hide Session, Inv;
    var t := Session(s);
    SessionAdds(s);
    var u := Session(t);
    SessionAdds(t);
    FourEntries(Step(u, Message).hashed, k, s.created, t.created);
  }

  function Continued(s: State, more: seq<Event>): State
    decreases |more|
  {
    if more == [] then s else Continued(Step(s, more[0]), more[1..])
  }

  predicate UncutFrom(s: State, more: seq<Event>)
    decreases |more|
  {
    more == [] || (!Cuts(s, more[0]) && UncutFrom(Step(s, more[0]), more[1..]))
  }

  lemma {:induction false} ContinuedFew(s: State, more: seq<Event>)
    requires Inv(s) && Indexed(s) && UncutFrom(s, more)
    ensures |Continued(s, more).hashed| <= 3
    decreases |more|
  {
    if more == [] {
      IndexedFew(s);
    } else {
      StepKeeps(s, more[0]);
      StepIndexed(s, more[0]);
      ContinuedFew(Step(s, more[0]), more[1..]);
    }
  }

  const TWO_SESSIONS: seq<Event> := [Message, Establish(true), Reindex, Message, Establish(true), Reindex, Message]

  lemma TwoSessions(s: State)
    ensures Continued(s, TWO_SESSIONS) == Step(Session(Session(s)), Message) && UncutFrom(s, TWO_SESSIONS)
  {
    Unroll(s, Message, TWO_SESSIONS[1..]);
    var a := Step(s, Message);
    Unroll(a, Establish(true), TWO_SESSIONS[2..]);
    var b := Step(a, Establish(true));
    Unroll(b, Reindex, TWO_SESSIONS[3..]);
    var c := Step(b, Reindex);
    Unroll(c, Message, TWO_SESSIONS[4..]);
    var d := Step(c, Message);
    Unroll(d, Establish(true), TWO_SESSIONS[5..]);
    var e := Step(d, Establish(true));
    Unroll(e, Reindex, TWO_SESSIONS[6..]);
    Unroll(Step(e, Reindex), Message, []);
  }

  lemma Unroll(s: State, e: Event, more: seq<Event>)
    requires !e.Clear?
    ensures Continued(s, [e] + more) == Continued(Step(s, e), more)
    ensures UncutFrom(s, [e] + more) <==> UncutFrom(Step(s, e), more)
  {
    assert ([e] + more)[1..] == more;
  }

  lemma {:induction false} RunContinues(events: seq<Event>, more: seq<Event>)
    ensures Run(events + more) == Continued(Run(events), more)
    decreases |more|
  {
    if more == [] {
      assert events + more == events;
    } else {
      RunOn(events, more[..1]);
      assert events + more[..1][..0] == events;
      RunContinues(events + more[..1], more[1..]);
      assert events + more[..1] + more[1..] == events + more;
    }
  }

  const CUT_START: seq<Event> := [Message, Establish(false), Clear, Reindex]

  // It leaves the first keypair made let go and listed.
  lemma CutStart()
    ensures var s, k := Continued(START, CUT_START), START.created;
      s.starting.None? && k in s.dropped && Pair(k) in s.hashed && k !in Filled(s.slots)
  {
    var k := START.created;
    Unroll(START, Message, CUT_START[1..]);
    var a := Step(START, Message);
    assert a.hashed == {Handshake};
    Unroll(a, Establish(false), CUT_START[2..]);
    var b := Step(a, Establish(false));
    assert b.slots.next == Some(k) && b.starting == Some(k);
    assert CUT_START[2..][1..] == [Reindex];
    var c := Step(b, Clear);
    assert c.dropped == [k] && c.starting == Some(k);
    assert Continued(b, CUT_START[2..]) == Continued(c, [Reindex]);
    Unroll(c, Reindex, []);
  }

  // The run that ends with a fourth entry: the slots are cleared while an answered session is starting, and two
  // sessions and a message follow.
  lemma FourthEntry()
    ensures |Run(CUT_START + TWO_SESSIONS).hashed| >= 4
  {
    CutStart();
    assert CUT_START == [] + CUT_START;
    RunContinues([], CUT_START);
    RunContinues(CUT_START, TWO_SESSIONS);
    RunKeeps(CUT_START);
    LeftBehindFour(Run(CUT_START), START.created);
    TwoSessions(Run(CUT_START));
  }

  // With no session start under way, three entries are the bound for good exactly when none has been left behind.
  lemma ThreeExactly(s: State)
    requires Inv(s) && s.starting.None?
    ensures Tidy(s) <==> forall more: seq<Event> | UncutFrom(s, more) :: |Continued(s, more).hashed| <= 3
  {
    if Tidy(s) {
      forall more: seq<Event> | UncutFrom(s, more) ensures |Continued(s, more).hashed| <= 3 { ContinuedFew(s, more); }
    } else {
      var x :| x in s.hashed && x.Pair? && x.k !in Filled(s.slots);
      assert x == Pair(x.k) && x.k in s.dropped;
      LeftBehindFour(s, x.k);
      TwoSessions(s);
      assert UncutFrom(s, TWO_SESSIONS);
    }
  }

  // ---------------------------------------------------------------- the slots on the heap

  // The slot objects, driven through any sequence of events, are the slots of the state machine.
  method Replay(events: seq<Event>) returns (slots: KeypairSlots)
    ensures slots.View() == Run(events).slots && slots.dropped == Run(events).dropped
  {
    slots := new KeypairSlots();
    ghost var s := START;
    var created, starting, sent := 0, false, false;
    for i := 0 to |events|
      invariant fresh(slots) && s == Run(events[..i]) && slots.View() == s.slots && slots.dropped == s.dropped
      invariant created == s.created && starting == s.starting.Some? && sent == (Handshake in s.hashed)
    {
      assert events[..i + 1][..i] == events[..i] && events[..i + 1][i] == events[i];
      RunKeeps(events[..i]);
      s := Step(s, events[i]);
      match events[i]
      case Message => if !starting { sent := true; }
      case Unhash => if !starting { sent := false; }
      case Establish(initiator) =>
        if !starting && sent {
          var k := new Keypair(created, initiator);
          slots.AddNew(k);
          created, starting := created + 1, true;
        }
      case Reindex => if starting { starting, sent := false, false; }
      case Receive(k) =>
        if slots.next != null && slots.next.id == k {
          assert k in Filled(Run(events[..i]).slots);
          var _ := slots.ReceivedWith(slots.next);
        }
      case Clear => slots.Clear();
      case _ =>
    }
    assert events[..|events|] == events;
  }
}
