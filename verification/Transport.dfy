/** Sending: nonces are taken one by one from a counter that concurrent calls share. Receiving: the network may
    duplicate, reorder and lose what was sent, and the replay check stands before delivery. */
module Transport {
  import opened ReplayWindow

  class Keypair {
    var sendingCounter: nat
    var sendingValid: bool

    constructor ()
      ensures sendingCounter == 0 && sendingValid
    {
      sendingCounter, sendingValid := 0, true;
    }
  }

  datatype Numbered = Numbered(nonce: nat, packet: nat)

  function Number(packets: seq<nat>, from: nat): seq<Numbered> {
    seq(|packets|, i requires 0 <= i < |packets| => Numbered(from + i, packets[i]))
  }

  // The counter after a nonce at or past the limit has been drawn; other calls may have pushed it there before.
  function Exhausted(counter: nat): nat {
    if counter < REJECT_AFTER_MESSAGES then REJECT_AFTER_MESSAGES + 1 else counter + 1
  }

  class Peer {
    var staged: seq<nat>
    var current: Keypair?

    /** One call of the sender. expired says whether the key is too old by the clock, late what other contexts
        stage while the call runs; handshake asks for a new key. */
    method SendStaged(expired: bool, late: seq<nat>) returns (handed: seq<Numbered>, handshake: bool)
      modifies this`staged, (if current == null then {} else {current})
      ensures var n, k := |old(staged)|, old(current);
        var good := k != null && old(k.sendingValid) && !expired;
        if n == 0 then handed == [] && !handshake && staged == late && (k != null ==> unchanged(k))
        else if good && old(k.sendingCounter) + n + 8129 <= 0xFFFF_FFFF_FFFF_FFFF then
          handed == Number(old(staged), old(k.sendingCounter)) && !handshake && staged == late
          && k.sendingValid && k.sendingCounter == old(k.sendingCounter) + n
        else
          handed == [] && handshake && staged == old(staged) + late
          && (k != null ==> !k.sendingValid && k.sendingCounter == if good then Exhausted(old(k.sendingCounter))
            else old(k.sendingCounter))
    {
      var packets := staged;
      staged := late;
      handed, handshake := [], false;
      if packets == [] { return; }
      var valid := false;
      if current != null && current.sendingValid {
        if !expired {
          valid := true;
          var i := 0;
          while i < |packets| && valid
            invariant 0 <= i <= |packets| && current.sendingValid && staged == late && current == old(current)
            invariant valid ==> current.sendingCounter == old(current.sendingCounter) + i
            invariant valid && i > 0 ==> current.sendingCounter <= REJECT_AFTER_MESSAGES
            invariant valid ==> handed == Number(packets[..i], old(current.sendingCounter))
            invariant !valid ==> i < |packets| && old(current.sendingCounter) + i >= REJECT_AFTER_MESSAGES
            invariant !valid ==> current.sendingCounter == Exhausted(old(current.sendingCounter))
            decreases |packets| - i, valid
          {
            var nonce := current.sendingCounter;
            current.sendingCounter := nonce + 1;
            if nonce >= REJECT_AFTER_MESSAGES {
              valid := false;
            } else {
              handed := handed + [Numbered(nonce, packets[i])];
              i := i + 1;
            }
          }
        }
        if !valid { current.sendingValid := false; }
      }
      if valid {
        assert packets[..|packets|] == packets;
        return;
      }
      handed := [];
      staged := packets + staged;
      handshake := true;
    }
  }

  // ---------------------------------------------------------------- the whole path

  // A call in flight: the packets it stole, whether it has found the key good, the nonces taken so far.
  datatype Call = Call(packets: seq<nat>, checked: bool, nonces: seq<nat>)

  datatype State = State(
    counter: nat, valid: bool, staged: seq<nat>, calls: seq<Call>, sent: seq<Numbered>,
    accepted: set<nat>, delivered: seq<Numbered>, ever: multiset<nat>)

  datatype Event =
    | Stage(packet: nat)
    | Steal
    | Check(call: nat, expired: bool)
    | Take(call: nat)
    | HandOff(call: nat)
    | Arrive(which: nat)

  function Init(): State {
    State(0, true, [], [], [], {}, [], multiset{})
  }

  predicate Enabled(s: State, e: Event) {
    match e
    case Stage(_) => true
    case Steal => s.staged != []
    case Check(c, _) => c < |s.calls| && !s.calls[c].checked
    case Take(c) => c < |s.calls| && s.calls[c].checked && |s.calls[c].nonces| < |s.calls[c].packets|
    case HandOff(c) => c < |s.calls| && s.calls[c].checked && |s.calls[c].nonces| == |s.calls[c].packets|
    case Arrive(i) => i < |s.sent|
  }

  function Drop<T>(xs: seq<T>, i: nat): seq<T>
    requires i < |xs|
  {
    xs[..i] + xs[i + 1..]
  }

  // The call gives up: its packets go back to the front of the queue.
  function PutBack(s: State, c: nat): State
    requires c < |s.calls|
  {
    s.(valid := false, staged := s.calls[c].packets + s.staged, calls := Drop(s.calls, c))
  }

  function Zip(nonces: seq<nat>, packets: seq<nat>): seq<Numbered>
    requires |nonces| == |packets|
  {
    seq(|packets|, i requires 0 <= i < |packets| => Numbered(nonces[i], packets[i]))
  }

  ghost function Step(s: State, e: Event): State
    requires Enabled(s, e)
  {
    match e
    case Stage(p) => s.(staged := s.staged + [p], ever := s.ever + multiset{p})
    case Steal => s.(staged := [], calls := s.calls + [Call(s.staged, false, [])])
    case Check(c, expired) =>
      if !s.valid || expired then PutBack(s, c) else s.(calls := s.calls[c := s.calls[c].(checked := true)])
    case Take(c) =>
      var t := s.(counter := s.counter + 1);
      if s.counter >= REJECT_AFTER_MESSAGES then PutBack(t, c)
      else t.(calls := s.calls[c := s.calls[c].(nonces := s.calls[c].nonces + [s.counter])])
    case HandOff(c) =>
      s.(sent := s.sent + Zip(s.calls[c].nonces, s.calls[c].packets), calls := Drop(s.calls, c))
    case Arrive(i) =>
      var m := s.sent[i];
      if Acceptable(s.accepted, m.nonce) then s.(accepted := s.accepted + {m.nonce}, delivered := s.delivered + [m])
        else s
  }

  // ---------------------------------------------------------------- what every step keeps

  function Flat(calls: seq<Call>): seq<nat> {
    if calls == [] then [] else calls[0].packets + Flat(calls[1..])
  }

  function Payload(sent: seq<Numbered>): seq<nat> {
    seq(|sent|, i requires 0 <= i < |sent| => sent[i].packet)
  }

  // Every packet is queued, in flight or sent, and none has been made up or lost.
  ghost predicate Conserved(s: State) {
    s.ever == multiset(s.staged) + multiset(Flat(s.calls)) + multiset(Payload(s.sent))
  }

  predicate Issued(s: State, n: nat) {
    n < s.counter && n < REJECT_AFTER_MESSAGES
  }

  predicate Unique(s: State) {
    (forall c, i | 0 <= c < |s.calls| && 0 <= i < |s.calls[c].nonces| :: Issued(s, s.calls[c].nonces[i]))
    && (forall i | 0 <= i < |s.sent| :: Issued(s, s.sent[i].nonce))
    && (forall c, i, d, j | 0 <= c < |s.calls| && 0 <= i < |s.calls[c].nonces| && 0 <= d < |s.calls|
      && 0 <= j < |s.calls[d].nonces| ::
          s.calls[c].nonces[i] == s.calls[d].nonces[j] ==> c == d && i == j)
    && (forall i, j | 0 <= i < |s.sent| && 0 <= j < |s.sent| :: s.sent[i].nonce == s.sent[j].nonce ==> i == j)
    && (forall c, i, j | 0 <= c < |s.calls| && 0 <= i < |s.calls[c].nonces| && 0 <= j < |s.sent| ::
      s.calls[c].nonces[i] != s.sent[j].nonce)
  }

  predicate Once(s: State) {
    (forall i | 0 <= i < |s.delivered| :: s.delivered[i] in s.sent && s.delivered[i].nonce in s.accepted)
    && (forall i, j | 0 <= i < |s.delivered| && 0 <= j < |s.delivered| ::
      s.delivered[i].nonce == s.delivered[j].nonce ==> i == j)
  }

  ghost predicate Inv(s: State) {
    Conserved(s) && Unique(s) && Once(s)
  }

  lemma {:induction false} FlatAppend(calls: seq<Call>, c: Call)
    ensures Flat(calls + [c]) == Flat(calls) + c.packets
  {
    if calls == [] {
      assert [] + [c] == [c] && [c][1..] == [];
    } else {
      FlatAppend(calls[1..], c);
      assert (calls + [c])[1..] == calls[1..] + [c];
    }
  }

  lemma BehindSame(front: seq<nat>, a: seq<nat>, b: seq<nat>, c: seq<nat>)
    requires multiset(a) == multiset(b) + multiset(c)
    ensures multiset(front + a) == multiset(front + b) + multiset(c)
  {
  }

  lemma FlatFront(calls: seq<Call>)
    requires calls != []
    ensures Flat(calls) == calls[0].packets + Flat(calls[1..])
  {
  }

  lemma {:induction false} FlatDrop(calls: seq<Call>, i: nat)
    requires i < |calls|
    ensures multiset(Flat(calls)) == multiset(Flat(Drop(calls, i))) + multiset(calls[i].packets)
  {
    hide Flat;
    FlatFront(calls);
    if i == 0 {
      assert Drop(calls, 0) == calls[1..];
    } else {
      FlatDrop(calls[1..], i - 1);
      var rest := Drop(calls, i);
      assert rest[1..] == Drop(calls[1..], i - 1) && rest[0] == calls[0];
      FlatFront(rest);
      BehindSame(calls[0].packets, Flat(calls[1..]), Flat(rest[1..]), calls[i].packets);
    }
  }

  lemma {:induction false} FlatSame(calls: seq<Call>, i: nat, c: Call)
    requires i < |calls| && c.packets == calls[i].packets
    ensures Flat(calls[i := c]) == Flat(calls)
  {
    if i == 0 {
      assert calls[i := c][1..] == calls[1..];
    } else {
      FlatSame(calls[1..], i - 1, c);
      assert calls[i := c][1..] == calls[1..][i - 1 := c];
    }
  }

  lemma PutBackConserved(s: State, c: nat)
    requires Conserved(s) && c < |s.calls|
    ensures Conserved(PutBack(s, c))
  {
    FlatDrop(s.calls, c);
    assert multiset(s.calls[c].packets + s.staged) == multiset(s.calls[c].packets) + multiset(s.staged);
  }

  lemma HandOffConserved(s: State, c: nat)
    requires Conserved(s) && Enabled(s, HandOff(c))
    ensures Conserved(Step(s, HandOff(c)))
  {
    FlatDrop(s.calls, c);
    var t := Step(s, HandOff(c));
    assert Payload(t.sent) == Payload(s.sent) + s.calls[c].packets;
    assert multiset(Payload(t.sent)) == multiset(Payload(s.sent)) + multiset(s.calls[c].packets);
  }

  lemma ConservedStep(s: State, e: Event)
    requires Conserved(s) && Enabled(s, e)
    ensures Conserved(Step(s, e))
  {
    match e
    case Stage(_) =>
    case Steal => FlatAppend(s.calls, Call(s.staged, false, []));
    case Check(c, _) =>
      PutBackConserved(s, c);
      FlatSame(s.calls, c, s.calls[c].(checked := true));
    case Take(c) =>
      PutBackConserved(s.(counter := s.counter + 1), c);
      FlatSame(s.calls, c, s.calls[c].(nonces := s.calls[c].nonces + [s.counter]));
    case HandOff(c) => HandOffConserved(s, c);
    case Arrive(_) =>
  }

  lemma UniqueDrop(s: State, t: State, c: nat)
    requires Unique(s) && c < |s.calls| && t.calls == Drop(s.calls, c) && t.sent == s.sent && t.counter >= s.counter
    ensures Unique(t)
  {
    forall d | 0 <= d < |t.calls| ensures t.calls[d] == s.calls[if d < c then d else d + 1] { }
  }

  lemma TakeUnique(s: State, c: nat)
    requires Unique(s) && Enabled(s, Take(c)) && s.counter < REJECT_AFTER_MESSAGES
    ensures Unique(Step(s, Take(c)))
  {
    var t := Step(s, Take(c));
    forall d, i | 0 <= d < |t.calls| && 0 <= i < |t.calls[d].nonces|
      ensures t.calls[d].nonces[i] == if d == c && i == |s.calls[c].nonces| then s.counter else s.calls[d].nonces[i]
    { }
  }

  // The nonces of the finished call move from the call to the wire.
  lemma HandOffUnique(s: State, c: nat)
    requires Unique(s) && Enabled(s, HandOff(c))
    ensures Unique(Step(s, HandOff(c)))
  {
    var t := Step(s, HandOff(c));
    var n := |s.sent|;
    UniqueDrop(s, s.(calls := t.calls), c);
    forall d | 0 <= d < |t.calls| ensures t.calls[d] == s.calls[if d < c then d else d + 1] { }
    forall i | 0 <= i < |t.sent| ensures t.sent[i].nonce == if i < n then s.sent[i].nonce
      else s.calls[c].nonces[i - n] { }
  }

  lemma UniqueStep(s: State, e: Event)
    requires Unique(s) && Enabled(s, e)
    ensures Unique(Step(s, e))
  {
    match e
    case Stage(_) =>
    case Steal =>
    case Check(c, expired) => if !s.valid || expired { UniqueDrop(s, Step(s, e), c); }
    case Take(c) => if s.counter >= REJECT_AFTER_MESSAGES { UniqueDrop(s, Step(s, e), c); } else { TakeUnique(s, c); }
    case HandOff(c) => HandOffUnique(s, c);
    case Arrive(_) =>
  }

  lemma OnceStep(s: State, e: Event)
    requires Once(s) && Enabled(s, e)
    ensures Once(Step(s, e))
  {
    var t := Step(s, e);
    assert s.sent <= t.sent;
    assert forall m | m in s.sent :: m in t.sent;
  }

  // ---------------------------------------------------------------- whole runs

  ghost predicate Run(s: State, es: seq<Event>)
    decreases es
  {
    es != [] ==> Enabled(s, es[0]) && Run(Step(s, es[0]), es[1..])
  }

  ghost function After(s: State, es: seq<Event>): State
    requires Run(s, es)
    decreases es
  {
    if es == [] then s else After(Step(s, es[0]), es[1..])
  }

  lemma {:induction false} RunInv(s: State, es: seq<Event>)
    requires Inv(s) && Run(s, es)
    ensures Inv(After(s, es))
    decreases es
  {
    if es != [] {
      ConservedStep(s, es[0]);
      UniqueStep(s, es[0]);
      OnceStep(s, es[0]);
      hide Conserved, Unique, Once, Step, Enabled;
      RunInv(Step(s, es[0]), es[1..]);
    }
  }

  // Whatever the network repeats, reorders or loses, and however the sending calls interleave: no nonce is sent
  // twice, all are below the limit, every packet delivered was sent under its nonce, none is delivered twice,
  // and every packet ever staged is queued, in flight or sent.
  lemma AtMostOnce(es: seq<Event>)
    requires Run(Init(), es)
    ensures var t := After(Init(), es);
      (forall i, j | 0 <= i < |t.sent| && 0 <= j < |t.sent| && i != j :: t.sent[i].nonce != t.sent[j].nonce)
      && (forall i | 0 <= i < |t.sent| :: t.sent[i].nonce + 8129 < 0xFFFF_FFFF_FFFF_FFFF)
      && (forall i | 0 <= i < |t.delivered| :: t.delivered[i] in t.sent)
      && (forall i, j | 0 <= i < |t.delivered| && 0 <= j < |t.delivered| && i != j :: t.delivered[i] != t.delivered[j])
      && t.ever == multiset(t.staged) + multiset(Flat(t.calls)) + multiset(Payload(t.sent))
  {
    hide Run, After;
    assert Inv(Init());
    RunInv(Init(), es);
    hide Init;
  }

  // ---------------------------------------------------------------- one call, uninterrupted

  function Takes(c: nat, n: nat): seq<Event> {
    seq(n, _ => Take(c))
  }

  lemma RunOne(s: State, e: Event, rest: seq<Event>)
    requires Enabled(s, e) && Run(Step(s, e), rest)
    ensures Run(s, [e] + rest) && After(s, [e] + rest) == After(Step(s, e), rest)
  {
    assert ([e] + rest)[1..] == rest;
  }

  // A call that has found the key good, with its nonces consecutive so far.
  ghost predicate Underway(s: State, c: nat, packets: seq<nat>, from: nat, n: nat) {
    c < |s.calls| && s.calls[c] == Call(packets, true, seq(n, i => from + i)) && s.counter == from + n && n <= |packets|
  }

  lemma HandsOff(s: State, c: nat, packets: seq<nat>, from: nat)
    requires Underway(s, c, packets, from, |packets|)
    ensures Run(s, [HandOff(c)])
    ensures After(s, [HandOff(c)]) == s.(sent := s.sent + Number(packets, from), calls := Drop(s.calls, c))
  {
    assert Zip(s.calls[c].nonces, packets) == Number(packets, from);
    RunOne(s, HandOff(c), []);
  }

  lemma {:induction false} TakesAll(s: State, c: nat, packets: seq<nat>, from: nat, n: nat)
    requires Underway(s, c, packets, from, n) && from + |packets| + 8129 <= 0xFFFF_FFFF_FFFF_FFFF
    ensures var es := Takes(c, |packets| - n) + [HandOff(c)];
      Run(s, es)
      && After(s, es) == s.(counter := from + |packets|, sent := s.sent + Number(packets, from),
        calls := Drop(s.calls, c))
    decreases |packets| - n
  {
    var es := Takes(c, |packets| - n) + [HandOff(c)];
    if n == |packets| {
      assert es == [HandOff(c)];
      HandsOff(s, c, packets, from);
    } else {
      var t := Step(s, Take(c));
      assert t.calls[c].nonces == seq(n + 1, i => from + i);
      TakesAll(t, c, packets, from, n + 1);
      var rest := Takes(c, |packets| - (n + 1)) + [HandOff(c)];
      assert es == [Take(c)] + rest;
      assert Drop(t.calls, c) == Drop(s.calls, c);
      RunOne(s, Take(c), rest);
    }
  }

  ghost predicate GivesUp(s: State, c: nat, packets: seq<nat>, from: nat, k: nat)
    requires c < |s.calls|
  {
    Run(s, Takes(c, k))
    && After(s, Takes(c, k))
       == s.(counter := Exhausted(from), valid := false, staged := packets + s.staged, calls := Drop(s.calls, c))
  }

  // At the limit a nonce too many is drawn, and everything goes back.
  lemma {:induction false} TakesTooMany(s: State, c: nat, packets: seq<nat>, from: nat, n: nat)
    requires Underway(s, c, packets, from, n) && n < |packets| && from + |packets| + 8129 > 0xFFFF_FFFF_FFFF_FFFF
    requires from + n + 8129 <= 0xFFFF_FFFF_FFFF_FFFF || n == 0
    ensures exists k: nat :: GivesUp(s, c, packets, from, k)
    decreases |packets| - n
  {
    var t := Step(s, Take(c));
    if s.counter >= REJECT_AFTER_MESSAGES {
      assert Takes(c, 1) == [Take(c)] + [];
      RunOne(s, Take(c), []);
      assert GivesUp(s, c, packets, from, 1);
    } else {
      assert t.calls[c].nonces == seq(n + 1, i => from + i);
      TakesTooMany(t, c, packets, from, n + 1);
      var k: nat :| GivesUp(t, c, packets, from, k);
      assert Takes(c, k + 1) == [Take(c)] + Takes(c, k);
      assert Drop(t.calls, c) == Drop(s.calls, c);
      RunOne(s, Take(c), Takes(c, k));
      assert GivesUp(s, c, packets, from, k + 1);
    }
  }

  // The state after one call that nobody interrupts, as `Peer.SendStaged` leaves it.
  function Called(s: State, expired: bool): State {
    var n := |s.staged|;
    if s.valid && !expired && s.counter + n + 8129 <= 0xFFFF_FFFF_FFFF_FFFF
    then s.(counter := s.counter + n, staged := [], sent := s.sent + Number(s.staged, s.counter))
    else s.(valid := false, counter := if s.valid && !expired then Exhausted(s.counter) else s.counter)
  }

  // One call of the machine, uninterrupted, does what the method does.
  lemma CallAlone(s: State, expired: bool)
    requires s.staged != []
    ensures exists es: seq<Event> :: Run(s, es) && After(s, es) == Called(s, expired)
  {
    var c, packets := |s.calls|, s.staged;
    var a := Step(s, Steal);
    var b := Step(a, Check(c, expired));
    assert Drop(a.calls, c) == s.calls && packets + [] == packets;
    if !s.valid || expired {
      Steps(s, c, expired, []);
      assert After(s, [Steal] + ([Check(c, expired)] + [])) == Called(s, expired);
    } else {
      assert b.calls[c].nonces == seq(0, i => s.counter + i);
      assert Drop(b.calls, c) == s.calls;
      if s.counter + |packets| + 8129 <= 0xFFFF_FFFF_FFFF_FFFF {
        TakesAll(b, c, packets, s.counter, 0);
        var es := Takes(c, |packets|) + [HandOff(c)];
        Steps(s, c, expired, es);
        assert After(s, [Steal] + ([Check(c, expired)] + es)) == Called(s, expired);
      } else {
        TakesTooMany(b, c, packets, s.counter, 0);
        var k: nat :| GivesUp(b, c, packets, s.counter, k);
        Steps(s, c, expired, Takes(c, k));
        assert After(s, [Steal] + ([Check(c, expired)] + Takes(c, k))) == Called(s, expired);
      }
    }
  }

  lemma Steps(s: State, c: nat, expired: bool, es: seq<Event>)
    requires s.staged != [] && c == |s.calls| && Run(Step(Step(s, Steal), Check(c, expired)), es)
    ensures var all := [Steal] + ([Check(c, expired)] + es);
      Run(s, all) && After(s, all) == After(Step(Step(s, Steal), Check(c, expired)), es)
  {
    RunOne(Step(s, Steal), Check(c, expired), es);
    RunOne(s, Steal, [Check(c, expired)] + es);
  }

  function Stages(late: seq<nat>): seq<Event> {
    seq(|late|, i requires 0 <= i < |late| => Stage(late[i]))
  }

  lemma {:induction false} StagesAll(s: State, late: seq<nat>)
    ensures Run(s, Stages(late))
    ensures var t := After(s, Stages(late));
      t.staged == s.staged + late && t.calls == s.calls && t.valid == s.valid && t.counter == s.counter
        && t.sent == s.sent
    decreases |late|
  {
    if late == [] {
      assert Stages(late) == [];
    } else {
      var t := Step(s, Stage(late[0]));
      StagesAll(t, late[1..]);
      assert Stages(late) == [Stage(late[0])] + Stages(late[1..]);
      assert (s.staged + [late[0]]) + late[1..] == s.staged + late;
      RunOne(s, Stage(late[0]), Stages(late[1..]));
    }
  }

  // What a call gives back goes in front of what was staged while it ran.
  lemma GivenBackFirst(s: State, late: seq<nat>, expired: bool)
    requires s.staged != [] && (!s.valid || expired)
    ensures var a := Step(s, Steal);
      Run(a, Stages(late))
      && var b := After(a, Stages(late));
         Enabled(b, Check(|s.calls|, expired))
         && var t := Step(b, Check(|s.calls|, expired));
            t.staged == s.staged + late && t.calls == s.calls && t.sent == s.sent && !t.valid
  {
    var a := Step(s, Steal);
    StagesAll(a, late);
    assert [] + late == late;
    assert Drop(a.calls, |s.calls|) == s.calls;
  }

  // A packet sent is delivered when it arrives first and no more than the window late.
  lemma FirstArrival(s: State, i: nat)
    requires Inv(s) && i < |s.sent| && s.sent[i].nonce !in s.accepted
    requires forall m | m in s.accepted :: m <= s.sent[i].nonce + 8128
    ensures Step(s, Arrive(i)).delivered == s.delivered + [s.sent[i]]
  {
    assert Issued(s, s.sent[i].nonce);
  }
}
