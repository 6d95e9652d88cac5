/** The handshake objects: fields overwritten in place, step by step, as the messages are made and consumed. */
module NoiseHandshake {
  import opened Basics
  import opened Hkdf
  import opened Noise
  import NoisePattern

  const NSEC_PER_SEC := 1_000_000_000
  const INITIATIONS_PER_SECOND := 50

  datatype Stage = Zeroed | CreatedInitiation | ConsumedInitiation | CreatedResponse | ConsumedResponse

  // memcmp order.
  predicate Later(a: Bytes, b: Bytes) {
    if a == [] || b == [] then |a| > |b|
    else if a[0] != b[0] then a[0] > b[0]
    else Later(a[1..], b[1..])
  }

  // What a peer remembers of the last initiation it let through.
  datatype Gate = Gate(latest: Bytes, last: int)

  predicate Passes(g: Gate, timestamp: Bytes, now: int) {
    Later(timestamp, g.latest) && g.last + NSEC_PER_SEC / INITIATIONS_PER_SECOND <= now
  }

  // What the copying leaves behind: the timestamp only if it is still later, the time only if it is still greater.
  function Copied(g: Gate, timestamp: Bytes, now: int): Gate {
    Gate(if Later(timestamp, g.latest) then timestamp else g.latest, if g.last < now then now else g.last)
  }

  class Identity {
    var private: Bytes
    var public: Bytes
    var present: bool
    var peers: map<Bytes, Handshake>

    // The static-static secret kept with each peer.
    ghost function Secrets(): map<Bytes, Bytes>
      reads this, peers.Values
    {
      map k | k in peers :: peers[k].shared
    }
  }

  // ---------------------------------------------------------------- mixing, by the key derivation above

  method DeriveTwo(c: Crypto, s: Sym, data: Bytes) returns (k: Keyed)
    requires Fixed(c.hash)
    ensures k == MixKey(c, s, data)
  {
    var ck, key, _ := Kdf(c.hash, data, s.ck, 2);
    k := Keyed(s.(ck := ck), key);
  }

  method MixDiffieHellman(c: Crypto, s: Sym, private: Bytes, public: Bytes) returns (k: Option<Keyed>)
    requires Fixed(c.hash)
    ensures k == MixDh(c, s, private, public)
  {
    var shared := c.dh(private, public);
    if shared.None? { return None; }
    var mixed := DeriveTwo(c, s, shared.value);
    k := Some(mixed);
  }

  method MixPresharedKey(c: Crypto, s: Sym, psk: Bytes) returns (k: Keyed)
    requires Fixed(c.hash)
    ensures k == MixPsk(c, s, psk)
  {
    var ck, temp, key := Kdf(c.hash, psk, s.ck, 3);
    k := Keyed(MixHash(c, s.(ck := ck), temp), key);
  }

  method MixEphemeral(c: Crypto, s: Sym, e: Bytes) returns (t: Sym)
    requires Fixed(c.hash)
    ensures t == Ephemeral(c, s, e)
  {
    t := MixHash(c, s, e);
    var ck, _, _ := Kdf(c.hash, e, t.ck, 1);
    t := t.(ck := ck);
  }

  class Handshake {
    var stage: Stage
    var ephemeralPrivate: Bytes
    var remoteStatic: Bytes
    var remoteEphemeral: Bytes
    var shared: Bytes
    var psk: Bytes
    var sym: Sym
    var latestTimestamp: Bytes
    var lastConsumption: int
    var index: nat
    var remoteIndex: nat
    // The peer's note of whether its last initiation came under the device's own header.
    var advanced: bool

    // Everything but that note.
    ghost function Rest(): (Stage, seq<Bytes>, Sym, int, nat, nat)
      reads this
    {
      (stage, [ephemeralPrivate, remoteStatic, remoteEphemeral, shared, psk, latestTimestamp], sym, lastConsumption,
       index, remoteIndex)
    }

    ghost function Knows(): Tie
      reads this
    {
      Tie(remoteStatic, shared, psk)
    }

    function Door(): Gate
      reads this
    {
      Gate(latestTimestamp, lastConsumption)
    }

    method CreateInitiation(c: Crypto, n: Names, id: Identity, secret: Bytes, timestamp: Bytes, newIndex: nat)
      returns (m: Option<Initiation>)
      requires Fixed(c.hash)
      modifies this`sym, this`ephemeralPrivate, this`index, this`stage
      ensures var made := if id.present
        then Initiate(c, n, id.public, remoteStatic, shared, secret, timestamp, newIndex) else None;
        if made.None? then m.None? && stage == old(stage) && index == old(index)
        else
          m == Some(made.value.message) && sym == made.value.sym && ephemeralPrivate == secret && index == newIndex
          && stage == CreatedInitiation
    {
      hide MixKey, MixDh, MixPsk, Ephemeral, MixHash, Encrypt, Start;
      m := None;
      if !id.present { return; }
      sym := Start(c, n.construction, n.identifier, remoteStatic);
      ephemeralPrivate := secret;
      var e := c.pub(secret);
      if e.None? { return; }
      sym := MixEphemeral(c, sym, e.value);
      var es := MixDiffieHellman(c, sym, ephemeralPrivate, remoteStatic);
      if es.None? { return; }
      var encrypted := Encrypt(c, es.value, id.public);
      sym := MixHash(c, es.value.sym, encrypted);
      if shared == ZERO_POINT { return; }
      var ss := DeriveTwo(c, sym, shared);
      var stamp := Encrypt(c, ss, timestamp);
      sym := MixHash(c, ss.sym, stamp);
      index := newIndex;
      stage := CreatedInitiation;
      m := Some(Initiation(newIndex, e.value, encrypted, stamp));
    }

    method CreateResponse(c: Crypto, secret: Bytes, newIndex: nat) returns (m: Option<Response>)
      requires Fixed(c.hash)
      modifies this`sym, this`ephemeralPrivate, this`index, this`stage
      ensures var made := if old(stage) == ConsumedInitiation
          then Respond(c, old(sym), remoteEphemeral, remoteStatic, psk, secret, newIndex, remoteIndex) else None;
        if made.None? then m.None? && stage == old(stage) && index == old(index)
        else m == Some(made.value.message) && sym == made.value.sym && index == newIndex && stage == CreatedResponse
    {
      hide MixKey, MixDh, MixPsk, Ephemeral, MixHash, Encrypt, Start;
      m := None;
      if stage != ConsumedInitiation { return; }
      ephemeralPrivate := secret;
      var e := c.pub(secret);
      if e.None? { return; }
      sym := MixEphemeral(c, sym, e.value);
      var ee := MixDiffieHellman(c, sym, ephemeralPrivate, remoteEphemeral);
      if ee.None? { return; }
      sym := ee.value.sym;
      var se := MixDiffieHellman(c, sym, ephemeralPrivate, remoteStatic);
      if se.None? { return; }
      sym := se.value.sym;
      var k := MixPresharedKey(c, sym, psk);
      var nothing := Encrypt(c, k, []);
      sym := MixHash(c, k.sym, nothing);
      index := newIndex;
      stage := CreatedResponse;
      m := Some(Response(newIndex, remoteIndex, e.value, nothing));
    }

    // The first half, on copies made under the read lock.
    method OpenResponse(c: Crypto, id: Identity, m: Response) returns (done: Option<Sym>)
      requires Fixed(c.hash)
      ensures done == if id.present && stage == CreatedInitiation
        then Conclude(c, sym, ephemeralPrivate, id.private, psk, m) else None
    {
      hide MixKey, MixDh, MixPsk, Ephemeral, MixHash, Encrypt, Start;
      if !id.present || stage != CreatedInitiation { return None; }
      var s := MixEphemeral(c, sym, m.ephemeral);
      var ee := MixDiffieHellman(c, s, ephemeralPrivate, m.ephemeral);
      if ee.None? { return None; }
      var se := MixDiffieHellman(c, ee.value.sym, id.private, m.ephemeral);
      if se.None? { return None; }
      var k := MixPresharedKey(c, se.value.sym, psk);
      if c.open(k.key, k.sym.h, m.nothing).None? { return None; }
      return Some(MixHash(c, k.sym, m.nothing));
    }

    // The second half, under the write lock: the stage is looked at again, and if it has moved on nothing is copied.
    method CopyResponse(m: Response, s: Sym) returns (ok: bool)
      modifies this`sym, this`remoteEphemeral, this`remoteIndex, this`stage
      ensures ok == (old(stage) == CreatedInitiation)
      ensures if ok then sym == s && remoteEphemeral == m.ephemeral && remoteIndex == m.sender
        && stage == ConsumedResponse
        else unchanged(this)
    {
      if stage != CreatedInitiation { return false; }
      remoteEphemeral := m.ephemeral;
      sym := s;
      remoteIndex := m.sender;
      stage := ConsumedResponse;
      return true;
    }

    method ConsumeResponse(c: Crypto, id: Identity, m: Response) returns (ok: bool)
      requires Fixed(c.hash)
      modifies this`sym, this`remoteEphemeral, this`remoteIndex, this`stage
      ensures var done := if id.present && old(stage) == CreatedInitiation
          then Conclude(c, old(sym), ephemeralPrivate, id.private, psk, m) else None;
        ok == done.Some?
        && (if ok then sym == done.value && remoteEphemeral == m.ephemeral && remoteIndex == m.sender
          && stage == ConsumedResponse
            else unchanged(this))
    {
      hide Conclude;
      var done := OpenResponse(c, id, m);
      if done.None? { return false; }
      ok := CopyResponse(m, done.value);
    }

    // The state after an initiation has been copied.
    ghost predicate Consumed(m: Initiation, heard: Heard, door: Gate)
      reads this
    {
      stage == ConsumedInitiation && sym == heard.sym && remoteEphemeral == m.ephemeral && remoteIndex == m.sender
      && Door() == door
    }

    // Under the read lock: neither a replay nor a flood.
    method Admits(timestamp: Bytes, now: int) returns (ok: bool)
      ensures ok == Passes(Door(), timestamp, now)
    {
      var replay := !Later(timestamp, latestTimestamp);
      var flood := lastConsumption + NSEC_PER_SEC / INITIATIONS_PER_SECOND > now;
      return !replay && !flood;
    }

    // Under the write lock, with no second test.
    method CopyInitiation(m: Initiation, heard: Heard, now: int)
      modifies this`sym, this`remoteEphemeral, this`latestTimestamp, this`remoteIndex, this`lastConsumption, this`stage
      ensures Consumed(m, heard, Copied(old(Door()), heard.timestamp, now))
    {
      remoteEphemeral := m.ephemeral;
      if Later(heard.timestamp, latestTimestamp) { latestTimestamp := heard.timestamp; }
      sym := heard.sym;
      remoteIndex := m.sender;
      if lastConsumption < now { lastConsumption := now; }
      stage := ConsumedInitiation;
    }

    // A session: its two keys, whose initiative it was, and the index the other side uses.
    method BeginSession(c: Crypto) returns (keys: Option<Keys>, initiator: bool, remote: nat)
      requires Fixed(c.hash)
      modifies this`sym, this`ephemeralPrivate, this`remoteEphemeral, this`remoteIndex, this`stage
      ensures initiator == (old(stage) == ConsumedResponse) && remote == old(remoteIndex)
      ensures if old(stage) == CreatedResponse || old(stage) == ConsumedResponse
        then keys == Some(SessionKeys(c, old(sym.ck), initiator)) && stage == Zeroed && remoteIndex == 0
          && ephemeralPrivate == remoteEphemeral == ZERO_POINT && sym == Sym(ZERO_POINT, ZERO_POINT)
        else keys.None? && unchanged(this)
      ensures keys.Some? ==>
        var okm := Expand(c.hash, Extract(c.hash, old(sym.ck), []), 2 * HASH_LEN);
        |keys.value.sending| == |keys.value.receiving| == HASH_LEN
        && okm == if initiator then keys.value.sending + keys.value.receiving
                  else keys.value.receiving + keys.value.sending
    {
      NoisePattern.SessionKeysAre(c, sym.ck);
      initiator, remote := stage == ConsumedResponse, remoteIndex;
      if stage != CreatedResponse && stage != ConsumedResponse { return None, initiator, remote; }
      var first, second, _ := Kdf(c.hash, [], sym.ck, 2);
      keys := Some(if initiator then Keys(first, second) else Keys(second, first));
      ephemeralPrivate, remoteEphemeral, sym, remoteIndex := ZERO_POINT, ZERO_POINT, Sym(ZERO_POINT, ZERO_POINT), 0;
      stage := Zeroed;
    }
  }

  // Who is calling, worked out on locals.
  method NameCaller(c: Crypto, n: Names, id: Identity, m: Initiation) returns (caller: Option<Caller>)
    requires Fixed(c.hash)
    ensures caller == if id.present then Name(c, n, id.private, id.public, m) else None
  {
    hide MixKey, MixDh, Ephemeral, MixHash, Start;
    if !id.present { return None; }
    var s := Start(c, n.construction, n.identifier, id.public);
    s := MixEphemeral(c, s, m.ephemeral);
    var es := MixDiffieHellman(c, s, id.private, m.ephemeral);
    if es.None? { return None; }
    var whom := c.open(es.value.key, es.value.sym.h, m.identity);
    if whom.None? { return None; }
    return Some(Caller(whom.value, MixHash(c, es.value.sym, m.identity)));
  }

  method ListenTo(c: Crypto, caller: Caller, shared: Bytes, m: Initiation) returns (heard: Option<Heard>)
    requires Fixed(c.hash)
    ensures heard == Listen(c, caller, shared, m)
  {
    hide MixKey, MixHash;
    if shared == ZERO_POINT { return None; }
    var ss := DeriveTwo(c, caller.sym, shared);
    var t := c.open(ss.key, ss.sym.h, m.timestamp);
    if t.None? { return None; }
    return Some(Heard(caller.identity, t.value, MixHash(c, ss.sym, m.timestamp)));
  }

  // Undisturbed, only a message that opens, is newer than every one before it and keeps its distance from the last
  // one is consumed by the peer it names. Any other leaves every peer as it was, but for one thing: a message whose
  // static key opens leaves its mark on the peer's note, whatever becomes of the rest. The clock is read for the test
  // and again for the copy.
  method ConsumeInitiation(c: Crypto, n: Names, id: Identity, m: Initiation, advanced: bool, now: int, then': int)
    returns (peer: Handshake?)
    requires Fixed(c.hash)
    modifies id.peers.Values`sym, id.peers.Values`remoteEphemeral, id.peers.Values`latestTimestamp
    modifies id.peers.Values`remoteIndex, id.peers.Values`lastConsumption, id.peers.Values`stage
    modifies id.peers.Values`advanced
    ensures var caller := if id.present then Name(c, n, id.private, id.public, m) else None;
      if caller.None? || caller.value.identity !in id.peers then peer == null && unchanged(id.peers.Values)
      else
        var named := id.peers[caller.value.identity];
        var heard := Listen(c, caller.value, named.shared, m);
        named.advanced == advanced && (forall h | h in id.peers.Values && h != named :: unchanged(h))
        && if heard.Some? && old(Passes(named.Door(), heard.value.timestamp, now))
           then peer == named && named.Consumed(m, heard.value, Copied(old(named.Door()), heard.value.timestamp, then'))
           else peer == null && named.Rest() == old(named.Rest())
  {
    peer := null;
    var caller := NameCaller(c, n, id, m);
    hide Name, Listen, Handshake.Consumed;
    if caller.None? || caller.value.identity !in id.peers { return; }
    var handshake := id.peers[caller.value.identity];
    handshake.advanced := advanced;
    var heard := ListenTo(c, caller.value, handshake.shared, m);
    if heard.None? { return; }
    var ok := handshake.Admits(heard.value.timestamp, now);
    if !ok { return; }
    handshake.CopyInitiation(m, heard.value, then');
    peer := handshake;
  }

  // ---------------------------------------------------------------- a whole exchange between two devices

  // What an end knows the other by.
  datatype Tie = Tie(remoteStatic: Bytes, shared: Bytes, psk: Bytes)

  ghost predicate Tied(c: Crypto, private: Bytes, public: Bytes, there: Bytes, tie: Tie) {
    c.pub(private) == Some(public) && tie.remoteStatic == there && tie.shared == Precomputed(c, private, there)
  }

  // Both ends know each other: each holds the other's public key under the secret both can compute.
  ghost predicate Acquainted(c: Crypto, a: Identity, ha: Handshake, b: Identity, hb: Handshake)
    reads a, b, ha, hb
  {
    a.present && b.present && Tied(c, a.private, a.public, b.public, ha.Knows())
    && Tied(c, b.private, b.public, a.public, hb.Knows())
    && ha.psk == hb.psk && a.public in b.peers && b.peers[a.public] == hb
  }

  // Between the two messages: both ends hold the same transcript, and each what it needs of the other's.
  ghost predicate Halfway(c: Crypto, ha: Handshake, hb: Handshake, ea: Bytes, ia: nat)
    reads ha, hb
  {
    ha.stage == CreatedInitiation && ha.ephemeralPrivate == ea
    && hb.stage == ConsumedInitiation && Some(hb.remoteEphemeral) == c.pub(ea) && hb.remoteIndex == ia
      && hb.sym == ha.sym
  }

  lemma HearParts(c: Crypto, n: Names, private: Bytes, public: Bytes, secrets: map<Bytes, Bytes>, m: Initiation,
    heard: Heard)
    requires Hear(c, n, private, public, secrets, m) == Some(heard)
    ensures var caller := Name(c, n, private, public, m);
      caller.Some? && caller.value.identity == heard.identity && heard.identity in secrets
      && Listen(c, caller.value, secrets[heard.identity], m) == Some(heard)
  {
    hide Name;
  }

  // A message that is heard and passes reaches the peer it names.
  method Deliver(c: Crypto, n: Names, b: Identity, hb: Handshake, m: Initiation, ghost heard: Heard, advanced: bool,
                 now: int, then': int)
    requires Fixed(c.hash) && b.present && heard.identity in b.peers && b.peers[heard.identity] == hb
    requires Hear(c, n, b.private, b.public, b.Secrets(), m) == Some(heard) && Passes(hb.Door(), heard.timestamp, now)
    modifies b.peers.Values`sym, b.peers.Values`remoteEphemeral, b.peers.Values`latestTimestamp
    modifies b.peers.Values`remoteIndex, b.peers.Values`lastConsumption, b.peers.Values`stage
    modifies b.peers.Values`advanced
    ensures hb.stage == ConsumedInitiation && hb.sym == heard.sym && hb.remoteEphemeral == m.ephemeral
    ensures hb.remoteIndex == m.sender
  {
    HearParts(c, n, b.private, b.public, b.Secrets(), m, heard);
    hide Hear, Name, Listen, Passes;
    var _ := ConsumeInitiation(c, n, b, m, advanced, now, then');
  }

  method FirstFlight(c: Crypto, n: Names, a: Identity, ha: Handshake, b: Identity, hb: Handshake,
                     ea: Bytes, ghost eb: Bytes, timestamp: Bytes, ia: nat, advanced: bool, now: int, then': int)
    requires Sound(c) && Acquainted(c, a, ha, b, hb) && ha !in b.peers.Values
    requires Parties(c, a.private, b.private, ea, eb)
    requires Passes(hb.Door(), timestamp, now)
    modifies ha`sym, ha`ephemeralPrivate, ha`index, ha`stage
    modifies b.peers.Values`sym, b.peers.Values`remoteEphemeral, b.peers.Values`latestTimestamp
    modifies b.peers.Values`remoteIndex, b.peers.Values`lastConsumption, b.peers.Values`stage
    modifies b.peers.Values`advanced
    ensures Halfway(c, ha, hb, ea, ia) && Acquainted(c, a, ha, b, hb)
    ensures hb.psk == old(ha.psk) && hb.remoteStatic == a.public
    ensures var one := Initiate(c, n, a.public, b.public, Precomputed(c, a.private, b.public), ea, timestamp, ia);
      one.Some? && ha.sym == one.value.sym && Some(hb.remoteEphemeral) == c.pub(ea)
  {
    FirstMessageHeard(c, n, a.private, b.private, ea, eb, timestamp, ia, b.Secrets());
    assert Fixed(c.hash) && b.Secrets()[a.public] == hb.shared;
    hide Hear, Initiate, Passes, Tied, Sound, Parties;
    var one := ha.CreateInitiation(c, n, a, ea, timestamp, ia);
    Deliver(c, n, b, hb, one.value, Heard(a.public, timestamp, ha.sym), advanced, now, then');
  }

  method SecondFlight(c: Crypto, a: Identity, ha: Handshake, b: Identity, hb: Handshake, ea: Bytes, eb: Bytes, ia: nat,
    ib: nat)
    returns (ka: Keys, kb: Keys, ra: nat, rb: nat)
    requires Sound(c) && Acquainted(c, a, ha, b, hb) && ha != hb
    requires Parties(c, a.private, b.private, ea, eb)
    requires Halfway(c, ha, hb, ea, ia)
    modifies ha, hb
    ensures old(Ends(c, ha.sym, hb.remoteEphemeral, hb.remoteStatic, hb.psk, eb, ib, ia)) == Some((ka, kb))
    ensures ra == ib && rb == ia && ha.stage == Zeroed && hb.stage == Zeroed
  {
    SecondMessageConcludes(c, ha.sym, a.private, b.private, ea, eb, ha.psk, ib, ia);
    assert Fixed(c.hash);
    hide Respond, Conclude, Sound, Parties, Fixed, SessionKeys;
    var two := hb.CreateResponse(c, eb, ib);
    var _ := ha.ConsumeResponse(c, a, two.value);
    var sa, _, ra' := ha.BeginSession(c);
    var sb, _, rb' := hb.BeginSession(c);
    ka, kb, ra, rb := sa.value, sb.value, ra', rb';
  }

  // Carried out on the objects, the exchange always succeeds and the two sessions are mirror images: each
  // sends with the key the other receives with and addresses the other by the index that side announced.
  method Exchange(c: Crypto, n: Names, a: Identity, ha: Handshake, b: Identity, hb: Handshake,
                  ea: Bytes, eb: Bytes, timestamp: Bytes, ia: nat, ib: nat, advanced: bool, now: int, then': int)
    returns (ka: Keys, kb: Keys, ra: nat, rb: nat)
    requires Sound(c) && Acquainted(c, a, ha, b, hb) && ha !in b.peers.Values
    requires Parties(c, a.private, b.private, ea, eb)
    requires Passes(hb.Door(), timestamp, now)
    modifies ha, b.peers.Values
    ensures ka.sending == kb.receiving && ka.receiving == kb.sending
    ensures Honest(c, n, a.private, b.private, ea, eb, old(ha.psk), timestamp, ia, ib) == Some((ka, kb))
    ensures ra == ib && rb == ia && ha.stage == Zeroed && hb.stage == Zeroed
  {
    HonestKeys(c, n, a.private, b.private, ea, eb, ha.psk, timestamp, ia, ib);
    assert c.pub(a.private) == Some(a.public) && c.pub(b.private) == Some(b.public);
    assert hb in b.peers.Values by { assert b.peers[a.public] == hb; }
    hide Honest, Initiate, Ends, Precomputed, Sound, Parties, Passes, Acquainted, Halfway;
    FirstFlight(c, n, a, ha, b, hb, ea, eb, timestamp, ia, advanced, now, then');
    ka, kb, ra, rb := SecondFlight(c, a, ha, b, hb, ea, eb, ia, ib);
  }

  // ---------------------------------------------------------------- which initiations get through

  lemma {:induction false} LaterTransitive(a: Bytes, b: Bytes, c: Bytes)
    requires Later(a, b) && Later(b, c)
    ensures Later(a, c)
  {
    if a != [] && b != [] && c != [] && a[0] == b[0] && b[0] == c[0] { LaterTransitive(a[1..], b[1..], c[1..]); }
  }

  lemma {:induction false} LaterOrNot(a: Bytes, b: Bytes)
    ensures Later(a, b) ==> !Later(b, a) && a != b
    ensures Later(a, b) || Later(b, a) || a == b
  {
    if a != [] && b != [] && a[0] == b[0] {
      LaterOrNot(a[1..], b[1..]);
      assert a == [a[0]] + a[1..] && b == [b[0]] + b[1..];
    }
  }

  predicate NoEarlier(a: Bytes, b: Bytes) {
    a == b || Later(a, b)
  }

  // A timestamp as the number its bytes spell, the most significant first.
  function Number(a: Bytes): nat {
    if a == [] then 0 else (a[0] as nat) * Pow256(|a| - 1) + Number(a[1..])
  }

  function Pow256(n: nat): nat {
    if n == 0 then 1 else 256 * Pow256(n - 1)
  }

  lemma {:induction false} NumberBelow(a: Bytes)
    ensures Number(a) < Pow256(|a|)
  {
    if a != [] {
      NumberBelow(a[1..]);
      Digit(a[0] as nat, Pow256(|a| - 1), Number(a[1..]));
    }
  }

  lemma Digit(d: nat, p: nat, rest: nat)
    requires d < 256 && rest < p
    ensures d * p <= d * p + rest < (d + 1) * p <= 256 * p
  {
  }

  lemma OneMore(d: nat, e: nat, p: nat)
    requires d > e
    ensures d * p >= (e + 1) * p
  {
    assert d * p == (e + 1) * p + (d - e - 1) * p;
  }

  lemma LeadingDigit(d: nat, e: nat, p: nat, x: nat, y: nat)
    requires d < 256 && e < 256 && x < p && y < p
    ensures d * p + x > e * p + y <==> d > e || (d == e && x > y)
  {
    Digit(d, p, x);
    Digit(e, p, y);
    if d > e {
      OneMore(d, e, p);
    } else if d < e {
      OneMore(e, d, p);
    }
  }

  // Of two timestamps of one length the later is the greater number.
  lemma {:induction false} LaterIsGreater(a: Bytes, b: Bytes)
    requires |a| == |b|
    ensures Later(a, b) <==> Number(a) > Number(b)
  {
    if a != [] {
      LaterIsGreater(a[1..], b[1..]);
      NumberBelow(a[1..]);
      NumberBelow(b[1..]);
      LeadingDigit(a[0] as nat, b[0] as nat, Pow256(|a| - 1), Number(a[1..]), Number(b[1..]));
    }
  }

  // An initiation passes exactly when its timestamp is a greater number than the last one's and twenty milliseconds
  // have gone by.
  lemma PassesExactly(g: Gate, timestamp: Bytes, now: int)
    requires |timestamp| == |g.latest|
    ensures Passes(g, timestamp, now) <==> Number(timestamp) > Number(g.latest) && now - g.last >= SPACING
  {
    LaterIsGreater(timestamp, g.latest);
  }

  // Several workers handle one peer's initiations: each tests under the read lock and copies later under the write
  // lock. An admission remembers when its test and its copy took place, in steps and by the clock.
  datatype Tested = Tested(timestamp: Bytes, at: nat, now: int)
  datatype Admission = Admission(timestamp: Bytes, testedAt: nat, tested: int, copiedAt: nat, copied: int)
  datatype Workers = Workers(gate: Gate, waiting: seq<Tested>, admitted: seq<Admission>, steps: nat, now: int)

  datatype Event = Test(timestamp: Bytes, now: int) | Copy(which: nat, now: int)

  predicate Enabled(w: Workers, e: Event) {
    w.now <= e.now && (e.Copy? ==> e.which < |w.waiting|)
  }

  function Step(w: Workers, e: Event): Workers
    requires Enabled(w, e)
  {
    var next := w.(steps := w.steps + 1, now := e.now);
    match e
    case Test(t, now) => if Passes(w.gate, t, now) then next.(waiting := w.waiting + [Tested(t, w.steps, now)])
      else next
    case Copy(i, now) =>
      var t := w.waiting[i];
      next.(gate := Copied(w.gate, t.timestamp, now), waiting := w.waiting[..i] + w.waiting[i + 1..],
            admitted := w.admitted + [Admission(t.timestamp, t.at, t.now, w.steps, now)])
  }

  ghost predicate Runs(w: Workers, events: seq<Event>, v: Workers)
    decreases |events|
  {
    if events == [] then w == v else Enabled(w, events[0]) && Runs(Step(w, events[0]), events[1..], v)
  }

  function Quiet(g: Gate, now: int): Workers {
    Workers(g, [], [], 0, now)
  }

  // The gate only ever closes further.
  lemma {:induction false} GateNeverBack(w: Workers, events: seq<Event>, v: Workers)
    requires Runs(w, events, v)
    ensures NoEarlier(v.gate.latest, w.gate.latest) && w.gate.last <= v.gate.last
    decreases |events|
  {
    if events != [] {
      var u := Step(w, events[0]);
      GateNeverBack(u, events[1..], v);
      if Later(v.gate.latest, u.gate.latest) && Later(u.gate.latest, w.gate.latest) {
        LaterTransitive(v.gate.latest, u.gate.latest, w.gate.latest);
      }
    }
  }

  // Twenty milliseconds.
  const SPACING := 20_000_000

  // The second of two admissions was tested after the first was copied.
  predicate After(a: Admission, testedAt: nat) {
    a.copiedAt < testedAt
  }

  predicate Spaced(a: Admission, timestamp: Bytes, tested: int) {
    Later(timestamp, a.timestamp) && a.copied + SPACING <= tested
  }

  ghost predicate Inv(w: Workers) {
    (forall i | 0 <= i < |w.admitted| ::
       NoEarlier(w.gate.latest, w.admitted[i].timestamp) && w.admitted[i].copied <= w.gate.last
         && w.admitted[i].copiedAt < w.steps)
    && (forall i | 0 <= i < |w.waiting| :: w.waiting[i].at < w.steps && w.waiting[i].now <= w.now)
    && (forall i, j | 0 <= i < |w.admitted| && 0 <= j < |w.waiting| && After(w.admitted[i], w.waiting[j].at) ::
          Spaced(w.admitted[i], w.waiting[j].timestamp, w.waiting[j].now))
    && (forall i, j | 0 <= i < j < |w.admitted| && After(w.admitted[i], w.admitted[j].testedAt) ::
          Spaced(w.admitted[i], w.admitted[j].timestamp, w.admitted[j].tested))
    && (forall i | 0 <= i < |w.admitted| :: w.admitted[i].tested <= w.admitted[i].copied)
  }

  lemma TestKeeps(w: Workers, e: Event)
    requires Inv(w) && e.Test? && Enabled(w, e)
    ensures Inv(Step(w, e))
  {
    if Passes(w.gate, e.timestamp, e.now) {
      forall i | 0 <= i < |w.admitted| ensures Spaced(w.admitted[i], e.timestamp, e.now) {
        if Later(w.gate.latest, w.admitted[i].timestamp) {
          LaterTransitive(e.timestamp, w.gate.latest, w.admitted[i].timestamp);
        }
      }
    }
  }

  lemma CopyLater(g: Gate, t: Bytes, now: int, a: Bytes)
    requires NoEarlier(g.latest, a)
    ensures NoEarlier(Copied(g, t, now).latest, a) && NoEarlier(Copied(g, t, now).latest, t)
  {
    LaterOrNot(t, g.latest);
    if Later(t, g.latest) && Later(g.latest, a) { LaterTransitive(t, g.latest, a); }
  }

  lemma CopyKeeps(w: Workers, e: Event)
    requires Inv(w) && e.Copy? && Enabled(w, e)
    ensures Inv(Step(w, e))
  {
    var v, t := Step(w, e), w.waiting[e.which];
    forall i | 0 <= i < |v.admitted| ensures NoEarlier(v.gate.latest, v.admitted[i].timestamp) {
      if i < |w.admitted| { CopyLater(w.gate, t.timestamp, e.now, w.admitted[i].timestamp); }
      CopyLater(w.gate, t.timestamp, e.now, w.gate.latest);
    }
    assert forall j | 0 <= j < |v.waiting| :: v.waiting[j] == w.waiting[if j < e.which then j else j + 1];
  }

  lemma {:induction false} RunsKeep(w: Workers, events: seq<Event>, v: Workers)
    requires Inv(w) && Runs(w, events, v)
    ensures Inv(v)
    decreases |events|
  {
    if events != [] {
      if events[0].Test? { TestKeeps(w, events[0]); } else { CopyKeeps(w, events[0]); }
      RunsKeep(Step(w, events[0]), events[1..], v);
    }
  }

  // Two admissions carry the same timestamp, or stand closer than a fiftieth of a second, only if the later one was
  // tested before the earlier one was copied.
  lemma ApartUnlessTogether(g: Gate, start: int, events: seq<Event>, v: Workers, i: nat, j: nat)
    requires Runs(Quiet(g, start), events, v) && i < j < |v.admitted|
    ensures var a, b := v.admitted[i], v.admitted[j];
      a.timestamp == b.timestamp || !Later(b.timestamp, a.timestamp) || b.copied < a.copied + SPACING ==>
        b.testedAt <= a.copiedAt
  {
    RunsKeep(Quiet(g, start), events, v);
    var a, b := v.admitted[i], v.admitted[j];
    if After(a, b.testedAt) {
      assert Spaced(a, b.timestamp, b.tested);
      LaterOrNot(b.timestamp, a.timestamp);
    }
  }

  // ---- let through once

  function InHand(waiting: seq<Tested>, t: Bytes): nat {
    if waiting == [] then 0
    else InHand(waiting[..|waiting| - 1], t) + if waiting[|waiting| - 1].timestamp == t then 1 else 0
  }

  function Admissions(admitted: seq<Admission>, t: Bytes): nat {
    if admitted == [] then 0
    else Admissions(admitted[..|admitted| - 1], t) + if admitted[|admitted| - 1].timestamp == t then 1 else 0
  }

  // At no moment of the run do two workers hold a passed test of the same timestamp.
  ghost predicate Alone(w: Workers, events: seq<Event>, t: Bytes)
    decreases |events|
  {
    InHand(w.waiting, t) <= 1
    && (events != [] && Enabled(w, events[0]) ==> Alone(Step(w, events[0]), events[1..], t))
  }

  lemma {:induction false} InHandSplit(a: seq<Tested>, b: seq<Tested>, t: Bytes)
    ensures InHand(a + b, t) == InHand(a, t) + InHand(b, t)
    decreases |b|
  {
    if b == [] {
      assert a + b == a;
    } else {
      var n := |b| - 1;
      InHandSplit(a, b[..n], t);
      assert (a + b)[..|a + b| - 1] == a + b[..n];
    }
  }

  lemma InHandOne(x: Tested, t: Bytes)
    ensures InHand([x], t) == if x.timestamp == t then 1 else 0
  {
    assert [x][..0] == [];
  }

  lemma InHandLess(waiting: seq<Tested>, i: nat, t: Bytes)
    requires i < |waiting|
    ensures InHand(waiting, t) == InHand(waiting[..i] + waiting[i + 1..], t) + if waiting[i].timestamp == t then 1
      else 0
  {
    assert waiting == waiting[..i] + [waiting[i]] + waiting[i + 1..];
    InHandSplit(waiting[..i] + [waiting[i]], waiting[i + 1..], t);
    InHandSplit(waiting[..i], [waiting[i]], t);
    InHandSplit(waiting[..i], waiting[i + 1..], t);
    InHandOne(waiting[i], t);
  }

  function Both(w: Workers, t: Bytes): nat {
    InHand(w.waiting, t) + Admissions(w.admitted, t)
  }

  // Tests in hand and admissions together: a test that passes adds one, a copy moves one over.
  lemma BothStep(w: Workers, e: Event, t: Bytes)
    requires Enabled(w, e)
    ensures var v := Step(w, e);
      Both(v, t) == Both(w, t) + (if e.Test? && e.timestamp == t && Passes(w.gate, t, e.now) then 1 else 0)
      && (Admissions(v.admitted, t) > Admissions(w.admitted, t) ==> e.Copy? && w.waiting[e.which].timestamp == t)
      && (e.Test? ==> v.admitted == w.admitted)
  {
    match e
    case Test(u, now) =>
      var x := Tested(u, w.steps, now);
      InHandSplit(w.waiting, [x], t);
      InHandOne(x, t);
    case Copy(i, now) =>
      var x := w.waiting[i];
      InHandLess(w.waiting, i, t);
      var a := Admission(x.timestamp, x.at, x.now, w.steps, now);
      assert (w.admitted + [a])[..|w.admitted|] == w.admitted;
  }

  ghost predicate AtMostOne(w: Workers, t: Bytes) {
    Both(w, t) <= 1 && (Admissions(w.admitted, t) > 0 ==> NoEarlier(w.gate.latest, t))
  }

  lemma AtMostOneStep(w: Workers, e: Event, t: Bytes)
    requires AtMostOne(w, t) && Enabled(w, e) && InHand(Step(w, e).waiting, t) <= 1
    ensures AtMostOne(Step(w, e), t)
  {
    BothStep(w, e, t);
    LaterOrNot(t, w.gate.latest);
    if e.Copy? {
      CopyLater(w.gate, w.waiting[e.which].timestamp, e.now, w.gate.latest);
      if Admissions(w.admitted, t) > 0 { CopyLater(w.gate, w.waiting[e.which].timestamp, e.now, t); }
    }
  }

  lemma {:induction false} AloneOnce(w: Workers, events: seq<Event>, v: Workers, t: Bytes)
    requires Runs(w, events, v) && AtMostOne(w, t) && Alone(w, events, t)
    ensures AtMostOne(v, t)
    decreases |events|
  {
    if events != [] {
      AtMostOneStep(w, events[0], t);
      AloneOnce(Step(w, events[0]), events[1..], v, t);
    }
  }

  lemma {:induction false} TogetherTwice(w: Workers, events: seq<Event>, v: Workers, t: Bytes)
    requires Runs(w, events, v)
    ensures Both(v, t) >= Both(w, t) && (!Alone(w, events, t) ==> Both(v, t) >= 2)
    decreases |events|
  {
    if events != [] {
      BothStep(w, events[0], t);
      TogetherTwice(Step(w, events[0]), events[1..], v, t);
    }
  }

  // In a run from quiet to quiet a timestamp is let through at most once exactly when at no moment two workers hold
  // a passed test of it.
  lemma OnceExactly(g: Gate, start: int, events: seq<Event>, v: Workers, t: Bytes)
    requires Runs(Quiet(g, start), events, v) && v.waiting == []
    ensures Admissions(v.admitted, t) <= 1 <==> Alone(Quiet(g, start), events, t)
  {
    var w := Quiet(g, start);
    TogetherTwice(w, events, v, t);
    if Alone(w, events, t) { AloneOnce(w, events, v, t); }
  }

  // And together they can: one initiation tested twice before it is copied is let through twice.
  lemma AdmittedTwice(g: Gate, timestamp: Bytes, now: int)
    requires Passes(g, timestamp, now)
    ensures var events := [Test(timestamp, now), Test(timestamp, now), Copy(0, now), Copy(0, now)];
      exists v :: Runs(Quiet(g, now), events, v) && |v.admitted| == 2
        && v.admitted[0].timestamp == v.admitted[1].timestamp == timestamp
          && v.admitted[0].copied == v.admitted[1].copied
  {
    hide Passes, Copied;
    var events := [Test(timestamp, now), Test(timestamp, now), Copy(0, now), Copy(0, now)];
    var w0 := Quiet(g, now);
    var w1 := Step(w0, events[0]);
    var w2 := Step(w1, events[1]);
    assert w2.waiting == [Tested(timestamp, 0, now), Tested(timestamp, 1, now)];
    var w3 := Step(w2, events[2]);
    assert w3.waiting == [Tested(timestamp, 1, now)];
    var w4 := Step(w3, events[3]);
    RunsOne(w3, events[3], [], w4);
    RunsOne(w2, events[2], events[3..], w4);
    RunsOne(w1, events[1], events[2..], w4);
    RunsOne(w0, events[0], events[1..], w4);
  }

  lemma RunsOne(w: Workers, e: Event, rest: seq<Event>, v: Workers)
    requires Enabled(w, e) && Runs(Step(w, e), rest, v)
    ensures Runs(w, [e] + rest, v)
  {
    assert ([e] + rest)[1..] == rest;
  }
}
