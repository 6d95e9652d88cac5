/** The Noise_IKpsk2 handshake (Noise Protocol Framework, sections 7.5 and 9) over abstract primitives. */
module Noise {
  import opened Basics
  import opened Hkdf

  // Hash, Diffie-Hellman, public keys and authenticated encryption, with no assumption built in.
  datatype Crypto = Crypto(
    hash: Bytes -> Bytes,
    dh: (Bytes, Bytes) -> Option<Bytes>,
    pub: Bytes -> Option<Bytes>,
    seal: (Bytes, Bytes, Bytes) -> Bytes,
    open: (Bytes, Bytes, Bytes) -> Option<Bytes>)

  const ZERO_POINT: Bytes := Zeros(32)

  // What the protocol needs of the primitives: hashes have one length, the exchange commutes and never yields
  // the zero point, and what was sealed opens under the same key and associated data.
  ghost predicate Sound(c: Crypto) {
    Fixed(c.hash)
    && (forall a, b :: c.pub(a).Some? && c.pub(b).Some? ==> c.dh(a, c.pub(b).value) == c.dh(b, c.pub(a).value))
    && (forall a, p :: c.dh(a, p) != Some(ZERO_POINT))
    && (forall k, ad, p :: c.open(k, ad, c.seal(k, ad, p)) == Some(p))
  }

  // ---------------------------------------------------------------- symmetric state

  datatype Sym = Sym(ck: Bytes, h: Bytes)

  function Derived(c: Crypto, ck: Bytes, data: Bytes, i: nat): Bytes
    requires i <= 3
  {
    T(c.hash, Extract(c.hash, ck, data), i)
  }

  function MixHash(c: Crypto, s: Sym, data: Bytes): Sym {
    s.(h := c.hash(s.h + data))
  }

  function Start(c: Crypto, name: Bytes, identifier: Bytes, responderStatic: Bytes): Sym {
    var ck := c.hash(name);
    MixHash(c, Sym(ck, c.hash(ck + identifier)), responderStatic)
  }

  function Ephemeral(c: Crypto, s: Sym, e: Bytes): Sym {
    var t := MixHash(c, s, e);
    t.(ck := Derived(c, t.ck, e, 1))
  }

  datatype Keyed = Keyed(sym: Sym, key: Bytes)

  function MixKey(c: Crypto, s: Sym, shared: Bytes): Keyed {
    Keyed(s.(ck := Derived(c, s.ck, shared, 1)), Derived(c, s.ck, shared, 2))
  }

  function MixDh(c: Crypto, s: Sym, private: Bytes, public: Bytes): Option<Keyed> {
    match c.dh(private, public)
    case None => None
    case Some(shared) => Some(MixKey(c, s, shared))
  }

  function MixPrecomputed(c: Crypto, s: Sym, shared: Bytes): Option<Keyed> {
    if shared == ZERO_POINT then None else Some(MixKey(c, s, shared))
  }

  function MixPsk(c: Crypto, s: Sym, psk: Bytes): Keyed {
    Keyed(MixHash(c, s.(ck := Derived(c, s.ck, psk, 1)), Derived(c, s.ck, psk, 2)), Derived(c, s.ck, psk, 3))
  }

  function Encrypt(c: Crypto, k: Keyed, plain: Bytes): Bytes {
    c.seal(k.key, k.sym.h, plain)
  }

  function Precomputed(c: Crypto, private: Bytes, remoteStatic: Bytes): Bytes {
    match c.dh(private, remoteStatic)
    case None => ZERO_POINT
    case Some(shared) => shared
  }

  // ---------------------------------------------------------------- the two messages

  datatype Names = Names(construction: Bytes, identifier: Bytes)
  datatype Initiation = Initiation(sender: nat, ephemeral: Bytes, identity: Bytes, timestamp: Bytes)
  datatype Response = Response(sender: nat, receiver: nat, ephemeral: Bytes, nothing: Bytes)

  datatype Made<+M> = Made(message: M, sym: Sym)

  // -> e, es, s, ss, {t}
  function Initiate(c: Crypto, n: Names, public: Bytes, remoteStatic: Bytes, shared: Bytes, secret: Bytes,
    timestamp: Bytes, index: nat): Option<Made<Initiation>> {
    match c.pub(secret)
    case None => None
    case Some(e) =>
      match MixDh(c, Ephemeral(c, Start(c, n.construction, n.identifier, remoteStatic), e), secret, remoteStatic)
      case None => None
      case Some(es) =>
        var s := Encrypt(c, es, public);
        match MixPrecomputed(c, MixHash(c, es.sym, s), shared)
        case None => None
        case Some(ss) =>
          var t := Encrypt(c, ss, timestamp);
          Some(Made(Initiation(index, e, s, t), MixHash(c, ss.sym, t)))
  }

  datatype Heard = Heard(identity: Bytes, timestamp: Bytes, sym: Sym)

  // What the responder knows once the static key has been opened: who it is, and the transcript so far.
  datatype Caller = Caller(identity: Bytes, sym: Sym)

  function Name(c: Crypto, n: Names, private: Bytes, public: Bytes, m: Initiation): Option<Caller> {
    match MixDh(c, Ephemeral(c, Start(c, n.construction, n.identifier, public), m.ephemeral), private, m.ephemeral)
    case None => None
    case Some(es) =>
      match c.open(es.key, es.sym.h, m.identity)
      case None => None
      case Some(id) => Some(Caller(id, MixHash(c, es.sym, m.identity)))
  }

  // The rest, with the static-static secret kept for that peer.
  function Listen(c: Crypto, caller: Caller, shared: Bytes, m: Initiation): Option<Heard> {
    match MixPrecomputed(c, caller.sym, shared)
    case None => None
    case Some(ss) =>
      match c.open(ss.key, ss.sym.h, m.timestamp)
      case None => None
      case Some(t) => Some(Heard(caller.identity, t, MixHash(c, ss.sym, m.timestamp)))
  }

  // The responder's half of the first message.
  function Hear(c: Crypto, n: Names, private: Bytes, public: Bytes, secrets: map<Bytes, Bytes>,
    m: Initiation): Option<Heard> {
    match Name(c, n, private, public, m)
    case None => None
    case Some(caller) =>
      if caller.identity !in secrets then None else Listen(c, caller, secrets[caller.identity], m)
  }

  // <- e, ee, se, psk, {}
  function Respond(c: Crypto, s: Sym, remoteEphemeral: Bytes, remoteStatic: Bytes, psk: Bytes, secret: Bytes,
    index: nat, remoteIndex: nat): Option<Made<Response>> {
    match c.pub(secret)
    case None => None
    case Some(e) =>
      match MixDh(c, Ephemeral(c, s, e), secret, remoteEphemeral)
      case None => None
      case Some(ee) =>
        match MixDh(c, ee.sym, secret, remoteStatic)
        case None => None
        case Some(se) =>
          var k := MixPsk(c, se.sym, psk);
          var nothing := Encrypt(c, k, []);
          Some(Made(Response(index, remoteIndex, e, nothing), MixHash(c, k.sym, nothing)))
  }

  function Conclude(c: Crypto, s: Sym, secret: Bytes, private: Bytes, psk: Bytes, m: Response): Option<Sym> {
    match MixDh(c, Ephemeral(c, s, m.ephemeral), secret, m.ephemeral)
    case None => None
    case Some(ee) =>
      match MixDh(c, ee.sym, private, m.ephemeral)
      case None => None
      case Some(se) =>
        var k := MixPsk(c, se.sym, psk);
        if c.open(k.key, k.sym.h, m.nothing).None? then None else Some(MixHash(c, k.sym, m.nothing))
  }

  datatype Keys = Keys(sending: Bytes, receiving: Bytes)

  function SessionKeys(c: Crypto, ck: Bytes, initiator: bool): Keys {
    var first, second := Derived(c, ck, [], 1), Derived(c, ck, [], 2);
    if initiator then Keys(first, second) else Keys(second, first)
  }

  lemma SessionKeysMirror(c: Crypto, ck: Bytes)
    ensures SessionKeys(c, ck, true) == Keys(SessionKeys(c, ck, false).receiving, SessionKeys(c, ck, false).sending)
  {
  }

  // ---------------------------------------------------------------- agreement

  // Two static identities and two ephemeral secrets that have public keys, and no degenerate exchange among them.
  ghost predicate Parties(c: Crypto, ai: Bytes, ar: Bytes, ei: Bytes, er: Bytes) {
    c.pub(ai).Some? && c.pub(ar).Some? && c.pub(ei).Some? && c.pub(er).Some?
    && c.dh(ei, c.pub(ar).value).Some? && c.dh(ai, c.pub(ar).value).Some?
    && c.dh(er, c.pub(ei).value).Some? && c.dh(er, c.pub(ai).value).Some?
  }

  lemma SharedBySides(c: Crypto, a: Bytes, b: Bytes)
    requires Sound(c) && c.pub(a).Some? && c.pub(b).Some?
    ensures c.dh(a, c.pub(b).value) == c.dh(b, c.pub(a).value) != Some(ZERO_POINT)
  {
  }

  lemma SealedOpens(c: Crypto, k: Keyed, plain: Bytes)
    requires Sound(c)
    ensures c.open(k.key, k.sym.h, Encrypt(c, k, plain)) == Some(plain)
  {
  }

  lemma FirstMessageHeard(c: Crypto, n: Names, ai: Bytes, ar: Bytes, ei: Bytes, er: Bytes, timestamp: Bytes, index: nat,
    secrets: map<Bytes, Bytes>)
    requires Sound(c) && Parties(c, ai, ar, ei, er)
    requires c.pub(ai).value in secrets && secrets[c.pub(ai).value] == Precomputed(c, ar, c.pub(ai).value)
    ensures var shared := Precomputed(c, ai, c.pub(ar).value);
      var made := Initiate(c, n, c.pub(ai).value, c.pub(ar).value, shared, ei, timestamp, index);
      made.Some? && made.value.message.ephemeral == c.pub(ei).value
      && Hear(c, n, ar, c.pub(ar).value, secrets, made.value.message)
        == Some(Heard(c.pub(ai).value, timestamp, made.value.sym))
  {
    var pi, pr, e := c.pub(ai).value, c.pub(ar).value, c.pub(ei).value;
    SharedBySides(c, ei, ar);
    SharedBySides(c, ai, ar);
    var es := MixDh(c, Ephemeral(c, Start(c, n.construction, n.identifier, pr), e), ei, pr).value;
    hide MixKey, Ephemeral, Start, MixHash;
    SealedOpens(c, es, pi);
    var ss := MixKey(c, MixHash(c, es.sym, Encrypt(c, es, pi)), Precomputed(c, ai, pr));
    SealedOpens(c, ss, timestamp);
    hide Sound, Encrypt;
  }

  lemma SecondMessageConcludes(c: Crypto, s: Sym, ai: Bytes, ar: Bytes, ei: Bytes, er: Bytes, psk: Bytes, index: nat,
    remoteIndex: nat)
    requires Sound(c) && Parties(c, ai, ar, ei, er)
    ensures var made := Respond(c, s, c.pub(ei).value, c.pub(ai).value, psk, er, index, remoteIndex);
      made.Some? && Conclude(c, s, ei, ai, psk, made.value.message) == Some(made.value.sym)
  {
  }

  // One honest exchange: the initiator's message heard by a responder that knows the initiator, its answer
  // concluded by the initiator, and both ends' keys.
  function Honest(c: Crypto, n: Names, ai: Bytes, ar: Bytes, ei: Bytes, er: Bytes, psk: Bytes, timestamp: Bytes, i: nat,
    r: nat): Option<(Keys, Keys)>
  {
    if c.pub(ai).None? || c.pub(ar).None? then None
    else
      var pi, pr := c.pub(ai).value, c.pub(ar).value;
      match Initiate(c, n, pi, pr, Precomputed(c, ai, pr), ei, timestamp, i)
      case None => None
      case Some(one) =>
        match Hear(c, n, ar, pr, map[pi := Precomputed(c, ar, pi)], one.message)
        case None => None
        case Some(heard) =>
          match Respond(c, heard.sym, one.message.ephemeral, heard.identity, psk, er, r, one.message.sender)
          case None => None
          case Some(two) =>
            match Conclude(c, one.sym, ei, ai, psk, two.message)
            case None => None
            case Some(s) => Some((SessionKeys(c, s.ck, true), SessionKeys(c, two.sym.ck, false)))
  }

  // Both ends' keys after the responder's answer.
  function Ends(c: Crypto, s: Sym, remoteEphemeral: Bytes, remoteStatic: Bytes, psk: Bytes, secret: Bytes, index: nat,
    remoteIndex: nat): Option<(Keys, Keys)>
  {
    match Respond(c, s, remoteEphemeral, remoteStatic, psk, secret, index, remoteIndex)
    case None => None
    case Some(two) => Some((SessionKeys(c, two.sym.ck, true), SessionKeys(c, two.sym.ck, false)))
  }

  // What an exchange without a degenerate step comes to.
  lemma HonestKeys(c: Crypto, n: Names, ai: Bytes, ar: Bytes, ei: Bytes, er: Bytes, psk: Bytes, timestamp: Bytes,
    i: nat, r: nat)
    requires Sound(c) && Parties(c, ai, ar, ei, er)
    ensures var pi, pr := c.pub(ai).value, c.pub(ar).value;
      var one := Initiate(c, n, pi, pr, Precomputed(c, ai, pr), ei, timestamp, i);
      var keys := Honest(c, n, ai, ar, ei, er, psk, timestamp, i, r);
      one.Some? && keys.Some? && keys == Ends(c, one.value.sym, c.pub(ei).value, pi, psk, er, r, i)
      && keys.value.0.sending == keys.value.1.receiving && keys.value.0.receiving == keys.value.1.sending
  {
    var pi, pr := c.pub(ai).value, c.pub(ar).value;
    FirstMessageHeard(c, n, ai, ar, ei, er, timestamp, i, map[pi := Precomputed(c, ar, pi)]);
    var one := Initiate(c, n, pi, pr, Precomputed(c, ai, pr), ei, timestamp, i);
    SecondMessageConcludes(c, one.value.sym, ai, ar, ei, er, psk, r, i);
    assert one.value.message.sender == i;
    SessionKeysMirror(c, Respond(c, one.value.sym, c.pub(ei).value, pi, psk, er, r, i).value.sym.ck);
    hide Initiate, Hear, Respond, Conclude, SessionKeys, Precomputed;
  }

  // The exchange completes exactly when no Diffie-Hellman step among the four keys is degenerate, and then each
  // side's sending key is the other's receiving key.
  lemma Agreement(c: Crypto, n: Names, ai: Bytes, ar: Bytes, ei: Bytes, er: Bytes, psk: Bytes, timestamp: Bytes, i: nat,
    r: nat)
    requires Sound(c)
    ensures var keys := Honest(c, n, ai, ar, ei, er, psk, timestamp, i, r);
      (keys.Some? <==> Parties(c, ai, ar, ei, er))
      && (keys.Some? ==>
        keys.value.0.sending == keys.value.1.receiving && keys.value.0.receiving == keys.value.1.sending)
  {
    if Parties(c, ai, ar, ei, er) {
      HonestKeys(c, n, ai, ar, ei, er, psk, timestamp, i, r);
    } else {
      DegenerateStops(c, n, ai, ar, ei, er, psk, timestamp, i, r);
    }
  }

  lemma InitiateNeeds(c: Crypto, n: Names, ai: Bytes, pi: Bytes, pr: Bytes, ei: Bytes, timestamp: Bytes, i: nat)
    requires Initiate(c, n, pi, pr, Precomputed(c, ai, pr), ei, timestamp, i).Some?
    ensures c.pub(ei).Some? && c.dh(ei, pr).Some? && c.dh(ai, pr).Some?
    ensures Initiate(c, n, pi, pr, Precomputed(c, ai, pr), ei, timestamp, i).value.message.ephemeral == c.pub(ei).value
  {
    hide Ephemeral, Start, MixKey, Encrypt, MixHash;
  }

  lemma HearNeeds(c: Crypto, n: Names, ar: Bytes, pr: Bytes, pi: Bytes, secret: Bytes, m: Initiation)
    requires Hear(c, n, ar, pr, map[pi := secret], m).Some?
    ensures Hear(c, n, ar, pr, map[pi := secret], m).value.identity == pi
  {
    hide Name;
  }

  lemma RespondNeeds(c: Crypto, s: Sym, re: Bytes, rs: Bytes, psk: Bytes, er: Bytes, r: nat, i: nat)
    requires Respond(c, s, re, rs, psk, er, r, i).Some?
    ensures c.pub(er).Some? && c.dh(er, re).Some? && c.dh(er, rs).Some?
  {
    hide Ephemeral, MixKey, MixPsk, Encrypt, MixHash;
  }

  // A degenerate step stops the exchange where it happens: at the first message if it is the ephemeral-static or
  // the static-static one, at the second otherwise.
  lemma DegenerateStops(c: Crypto, n: Names, ai: Bytes, ar: Bytes, ei: Bytes, er: Bytes, psk: Bytes, timestamp: Bytes,
    i: nat, r: nat)
    requires Sound(c) && !Parties(c, ai, ar, ei, er)
    ensures Honest(c, n, ai, ar, ei, er, psk, timestamp, i, r).None?
  {
    if c.pub(ai).None? || c.pub(ar).None? { return; }
    hide Initiate, Hear, Respond, Conclude, Precomputed, SessionKeys, Sound;
    var pi, pr := c.pub(ai).value, c.pub(ar).value;
    var one := Initiate(c, n, pi, pr, Precomputed(c, ai, pr), ei, timestamp, i);
    if one.None? { return; }
    InitiateNeeds(c, n, ai, pi, pr, ei, timestamp, i);
    var m, secret := one.value.message, Precomputed(c, ar, pi);
    var heard := Hear(c, n, ar, pr, map[pi := secret], m);
    if heard.None? { return; }
    HearNeeds(c, n, ar, pr, pi, secret, m);
    var two := Respond(c, heard.value.sym, m.ephemeral, heard.value.identity, psk, er, r, m.sender);
    if two.Some? { RespondNeeds(c, heard.value.sym, m.ephemeral, heard.value.identity, psk, er, r, m.sender); }
  }
}
