/** The handshake as the Noise Protocol Framework (revision 34) defines it: message patterns of tokens, carried out by
    the processing rules of its section 5. The messages of the tunnel are those of the pattern IKpsk2. */
module NoisePattern {
  import opened Basics
  import opened Hkdf
  import opened Noise

  // ---------------------------------------------------------------- sections 4.3 and 5.2

  // Output i of HKDF(ck, ikm, n), for any n >= i: a slice of the expansion of RFC 5869.
  function Output(c: Crypto, ck: Bytes, ikm: Bytes, i: nat): Bytes
    requires 1 <= i <= 3
  {
    var all := Expand(c.hash, Extract(c.hash, ck, ikm), i * HASH_LEN);
    if (i - 1) * HASH_LEN <= |all| then all[(i - 1) * HASH_LEN..] else []
  }

  // The key is empty until the first MixKey, and good for one message: the counter of the cipher state never leaves
  // zero in this pattern.
  datatype Key = Empty | Unused(bytes: Bytes) | Used

  datatype Symmetric = Symmetric(ck: Bytes, h: Bytes, k: Key)

  // For a name longer than a hash.
  function InitializeSymmetric(c: Crypto, name: Bytes): Symmetric {
    Symmetric(c.hash(name), c.hash(name), Empty)
  }

  function Mix(c: Crypto, s: Symmetric, data: Bytes): Symmetric {
    s.(h := c.hash(s.h + data))
  }

  function MixInKey(c: Crypto, s: Symmetric, ikm: Bytes): Symmetric {
    s.(ck := Output(c, s.ck, ikm, 1), k := Unused(Output(c, s.ck, ikm, 2)))
  }

  function MixInKeyAndHash(c: Crypto, s: Symmetric, ikm: Bytes): Symmetric {
    Mix(c, s.(ck := Output(c, s.ck, ikm, 1)), Output(c, s.ck, ikm, 2)).(k := Unused(Output(c, s.ck, ikm, 3)))
  }

  // The text sent, and the state after it; there is none if the key has been used.
  function EncryptAndHash(c: Crypto, s: Symmetric, plain: Bytes): Option<(Bytes, Symmetric)> {
    match s.k
    case Empty => Some((plain, Mix(c, s, plain)))
    case Unused(k) => var text := c.seal(k, s.h, plain); Some((text, Mix(c, s, text).(k := Used)))
    case Used => None
  }

  function DecryptAndHash(c: Crypto, s: Symmetric, text: Bytes): Option<(Bytes, Symmetric)> {
    match s.k
    case Empty => Some((text, Mix(c, s, text)))
    case Unused(k) =>
      (match c.open(k, s.h, text)
       case None => None
       case Some(plain) => Some((plain, Mix(c, s, text).(k := Used))))
    case Used => None
  }

  // The initiator sends under the first key and the responder under the second.
  function Split(c: Crypto, ck: Bytes): (Bytes, Bytes) {
    (Output(c, ck, [], 1), Output(c, ck, [], 2))
  }

  // ---------------------------------------------------------------- sections 5.3, 7.5 and 9

  datatype Token = E | S | EE | ES | SE | SS | PSK

  const FIRST: seq<Token> := [E, ES, S, SS]
  const SECOND: seq<Token> := [E, EE, SE, PSK]

  datatype Party = Party(initiator: bool, s: Bytes, e: Bytes, rs: Bytes, re: Bytes, psk: Bytes, sym: Symmetric)

  // Which of our secrets meets which of the other side's keys.
  function Exchanged(c: Crypto, p: Party, t: Token): Option<Bytes>
    requires t.EE? || t.ES? || t.SE? || t.SS?
  {
    match t
    case EE => c.dh(p.e, p.re)
    case ES => if p.initiator then c.dh(p.e, p.rs) else c.dh(p.s, p.re)
    case SE => if p.initiator then c.dh(p.s, p.re) else c.dh(p.e, p.rs)
    case SS => c.dh(p.s, p.rs)
  }

  // An ephemeral key is hashed, and in a pattern with a pre-shared key mixed into the key as well.
  function Introduced(c: Crypto, s: Symmetric, e: Bytes): Symmetric {
    MixInKey(c, Mix(c, s, e), e)
  }

  // A token that puts nothing into the message, the same on both sides.
  function Silent(c: Crypto, p: Party, t: Token): Option<Party>
    requires !t.E? && !t.S?
  {
    if t.PSK? then Some(p.(sym := MixInKeyAndHash(c, p.sym, p.psk)))
    else
      match Exchanged(c, p, t)
      case None => None
      case Some(shared) => Some(p.(sym := MixInKey(c, p.sym, shared)))
  }

  // A party and the parts of a message, written or still to be read.
  datatype Progress = Progress(party: Party, parts: seq<Bytes>)

  function WriteToken(c: Crypto, w: Progress, t: Token): Option<Progress> {
    var p := w.party;
    match t
    case E =>
      (match c.pub(p.e)
       case None => None
       case Some(e) => Some(Progress(p.(sym := Introduced(c, p.sym, e)), w.parts + [e])))
    case S =>
      (match c.pub(p.s)
       case None => None
       case Some(s) =>
         match EncryptAndHash(c, p.sym, s)
         case None => None
         case Some(sealed) => Some(Progress(p.(sym := sealed.1), w.parts + [sealed.0])))
    case _ =>
      match Silent(c, p, t)
      case None => None
      case Some(q) => Some(Progress(q, w.parts))
  }

  function ReadToken(c: Crypto, r: Progress, t: Token): Option<Progress> {
    var p := r.party;
    match t
    case E =>
      if r.parts == [] then None
      else Some(Progress(p.(re := r.parts[0], sym := Introduced(c, p.sym, r.parts[0])), r.parts[1..]))
    case S =>
      if r.parts == [] then None
      else
        (match DecryptAndHash(c, p.sym, r.parts[0])
         case None => None
         case Some(read) => Some(Progress(p.(rs := read.0, sym := read.1), r.parts[1..])))
    case _ =>
      match Silent(c, p, t)
      case None => None
      case Some(q) => Some(Progress(q, r.parts))
  }

  function Tokens(c: Crypto, w: Progress, ts: seq<Token>, writing: bool): Option<Progress>
    decreases |ts|
  {
    if ts == [] then Some(w)
    else
      var next := if writing then WriteToken(c, w, ts[0]) else ReadToken(c, w, ts[0]);
      match next
      case None => None
      case Some(v) => Tokens(c, v, ts[1..], writing)
  }

  function WriteMessage(c: Crypto, p: Party, ts: seq<Token>, payload: Bytes): Option<Progress> {
    match Tokens(c, Progress(p, []), ts, true)
    case None => None
    case Some(w) =>
      match EncryptAndHash(c, w.party.sym, payload)
      case None => None
      case Some(sealed) => Some(Progress(w.party.(sym := sealed.1), w.parts + [sealed.0]))
  }

  // The party afterwards and the payload.
  function ReadMessage(c: Crypto, p: Party, ts: seq<Token>, parts: seq<Bytes>): Option<(Party, Bytes)> {
    match Tokens(c, Progress(p, parts), ts, false)
    case None => None
    case Some(r) =>
      if |r.parts| != 1 then None
      else
        match DecryptAndHash(c, r.party.sym, r.parts[0])
        case None => None
        case Some(read) => Some((r.party.(sym := read.1), read.0))
  }

  // Prologue and pre-message: the responder's static key is known to both.
  function Prepared(c: Crypto, n: Names, responderStatic: Bytes): Symmetric {
    Mix(c, Mix(c, InitializeSymmetric(c, n.construction), n.identifier), responderStatic)
  }

  // ---------------------------------------------------------------- the two agree, piece by piece

  function View(s: Symmetric): Sym {
    Sym(s.ck, s.h)
  }

  lemma OutputIsBlock(c: Crypto, ck: Bytes, ikm: Bytes, i: nat)
    requires Fixed(c.hash) && 1 <= i <= 3
    ensures Output(c, ck, ikm, i) == Derived(c, ck, ikm, i)
  {
    var prk := Extract(c.hash, ck, ikm);
    ExpandBlocks(c.hash, prk, i);
    ExpandBlocks(c.hash, prk, i - 1);
    hide T, Extract;
    assert Blocks(c.hash, prk, i) == Blocks(c.hash, prk, i - 1) + T(c.hash, prk, i);
  }

  lemma MixKeyIs(c: Crypto, s: Symmetric, ikm: Bytes)
    requires Fixed(c.hash)
    ensures var k := MixKey(c, View(s), ikm);
      MixInKey(c, s, ikm) == Symmetric(k.sym.ck, k.sym.h, Unused(k.key))
  {
    OutputIsBlock(c, s.ck, ikm, 1);
    OutputIsBlock(c, s.ck, ikm, 2);
    hide Output, Derived;
  }

  lemma MixPskIs(c: Crypto, s: Symmetric, psk: Bytes)
    requires Fixed(c.hash)
    ensures var k := MixPsk(c, View(s), psk);
      MixInKeyAndHash(c, s, psk) == Symmetric(k.sym.ck, k.sym.h, Unused(k.key))
  {
    OutputIsBlock(c, s.ck, psk, 1);
    OutputIsBlock(c, s.ck, psk, 2);
    OutputIsBlock(c, s.ck, psk, 3);
    hide Output, Derived;
  }

  lemma EphemeralIs(c: Crypto, s: Symmetric, e: Bytes)
    requires Fixed(c.hash)
    ensures View(Introduced(c, s, e)) == Ephemeral(c, View(s), e)
  {
    MixKeyIs(c, Mix(c, s, e), e);
    hide MixInKey, Derived;
  }

  lemma StartIs(c: Crypto, n: Names, key: Bytes)
    ensures View(Prepared(c, n, key)) == Start(c, n.construction, n.identifier, key)
  {
  }

  // The session's keys are the halves of one expansion, the initiator's sending half first.
  lemma SessionKeysAre(c: Crypto, ck: Bytes)
    requires Fixed(c.hash)
    ensures SessionKeys(c, ck, true) == Keys(Split(c, ck).0, Split(c, ck).1)
    ensures SessionKeys(c, ck, false) == Keys(Split(c, ck).1, Split(c, ck).0)
    ensures Split(c, ck).0 + Split(c, ck).1 == Expand(c.hash, Extract(c.hash, ck, []), 2 * HASH_LEN)
    ensures |Split(c, ck).0| == |Split(c, ck).1| == HASH_LEN
  {
    OutputIsBlock(c, ck, [], 1);
    OutputIsBlock(c, ck, [], 2);
    var prk := Extract(c.hash, ck, []);
    ExpandBlocks(c.hash, prk, 1);
    ExpandBlocks(c.hash, prk, 2);
    hide Output, T, Extract;
  }

  // ---------------------------------------------------------------- the four halves

  lemma FourTokens(c: Crypto, w: Progress, a: Token, b: Token, d: Token, e: Token, writing: bool)
    ensures Tokens(c, w, [a, b, d, e], writing)
      == Then(c, Then(c, Then(c, Then(c, Some(w), a, writing), b, writing), d, writing), e, writing)
  {
    var ts := [a, b, d, e];
    assert ts[1..] == [b, d, e] && ts[1..][1..] == [d, e] && ts[1..][1..][1..] == [e] && [e][1..] == [];
    hide WriteToken, ReadToken;
    TokensStep(c, w, ts, writing);
    var w1 := Then(c, Some(w), a, writing);
    if w1.Some? {
      TokensStep(c, w1.value, ts[1..], writing);
      var w2 := Then(c, w1, b, writing);
      if w2.Some? {
        TokensStep(c, w2.value, [d, e], writing);
        var w3 := Then(c, w2, d, writing);
        if w3.Some? { TokensStep(c, w3.value, [e], writing); }
      }
    }
  }

  function Then(c: Crypto, w: Option<Progress>, t: Token, writing: bool): Option<Progress> {
    if w.None? then None else if writing then WriteToken(c, w.value, t) else ReadToken(c, w.value, t)
  }

  lemma TokensStep(c: Crypto, w: Progress, ts: seq<Token>, writing: bool)
    requires ts != []
    ensures var v := Then(c, Some(w), ts[0], writing);
      Tokens(c, w, ts, writing) == if v.None? then None else Tokens(c, v.value, ts[1..], writing)
    ensures Tokens(c, w, [], writing) == Some(w)
  {
  }

  // The state after a key has been mixed in.
  ghost predicate Holds(s: Symmetric, k: Keyed) {
    s == Symmetric(k.sym.ck, k.sym.h, Unused(k.key))
  }

  lemma WritesE(c: Crypto, w: Progress)
    requires Fixed(c.hash)
    ensures var v := WriteToken(c, w, E);
      if c.pub(w.party.e).None? then v.None?
      else
        v.Some? && v.value == Progress(w.party.(sym := v.value.party.sym), w.parts + [c.pub(w.party.e).value])
        && View(v.value.party.sym) == Ephemeral(c, View(w.party.sym), c.pub(w.party.e).value)
  {
    if c.pub(w.party.e).Some? { EphemeralIs(c, w.party.sym, c.pub(w.party.e).value); }
    hide Introduced, Ephemeral;
  }

  lemma ReadsE(c: Crypto, r: Progress)
    requires Fixed(c.hash) && r.parts != []
    ensures var v := ReadToken(c, r, E);
      v.Some? && v.value == Progress(r.party.(re := r.parts[0], sym := v.value.party.sym), r.parts[1..])
      && View(v.value.party.sym) == Ephemeral(c, View(r.party.sym), r.parts[0])
  {
    EphemeralIs(c, r.party.sym, r.parts[0]);
    hide Introduced, Ephemeral;
  }

  // A Diffie-Hellman token, written or read.
  lemma Exchanges(c: Crypto, w: Progress, t: Token, writing: bool)
    requires Fixed(c.hash) && (t.EE? || t.ES? || t.SE? || t.SS?)
    ensures var v, shared := Then(c, Some(w), t, writing), Exchanged(c, w.party, t);
      if shared.None? then v.None?
      else
        v.Some? && v.value == Progress(w.party.(sym := v.value.party.sym), w.parts)
        && Holds(v.value.party.sym, MixKey(c, View(w.party.sym), shared.value))
  {
    var shared := Exchanged(c, w.party, t);
    if shared.Some? { MixKeyIs(c, w.party.sym, shared.value); }
    hide MixInKey, MixKey, Exchanged;
  }

  // A token that puts nothing into the message does the same whether it is written or read.
  lemma ThenSilent(c: Crypto, w: Progress, t: Token, writing: bool)
    requires !t.E? && !t.S?
    ensures var q := Silent(c, w.party, t);
      Then(c, Some(w), t, writing) == if q.None? then None else Some(Progress(q.value, w.parts))
  {
    hide Silent;
  }

  lemma MixesPsk(c: Crypto, w: Progress, writing: bool)
    requires Fixed(c.hash)
    ensures var v := Then(c, Some(w), PSK, writing);
      v.Some? && v.value == Progress(w.party.(sym := v.value.party.sym), w.parts)
      && Holds(v.value.party.sym, MixPsk(c, View(w.party.sym), w.party.psk))
  {
    ThenSilent(c, w, PSK, writing);
    MixPskIs(c, w.party.sym, w.party.psk);
    hide MixInKeyAndHash, MixPsk, View, Then, Exchanged, MixInKey;
  }

  lemma Seals(c: Crypto, s: Symmetric, k: Keyed, plain: Bytes)
    requires Holds(s, k)
    ensures var sealed, text := EncryptAndHash(c, s, plain), Encrypt(c, k, plain);
      sealed.Some? && sealed.value.0 == text && View(sealed.value.1) == MixHash(c, k.sym, text)
  {
  }

  lemma Opens(c: Crypto, s: Symmetric, k: Keyed, text: Bytes)
    requires Holds(s, k)
    ensures var read, plain := DecryptAndHash(c, s, text), c.open(k.key, k.sym.h, text);
      if plain.None? then read.None?
      else read.Some? && read.value.0 == plain.value && View(read.value.1) == MixHash(c, k.sym, text)
  {
  }

  lemma WritesS(c: Crypto, w: Progress, k: Keyed)
    requires Holds(w.party.sym, k) && c.pub(w.party.s).Some?
    ensures var v, text := WriteToken(c, w, S), Encrypt(c, k, c.pub(w.party.s).value);
      v.Some? && v.value == Progress(w.party.(sym := v.value.party.sym), w.parts + [text])
      && View(v.value.party.sym) == MixHash(c, k.sym, text)
  {
    Seals(c, w.party.sym, k, c.pub(w.party.s).value);
    hide EncryptAndHash;
  }

  lemma ReadsS(c: Crypto, r: Progress, k: Keyed)
    requires Holds(r.party.sym, k) && r.parts != []
    ensures var v, who := ReadToken(c, r, S), c.open(k.key, k.sym.h, r.parts[0]);
      if who.None? then v.None?
      else
        v.Some? && v.value == Progress(r.party.(rs := who.value, sym := v.value.party.sym), r.parts[1..])
        && View(v.value.party.sym) == MixHash(c, k.sym, r.parts[0])
  {
    Opens(c, r.party.sym, k, r.parts[0]);
    hide DecryptAndHash;
  }

  // The shared secret kept for a peer stands for the exchange of the two static keys.
  lemma KeptSecret(c: Crypto, s: Sym, private: Bytes, public: Bytes)
    requires Sound(c)
    ensures MixPrecomputed(c, s, Precomputed(c, private, public)) == MixDh(c, s, private, public)
  {
  }

  // e, then an exchange.
  lemma WritesTwo(c: Crypto, w: Progress, t: Token, s: Sym)
    requires Fixed(c.hash) && (t.EE? || t.ES? || t.SE? || t.SS?) && View(w.party.sym) == s
    ensures var v := Then(c, Then(c, Some(w), E, true), t, true);
      var e, shared := c.pub(w.party.e), Exchanged(c, w.party, t);
      if e.None? || shared.None? then v.None?
      else
        v.Some? && v.value == Progress(w.party.(sym := v.value.party.sym), w.parts + [e.value])
        && Holds(v.value.party.sym, MixKey(c, Ephemeral(c, s, e.value), shared.value))
  {
    WritesE(c, w);
    var v := Then(c, Some(w), E, true);
    hide WriteToken, MixKey, Ephemeral, View, Holds;
    if v.Some? {
      Exchanges(c, v.value, t, true);
      assert Exchanged(c, v.value.party, t) == Exchanged(c, w.party, t);
    }
  }

  // s, then the exchange of the static keys.
  lemma WritesStatic(c: Crypto, w: Progress, k: Keyed)
    requires Sound(c) && Holds(w.party.sym, k) && c.pub(w.party.s).Some?
    ensures var v, text := Then(c, Then(c, Some(w), S, true), SS, true), Encrypt(c, k, c.pub(w.party.s).value);
      var ss := MixPrecomputed(c, MixHash(c, k.sym, text), Precomputed(c, w.party.s, w.party.rs));
      if ss.None? then v.None?
      else
        v.Some? && v.value == Progress(w.party.(sym := v.value.party.sym), w.parts + [text])
        && Holds(v.value.party.sym, ss.value)
  {
    WritesS(c, w, k);
    assert Fixed(c.hash);
    var v := Then(c, Some(w), S, true);
    Exchanges(c, v.value, SS, true);
    KeptSecret(c, View(v.value.party.sym), w.party.s, w.party.rs);
    hide WriteToken, MixKey, View, Holds, Sound, Encrypt, MixHash, Precomputed, MixPrecomputed;
  }

  lemma Payload(c: Crypto, p: Party, ts: seq<Token>, payload: Bytes, w: Progress, k: Keyed)
    requires Tokens(c, Progress(p, []), ts, true) == Some(w) && Holds(w.party.sym, k)
    ensures var v, text := WriteMessage(c, p, ts, payload), Encrypt(c, k, payload);
      v.Some? && v.value == Progress(w.party.(sym := v.value.party.sym), w.parts + [text])
      && View(v.value.party.sym) == MixHash(c, k.sym, text)
  {
    Seals(c, w.party.sym, k, payload);
    hide EncryptAndHash, Tokens, Encrypt;
  }

  // What the initiator makes of the first message is what the framework writes.
  lemma InitiateIs(c: Crypto, n: Names, p: Party, timestamp: Bytes, index: nat)
    requires Sound(c) && p.initiator && c.pub(p.s).Some? && p.sym == Prepared(c, n, p.rs)
    ensures var made := Initiate(c, n, c.pub(p.s).value, p.rs, Precomputed(c, p.s, p.rs), p.e, timestamp, index);
      var w := WriteMessage(c, p, FIRST, timestamp);
      if made.None? then w.None?
      else
        var m := made.value.message;
        w.Some? && w.value == Progress(p.(sym := w.value.party.sym), [] + [m.ephemeral] + [m.identity] + [m.timestamp])
        && View(w.value.party.sym) == made.value.sym && m.sender == index
  {
    var w0 := Progress(p, []);
    var s := Start(c, n.construction, n.identifier, p.rs);
    FourTokens(c, w0, E, ES, S, SS, true);
    StartIs(c, n, p.rs);
    assert Fixed(c.hash);
    WritesTwo(c, w0, ES, s);
    hide Tokens, WriteToken, Then, MixKey, Ephemeral, Start, View, Precomputed, MixPrecomputed, Sound, Encrypt, MixHash;
    var w2 := Then(c, Then(c, Some(w0), E, true), ES, true);
    if w2.None? {
      ThenNone(c, S, true);
      ThenNone(c, SS, true);
    } else {
      var es := MixKey(c, Ephemeral(c, s, c.pub(p.e).value), c.dh(p.e, p.rs).value);
      WritesStatic(c, w2.value, es);
      var w4 := Then(c, Then(c, w2, S, true), SS, true);
      var ss := MixPrecomputed(c, MixHash(c, es.sym, Encrypt(c, es, c.pub(p.s).value)), Precomputed(c, p.s, p.rs));
      if w4.Some? { Payload(c, p, FIRST, timestamp, w4.value, ss.value); }
    }
  }

  lemma ThenNone(c: Crypto, t: Token, writing: bool)
    ensures Then(c, None, t, writing) == None
  {
  }

  // The responder's second message too.
  lemma RespondIs(c: Crypto, p: Party, s: Sym, index: nat, remoteIndex: nat)
    requires Sound(c) && !p.initiator && View(p.sym) == s
    ensures var made := Respond(c, s, p.re, p.rs, p.psk, p.e, index, remoteIndex);
      var w := WriteMessage(c, p, SECOND, []);
      if made.None? then w.None?
      else
        var m := made.value.message;
        w.Some? && w.value == Progress(p.(sym := w.value.party.sym), [] + [m.ephemeral] + [m.nothing])
        && View(w.value.party.sym) == made.value.sym && m.sender == index && m.receiver == remoteIndex
  {
    var w0 := Progress(p, []);
    FourTokens(c, w0, E, EE, SE, PSK, true);
    assert Fixed(c.hash);
    WritesTwo(c, w0, EE, s);
    hide Tokens, WriteToken, Then, MixKey, MixPsk, Ephemeral, View, Sound, Encrypt, MixHash;
    var w2 := Then(c, Then(c, Some(w0), E, true), EE, true);
    if w2.None? {
      ThenNone(c, SE, true);
      ThenNone(c, PSK, true);
    } else {
      var ee := MixKey(c, Ephemeral(c, s, c.pub(p.e).value), c.dh(p.e, p.re).value);
      SecondKeyed(c, w2.value, ee, true);
      var w4 := Then(c, Then(c, w2, SE, true), PSK, true);
      if w4.Some? {
        var se := MixKey(c, ee.sym, c.dh(p.e, p.rs).value);
        Payload(c, p, SECOND, [], w4.value, MixPsk(c, se.sym, p.psk));
      }
    }
  }

  // se and psk, on either side.
  lemma SecondKeyed(c: Crypto, w: Progress, ee: Keyed, writing: bool)
    requires Fixed(c.hash) && Holds(w.party.sym, ee)
    ensures var v, shared := Then(c, Then(c, Some(w), SE, writing), PSK, writing), Exchanged(c, w.party, SE);
      if shared.None? then v.None?
      else
        v.Some? && v.value == Progress(w.party.(sym := v.value.party.sym), w.parts)
        && Holds(v.value.party.sym, MixPsk(c, MixKey(c, ee.sym, shared.value).sym, w.party.psk))
  {
    assert View(w.party.sym) == ee.sym;
    Exchanges(c, w, SE, writing);
    var v := Then(c, Some(w), SE, writing);
    if v.None? {
      ThenNone(c, PSK, writing);
    } else {
      assert View(v.value.party.sym) == MixKey(c, ee.sym, Exchanged(c, w.party, SE).value).sym;
      hide Then, MixKey, MixPsk, View, Exchanged, Holds;
      MixesPsk(c, v.value, writing);
      ThenAgain(c, v, PSK, writing);
    }
  }

  lemma ThenAgain(c: Crypto, v: Option<Progress>, t: Token, writing: bool)
    requires v.Some?
    ensures Then(c, v, t, writing) == Then(c, Some(v.value), t, writing)
  {
  }

  // e and an exchange, read.
  lemma ReadsTwo(c: Crypto, r: Progress, t: Token, s: Sym, e: Bytes)
    requires Fixed(c.hash) && (t.EE? || t.ES? || t.SE? || t.SS?) && View(r.party.sym) == s && r.parts != []
      && r.parts[0] == e
    ensures var v := Then(c, Then(c, Some(r), E, false), t, false);
      var shared := Exchanged(c, r.party.(re := e), t);
      if shared.None? then v.None?
      else
        v.Some? && v.value == Progress(r.party.(re := e, sym := v.value.party.sym), r.parts[1..])
        && Holds(v.value.party.sym, MixKey(c, Ephemeral(c, s, e), shared.value))
  {
    ReadsE(c, r);
    var v := Then(c, Some(r), E, false);
    hide ReadToken, MixKey, Ephemeral, View, Holds;
    Exchanges(c, v.value, t, false);
    assert Exchanged(c, v.value.party, t) == Exchanged(c, r.party.(re := e), t);
  }

  // s and the exchange of the static keys, read.
  lemma ReadsStatic(c: Crypto, r: Progress, k: Keyed)
    requires Sound(c) && Holds(r.party.sym, k) && r.parts != []
    ensures var v, who := Then(c, Then(c, Some(r), S, false), SS, false), c.open(k.key, k.sym.h, r.parts[0]);
      if who.None? then v.None?
      else
        var ss := MixPrecomputed(c, MixHash(c, k.sym, r.parts[0]), Precomputed(c, r.party.s, who.value));
        if ss.None? then v.None?
        else
          v.Some? && v.value == Progress(r.party.(rs := who.value, sym := v.value.party.sym), r.parts[1..])
          && Holds(v.value.party.sym, ss.value)
  {
    ReadsS(c, r, k);
    assert Fixed(c.hash);
    var v := Then(c, Some(r), S, false);
    hide ReadToken, MixKey, View, Holds, MixHash, Precomputed, MixPrecomputed;
    if v.None? {
      ThenNone(c, SS, false);
    } else {
      Exchanges(c, v.value, SS, false);
      KeptSecret(c, View(v.value.party.sym), v.value.party.s, v.value.party.rs);
    }
  }

  lemma PayloadRead(c: Crypto, p: Party, ts: seq<Token>, parts: seq<Bytes>, r: Progress, k: Keyed, text: Bytes)
    requires Tokens(c, Progress(p, parts), ts, false) == Some(r) && Holds(r.party.sym, k) && r.parts == [text]
    ensures var v, plain := ReadMessage(c, p, ts, parts), c.open(k.key, k.sym.h, text);
      if plain.None? then v.None?
      else
        v.Some? && v.value.0 == r.party.(sym := v.value.0.sym) && v.value.1 == plain.value
        && View(v.value.0.sym) == MixHash(c, k.sym, text)
  {
    Opens(c, r.party.sym, k, text);
    hide DecryptAndHash, Tokens;
  }

  // The initiator's reading of the second message.
  lemma SecondRead(c: Crypto, p: Party, s: Sym, m: Response) returns (r4: Option<Progress>, k: Option<Keyed>)
    requires Sound(c) && p.initiator && View(p.sym) == s
    ensures var ee := MixDh(c, Ephemeral(c, s, m.ephemeral), p.e, m.ephemeral);
      k == if ee.None? then None
           else
             var se := MixDh(c, ee.value.sym, p.s, m.ephemeral);
             if se.None? then None else Some(MixPsk(c, se.value.sym, p.psk))
    ensures Tokens(c, Progress(p, [m.ephemeral] + [m.nothing]), SECOND, false) == r4
    ensures if k.None? then r4.None?
      else r4.Some? && Holds(r4.value.party.sym, k.value) && r4.value.parts == [m.nothing]
  {
    var parts := [m.ephemeral] + [m.nothing];
    var r0 := Progress(p, parts);
    FourTokens(c, r0, E, EE, SE, PSK, false);
    assert Fixed(c.hash) && parts[0] == m.ephemeral && parts[1..] == [m.nothing];
    ReadsTwo(c, r0, EE, s, m.ephemeral);
    hide Tokens, ReadToken, Then, MixKey, MixPsk, Ephemeral, View, Sound, Holds;
    var r2 := Then(c, Then(c, Some(r0), E, false), EE, false);
    if r2.None? {
      ThenNone(c, SE, false);
      ThenNone(c, PSK, false);
      return None, None;
    }
    var ee := MixKey(c, Ephemeral(c, s, m.ephemeral), c.dh(p.e, m.ephemeral).value);
    SecondKeyed(c, r2.value, ee, false);
    r4 := Then(c, Then(c, r2, SE, false), PSK, false);
    k := if r4.None? then None else Some(MixPsk(c, MixKey(c, ee.sym, c.dh(p.s, m.ephemeral).value).sym, p.psk));
  }

  lemma ConcludeIs(c: Crypto, p: Party, s: Sym, m: Response)
    requires Sound(c) && p.initiator && View(p.sym) == s
    ensures var done := Conclude(c, s, p.e, p.s, p.psk, m);
      var r := ReadMessage(c, p, SECOND, [m.ephemeral] + [m.nothing]);
      if done.None? then r.None? else r.Some? && View(r.value.0.sym) == done.value
  {
    hide Tokens, MixPsk, Ephemeral, View, Sound, MixHash, MixDh, Holds;
    var r4, k := SecondRead(c, p, s, m);
    if k.Some? { PayloadRead(c, p, SECOND, [m.ephemeral] + [m.nothing], r4.value, k.value, m.nothing); }
  }

  // The responder's reading of the first message, whoever sent it.
  lemma NameIs(c: Crypto, p: Party, s: Sym, m: Initiation) returns (r2: Option<Progress>, es: Option<Keyed>)
    requires Sound(c) && !p.initiator && View(p.sym) == s
    ensures es == MixDh(c, Ephemeral(c, s, m.ephemeral), p.s, m.ephemeral)
    ensures var parts := [m.ephemeral] + [m.identity] + [m.timestamp];
      Tokens(c, Progress(p, parts), FIRST, false) == Then(c, Then(c, r2, S, false), SS, false)
    ensures if es.None? then r2.None?
      else
        r2.Some? && Holds(r2.value.party.sym, es.value)
        && r2.value == Progress(p.(re := m.ephemeral, sym := r2.value.party.sym), [m.identity] + [m.timestamp])
  {
    var parts := [m.ephemeral] + [m.identity] + [m.timestamp];
    var r0 := Progress(p, parts);
    FourTokens(c, r0, E, ES, S, SS, false);
    assert Fixed(c.hash) && parts[0] == m.ephemeral && parts[1..] == [m.identity] + [m.timestamp];
    ReadsTwo(c, r0, ES, s, m.ephemeral);
    hide Tokens, ReadToken, Then, MixKey, Ephemeral, View, Sound;
    r2 := Then(c, Then(c, Some(r0), E, false), ES, false);
    es := MixDh(c, Ephemeral(c, s, m.ephemeral), p.s, m.ephemeral);
  }

  lemma ListenIs(c: Crypto, p: Party, r2: Progress, es: Keyed, m: Initiation)
    requires Sound(c) && !p.initiator && Holds(r2.party.sym, es)
    requires r2 == Progress(p.(re := m.ephemeral, sym := r2.party.sym), [m.identity] + [m.timestamp])
    requires var parts := [m.ephemeral] + [m.identity] + [m.timestamp];
      Tokens(c, Progress(p, parts), FIRST, false) == Then(c, Then(c, Some(r2), S, false), SS, false)
    ensures var r, who := ReadMessage(c, p, FIRST, [m.ephemeral] + [m.identity] + [m.timestamp]),
                          c.open(es.key, es.sym.h, m.identity);
      if who.None? then r.None?
      else
        var heard := Listen(c, Caller(who.value, MixHash(c, es.sym, m.identity)), Precomputed(c, p.s, who.value), m);
        if heard.None? then r.None?
        else
          r.Some? && r.value.0 == p.(re := m.ephemeral, rs := who.value, sym := r.value.0.sym)
          && r.value.1 == heard.value.timestamp && View(r.value.0.sym) == heard.value.sym
          && heard.value.identity == who.value
  {
    hide Tokens, ReadToken, Then, MixKey, View, MixHash, Precomputed, Sound, MixPrecomputed;
    var parts := [m.ephemeral] + [m.identity] + [m.timestamp];
    assert r2.parts[0] == m.identity && r2.parts[1..] == [m.timestamp];
    ReadsStatic(c, r2, es);
    var r4 := Then(c, Then(c, Some(r2), S, false), SS, false);
    if r4.Some? {
      var who := c.open(es.key, es.sym.h, m.identity).value;
      var ss := MixPrecomputed(c, MixHash(c, es.sym, m.identity), Precomputed(c, p.s, who));
      PayloadRead(c, p, FIRST, parts, r4.value, ss.value, m.timestamp);
    }
  }

  // And among the peers it knows.
  lemma HearIs(c: Crypto, n: Names, p: Party, public: Bytes, secrets: map<Bytes, Bytes>, m: Initiation)
    requires Sound(c) && !p.initiator && p.sym == Prepared(c, n, public)
    requires forall k | k in secrets :: secrets[k] == Precomputed(c, p.s, k)
    ensures var heard := Hear(c, n, p.s, public, secrets, m);
      var r := ReadMessage(c, p, FIRST, [m.ephemeral] + [m.identity] + [m.timestamp]);
      if heard.None? then r.None? || r.value.0.rs !in secrets
      else
        r.Some? && r.value.0 == p.(re := m.ephemeral, rs := heard.value.identity, sym := r.value.0.sym)
        && heard.value.identity in secrets && r.value.1 == heard.value.timestamp
        && View(r.value.0.sym) == heard.value.sym
  {
    StartIs(c, n, public);
    hide Tokens, Then, Ephemeral, Start, View, MixHash, Precomputed, Listen, Holds, MixDh, Sound, Prepared;
    var s := Start(c, n.construction, n.identifier, public);
    var r2, es := NameIs(c, p, s, m);
    if es.None? {
      ThenNone(c, S, false);
      ThenNone(c, SS, false);
    } else {
      ListenIs(c, p, r2.value, es.value, m);
    }
  }

  // ---------------------------------------------------------------- the whole handshake

  // The responder's answer, read by the initiator.
  function Answered(c: Crypto, r: Party, i: Party): Option<(Keys, Keys)> {
    match WriteMessage(c, r, SECOND, [])
    case None => None
    case Some(two) =>
      match ReadMessage(c, i, SECOND, two.parts)
      case None => None
      case Some(end) =>
        var a, b := Split(c, end.0.sym.ck), Split(c, two.party.sym.ck);
        Some((Keys(a.0, a.1), Keys(b.1, b.0)))
  }

  // Both parties carry out the pattern; the responder answers the one it knows.
  function Conducted(c: Crypto, n: Names, i: Party, r: Party, known: Bytes, timestamp: Bytes): Option<(Keys, Keys)> {
    match WriteMessage(c, i, FIRST, timestamp)
    case None => None
    case Some(one) =>
      match ReadMessage(c, r, FIRST, one.parts)
      case None => None
      case Some(read) => if read.0.rs != known then None else Answered(c, read.0, one.party)
  }

  lemma EndsSplit(c: Crypto, a: Symmetric, b: Symmetric)
    requires Fixed(c.hash)
    ensures SessionKeys(c, View(a).ck, true) == Keys(Split(c, a.ck).0, Split(c, a.ck).1)
    ensures SessionKeys(c, View(b).ck, false) == Keys(Split(c, b.ck).1, Split(c, b.ck).0)
  {
    SessionKeysAre(c, a.ck);
    SessionKeysAre(c, b.ck);
  }

  lemma AnsweredIs(c: Crypto, r: Party, i: Party, index: nat, remoteIndex: nat)
    requires Sound(c) && !r.initiator && i.initiator
    ensures Answered(c, r, i)
      == match Respond(c, View(r.sym), r.re, r.rs, r.psk, r.e, index, remoteIndex)
         case None => None
         case Some(two) =>
           match Conclude(c, View(i.sym), i.e, i.s, i.psk, two.message)
           case None => None
           case Some(s) => Some((SessionKeys(c, s.ck, true), SessionKeys(c, two.sym.ck, false)))
  {
    RespondIs(c, r, View(r.sym), index, remoteIndex);
    assert Fixed(c.hash);
    hide WriteMessage, ReadMessage, Respond, Conclude, SessionKeys, Split, View;
    var two := Respond(c, View(r.sym), r.re, r.rs, r.psk, r.e, index, remoteIndex);
    if two.Some? {
      var a := two.value.message;
      assert [] + [a.ephemeral] + [a.nothing] == [a.ephemeral] + [a.nothing];
      ConcludeIs(c, i, View(i.sym), a);
      var read := ReadMessage(c, i, SECOND, [a.ephemeral] + [a.nothing]);
      if read.Some? { EndsSplit(c, read.value.0.sym, WriteMessage(c, r, SECOND, []).value.party.sym); }
    }
  }

  // The exchange of the tunnel is the framework's handshake IKpsk2, messages, keys and failures.
  lemma HonestIs(c: Crypto, n: Names, i: Party, r: Party, timestamp: Bytes, index: nat, remoteIndex: nat)
    requires Sound(c) && i.initiator && !r.initiator && c.pub(i.s).Some? && c.pub(r.s).Some? && i.psk == r.psk
    requires i.rs == c.pub(r.s).value && i.sym == r.sym == Prepared(c, n, i.rs)
    ensures Honest(c, n, i.s, r.s, i.e, r.e, i.psk, timestamp, index, remoteIndex)
      == Conducted(c, n, i, r, c.pub(i.s).value, timestamp)
  {
    hide WriteMessage, ReadMessage, Initiate, Hear, Respond, Conclude, Precomputed, SessionKeys, Prepared, View,
      Answered, Sound;
    var pi, pr := c.pub(i.s).value, i.rs;
    var secrets := map[pi := Precomputed(c, r.s, pi)];
    var one := Initiate(c, n, pi, pr, Precomputed(c, i.s, pr), i.e, timestamp, index);
    InitiateIs(c, n, i, timestamp, index);
    if one.Some? {
      var m := one.value.message;
      HearIs(c, n, r, pr, secrets, m);
      assert [] + [m.ephemeral] + [m.identity] + [m.timestamp] == [m.ephemeral] + [m.identity] + [m.timestamp];
      var heard := Hear(c, n, r.s, pr, secrets, m);
      if heard.Some? {
        var q := ReadMessage(c, r, FIRST, [m.ephemeral] + [m.identity] + [m.timestamp]).value.0;
        AnsweredIs(c, q, WriteMessage(c, i, FIRST, timestamp).value.party, remoteIndex, m.sender);
      }
    }
  }
}
