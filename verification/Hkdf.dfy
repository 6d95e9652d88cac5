/** HMAC and the key derivation built on it, with the hash left abstract. */
module Hkdf {

  type Bytes = seq<bv8>
  type Hash = Bytes -> Bytes

  const BLOCK := 64
  const HASH_LEN := 32

  ghost predicate Fixed(h: Hash) {
    forall x :: |h(x)| == HASH_LEN
  }

  // ---------------------------------------------------------------- the references

  function Zeros(n: nat): Bytes {
    seq(n, _ => 0)
  }

  function Padded(h: Hash, key: Bytes): Bytes {
    var k := if |key| > BLOCK then h(key) else key;
    k + Zeros(if |k| < BLOCK then BLOCK - |k| else 0)
  }

  function XorAll(bs: Bytes, mask: bv8): Bytes {
    seq(|bs|, i requires 0 <= i < |bs| => bs[i] ^ mask)
  }

  // HMAC as RFC 2104, section 2, defines it.
  function Hmac(h: Hash, key: Bytes, text: Bytes): Bytes {
    h(XorAll(Padded(h, key), 0x5c) + h(XorAll(Padded(h, key), 0x36) + text))
  }

  // Section 2.2 of RFC 5869: the salt is the chaining key.
  function Extract(h: Hash, salt: Bytes, ikm: Bytes): Bytes {
    Hmac(h, salt, ikm)
  }

  // Section 2.3 of RFC 5869 with an empty info: T(i) = HMAC(PRK, T(i - 1) | i).
  function T(h: Hash, prk: Bytes, i: nat): Bytes
    requires i <= 255
  {
    if i == 0 then [] else Hmac(h, prk, T(h, prk, i - 1) + [i as bv8])
  }

  function Blocks(h: Hash, prk: Bytes, n: nat): Bytes
    requires n <= 255
  {
    if n == 0 then [] else Blocks(h, prk, n - 1) + T(h, prk, n)
  }

  // The first length octets of T(1) | T(2) | ... for as many blocks as it takes.
  function Expand(h: Hash, prk: Bytes, length: nat): Bytes
    requires (length + HASH_LEN - 1) / HASH_LEN <= 255
  {
    var okm := Blocks(h, prk, (length + HASH_LEN - 1) / HASH_LEN);
    if length <= |okm| then okm[..length] else okm
  }

  // ---------------------------------------------------------------- the code

  method XorInto(buffer: array<bv8>, mask: bv8)
    modifies buffer
    ensures buffer[..] == XorAll(old(buffer[..]), mask)
  {
    for i := 0 to buffer.Length
      invariant forall j | 0 <= j < buffer.Length :: buffer[j] == if j < i then old(buffer[j]) ^ mask
        else old(buffer[j])
    {
      buffer[i] := buffer[i] ^ mask;
    }
  }

  method PadKey(h: Hash, key: Bytes) returns (xkey: array<bv8>)
    requires Fixed(h)
    ensures fresh(xkey) && xkey[..] == Padded(h, key)
  {
    xkey := new bv8[BLOCK](_ => 0);
    var start := if |key| > BLOCK then h(key) else key;
    for i := 0 to |start|
      invariant forall j | 0 <= j < BLOCK :: xkey[j] == if j < i then start[j] else 0
    {
      xkey[i] := start[i];
    }
  }

  method ComputeHmac(h: Hash, text: Bytes, key: Bytes) returns (out: Bytes)
    requires Fixed(h)
    ensures out == Hmac(h, key, text)
  {
    var xkey := PadKey(h, key);
    hide Padded, XorAll;
    XorInto(xkey, 0x36);
    var ihash := h(xkey[..] + text);
    FlipAll(Padded(h, key));
    XorInto(xkey, 0x5c ^ 0x36);
    ihash := h(xkey[..] + ihash);
    out := ihash;
  }

  // Going from one mask to the other in one pass.
  lemma FlipAll(bs: Bytes)
    ensures XorAll(XorAll(bs, 0x36), 0x5c ^ 0x36) == XorAll(bs, 0x5c)
  {
    forall i | 0 <= i < |bs| ensures (bs[i] ^ 0x36) ^ (0x5c ^ 0x36) == bs[i] ^ 0x5c { Flip(bs[i]); }
  }

  lemma Flip(b: bv8)
    ensures (b ^ 0x36) ^ (0x5c ^ 0x36) == b ^ 0x5c
  {
  }

  lemma FirstBlocks(h: Hash, prk: Bytes)
    requires Fixed(h)
    ensures T(h, prk, 1) == Hmac(h, prk, [1]) && T(h, prk, 2) == Hmac(h, prk, T(h, prk, 1) + [2])
    ensures T(h, prk, 3) == Hmac(h, prk, T(h, prk, 2) + [3])
    ensures |T(h, prk, 1)| == |T(h, prk, 2)| == |T(h, prk, 3)| == HASH_LEN
  {
    hide Hmac;
    assert T(h, prk, 0) + [1] == [1];
    HmacLength(h, prk, [1]);
    HmacLength(h, prk, T(h, prk, 1) + [2]);
    HmacLength(h, prk, T(h, prk, 2) + [3]);
  }

  lemma HmacLength(h: Hash, key: Bytes, text: Bytes)
    requires Fixed(h)
    ensures |Hmac(h, key, text)| == HASH_LEN
  {
  }

  // The beginning of block i.
  function Part(h: Hash, prk: Bytes, i: nat, len: nat): Bytes
    requires i <= 255
  {
    var t := T(h, prk, i);
    if len <= |t| then t[..len] else t
  }

  /** Up to three outputs, one after the other, each of the length asked for; a length of zero stands for no
      destination and ends the derivation. The output buffer is one byte longer than a hash and holds the previous
      block while the next is computed from it. */
  method Derive(h: Hash, data: Bytes, chainingKey: Bytes, firstLen: nat, secondLen: nat, thirdLen: nat)
    returns (first: Bytes, second: Bytes, third: Bytes)
    requires Fixed(h) && firstLen <= HASH_LEN && secondLen <= HASH_LEN && thirdLen <= HASH_LEN
    ensures var prk := Extract(h, chainingKey, data);
      first == Part(h, prk, 1, firstLen)
      && second == (if firstLen > 0 then Part(h, prk, 2, secondLen) else [])
      && third == (if firstLen > 0 && secondLen > 0 then Part(h, prk, 3, thirdLen) else [])
  {
    first, second, third := [], [], [];
    var output := new bv8[HASH_LEN + 1](_ => 0);
    var secret := ComputeHmac(h, data, chainingKey);
    FirstBlocks(h, secret);
    hide Hmac, T;
    if firstLen == 0 { return; }
    output[0] := 1;
    assert output[..1] == [1];
    var block := ComputeHmac(h, output[..1], secret);
    Store(output, block);
    first := output[..HASH_LEN][..firstLen];
    if secondLen == 0 { return; }
    output[HASH_LEN] := 2;
    assert output[..] == block + [2];
    block := ComputeHmac(h, output[..], secret);
    Store(output, block);
    second := output[..HASH_LEN][..secondLen];
    if thirdLen == 0 { return; }
    output[HASH_LEN] := 3;
    assert output[..] == block + [3];
    block := ComputeHmac(h, output[..], secret);
    Store(output, block);
    third := output[..HASH_LEN][..thirdLen];
  }

  function Len(wanted: nat, i: nat): nat {
    if wanted >= i then HASH_LEN else 0
  }

  // As every caller asks: `wanted` whole blocks.
  method Kdf(h: Hash, data: Bytes, chainingKey: Bytes, wanted: nat) returns (first: Bytes, second: Bytes, third: Bytes)
    requires Fixed(h) && wanted <= 3
    ensures var prk := Extract(h, chainingKey, data);
      first == (if wanted >= 1 then T(h, prk, 1) else []) && second == (if wanted >= 2 then T(h, prk, 2) else [])
      && third == (if wanted >= 3 then T(h, prk, 3) else [])
    ensures first + second + third == Expand(h, Extract(h, chainingKey, data), wanted * HASH_LEN)
  {
    ghost var prk := Extract(h, chainingKey, data);
    FirstBlocks(h, prk);
    ExpandBlocks(h, prk, wanted);
    hide Hmac, T, Expand, Blocks, Extract;
    first, second, third := Derive(h, data, chainingKey, Len(wanted, 1), Len(wanted, 2), Len(wanted, 3));
  }

  method Store(output: array<bv8>, block: Bytes)
    requires output.Length == HASH_LEN + 1 && |block| == HASH_LEN
    modifies output
    ensures output[..HASH_LEN] == block && output[HASH_LEN] == old(output[HASH_LEN])
  {
    for i := 0 to HASH_LEN
      invariant output[..i] == block[..i] && output[HASH_LEN] == old(output[HASH_LEN])
    {
      output[i] := block[i];
    }
  }

  lemma ExpandBlocks(h: Hash, prk: Bytes, n: nat)
    requires Fixed(h) && n <= 3
    ensures Expand(h, prk, n * HASH_LEN) == Blocks(h, prk, n) && |Blocks(h, prk, n)| == n * HASH_LEN
    ensures n == 1 ==> Blocks(h, prk, n) == T(h, prk, 1)
    ensures n == 2 ==> Blocks(h, prk, n) == T(h, prk, 1) + T(h, prk, 2)
    ensures n == 3 ==> Blocks(h, prk, n) == T(h, prk, 1) + T(h, prk, 2) + T(h, prk, 3)
  {
    assert (n * HASH_LEN + HASH_LEN - 1) / HASH_LEN == n;
    FirstBlocks(h, prk);
    hide Hmac, T;
    if n > 0 { ExpandBlocks(h, prk, n - 1); }
  }
}
