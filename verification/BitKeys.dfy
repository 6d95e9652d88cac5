/** Addresses as bit strings, and how many leading bits two of them share. */
module BitKeys {
  // An address is its bits, most significant first.
  type Key = seq<bool>

  // Position, counted from 1 at the least significant end, of the highest set bit; 0 when none is set.
  function Fls(x: Key): (r: nat)
    ensures r <= |x|
  {
    if |x| == 0 then 0 else if x[0] then |x| else Fls(x[1..])
  }

  function Xor(a: Key, b: Key): (r: Key)
    requires |a| == |b|
    ensures |r| == |a|
    ensures forall i | 0 <= i < |r| :: r[i] == (a[i] != b[i])
  {
    seq(|a|, i requires 0 <= i < |a| => a[i] != b[i])
  }

  // The two-word form used for IPv6: look at the low word only when the high word is clear.
  function Fls128(high: Key, low: Key): nat
    requires |high| == |low| == 64
  {
    if Fls(high) != 0 then Fls(high) + 64 else Fls(low)
  }

  function CommonBits(a: Key, b: Key): (r: nat)
    requires |a| == |b| && (|a| == 32 || |a| == 128)
  {
    if |a| == 32 then 32 - Fls(Xor(a, b))
    else 128 - Fls128(Xor(a[..64], b[..64]), Xor(a[64..], b[64..]))
  }

  lemma {:induction false} FlsSpec(x: Key)
    ensures forall i | 0 <= i < |x| - Fls(x) :: !x[i]
    ensures Fls(x) > 0 ==> x[|x| - Fls(x)]
  {
    if |x| > 0 && !x[0] {
      FlsSpec(x[1..]);
      forall i | 0 <= i < |x| - Fls(x) ensures !x[i] {
        if i > 0 { assert !x[1..][i - 1]; }
      }
      if Fls(x) > 0 { assert x[1..][|x[1..]| - Fls(x)]; }
    }
  }

  lemma CommonBitsSpec(a: Key, b: Key)
    requires |a| == |b| && (|a| == 32 || |a| == 128)
    ensures CommonBits(a, b) <= |a|
    ensures a[..CommonBits(a, b)] == b[..CommonBits(a, b)]
    ensures CommonBits(a, b) < |a| ==> a[CommonBits(a, b)] != b[CommonBits(a, b)]
  {
    var c := CommonBits(a, b);
    if |a| == 32 {
      FlsSpec(Xor(a, b));
    } else {
      var hi, lo := Xor(a[..64], b[..64]), Xor(a[64..], b[64..]);
      FlsSpec(hi);
      FlsSpec(lo);
      assert forall i | 0 <= i < 64 :: hi[i] == (a[i] != b[i]);
      assert forall i | 64 <= i < 128 :: lo[i - 64] == (a[i] != b[i]);
    }
    forall i | 0 <= i < c ensures a[i] == b[i] {
      if |a| == 32 { assert !Xor(a, b)[i]; }
    }
  }

  // A prefix of length n matches exactly when the common bits reach n.
  lemma CommonBitsIff(a: Key, b: Key, n: nat)
    requires |a| == |b| && (|a| == 32 || |a| == 128) && n <= |a|
    ensures CommonBits(a, b) >= n <==> a[..n] == b[..n]
  {
    CommonBitsSpec(a, b);
    var c := CommonBits(a, b);
    if c >= n {
      assert a[..n] == a[..c][..n] == b[..c][..n] == b[..n];
    } else {
      assert a[..n][c] != b[..n][c];
    }
  }

  // ---------------------------------------------------------------- host byte order

  // The code keeps addresses as host-order words, one of 32 bits or two of 64, and picks a bit by byte and shift.
  type Octet = o: seq<bool> | |o| == 8 witness seq(8, _ => false)

  function NetworkOctet(key: Key, i: nat): Octet
    requires 8 * i + 8 <= |key|
  {
    key[8 * i..8 * i + 8]
  }

  // On a little-endian host the octets of each word are stored last first.
  function Stored(i: nat, bits: nat): nat
    requires (bits == 32 || bits == 128) && 8 * i < bits
  {
    if bits == 32 then 3 - i else if i < 8 then 7 - i else 23 - i
  }

  function HostOctet(key: Key, i: nat): Octet
    requires (|key| == 32 || |key| == 128) && 8 * i < |key|
  {
    NetworkOctet(key, Stored(i, |key|))
  }

  function BitAtA(cidr: nat, bits: nat): nat
    requires cidr < bits && (bits == 32 || bits == 128)
  {
    ((cidr / 8) as bv8 ^ ((bits / 8 - 1) % 8) as bv8) as nat
  }

  function BitAtB(cidr: nat): nat {
    7 - cidr % 8
  }

  // Shifting right by b and masking leaves the bit b places from the low end.
  function Shifted(o: Octet, b: nat): bool
    requires b < 8
  {
    o[7 - b]
  }

  lemma FlippedIndex(cidr: nat, bits: nat)
    requires cidr < bits && (bits == 32 || bits == 128)
    ensures BitAtA(cidr, bits) == Stored(cidr / 8, bits)
  {
    FlippedOctet(cidr / 8, bits);
  }

  lemma FlippedOctet(i: nat, bits: nat)
    requires (bits == 32 || bits == 128) && 8 * i < bits
    ensures (i as bv8 ^ ((bits / 8 - 1) % 8) as bv8) as nat == Stored(i, bits)
  {
  }

  // The bit of a key that byte a, shifted right by b, leaves.
  predicate NextBit(key: Key, a: nat, b: nat)
    requires (|key| == 32 || |key| == 128) && 8 * a < |key| && b < 8
  {
    Shifted(HostOctet(key, a), b)
  }

  // The byte and shift remembered in a node pick the bit of the key that follows its prefix.
  lemma ChoosesNextBit(key: Key, cidr: nat)
    requires (|key| == 32 || |key| == 128) && cidr < |key|
    ensures 8 * BitAtA(cidr, |key|) < |key| && NextBit(key, BitAtA(cidr, |key|), BitAtB(cidr)) == key[cidr]
  {
    hide BitAtA;
    FlippedIndex(cidr, |key|);
    var i := cidr / 8;
    assert HostOctet(key, Stored(i, |key|)) == NetworkOctet(key, i);
    assert NetworkOctet(key, i)[cidr % 8] == key[8 * i + cidr % 8];
  }
}
