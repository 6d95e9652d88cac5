/** Header ranges that stand for message types: written and read as text, checked apart, and told apart on receipt. */
module Headers {
  import opened Basics
  import opened Decimals

  const LIMIT := 0x1_0000_0000

  datatype Range = Range(start: nat, end: nat)

  predicate Proper(r: Range) {
    r.start <= r.end < LIMIT
  }

  // ---------------------------------------------------------------- as text

  // kstrtouint: an optional plus sign, digits, and an optional newline; nothing of 2^32 or more.
  function ParseUint(s: string): Option<nat> {
    var a := if s != "" && s[0] == '+' then s[1..] else s;
    var b := if a != "" && a[|a| - 1] == '\n' then a[..|a| - 1] else a;
    if b != "" && (forall c | c in b :: IsDigit(c)) && Value(b) < LIMIT then Some(Value(b)) else None
  }

  function Print(r: Range): string {
    if r.start == r.end then Decimal(r.start) else Decimal(r.start) + "-" + Decimal(r.end)
  }

  function ParseRange(s: string): Option<Range> {
    var i := IndexOf(s, '-');
    var start := ParseUint(s[..i]);
    var end := if i < |s| then ParseUint(s[i + 1..]) else start;
    if start.Some? && end.Some? && start.value <= end.value then Some(Range(start.value, end.value)) else None
  }

  class MagicHeader {
    var start: nat
    var end: nat

    // A missing description is an error; on any error the fields may have been half overwritten.
    method Parse(desc: Option<string>) returns (ok: bool)
      modifies this
      ensures ok == (desc.Some? && ParseRange(desc.value).Some?)
      ensures ok ==> Range(start, end) == ParseRange(desc.value).value
    {
      if desc.None? { return false; }
      var i := IndexOf(desc.value, '-');
      var n := ParseUint(desc.value[..i]);
      if n.None? { return false; }
      start := n.value;
      if i < |desc.value| {
        n := ParseUint(desc.value[i + 1..]);
        if n.None? { return false; }
        end := n.value;
      } else {
        end := start;
      }
      return start <= end;
    }
  }

  lemma ParseDecimal(n: nat)
    requires n < LIMIT
    ensures ParseUint(Decimal(n)) == Some(n)
  {
    var s := Decimal(n);
    ValueOfDecimal(n);
    assert IsDigit(s[0]) && IsDigit(s[|s| - 1]);
  }

  // A plus sign in front and a newline behind are let pass; 2^32 and more are not.
  lemma ParseForms(n: nat)
    ensures ParseUint(Decimal(n)) == (if n < 0x1_0000_0000 then Some(n) else None)
    ensures ParseUint("+" + Decimal(n)) == ParseUint(Decimal(n)) == ParseUint(Decimal(n) + "\n")
  {
    var s := Decimal(n);
    ValueOfDecimal(n);
    assert IsDigit(s[0]) && IsDigit(s[|s| - 1]);
    assert ("+" + s)[1..] == s && (s + "\n")[..|s|] == s;
    hide Decimal, Value;
  }

  // What is printed is read back, for every range.
  lemma RangeRoundTrip(r: Range)
    requires Proper(r)
    ensures ParseRange(Print(r)) == Some(r)
  {
    ParseDecimal(r.start);
    ParseDecimal(r.end);
    var a, b := Decimal(r.start), Decimal(r.end);
    assert '-' !in a;
    hide ParseUint, IndexOf, Decimal;
    if r.start == r.end {
      IndexOfNone(a, '-');
    } else {
      assert Print(r) == a + ['-'] + b;
      IndexOfFirst(a, '-', b);
    }
  }

  // ---------------------------------------------------------------- set apart

  predicate Apart(a: Range, b: Range) {
    b.end < a.start || a.end < b.start
  }

  predicate AllApart(rs: seq<Range>) {
    forall i, j | 0 <= i < j < |rs| :: Apart(rs[i], rs[j])
  }

  method CheckApart(rs: seq<Range>) returns (ok: bool)
    ensures ok <==> AllApart(rs)
  {
    for i := 0 to |rs|
      invariant forall a, b | 0 <= a < i && a < b < |rs| :: Apart(rs[a], rs[b])
    {
      for j := i + 1 to |rs|
        invariant forall b | i < b < j :: Apart(rs[i], rs[b])
      {
        if !(rs[j].end < rs[i].start || rs[i].end < rs[j].start) { return false; }
      }
    }
    return true;
  }

  // ---------------------------------------------------------------- told apart

  function Word(p: seq<byte>, at: nat): nat
    requires at + 4 <= |p|
  {
    p[at] as nat + 0x100 * p[at + 1] as nat + 0x1_0000 * p[at + 2] as nat + 0x100_0000 * p[at + 3] as nat
  }

  // The low byte comes first: the classic header 1 is a 1 and three zeros.
  lemma LowByteFirst(w: nat, at: nat, p: seq<byte>)
    requires at + 4 <= |p| && w < 0x100 && p[at] as nat == w && p[at + 1] == p[at + 2] == p[at + 3] == 0
    ensures Word(p, at) == w
  {
  }

  predicate In(w: nat, r: Range) {
    r.start <= w <= r.end
  }

  // Initiation, response, cookie reply, transport: the junk in front, and the header of each.
  const TYPES := 4
  const TRANSPORT := 3
  const COOKIE := 2
  const MESSAGE_HANDSHAKE_COOKIE := 3

  function Size(t: nat): nat
    requires t < TYPES
  {
    if t == 0 then 148 else if t == 1 then 92 else if t == COOKIE then 64 else 16
  }

  datatype Config = Config(junk: seq<nat>, headers: seq<Range>)

  predicate Configured(c: Config) {
    |c.junk| == TYPES && |c.headers| == TYPES
  }

  predicate Fits(c: Config, p: seq<byte>, t: nat)
    requires Configured(c) && t < TYPES
  {
    if t == TRANSPORT then |p| >= c.junk[t] + Size(t) else |p| == c.junk[t] + Size(t)
  }

  predicate Matches(c: Config, p: seq<byte>, t: nat)
    requires Configured(c) && t < TYPES
  {
    Fits(c, p, t) && In(Word(p, c.junk[t]), c.headers[t])
  }

  // A packet is taken for type t when it matches t and none of the types tried before.
  predicate TakenFor(c: Config, p: seq<byte>, t: nat)
    requires Configured(c) && t < TYPES
  {
    Matches(c, p, t) && forall u: nat | u < t :: !Matches(c, p, u)
  }

  class Packet {
    const bytes: seq<byte>
    var offset: nat

    predicate Valid()
      reads this
    {
      offset <= |bytes|
    }

    function Rest(): seq<byte>
      requires Valid()
      reads this
    {
      bytes[offset..]
    }

    // One type tried: the junk is skipped, and put back if the header is not the type's.
    method Try(c: Config, t: nat) returns (ok: bool)
      requires Valid() && Configured(c) && t < TYPES
      modifies this
      ensures Valid() && ok == Matches(c, old(Rest()), t) && offset == old(offset) + if ok then c.junk[t] else 0
    {
      var len := |bytes| - offset;
      if !(if t == TRANSPORT then len >= c.junk[t] + Size(t) else len == c.junk[t] + Size(t)) { return false; }
      offset := offset + c.junk[t];
      ok := In(Word(bytes, offset), c.headers[t]);
      assert Word(bytes, offset) == Word(old(Rest()), c.junk[t]);
      if !ok { offset := offset - c.junk[t]; }
    }

    // For a cookie reply the code returns the type's number where the others return the size.
    method Prepare(c: Config) returns (headerLen: nat)
      requires Valid() && Configured(c)
      modifies this
      ensures Valid()
      ensures headerLen == 0 <==> forall t: nat | t < TYPES :: !Matches(c, old(Rest()), t)
      ensures headerLen == 0 ==> offset == old(offset)
      ensures forall t: nat | t < TYPES && TakenFor(c, old(Rest()), t) ::
        offset == old(offset) + c.junk[t] && headerLen == if t == COOKIE then MESSAGE_HANDSHAKE_COOKIE else Size(t)
    {
      var ok := Try(c, 0);
      if ok { return Size(0); }
      ok := Try(c, 1);
      if ok { return Size(1); }
      ok := Try(c, COOKIE);
      if ok { return MESSAGE_HANDSHAKE_COOKIE; }
      ok := Try(c, TRANSPORT);
      if ok { return Size(TRANSPORT); }
      return 0;
    }
  }

  // The shortest transport message sent: a header and an authentication tag around nothing.
  const MESSAGE_MINIMUM_LENGTH := 32

  // A packet as it is sent for type t: the type's junk, then a message of its length that begins with a header of
  // the type. Every other byte is random, encrypted or an index, and may be anything.
  // The lengths of the messages as their fields make them up: header, indices, keys and nonce, sealed parts with their
  // 16-byte tags, and the two message authentication codes.
  function Sent(t: nat): nat
    requires t < TRANSPORT
  {
    if t == 0 then 4 + 4 + 32 + (32 + 16) + (12 + 16) + 2 * 16
    else if t == 1 then 4 + 4 + 4 + 32 + (0 + 16) + 2 * 16
    else 4 + 4 + 24 + (16 + 16)
  }

  predicate SentAs(c: Config, t: nat, p: seq<byte>)
    requires Configured(c) && t < TYPES
  {
    (if t == TRANSPORT then |p| >= c.junk[t] + MESSAGE_MINIMUM_LENGTH else |p| == c.junk[t] + Sent(t))
    && In(Word(p, c.junk[t]), c.headers[t])
  }

  function Bytes(w: nat): seq<byte>
    requires w < LIMIT
  {
    var a := w / 0x100;
    var b := a / 0x100;
    [(w % 0x100) as byte, (a % 0x100) as byte, (b % 0x100) as byte, (b / 0x100) as byte]
  }

  lemma WordOfBytes(w: nat)
    requires w < LIMIT
    ensures |Bytes(w)| == 4 && Word(Bytes(w), 0) == w
  {
    var a := w / 0x100;
    var b := a / 0x100;
    assert w == 0x100 * a + w % 0x100 && a == 0x100 * b + a % 0x100 && b == 0x100 * (b / 0x100) + b % 0x100;
  }

  lemma BytesOfWord(p: seq<byte>, at: nat)
    requires at + 4 <= |p|
    ensures Word(p, at) < LIMIT && Bytes(Word(p, at)) == p[at..at + 4]
  {
    var w := Word(p, at);
    var a := p[at + 1] as nat + 0x100 * p[at + 2] as nat + 0x1_0000 * p[at + 3] as nat;
    var b := p[at + 2] as nat + 0x100 * p[at + 3] as nat;
    assert w == 0x100 * a + p[at] as nat && w / 0x100 == a && w % 0x100 == p[at] as nat;
    assert a == 0x100 * b + p[at + 1] as nat && a / 0x100 == b && a % 0x100 == p[at + 1] as nat;
    assert b / 0x100 == p[at + 3] as nat && b % 0x100 == p[at + 2] as nat;
  }

  predicate Covers(at: nat, x: nat) {
    at <= x < at + 4
  }

  // The byte that a header word laid at an offset puts at x.
  function ByteAt(w: nat, at: nat, x: nat): byte
    requires w < LIMIT && Covers(at, x)
  {
    Bytes(w)[x - at]
  }

  // Two header words laid at two offsets of one packet agree wherever they overlap.
  predicate Agree(v: nat, at: nat, w: nat, to: nat)
    requires v < LIMIT && w < LIMIT
  {
    forall x | at <= x < at + 4 && Covers(to, x) :: ByteAt(v, at, x) == ByteAt(w, to, x)
  }

  predicate LengthsMeet(c: Config, t: nat, u: nat)
    requires Configured(c) && u < t < TYPES
  {
    if t == TRANSPORT then c.junk[t] + MESSAGE_MINIMUM_LENGTH <= c.junk[u] + Size(u)
    else c.junk[t] + Size(t) == c.junk[u] + Size(u)
  }

  // A packet of type t can be as long as one of type u, and a header of each can stand in it at once.
  ghost predicate Confusable(c: Config, t: nat, u: nat)
    requires Configured(c) && u < t < TYPES
  {
    LengthsMeet(c, t, u)
    && exists v: nat, w: nat :: HeadersMeet(c, t, u, v, w)
  }

  predicate HeadersMeet(c: Config, t: nat, u: nat, v: nat, w: nat)
    requires Configured(c) && u < t < TYPES
  {
    v < LIMIT && w < LIMIT && In(v, c.headers[t]) && In(w, c.headers[u]) && Agree(v, c.junk[t], w, c.junk[u])
  }

  lemma MatchIsConfusable(c: Config, t: nat, u: nat, p: seq<byte>)
    requires Configured(c) && u < t < TYPES && SentAs(c, t, p) && Matches(c, p, u)
    ensures Confusable(c, t, u)
  {
    var a, b := c.junk[t], c.junk[u];
    BytesOfWord(p, a);
    BytesOfWord(p, b);
    var v, w := Word(p, a), Word(p, b);
    hide Bytes, Word;
    forall x | a <= x < a + 4 && Covers(b, x) ensures ByteAt(v, a, x) == ByteAt(w, b, x) {
      assert p[a..a + 4][x - a] == p[x] == p[b..b + 4][x - b];
    }
    assert HeadersMeet(c, t, u, v, w);
  }

  // The packet with two headers in it.
  function Overlaid(n: nat, v: nat, at: nat, w: nat, to: nat): seq<byte>
    requires v < LIMIT && w < LIMIT
  {
    seq(n, x requires 0 <= x =>
      if Covers(at, x) then ByteAt(v, at, x) else if Covers(to, x) then ByteAt(w, to, x) else 0)
  }

  lemma OverlaidHolds(n: nat, v: nat, at: nat, w: nat, to: nat)
    requires v < LIMIT && w < LIMIT && at + 4 <= n && to + 4 <= n && Agree(v, at, w, to)
    ensures var p := Overlaid(n, v, at, w, to);
      |p| == n && p[at..at + 4] == Bytes(v) && p[to..to + 4] == Bytes(w)
  {
    var p := Overlaid(n, v, at, w, to);
    forall i | 0 <= i < 4 ensures p[at..at + 4][i] == Bytes(v)[i] { assert p[at + i] == ByteAt(v, at, at + i); }
    forall i | 0 <= i < 4 ensures p[to..to + 4][i] == Bytes(w)[i] {
      var x := to + i;
      assert Covers(to, x) && ByteAt(w, to, x) == Bytes(w)[i];
      assert p[x] == ByteAt(w, to, x);
    }
  }

  lemma WordAt(p: seq<byte>, at: nat, w: nat)
    requires w < LIMIT && at + 4 <= |p| && p[at..at + 4] == Bytes(w)
    ensures Word(p, at) == w
  {
    WordOfBytes(w);
    var q := p[at..at + 4];
    assert q[0] == p[at] && q[1] == p[at + 1] && q[2] == p[at + 2] && q[3] == p[at + 3];
  }

  // Where two types are confusable, some packet sent as the one is matched as the other.
  lemma ConfusableMatches(c: Config, t: nat, u: nat) returns (p: seq<byte>)
    requires Configured(c) && u < t < TYPES && Confusable(c, t, u)
    ensures SentAs(c, t, p) && Matches(c, p, u)
  {
    var v: nat, w: nat :| HeadersMeet(c, t, u, v, w);
    p := Overlaid(c.junk[u] + Size(u), v, c.junk[t], w, c.junk[u]);
    OverlaidHolds(c.junk[u] + Size(u), v, c.junk[t], w, c.junk[u]);
    WordAt(p, c.junk[t], v);
    WordAt(p, c.junk[u], w);
  }

  // Every packet of a type is taken for what it is exactly when no type tried before it is confusable with it: for
  // each, either the lengths cannot meet or no two headers agree on the bytes they would share.
  lemma RecoveredExactly(c: Config, t: nat)
    requires Configured(c) && t < TYPES
    ensures (forall p | SentAs(c, t, p) :: TakenFor(c, p, t)) <==> forall u: nat | u < t :: !Confusable(c, t, u)
  {
    if forall u: nat | u < t :: !Confusable(c, t, u) {
      forall p | SentAs(c, t, p) ensures TakenFor(c, p, t) {
        forall u: nat | u < t ensures !Matches(c, p, u) {
          if Matches(c, p, u) { MatchIsConfusable(c, t, u, p); }
        }
      }
    } else {
      var u: nat :| u < t && Confusable(c, t, u);
      var p := ConfusableMatches(c, t, u);
      assert !TakenFor(c, p, t);
    }
  }

  // With ranges apart and one junk size for all, no two types are confusable.
  lemma TypeRecovered(c: Config, t: nat, p: seq<byte>)
    requires Configured(c) && AllApart(c.headers) && (forall i | 0 <= i < TYPES :: c.junk[i] == c.junk[0])
    requires t < TYPES && SentAs(c, t, p)
    ensures TakenFor(c, p, t)
  {
    forall u: nat | u < t ensures !Matches(c, p, u) {
      assert c.junk[u] == c.junk[t] && Apart(c.headers[u], c.headers[t]);
    }
  }

  // With junk sizes four bytes or more apart, any two types whose lengths meet are: the headers do not overlap, so
  // the bytes where the other type's header would stand may be anything.
  lemma FarApartMisread(c: Config, t: nat, u: nat) returns (p: seq<byte>)
    requires Configured(c) && u < t < TYPES && Proper(c.headers[t]) && Proper(c.headers[u]) && LengthsMeet(c, t, u)
    requires c.junk[t] + 4 <= c.junk[u] || c.junk[u] + 4 <= c.junk[t]
    ensures SentAs(c, t, p) && !TakenFor(c, p, t)
  {
    assert HeadersMeet(c, t, u, c.headers[t].start, c.headers[u].start);
    p := ConfusableMatches(c, t, u);
  }

  // ---------------------------------------------------------------- dispatch

  datatype Queue = Handshakes | Data | Dropped

  // After the junk is off, the header decides the queue.
  function Dispatch(c: Config, w: nat): Queue
    requires Configured(c)
  {
    if In(w, c.headers[0]) || In(w, c.headers[1]) || In(w, c.headers[COOKIE]) then Handshakes
    else if In(w, c.headers[TRANSPORT]) then Data
    else Dropped
  }

  // Whatever a packet was taken for is what its queue is for, and no packet taken for anything is dropped there.
  lemma DispatchAgrees(c: Config, p: seq<byte>, t: nat)
    requires Configured(c) && AllApart(c.headers) && t < TYPES && TakenFor(c, p, t)
    ensures Dispatch(c, Word(p, c.junk[t])) == if t == TRANSPORT then Data else Handshakes
  {
    if t == TRANSPORT {
      assert Apart(c.headers[0], c.headers[TRANSPORT]) && Apart(c.headers[1], c.headers[TRANSPORT])
        && Apart(c.headers[COOKIE], c.headers[TRANSPORT]);
    }
  }
}
