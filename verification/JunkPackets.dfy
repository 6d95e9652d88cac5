/** Packet templates: tags in a description compiled to a buffer and the slices its modifiers rewrite. */
module JunkPackets {
  import opened Basics
  import opened Decimals

  type Bytes = seq<byte>

  const MESSAGE_MAX_SIZE := 65535
  const INT_MAX := 0x7fff_ffff

  datatype Kind = Counter | Time | RandomBytes | RandomChars | RandomDigits
  datatype Tag = Literal(bytes: Bytes) | Generated(kind: Kind, size: int)

  // ---------------------------------------------------------------- layout

  function Zeros(n: nat): Bytes {
    seq(n, _ => 0 as byte)
  }

  function Size(t: Tag): int {
    if t.Literal? then |t.bytes| else t.size
  }

  predicate Sized(tags: seq<Tag>) {
    forall i | 0 <= i < |tags| :: Size(tags[i]) >= 0
  }

  function Total(tags: seq<Tag>): int {
    if tags == [] then 0 else Size(tags[0]) + Total(tags[1..])
  }

  function Count(tags: seq<Tag>): nat {
    if tags == [] then 0 else (if tags[0].Generated? then 1 else 0) + Count(tags[1..])
  }

  // What each modifier has last written; before the first time, zeros.
  predicate Contents(tags: seq<Tag>, cur: seq<Bytes>) {
    if tags == [] then cur == []
    else if tags[0].Literal? then Contents(tags[1..], cur)
    else cur != [] && |cur[0]| == tags[0].size && Contents(tags[1..], cur[1..])
  }

  // The packet: the tags' bytes one after another, in the order they are written.
  function Filled(tags: seq<Tag>, cur: seq<Bytes>): Bytes
    requires Contents(tags, cur)
  {
    if tags == [] then []
    else if tags[0].Literal? then tags[0].bytes + Filled(tags[1..], cur)
    else cur[0] + Filled(tags[1..], cur[1..])
  }

  function Blank(tags: seq<Tag>): seq<Bytes>
    requires Sized(tags)
  {
    if tags == [] then []
    else if tags[0].Literal? then Blank(tags[1..])
    else [Zeros(tags[0].size)] + Blank(tags[1..])
  }

  datatype Modifier = Modifier(kind: Kind, offset: int, len: int)

  function Modifiers(tags: seq<Tag>, offset: int): seq<Modifier> {
    if tags == [] then []
    else
      var rest := Modifiers(tags[1..], offset + Size(tags[0]));
      if tags[0].Literal? then rest else [Modifier(tags[0].kind, offset, tags[0].size)] + rest
  }

  lemma {:induction false} TotalGrows(tags: seq<Tag>)
    requires Sized(tags)
    ensures Total(tags) >= 0
  {
    if tags != [] { TotalGrows(tags[1..]); }
  }

  lemma {:induction false} FilledSize(tags: seq<Tag>, cur: seq<Bytes>)
    requires Contents(tags, cur)
    ensures |Filled(tags, cur)| == Total(tags) && |cur| == Count(tags)
  {
    if tags != [] { FilledSize(tags[1..], if tags[0].Literal? then cur else cur[1..]); }
  }

  lemma {:induction false} BlankContents(tags: seq<Tag>)
    requires Sized(tags)
    ensures Contents(tags, Blank(tags))
  {
    if tags != [] { BlankContents(tags[1..]); }
  }

  lemma {:induction false} ModifierCount(tags: seq<Tag>, offset: int)
    ensures |Modifiers(tags, offset)| == Count(tags)
  {
    if tags != [] { ModifierCount(tags[1..], offset + Size(tags[0])); }
  }

  // Slices lie inside the packet, in order, and none overlaps the next.
  lemma {:induction false} SlicesApart(tags: seq<Tag>, offset: int)
    requires Sized(tags)
    ensures var ms := Modifiers(tags, offset);
      |ms| == Count(tags)
      && (forall i | 0 <= i < |ms| ::
        offset <= ms[i].offset && 0 <= ms[i].len && ms[i].offset + ms[i].len <= offset + Total(tags))
      && (forall i, j | 0 <= i < j < |ms| :: ms[i].offset + ms[i].len <= ms[j].offset)
  {
    if tags != [] {
      SlicesApart(tags[1..], offset + Size(tags[0]));
      TotalGrows(tags[1..]);
    }
  }

  function Spliced(p: Bytes, at: int, new': Bytes): Bytes
    requires 0 <= at && at + |new'| <= |p|
  {
    p[..at] + new' + p[at + |new'|..]
  }

  lemma SplicedBehind(front: Bytes, p: Bytes, at: int, new': Bytes)
    requires 0 <= at && at + |new'| <= |p|
    ensures front + Spliced(p, at, new') == Spliced(front + p, |front| + at, new')
  {
  }

  lemma SplicedFirst(was: Bytes, new': Bytes, p: Bytes)
    requires |was| == |new'|
    ensures Spliced(was + p, 0, new') == new' + p
  {
  }

  // Writing the k-th modifier's slice of the packet gives the packet with that modifier's bytes changed.
  ghost predicate Writes(tags: seq<Tag>, cur: seq<Bytes>, offset: int, k: nat, new': Bytes)
    requires Contents(tags, cur)
  {
    k < |cur| == |Modifiers(tags, offset)| && Contents(tags, cur[k := new'])
    && var at, p := Modifiers(tags, offset)[k].offset - offset, Filled(tags, cur);
       0 <= at && at + |new'| <= |p| && Modifiers(tags, offset)[k].len == |new'|
         && Filled(tags, cur[k := new']) == Spliced(p, at, new')
  }

  lemma UnfoldedLiteral(tags: seq<Tag>, cur: seq<Bytes>, offset: int)
    requires tags != [] && tags[0].Literal? && Contents(tags[1..], cur)
    ensures Contents(tags, cur) && Filled(tags, cur) == tags[0].bytes + Filled(tags[1..], cur)
    ensures Modifiers(tags, offset) == Modifiers(tags[1..], offset + Size(tags[0]))
  {
  }

  lemma WritesPastLiteral(tags: seq<Tag>, cur: seq<Bytes>, offset: int, k: nat, new': Bytes)
    requires tags != [] && tags[0].Literal? && Contents(tags[1..], cur)
      && Writes(tags[1..], cur, offset + Size(tags[0]), k, new')
    ensures Contents(tags, cur) && Writes(tags, cur, offset, k, new')
  {
    hide Filled, Modifiers, Contents;
    var rest, n := tags[1..], Size(tags[0]);
    UnfoldedLiteral(tags, cur, offset);
    UnfoldedLiteral(tags, cur[k := new'], offset);
    SplicedBehind(tags[0].bytes, Filled(rest, cur), Modifiers(rest, offset + n)[k].offset - offset - n, new');
    hide Spliced;
  }

  lemma Unfolded(tags: seq<Tag>, cur: seq<Bytes>, offset: int)
    requires tags != [] && tags[0].Generated? && cur != [] && |cur[0]| == Size(tags[0]) && Contents(tags[1..], cur[1..])
    ensures Contents(tags, cur) && Filled(tags, cur) == cur[0] + Filled(tags[1..], cur[1..])
    ensures Modifiers(tags, offset)
      == [Modifier(tags[0].kind, offset, tags[0].size)] + Modifiers(tags[1..], offset + Size(tags[0]))
  {
  }

  lemma WritesPastModifier(tags: seq<Tag>, cur: seq<Bytes>, offset: int, k: nat, new': Bytes)
    requires tags != [] && tags[0].Generated? && cur != [] && |cur[0]| == Size(tags[0]) && Contents(tags[1..], cur[1..])
    requires k > 0 && Writes(tags[1..], cur[1..], offset + Size(tags[0]), k - 1, new')
    ensures Contents(tags, cur) && Writes(tags, cur, offset, k, new')
  {
    hide Filled, Modifiers, Contents;
    var rest, n, tail, now := tags[1..], Size(tags[0]), cur[1..], cur[k := new'];
    assert now[1..] == tail[k - 1 := new'] && now[0] == cur[0];
    Unfolded(tags, cur, offset);
    Unfolded(tags, now, offset);
    SplicedBehind(cur[0], Filled(rest, tail), Modifiers(rest, offset + n)[k - 1].offset - offset - n, new');
    hide Spliced;
  }

  lemma WritesFirst(tags: seq<Tag>, cur: seq<Bytes>, offset: int, new': Bytes)
    requires tags != [] && tags[0].Generated? && Contents(tags, cur) && |new'| == |cur[0]|
    ensures Writes(tags, cur, offset, 0, new')
  {
    assert cur[0 := new'][1..] == cur[1..];
    SplicedFirst(cur[0], new', Filled(tags[1..], cur[1..]));
    ModifierCount(tags, offset);
    FilledSize(tags, cur);
    hide Spliced;
  }

  lemma {:induction false} SliceWrite(tags: seq<Tag>, cur: seq<Bytes>, offset: int, k: nat, new': Bytes)
    requires Contents(tags, cur) && k < |cur| && |new'| == |cur[k]|
    ensures Writes(tags, cur, offset, k, new')
    decreases |tags|
  {
    hide Writes;
    if tags[0].Literal? {
      SliceWrite(tags[1..], cur, offset + Size(tags[0]), k, new');
      WritesPastLiteral(tags, cur, offset, k, new');
    } else if k == 0 {
      WritesFirst(tags, cur, offset, new');
    } else {
      SliceWrite(tags[1..], cur[1..], offset + Size(tags[0]), k - 1, new');
      WritesPastModifier(tags, cur, offset, k, new');
    }
  }

  // ---------------------------------------------------------------- compiling the tags

  function Reversed(s: seq<Tag>): (r: seq<Tag>)
    ensures |r| == |s| && forall i | 0 <= i < |s| :: r[i] == s[|s| - 1 - i]
  {
    if s == [] then [] else Reversed(s[1..]) + [s[0]]
  }

  lemma {:induction false} TotalSplit(tags: seq<Tag>, i: nat)
    requires i <= |tags|
    ensures Total(tags) == Total(tags[..i]) + Total(tags[i..])
  {
    if i > 0 {
      TotalSplit(tags[1..], i - 1);
      assert tags[..i][1..] == tags[1..][..i - 1] && tags[i..] == tags[1..][i - 1..];
    } else {
      assert tags[0..] == tags;
    }
  }

  lemma {:induction false} TotalReversed(s: seq<Tag>)
    ensures Total(Reversed(s)) == Total(s)
  {
    if s != [] {
      TotalReversed(s[1..]);
      var r := Reversed(s);
      TotalSplit(r, |r| - 1);
      assert r[..|r| - 1] == Reversed(s[1..]) && r[|r| - 1..] == [s[0]];
      assert [s[0]][1..] == [];
    }
  }

  lemma TotalNext(tags: seq<Tag>, j: nat)
    requires j < |tags|
    ensures Total(tags[..j + 1]) == Total(tags[..j]) + Size(tags[j])
  {
    TotalSplit(tags[..j + 1], j);
    assert tags[..j + 1][..j] == tags[..j] && tags[..j + 1][j..] == [tags[j]];
    assert [tags[j]][1..] == [];
  }

  lemma NextTag(tags: seq<Tag>, j: nat)
    requires j < |tags| && Sized(tags)
    ensures Sized(tags[j..]) && Sized(tags[j + 1..]) && tags[j..][1..] == tags[j + 1..] && tags[j..][0] == tags[j]
    ensures Total(tags[..j + 1]) == Total(tags[..j]) + Size(tags[j])
  {
    TotalNext(tags, j);
  }

  // A blank packet from tag j on: the tag's own bytes, then the blank packet from tag j + 1 on.
  function Fresh(tags: seq<Tag>): Bytes
    requires Sized(tags)
  {
    BlankContents(tags);
    Filled(tags, Blank(tags))
  }

  function Image(t: Tag): Bytes
    requires Size(t) >= 0
  {
    if t.Literal? then t.bytes else Zeros(t.size)
  }

  lemma FreshNext(tags: seq<Tag>)
    requires Sized(tags) && tags != []
    ensures Sized(tags[1..]) && Fresh(tags) == Image(tags[0]) + Fresh(tags[1..])
  {
    BlankContents(tags);
    BlankContents(tags[1..]);
    if tags[0].Generated? { assert Blank(tags)[1..] == Blank(tags[1..]); }
  }

  lemma FreshSize(tags: seq<Tag>)
    requires Sized(tags)
    ensures |Fresh(tags)| == Total(tags)
  {
    BlankContents(tags);
    FilledSize(tags, Blank(tags));
  }

  // ---- sizes as the code adds them up

  // A C int: 32 bits, wrapping.
  function Wrap(n: int): int {
    (n + 0x8000_0000) % 0x1_0000_0000 - 0x8000_0000
  }

  lemma WrapAdds(a: int, b: int)
    ensures Wrap(Wrap(a) + b) == Wrap(a + b)
  {
  }

  lemma WrapSmall(n: int)
    requires 0 <= n <= MESSAGE_MAX_SIZE
    ensures Wrap(n) == n
  {
  }

  lemma WrapOnce(n: nat)
    requires n < 0x8000_0000
    ensures Wrap(0x1_0000_0000 + n) == n
  {
  }

  // What the size check lets through. A negative sum passes it, but no such buffer can be had.
  predicate Accepted(tags: seq<Tag>) {
    0 <= Wrap(Total(tags)) <= MESSAGE_MAX_SIZE
  }

  predicate Whole(tags: seq<Tag>) {
    Sized(tags) && Total(tags) <= 65535
  }

  // The bytes of tag j lie inside a buffer of the size that was added up.
  predicate InBounds(tags: seq<Tag>, j: nat)
    requires j < |tags|
  {
    var at, n := Wrap(Total(tags[..j])), Size(tags[j]);
    0 <= n && 0 <= at && at + n <= Wrap(Total(tags))
  }

  lemma {:induction false} InBoundsAddUp(tags: seq<Tag>, j: nat)
    requires Accepted(tags) && j <= |tags| && forall i: nat | i < |tags| :: InBounds(tags, i)
    ensures 0 <= Total(tags[..j]) <= Wrap(Total(tags))
  {
    if j > 0 {
      InBoundsAddUp(tags, j - 1);
      assert InBounds(tags, j - 1);
      TotalNext(tags, j - 1);
    }
  }

  // Of the templates let through, exactly those whose sizes are not negative and really add up to no more than the
  // maximum have every tag inside the buffer.
  lemma InBoundsExactly(tags: seq<Tag>)
    requires Accepted(tags)
    ensures (forall j: nat | j < |tags| :: InBounds(tags, j)) <==> Whole(tags)
  {
    if Whole(tags) {
      forall j: nat | j < |tags| ensures InBounds(tags, j) { WholeInBounds(tags, j); }
    }
    if forall j: nat | j < |tags| :: InBounds(tags, j) {
      forall i | 0 <= i < |tags| ensures Size(tags[i]) >= 0 { assert InBounds(tags, i); }
      InBoundsAddUp(tags, |tags|);
      assert tags[..|tags|] == tags;
    }
  }

  lemma WholeInBounds(tags: seq<Tag>, j: nat)
    requires Whole(tags) && j < |tags|
    ensures InBounds(tags, j) && Wrap(Total(tags[..j])) == Total(tags[..j]) && Wrap(Total(tags)) == Total(tags)
  {
    TotalSplit(tags, j);
    NextTag(tags, j);
    TotalSplit(tags, j + 1);
    TotalGrows(tags[..j]);
    TotalGrows(tags[j + 1..]);
    WrapSmall(Total(tags[..j]));
    WrapSmall(Total(tags));
    hide Wrap, Total;
  }

  lemma ThreeTotal(a: Tag, b: Tag, c: Tag)
    ensures Total([a, b, c]) == Size(a) + Size(b) + Size(c)
  {
    assert [a, b, c][1..] == [b, c] && [b, c][1..] == [c] && [c][1..] == [];
    assert Total([c]) == Size(c) && Total([b, c]) == Size(b) + Total([c]);
  }

  // Sizes that wrap: two slices of 2 GiB and one of a hundred bytes are let through as a packet of 98.
  lemma WrappedAccepted() returns (tags: seq<Tag>)
    ensures (forall i | 0 <= i < |tags| :: Printable(tags[i])) && ParseTags(Some(Describe(tags))) == Some(tags)
    ensures Accepted(tags) && Wrap(Total(tags)) == 98 && !Whole(tags) && exists j: nat | j < |tags| ::
      !InBounds(tags, j)
  {
    hide ParseTags, Describe, Total, InBounds;
    var big, small := Generated(RandomBytes, INT_MAX), Generated(RandomBytes, 100);
    tags := [big, big, small];
    DescriptionRoundTrip(tags);
    ThreeTotal(big, big, small);
    WrapOnce(98);
    InBoundsExactly(tags);
  }

  datatype Outcome = Refused | Overrun | Built

  // `list` holds the tags as parsing left them, last first. The packet comes out in the order they were written. An
  // overrun is a literal that would be copied outside the buffer; what follows then is not modelled.
  method Build(list: seq<Tag>) returns (o: Outcome, pkt: array?<byte>, mods: seq<Modifier>)
    ensures o == Refused <==> !Accepted(Reversed(list))
    ensures o.Refused? ==> pkt == null && mods == []
    ensures o.Overrun? ==> !Whole(Reversed(list))
    ensures o.Built? ==> fresh(pkt) && pkt.Length == Wrap(Total(Reversed(list)))
    ensures Whole(Reversed(list)) ==>
      o.Built? && pkt[..] == Fresh(Reversed(list)) && mods == Modifiers(Reversed(list), 0)
    ensures o.Built? && !Whole(Reversed(list)) ==>
      exists m | m in mods :: !(0 <= m.offset && 0 <= m.len && m.offset + m.len <= pkt.Length)
  {
    ghost var tags := Reversed(list);
    TotalReversed(list);
    WholeAccepted(tags);
    var size := Measure(list);
    if size > MESSAGE_MAX_SIZE || size < 0 { return Refused, null, []; }
    pkt := new byte[size](_ => 0 as byte);
    var ok;
    ok, mods := Fill(list, tags, pkt);
    InBoundsExactly(tags);
    if !ok { return Overrun, null, []; }
    o := Built;
  }

  lemma WholeAccepted(tags: seq<Tag>)
    ensures Whole(tags) ==> Accepted(tags) && Wrap(Total(tags)) == Total(tags)
  {
    if Whole(tags) { TotalGrows(tags); }
  }

  method Measure(list: seq<Tag>) returns (size: int)
    ensures size == Wrap(Total(list))
  {
    size := 0;
    for i := 0 to |list|
      invariant size == Wrap(Total(list[..i]))
    {
      TotalNext(list, i);
      WrapAdds(Total(list[..i]), Size(list[i]));
      size := Wrap(size + Size(list[i]));
    }
    assert list[..|list|] == list;
  }

  lemma FreshStep(tags: seq<Tag>, j: nat, done: Bytes)
    requires Sized(tags) && j < |tags| && Sized(tags[j..])
    requires done + Fresh(tags[j..]) == Fresh(tags) && |done| == Total(tags[..j])
    ensures Size(tags[j]) >= 0 && Sized(tags[j + 1..]) && done + Image(tags[j]) + Fresh(tags[j + 1..]) == Fresh(tags)
    ensures Total(tags[..j + 1]) == |done| + Size(tags[j]) <= Total(tags)
  {
    NextTag(tags, j);
    FreshNext(tags[j..]);
    FreshSize(tags);
    Assoc(done, Image(tags[j]), Fresh(tags[j + 1..]));
    hide Fresh, Image;
    TotalSplit(tags, j + 1);
    TotalGrows(tags[j + 1..]);
  }

  function WithModifier(mods: seq<Modifier>, t: Tag, at: int): seq<Modifier> {
    if t.Literal? then mods else mods + [Modifier(t.kind, at, t.size)]
  }

  lemma ModifiersStep(tags: seq<Tag>, j: nat, offset: int, done: seq<Modifier>)
    requires j < |tags| && done + Modifiers(tags[j..], offset) == Modifiers(tags, 0)
    ensures WithModifier(done, tags[j], offset) + Modifiers(tags[j + 1..], offset + Size(tags[j])) == Modifiers(tags, 0)
  {
    var t, rest := tags[j], Modifiers(tags[j + 1..], offset + Size(tags[j]));
    assert tags[j..][1..] == tags[j + 1..] && tags[j..][0] == t;
    if t.Generated? {
      assert Modifiers(tags[j..], offset) == [Modifier(t.kind, offset, t.size)] + rest;
      Assoc(done, [Modifier(t.kind, offset, t.size)], rest);
    }
  }

  // Where the copying stands after j tags, when everything fits: a finished front, zeros behind it.
  ghost predicate Filling(tags: seq<Tag>, j: nat, p: Bytes, at: int, mods: seq<Modifier>)
    requires j <= |tags| && Sized(tags)
  {
    0 <= at == Total(tags[..j]) <= |p| == Total(tags) && Sized(tags[j..])
    && p[..at] + Fresh(tags[j..]) == Fresh(tags) && p[at..] == Zeros(|p| - at)
    && mods + Modifiers(tags[j..], at) == Modifiers(tags, 0)
  }

  function Copied(p: Bytes, at: int, t: Tag): Bytes
    requires t.Literal? ==> 0 <= at && at + |t.bytes| <= |p|
  {
    if t.Literal? then Spliced(p, at, t.bytes) else p
  }

  lemma CopiedParts(p: Bytes, at: int, t: Tag)
    requires Size(t) >= 0 && 0 <= at && at + Size(t) <= |p| && p[at..] == Zeros(|p| - at)
    ensures var q, to := Copied(p, at, t), at + Size(t);
      |q| == |p| && q[..to] == p[..at] + Image(t) && q[to..] == Zeros(|p| - to)
  {
    var q, to := Copied(p, at, t), at + Size(t);
    forall k | at <= k < |p| ensures p[k] == 0 { assert p[at..][k - at] == 0; }
    assert forall k | 0 <= k < Size(t) :: q[at + k] == Image(t)[k];
    assert forall k | to <= k < |p| :: q[k] == 0;
  }

  lemma FillingStep(tags: seq<Tag>, j: nat, p: Bytes, at: int, mods: seq<Modifier>)
    requires Sized(tags) && j < |tags| && Filling(tags, j, p, at, mods)
    ensures var t := tags[j];
      Size(t) >= 0 && at + Size(t) <= |p|
      && Filling(tags, j + 1, Copied(p, at, t), at + Size(t), WithModifier(mods, t, at))
  {
    FreshStep(tags, j, p[..at]);
    ModifiersStep(tags, j, at, mods);
    CopiedParts(p, at, tags[j]);
    hide Fresh, Image, Modifiers, Copied, Total, Zeros, WithModifier;
  }

  lemma FillingStart(tags: seq<Tag>, p: Bytes)
    requires Sized(tags) && |p| == Total(tags) && p == Zeros(|p|)
    ensures Filling(tags, 0, p, 0, [])
  {
    assert tags[..0] == [] && tags[0..] == tags && p[0..] == p && [] + Modifiers(tags, 0) == Modifiers(tags, 0);
    assert p[..0] + Fresh(tags) == Fresh(tags);
  }

  lemma FillingDone(tags: seq<Tag>, p: Bytes, at: int, mods: seq<Modifier>)
    requires Sized(tags) && Filling(tags, |tags|, p, at, mods)
    ensures p == Fresh(tags) && mods == Modifiers(tags, 0)
  {
    assert tags[..|tags|] == tags && tags[|tags|..] == [];
    assert p[..at] == p && p + [] == p && mods + [] == mods;
  }

  // Of the first j tags, those out of bounds are modifiers, and on record as such.
  ghost predicate Recorded(tags: seq<Tag>, j: nat, mods: seq<Modifier>)
    requires j <= |tags|
  {
    forall i: nat | i < j && !InBounds(tags, i) ::
      tags[i].Generated? && Modifier(tags[i].kind, Wrap(Total(tags[..i])), tags[i].size) in mods
  }

  lemma RecordedStep(tags: seq<Tag>, j: nat, mods: seq<Modifier>)
    requires j < |tags| && Recorded(tags, j, mods) && (tags[j].Literal? ==> InBounds(tags, j))
    ensures Recorded(tags, j + 1, WithModifier(mods, tags[j], Wrap(Total(tags[..j]))))
  {
    var next := WithModifier(mods, tags[j], Wrap(Total(tags[..j])));
    forall i: nat | i < j + 1 && !InBounds(tags, i)
      ensures tags[i].Generated? && Modifier(tags[i].kind, Wrap(Total(tags[..i])), tags[i].size) in next
    {
      if i == j { assert next[|mods|] == Modifier(tags[i].kind, Wrap(Total(tags[..i])), tags[i].size); }
    }
  }

  method FillOne(tag: Tag, ghost tags: seq<Tag>, ghost j: nat, pkt: array<byte>, at: int, mods: seq<Modifier>)
    returns (ok: bool, mods': seq<Modifier>, at': int)
    requires j < |tags| && tag == tags[j] && at == Wrap(Total(tags[..j])) && pkt.Length == Wrap(Total(tags))
    requires Whole(tags) ==> Filling(tags, j, pkt[..], at, mods)
    requires Recorded(tags, j, mods)
    modifies pkt
    ensures !ok ==> !Whole(tags)
    ensures ok ==> at' == Wrap(Total(tags[..j + 1])) && Recorded(tags, j + 1, mods')
    ensures ok && Whole(tags) ==> Filling(tags, j + 1, pkt[..], at', mods')
  {
    hide Filling, Recorded, Total, Sized, Fresh, Modifiers, Spliced, Wrap, InBounds, Whole;
    TotalNext(tags, j);
    WrapAdds(Total(tags[..j]), Size(tag));
    if Whole(tags) { FillingNext(tags, j, pkt[..], at, mods); }
    if tag.Literal? {
      if at < 0 || at + |tag.bytes| > pkt.Length { return false, mods, at; }
      LiteralInBounds(tags, j, pkt.Length);
      Copy(pkt, at, tag.bytes);
    }
    RecordedStep(tags, j, mods);
    return true, WithModifier(mods, tag, at), Wrap(at + Size(tag));
  }

  method Fill(list: seq<Tag>, ghost tags: seq<Tag>, pkt: array<byte>) returns (ok: bool, mods: seq<Modifier>)
    requires tags == Reversed(list) && Accepted(tags) && pkt.Length == Wrap(Total(tags)) && pkt[..] == Zeros(pkt.Length)
    modifies pkt
    ensures !ok ==> !Whole(tags)
    ensures Whole(tags) ==> pkt[..] == Fresh(tags) && mods == Modifiers(tags, 0)
    ensures ok ==> Recorded(tags, |tags|, mods)
  {
    var at := 0;
    mods := [];
    ghost var j := 0;
    WholeAccepted(tags);
    if Whole(tags) { FillingStart(tags, pkt[..]); }
    assert tags[..0] == [] && Wrap(Total([])) == 0;
    hide Filling, Recorded, Total, Sized, Fresh, Modifiers, Copied, Spliced, Wrap, InBounds, Whole, Zeros;
    assert Recorded(tags, 0, mods) by { NothingRecorded(tags); }
    for i := |list| downto 0
      invariant j == |list| - i && at == Wrap(Total(tags[..j]))
      invariant Whole(tags) ==> Filling(tags, j, pkt[..], at, mods)
      invariant Recorded(tags, j, mods)
    {
      ok, mods, at := FillOne(list[i], tags, j, pkt, at, mods);
      if !ok { return; }
      j := j + 1;
    }
    if Whole(tags) { FillingDone(tags, pkt[..], at, mods); }
    return true, mods;
  }

  lemma LiteralInBounds(tags: seq<Tag>, j: nat, n: int)
    requires j < |tags| && tags[j].Literal? && n == Wrap(Total(tags))
    requires 0 <= Wrap(Total(tags[..j])) && Wrap(Total(tags[..j])) + |tags[j].bytes| <= n
    ensures InBounds(tags, j)
  {
  }

  lemma NothingRecorded(tags: seq<Tag>)
    ensures Recorded(tags, 0, [])
  {
  }

  lemma FillingNext(tags: seq<Tag>, j: nat, p: Bytes, at: int, mods: seq<Modifier>)
    requires Whole(tags) && j < |tags| && Filling(tags, j, p, at, mods)
    ensures var t := tags[j];
      (t.Literal? ==> 0 <= at && at + |t.bytes| <= |p|) && Wrap(at + Size(t)) == at + Size(t)
      && Filling(tags, j + 1, if t.Literal? then Spliced(p, at, t.bytes) else p,
                 at + Size(t), WithModifier(mods, t, at))
  {
    assert 0 <= at && |p| <= MESSAGE_MAX_SIZE;
    FillingStep(tags, j, p, at, mods);
    WrapSmall(at + Size(tags[j]));
    hide Filling, Fresh, Modifiers, Total, Wrap;
  }

  // memcpy
  method Copy(a: array<byte>, at: nat, bytes: Bytes)
    requires at + |bytes| <= a.Length
    modifies a
    ensures a[..] == Spliced(old(a[..]), at, bytes)
  {
    forall i | 0 <= i < |bytes| { a[at + i] := bytes[i]; }
  }

  // ---------------------------------------------------------------- applying the modifiers

  // Each modifier rewrites its slice, in order; `outs` is what they write this time.
  method ApplyModifiers(pkt: array<byte>, mods: seq<Modifier>, outs: seq<Bytes>, ghost tags: seq<Tag>,
    ghost cur: seq<Bytes>)
    requires Sized(tags) && Contents(tags, cur) && pkt[..] == Filled(tags, cur) && mods == Modifiers(tags, 0)
    requires |outs| == |mods| == |cur| && forall k | 0 <= k < |outs| :: |outs[k]| == mods[k].len == |cur[k]|
    modifies pkt
    ensures Contents(tags, outs) && pkt[..] == Filled(tags, outs)
  {
    ghost var now := cur;
    for k := 0 to |mods|
      invariant |now| == |outs| && Contents(tags, now) && pkt[..] == Filled(tags, now)
      invariant forall i | 0 <= i < |outs| :: now[i] == if i < k then outs[i] else cur[i]
    {
      SliceWrite(tags, now, 0, k, outs[k]);
      Copy(pkt, mods[k].offset, outs[k]);
      now := now[k := outs[k]];
    }
    assert now == outs;
  }

  // Rewriting the slices leaves every literal byte where it was.
  lemma {:induction false} LiteralsKept(tags: seq<Tag>, cur: seq<Bytes>, outs: seq<Bytes>, offset: int, x: int)
    requires Sized(tags) && Contents(tags, cur) && Contents(tags, outs) && 0 <= x < |Filled(tags, cur)|
    requires forall k | 0 <= k < |Modifiers(tags, offset)| ::
      var m := Modifiers(tags, offset)[k]; !(m.offset <= offset + x < m.offset + m.len)
    ensures |Filled(tags, outs)| == |Filled(tags, cur)| && Filled(tags, outs)[x] == Filled(tags, cur)[x]
  {
    FilledSize(tags, cur);
    FilledSize(tags, outs);
    var ms, rest, n := Modifiers(tags, offset), tags[1..], Size(tags[0]);
    if tags[0].Literal? {
      if x >= n { LiteralsKept(rest, cur, outs, offset + n, x - n); }
    } else {
      assert ms[0].offset == offset && ms[0].len == n;
      assert Modifiers(rest, offset + n) == ms[1..];
      LiteralsKept(rest, cur[1..], outs[1..], offset + n, x - n);
    }
  }

  // ---------------------------------------------------------------- reading the description

  datatype Split = Split(head: Option<string>, rest: Option<string>)

  // strsep: up to the first separator, and what follows it; nothing follows when there is none.
  function Strsep(s: Option<string>, c: char): Split {
    if s.None? then Split(None, None)
    else
      var i := IndexOf(s.value, c);
      Split(Some(s.value[..i]), if i < |s.value| then Some(s.value[i + 1..]) else None)
  }

  function HexValue(c: char): Option<nat> {
    if '0' <= c <= '9' then Some((c - '0') as nat)
    else if 'a' <= c <= 'f' then Some((c - 'a') as nat + 10)
    else if 'A' <= c <= 'F' then Some((c - 'A') as nat + 10)
    else None
  }

  // kstrtou8 on two characters: a plus sign may stand first and a newline last.
  function HexByte(c: char, d: char): Option<byte> {
    match (HexValue(c), HexValue(d))
    case (Some(a), Some(b)) => Some((16 * a + b) as byte)
    case (None, Some(b)) => if c == '+' then Some(b as byte) else None
    case (Some(a), None) => if d == '\n' then Some(a as byte) else None
    case _ => None
  }

  function ParseHex(s: string): Option<Bytes> {
    if s == "" then Some([])
    else if |s| == 1 then None
    else
      match (HexByte(s[0], s[1]), ParseHex(s[2..]))
      case (Some(b), Some(rest)) => Some([b] + rest)
      case _ => None
  }

  function Unsigned(s: string): string {
    if s != "" && (s[0] == '-' || s[0] == '+') then s[1..] else s
  }

  function Chomped(s: string): string {
    if s != "" && s[|s| - 1] == '\n' then s[..|s| - 1] else s
  }

  // kstrtoint: a sign, digits, a newline; within 32 bits.
  function ParseInt(s: string): Option<int> {
    var minus := s != "" && s[0] == '-';
    var b := Chomped(Unsigned(s));
    if b == "" || (exists c | c in b :: !IsDigit(c)) then None
    else
      var v: int := Value(b);
      var n := if minus then -v else v;
      if -INT_MAX - 1 <= n <= INT_MAX then Some(n) else None
  }

  function ParseLiteral(val: Option<string>): Option<Tag> {
    if val.None? || !("0x" <= val.value) || |val.value| == 2 then None
    else
      match ParseHex(val.value[2..])
      case None => None
      case Some(bytes) => Some(Literal(bytes))
  }

  function ParseSized(val: Option<string>, kind: Kind): Option<Tag> {
    if val.None? then None
    else
      match ParseInt(val.value)
      case None => None
      case Some(n) => Some(Generated(kind, n))
  }

  function ParseTag(body: string): Option<Tag> {
    var split := Strsep(Some(body), ' ');
    var key, val := split.head.value, split.rest;
    if key == "b" then ParseLiteral(val)
    else if key == "c" then if val.Some? then None else Some(Generated(Counter, 4))
    else if key == "t" then if val.Some? then None else Some(Generated(Time, 4))
    else if key == "r" then ParseSized(val, RandomBytes)
    else if key == "rc" then ParseSized(val, RandomChars)
    else if key == "rd" then ParseSized(val, RandomDigits)
    else None
  }

  function Left(s: Option<string>): nat {
    if s.None? then 0 else |s.value| + 1
  }

  // The tags of a description in the order they are written, or nothing if one of them is malformed.
  function ParseTags(s: Option<string>): Option<seq<Tag>>
    decreases Left(s)
  {
    var after := Strsep(s, '<').rest;
    var body := Strsep(after, '>');
    if body.head.None? then Some([])
    else
      match ParseTag(body.head.value)
      case None => None
      case Some(t) =>
        match ParseTags(body.rest)
        case None => None
        case Some(ts) => Some([t] + ts)
  }

  lemma ParseStep(s: Option<string>, body: Split)
    requires body == Strsep(Strsep(s, '<').rest, '>')
    ensures body.head.None? ==> ParseTags(s) == Some([])
    ensures body.head.Some? ==> Left(body.rest) < Left(s)
    ensures body.head.Some? && ParseTag(body.head.value).Some? && ParseTags(body.rest).Some? ==>
      ParseTags(s) == Some([ParseTag(body.head.value).value] + ParseTags(body.rest).value)
    ensures body.head.Some? && (ParseTag(body.head.value).None? || ParseTags(body.rest).None?) ==> ParseTags(s).None?
  {
    hide ParseTag;
  }

  lemma {:induction false} HexFails(s: string, i: nat)
    requires 2 * i <= |s| && ParseHex(s[2 * i..]).None?
    ensures ParseHex(s).None?
  {
    if i == 0 {
      assert s[0..] == s;
    } else {
      assert s[2..][2 * (i - 1)..] == s[2 * i..];
      HexFails(s[2..], i - 1);
    }
  }

  // The digits are read in pairs from the last to the first.
  method ReadHex(s: string) returns (bytes: Option<Bytes>)
    requires |s| % 2 == 0
    ensures bytes == ParseHex(s)
  {
    var len := |s| / 2;
    var pkt := new byte[len](_ => 0 as byte);
    assert s[2 * len..] == "" && pkt[len..] == [];
    for i := len downto 0
      invariant ParseHex(s[2 * i..]) == Some(pkt[i..])
    {
      var b := HexByte(s[2 * i], s[2 * i + 1]);
      assert s[2 * i..][2..] == s[2 * (i + 1)..];
      if b.None? {
        HexFails(s, i);
        return None;
      }
      pkt[i] := b.value;
      assert pkt[i..] == [b.value] + pkt[i + 1..];
    }
    assert s[0..] == s;
    return Some(pkt[..]);
  }

  lemma {:induction false} OddFails(s: string)
    requires |s| % 2 == 1
    ensures ParseHex(s).None?
  {
    if |s| > 1 { OddFails(s[2..]); }
  }

  method ReadLiteral(val: Option<string>) returns (tag: Option<Tag>)
    ensures tag == ParseLiteral(val)
  {
    if val.None? || !("0x" <= val.value) { return None; }
    var digits := val.value[2..];
    if digits == "" { return None; }
    if |digits| % 2 != 0 {
      OddFails(digits);
      return None;
    }
    var bytes := ReadHex(digits);
    hide ParseHex;
    if bytes.None? { return None; }
    return Some(Literal(bytes.value));
  }

  method ReadTag(body: string) returns (tag: Option<Tag>)
    ensures tag == ParseTag(body)
  {
    var split := Strsep(Some(body), ' ');
    var key, val := split.head.value, split.rest;
    hide Strsep, ParseInt, ParseHex;
    if key == "b" {
      tag := ReadLiteral(val);
    } else if key == "c" {
      tag := if val.Some? then None else Some(Generated(Counter, 4));
    } else if key == "t" {
      tag := if val.Some? then None else Some(Generated(Time, 4));
    } else if key == "r" {
      tag := ParseSized(val, RandomBytes);
    } else if key == "rc" {
      tag := ParseSized(val, RandomChars);
    } else if key == "rd" {
      tag := ParseSized(val, RandomDigits);
    } else {
      tag := None;
    }
  }

  // list_add puts each tag at the head, so the list comes out reversed.
  method ReadTags(desc: string) returns (list: Option<seq<Tag>>)
    ensures if ParseTags(Some(desc)).None? then list.None?
      else list.Some? && Reversed(list.value) == ParseTags(Some(desc)).value
  {
    hide ParseTags, ParseTag, Strsep, Left;
    var tags: seq<Tag> := [];
    var str: Option<string> := Some(desc);
    while true
      invariant ParseTags(Some(desc)).None? <==> ParseTags(str).None?
      invariant ParseTags(str).Some? ==> ParseTags(Some(desc)).value == Reversed(tags) + ParseTags(str).value
      decreases Left(str)
    {
      var body := Strsep(Strsep(str, '<').rest, '>');
      ParseStep(str, body);
      if body.head.None? { break; }
      var tag := ReadTag(body.head.value);
      if tag.None? { return None; }
      assert ([tag.value] + tags)[1..] == tags;
      assert Reversed([tag.value] + tags) == Reversed(tags) + [tag.value];
      tags := [tag.value] + tags;
      str := body.rest;
    }
    return Some(tags);
  }

  // ---------------------------------------------------------------- a template

  class Template {
    var desc: Option<string>
    var pkt: array?<byte>
    var mods: seq<Modifier>

    // A template is let through exactly when its description can be read and the wrapped size is in range. When the
    // sizes really fit, the packet and the modifiers are those described; when they wrapped, some tag does not lie
    // inside the buffer.
    method Setup() returns (o: Outcome)
      modifies this`pkt, this`mods
      ensures o.Refused? <==> desc.Some? && (ParseTags(desc).None? || !Accepted(ParseTags(desc).value))
      ensures o.Refused? || desc.None? ==> pkt == null && mods == []
      ensures desc.Some? && ParseTags(desc).Some? && Whole(ParseTags(desc).value) ==>
        o.Built? && pkt != null && pkt[..] == Fresh(ParseTags(desc).value)
          && mods == Modifiers(ParseTags(desc).value, 0)
      ensures !o.Refused? && desc.Some? && !Whole(ParseTags(desc).value) ==>
        o.Overrun? || (pkt != null && exists m | m in mods ::
          !(0 <= m.offset && 0 <= m.len && m.offset + m.len <= pkt.Length))
    {
      pkt, mods := null, [];
      if desc.None? { return Built; }
      var list := ReadTags(desc.value);
      hide ParseTags;
      if list.None? { return Refused; }
      o, pkt, mods := Build(list.value);
    }
  }

  // ---------------------------------------------------------------- a description read back

  function HexDigit(n: nat): (c: char)
    requires n < 16
    ensures HexValue(c) == Some(n) && c != '>'
  {
    if n < 10 then '0' + n as char else 'a' + (n - 10) as char
  }

  function Hex(bytes: Bytes): string {
    if bytes == [] then "" else [HexDigit(bytes[0] as nat / 16), HexDigit(bytes[0] as nat % 16)] + Hex(bytes[1..])
  }

  // Either case of a hex digit.
  predicate SameDigit(c: char, d: char) {
    c == d || ('a' <= c <= 'f' && d == c - 'a' + 'A') || ('A' <= c <= 'F' && d == c - 'A' + 'a')
  }

  // A literal reads the same in either case, digit by digit.
  lemma {:induction false} HexAnyCase(s: string, t: string)
    requires |s| == |t| && forall i | 0 <= i < |s| :: SameDigit(s[i], t[i])
    ensures ParseHex(s) == ParseHex(t)
  {
    if |s| >= 2 {
      assert SameDigit(s[0], t[0]) && SameDigit(s[1], t[1]);
      SameHexValue(s[0], t[0]);
      SameHexValue(s[1], t[1]);
      assert forall i | 0 <= i < |s| - 2 :: s[2..][i] == s[i + 2] && t[2..][i] == t[i + 2];
      HexAnyCase(s[2..], t[2..]);
    }
  }

  lemma SameHexValue(c: char, d: char)
    requires SameDigit(c, d)
    ensures HexValue(c) == HexValue(d) && (c == '+' <==> d == '+') && (c == '\n' <==> d == '\n')
  {
  }

  function Fitting(n: int): Option<int> {
    if -2147483648 <= n <= 2147483647 then Some(n) else None
  }

  lemma SignOff(sign: string, s: string, tail: string)
    requires s != "" && (forall c | c in s :: IsDigit(c)) && (tail == "" || tail == "\n")
    requires sign == "" || sign == "+" || sign == "-"
    ensures Chomped(Unsigned(sign + s + tail)) == s && ((sign + s + tail)[0] == '-' <==> sign == "-")
  {
    var all := sign + s + tail;
    assert IsDigit(s[0]) && IsDigit(s[|s| - 1]);
    assert Unsigned(all) == s + tail by {
      if sign == "" {
        assert all == s + tail && all[0] == s[0];
      } else {
        assert all[1..] == s + tail && all[0] == sign[0];
      }
    }
    assert (s + tail)[..|s|] == s;
    if tail == "" { assert s + tail == s; } else { assert (s + tail)[|s|] == '\n'; }
  }

  // A size is read with either sign or none, with or without a newline behind it, as long as it fits 32 bits.
  lemma SizesRead(n: nat, sign: string, tail: string)
    requires (sign == "" || sign == "+" || sign == "-") && (tail == "" || tail == "\n")
    ensures ParseInt(sign + Decimal(n) + tail) == Fitting(if sign == "-" then -(n as int) else n)
  {
    ValueOfDecimal(n);
    SignOff(sign, Decimal(n), tail);
    hide Unsigned, Chomped, Decimal, Value;
  }

  predicate Printable(t: Tag) {
    match t
    case Literal(bytes) => bytes != []
    case Generated(Counter, n) => n == 4
    case Generated(Time, n) => n == 4
    case Generated(_, n) => 0 <= n <= INT_MAX
  }

  function Body(t: Tag): string
    requires Printable(t)
  {
    match t
    case Literal(bytes) => "b 0x" + Hex(bytes)
    case Generated(Counter, _) => "c"
    case Generated(Time, _) => "t"
    case Generated(RandomBytes, n) => "r" + " " + Decimal(n)
    case Generated(RandomChars, n) => "rc" + " " + Decimal(n)
    case Generated(RandomDigits, n) => "rd" + " " + Decimal(n)
  }

  function Describe(tags: seq<Tag>): string
    requires forall i | 0 <= i < |tags| :: Printable(tags[i])
  {
    if tags == [] then "" else "<" + Body(tags[0]) + ">" + Describe(tags[1..])
  }

  lemma {:induction false} HexBack(bytes: Bytes)
    ensures ParseHex(Hex(bytes)) == Some(bytes) && '>' !in Hex(bytes)
  {
    if bytes != [] {
      HexBack(bytes[1..]);
      var s := Hex(bytes);
      assert s[2..] == Hex(bytes[1..]);
      assert bytes == [bytes[0]] + bytes[1..];
    }
  }

  lemma IntBack(n: nat)
    requires n <= INT_MAX
    ensures ParseInt(Decimal(n)) == Some(n) && '>' !in Decimal(n)
  {
    var s := Decimal(n);
    ValueOfDecimal(n);
    assert IsDigit(s[0]) && IsDigit(s[|s| - 1]);
  }

  lemma SepAt(a: string, c: char, b: string)
    requires c !in a
    ensures Strsep(Some(a + [c] + b), c) == Split(Some(a), Some(b))
  {
    IndexOfFirst(a, c, b);
  }

  lemma SepNone(a: string, c: char)
    requires c !in a
    ensures Strsep(Some(a), c) == Split(Some(a), None)
  {
    IndexOfNone(a, c);
  }

  lemma LiteralBack(bytes: Bytes)
    requires bytes != []
    ensures ParseTag("b 0x" + Hex(bytes)) == Some(Literal(bytes)) && '>' !in "b 0x" + Hex(bytes)
  {
    HexBack(bytes);
    var val := "0x" + Hex(bytes);
    assert "b 0x" + Hex(bytes) == "b" + [' '] + val && val[2..] == Hex(bytes) && |Hex(bytes)| >= 2;
    SepAt("b", ' ', val);
    hide Hex, ParseHex, Strsep;
    assert val[..2] == "0x";
  }

  lemma BareBack(key: string)
    requires key == "c" || key == "t"
    ensures ParseTag(key) == Some(Generated(if key == "c" then Counter else Time, 4)) && '>' !in key
  {
    SepNone(key, ' ');
    hide Strsep;
  }

  lemma SizedBack(key: string, kind: Kind, n: nat)
    requires (key == "r" && kind == RandomBytes) || (key == "rc" && kind == RandomChars)
      || (key == "rd" && kind == RandomDigits)
    requires n <= INT_MAX
    ensures ParseTag(key + " " + Decimal(n)) == Some(Generated(kind, n)) && '>' !in key + " " + Decimal(n)
  {
    IntBack(n);
    assert key + " " + Decimal(n) == key + [' '] + Decimal(n);
    SepAt(key, ' ', Decimal(n));
    hide Strsep, ParseInt, ParseLiteral, Decimal;
  }

  lemma BodyBack(t: Tag)
    requires Printable(t)
    ensures ParseTag(Body(t)) == Some(t) && '>' !in Body(t)
  {
    hide ParseTag, Decimal, Hex;
    match t
    case Literal(bytes) => LiteralBack(bytes);
    case Generated(Counter, _) => BareBack("c");
    case Generated(Time, _) => BareBack("t");
    case Generated(RandomBytes, n) => SizedBack("r", RandomBytes, n);
    case Generated(RandomChars, n) => SizedBack("rc", RandomChars, n);
    case Generated(RandomDigits, n) => SizedBack("rd", RandomDigits, n);
  }

  lemma DescribedFirst(body: string, more: string)
    requires '>' !in body
    ensures Strsep(Strsep(Some("<" + body + ">" + more), '<').rest, '>') == Split(Some(body), Some(more))
  {
    assert "<" + body + ">" + more == "" + ['<'] + (body + ['>'] + more);
    SepAt("", '<', body + ['>'] + more);
    SepAt(body, '>', more);
  }

  lemma EmptyDescription()
    ensures ParseTags(Some("")) == Some([])
  {
    SepNone("", '<');
    hide Strsep, ParseTag;
    assert Strsep(None, '>').head.None? by { NoneLeft('>'); }
    ParseStep(Some(""), Strsep(None, '>'));
  }

  lemma NoneLeft(c: char)
    ensures Strsep(None, c) == Split(None, None)
  {
  }

  lemma TagBack(t: Tag, more: string, ts: seq<Tag>)
    requires Printable(t) && ParseTags(Some(more)) == Some(ts)
    ensures ParseTags(Some("<" + Body(t) + ">" + more)) == Some([t] + ts)
  {
    BodyBack(t);
    hide ParseTags, ParseTag, Strsep, Body;
    var body := Body(t);
    DescribedFirst(body, more);
    ParseStep(Some("<" + body + ">" + more), Split(Some(body), Some(more)));
  }

  // Every list of tags can be described, and the description is read back as the same list.
  lemma {:induction false} DescriptionRoundTrip(tags: seq<Tag>)
    requires forall i | 0 <= i < |tags| :: Printable(tags[i])
    ensures ParseTags(Some(Describe(tags))) == Some(tags)
  {
    hide ParseTags, Body;
    if tags == [] {
      EmptyDescription();
    } else {
      DescriptionRoundTrip(tags[1..]);
      TagBack(tags[0], Describe(tags[1..]), tags[1..]);
      assert tags == [tags[0]] + tags[1..];
    }
  }
}
