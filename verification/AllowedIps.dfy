/** The allowed-IPs table: a path-compressed binary trie per address family, nodes linked by child and
    parent pointers that are rewritten in place.
 */
module AllowedIps {
  import opened Basics
  import opened BitKeys

  const MAX_ALLOWEDIPS_DEPTH := 129
  const ROOT_SLOT := 2

  datatype Prefix = Prefix(family: nat, bits: Key)
  datatype Status = Ok | Einval | Enomem

  class Peer {
    var list: seq<Node>
  }

  class Node {
    const bitlen: nat
    const bits: Key
    const cidr: nat
    var peer: Peer?
    var bit0: Node?
    var bit1: Node?
    var parent: Node?
    var slot: nat

    constructor (key: Key, cidr: nat, peer: Peer?)
      ensures this.bitlen == |key| && this.bits == key && this.cidr == cidr && this.peer == peer
      ensures bit0 == null && bit1 == null && parent == null && slot == ROOT_SLOT
    {
      this.bitlen, this.bits, this.cidr, this.peer := |key|, key, cidr, peer;
      bit0, bit1, parent, slot := null, null, null, ROOT_SLOT;
    }

    // A node's constants, fixed when it is filled in.
    ghost predicate Sized() {
      (bitlen == 32 || bitlen == 128) && |bits| == bitlen && cidr <= bitlen
    }

    ghost function Pre(): Prefix {
      Prefix(bitlen, if cidr <= |bits| then bits[..cidr] else [])
    }

    ghost function Content(): Cell
      reads this
    {
      Cell(peer, bit0, bit1, parent, slot)
    }

    function Bit(b: nat): Node?
      reads this
    {
      if b == 0 then bit0 else bit1
    }

    predicate Matches(key: Key)
      requires Sized() && |key| == bitlen
      ensures Matches(key) <==> bits[..cidr] == key[..cidr]
    {
      CommonBitsIff(bits, key, cidr);
      CommonBits(bits, key) >= cidr
    }

    function Choose(key: Key): (b: nat)
      requires Sized() && |key| == bitlen && cidr < bitlen
      ensures b == if key[cidr] then 1 else 0
    {
      ChoosesNextBit(key, cidr);
      if NextBit(key, BitAtA(cidr, bitlen), BitAtB(cidr)) then 1 else 0
    }
  }

  // ---------------------------------------------------------------- the trie as a value

  // What a node's mutable fields hold.
  datatype Cell = Cell(peer: Peer?, bit0: Node?, bit1: Node?, parent: Node?, slot: nat) {
    function Bit(b: nat): Node? {
      if b == 0 then bit0 else bit1
    }

    function SetBit(b: nat, c: Node?): Cell {
      if b == 0 then this.(bit0 := c) else this.(bit1 := c)
    }
  }

  datatype Store = Store(cells: map<Node, Cell>, root4: Node?, root6: Node?) {
    function Root(bits: nat): Node? {
      if bits == 32 then root4 else root6
    }

    // Write the pointer that leads to a place: a child slot of parent, or the root of an address family.
    ghost function Point(parent: Node?, b: nat, bits: nat, c: Node?): Store
      requires parent != null ==> parent in cells && b < 2
    {
      if parent != null then this.(cells := cells[parent := cells[parent].SetBit(b, c)])
      else if bits == 32 then this.(root4 := c) else this.(root6 := c)
    }

    // Write the pointer to a place and the way back from its occupant.
    ghost function Connected(parent: Node?, b: nat, node: Node): Store
      requires node in cells && (parent != null ==> parent in cells && b < 2)
    {
      this.(cells := cells[node := cells[node].(parent := parent, slot := b)]).Point(parent, b, node.bitlen, node)
    }

    ghost function New(n: Node, peer: Peer?): Store {
      this.(cells := cells[n := Cell(peer, null, null, null, ROOT_SLOT)])
    }
  }

  // The slot of parent that the address of n selects.
  function Side(parent: Node, n: Node): (b: nat)
    ensures b < 2
  {
    if parent.cidr < |n.bits| && n.bits[parent.cidr] then 1 else 0
  }

  // The prefix of c strictly extends the prefix of n, on the side of bit b.
  ghost predicate Extends(n: Node, b: nat, c: Node) {
    n.Sized() && c.Sized() && c.bitlen == n.bitlen && n.cidr < c.cidr
    && c.bits[..n.cidr] == n.bits[..n.cidr] && c.bits[n.cidr] == (b == 1)
  }

  // The pointers around one node.
  ghost predicate Linked(s: Store, n: Node) {
    n in s.cells && n.Sized() && Down(s, n, 0) && Down(s, n, 1) && Up(s, n)
  }

  ghost predicate Down(s: Store, n: Node, b: nat)
    requires n in s.cells && b < 2
  {
    var c := s.cells[n].Bit(b);
    c != null ==> c in s.cells && s.cells[c].parent == n && s.cells[c].slot == b && Extends(n, b, c)
  }

  ghost predicate Up(s: Store, n: Node)
    requires n in s.cells
  {
    var p, b := s.cells[n].parent, s.cells[n].slot;
    if p == null then b == ROOT_SLOT && s.Root(n.bitlen) == n
    else b < 2 && p in s.cells && s.cells[p].Bit(b) == n
  }

  // A node without a peer is a branching point.
  ghost predicate Paired(s: Store, n: Node)
    requires n in s.cells
  {
    s.cells[n].peer == null ==> s.cells[n].bit0 != null && s.cells[n].bit1 != null
  }

  ghost predicate Rooted(s: Store, bits: nat) {
    var r := s.Root(bits);
    r != null ==> r in s.cells && s.cells[r].parent == null && r.bitlen == bits
  }

  ghost predicate Links(s: Store) {
    (forall n {:trigger Linked(s, n)} | n in s.cells :: Linked(s, n)) && Rooted(s, 32) && Rooted(s, 128)
  }

  ghost predicate Shape(s: Store) {
    Links(s) && (forall n {:trigger Paired(s, n)} | n in s.cells :: Paired(s, n))
  }

  lemma RootIsLeast(s: Store, n: Node)
    requires Links(s) && n in s.cells
    ensures n.Sized() && s.Root(n.bitlen) != null
    ensures var r := s.Root(n.bitlen);
      r in s.cells && r.Sized() && r.bitlen == n.bitlen && r.cidr <= n.cidr && n.bits[..r.cidr] == r.bits[..r.cidr]
    decreases n.cidr
  {
    assert Linked(s, n);
    var p := s.cells[n].parent;
    if p != null {
      assert Linked(s, p) && Extends(p, s.cells[n].slot, n);
      RootIsLeast(s, p);
      var r := s.Root(n.bitlen);
      assert n.bits[..r.cidr] == n.bits[..p.cidr][..r.cidr] == p.bits[..p.cidr][..r.cidr];
    }
  }

  ghost predicate OnPath(s: Store, m: Node, key: Key) {
    m in s.cells && m.Sized() && m.bitlen == |key| && m.bits[..m.cidr] == key[..m.cidr]
  }

  // m lies at or under n.
  ghost predicate Under(s: Store, n: Node?, m: Node) {
    n != null && n in s.cells && n.Sized() && m.Sized() && n.bitlen == m.bitlen
    && n.cidr <= m.cidr && n.bits[..n.cidr] == m.bits[..n.cidr]
  }

  lemma ParentOnPath(s: Store, m: Node, key: Key)
    requires Shape(s) && OnPath(s, m, key) && s.cells[m].parent != null
    ensures var p := s.cells[m].parent;
      OnPath(s, p, key) && p.cidr < m.cidr && s.cells[p].Bit(p.Choose(key)) == m
  {
    var p := s.cells[m].parent;
    assert Linked(s, m) && Linked(s, p) && Extends(p, s.cells[m].slot, m);
    assert p.bits[..p.cidr] == m.bits[..m.cidr][..p.cidr] == key[..m.cidr][..p.cidr] == key[..p.cidr];
    assert m.bits[..m.cidr][p.cidr] == key[..m.cidr][p.cidr];
  }

  // Two nodes whose prefixes lie on one key are comparable: the longer hangs below the shorter, in the
  // slot the key selects, and equal lengths mean one node.
  lemma LongerIsBelow(s: Store, cur: Node, m: Node, key: Key)
    requires Shape(s) && OnPath(s, cur, key) && OnPath(s, m, key) && cur != m && cur.cidr <= m.cidr
    ensures cur.cidr < m.cidr
    ensures Under(s, s.cells[cur].Bit(cur.Choose(key)), m)
    decreases cur.cidr + m.cidr
  {
    assert Linked(s, cur) && Linked(s, m);
    var p, q := s.cells[m].parent, s.cells[cur].parent;
    if q != null { ParentOnPath(s, cur, key); }
    if p == null {
      RootIsLeast(s, cur);
      if q != null { RootIsLeast(s, q); }
    } else {
      ParentOnPath(s, m, key);
      if p == cur {
      } else if p.cidr >= cur.cidr {
        LongerIsBelow(s, cur, p, key);
        UnderTrans(s, s.cells[cur].Bit(cur.Choose(key)), p, m, key);
      } else if q == null {
        RootIsLeast(s, p);
      } else if p == q {
      } else if p.cidr <= q.cidr {
        LongerIsBelow(s, p, q, key);
      } else {
        LongerIsBelow(s, q, p, key);
      }
    }
  }

  lemma UnderTrans(s: Store, n: Node?, p: Node, m: Node, key: Key)
    requires Under(s, n, p) && OnPath(s, p, key) && OnPath(s, m, key) && p.cidr <= m.cidr
    ensures Under(s, n, m)
  {
    assert n.bits[..n.cidr] == p.bits[..p.cidr][..n.cidr] == key[..p.cidr][..n.cidr] == key[..m.cidr][..n.cidr]
      == m.bits[..n.cidr];
  }

  lemma PrefixesDistinct(s: Store, m: Node, n: Node)
    requires Shape(s) && m in s.cells && n in s.cells && m.Pre() == n.Pre()
    ensures m == n
  {
    assert Linked(s, m) && Linked(s, n);
    if m != n { LongerIsBelow(s, m, n, n.bits); }
  }

  // ---------------------------------------------------------------- routes

  ghost predicate Routed(s: Store, p: Prefix, n: Node) {
    n in s.cells && n.Pre() == p && s.cells[n].peer != null
  }

  ghost function Owner(s: Store, p: Prefix): Peer
    requires exists n | n in s.cells :: Routed(s, p, n)
  {
    var n :| n in s.cells && Routed(s, p, n);
    s.cells[n].peer
  }

  // The abstract table: which peer owns which prefix.
  ghost function Routes(s: Store): map<Prefix, Peer> {
    map p | p in (set n | n in s.cells && Routed(s, n.Pre(), n) :: n.Pre()) :: Owner(s, p)
  }

  lemma RouteOf(s: Store, p: Prefix, n: Node)
    requires Shape(s) && Routed(s, p, n)
    ensures p in Routes(s) && Routes(s)[p] == s.cells[n].peer
  {
    var m :| m in s.cells && Routed(s, p, m) && Owner(s, p) == s.cells[m].peer;
    assert Routed(s, p, m);
    PrefixesDistinct(s, m, n);
  }

  lemma NodeOfRoute(s: Store, p: Prefix) returns (n: Node)
    requires Shape(s) && p in Routes(s)
    ensures Routed(s, p, n) && Routes(s)[p] == s.cells[n].peer
  {
    n :| n in s.cells && Routed(s, p, n);
    RouteOf(s, p, n);
  }

  // ---------------------------------------------------------------- changing one place

  // The occupant of a place: a child slot of parent, or the root of an address family.
  ghost function Held(s: Store, parent: Node?, b: nat, bits: nat): Node?
    requires parent != null ==> parent in s.cells
  {
    if parent == null then s.Root(bits) else s.cells[parent].Bit(b)
  }

  // From s to t, one place changed hands from o to c. The cells of o and c may have changed too, but only
  // in the way back when they are nodes of both; whatever else s had, t still has.
  ghost predicate Handed(s: Store, t: Store, parent: Node?, b: nat, bits: nat, o: Node?, c: Node?) {
    (bits == 32 || bits == 128) && (parent != null ==>
      b < 2 && parent in s.cells && parent in t.cells && parent != o && parent != c)
    && Held(s, parent, b, bits) == o
    && (if parent == null then t.Root(bits) == c && t.Root(160 - bits) == s.Root(160 - bits)
        else t.root4 == s.root4 && t.root6 == s.root6 && t.cells[parent] == s.cells[parent].SetBit(b, c))
    && (forall k | k in s.cells && k != o && k != c && k != parent :: k in t.cells && t.cells[k] == s.cells[k])
    && (c != null && c in s.cells ==> s.cells[c].parent == o != null && c in t.cells && SameBits(s, t, c))
    && (o != null && o in t.cells ==> o in s.cells && SameBits(s, t, o))
    && (o != null && o !in t.cells ==>
      o in s.cells && (s.cells[o].bit0 == null || s.cells[o].bit0 == c)
      && (s.cells[o].bit1 == null || s.cells[o].bit1 == c))
  }

  ghost predicate SameBits(s: Store, t: Store, k: Node)
    requires k in s.cells && k in t.cells
  {
    s.cells[k].bit0 == t.cells[k].bit0 && s.cells[k].bit1 == t.cells[k].bit1
  }

  lemma Elsewhere(s: Store, t: Store, parent: Node?, b: nat, bits: nat, o: Node?, c: Node?, m: Node)
    requires Links(s) && Handed(s, t, parent, b, bits, o, c) && m in s.cells && m != parent && m != o && m != c
    ensures Linked(t, m)
  {
    hide Extends;
    assert Linked(s, m);
    if o != null { assert Linked(s, o); }
    if parent != null { assert Linked(s, parent); }
    assert Down(t, m, 0);
    assert Down(t, m, 1);
    assert Up(t, m);
  }

  // The parent of the changed place is still linked when the new occupant fits.
  lemma AtParent(s: Store, t: Store, parent: Node, b: nat, bits: nat, o: Node?, c: Node?)
    requires Links(s) && Handed(s, t, parent, b, bits, o, c)
    requires c != null ==> c in t.cells && t.cells[c].parent == parent && t.cells[c].slot == b && Extends(parent, b, c)
    ensures Linked(t, parent)
  {
    hide Extends;
    assert Linked(s, parent);
    if o != null { assert Linked(s, o); }
    var q := s.cells[parent].parent;
    if q != null { assert Linked(s, q); }
    assert Down(t, parent, 0);
    assert Down(t, parent, 1);
    assert Up(t, parent);
  }

  lemma Occupies(s: Store, t: Store, parent: Node?, b: nat, bits: nat, o: Node?, c: Node)
    requires Links(s) && Handed(s, t, parent, b, bits, o, c) && c in t.cells && c.bitlen == bits
    requires t.cells[c].parent == parent && t.cells[c].slot == (if parent == null then ROOT_SLOT else b)
    ensures Up(t, c)
  {
  }

  lemma AtRoots(s: Store, t: Store, parent: Node?, b: nat, bits: nat, o: Node?, c: Node?)
    requires Links(s) && Handed(s, t, parent, b, bits, o, c)
    requires c != null && parent == null ==> c in t.cells && t.cells[c].parent == null && c.bitlen == bits
    ensures Rooted(t, 32) && Rooted(t, 128)
  {
    if parent != null { assert Linked(s, parent); }
  }

  // ---------------------------------------------------------------- insertion

  // Parent, when there is one, covers n; otherwise n goes to the root of its family.
  ghost predicate Place(s: Store, parent: Node?, n: Node) {
    n.Sized() && n !in s.cells && (parent != null ==> parent in s.cells && Extends(parent, Side(parent, n), n))
  }

  function PlaceSlot(parent: Node?, n: Node): (b: nat)
    ensures b <= 2 && (parent != null ==> b < 2)
  {
    if parent == null then ROOT_SLOT else Side(parent, n)
  }

  ghost function WithLeaf(s: Store, parent: Node?, n: Node, peer: Peer): Store
    requires Place(s, parent, n)
  {
    s.(cells := s.cells[n := Cell(peer, null, null, parent, PlaceSlot(parent, n))])
      .Point(parent, PlaceSlot(parent, n), n.bitlen, n)
  }

  lemma LeafShape(s: Store, parent: Node?, n: Node, peer: Peer)
    requires Shape(s) && Place(s, parent, n) && Held(s, parent, PlaceSlot(parent, n), n.bitlen) == null
    ensures Shape(WithLeaf(s, parent, n, peer))
  {
    hide Extends;
    var b, t := PlaceSlot(parent, n), WithLeaf(s, parent, n, peer);
    assert Handed(s, t, parent, b, n.bitlen, null, n);
    forall m | m in t.cells ensures Linked(t, m) {
      if m == parent { AtParent(s, t, parent, b, n.bitlen, null, n); }
      else if m != n { Elsewhere(s, t, parent, b, n.bitlen, null, n, m); }
    }
    AtRoots(s, t, parent, b, n.bitlen, null, n);
    forall m | m in t.cells ensures Paired(t, m) { assert m != n ==> Paired(s, m); }
  }

  ghost function WithAbove(s: Store, parent: Node?, n: Node, peer: Peer, down: Node): Store
    requires Place(s, parent, n) && down in s.cells
  {
    s.(cells := s.cells
      [n := Cell(peer, null, null, parent, PlaceSlot(parent, n)).SetBit(Side(n, down), down)]
      [down := s.cells[down].(parent := n, slot := Side(n, down))])
      .Point(parent, PlaceSlot(parent, n), n.bitlen, n)
  }

  lemma AboveHanded(s: Store, parent: Node?, n: Node, peer: Peer, down: Node)
    requires Place(s, parent, n) && Held(s, parent, PlaceSlot(parent, n), n.bitlen) == down && down in s.cells
      && down != parent
    ensures var t := WithAbove(s, parent, n, peer, down);
      Handed(s, t, parent, PlaceSlot(parent, n), n.bitlen, down, n) && t.cells.Keys == s.cells.Keys + {n}
      && t.cells[n] == Cell(peer, null, null, parent, PlaceSlot(parent, n)).SetBit(Side(n, down), down)
      && t.cells[down] == s.cells[down].(parent := n, slot := Side(n, down))
  {
  }

  lemma AbovePaired(s: Store, parent: Node?, n: Node, peer: Peer, down: Node)
    requires Shape(s) && Place(s, parent, n) && down in s.cells
    ensures var t := WithAbove(s, parent, n, peer, down); forall m | m in t.cells :: Paired(t, m)
  {
    forall m | m in WithAbove(s, parent, n, peer, down).cells ensures Paired(WithAbove(s, parent, n, peer, down), m) {
      assert m != n ==> Paired(s, m);
    }
  }

  lemma AboveShape(s: Store, parent: Node?, n: Node, peer: Peer, down: Node)
    requires Shape(s) && Place(s, parent, n) && Held(s, parent, PlaceSlot(parent, n), n.bitlen) == down
      && down in s.cells
    requires down != parent && Extends(n, Side(n, down), down)
    ensures Shape(WithAbove(s, parent, n, peer, down))
  {
    hide Extends, WithAbove, Handed;
    var b, t := PlaceSlot(parent, n), WithAbove(s, parent, n, peer, down);
    AboveHanded(s, parent, n, peer, down);
    forall m | m in t.cells ensures Linked(t, m) {
      if m == parent { AtParent(s, t, parent, b, n.bitlen, down, n); }
      else if m == n { Occupies(s, t, parent, b, n.bitlen, down, n); }
      else if m == down { PushedDown(s, t, parent, b, n.bitlen, down, n); }
      else { Elsewhere(s, t, parent, b, n.bitlen, down, n, m); }
    }
    AtRoots(s, t, parent, b, n.bitlen, down, n);
    AbovePaired(s, parent, n, peer, down);
  }

  // A node pushed down keeps its own children.
  lemma PushedDown(s: Store, t: Store, parent: Node?, b: nat, bits: nat, o: Node, c: Node)
    requires Links(s) && Handed(s, t, parent, b, bits, o, c) && o in s.cells && o in t.cells && c !in s.cells
    ensures o.Sized() && Down(t, o, 0) && Down(t, o, 1)
  {
    assert Linked(s, o);
  }

  // A new branch node over what stood in the place and the new node, not yet in the place itself.
  ghost function Forked(s: Store, branch: Node, n: Node, peer: Peer, down: Node): Store
    requires down in s.cells
  {
    s.(cells := s.cells
      [branch := Cell(null, null, null, null, ROOT_SLOT).SetBit(Side(branch, down), down).SetBit(Side(branch, n), n)]
      [n := Cell(peer, null, null, branch, Side(branch, n))]
      [down := s.cells[down].(parent := branch, slot := Side(branch, down))])
  }

  ghost function WithBranch(s: Store, parent: Node?, branch: Node, n: Node, peer: Peer, down: Node): Store
    requires Place(s, parent, branch) && down in s.cells && n !in s.cells && n != branch
  {
    Forked(s, branch, n, peer, down).Connected(parent, PlaceSlot(parent, branch), branch)
  }

  lemma BranchHanded(s: Store, parent: Node?, branch: Node, n: Node, peer: Peer, down: Node)
    requires Place(s, parent, branch) && Held(s, parent, PlaceSlot(parent, branch), branch.bitlen) == down
      && down in s.cells && down != parent
    requires n !in s.cells && n != branch && Side(branch, down) != Side(branch, n)
    ensures var t := WithBranch(s, parent, branch, n, peer, down);
      Handed(s, t, parent, PlaceSlot(parent, branch), branch.bitlen, down, branch)
        && t.cells.Keys == s.cells.Keys + {n, branch}
      && t.cells[branch]
         == Cell(null, null, null, parent, PlaceSlot(parent, branch)).SetBit(Side(branch, down),
           down).SetBit(Side(branch, n), n)
      && t.cells[n] == Cell(peer, null, null, branch, Side(branch, n))
      && t.cells[down] == s.cells[down].(parent := branch, slot := Side(branch, down))
  {
  }

  lemma BranchPaired(s: Store, parent: Node?, branch: Node, n: Node, peer: Peer, down: Node)
    requires Shape(s) && Place(s, parent, branch) && down in s.cells
    requires n !in s.cells && n != branch && Side(branch, down) != Side(branch, n)
    ensures var t := WithBranch(s, parent, branch, n, peer, down); forall m | m in t.cells :: Paired(t, m)
  {
    var t := WithBranch(s, parent, branch, n, peer, down);
    forall m | m in t.cells ensures Paired(t, m) {
      assert m != n && m != branch ==> Paired(s, m);
    }
  }

  lemma BranchShape(s: Store, parent: Node?, branch: Node, n: Node, peer: Peer, down: Node)
    requires Shape(s) && Place(s, parent, branch) && Held(s, parent, PlaceSlot(parent, branch), branch.bitlen) == down
      && down in s.cells
    requires n !in s.cells && n != branch && down != parent && n.Sized() && Side(branch, down) != Side(branch, n)
    requires Extends(branch, Side(branch, down), down) && Extends(branch, Side(branch, n), n)
    ensures Shape(WithBranch(s, parent, branch, n, peer, down))
  {
    hide Extends, WithBranch, Handed;
    var b, t := PlaceSlot(parent, branch), WithBranch(s, parent, branch, n, peer, down);
    BranchHanded(s, parent, branch, n, peer, down);
    forall m | m in t.cells ensures Linked(t, m) {
      if m == parent { AtParent(s, t, parent, b, branch.bitlen, down, branch); }
      else if m == n { }
      else if m == branch { Occupies(s, t, parent, b, branch.bitlen, down, branch); }
      else if m == down { PushedDown(s, t, parent, b, branch.bitlen, down, branch); }
      else { Elsewhere(s, t, parent, b, branch.bitlen, down, branch, m); }
    }
    AtRoots(s, t, parent, b, branch.bitlen, down, branch);
    BranchPaired(s, parent, branch, n, peer, down);
  }

  // ---------------------------------------------------------------- removal

  ghost function OnlyChild(s: Store, node: Node): Node?
    requires node in s.cells
  {
    if s.cells[node].bit0 != null then s.cells[node].bit0 else s.cells[node].bit1
  }

  // Splice a node with at most one child out of the trie.
  ghost function Cut(s: Store, node: Node): Store
    requires Linked(s, node)
  {
    var p, b, child := s.cells[node].parent, s.cells[node].slot, OnlyChild(s, node);
    var hung := if child == null then s else s.(cells := s.cells[child := s.cells[child].(parent := p, slot := b)]);
    var cut := hung.Point(p, b, node.bitlen, child);
    cut.(cells := cut.cells - {node})
  }

  lemma SpliceFacts(s: Store, node: Node)
    requires Links(s) && Slim(s, node)
    ensures var p, c := s.cells[node].parent, OnlyChild(s, node);
      (p != null ==> p in s.cells && s.cells[node].slot < 2 && p != node) && (c != null ==> c in s.cells && c != node)
      && (p == null ==> s.cells[node].slot == ROOT_SLOT)
  {
    var p := s.cells[node].parent;
    if p != null { assert Linked(s, p); }
  }

  lemma ParentPaired(s: Store, node: Node)
    requires Shape(s) && node in s.cells
    ensures var t, p := WithPeer(s, node, null), s.cells[node].parent;
      (p != null ==> p in s.cells && p != node && s.cells[node].slot < 2 && Paired(t, p))
        && (p == null ==> s.cells[node].slot == ROOT_SLOT)
  {
    assert Linked(s, node);
    var p := s.cells[node].parent;
    if p != null { assert Linked(s, p) && Paired(s, p); }
  }

  ghost predicate Slim(s: Store, node: Node) {
    Linked(s, node) && (s.cells[node].bit0 == null || s.cells[node].bit1 == null)
  }

  lemma ExtendsTrans(p: Node, b: nat, n: Node, d: nat, c: Node)
    requires Extends(p, b, n) && Extends(n, d, c)
    ensures Extends(p, b, c)
  {
    assert c.bits[..p.cidr] == c.bits[..n.cidr][..p.cidr] == n.bits[..n.cidr][..p.cidr];
    assert c.bits[..n.cidr][p.cidr] == n.bits[..n.cidr][p.cidr];
  }

  lemma CutChild(s: Store, node: Node)
    requires Links(s) && Slim(s, node)
    ensures var p, child := s.cells[node].parent, OnlyChild(s, node);
      child != null && p != null ==> Extends(p, s.cells[node].slot, child)
  {
    var p, child := s.cells[node].parent, OnlyChild(s, node);
    if p != null {
      assert Linked(s, p);
      if child != null { ExtendsTrans(p, s.cells[node].slot, node, s.cells[child].slot, child); }
    }
  }

  lemma CutHanded(s: Store, node: Node)
    requires Links(s) && Slim(s, node)
    ensures var t, p, b, child := Cut(s, node), s.cells[node].parent, s.cells[node].slot, OnlyChild(s, node);
      Handed(s, t, p, b, node.bitlen, node, child) && t.cells.Keys == s.cells.Keys - {node}
      && (child != null ==>
        child in s.cells && child in t.cells
        && t.cells[child] == s.cells[child].(parent := p, slot := b) && child.bitlen == node.bitlen)
      && (child != null && p != null ==> Extends(p, b, child))
  {
    CutChild(s, node);
    var p := s.cells[node].parent;
    if p != null { assert Linked(s, p); }
  }

  lemma CutLinks(s: Store, node: Node)
    requires Links(s) && Slim(s, node)
    ensures Links(Cut(s, node))
  {
    hide Extends, Cut, Handed;
    var t, p, b, child := Cut(s, node), s.cells[node].parent, s.cells[node].slot, OnlyChild(s, node);
    CutHanded(s, node);
    forall m | m in t.cells ensures Linked(t, m) {
      if m == p { AtParent(s, t, p, b, node.bitlen, node, child); }
      else if m == child {
        PulledUp(s, t, p, b, node.bitlen, node, child);
        Occupies(s, t, p, b, node.bitlen, node, child);
      }
      else { Elsewhere(s, t, p, b, node.bitlen, node, child, m); }
    }
    AtRoots(s, t, p, b, node.bitlen, node, child);
  }

  // A node pulled up keeps its own children.
  lemma PulledUp(s: Store, t: Store, parent: Node?, b: nat, bits: nat, o: Node, c: Node)
    requires Links(s) && Handed(s, t, parent, b, bits, o, c) && c in s.cells
    ensures c.Sized() && Down(t, c, 0) && Down(t, c, 1)
  {
    assert Linked(s, c) && Linked(s, o);
    if parent != null { assert Linked(s, parent); }
  }

  ghost function WithPeer(s: Store, n: Node, peer: Peer?): Store
    requires n in s.cells
  {
    s.(cells := s.cells[n := s.cells[n].(peer := peer)])
  }

  lemma PeerLinks(s: Store, n: Node, peer: Peer?)
    requires Links(s) && n in s.cells
    ensures Links(WithPeer(s, n, peer))
  {
    hide Extends;
    var t := WithPeer(s, n, peer);
    forall m | m in t.cells ensures Linked(t, m) {
      assert Linked(s, m);
    }
  }

  lemma PeerShape(s: Store, n: Node, peer: Peer)
    requires Shape(s) && n in s.cells
    ensures Shape(WithPeer(s, n, peer))
  {
    PeerLinks(s, n, peer);
    forall m | m in WithPeer(s, n, peer).cells ensures Paired(WithPeer(s, n, peer), m) {
      assert Paired(s, m);
    }
  }

  // Splice a node out; a leaf that goes may leave its peerless parent with a single child, and then the
  // parent is spliced out as well.
  ghost function Pruned(s: Store, node: Node): Store
    requires Links(s) && Slim(s, node)
  {
    CutLinks(s, node);
    CutHanded(s, node);
    var t, p := Cut(s, node), s.cells[node].parent;
    if OnlyChild(s, node) == null && p != null && s.cells[p].peer == null then
      assert Linked(t, p);
      Cut(t, p)
    else t
  }

  // A node that loses its peer stays when it is a branching point.
  ghost function Without(s: Store, node: Node): Store
    requires Links(s) && node in s.cells
  {
    PeerLinks(s, node, null);
    var t := WithPeer(s, node, null);
    assert Linked(t, node);
    if t.cells[node].bit0 != null && t.cells[node].bit1 != null then t else Pruned(t, node)
  }

  // Splicing keeps every branching point except the parent of a leaf.
  lemma CutPaired(s: Store, node: Node, m: Node)
    requires Links(s) && Slim(s, node) && m in s.cells && m != node && Paired(s, m)
    requires m == s.cells[node].parent ==> OnlyChild(s, node) != null || s.cells[m].peer != null
    ensures m in Cut(s, node).cells && Paired(Cut(s, node), m) && Cut(s, node).cells[m].peer == s.cells[m].peer
  {
    hide Extends;
  }

  lemma WithoutShape(s: Store, node: Node)
    requires Shape(s) && node in s.cells
    ensures Shape(Without(s, node))
  {
    hide Extends, Handed, Cut;
    PeerLinks(s, node, null);
    var s0 := WithPeer(s, node, null);
    var cell := s0.cells[node];
    var p := cell.parent;
    assert Linked(s0, node);
    forall m | m in s0.cells && m != node ensures Paired(s0, m) { assert Paired(s, m); }
    if cell.bit0 == null || cell.bit1 == null {
      CutLinks(s0, node);
      CutHanded(s0, node);
      var s1 := Cut(s0, node);
      forall m | m in s1.cells && !(m == p && OnlyChild(s0, node) == null && s0.cells[m].peer == null)
        ensures Paired(s1, m) {
        CutPaired(s0, node, m);
      }
      if OnlyChild(s0, node) == null && p != null && s0.cells[p].peer == null {
        LeafGone(s0, node);
        CutLinks(s1, p);
        CutHanded(s1, p);
        forall m | m in Cut(s1, p).cells ensures Paired(Cut(s1, p), m) { CutPaired(s1, p, m); }
      }
    }
  }

  // A peerless parent that loses a leaf is left with exactly the other child.
  lemma LeafGone(s: Store, node: Node)
    requires Links(s) && Slim(s, node) && OnlyChild(s, node) == null
    requires var p := s.cells[node].parent; p != null && s.cells[p].peer == null && Paired(s, p)
    ensures var t, p := Cut(s, node), s.cells[node].parent;
      Slim(t, p) && OnlyChild(t, p) == s.cells[p].Bit(1 - s.cells[node].slot) && OnlyChild(t, p) != null
  {
    CutLinks(s, node);
    assert Linked(s, s.cells[node].parent);
    assert Linked(Cut(s, node), s.cells[node].parent);
  }

  // ---------------------------------------------------------------- effect on the routes

  ghost predicate SamePeer(s: Store, t: Store, m: Node) {
    (if m in s.cells then s.cells[m].peer else null) == (if m in t.cells then t.cells[m].peer else null)
  }

  ghost predicate OthersSame(s: Store, t: Store, n: Node) {
    forall m {:trigger SamePeer(s, t, m)} | m in s.cells.Keys + t.cells.Keys :: m != n ==> SamePeer(s, t, m)
  }

  lemma RoutesSet(s: Store, t: Store, n: Node, peer: Peer)
    requires Shape(s) && Shape(t) && n in t.cells && t.cells[n].peer == peer
    requires OthersSame(s, t, n)
    ensures Routes(t) == Routes(s)[n.Pre() := peer]
  {
    var u := Routes(s)[n.Pre() := peer];
    RouteOf(t, n.Pre(), n);
    forall p | p in u ensures p in Routes(t) && Routes(t)[p] == u[p] {
      if p != n.Pre() {
        var m := NodeOfRoute(s, p);
        assert SamePeer(s, t, m);
        RouteOf(t, p, m);
      }
    }
    forall p | p in Routes(t) ensures p in u {
      var m := NodeOfRoute(t, p);
      if m != n { assert SamePeer(s, t, m); RouteOf(s, p, m); }
    }
  }

  lemma RoutesDrop(s: Store, t: Store, n: Node)
    requires Shape(s) && Shape(t) && n in s.cells && (n in t.cells ==> t.cells[n].peer == null)
    requires OthersSame(s, t, n)
    ensures Routes(t) == Routes(s) - {n.Pre()}
  {
    var u := Routes(s) - {n.Pre()};
    forall p | p in u ensures p in Routes(t) && Routes(t)[p] == u[p] {
      var m := NodeOfRoute(s, p);
      assert m != n && SamePeer(s, t, m);
      RouteOf(t, p, m);
    }
    forall p | p in Routes(t) ensures p in u {
      var m := NodeOfRoute(t, p);
      assert m != n && SamePeer(s, t, m);
      RouteOf(s, p, m);
      if p == n.Pre() { PrefixesDistinct(s, m, n); }
    }
  }

  lemma CutPeers(s: Store, node: Node)
    requires Links(s) && Slim(s, node)
    ensures forall m | m in s.cells :: m != node ==>
      m in Cut(s, node).cells && Cut(s, node).cells[m].peer == s.cells[m].peer
    ensures Cut(s, node).cells.Keys == s.cells.Keys - {node}
  {
    CutHanded(s, node);
  }

  lemma WithoutPeers(s: Store, node: Node)
    requires Shape(s) && node in s.cells
    ensures var t := Without(s, node);
      (node in t.cells ==> t.cells[node].peer == null) && t.cells.Keys <= s.cells.Keys
      && OthersSame(s, t, node)
  {
    PeerLinks(s, node, null);
    ParentPaired(s, node);
    var s0 := WithPeer(s, node, null);
    assert Linked(s0, node);
    hide Shape, Links, Linked, Extends, Cut;
    if Slim(s0, node) {
      var p := s0.cells[node].parent;
      CutPeers(s0, node);
      CutLinks(s0, node);
      if OnlyChild(s0, node) == null && p != null && s0.cells[p].peer == null {
        LeafGone(s0, node);
        CutPeers(Cut(s0, node), p);
      }
    }
  }

  lemma WithoutRoutes(s: Store, node: Node)
    requires Shape(s) && node in s.cells
    ensures Shape(Without(s, node)) && Routes(Without(s, node)) == Routes(s) - {node.Pre()}
  {
    WithoutShape(s, node);
    WithoutPeers(s, node);
    RoutesDrop(s, Without(s, node), node);
  }

  // ---------------------------------------------------------------- longest match

  // The reference: try every prefix length of the address, longest first.
  ghost function LongestMatch(routes: map<Prefix, Peer>, ip: Key, n: nat): Peer?
    requires n <= |ip|
  {
    if Prefix(|ip|, ip[..n]) in routes then routes[Prefix(|ip|, ip[..n])]
    else if n == 0 then null
    else LongestMatch(routes, ip, n - 1)
  }

  lemma {:induction false} LongestMatchFinds(routes: map<Prefix, Peer>, ip: Key, n: nat, k: nat)
    requires k <= n <= |ip| && Prefix(|ip|, ip[..k]) in routes
    requires forall j | k < j <= n :: Prefix(|ip|, ip[..j]) !in routes
    ensures LongestMatch(routes, ip, n) == routes[Prefix(|ip|, ip[..k])]
  {
    if k < n { LongestMatchFinds(routes, ip, n - 1, k); }
  }

  lemma {:induction false} LongestMatchNone(routes: map<Prefix, Peer>, ip: Key, n: nat)
    requires n <= |ip|
    requires forall j | 0 <= j <= n :: Prefix(|ip|, ip[..j]) !in routes
    ensures LongestMatch(routes, ip, n) == null
  {
    if n > 0 { LongestMatchNone(routes, ip, n - 1); }
  }

  // One turn of the descent: whatever the key still matches is the node itself or lies under its chosen child.
  lemma DescendOne(s: Store, node: Node, key: Key)
    requires Shape(s) && OnPath(s, node, key)
    ensures forall m: Node | OnPath(s, m, key) && Under(s, node, m) && m != node ::
      node.cidr < node.bitlen && Under(s, s.cells[node].Bit(node.Choose(key)), m)
  {
    forall m: Node | OnPath(s, m, key) && Under(s, node, m) && m != node
      ensures node.cidr < node.bitlen && Under(s, s.cells[node].Bit(node.Choose(key)), m)
    {
      LongerIsBelow(s, node, m, key);
    }
  }

  lemma StartDescent(s: Store, bits: nat, key: Key)
    requires Shape(s) && |key| == bits && (bits == 32 || bits == 128)
    ensures forall m: Node | OnPath(s, m, key) :: Under(s, s.Root(bits), m)
    ensures s.Root(bits) != null ==> s.Root(bits) in s.cells && s.Root(bits).Sized() && s.Root(bits).bitlen == bits
  {
    forall m: Node | OnPath(s, m, key) ensures Under(s, s.Root(bits), m) { RootIsLeast(s, m); }
    if s.Root(bits) != null { assert Linked(s, s.Root(bits)); }
  }

  lemma UnderMatches(s: Store, node: Node?, m: Node, key: Key)
    requires OnPath(s, m, key) && Under(s, node, m)
    ensures node != null && node.Sized() && node.bitlen == |key| && node.Matches(key)
  {
    assert node.bits[..node.cidr] == m.bits[..m.cidr][..node.cidr] == key[..m.cidr][..node.cidr] == key[..node.cidr];
  }

  lemma ChildOk(s: Store, node: Node, b: nat)
    requires Shape(s) && node in s.cells && b < 2
    ensures var c := s.cells[node].Bit(b);
      node.Sized() && (c != null ==>
        c in s.cells && c.Sized() && c.bitlen == node.bitlen && node.cidr < c.cidr && Extends(node, b, c))
  {
    assert Linked(s, node);
    assert Down(s, node, b);
  }

  lemma FoundIsLongest(s: Store, ip: Key, node: Node?)
    requires Shape(s) && (|ip| == 32 || |ip| == 128)
    requires node != null ==> OnPath(s, node, ip) && s.cells[node].peer != null
    requires forall m: Node | OnPath(s, m, ip) && s.cells[m].peer != null :: node != null && m.cidr <= node.cidr
    ensures LongestMatch(Routes(s), ip, |ip|) == if node == null then null else s.cells[node].peer
  {
    forall j | 0 <= j <= |ip| && Prefix(|ip|, ip[..j]) in Routes(s) ensures node != null && j <= node.cidr {
      var m := NodeOfRoute(s, Prefix(|ip|, ip[..j]));
      assert Linked(s, m) && OnPath(s, m, ip);
    }
    if node == null {
      LongestMatchNone(Routes(s), ip, |ip|);
    } else {
      assert node.Pre() == Prefix(|ip|, ip[..node.cidr]);
      RouteOf(s, node.Pre(), node);
      LongestMatchFinds(Routes(s), ip, |ip|, node.cidr);
    }
  }

  lemma NotPlaced(s: Store, key: Key, cidr: nat, node: Node?)
    requires Shape(s) && cidr <= |key|
    requires forall m: Node | OnPath(s, m, key) && m.cidr == cidr :: Under(s, node, m)
    requires node != null ==> node.Sized() && node.bitlen == |key|
    requires !(node != null && node.cidr <= cidr && node.Matches(key))
    ensures !Placed(s, Prefix(|key|, key[..cidr]))
  {
    forall m | m in s.cells ensures m.Pre() != Prefix(|key|, key[..cidr]) {
      if m.Pre() == Prefix(|key|, key[..cidr]) {
        assert Linked(s, m);
        assert OnPath(s, m, key) && m.cidr == cidr;
        UnderMatches(s, node, m, key);
        assert false;
      }
    }
  }

  // Some node, with or without a peer, stands for the prefix.
  ghost predicate Placed(s: Store, p: Prefix) {
    exists n | n in s.cells :: n.Pre() == p
  }

  // ---------------------------------------------------------------- peer lists

  function Erase(list: seq<Node>, n: Node): seq<Node> {
    if list == [] then [] else if list[0] == n then list[1..] else [list[0]] + Erase(list[1..], n)
  }

  ghost predicate Distinct(list: seq<Node>) {
    forall i, j | 0 <= i < j < |list| :: list[i] != list[j]
  }

  lemma {:induction false} EraseSpec(list: seq<Node>, n: Node)
    requires Distinct(list)
    ensures Distinct(Erase(list, n))
    ensures forall m: Node | m in list && m != n :: m in Erase(list, n)
    ensures forall i | 0 <= i < |Erase(list, n)| :: Erase(list, n)[i] in list && Erase(list, n)[i] != n
  {
    if list != [] {
      var h, rest := list[0], list[1..];
      assert list == [h] + rest && h !in rest;
      EraseSpec(rest, n);
      assert h != n ==> h !in Erase(rest, n);
    }
  }

  // A peer's list holds exactly the nodes that name it, each once.
  ghost predicate Listed(s: Store, lists: map<Peer, seq<Node>>) {
    (forall p | p in lists :: Distinct(lists[p]))
    && (forall n | n in s.cells && s.cells[n].peer != null :: s.cells[n].peer in lists && n in lists[s.cells[n].peer])
    && (forall p, n | p in lists && n in lists[p] :: n in s.cells && s.cells[n].peer == p)
  }

  lemma ListedGain(s: Store, t: Store, lists: map<Peer, seq<Node>>, n: Node, peer: Peer)
    requires Listed(s, lists) && peer in lists && n in t.cells && t.cells[n].peer == peer
    requires n in s.cells ==> s.cells[n].peer == null
    requires OthersSame(s, t, n)
    ensures Listed(t, lists[peer := lists[peer] + [n]])
  {
    var lists' := lists[peer := lists[peer] + [n]];
    forall m | m in t.cells && t.cells[m].peer != null
      ensures t.cells[m].peer in lists' && m in lists'[t.cells[m].peer] {
      assert SamePeer(s, t, m) || m == n;
      assert n in lists'[peer] by { assert lists'[peer][|lists[peer]|] == n; }
    }
    forall p, m | p in lists' && m in lists'[p] ensures m in t.cells && t.cells[m].peer == p {
      assert m in lists[p] || m == n;
      if m != n { assert m in s.cells && SamePeer(s, t, m); }
    }
  }

  lemma ListedLoss(s: Store, t: Store, lists: map<Peer, seq<Node>>, n: Node)
    requires Listed(s, lists) && n in s.cells && s.cells[n].peer != null && (n in t.cells ==> t.cells[n].peer == null)
    requires OthersSame(s, t, n)
    ensures s.cells[n].peer in lists
    ensures Listed(t, lists[s.cells[n].peer := Erase(lists[s.cells[n].peer], n)])
  {
    var q := s.cells[n].peer;
    EraseSpec(lists[q], n);
    var lists' := lists[q := Erase(lists[q], n)];
    forall m | m in t.cells && t.cells[m].peer != null
      ensures t.cells[m].peer in lists' && m in lists'[t.cells[m].peer] {
      assert SamePeer(s, t, m);
    }
    forall p, m | p in lists' && m in lists'[p] ensures m in t.cells && t.cells[m].peer == p {
      if p == q { assert m in Erase(lists[q], n) && m in lists[q]; } else { assert m in lists[p]; }
      assert SamePeer(s, t, m) || m == n;
    }
  }

  // What the routes say about a prefix, read off the node that stands for it.
  lemma RouteAtNode(s: Store, bits: nat, key: Key, cidr: nat, exact: bool, node: Node?)
    requires Shape(s) && |key| == bits && cidr <= bits
    requires exact <==> Placed(s, Prefix(bits, key[..cidr]))
    requires exact ==> node != null && OnPath(s, node, key) && node.cidr == cidr
    ensures !exact ==> Prefix(bits, key[..cidr]) !in Routes(s)
    ensures exact ==> node.Pre() == Prefix(bits, key[..cidr])
    ensures exact && s.cells[node].peer == null ==> node.Pre() !in Routes(s)
    ensures exact && s.cells[node].peer != null ==>
      node.Pre() in Routes(s) && Routes(s)[node.Pre()] == s.cells[node].peer
  {
    var p := Prefix(bits, key[..cidr]);
    if p in Routes(s) {
      var m := NodeOfRoute(s, p);
      assert m in s.cells && m.Pre() == p;
      if exact { PrefixesDistinct(s, m, node); }
    }
    if exact && s.cells[node].peer != null { RouteOf(s, p, node); }
  }

  // ---------------------------------------------------------------- where a new prefix goes

  lemma FitsUnder(s: Store, parent: Node?, n: Node)
    requires n.Sized() && n !in s.cells && (parent != null ==> OnPath(s, parent, n.bits) && parent.cidr < n.cidr)
    ensures Place(s, parent, n) && (parent != null ==> Side(parent, n) == parent.Choose(n.bits))
  {
  }

  // The new prefix covers what already stands there.
  lemma CoversDown(n: Node, down: Node)
    requires n.Sized() && down.Sized() && n.bitlen == down.bitlen && !(down.cidr <= n.cidr && down.Matches(n.bits))
    requires CommonBits(down.bits, n.bits) >= n.cidr
    ensures Extends(n, Side(n, down), down)
  {
    CommonBitsIff(down.bits, n.bits, n.cidr);
  }

  // The new prefix and what stands there part ways at the branch.
  lemma PartsAt(branch: Node, n: Node, down: Node)
    requires n.Sized() && down.Sized() && n.bitlen == down.bitlen && !(down.cidr <= n.cidr && down.Matches(n.bits))
    requires branch.bitlen == n.bitlen && branch.bits == n.bits && branch.cidr == CommonBits(down.bits, n.bits) < n.cidr
    ensures branch.Sized() && Extends(branch, Side(branch, down), down) && Extends(branch, Side(branch, n), n)
    ensures Side(branch, down) != Side(branch, n)
  {
    CommonBitsSpec(down.bits, n.bits);
  }

  // The place the descent stopped at still covers the branch, and the branch goes to the same slot.
  lemma BranchFits(s: Store, parent: Node?, branch: Node, n: Node, down: Node)
    requires Shape(s) && Place(s, parent, n) && n.bitlen == down.bitlen && down in s.cells && down.Sized()
    requires Held(s, parent, PlaceSlot(parent, n), n.bitlen) == down && branch !in s.cells
    requires branch.bitlen == n.bitlen && branch.bits == n.bits && branch.cidr == CommonBits(down.bits, n.bits) < n.cidr
    ensures Place(s, parent, branch) && PlaceSlot(parent, branch) == PlaceSlot(parent, n)
  {
    CommonBitsSpec(down.bits, n.bits);
    if parent != null {
      ChildOk(s, parent, Side(parent, n));
      assert down.bits[..parent.cidr + 1] == n.bits[..parent.cidr + 1];
      CommonBitsIff(down.bits, n.bits, parent.cidr + 1);
      assert branch.bits[..parent.cidr] == n.bits[..parent.cidr];
    }
  }

  lemma HeldSame(s: Store, parent: Node?, branch: Node, n: Node)
    requires parent != null ==> parent in s.cells
    requires PlaceSlot(parent, branch) == PlaceSlot(parent, n) && branch.bitlen == n.bitlen
    ensures Held(s, parent, PlaceSlot(parent, branch), branch.bitlen) == Held(s, parent, PlaceSlot(parent, n), n.bitlen)
  {
  }

  lemma DownIsNotParent(s: Store, parent: Node?, n: Node)
    requires Shape(s) && Place(s, parent, n)
    ensures parent != null ==> Held(s, parent, PlaceSlot(parent, n), n.bitlen) != parent
  {
    if parent != null { ChildOk(s, parent, Side(parent, n)); }
  }

  lemma LeafSteps(s: Store, parent: Node?, n: Node, peer: Peer)
    requires Place(s, parent, n)
    ensures s.New(n, peer).Connected(parent, PlaceSlot(parent, n), n) == WithLeaf(s, parent, n, peer)
  {
  }

  lemma AboveSteps(s: Store, parent: Node?, n: Node, peer: Peer, down: Node)
    requires Place(s, parent, n) && down in s.cells && down != parent
    ensures s.New(n, peer).Connected(n, Side(n, down), down).Connected(parent, PlaceSlot(parent, n), n)
      == WithAbove(s, parent, n, peer, down)
  {
    var s1 := s.New(n, peer).Connected(n, Side(n, down), down);
    assert s1 == s.(cells := s.cells[n := Cell(peer, null, null, null, ROOT_SLOT).SetBit(Side(n, down), down)]
                                    [down := s.cells[down].(parent := n, slot := Side(n, down))]);
  }

  lemma ForkSteps(s: Store, branch: Node, n: Node, peer: Peer, down: Node)
    requires down in s.cells && branch !in s.cells && n !in s.cells && n != branch
    ensures s.New(n, peer).New(branch, null)
      .Connected(branch, Side(branch, down), down).Connected(branch, Side(branch, n), n)
      == Forked(s, branch, n, peer, down)
  {
    var s2 := s.New(n, peer).New(branch, null).Connected(branch, Side(branch, down), down);
    var b := Cell(null, null, null, null, ROOT_SLOT).SetBit(Side(branch, down), down);
    var d := s.cells[down].(parent := branch, slot := Side(branch, down));
    assert s2 == s.(cells := s.cells[n := Cell(peer, null, null, null, ROOT_SLOT)][branch := b][down := d]);
  }

  // One more prefix, and a branch node perhaps: everybody else keeps its peer.
  ghost predicate Gained(s: Store, t: Store, n: Node, peer: Peer) {
    n in t.cells && t.cells[n].peer == peer && (n in s.cells ==> s.cells[n].peer == null)
    && OthersSame(s, t, n)
  }

  lemma LeafGained(s: Store, parent: Node?, n: Node, peer: Peer)
    requires Place(s, parent, n)
    ensures Gained(s, WithLeaf(s, parent, n, peer), n, peer)
  {
  }

  lemma AboveGained(s: Store, parent: Node?, n: Node, peer: Peer, down: Node)
    requires Place(s, parent, n) && down in s.cells
    ensures Gained(s, WithAbove(s, parent, n, peer, down), n, peer)
  {
  }

  lemma BranchGained(s: Store, parent: Node?, branch: Node, n: Node, peer: Peer, down: Node)
    requires Place(s, parent, branch) && down in s.cells && n !in s.cells && n != branch
    ensures Gained(s, WithBranch(s, parent, branch, n, peer, down), n, peer)
  {
  }

  lemma GainedRoutes(s: Store, t: Store, lists: map<Peer, seq<Node>>, n: Node, peer: Peer)
    requires Shape(s) && Shape(t) && Gained(s, t, n, peer) && Listed(s, lists) && peer in lists
    ensures Routes(t) == Routes(s)[n.Pre() := peer] && Listed(t, lists[peer := lists[peer] + [n]])
  {
    RoutesSet(s, t, n, peer);
    ListedGain(s, t, lists, n, peer);
  }

  // What an insertion makes of routes and lists.
  ghost predicate Inserted(s: Store, t: Store, lists: map<Peer, seq<Node>>, n: Node, peer: Peer) {
    Shape(t) && peer in lists && Routes(t) == Routes(s)[n.Pre() := peer] && Listed(t, lists[peer := lists[peer] + [n]])
  }

  lemma LeafInserted(s: Store, lists: map<Peer, seq<Node>>, parent: Node?, n: Node, peer: Peer)
    requires Shape(s) && Listed(s, lists) && peer in lists
    requires Place(s, parent, n) && Held(s, parent, PlaceSlot(parent, n), n.bitlen) == null
    ensures Inserted(s, WithLeaf(s, parent, n, peer), lists, n, peer)
  {
    hide Shape, Listed, Routes, Place, WithLeaf;
    LeafShape(s, parent, n, peer);
    LeafGained(s, parent, n, peer);
    GainedRoutes(s, WithLeaf(s, parent, n, peer), lists, n, peer);
  }

  lemma AboveInserted(s: Store, lists: map<Peer, seq<Node>>, parent: Node?, n: Node, peer: Peer, down: Node)
    requires Shape(s) && Listed(s, lists) && peer in lists && down in s.cells && Extends(n, Side(n, down), down)
    requires Place(s, parent, n) && Held(s, parent, PlaceSlot(parent, n), n.bitlen) == down
    ensures down != parent && Inserted(s, WithAbove(s, parent, n, peer, down), lists, n, peer)
  {
    hide Shape, Listed, Routes, Place, WithAbove, Extends;
    DownIsNotParent(s, parent, n);
    AboveShape(s, parent, n, peer, down);
    AboveGained(s, parent, n, peer, down);
    GainedRoutes(s, WithAbove(s, parent, n, peer, down), lists, n, peer);
  }

  lemma BranchInserted(s: Store, lists: map<Peer, seq<Node>>, parent: Node?, branch: Node, n: Node, peer: Peer,
    down: Node)
    requires Shape(s) && Listed(s, lists) && peer in lists && down in s.cells && n !in s.cells && n != branch
      && n.Sized()
    requires Place(s, parent, branch) && Held(s, parent, PlaceSlot(parent, branch), branch.bitlen) == down
    requires Side(branch, down) != Side(branch, n) && Extends(branch, Side(branch, down), down)
      && Extends(branch, Side(branch, n), n)
    ensures Inserted(s, WithBranch(s, parent, branch, n, peer, down), lists, n, peer)
  {
    hide Shape, Listed, Routes, Place, WithBranch, Extends;
    DownIsNotParent(s, parent, branch);
    BranchShape(s, parent, branch, n, peer, down);
    BranchGained(s, parent, branch, n, peer, down);
    GainedRoutes(s, WithBranch(s, parent, branch, n, peer, down), lists, n, peer);
  }

  lemma ListedKnown(s: Store, lists: map<Peer, seq<Node>>, peer: Peer)
    requires Listed(s, lists)
    ensures Listed(s, if peer in lists then lists else lists[peer := []])
  {
  }

  lemma {:induction false} EraseAppended(list: seq<Node>, n: Node)
    requires n !in list
    ensures Erase(list + [n], n) == list
  {
    if list != [] {
      EraseAppended(list[1..], n);
      assert (list + [n])[1..] == list[1..] + [n];
    }
  }

  // The node changes hands, and moves to the tail of its new peer's list.
  lemma Reassigned(s: Store, lists: map<Peer, seq<Node>>, n: Node, peer: Peer)
    requires Shape(s) && Listed(s, lists) && n in s.cells && peer in lists
    ensures var q := s.cells[n].peer;
      var cleared := if q == null then lists else if q in lists then lists[q := Erase(lists[q], n)] else lists;
      var t := WithPeer(s, n, peer);
      (q != null ==> q in lists) && peer in cleared && Shape(t) && Routes(t) == Routes(s)[n.Pre() := peer]
      && Listed(t, cleared[peer := cleared[peer] + [n]])
  {
    var q, s0, t := s.cells[n].peer, WithPeer(s, n, null), WithPeer(s, n, peer);
    PeerShape(s, n, peer);
    assert OthersSame(s, t, n) && OthersSame(s, s0, n) && OthersSame(s0, t, n);
    RoutesSet(s, t, n, peer);
    if q != null {
      ListedLoss(s, s0, lists, n);
      ListedGain(s0, t, lists[q := Erase(lists[q], n)], n, peer);
    } else {
      assert s0 == s;
      ListedGain(s0, t, lists, n, peer);
    }
  }

  // ---------------------------------------------------------------- walking the whole trie

  ghost function Family(s: Store, bits: nat): set<Node> {
    set n | n in s.cells && n.bitlen == bits
  }

  // What the walk keeps: the entries of the stack are distinct and not yet visited, the visited part is
  // closed upwards, and every edge out of it ends in the visited part or on the stack. The entry at index i
  // has a prefix of length i or more, which is what bounds the stack.
  ghost predicate Walk(s: Store, root: Node, stack: seq<Node>, visited: set<Node>) {
    Waiting(s, root, stack, visited) && Distinct(stack) && Closed(s, root, visited) && Edges(s, stack, visited)
    && (root in visited || root in stack)
  }

  ghost predicate Waiting(s: Store, root: Node, stack: seq<Node>, visited: set<Node>) {
    forall i | 0 <= i < |stack| ::
      stack[i] in Family(s, root.bitlen) && stack[i].cidr >= i && stack[i] !in visited
        && ParentSeen(s, visited, stack[i])
  }

  ghost predicate Closed(s: Store, root: Node, visited: set<Node>) {
    visited <= Family(s, root.bitlen) && forall x | x in visited :: ParentSeen(s, visited, x)
  }

  ghost predicate Edges(s: Store, stack: seq<Node>, visited: set<Node>) {
    forall x, b | x in visited && 0 <= b < 2 :: ChildSeen(s, stack, visited, x, b)
  }

  ghost predicate ParentSeen(s: Store, visited: set<Node>, x: Node) {
    x in s.cells && (s.cells[x].parent == null || s.cells[x].parent in visited)
  }

  ghost predicate ChildSeen(s: Store, stack: seq<Node>, visited: set<Node>, x: Node, b: int) {
    x in s.cells && var c := s.cells[x].Bit(if b == 0 then 0 else 1); c == null || c in visited || c in stack
  }

  function Push(stack: seq<Node>, p: Node?): seq<Node> {
    if p == null then stack else stack + [p]
  }

  // The children of the entry just popped are neither visited nor waiting.
  ghost predicate Unseen(s: Store, root: Node, stack: seq<Node>, visited: set<Node>, x: Node, b: nat)
    requires x in s.cells
  {
    var c := s.cells[x].Bit(b);
    c != null ==>
      c in Family(s, root.bitlen) && c !in stack && c !in visited && c != x && c.cidr >= |stack|
      && s.cells[c].parent == x
  }

  lemma ChildUnseen(s: Store, root: Node, stack: seq<Node>, visited: set<Node>, b: nat)
    requires Links(s) && Walk(s, root, stack, visited) && stack != [] && b < 2
    ensures var x := stack[|stack| - 1]; x in s.cells && x !in visited && Unseen(s, root, stack, visited, x, b)
    ensures var x := stack[|stack| - 1]; s.cells[x].bit0 != null ==> s.cells[x].bit0 != s.cells[x].bit1
  {
    var x := stack[|stack| - 1];
    assert Linked(s, x) && Down(s, x, b);
    var c := s.cells[x].Bit(b);
    if c != null {
      assert c in visited ==> ParentSeen(s, visited, c);
      assert forall i | 0 <= i < |stack| && stack[i] == c :: ParentSeen(s, visited, c);
    }
  }

  lemma PushSpec(stack: seq<Node>, p: Node?)
    requires Distinct(stack) && p !in stack
    ensures Distinct(Push(stack, p)) && stack <= Push(stack, p) && |Push(stack, p)| <= |stack| + 1
    ensures forall y: Node | y in stack :: y in Push(stack, p)
    ensures p != null ==> p in Push(stack, p)
    ensures forall i | |stack| <= i < |Push(stack, p)| :: Push(stack, p)[i] == p
  {
    if p != null { assert Push(stack, p)[|stack|] == p; }
  }

  lemma PushOther(stack: seq<Node>, p: Node?, q: Node?)
    requires q !in stack && (p != null ==> p != q)
    ensures q !in Push(stack, p)
  {
  }

  lemma WaitingStep(s: Store, root: Node, stack: seq<Node>, visited: set<Node>, x: Node, stack': seq<Node>)
    requires Waiting(s, root, stack + [x], visited) && Distinct(stack + [x]) && x in s.cells && stack <= stack'
      && |stack'| <= |stack| + 2
    requires forall i | |stack| <= i < |stack'| :: stack'[i] == s.cells[x].bit0 || stack'[i] == s.cells[x].bit1
    requires Unseen(s, root, stack + [x], visited, x, 0) && Unseen(s, root, stack + [x], visited, x, 1)
    ensures Waiting(s, root, stack', visited + {x})
  {
    forall i | 0 <= i < |stack'|
      ensures stack'[i] in Family(s, root.bitlen) && stack'[i].cidr >= i && stack'[i] !in visited + {x}
        && ParentSeen(s, visited + {x}, stack'[i])
    {
      if i < |stack| {
        assert stack'[i] == (stack + [x])[i] && (stack + [x])[|stack|] == x;
        assert ParentSeen(s, visited, (stack + [x])[i]);
      }
    }
  }

  lemma ClosedStep(s: Store, root: Node, visited: set<Node>, x: Node)
    requires Closed(s, root, visited) && x in Family(s, root.bitlen) && ParentSeen(s, visited, x)
    ensures Closed(s, root, visited + {x})
  {
    forall y | y in visited + {x} ensures ParentSeen(s, visited + {x}, y) {
      assert ParentSeen(s, visited, y);
    }
  }

  lemma EdgesStep(s: Store, stack: seq<Node>, visited: set<Node>, x: Node, stack': seq<Node>)
    requires Edges(s, stack, visited) && x in s.cells && forall z: Node | z in stack && z != x :: z in stack'
    requires forall b | 0 <= b < 2 :: s.cells[x].Bit(b) == null || s.cells[x].Bit(b) in stack'
    ensures Edges(s, stack', visited + {x})
  {
    forall y, b | y in visited + {x} && 0 <= b < 2 ensures ChildSeen(s, stack', visited + {x}, y, b) {
      if y != x { assert ChildSeen(s, stack, visited, y, b); }
    }
  }

  lemma TopOfWalk(s: Store, root: Node, stack: seq<Node>, visited: set<Node>)
    requires Links(s) && Walk(s, root, stack, visited) && stack != []
    ensures var x, rest := stack[|stack| - 1], stack[..|stack| - 1];
      stack == rest + [x] && Distinct(rest) && x !in rest && x in Family(s, root.bitlen) && x in s.cells
      && x !in visited && ParentSeen(s, visited, x)
      && Unseen(s, root, stack, visited, x, 0) && Unseen(s, root, stack, visited, x, 1)
      && s.cells[x].bit0 !in stack && s.cells[x].bit1 !in stack
      && (s.cells[x].bit0 != null ==> s.cells[x].bit0 != s.cells[x].bit1)
  {
    ChildUnseen(s, root, stack, visited, 0);
    ChildUnseen(s, root, stack, visited, 1);
    hide Links, Closed, Edges;
  }

  lemma WalkStep(s: Store, root: Node, stack: seq<Node>, visited: set<Node>)
    requires Links(s) && Walk(s, root, stack, visited) && stack != []
    ensures var x, rest := stack[|stack| - 1], stack[..|stack| - 1];
      x in Family(s, root.bitlen) && x !in visited
        && Walk(s, root, Push(Push(rest, s.cells[x].bit0), s.cells[x].bit1), visited + {x})
  {
    hide Links, Waiting, Closed, Edges, Unseen, Distinct, Push, ParentSeen, Family;
    TopOfWalk(s, root, stack, visited);
    var k := |stack| - 1;
    var x, rest := stack[k], stack[..k];
    var c0, c1 := s.cells[x].bit0, s.cells[x].bit1;
    var stack1 := Push(rest, c0);
    var stack2 := Push(stack1, c1);
    PushSpec(rest, c0);
    PushOther(rest, c0, c1);
    PushSpec(stack1, c1);
    WaitingStep(s, root, rest, visited, x, stack2);
    ClosedStep(s, root, visited, x);
    assert forall z: Node | z in stack && z != x :: z in rest;
    EdgesStep(s, stack, visited, x, stack2);
  }

  lemma WalkFits(s: Store, root: Node, stack: seq<Node>, visited: set<Node>)
    requires Links(s) && Walk(s, root, stack, visited)
    ensures |stack| <= MAX_ALLOWEDIPS_DEPTH
  {
    if |stack| > 0 {
      assert Linked(s, stack[|stack| - 1]);
    }
  }

  // The walk only takes nodes off their peers' lists; for the lists it is as if their peer were cleared.
  ghost function Cleared(s: Store, gone: set<Node>): Store {
    s.(cells := map n | n in s.cells :: if n in gone then s.cells[n].(peer := null) else s.cells[n])
  }

  lemma ClearedOne(s: Store, lists: map<Peer, seq<Node>>, gone: set<Node>, x: Node)
    requires Listed(Cleared(s, gone), lists) && x in s.cells && x !in gone
    ensures var q := s.cells[x].peer;
      if q == null then Listed(Cleared(s, gone + {x}), lists)
      else q in lists && Listed(Cleared(s, gone + {x}), lists[q := Erase(lists[q], x)])
  {
    var a, b := Cleared(s, gone), Cleared(s, gone + {x});
    if s.cells[x].peer == null {
      assert a.cells == b.cells;
    } else {
      forall m | m in a.cells.Keys + b.cells.Keys && m != x ensures SamePeer(a, b, m) { }
      ListedLoss(a, b, lists, x);
    }
  }

  lemma WalkDone(s: Store, root: Node, visited: set<Node>)
    requires Links(s) && Walk(s, root, [], visited) && s.Root(root.bitlen) == root
    ensures visited == Family(s, root.bitlen)
  {
    forall n | n in Family(s, root.bitlen) ensures n in visited { WalkReaches(s, root, visited, n); }
  }

  lemma WalkStart(s: Store, root: Node)
    requires Links(s) && s.Root(root.bitlen) == root && root in s.cells && (root.bitlen == 32 || root.bitlen == 128)
    ensures Walk(s, root, [root], {})
  {
    assert Rooted(s, root.bitlen);
  }

  lemma NothingCleared(s: Store)
    ensures Cleared(s, {}) == s
  {
    assert Cleared(s, {}).cells == s.cells;
  }

  lemma FamiliesApart(s: Store)
    requires Links(s)
    ensures Family(s, 32) !! Family(s, 128) && Family(s, 32) + Family(s, 128) == s.cells.Keys
  {
    forall n | n in s.cells ensures n.bitlen == 32 || n.bitlen == 128 { assert Linked(s, n); }
  }

  lemma AllCleared(s: Store, lists: map<Peer, seq<Node>>, gone: set<Node>)
    requires Listed(Cleared(s, gone), lists) && gone == s.cells.Keys
    ensures forall p | p in lists :: lists[p] == []
  {
    hide Listed;
    forall p | p in lists ensures lists[p] == [] {
      if lists[p] != [] {
        ListHolds(Cleared(s, gone), lists, p, lists[p][0]);
      }
    }
  }

  lemma EmptyFamily(s: Store, bits: nat)
    requires Links(s) && s.Root(bits) == null
    ensures Family(s, bits) == {}
  {
    forall n | n in s.cells ensures n.bitlen != bits { if n.bitlen == bits { RootIsLeast(s, n); } }
  }

  lemma WalkReaches(s: Store, root: Node, visited: set<Node>, n: Node)
    requires Links(s) && Walk(s, root, [], visited) && s.Root(root.bitlen) == root && n in Family(s, root.bitlen)
    ensures n in visited
    decreases n.cidr
  {
    assert Linked(s, n);
    var p := s.cells[n].parent;
    if p != null {
      assert Linked(s, p) && Down(s, p, s.cells[n].slot);
      WalkReaches(s, root, visited, p);
      assert ChildSeen(s, [], visited, p, s.cells[n].slot);
    }
  }

  // ---------------------------------------------------------------- how many nodes

  lemma {:induction false} InjectiveCard<X, Y>(m: map<X, Y>)
    requires forall x, y | x in m && y in m && x != y :: m[x] != m[y]
    ensures |m.Values| == |m|
  {
    if m.Keys != {} {
      var x :| x in m.Keys;
      var rest := m - {x};
      InjectiveCard(rest);
      assert m.Values == rest.Values + {m[x]};
      assert m[x] !in rest.Values;
      assert m.Keys == rest.Keys + {x};
      assert |m| == |m.Keys| && |rest| == |rest.Keys|;
    }
  }

  ghost function Bare(s: Store, bits: nat): set<Node> {
    set n | n in s.cells && n.bitlen == bits && s.cells[n].peer == null
  }

  // The children in slot b of the nodes without a peer: as many as those nodes, and none is the root.
  lemma BareChildren(s: Store, bits: nat, b: nat) returns (children: set<Node>)
    requires Shape(s) && b < 2
    ensures |children| == |Bare(s, bits)|
    ensures forall c | c in children :: c in Family(s, bits) && s.cells[c].parent != null && s.cells[c].slot == b
  {
    var child := map n | n in Bare(s, bits) :: s.cells[n].Bit(b);
    forall n | n in child
      ensures child[n] != null && child[n] in Family(s, bits) && s.cells[child[n]].parent == n
        && s.cells[child[n]].slot == b
    {
      assert Linked(s, n) && Paired(s, n) && Down(s, n, b);
    }
    InjectiveCard(child);
    assert child.Keys == Bare(s, bits);
    children := set n | n in Bare(s, bits) :: var c: Node := s.cells[n].Bit(b); c;
    assert children == child.Values;
  }

  lemma BareCount(s: Store, bits: nat)
    requires Shape(s) && Family(s, bits) != {}
    ensures 2 * |Bare(s, bits)| <= |Family(s, bits)| - 1
  {
    var zero := BareChildren(s, bits, 0);
    var one := BareChildren(s, bits, 1);
    var any :| any in Family(s, bits);
    RootIsLeast(s, any);
    var root := s.Root(bits);
    assert Rooted(s, bits);
    assert zero !! one && zero + one <= Family(s, bits) - {root};
    SubsetSize(zero + one, Family(s, bits) - {root});
    assert |zero + one| == |zero| + |one|;
  }

  lemma OwnedCount(s: Store, bits: nat)
    requires Shape(s)
    ensures |Family(s, bits) - Bare(s, bits)| <= |set p | p in Routes(s) && p.family == bits|
  {
    var owned := Family(s, bits) - Bare(s, bits);
    var pre := map n | n in owned :: n.Pre();
    forall m, n | m in owned && n in owned && m != n ensures pre[m] != pre[n] {
      if m.Pre() == n.Pre() { PrefixesDistinct(s, m, n); }
    }
    InjectiveCard(pre);
    assert pre.Keys == owned;
    var mine := set p | p in Routes(s) && p.family == bits;
    forall p | p in pre.Values ensures p in mine {
      var n :| n in owned && pre[n] == p;
      RouteOf(s, p, n);
    }
    SubsetSize(pre.Values, mine);
  }

  // n prefixes of a family need at most 2n - 1 nodes.
  lemma NodeCount(s: Store, bits: nat)
    requires Shape(s) && Family(s, bits) != {}
    ensures |Family(s, bits)| <= 2 * |set p | p in Routes(s) && p.family == bits| - 1
  {
    BareCount(s, bits);
    OwnedCount(s, bits);
    assert Bare(s, bits) <= Family(s, bits);
    assert |Family(s, bits) - Bare(s, bits)| == |Family(s, bits)| - |Bare(s, bits)|;
  }

  // ---------------------------------------------------------------- the nodes the routes call for

  // q and r continue p with different bits.
  ghost predicate Forks(p: Prefix, q: Prefix, r: Prefix) {
    q.family == p.family == r.family && p.bits < q.bits && p.bits < r.bits && !q.bits[|p.bits|] && r.bits[|p.bits|]
  }

  ghost predicate Junction(routes: map<Prefix, Peer>, p: Prefix) {
    exists q, r | q in routes && r in routes :: Forks(p, q, r)
  }

  // The prefixes that have a node: the routes, and the points where two of them part.
  ghost predicate Stands(routes: map<Prefix, Peer>, p: Prefix) {
    p in routes || Junction(routes, p)
  }

  // Two keys agree up to c and differ there.
  predicate PartAt(a: Key, b: Key, c: nat) {
    c < |a| && c < |b| && a[..c] == b[..c] && a[c] != b[c]
  }

  // p parts from a route at a point without a node.
  ghost predicate Parts(routes: map<Prefix, Peer>, p: Prefix) {
    exists q, c: nat | q in routes && q.family == p.family ::
      PartAt(p.bits, q.bits, c) && !Stands(routes, Prefix(p.family, p.bits[..c]))
  }

  // How many nodes it takes to add a prefix.
  ghost function Needed(routes: map<Prefix, Peer>, p: Prefix): nat {
    if Stands(routes, p) then 0 else if Parts(routes, p) then 2 else 1
  }

  // At or below every node there is one with an owner.
  lemma OwnedBelow(s: Store, n: Node) returns (m: Node)
    requires Shape(s) && n in s.cells
    ensures n.Sized() && m in s.cells && s.cells[m].peer != null && Under(s, n, m)
    decreases if n.Sized() then n.bitlen - n.cidr else 0
  {
    assert Linked(s, n) && Paired(s, n);
    if s.cells[n].peer != null { return n; }
    var c := s.cells[n].bit0;
    ChildOk(s, n, 0);
    m := OwnedBelow(s, c);
    assert m.bits[..n.cidr] == m.bits[..c.cidr][..n.cidr] == c.bits[..c.cidr][..n.cidr];
  }

  lemma ChildRoute(s: Store, n: Node, b: nat) returns (q: Prefix)
    requires Shape(s) && n in s.cells && b < 2 && s.cells[n].Bit(b) != null
    ensures q in Routes(s) && q.family == n.Pre().family && n.Pre().bits < q.bits && q.bits[|n.Pre().bits|] == (b == 1)
  {
    ChildOk(s, n, b);
    var c: Node := s.cells[n].Bit(b);
    var m := OwnedBelow(s, c);
    q := m.Pre();
    RouteOf(s, q, m);
    assert m.bits[..c.cidr] == c.bits[..c.cidr];
    assert m.bits[n.cidr] == c.bits[..c.cidr][n.cidr];
    assert m.bits[..n.cidr] == m.bits[..c.cidr][..n.cidr] == c.bits[..c.cidr][..n.cidr];
  }

  // Where two nodes part there is a third.
  lemma ForkPlaced(s: Store, m: Node, n: Node, c: nat)
    requires Shape(s) && m in s.cells && n in s.cells && m.bitlen == n.bitlen
    requires m.Sized() && n.Sized() && c < m.cidr && c < n.cidr && PartAt(m.bits, n.bits, c)
    ensures Placed(s, Prefix(m.bitlen, m.bits[..c]))
    decreases m.cidr
  {
    assert Linked(s, m);
    assert m.bits[..m.cidr] != n.bits[..m.cidr] by { assert m.bits[..m.cidr][c] != n.bits[..m.cidr][c]; }
    var p := s.cells[m].parent;
    if p == null {
      RootIsLeast(s, n);
    } else {
      var b := s.cells[m].slot;
      assert Linked(s, p) && Down(s, p, b) && Extends(p, b, m);
      if p.cidr > c {
        assert p.bits[..p.cidr] == m.bits[..p.cidr];
        assert p.bits[..p.cidr][c] == m.bits[..p.cidr][c];
        assert p.bits[..c] == p.bits[..p.cidr][..c] == m.bits[..p.cidr][..c] == m.bits[..c];
        ForkPlaced(s, p, n, c);
      } else if p.cidr == c {
        assert p.Pre() == Prefix(m.bitlen, m.bits[..c]);
      } else {
        BelowSibling(s, p, m, n, c);
      }
    }
  }

  // A node that agrees with a child beyond the parent's prefix lies below the child.
  lemma BelowSibling(s: Store, p: Node, m: Node, n: Node, c: nat)
    requires Shape(s) && m in s.cells && n in s.cells && p in s.cells && m.bitlen == n.bitlen && m.Sized() && n.Sized()
    requires p.cidr < c < n.cidr && c < m.cidr && m.bits[..c] == n.bits[..c]
    requires s.cells[m].slot < 2 && Extends(p, s.cells[m].slot, m) && s.cells[p].Bit(s.cells[m].slot) == m
    ensures Under(s, m, n)
  {
    assert m.bits[..c][..p.cidr] == n.bits[..c][..p.cidr] && m.bits[..c][p.cidr] == n.bits[..c][p.cidr];
    assert n.bits[..p.cidr] == n.bits[..c][..p.cidr] && m.bits[..p.cidr] == m.bits[..c][..p.cidr];
    LongerIsBelow(s, p, n, n.bits);
  }

  lemma ForkedRoutes(s: Store, p: Prefix, q: Prefix, r: Prefix)
    requires Shape(s) && q in Routes(s) && r in Routes(s) && Forks(p, q, r)
    ensures Placed(s, p)
  {
    var m := NodeOfRoute(s, q);
    var n := NodeOfRoute(s, r);
    assert Linked(s, m) && Linked(s, n);
    hide Shape, Routes, Linked, Routed, Placed;
    var c := |p.bits|;
    AtFork(m, p, q);
    AtFork(n, p, r);
    ForkPlaced(s, m, n, c);
  }

  lemma AtFork(m: Node, p: Prefix, q: Prefix)
    requires m.Sized() && m.Pre() == q && p.bits < q.bits
    ensures |p.bits| < m.cidr && m.bits[..|p.bits|] == p.bits && m.bits[|p.bits|] == q.bits[|p.bits|]
  {
    assert q.bits == m.bits[..m.cidr];
    assert p.bits == q.bits[..|p.bits|] == m.bits[..m.cidr][..|p.bits|] == m.bits[..|p.bits|];
  }

  // The nodes of a trie are those its routes call for, whatever was inserted and removed on the way.
  lemma Canonical(s: Store, p: Prefix)
    requires Shape(s)
    ensures Placed(s, p) <==> Stands(Routes(s), p)
  {
    if Placed(s, p) {
      var n :| n in s.cells && n.Pre() == p;
      NodeStands(s, n);
    }
    if p in Routes(s) {
      var n := NodeOfRoute(s, p);
      assert n in s.cells && n.Pre() == p;
    } else if q, r :| q in Routes(s) && r in Routes(s) && Forks(p, q, r) {
      ForkedRoutes(s, p, q, r);
    }
  }

  lemma NodeStands(s: Store, n: Node)
    requires Shape(s) && n in s.cells
    ensures Stands(Routes(s), n.Pre())
  {
    assert Linked(s, n) && Paired(s, n);
    if s.cells[n].peer != null {
      RouteOf(s, n.Pre(), n);
    } else {
      var q := ChildRoute(s, n, 0);
      var r := ChildRoute(s, n, 1);
      assert Forks(n.Pre(), q, r);
    }
  }

  ghost predicate Spot(s: Store, key: Key, cidr: nat, parent: Node?, down: Node?) {
    (|key| == 32 || |key| == 128) && cidr <= |key|
    && (parent != null ==> OnPath(s, parent, key) && parent.cidr < cidr)
    && down == (if parent == null then s.Root(|key|) else s.cells[parent].Bit(parent.Choose(key)))
    && (down != null ==>
      down in s.cells && down.Sized() && down.bitlen == |key| && !(down.cidr <= cidr && down.Matches(key)))
  }

  // The node a route has, and where its address parts from the key.
  lemma RouteParts(s: Store, key: Key, cidr: nat, q: Prefix, c: nat) returns (m: Node)
    requires Shape(s) && cidr <= |key| && q in Routes(s) && q.family == |key| && PartAt(key[..cidr], q.bits, c)
    ensures m in s.cells && m.Sized() && m.bitlen == |key| && c < m.cidr && c < cidr && PartAt(m.bits, key, c)
    ensures key[..cidr][..c] == key[..c]
  {
    m := NodeOfRoute(s, q);
    assert Linked(s, m);
    assert m.bits[..m.cidr][..c] == m.bits[..c] && key[..cidr][..c] == key[..c];
  }

  // Where the place is free no junction is missing.
  lemma LeafNeedsOne(s: Store, key: Key, cidr: nat, parent: Node?, q: Prefix, c: nat)
    requires Shape(s) && Spot(s, key, cidr, parent, null)
    requires q in Routes(s) && q.family == |key| && PartAt(key[..cidr], q.bits, c)
    ensures Placed(s, Prefix(|key|, key[..c])) && key[..cidr][..c] == key[..c]
  {
    var m := RouteParts(s, key, cidr, q, c);
    RootIsLeast(s, m);
    assert parent != null;
    if c == parent.cidr {
      assert parent.Pre() == Prefix(|key|, key[..c]);
    } else if c < parent.cidr {
      assert parent.bits[..parent.cidr][..c] == key[..parent.cidr][..c];
      assert parent.bits[..parent.cidr][c] == key[..parent.cidr][c];
      assert parent.bits[..c] == parent.bits[..parent.cidr][..c] && key[..c] == key[..parent.cidr][..c];
      ForkPlaced(s, m, parent, c);
    } else {
      assert m.bits[..c][..parent.cidr] == key[..c][..parent.cidr] && m.bits[..c][parent.cidr] == key[..c][parent.cidr];
      assert m.bits[..parent.cidr] == m.bits[..c][..parent.cidr] && key[..parent.cidr] == key[..c][..parent.cidr];
      LongerIsBelow(s, parent, m, m.bits);
    }
  }

  // Nor where the new prefix covers what is there.
  lemma AboveNeedsOne(s: Store, key: Key, cidr: nat, parent: Node?, down: Node, q: Prefix, c: nat)
    requires Shape(s) && Spot(s, key, cidr, parent, down) && CommonBits(down.bits, key) >= cidr
    requires q in Routes(s) && q.family == |key| && PartAt(key[..cidr], q.bits, c)
    ensures Placed(s, Prefix(|key|, key[..c])) && key[..cidr][..c] == key[..c]
  {
    var m := RouteParts(s, key, cidr, q, c);
    CommonBitsIff(down.bits, key, cidr);
    CommonBitsIff(down.bits, key, down.cidr);
    assert down.bits[..cidr][..c] == key[..cidr][..c] && down.bits[..cidr][c] == key[..cidr][c];
    assert down.bits[..c] == down.bits[..cidr][..c];
    ForkPlaced(s, m, down, c);
  }

  // Where the two part there is a junction to make.
  lemma BranchMissing(s: Store, key: Key, cidr: nat, parent: Node?, down: Node)
    requires Shape(s) && Spot(s, key, cidr, parent, down) && CommonBits(down.bits, key) < cidr
    ensures var c := CommonBits(down.bits, key);
      c < down.cidr && PartAt(key, down.bits, c) && !Placed(s, Prefix(|key|, key[..c]))
  {
    var c := CommonBits(down.bits, key);
    CommonBitsSpec(down.bits, key);
    CommonBitsIff(down.bits, key, down.cidr);
    forall x | x in s.cells ensures x.Pre() != Prefix(|key|, key[..c]) {
      if x.Pre() == Prefix(|key|, key[..c]) {
        assert Linked(s, x) && x.cidr == c && OnPath(s, x, key);
        BranchElsewhere(s, key, cidr, parent, down, x);
      }
    }
  }

  // A node on the key's path between the parent and what hangs there would be what hangs there.
  lemma BranchElsewhere(s: Store, key: Key, cidr: nat, parent: Node?, down: Node, x: Node)
    requires Shape(s) && Spot(s, key, cidr, parent, down) && OnPath(s, x, key) && x.cidr < cidr
    ensures x.cidr >= down.cidr || x.cidr < CommonBits(down.bits, key)
  {
    if parent == null {
      RootIsLeast(s, x);
    } else if parent.cidr < x.cidr {
      LongerIsBelow(s, parent, x, key);
    } else {
      var b := parent.Choose(key);
      ChildOk(s, parent, b);
      CommonBitsIff(down.bits, key, parent.cidr + 1);
      assert down.bits[..parent.cidr + 1] == down.bits[..parent.cidr] + [down.bits[parent.cidr]];
      assert key[..parent.cidr + 1] == key[..parent.cidr] + [key[parent.cidr]];
    }
  }

  lemma BranchParts(s: Store, key: Key, cidr: nat, down: Node, c: nat)
    requires Shape(s) && cidr <= |key| && down in s.cells && down.Sized() && down.bitlen == |key|
    requires c < down.cidr && c < cidr && PartAt(key, down.bits, c) && !Placed(s, Prefix(|key|, key[..c]))
    ensures Parts(Routes(s), Prefix(|key|, key[..cidr]))
  {
    var m := OwnedBelow(s, down);
    var q := m.Pre();
    RouteOf(s, q, m);
    assert m.bits[..down.cidr][c] == down.bits[..down.cidr][c]
      && m.bits[..down.cidr][..c] == down.bits[..down.cidr][..c];
    assert q.bits[..c] == m.bits[..down.cidr][..c] && down.bits[..c] == down.bits[..down.cidr][..c];
    assert key[..cidr][..c] == key[..c];
    Canonical(s, Prefix(|key|, key[..c]));
    assert PartAt(key[..cidr], q.bits, c);
  }

  // What the descent ends at says how many nodes the routes call for.
  lemma NeededAt(s: Store, key: Key, cidr: nat, parent: Node?, down: Node?)
    requires Shape(s) && Spot(s, key, cidr, parent, down) && !Placed(s, Prefix(|key|, key[..cidr]))
    ensures Needed(Routes(s), Prefix(|key|, key[..cidr]))
      == if down != null && CommonBits(down.bits, key) < cidr then 2 else 1
  {
    var p := Prefix(|key|, key[..cidr]);
    Canonical(s, p);
    if down != null && CommonBits(down.bits, key) < cidr {
      BranchMissing(s, key, cidr, parent, down);
      BranchParts(s, key, cidr, down, CommonBits(down.bits, key));
    } else if Parts(Routes(s), p) {
      var q, c: nat :| q in Routes(s) && q.family == p.family && PartAt(p.bits, q.bits, c)
        && !Stands(Routes(s), Prefix(p.family, p.bits[..c]));
      Canonical(s, Prefix(p.family, p.bits[..c]));
      if down == null {
        LeafNeedsOne(s, key, cidr, parent, q, c);
      } else {
        AboveNeedsOne(s, key, cidr, parent, down, q, c);
      }
    }
  }

  // An empty trie has no route.
  lemma NeededFirst(s: Store, key: Key, cidr: nat)
    requires Shape(s) && (|key| == 32 || |key| == 128) && cidr <= |key| && s.Root(|key|) == null
    ensures Needed(Routes(s), Prefix(|key|, key[..cidr])) == 1
  {
    var p := Prefix(|key|, key[..cidr]);
    if Placed(s, p) {
      var n :| n in s.cells && n.Pre() == p;
      RootIsLeast(s, n);
    }
    NeededAt(s, key, cidr, null, null);
  }

  ghost function Prefixes(list: seq<Node>): set<Prefix> {
    if list == [] then {} else {list[0].Pre()} + Prefixes(list[1..])
  }

  lemma {:induction false} PrefixesOf(list: seq<Node>, p: Prefix)
    ensures p in Prefixes(list) <==> exists j :: 0 <= j < |list| && list[j].Pre() == p
  {
    if list != [] {
      PrefixesOf(list[1..], p);
      if p in Prefixes(list[1..]) {
        var j :| 0 <= j < |list[1..]| && list[1..][j].Pre() == p;
        assert list[j + 1].Pre() == p;
      }
      if j :| 0 <= j < |list| && list[j].Pre() == p {
        if j > 0 { assert list[1..][j - 1].Pre() == p; }
      }
    }
  }

  ghost function Owned(lists: map<Peer, seq<Node>>, peer: Peer): seq<Node> {
    if peer in lists then lists[peer] else []
  }

  lemma ListHolds(s: Store, lists: map<Peer, seq<Node>>, peer: Peer, n: Node)
    requires Listed(s, lists)
    ensures n in Owned(lists, peer) <==> n in s.cells && s.cells[n].peer == peer
  {
  }

  // The routes a peer owns are the prefixes of the nodes on its list.
  lemma Bereft(s: Store, lists: map<Peer, seq<Node>>, peer: Peer)
    requires Shape(s) && Listed(s, lists)
    ensures Routes(s) - Prefixes(Owned(lists, peer)) == map p | p in Routes(s) && Routes(s)[p] != peer :: Routes(s)[p]
  {
    hide Shape, Listed, Routes, Owned, Prefixes;
    var list := Owned(lists, peer);
    forall p | p in Routes(s) ensures p in Prefixes(list) <==> Routes(s)[p] == peer {
      var n := NodeOfRoute(s, p);
      PrefixesOf(list, p);
      ListHolds(s, lists, peer, n);
      if p in Prefixes(list) {
        var j :| 0 <= j < |list| && list[j].Pre() == p;
        ListHolds(s, lists, peer, list[j]);
        PrefixesDistinct(s, n, list[j]);
      }
    }
  }

  class Table {
    var root4: Node?
    var root6: Node?
    var seqno: nat
    ghost var nodes: set<Node>
    ghost var peers: set<Peer>

    function Root(bits: nat): Node?
      reads this
    {
      if bits == 32 then root4 else root6
    }

    ghost function View(): Store
      reads this, nodes
    {
      Store(map n | n in nodes :: n.Content(), root4, root6)
    }

    method FindNode(bits: nat, key: Key) returns (found: Node?)
      requires Shape(View()) && (bits == 32 || bits == 128) && |key| == bits
      ensures found != null ==> OnPath(View(), found, key) && found.peer != null
      ensures forall m: Node | OnPath(View(), m, key) && View().cells[m].peer != null ::
        found != null && m.cidr <= found.cidr
    {
      hide Shape, Under, Linked, Extends;
      ghost var s := View();
      var node := Root(bits);
      found := null;
      StartDescent(s, bits, key);
      while node != null && node.Matches(key)
        invariant node != null ==> node in s.cells && node.Sized() && node.bitlen == bits
        invariant found != null ==> OnPath(s, found, key) && found.peer != null
        invariant found != null && node != null ==> found.cidr < node.cidr
        invariant forall m: Node | OnPath(s, m, key) ::
          Under(s, node, m) || (s.cells[m].peer != null ==> found != null && m.cidr <= found.cidr)
        decreases if node == null then 0 else bits + 1 - node.cidr
      {
        DescendOne(s, node, key);
        if node.peer != null { found := node; }
        if node.cidr == bits { break; }
        ChildOk(s, node, node.Choose(key));
        node := node.Bit(node.Choose(key));
      }
      forall m: Node | OnPath(s, m, key) && s.cells[m].peer != null ensures found != null && m.cidr <= found.cidr {
        if Under(s, node, m) { UnderMatches(s, node, m, key); }
      }
    }

    method Lookup(bits: nat, ip: Key) returns (peer: Peer?)
      requires Shape(View()) && (bits == 32 || bits == 128) && |ip| == bits
      ensures peer == LongestMatch(Routes(View()), ip, bits)
    {
      hide Shape, Routes, LongestMatch;
      var node := FindNode(bits, ip);
      FoundIsLongest(View(), ip, node);
      peer := if node == null then null else node.peer;
    }

    method NodePlacement(bits: nat, key: Key, cidr: nat) returns (exact: bool, parent: Node?)
      requires Shape(View()) && (bits == 32 || bits == 128) && |key| == bits && cidr <= bits
      ensures parent != null ==> OnPath(View(), parent, key) && parent.cidr <= cidr
      ensures exact <==> Placed(View(), Prefix(bits, key[..cidr]))
      ensures exact ==> parent != null && parent.cidr == cidr
      ensures !exact ==> (parent != null ==> parent.cidr < cidr)
      ensures !exact ==> var down := if parent == null then Root(bits) else parent.Bit(parent.Choose(key));
        down != null ==>
          down in nodes && down.Sized() && down.bitlen == bits && !(down.cidr <= cidr && down.Matches(key))
    {
      hide Shape, Under, Linked, Extends;
      ghost var s := View();
      var node := Root(bits);
      parent, exact := null, false;
      StartDescent(s, bits, key);
      while node != null && node.cidr <= cidr && node.Matches(key)
        invariant !exact
        invariant node != null ==> node in s.cells && node.Sized() && node.bitlen == bits
        invariant parent != null ==> OnPath(s, parent, key) && parent.cidr < cidr
        invariant node == if parent == null then Root(bits) else parent.Bit(parent.Choose(key))
        invariant forall m: Node | OnPath(s, m, key) && m.cidr == cidr :: Under(s, node, m)
        decreases if node == null then 0 else bits + 1 - node.cidr
      {
        parent := node;
        if parent.cidr == cidr { exact := true; break; }
        DescendOne(s, node, key);
        ChildOk(s, parent, parent.Choose(key));
        node := parent.Bit(parent.Choose(key));
      }
      if exact {
        assert parent.Pre() == Prefix(bits, key[..cidr]);
      } else {
        NotPlaced(s, key, cidr, node);
      }
    }

    ghost function Lists(): map<Peer, seq<Node>>
      reads this, peers
    {
      map p | p in peers :: p.list
    }

    ghost predicate Valid()
      reads this, nodes, peers
    {
      Shape(View()) && Listed(View(), Lists())
    }

    // The pointer that leads to a place.
    method SetPlace(parent: Node?, b: nat, bits: nat, c: Node?)
      requires parent != null ==> parent in nodes && b < 2
      modifies this`root4, this`root6, nodes`bit0, nodes`bit1
      ensures View() == old(View()).Point(parent, b, bits, c)
      ensures forall n | n in nodes && n != parent :: n.bit0 == old(n.bit0) && n.bit1 == old(n.bit1)
      ensures parent != null ==> parent.Bit(b) == c && parent.Bit(1 - b) == old(parent.Bit(1 - b))
    {
      if parent != null {
        if b == 0 { parent.bit0 := c; } else { parent.bit1 := c; }
      } else if bits == 32 {
        root4 := c;
      } else {
        root6 := c;
      }
    }

    method Hang(c: Node, parent: Node?, b: nat)
      requires c in nodes
      modifies c`parent, c`slot
      ensures View()
        == old(View()).(cells := old(View()).cells[c := old(View()).cells[c].(parent := parent, slot := b)])
    {
      c.parent, c.slot := parent, b;
    }

    // Splice out a node whose only child, if it has one, is child.
    method Splice(node: Node, child: Node?)
      requires Links(View()) && Slim(View(), node) && child == OnlyChild(View(), node)
      modifies this`root4, this`root6, this`nodes, nodes`bit0, nodes`bit1, nodes`parent, nodes`slot
      ensures View() == Cut(old(View()), node) && nodes == old(nodes) - {node}
    {
      SpliceFacts(View(), node);
      hide Links, Extends, Slim, Linked;
      if child != null { Hang(child, node.parent, node.slot); }
      SetPlace(node.parent, node.slot, node.bitlen, child);
      Free(node);
    }

    ghost method Free(node: Node)
      modifies this`nodes
      ensures nodes == old(nodes) - {node} && View() == old(View()).(cells := old(View()).cells - {node})
    {
      nodes := nodes - {node};
    }

    lemma SlimNow(node: Node)
      requires Links(View()) && node in nodes && !(node.bit0 != null && node.bit1 != null)
      ensures Slim(View(), node)
    {
      assert Linked(View(), node);
    }

    method ClearPeer(node: Node)
      requires node in nodes && node.peer != null
      modifies node`peer, node.peer`list
      ensures View() == WithPeer(old(View()), node, null) && node.peer == null
      ensures old(node.peer).list == Erase(old(node.peer.list), node)
    {
      node.peer.list := Erase(node.peer.list, node);
      node.peer := null;
    }

    method Prune(node: Node)
      requires Links(View()) && Slim(View(), node)
      requires node.parent != null ==> node.parent in nodes && Paired(View(), node.parent)
      modifies this`root4, this`root6, this`nodes, nodes`bit0, nodes`bit1, nodes`parent, nodes`slot
      ensures View() == Pruned(old(View()), node) && nodes <= old(nodes)
    {
      SpliceFacts(View(), node);
      hide Links, Extends, Linked, Cut, Paired;
      ghost var s := View();
      var parent, slot := node.parent, node.slot;
      var leaf := node.bit0 == null && node.bit1 == null;
      Splice(node, if node.bit0 != null then node.bit0 else node.bit1);
      CutHanded(s, node);
      CutLinks(s, node);
      if leaf && slot <= 1 && parent.peer == null {
        LeafGone(s, node);
        Splice(parent, parent.Bit(1 - slot));
      }
    }

    method Detach(node: Node)
      requires Shape(View()) && node in nodes && node.peer != null
      modifies this`root4, this`root6, this`nodes, nodes, node.peer`list
      ensures View() == Without(old(View()), node)
      ensures nodes <= old(nodes)
      ensures old(node.peer).list == Erase(old(node.peer.list), node)
    {
      PeerLinks(View(), node, null);
      ParentPaired(View(), node);
      hide Shape, Links, Extends, Linked, Paired, Pruned, Slim;
      ClearPeer(node);
      if node.bit0 != null && node.bit1 != null { return; }
      SlimNow(node);
      Prune(node);
    }

    method RemoveNode(node: Node)
      requires Valid() && node in nodes && node.peer != null
      modifies this`root4, this`root6, this`nodes, nodes, node.peer`list
      ensures Valid() && nodes <= old(nodes)
      ensures Routes(View()) == old(Routes(View())) - {node.Pre()}
      ensures old(node.peer).list == Erase(old(node.peer.list), node)
    {
      ghost var s, lists, q := View(), Lists(), node.peer;
      WithoutRoutes(s, node);
      WithoutPeers(s, node);
      ListedLoss(s, Without(s, node), lists, node);
      hide Shape, Links, Listed, Routes, SamePeer, Without;
      Detach(node);
      assert Lists() == lists[q := Erase(lists[q], node)];
    }

    lemma PeerKnown(node: Node)
      requires Valid() && node in nodes && node.peer != null
      ensures node.peer in peers
    {
      assert View().cells[node].peer == node.peer;
    }

    method Bump()
      modifies this`seqno
      ensures seqno == old(seqno) + 1 && View() == old(View()) && Lists() == old(Lists())
    {
      seqno := seqno + 1;
    }

    method Remove(bits: nat, key: Key, cidr: nat, peer: Peer) returns (status: Status)
      requires Valid() && (bits == 32 || bits == 128) && |key| == bits
      modifies this`root4, this`root6, this`nodes, this`seqno, nodes, peers`list
      ensures Valid() && nodes <= old(nodes) && seqno == old(seqno) + 1
      ensures status == if cidr > bits then Einval else Ok
      ensures cidr > bits ==> Routes(View()) == old(Routes(View()))
      ensures cidr <= bits ==> var p := Prefix(bits, key[..cidr]);
        Routes(View()) == if p in old(Routes(View())) && old(Routes(View()))[p] == peer
          then old(Routes(View())) - {p} else old(Routes(View()))
    {
      hide Shape, Listed, Routes, OnPath, View, Lists;
      Bump();
      if cidr > bits { return Einval; }
      var exact, node := NodePlacement(bits, key, cidr);
      RouteAtNode(View(), bits, key, cidr, exact, node);
      NodeFacts(node, key);
      if !exact || node.peer != peer { return Ok; }
      PeerKnown(node);
      RemoveNode(node);
      return Ok;
    }

    lemma NodeFacts(node: Node?, key: Key)
      requires node != null ==> OnPath(View(), node, key)
      ensures node != null ==> node in nodes && View().cells[node].peer == node.peer
    {
    }

    // ------------------------------------------------------------ insertion in place

    ghost method Adopt(n: Node)
      modifies this`nodes
      requires n.Content() == Cell(n.peer, null, null, null, ROOT_SLOT)
      ensures nodes == old(nodes) + {n} && View() == old(View()).New(n, n.peer)
    {
      nodes := nodes + {n};
    }

    method Connect(parent: Node?, b: nat, node: Node)
      requires node in nodes && (parent != null ==> parent in nodes && b < 2)
      modifies this`root4, this`root6, nodes`bit0, nodes`bit1, node`parent, node`slot
      ensures View() == old(View()).Connected(parent, b, node)
    {
      Hang(node, parent, b);
      SetPlace(parent, b, node.bitlen, node);
    }

    method AttachLeaf(parent: Node?, n: Node)
      requires Place(View(), parent, n) && n.peer != null && n.Content() == Cell(n.peer, null, null, null, ROOT_SLOT)
      modifies this`root4, this`root6, this`nodes, nodes`bit0, nodes`bit1, n`bit0, n`bit1, n`parent, n`slot
      ensures nodes == old(nodes) + {n} && View() == WithLeaf(old(View()), parent, n, n.peer)
    {
      LeafSteps(View(), parent, n, n.peer);
      hide WithLeaf, Place, View;
      Adopt(n);
      Connect(parent, PlaceSlot(parent, n), n);
    }

    method InsertAbove(parent: Node?, n: Node, down: Node)
      requires Place(View(), parent, n) && n.peer != null && n.Content() == Cell(n.peer, null, null, null, ROOT_SLOT)
      requires down in View().cells && down != parent
      modifies this`root4, this`root6, this`nodes, nodes`bit0, nodes`bit1, nodes`parent, nodes`slot
      modifies n`bit0, n`bit1, n`parent, n`slot
      ensures nodes == old(nodes) + {n} && View() == WithAbove(old(View()), parent, n, n.peer, down)
    {
      AboveSteps(View(), parent, n, n.peer, down);
      hide WithAbove, Place, View;
      Adopt(n);
      Connect(n, Side(n, down), down);
      Connect(parent, PlaceSlot(parent, n), n);
    }

    method Fork(branch: Node, n: Node, down: Node)
      requires branch !in nodes && branch.Content() == Cell(null, null, null, null, ROOT_SLOT)
      requires n !in nodes && n != branch && n.peer != null && n.Content() == Cell(n.peer, null, null, null, ROOT_SLOT)
      requires down in View().cells
      modifies this`root4, this`root6, this`nodes, nodes`bit0, nodes`bit1, nodes`parent, nodes`slot
      modifies n`bit0, n`bit1, n`parent, n`slot, branch`bit0, branch`bit1, branch`parent, branch`slot
      ensures nodes == old(nodes) + {n, branch} && View() == Forked(old(View()), branch, n, n.peer, down)
    {
      ForkSteps(View(), branch, n, n.peer, down);
      assert down in nodes;
      hide Forked, View;
      Adopt(n);
      Adopt(branch);
      Connect(branch, Side(branch, down), down);
      Connect(branch, Side(branch, n), n);
    }

    method InsertBranch(parent: Node?, branch: Node, n: Node, down: Node)
      requires Place(View(), parent, branch) && branch.Content() == Cell(null, null, null, null, ROOT_SLOT)
      requires n !in nodes && n != branch && n.peer != null && n.Content() == Cell(n.peer, null, null, null, ROOT_SLOT)
      requires down in View().cells
      modifies this`root4, this`root6, this`nodes, nodes`bit0, nodes`bit1, nodes`parent, nodes`slot
      modifies n`bit0, n`bit1, n`parent, n`slot, branch`bit0, branch`bit1, branch`parent, branch`slot
      ensures nodes == old(nodes) + {n, branch} && View() == WithBranch(old(View()), parent, branch, n, n.peer, down)
    {
      hide Extends, Forked;
      Fork(branch, n, down);
      Connect(parent, PlaceSlot(parent, branch), branch);
    }

    // A node that is on its peer's list already but not in the trie yet.
    ghost predicate Pending(n: Node, lists: map<Peer, seq<Node>>)
      reads this, nodes, peers, n
    {
      Shape(View()) && Listed(View(), lists) && n !in nodes && n.Sized()
      && n.peer != null && n.peer in lists && Lists() == lists[n.peer := lists[n.peer] + [n]]
      && n.Content() == Cell(n.peer, null, null, null, ROOT_SLOT)
    }

    method PlaceLeaf(parent: Node?, n: Node, ghost lists: map<Peer, seq<Node>>)
      requires Pending(n, lists) && Place(View(), parent, n)
        && Held(View(), parent, PlaceSlot(parent, n), n.bitlen) == null
      modifies this`root4, this`root6, this`nodes, nodes`bit0, nodes`bit1, n`bit0, n`bit1, n`parent, n`slot
      ensures Valid() && Routes(View()) == old(Routes(View()))[n.Pre() := n.peer] && nodes == old(nodes) + {n}
    {
      hide Shape, Listed, Routes, WithLeaf, Place, View;
      LeafInserted(View(), lists, parent, n, n.peer);
      AttachLeaf(parent, n);
      assert Lists() == old(Lists());
    }

    method PlaceAbove(parent: Node?, n: Node, down: Node, ghost lists: map<Peer, seq<Node>>)
      requires Pending(n, lists) && Place(View(), parent, n)
        && Held(View(), parent, PlaceSlot(parent, n), n.bitlen) == down
      requires down in View().cells && Extends(n, Side(n, down), down)
      modifies this`root4, this`root6, this`nodes, nodes`bit0, nodes`bit1, nodes`parent, nodes`slot
      modifies n`bit0, n`bit1, n`parent, n`slot
      ensures Valid() && Routes(View()) == old(Routes(View()))[n.Pre() := n.peer] && nodes == old(nodes) + {n}
    {
      hide Shape, Listed, Routes, WithAbove, Place, View, Extends;
      AboveInserted(View(), lists, parent, n, n.peer, down);
      InsertAbove(parent, n, down);
      assert Lists() == old(Lists());
    }

    method PlaceBranch(parent: Node?, branch: Node, n: Node, down: Node, ghost lists: map<Peer, seq<Node>>)
      requires Pending(n, lists) && Place(View(), parent, branch)
        && Held(View(), parent, PlaceSlot(parent, branch), branch.bitlen) == down
      requires down in View().cells && n !in View().cells && n != branch
        && branch.Content() == Cell(null, null, null, null, ROOT_SLOT)
      requires Side(branch, down) != Side(branch, n) && Extends(branch, Side(branch, down), down)
        && Extends(branch, Side(branch, n), n)
      modifies this`root4, this`root6, this`nodes, nodes`bit0, nodes`bit1, nodes`parent, nodes`slot
      modifies n`bit0, n`bit1, n`parent, n`slot, branch`bit0, branch`bit1, branch`parent, branch`slot
      ensures Valid() && Routes(View()) == old(Routes(View()))[n.Pre() := n.peer] && nodes == old(nodes) + {n, branch}
    {
      hide Shape, Listed, Routes, WithBranch, Place, View, Extends;
      BranchInserted(View(), lists, parent, branch, n, n.peer, down);
      InsertBranch(parent, branch, n, down);
      assert Lists() == old(Lists());
    }

    method ListDel(node: Node)
      requires node.peer != null && node.peer in peers
      modifies node.peer`list
      ensures Lists() == old(Lists())[node.peer := Erase(old(Lists())[node.peer], node)] && View() == old(View())
    {
      node.peer.list := Erase(node.peer.list, node);
    }

    method ListAddTail(node: Node, peer: Peer)
      requires peer in peers
      modifies peer`list
      ensures Lists() == old(Lists())[peer := old(Lists())[peer] + [node]] && View() == old(View())
    {
      peer.list := peer.list + [node];
    }

    method SetPeer(node: Node, peer: Peer)
      requires node in nodes
      modifies node`peer
      ensures View() == WithPeer(old(View()), node, peer) && Lists() == old(Lists())
    {
      node.peer := peer;
    }

    method Reassign(node: Node, peer: Peer)
      requires Valid() && node in nodes && peer in peers
      modifies node`peer, peers`list
      ensures Valid() && Routes(View()) == old(Routes(View()))[node.Pre() := peer]
    {
      Reassigned(View(), Lists(), node, peer);
      hide Shape, Listed, Routes;
      if node.peer != null { ListDel(node); }
      ListAddTail(node, peer);
      SetPeer(node, peer);
    }

    ghost method Know(peer: Peer)
      requires peer in peers || peer.list == []
      requires Valid()
      modifies this`peers
      ensures peers == old(peers) + {peer} && Valid() && View() == old(View())
    {
      ghost var lists := Lists();
      ListedKnown(View(), lists, peer);
      hide Shape, Listed;
      peers := peers + {peer};
      assert View() == old(View());
      assert Lists() == if peer in lists then lists else lists[peer := []];
    }

    // A new node, on its peer's list.
    method NewEntry(key: Key, cidr: nat, peer: Peer) returns (n: Node)
      requires Valid() && peer in peers && (|key| == 32 || |key| == 128) && cidr <= |key|
      modifies peer`list
      ensures fresh(n) && Pending(n, old(Lists())) && n.bits == key && n.cidr == cidr && n.bitlen == |key|
        && n.peer == peer
      ensures View() == old(View()) && peer.list == old(peer.list) + [n]
    {
      hide Shape, Listed;
      n := new Node(key, cidr, peer);
      assert View() == old(View()) && Lists() == old(Lists());
      ListAddTail(n, peer);
    }

    method AddBranch(parent: Node?, newnode: Node, down: Node, ghost lists: map<Peer, seq<Node>>)
      requires Pending(newnode, lists) && Place(View(), parent, newnode)
      requires Held(View(), parent, PlaceSlot(parent, newnode), newnode.bitlen) == down && down in View().cells
      requires down.Sized() && down.bitlen == newnode.bitlen
        && !(down.cidr <= newnode.cidr && down.Matches(newnode.bits))
      requires CommonBits(down.bits, newnode.bits) < newnode.cidr
      modifies this`root4, this`root6, this`nodes, nodes`bit0, nodes`bit1, nodes`parent, nodes`slot
      modifies newnode`bit0, newnode`bit1, newnode`parent, newnode`slot
      ensures Valid() && newnode in nodes && fresh(nodes - old(nodes) - {newnode})
      ensures Routes(View()) == old(Routes(View()))[newnode.Pre() := newnode.peer]
    {
      hide Shape, Listed, Routes, Extends, Place, Held;
      var branch := new Node(newnode.bits, CommonBits(down.bits, newnode.bits), null);
      assert View() == old(View()) && Lists() == old(Lists());
      PartsAt(branch, newnode, down);
      BranchFits(View(), parent, branch, newnode, down);
      HeldSame(View(), parent, branch, newnode);
      PlaceBranch(parent, branch, newnode, down, lists);
    }

    // Nothing stands for the prefix yet, and its place is taken by down: the new node goes above down, or next
    // to it under a new branch node.
    method InsertAt(parent: Node?, newnode: Node, down: Node, allocs: nat, ghost lists: map<Peer, seq<Node>>)
      returns (status: Status)
      requires Pending(newnode, lists) && newnode.peer in peers && Place(View(), parent, newnode)
      requires newnode !in lists[newnode.peer]
      requires Held(View(), parent, PlaceSlot(parent, newnode), newnode.bitlen) == down && down in View().cells
      requires down.Sized() && down.bitlen == newnode.bitlen
        && !(down.cidr <= newnode.cidr && down.Matches(newnode.bits))
      modifies this`root4, this`root6, this`nodes, nodes`bit0, nodes`bit1, nodes`parent, nodes`slot
      modifies newnode`bit0, newnode`bit1, newnode`parent, newnode`slot, newnode.peer`list
      ensures Valid() && fresh(nodes - old(nodes) - {newnode})
      ensures status == Ok ==> Routes(View()) == old(Routes(View()))[newnode.Pre() := newnode.peer]
      ensures status == Enomem ==> Routes(View()) == old(Routes(View()))
      ensures status != Einval && (status == Enomem <==>
        allocs < 2 && CommonBits(down.bits, newnode.bits) < newnode.cidr)
    {
      hide Shape, Listed, Routes, Extends, Place, Held;
      var common := CommonBits(down.bits, newnode.bits);
      var cidr := if newnode.cidr < common then newnode.cidr else common;
      if newnode.cidr == cidr {
        CoversDown(newnode, down);
        PlaceAbove(parent, newnode, down, lists);
        return Ok;
      }
      if allocs < 2 {
        EraseAppended(lists[newnode.peer], newnode);
        ListDel(newnode);
        assert Lists() == lists;
        return Enomem;
      }
      AddBranch(parent, newnode, down, lists);
      return Ok;
    }

    lemma Located(parent: Node?, n: Node)
      requires n.Sized() && n !in nodes && (parent != null ==> OnPath(View(), parent, n.bits) && parent.cidr < n.cidr)
      ensures Place(View(), parent, n) && (parent != null ==> parent.Sized() && parent.bitlen == n.bitlen)
      ensures Held(View(), parent, PlaceSlot(parent, n), n.bitlen) == if parent == null then Root(n.bitlen)
        else parent.Bit(parent.Choose(n.bits))
    {
      FitsUnder(View(), parent, n);
    }

    // No node stands for the prefix yet: make one and hang it where the descent ended.
    method AddNew(bits: nat, key: Key, cidr: nat, peer: Peer, parent: Node?, allocs: nat) returns (status: Status)
      requires Valid() && (bits == 32 || bits == 128) && |key| == bits && cidr <= bits && peer in peers && allocs > 0
      requires parent != null ==> OnPath(View(), parent, key) && parent.cidr < cidr
      requires var down := if parent == null then Root(bits) else parent.Bit(parent.Choose(key));
        down != null ==>
          down in nodes && down.Sized() && down.bitlen == bits && !(down.cidr <= cidr && down.Matches(key))
      modifies this`root4, this`root6, this`nodes, nodes, peers`list
      ensures Valid() && fresh(nodes - old(nodes))
      ensures status == Enomem ==> Routes(View()) == old(Routes(View()))
      ensures status == Ok ==> Routes(View()) == old(Routes(View()))[Prefix(bits, key[..cidr]) := peer]
      ensures status != Einval
      ensures var down := old(if parent == null then Root(bits) else parent.Bit(parent.Choose(key)));
        status == Enomem <==> allocs < 2 && down != null && CommonBits(down.bits, key) < cidr
    {
      hide Shape, Listed, Routes, Extends, OnPath, Place, Held;
      ghost var lists := Lists();
      var newnode := NewEntry(key, cidr, peer);
      Located(parent, newnode);
      var down := if parent == null then Root(bits) else parent.Bit(parent.Choose(key));
      if down == null {
        PlaceLeaf(parent, newnode, lists);
        return Ok;
      }
      status := InsertAt(parent, newnode, down, allocs, lists);
    }

    lemma NeededHere(bits: nat, key: Key, cidr: nat, parent: Node?)
      requires Shape(View()) && (bits == 32 || bits == 128) && |key| == bits && cidr <= bits
      requires !Placed(View(), Prefix(bits, key[..cidr]))
      requires parent != null ==> OnPath(View(), parent, key) && parent.cidr < cidr
      requires var down := if parent == null then Root(bits) else parent.Bit(parent.Choose(key));
        down != null ==>
          down in nodes && down.Sized() && down.bitlen == bits && !(down.cidr <= cidr && down.Matches(key))
      ensures var down := if parent == null then Root(bits) else parent.Bit(parent.Choose(key));
        Needed(Routes(View()), Prefix(bits, key[..cidr]))
        == if down != null && CommonBits(down.bits, key) < cidr then 2 else 1
    {
      NeededAt(View(), key, cidr, parent, if parent == null then Root(bits) else parent.Bit(parent.Choose(key)));
    }

    method AddPlaced(bits: nat, key: Key, cidr: nat, peer: Peer, allocs: nat) returns (status: Status)
      requires Valid() && (bits == 32 || bits == 128) && |key| == bits && cidr <= bits && peer in peers
      modifies this`root4, this`root6, this`nodes, nodes, peers`list
      ensures Valid() && fresh(nodes - old(nodes))
      ensures status == Enomem ==> Routes(View()) == old(Routes(View()))
      ensures status == Ok ==> Routes(View()) == old(Routes(View()))[Prefix(bits, key[..cidr]) := peer]
      ensures status != Einval
      ensures status == Enomem <==> allocs < Needed(old(Routes(View())), Prefix(bits, key[..cidr]))
    {
      hide Shape, Listed, Routes, Extends, OnPath, Place, Held, Placed;
      var exact, parent := NodePlacement(bits, key, cidr);
      ghost var s, p := View(), Prefix(bits, key[..cidr]);
      Canonical(s, p);
      if exact {
        RouteAtNode(s, bits, key, cidr, exact, parent);
        NodeFacts(parent, key);
        Reassign(parent, peer);
        return Ok;
      }
      NeededHere(bits, key, cidr, parent);
      if allocs == 0 { return Enomem; }
      status := AddNew(bits, key, cidr, peer, parent, allocs);
    }

    // How many nodes can still be allocated is the caller's to say.
    method Add(bits: nat, key: Key, cidr: nat, peer: Peer?, allocs: nat) returns (status: Status)
      requires Valid() && (bits == 32 || bits == 128) && |key| == bits
      requires peer != null ==> peer in peers || peer.list == []
      modifies this, nodes, peers`list, (if peer == null then {} else {peer})`list
      ensures Valid() && fresh(nodes - old(nodes)) && seqno == old(seqno) + 1
      ensures peers == if status == Einval then old(peers) else old(peers) + {peer}
      ensures status == Einval <==> cidr > bits || peer == null
      ensures status == Einval && peer != null ==> peer.list == old(peer.list)
      ensures status == Enomem <==>
        cidr <= bits && peer != null && allocs < Needed(old(Routes(View())), Prefix(bits, key[..cidr]))
      ensures status != Ok ==> Routes(View()) == old(Routes(View()))
      ensures status == Ok ==> Routes(View()) == old(Routes(View()))[Prefix(bits, key[..cidr]) := peer]
    {
      hide Shape, Listed, Routes, Extends;
      Bump();
      if cidr > bits || peer == null { return Einval; }
      Know(peer);
      if Root(bits) == null {
        NeededFirst(View(), key, cidr);
        if allocs == 0 { return Enomem; }
        ghost var lists := Lists();
        var node := NewEntry(key, cidr, peer);
        FitsUnder(View(), null, node);
        PlaceLeaf(null, node, lists);
        return Ok;
      }
      status := AddPlaced(bits, key, cidr, peer, allocs);
    }

    lemma ListedHere(peer: Peer, node: Node)
      requires Valid() && peer in peers && node in peer.list
      ensures node in nodes && node.peer == peer
    {
      assert node in Lists()[peer];
      assert node in View().cells;
    }

    method RemoveListed(peer: Peer, node: Node)
      requires Valid() && peer in peers && peer.list != [] && node == peer.list[0]
      modifies this`root4, this`root6, this`nodes, nodes, peer`list
      ensures Valid() && nodes <= old(nodes) && peer.list == old(peer.list[1..])
      ensures Routes(View()) - Prefixes(peer.list) == old(Routes(View())) - old(Prefixes(peer.list))
    {
      hide Shape, Listed, Routes, View, Lists;
      ListedHere(peer, node);
      RemoveNode(node);
    }

    method RemoveAll(peer: Peer)
      requires Valid() && peer in peers
      modifies this`root4, this`root6, this`nodes, nodes, peer`list
      ensures Valid() && nodes <= old(nodes) && peer.list == []
      ensures Routes(View()) == old(Routes(View())) - old(Prefixes(peer.list))
    {
      hide Shape, Listed, Routes, View, Lists, Valid, Prefixes;
      var todo := peer.list;
      for i := 0 to |todo|
        invariant Valid() && nodes <= old(nodes) && peer.list == todo[i..] && peers == old(peers)
        invariant Routes(View()) - Prefixes(peer.list) == old(Routes(View())) - old(Prefixes(peer.list))
      {
        RemoveListed(peer, todo[i]);
      }
      NoPrefixes();
    }

    method RemoveByPeer(peer: Peer)
      requires Valid() && (peer in peers || peer.list == [])
      modifies this`root4, this`root6, this`nodes, this`seqno, nodes, peer`list
      ensures Valid() && nodes <= old(nodes) && peer.list == []
      ensures Routes(View()) == map p | p in old(Routes(View())) && old(Routes(View()))[p] != peer ::
        old(Routes(View()))[p]
      ensures seqno == old(seqno) + if old(peer.list) == [] then 0 else 1
    {
      Bereft(View(), Lists(), peer);
      assert Owned(Lists(), peer) == peer.list;
      NoPrefixes();
      hide Shape, Listed, Routes, Owned, View, Lists, Prefixes;
      if peer.list == [] { return; }
      Bump();
      RemoveAll(peer);
    }

    constructor ()
      ensures Valid() && Routes(View()) == map[] && nodes == {} && peers == {} && seqno == 1
    {
      root4, root6, seqno := null, null, 1;
      nodes, peers := {}, {};
    }

    // The heap still holds what the snapshot says.
    ghost predicate Holds(s: Store)
      reads this, nodes
    {
      s.cells.Keys == nodes && forall n | n in nodes :: n.Content() == s.cells[n]
    }

    method PushRcu(stack: array<Node?>, p: Node?, len: nat, ghost held: seq<Node>) returns (len': nat)
      requires len == |held| <= |Push(held, p)| <= stack.Length && forall i | 0 <= i < len :: stack[i] == held[i]
      modifies stack
      ensures len' == |Push(held, p)| <= stack.Length && forall i | 0 <= i < len' :: stack[i] == Push(held, p)[i]
    {
      len' := len;
      if p != null {
        stack[len'] := p;
        len' := len' + 1;
      }
    }

    method UnlistOne(node: Node, ghost s: Store, ghost gone: set<Node>)
      requires Holds(s) && node in nodes && node !in gone && Listed(Cleared(s, gone), Lists())
      modifies peers`list
      ensures Listed(Cleared(s, gone + {node}), Lists()) && Holds(s)
    {
      ClearedOne(s, Lists(), gone, node);
      hide Listed, Cleared;
      if node.peer != null { ListDel(node); }
    }

    // Replace the top of the stack by its children.
    method Expand(stack: array<Node?>, len: nat, node: Node, ghost rest: seq<Node>) returns (len': nat)
      requires len == |rest| <= stack.Length && forall i | 0 <= i < len :: stack[i] == rest[i]
      requires |Push(Push(rest, node.bit0), node.bit1)| <= stack.Length
      modifies stack
      ensures len' == |Push(Push(rest, node.bit0), node.bit1)| <= stack.Length
      ensures forall i | 0 <= i < len' :: stack[i] == Push(Push(rest, node.bit0), node.bit1)[i]
    {
      len' := PushRcu(stack, node.bit0, len, rest);
      len' := PushRcu(stack, node.bit1, len', Push(rest, node.bit0));
    }

    method RemovePeerLists(root: Node, ghost s: Store, ghost gone: set<Node>)
      requires Holds(s) && Links(s) && s.Root(root.bitlen) == root && root in nodes && root.Sized()
      requires gone !! Family(s, root.bitlen) && Listed(Cleared(s, gone), Lists())
      modifies peers`list
      ensures Listed(Cleared(s, gone + Family(s, root.bitlen)), Lists()) && Holds(s)
    {
      hide Links, Listed, Walk, Cleared, Lists, Push;
      var stack := new Node?[MAX_ALLOWEDIPS_DEPTH];
      stack[0] := root;
      var len := 1;
      ghost var visited: set<Node> := {};
      ghost var waiting := [root];
      WalkStart(s, root);
      assert gone + visited == gone;
      while len > 0
        invariant len == |waiting| <= MAX_ALLOWEDIPS_DEPTH && forall i | 0 <= i < len :: stack[i] == waiting[i]
        invariant Walk(s, root, waiting, visited) && visited <= Family(s, root.bitlen) && Holds(s)
        invariant Listed(Cleared(s, gone + visited), Lists())
        decreases Family(s, root.bitlen) - visited
      {
        len := len - 1;
        var node: Node := stack[len];
        WalkStep(s, root, waiting, visited);
        waiting := waiting[..len];
        WalkFits(s, root, Push(Push(waiting, node.bit0), node.bit1), visited + {node});
        len := Expand(stack, len, node, waiting);
        waiting := Push(Push(waiting, node.bit0), node.bit1);
        UnlistOne(node, s, gone + visited);
        assert gone + visited + {node} == gone + (visited + {node});
        visited := visited + {node};
      }
      WalkDone(s, root, visited);
    }

    // Take every node of one family off its peer's list.
    method RemoveFamily(root: Node?, bits: nat, ghost s: Store, ghost gone: set<Node>)
      requires Holds(s) && Links(s) && (bits == 32 || bits == 128) && root == s.Root(bits)
      requires gone !! Family(s, bits) && Listed(Cleared(s, gone), Lists())
      modifies peers`list
      ensures Listed(Cleared(s, gone + Family(s, bits)), Lists()) && Holds(s)
    {
      if root != null {
        assert Rooted(s, bits) && Linked(s, root);
        RemovePeerLists(root, s, gone);
      } else {
        EmptyFamily(s, bits);
        assert gone + Family(s, bits) == gone;
      }
    }

    ghost method Drop()
      requires root4 == null && root6 == null
      requires forall p | p in Lists() :: Lists()[p] == []
      modifies this`nodes
      ensures nodes == {} && Valid() && Routes(View()) == map[]
      ensures forall p | p in peers :: p.list == []
    {
      nodes := {};
      assert View() == Store(map[], null, null);
      assert Lists() == old(Lists());
      forall p | p in peers ensures p.list == [] { assert Lists()[p] == []; }
    }

    // The roots go first, then the lists.
    method CutOff()
      requires Valid()
      modifies this, peers`list
      ensures Valid() && Routes(View()) == map[] && nodes == {} && seqno == old(seqno) + 1 && peers == old(peers)
      ensures forall p | p in peers :: p.list == []
    {
      ghost var s := View();
      assert Links(s);
      NothingCleared(s);
      FamiliesApart(s);
      hide Shape, Listed, Links, Cleared;
      var old4, old6 := root4, root6;
      seqno := seqno + 1;
      root4, root6 := null, null;
      assert Lists() == old(Lists());
      RemoveFamily(old4, 32, s, {});
      assert {} + Family(s, 32) == Family(s, 32);
      RemoveFamily(old6, 128, s, Family(s, 32));
      AllCleared(s, Lists(), Family(s, 32) + Family(s, 128));
      Drop();
    }

    // Give back every node of a trie that has been cut off, each after its children have been read.
    method FreeTrie(root: Node, ghost s: Store) returns (freed: seq<Node>)
      requires Kept(s) && Links(s) && s.Root(root.bitlen) == root && root in s.cells && root.Sized()
      ensures multiset(freed) == multiset(Family(s, root.bitlen))
    {
      hide Links, Walk, Push;
      var stack := new Node?[MAX_ALLOWEDIPS_DEPTH];
      stack[0] := root;
      var len := 1;
      freed := [];
      ghost var visited: set<Node> := {};
      ghost var waiting := [root];
      WalkStart(s, root);
      while len > 0
        invariant len == |waiting| <= MAX_ALLOWEDIPS_DEPTH && forall i | 0 <= i < len :: stack[i] == waiting[i]
        invariant Walk(s, root, waiting, visited) && visited <= Family(s, root.bitlen)
        invariant multiset(freed) == multiset(visited)
        decreases Family(s, root.bitlen) - visited
      {
        len := len - 1;
        var node: Node := stack[len];
        WalkStep(s, root, waiting, visited);
        waiting := waiting[..len];
        WalkFits(s, root, Push(Push(waiting, node.bit0), node.bit1), visited + {node});
        len := Expand(stack, len, node, waiting);
        waiting := Push(Push(waiting, node.bit0), node.bit1);
        OneMore(freed, visited, node);
        freed := freed + [node];
        visited := visited + {node};
      }
      WalkDone(s, root, visited);
    }

    method FreeFamily(root: Node?, bits: nat, ghost s: Store) returns (freed: seq<Node>)
      requires Kept(s) && Links(s) && (bits == 32 || bits == 128) && root == s.Root(bits)
      ensures multiset(freed) == multiset(Family(s, bits))
    {
      freed := [];
      if root != null {
        assert Rooted(s, bits) && Linked(s, root);
        freed := FreeTrie(root, s);
      } else {
        EmptyFamily(s, bits);
      }
    }

    // Both tries are emptied, and every list with them; once no reader can hold them, every node is given back, once.
    method FreeAll() returns (freed: seq<Node>)
      requires Valid()
      modifies this, peers`list
      ensures Valid() && Routes(View()) == map[] && nodes == {} && seqno == old(seqno) + 1 && peers == old(peers)
      ensures (forall p | p in peers :: p.list == []) && multiset(freed) == multiset(old(nodes))
    {
      ghost var s := View();
      assert Links(s) && Kept(s);
      hide Shape, Listed, Links, Family, Routes;
      var old4, old6 := root4, root6;
      CutOff();
      assert Kept(s);
      var freed4 := FreeFamily(old4, 32, s);
      var freed6 := FreeFamily(old6, 128, s);
      freed := freed4 + freed6;
      BothFamilies(s, freed4, freed6);
    }
  }

  lemma NoPrefixes()
    ensures Prefixes([]) == {}
  {
  }

  // The nodes of a snapshot are as they were.
  ghost predicate Kept(s: Store)
    reads s.cells.Keys
  {
    forall n | n in s.cells :: n.Content() == s.cells[n]
  }

  lemma BothFamilies(s: Store, a: seq<Node>, b: seq<Node>)
    requires Links(s) && multiset(a) == multiset(Family(s, 32)) && multiset(b) == multiset(Family(s, 128))
    ensures multiset(a + b) == multiset(s.cells.Keys)
  {
    FamiliesApart(s);
    hide Links, Family;
    assert multiset(a + b) == multiset(a) + multiset(b);
    assert multiset(Family(s, 32) + Family(s, 128)) == multiset(Family(s, 32)) + multiset(Family(s, 128));
  }

  lemma OneMore(freed: seq<Node>, visited: set<Node>, node: Node)
    requires multiset(freed) == multiset(visited) && node !in visited
    ensures multiset(freed + [node]) == multiset(visited + {node})
  {
  }

  // ---------------------------------------------------------------- whole runs

  datatype Op =
    | Insert(bits: nat, key: Key, cidr: nat, owner: Peer?, allocs: nat)
    | Delete(bits: nat, key: Key, cidr: nat, peer: Peer)
    | Forget(peer: Peer)
    | Reset
    | Query(bits: nat, key: Key)

  // Addresses have the length of their family, and peers come from the crowd.
  ghost predicate Proper(op: Op, crowd: set<Peer>) {
    (op.Insert? || op.Delete? || op.Query? ==> (op.bits == 32 || op.bits == 128) && |op.key| == op.bits)
    && (op.Insert? ==> op.owner == null || op.owner in crowd)
    && (op.Delete? || op.Forget? ==> op.peer in crowd)
  }

  // A prefix longer than the address or a missing owner is refused; memory is wanting when the routes call for more
  // nodes than can be had; nothing else fails.
  ghost function Reported(routes: map<Prefix, Peer>, op: Op): Status {
    match op
    case Insert(bits, key, cidr, owner, allocs) =>
      if cidr > bits || cidr > |key| || owner == null then Einval
      else if allocs < Needed(routes, Prefix(bits, key[..cidr])) then Enomem else Ok
    case Delete(bits, _, cidr, _) => if cidr > bits then Einval else Ok
    case _ => Ok
  }

  // What an operation does to a plain map from prefixes to peers.
  ghost function Applied(routes: map<Prefix, Peer>, op: Op): map<Prefix, Peer> {
    if Reported(routes, op) != Ok then routes
    else
      match op
      case Insert(bits, key, cidr, owner, _) => routes[Prefix(bits, key[..cidr]) := owner]
      case Delete(bits, key, cidr, peer) =>
        if cidr > |key| then routes
        else
          var p := Prefix(bits, key[..cidr]);
          if p in routes && routes[p] == peer then routes - {p} else routes
      case Forget(peer) => map p | p in routes && routes[p] != peer :: routes[p]
      case Reset => map[]
      case Query(_, _) => routes
  }

  ghost function AfterAll(ops: seq<Op>): map<Prefix, Peer> {
    if ops == [] then map[] else Applied(AfterAll(ops[..|ops| - 1]), ops[|ops| - 1])
  }

  // A peer the table has not met has an empty list.
  ghost predicate Ready(t: Table, crowd: set<Peer>)
    reads t, crowd
  {
    forall p | p in crowd :: p in t.peers || p.list == []
  }

  // One operation on the trie is that operation on the map.
  method Perform(t: Table, op: Op, ghost crowd: set<Peer>) returns (status: Status, answer: Peer?)
    requires t.Valid() && Proper(op, crowd) && Ready(t, crowd) && t.peers <= crowd
    modifies t, t.nodes, crowd`list
    ensures t.Valid() && fresh(t.nodes - old(t.nodes)) && Ready(t, crowd) && t.peers <= crowd
    ensures status == Reported(old(Routes(t.View())), op) && Routes(t.View()) == Applied(old(Routes(t.View())), op)
    ensures op.Query? ==> answer == LongestMatch(old(Routes(t.View())), op.key, |op.key|)
  {
    hide Routes, Shape, Listed, LongestMatch, Needed;
    status, answer := Ok, null;
    match op
    case Insert(bits, key, cidr, owner, allocs) => status := t.Add(bits, key, cidr, owner, allocs);
    case Delete(bits, key, cidr, peer) => status := t.Remove(bits, key, cidr, peer);
    case Forget(peer) => t.RemoveByPeer(peer);
    case Reset => var _ := t.FreeAll();
    case Query(bits, ip) => answer := t.Lookup(bits, ip);
  }

  // The status and, for a query, the answer that the map calls for.
  ghost predicate Answered(routes: map<Prefix, Peer>, op: Op, status: Status, answer: Peer?) {
    status == Reported(routes, op) && (op.Query? ==> answer == LongestMatch(routes, op.key, |op.key|))
  }

  ghost predicate AllAnswered(ops: seq<Op>, statuses: seq<Status>, answers: seq<Peer?>, n: nat)
    requires n <= |ops| && n <= |statuses| && n <= |answers|
  {
    forall i | 0 <= i < n :: Answered(AfterAll(ops[..i]), ops[i], statuses[i], answers[i])
  }

  lemma OneAnswered(ops: seq<Op>, statuses: seq<Status>, answers: seq<Peer?>, status: Status, answer: Peer?)
    requires |statuses| == |answers| < |ops| && AllAnswered(ops, statuses, answers, |statuses|)
    requires var i := |statuses|; Answered(AfterAll(ops[..i]), ops[i], status, answer)
    ensures AllAnswered(ops, statuses + [status], answers + [answer], |statuses| + 1)
  {
    hide Answered, AfterAll;
  }

  // Over any run of insertions, deletions, forgotten peers and resets, with memory to be had or not, every operation
  // reports and every lookup answers as the map calls for that those operations build, longest prefix first.
  method Serve(ops: seq<Op>, ghost crowd: set<Peer>) returns (statuses: seq<Status>, answers: seq<Peer?>)
    requires (forall i | 0 <= i < |ops| :: Proper(ops[i], crowd)) && forall p | p in crowd :: p.list == []
    modifies crowd`list
    ensures |statuses| == |answers| == |ops|
    ensures forall i | 0 <= i < |ops| :: Answered(AfterAll(ops[..i]), ops[i], statuses[i], answers[i])
  {
    hide Routes, Shape, Listed, LongestMatch, Reported, Applied;
    var t := new Table();
    statuses, answers := [], [];
    for i := 0 to |ops|
      invariant fresh(t) && fresh(t.nodes) && t.Valid() && Ready(t, crowd) && t.peers <= crowd
      invariant |statuses| == |answers| == i && Routes(t.View()) == AfterAll(ops[..i])
      invariant AllAnswered(ops, statuses, answers, i)
    {
      assert ops[..i + 1][..i] == ops[..i] && ops[..i + 1][i] == ops[i];
      var status, answer := Perform(t, ops[i], crowd);
      OneAnswered(ops, statuses, answers, status, answer);
      statuses, answers := statuses + [status], answers + [answer];
    }
  }
}
