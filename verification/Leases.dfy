/** Device slots for OpenVPN accounts: leases, release markers and stale status snapshots kept as files. */
module Leases {
  import opened Basics

  type Ip = string
  datatype Proto = Udp | Tcp

  // Milliseconds.
  const LEASE_TTL := 30_000
  const RECLAIM_GRACE := 10_000
  const RELEASE_TTL := 15_000
  const STATUS_INTERVAL := 5_000

  datatype Lease = Lease(since: int, session: string)

  // What one transport keeps on disk: lease files, release markers, and OpenVPN's last status snapshot.
  datatype Dir = Dir(leases: map<Ip, Lease>, released: map<Ip, int>, status: set<Ip>)

  datatype Outcome = NoBlock | Refused | Granted(ip: Ip)

  // ---------------------------------------------------------------- what the connect hook decides

  function Fresh(leases: map<Ip, Lease>, now: int): map<Ip, Lease> {
    map ip | ip in leases && now - leases[ip].since <= LEASE_TTL :: leases[ip]
  }

  // A scan of the leases with some entries still to be read: the others are kept if fresh, with their ages.
  ghost function Unread(all: map<Ip, Lease>, entries: set<Ip>, now: int): map<Ip, Lease> {
    map ip | ip in all && (ip in entries || now - all[ip].since <= LEASE_TTL) :: all[ip]
  }

  ghost function Ages(all: map<Ip, Lease>, entries: set<Ip>, now: int): map<Ip, int> {
    map ip | ip in all && ip !in entries && now - all[ip].since <= LEASE_TTL :: now - all[ip].since
  }

  lemma ScanStarts(all: map<Ip, Lease>, now: int)
    ensures Unread(all, all.Keys, now) == all && Ages(all, all.Keys, now) == map[]
  {
  }

  lemma ScanEnds(all: map<Ip, Lease>, now: int)
    ensures Unread(all, {}, now) == Fresh(all, now) && Ages(all, {}, now).Keys == Fresh(all, now).Keys
    ensures Ages(all, {}, now) == map ip | ip in Fresh(all, now) :: now - Fresh(all, now)[ip].since
  {
  }

  lemma ScanOne(all: map<Ip, Lease>, entries: set<Ip>, now: int, ip: Ip)
    requires ip in entries && ip in all
    ensures var before, after := Unread(all, entries, now), Unread(all, entries - {ip}, now);
      ip in before && before[ip] == all[ip]
      && if now - all[ip].since > LEASE_TTL
         then after == before - {ip} && Ages(all, entries - {ip}, now) == Ages(all, entries, now)
         else after == before && Ages(all, entries - {ip}, now) == Ages(all, entries, now)[ip := now - all[ip].since]
  {
  }

  function Marked(released: map<Ip, int>, now: int): map<Ip, int> {
    map ip | ip in released && now - released[ip] <= RELEASE_TTL :: released[ip]
  }

  // The snapshot, less the addresses known to have been given up since.
  function Listed(d: Dir, now: int): set<Ip> {
    d.status - (Marked(d.released, now).Keys - Fresh(d.leases, now).Keys)
  }

  function Busy(d: Dir, now: int): set<Ip> {
    (d.status + Fresh(d.leases, now).Keys) - (Marked(d.released, now).Keys - Fresh(d.leases, now).Keys)
  }

  // The other transport is read without its release markers.
  function BusyThere(d: Dir, now: int): set<Ip> {
    d.status + Fresh(d.leases, now).Keys
  }

  function Count(block: seq<Ip>, s: set<Ip>): nat {
    if block == [] then 0 else Count(block[..|block| - 1], s) + if block[|block| - 1] in s then 1 else 0
  }

  function Used(mine: Dir, other: Dir, block: seq<Ip>, otherBlock: seq<Ip>, now: int): nat {
    Count(block, Busy(mine, now)) + Count(otherBlock, BusyThere(other, now))
  }

  predicate IsGhost(d: Dir, now: int, ip: Ip) {
    ip in d.leases && ip !in Listed(d, now) && RECLAIM_GRACE < now - d.leases[ip].since <= LEASE_TTL
  }

  // The first address of the block that is not busy.
  predicate IsFirstFree(block: seq<Ip>, busy: set<Ip>, ip: Ip) {
    exists i :: 0 <= i < |block| && block[i] == ip && ip !in busy && forall j | 0 <= j < i :: block[j] in busy
  }

  // The address of the block whose abandoned lease is oldest, the first of them on a tie.
  predicate IsOldestGhost(block: seq<Ip>, d: Dir, now: int, ip: Ip) {
    exists i :: 0 <= i < |block| && block[i] == ip && IsGhost(d, now, ip)
      && (forall j | 0 <= j < |block| && IsGhost(d, now, block[j]) :: d.leases[ip].since <= d.leases[block[j]].since)
      && (forall j | 0 <= j < i && IsGhost(d, now, block[j]) :: d.leases[ip].since < d.leases[block[j]].since)
  }

  predicate AnyFree(block: seq<Ip>, busy: set<Ip>) {
    exists i :: 0 <= i < |block| && block[i] !in busy
  }

  predicate AnyGhost(block: seq<Ip>, d: Dir, now: int) {
    exists i :: 0 <= i < |block| && IsGhost(d, now, block[i])
  }

  // The answer a dial gets under the "reject" strategy.
  predicate Decides(mine: Dir, other: Dir, block: seq<Ip>, otherBlock: seq<Ip>, now: int, o: Outcome) {
    if block == [] then o == NoBlock
    else if Used(mine, other, block, otherBlock, now) < |block| && AnyFree(block, Busy(mine, now))
    then o.Granted? && IsFirstFree(block, Busy(mine, now), o.ip)
    else if AnyGhost(block, mine, now) then o.Granted? && IsOldestGhost(block, mine, now, o.ip)
    else o == Refused
  }

  // The directory the hook leaves behind.
  function After(d: Dir, now: int, session: string, o: Outcome): Dir {
    match o
    case NoBlock => d
    case Refused => Dir(Fresh(d.leases, now), Marked(d.released, now), d.status)
    case Granted(ip) => Dir(Fresh(d.leases, now)[ip := Lease(now, session)], Marked(d.released, now) - {ip}, d.status)
  }

  // ---------------------------------------------------------------- the hooks, on the files

  class Files {
    var leases: map<Ip, Lease>
    var released: map<Ip, int>
    var status: set<Ip>

    function View(): Dir
      reads this
    {
      Dir(leases, released, status)
    }

    // Reads the markers, deleting those past their time.
    method ReleasedIps(now: int) returns (marked: set<Ip>)
      modifies this`released
      ensures released == Marked(old(released), now) && marked == released.Keys
    {
      var entries := released.Keys;
      ghost var all := released;
      marked := {};
      while entries != {}
        invariant entries <= all.Keys && entries <= released.Keys <= all.Keys
        invariant forall ip | ip in released :: released[ip] == all[ip]
        invariant forall ip | ip in all && ip !in entries :: ip in released <==> now - all[ip] <= RELEASE_TTL
        invariant marked == released.Keys - entries
        decreases |entries|
      {
        var ip :| ip in entries;
        entries := entries - {ip};
        if now - released[ip] > RELEASE_TTL {
          released := released - {ip};
        } else {
          marked := marked + {ip};
        }
      }
    }

    // Reads the leases into the in-use set and their ages, deleting those past their time.
    method ScanLeases(now: int, seen: set<Ip>) returns (inUse: set<Ip>, age: map<Ip, int>)
      modifies this`leases
      ensures leases == Fresh(old(leases), now) && inUse == seen + leases.Keys
      ensures age == map ip | ip in leases :: now - leases[ip].since
    {
      var entries := leases.Keys;
      ghost var all := leases;
      inUse, age := seen, map[];
      ScanStarts(all, now);
      ScanEnds(all, now);
      hide Unread, Ages, Fresh;
      while entries != {}
        invariant entries <= all.Keys && leases == Unread(all, entries, now)
        invariant age == Ages(all, entries, now) && inUse == seen + age.Keys
        decreases |entries|
      {
        var ip :| ip in entries;
        ScanOne(all, entries, now, ip);
        entries := entries - {ip};
        if now - leases[ip].since > LEASE_TTL {
          leases := leases - {ip};
        } else {
          inUse := inUse + {ip};
          age := age[ip := now - leases[ip].since];
        }
      }
    }

    method WriteLease(ip: Ip, session: string, now: int)
      modifies this
      ensures View() == old(View()).(leases := old(leases)[ip := Lease(now, session)], released := old(released) - {ip})
    {
      leases := leases[ip := Lease(now, session)];
      released := released - {ip};
    }
  }

  method CountUsed(block: seq<Ip>, s: set<Ip>) returns (n: nat)
    ensures n == Count(block, s)
  {
    n := 0;
    for i := 0 to |block|
      invariant n == Count(block[..i], s)
    {
      assert block[..i + 1][..i] == block[..i];
      if block[i] in s { n := n + 1; }
    }
    assert block[..|block|] == block;
  }

  method FindFree(block: seq<Ip>, inUse: set<Ip>) returns (ip: Option<Ip>)
    ensures if AnyFree(block, inUse) then ip.Some? && IsFirstFree(block, inUse, ip.value) else ip == None
  {
    for i := 0 to |block|
      invariant forall j | 0 <= j < i :: block[j] in inUse
    {
      if block[i] !in inUse { return Some(block[i]); }
    }
    return None;
  }

  method FindGhost(block: seq<Ip>, ghost d: Dir, now: int, listed: set<Ip>, age: map<Ip, int>) returns (ip: Option<Ip>)
    requires listed == Listed(d, now) && age == map a | a in Fresh(d.leases, now) :: now - d.leases[a].since
    ensures if AnyGhost(block, d, now) then ip.Some? && IsOldestGhost(block, d, now, ip.value) else ip == None
  {
    ip := None;
    var oldest, at := 0, 0;
    for i := 0 to |block|
      invariant ip == None ==> oldest == 0 && forall j | 0 <= j < i :: !IsGhost(d, now, block[j])
      invariant ip.Some? ==>
        at < i && block[at] == ip.value && IsGhost(d, now, ip.value) && oldest == now - d.leases[ip.value].since
      invariant ip.Some? ==> forall j | 0 <= j < i && IsGhost(d, now, block[j]) ::
        now - d.leases[block[j]].since <= oldest
      invariant ip.Some? ==> forall j | 0 <= j < at && IsGhost(d, now, block[j]) ::
        now - d.leases[block[j]].since < oldest
    {
      var c := block[i];
      if c in listed || c !in age { continue; }
      if age[c] > RECLAIM_GRACE && age[c] > oldest {
        ip, oldest, at := Some(c), age[c], i;
      }
    }
  }

  // The client-connect hook. It reads both transports, decides, and records the lease on its own.
  method Connect(mine: Files, other: Files, block: seq<Ip>, otherBlock: seq<Ip>, session: string, now: int)
    returns (o: Outcome)
    requires mine != other
    modifies mine
    ensures Decides(old(mine.View()), old(other.View()), block, otherBlock, now, o)
    ensures mine.View() == After(old(mine.View()), now, session, o)
  {
    if block == [] { return NoBlock; }
    ghost var d := mine.View();
    var marked := mine.ReleasedIps(now);
    var inUse, age := mine.ScanLeases(now, mine.status);
    var listed := mine.status - (marked - age.Keys);
    inUse := inUse - (marked - age.Keys);
    assert inUse == Busy(d, now) && listed == Listed(d, now);
    hide IsFirstFree, IsOldestGhost, AnyFree, AnyGhost;
    var here := CountUsed(block, inUse);
    var there := CountThere(other, otherBlock, now);
    if here + there < |block| {
      var free := FindFree(block, inUse);
      if free.Some? {
        mine.WriteLease(free.value, session, now);
        return Granted(free.value);
      }
    }
    var abandoned := FindGhost(block, d, now, listed, age);
    if abandoned.Some? {
      mine.WriteLease(abandoned.value, session, now);
      return Granted(abandoned.value);
    }
    return Refused;
  }

  // The other transport's share of the account's limit; nothing there is deleted.
  method CountThere(other: Files, block: seq<Ip>, now: int) returns (n: nat)
    ensures n == Count(block, BusyThere(other.View(), now))
  {
    var leased := set ip | ip in other.leases && now - other.leases[ip].since <= LEASE_TTL;
    assert other.status + leased == BusyThere(other.View(), now);
    n := CountUsed(block, other.status + leased);
  }

  // The client-disconnect hook: the lease this session holds is dropped and its address marked as given up.
  // Which of several leases with one session key goes is the directory's business.
  predicate Removable(d: Dir, session: string, ip: Ip) {
    session != "" && ip in d.leases && d.leases[ip].session == session
  }

  function Dropped(d: Dir, now: int, ip: Ip): Dir {
    d.(leases := d.leases - {ip}, released := d.released[ip := now])
  }

  method Disconnect(files: Files, session: string, now: int) returns (ip: Option<Ip>)
    modifies files
    ensures if ip.Some? then Removable(old(files.View()), session, ip.value)
      && files.View() == Dropped(old(files.View()), now, ip.value)
            else files.View() == old(files.View()) && forall x | x in files.leases ::
              !Removable(files.View(), session, x)
  {
    var entries := files.leases.Keys;
    while entries != {}
      invariant entries <= files.leases.Keys && files.View() == old(files.View())
      invariant forall x | x in files.leases && x !in entries :: !Removable(files.View(), session, x)
      decreases |entries|
    {
      var x :| x in entries;
      entries := entries - {x};
      if session != "" && files.leases[x].session == session {
        files.leases := files.leases - {x};
        files.released := files.released[x := now];
        return Some(x);
      }
    }
    return None;
  }

  // ---------------------------------------------------------------- every run

  datatype Device = Device(session: string, since: int)

  // One transport: its files, the devices really connected, and when the snapshot was taken.
  datatype Side = Side(dir: Dir, live: map<Ip, Device>, flushed: int)

  datatype World = World(now: int, udp: Side, tcp: Side)

  function At(w: World, p: Proto): Side {
    if p == Udp then w.udp else w.tcp
  }

  function Other(p: Proto): Proto {
    if p == Udp then Tcp else Udp
  }

  function With(w: World, p: Proto, s: Side): World {
    if p == Udp then w.(udp := s) else w.(tcp := s)
  }

  // The addresses published for an account on each transport.
  datatype Block = Block(udp: seq<Ip>, tcp: seq<Ip>)

  function On(b: Block, p: Proto): seq<Ip> {
    if p == Udp then b.udp else b.tcp
  }

  // Dial: the hook runs and, if it grants an address, the device comes up on it or does not.
  // Leave: a device goes and its hook runs, finding the lease at `found` if there is one.
  // Vanish: a device goes and no hook runs.
  datatype Event =
    | Dial(p: Proto, block: Block, session: string, o: Outcome, completes: bool)
    | Leave(p: Proto, ip: Ip, found: Option<Ip>)
    | Vanish(p: Proto, ip: Ip)
    | Flush(p: Proto)
    | Tick(ms: nat)

  predicate Enabled(w: World, e: Event) {
    match e
    case Dial(p, b, session, o, _) =>
      Decides(At(w, p).dir, At(w, Other(p)).dir, On(b, p), On(b, Other(p)), w.now, o)
      && forall ip | ip in At(w, p).live :: At(w, p).live[ip].session != session
    case Leave(p, ip, found) =>
      var s := At(w, p);
      ip in s.live
      && (if found.Some? then Removable(s.dir, s.live[ip].session, found.value)
          else forall x | x in s.dir.leases :: !Removable(s.dir, s.live[ip].session, x))
    case Vanish(p, ip) => ip in At(w, p).live
    case Flush(_) => true
    case Tick(ms) => w.now + ms <= w.udp.flushed + STATUS_INTERVAL && w.now + ms <= w.tcp.flushed + STATUS_INTERVAL
  }

  function Next(w: World, e: Event): World
    requires Enabled(w, e)
  {
    match e
    case Dial(p, _, session, o, completes) =>
      var s := At(w, p);
      With(w, p, s.(dir := After(s.dir, w.now, session, o),
                    live := if o.Granted? && completes then s.live[o.ip := Device(session, w.now)] else s.live))
    case Leave(p, ip, found) =>
      var s := At(w, p);
      With(w, p, s.(live := s.live - {ip}, dir := if found.Some? then Dropped(s.dir, w.now, found.value) else s.dir))
    case Vanish(p, ip) => With(w, p, At(w, p).(live := At(w, p).live - {ip}))
    case Flush(p) => With(w, p, At(w, p).(dir := At(w, p).dir.(status := At(w, p).live.Keys), flushed := w.now))
    case Tick(ms) => w.(now := w.now + ms)
  }

  // A live device's lease, while there is one, is its own; once the lease may be gone the snapshot shows the device;
  // and no marker says it left.
  ghost predicate Tracked(s: Side, now: int) {
    now - s.flushed <= STATUS_INTERVAL && s.flushed <= now
    && (forall ip | ip in s.live ::
      && s.live[ip].since <= now
      && (ip in s.dir.leases ==> s.dir.leases[ip] == Lease(s.live[ip].since, s.live[ip].session))
      && (now - s.live[ip].since <= LEASE_TTL ==> ip in s.dir.leases)
      && (s.live[ip].since < s.flushed ==> ip in s.dir.status)
      && ip !in s.dir.released)
    && (forall a, b | a in s.live && b in s.live && s.live[a].session == s.live[b].session :: a == b)
  }

  // Addresses of the block with a device on them or an unexpired lease.
  function Occupied(s: Side, block: seq<Ip>, now: int): set<Ip> {
    set ip | ip in block && (ip in s.live || ip in Fresh(s.dir.leases, now))
  }

  function Total(w: World, b: Block): nat {
    |Occupied(w.udp, b.udp, w.now)| + |Occupied(w.tcp, b.tcp, w.now)|
  }

  function Limit(b: Block): nat {
    if |b.udp| <= |b.tcp| then |b.tcp| else |b.udp|
  }

  // Every address a device really holds is seen as busy, on its own transport and from the other.
  lemma LiveIsBusy(s: Side, now: int, ip: Ip)
    requires Tracked(s, now) && ip in s.live
    ensures ip in Busy(s.dir, now) && ip in BusyThere(s.dir, now) && !IsGhost(s.dir, now, ip)
  {
  }

  // A dial is never handed the address of a live device, whether it takes a free slot or reclaims a lease.
  lemma NeverALiveAddress(w: World, e: Event)
    requires Tracked(w.udp, w.now) && Tracked(w.tcp, w.now) && e.Dial? && Enabled(w, e) && e.o.Granted?
    ensures e.o.ip !in At(w, e.p).live && e.o.ip in On(e.block, e.p)
  {
    if e.o.ip in At(w, e.p).live { LiveIsBusy(At(w, e.p), w.now, e.o.ip); }
  }

  ghost predicate Sound(w: World) {
    Tracked(w.udp, w.now) && Tracked(w.tcp, w.now)
  }

  lemma StepSound(w: World, e: Event)
    requires Sound(w) && Enabled(w, e)
    ensures Sound(Next(w, e))
  {
    match e
    case Dial(p, _, session, o, completes) =>
      if o.Granted? {
        NeverALiveAddress(w, e);
        DialTracked(At(w, p), w.now, session, o, completes);
      }
    case Leave(p, ip, found) => LeaveTracked(At(w, p), w.now, ip, found);
    case _ =>
  }

  lemma DialTracked(s: Side, now: int, session: string, o: Outcome, completes: bool)
    requires Tracked(s, now) && o.Granted? && o.ip !in s.live && forall ip | ip in s.live ::
      s.live[ip].session != session
    ensures Tracked(s.(dir := After(s.dir, now, session, o),
                       live := if completes then s.live[o.ip := Device(session, now)] else s.live), now)
  {
  }

  lemma LeaveTracked(s: Side, now: int, ip: Ip, found: Option<Ip>)
    requires Tracked(s, now) && ip in s.live && (found.Some? ==> Removable(s.dir, s.live[ip].session, found.value))
    ensures Tracked(s.(live := s.live - {ip},
                       dir := if found.Some? then Dropped(s.dir, now, found.value) else s.dir), now)
  {
    if found.Some? && found.value in s.live { assert found.value == ip; }
  }

  // ---------------------------------------------------------------- the limit

  lemma {:induction false} CountCovers(block: seq<Ip>, s: set<Ip>, t: set<Ip>)
    requires t <= s && forall ip | ip in t :: ip in block
    ensures |t| <= Count(block, s)
  {
    if block != [] {
      var last := block[|block| - 1];
      CountCovers(block[..|block| - 1], s, t - {last});
    }
  }

  // What the hook counts is at least what is really occupied.
  lemma UsedCovers(w: World, p: Proto, b: Block)
    requires Sound(w)
    ensures Total(w, b) <= Used(At(w, p).dir, At(w, Other(p)).dir, On(b, p), On(b, Other(p)), w.now)
  {
    var s, t := At(w, p), At(w, Other(p));
    forall ip | ip in s.live ensures ip in Busy(s.dir, w.now) { LiveIsBusy(s, w.now, ip); }
    forall ip | ip in t.live ensures ip in BusyThere(t.dir, w.now) { LiveIsBusy(t, w.now, ip); }
    CountCovers(On(b, p), Busy(s.dir, w.now), Occupied(s, On(b, p), w.now));
    CountCovers(On(b, Other(p)), BusyThere(t.dir, w.now), Occupied(t, On(b, Other(p)), w.now));
  }

  // Blocks of different accounts share no address.
  predicate Separate(b: Block, e: Event) {
    e.Dial? ==> e.block == b || forall p, ip | ip in On(e.block, p) :: ip !in On(b, p)
  }

  // Granting an address adds at most that address; any other answer adds none.
  lemma DialOccupies(s: Side, block: seq<Ip>, now: int, session: string, o: Outcome, completes: bool)
    ensures var t := s.(dir := After(s.dir, now, session, o),
                        live := if o.Granted? && completes then s.live[o.ip := Device(session, now)] else s.live);
      Occupied(t, block, now) <= Occupied(s, block, now) + if o.Granted? && o.ip in block then {o.ip} else {}
  {
  }

  // An address that is newly occupied was free, so the account was below its limit.
  lemma GrantHasRoom(w: World, e: Event, b: Block)
    requires Sound(w) && e.Dial? && Enabled(w, e) && Separate(b, e) && Total(w, b) <= Limit(b)
    requires e.o.Granted? && e.o.ip in On(b, e.p) && e.o.ip !in Occupied(At(w, e.p), On(b, e.p), w.now)
    ensures Total(w, b) < Limit(b)
  {
    assert e.block == b;
    assert !IsOldestGhost(On(b, e.p), At(w, e.p).dir, w.now, e.o.ip);
    UsedCovers(w, e.p, b);
  }

  lemma OneSideMoves(w: World, v: World, p: Proto, b: Block)
    requires At(v, Other(p)) == At(w, Other(p)) && v.now == w.now
    ensures Total(v, b) - |Occupied(At(v, p), On(b, p), w.now)| == Total(w, b) - |Occupied(At(w, p), On(b, p), w.now)|
  {
    hide Occupied;
  }

  lemma DialBounded(w: World, e: Event, b: Block)
    requires Sound(w) && e.Dial? && Enabled(w, e) && Separate(b, e) && Total(w, b) <= Limit(b)
    ensures Total(Next(w, e), b) <= Limit(b)
  {
    var p, o, v := e.p, e.o, Next(w, e);
    var was, after := Occupied(At(w, p), On(b, p), w.now), Occupied(At(v, p), On(b, p), w.now);
    DialOccupies(At(w, p), On(b, p), w.now, e.session, o, e.completes);
    assert o.Granted? && o.ip in On(b, p) && o.ip !in was ==> after <= was + {o.ip};
    assert !(o.Granted? && o.ip in On(b, p) && o.ip !in was) ==> after <= was;
    OneSideMoves(w, v, p, b);
    hide Occupied, Total, Limit, Sound, Enabled, Separate, Next;
    if o.Granted? && o.ip in On(b, p) && o.ip !in was {
      GrantHasRoom(w, e, b);
      SubsetSize(after, was + {o.ip});
    } else {
      SubsetSize(after, was);
    }
  }

  lemma StepBounded(w: World, e: Event, b: Block)
    requires Sound(w) && Enabled(w, e) && Separate(b, e) && Total(w, b) <= Limit(b)
    ensures Total(Next(w, e), b) <= Limit(b)
  {
    match e
    case Dial(_, _, _, _, _) => DialBounded(w, e, b);
    case Tick(ms) =>
      SubsetSize(Occupied(w.udp, b.udp, w.now + ms), Occupied(w.udp, b.udp, w.now));
      SubsetSize(Occupied(w.tcp, b.tcp, w.now + ms), Occupied(w.tcp, b.tcp, w.now));
    case Leave(p, _, _) => SubsetSize(Occupied(At(Next(w, e), p), On(b, p), w.now),
      Occupied(At(w, p), On(b, p), w.now));
    case Vanish(p, _) => SubsetSize(Occupied(At(Next(w, e), p), On(b, p), w.now), Occupied(At(w, p), On(b, p), w.now));
    case Flush(p) => assert Occupied(At(Next(w, e), p), On(b, p), w.now) == Occupied(At(w, p), On(b, p), w.now);
  }

  ghost predicate Run(w: World, events: seq<Event>, v: World)
    decreases |events|
  {
    if events == [] then w == v
    else Enabled(w, events[0]) && Run(Next(w, events[0]), events[1..], v)
  }

  const NOTHING := Dir(map[], map[], {})

  function Empty(now: int): World {
    World(now, Side(NOTHING, map[], now), Side(NOTHING, map[], now))
  }

  // In every run, an account's live devices and unexpired leases over both transports stay within its limit.
  lemma {:induction false} WithinLimit(w: World, events: seq<Event>, v: World, b: Block)
    requires Sound(w) && Total(w, b) <= Limit(b) && Run(w, events, v)
    requires forall e | e in events :: Separate(b, e)
    ensures Sound(v) && Total(v, b) <= Limit(b)
    decreases |events|
  {
    if events != [] {
      StepSound(w, events[0]);
      StepBounded(w, events[0], b);
      WithinLimit(Next(w, events[0]), events[1..], v, b);
    }
  }

  lemma LimitKept(start: int, events: seq<Event>, v: World, b: Block)
    requires Run(Empty(start), events, v) && forall e | e in events :: Separate(b, e)
    ensures Total(v, b) <= Limit(b)
    ensures forall e: Event | e.Dial? && Enabled(v, e) && e.o.Granted? :: e.o.ip !in At(v, e.p).live
  {
    assert Occupied(Empty(start).udp, b.udp, start) == {} && Occupied(Empty(start).tcp, b.tcp, start) == {};
    WithinLimit(Empty(start), events, v, b);
    forall e: Event | e.Dial? && Enabled(v, e) && e.o.Granted?
      ensures e.o.ip !in At(v, e.p).live { NeverALiveAddress(v, e); }
  }

  // ---------------------------------------------------------------- who is refused

  predicate Distinct(block: seq<Ip>) {
    forall i, j | 0 <= i < j < |block| :: block[i] != block[j]
  }

  function Within(block: seq<Ip>, s: set<Ip>): set<Ip> {
    set ip | ip in block && ip in s
  }

  lemma WithinNext(front: seq<Ip>, ip: Ip, s: set<Ip>)
    requires ip !in front
    ensures |Within(front + [ip], s)| == |Within(front, s)| + if ip in s then 1 else 0
    ensures AnyFree(front, s) || ip !in s ==> AnyFree(front + [ip], s)
  {
    var all := front + [ip];
    assert Within(all, s) == Within(front, s) + if ip in s then {ip} else {};
    if i :| 0 <= i < |front| && front[i] !in s { assert all[i] !in s; }
    if ip !in s { assert all[|front|] !in s; }
  }

  lemma {:induction false} CountExact(block: seq<Ip>, s: set<Ip>)
    requires Distinct(block)
    ensures Count(block, s) == |Within(block, s)| <= |block|
    ensures Count(block, s) < |block| ==> AnyFree(block, s)
  {
    if block != [] {
      var n := |block| - 1;
      assert block == block[..n] + [block[n]] && block[n] !in block[..n];
      CountExact(block[..n], s);
      hide Within, AnyFree;
      WithinNext(block[..n], block[n], s);
    }
  }

  // Addresses the hook counts as taken although nothing holds them: snapshot rows that outlived their device.
  function Stale(s: Side, block: seq<Ip>, now: int, seen: set<Ip>): set<Ip> {
    Within(block, seen) - Occupied(s, block, now)
  }

  function StaleHere(w: World, p: Proto, b: Block): set<Ip> {
    Stale(At(w, p), On(b, p), w.now, Busy(At(w, p).dir, w.now))
  }

  function StaleThere(w: World, p: Proto, b: Block): set<Ip> {
    Stale(At(w, Other(p)), On(b, Other(p)), w.now, BusyThere(At(w, Other(p)).dir, w.now))
  }

  lemma SplitSize(a: set<Ip>, b: set<Ip>)
    requires a <= b
    ensures |b| == |a| + |b - a|
  {
    assert b == a + (b - a);
  }

  lemma UsedIsOccupiedPlusStale(w: World, p: Proto, b: Block)
    requires Sound(w) && Distinct(b.udp) && Distinct(b.tcp)
    ensures Used(At(w, p).dir, At(w, Other(p)).dir, On(b, p), On(b, Other(p)), w.now)
      == Total(w, b) + |StaleHere(w, p, b)| + |StaleThere(w, p, b)|
  {
    var s, t := At(w, p), At(w, Other(p));
    forall ip | ip in s.live ensures ip in Busy(s.dir, w.now) { LiveIsBusy(s, w.now, ip); }
    forall ip | ip in t.live ensures ip in BusyThere(t.dir, w.now) { LiveIsBusy(t, w.now, ip); }
    CountExact(On(b, p), Busy(s.dir, w.now));
    CountExact(On(b, Other(p)), BusyThere(t.dir, w.now));
    SplitSize(Occupied(s, On(b, p), w.now), Within(On(b, p), Busy(s.dir, w.now)));
    SplitSize(Occupied(t, On(b, Other(p)), w.now), Within(On(b, Other(p)), BusyThere(t.dir, w.now)));
  }

  // A dial is refused exactly when the devices, unexpired leases and stale rows together reach the limit and
  // the block has no abandoned lease to reclaim.
  lemma RefusedExactly(w: World, p: Proto, b: Block, o: Outcome)
    requires Sound(w) && Distinct(b.udp) && Distinct(b.tcp)
    requires Decides(At(w, p).dir, At(w, Other(p)).dir, On(b, p), On(b, Other(p)), w.now, o)
    ensures o == Refused <==> (On(b, p) != [] && !AnyGhost(On(b, p), At(w, p).dir, w.now)
                               && Total(w, b) + |StaleHere(w, p, b)| + |StaleThere(w, p, b)| >= |On(b, p)|)
  {
    UsedIsOccupiedPlusStale(w, p, b);
    CountExact(On(b, p), Busy(At(w, p).dir, w.now));
  }

  function Left(s: Side, ip: Ip, now: int): Side {
    s.(live := s.live - {ip}, dir := Dropped(s.dir, now, ip))
  }

  lemma LeaveSide(s: Side, ip: Ip, block: seq<Ip>, now: int)
    requires Tracked(s, now) && ip in s.live && ip in s.dir.leases && ip in block
    ensures Occupied(s, block, now) - {ip} == Occupied(Left(s, ip, now), block, now) && ip in Occupied(s, block, now)
    ensures Busy(Left(s, ip, now).dir, now) == Busy(s.dir, now) - {ip}
    ensures BusyThere(Left(s, ip, now).dir, now) == BusyThere(s.dir, now) - if ip in s.dir.status then {} else {ip}
  {
    assert Fresh(s.dir.leases - {ip}, now).Keys == Fresh(s.dir.leases, now).Keys - {ip};
    assert Marked(s.dir.released[ip := now], now).Keys == Marked(s.dir.released, now).Keys + {ip};
  }

  lemma LeaveStale(s: Side, ip: Ip, block: seq<Ip>, now: int)
    requires Tracked(s, now) && ip in s.live && ip in s.dir.leases && ip in block
    ensures |Occupied(Left(s, ip, now), block, now)| == |Occupied(s, block, now)| - 1
    ensures Stale(Left(s, ip, now), block, now, Busy(Left(s, ip, now).dir, now))
      == Stale(s, block, now, Busy(s.dir, now))
    ensures ip in s.dir.status ==>
      Stale(Left(s, ip, now), block, now, BusyThere(Left(s, ip, now).dir, now))
        == Stale(s, block, now, BusyThere(s.dir, now)) + {ip}
    ensures ip !in Stale(s, block, now, BusyThere(s.dir, now))
  {
    LeaveSide(s, ip, block, now);
    LiveIsBusy(s, now, ip);
    hide Busy, BusyThere, Occupied, Tracked, Left;
  }

  // ---- markers and snapshots

  // A marker for an address the snapshot still lists was written after that snapshot was taken.
  ghost predicate Marks(s: Side, now: int) {
    forall ip | ip in s.dir.released && ip in s.dir.status :: s.flushed <= s.dir.released[ip] <= now
  }

  ghost predicate Fit(w: World) {
    Sound(w) && Marks(w.udp, w.now) && Marks(w.tcp, w.now)
  }

  lemma StepFit(w: World, e: Event)
    requires Fit(w) && Enabled(w, e)
    ensures Fit(Next(w, e))
  {
    StepSound(w, e);
  }

  lemma {:induction false} RunFit(w: World, events: seq<Event>, v: World)
    requires Fit(w) && Run(w, events, v)
    ensures Fit(v)
    decreases |events|
  {
    if events != [] {
      hide Fit, Enabled, Next;
      StepFit(w, events[0]);
      RunFit(Next(w, events[0]), events[1..], v);
    }
  }

  lemma EmptyFit(start: int)
    ensures Fit(Empty(start))
  {
  }

  // So a marker outlives every snapshot that can still list its address.
  lemma MarkerOutlives(s: Side, now: int, ip: Ip)
    requires Tracked(s, now) && Marks(s, now) && ip in s.dir.released && ip in s.dir.status
    ensures ip in Marked(s.dir.released, now)
  {
  }

  // In every run from empty files, an address that was given up and not handed out since is not busy, at any moment.
  lemma GivenUpIsFree(start: int, events: seq<Event>, v: World, p: Proto, ip: Ip)
    requires Run(Empty(start), events, v) && ip in At(v, p).dir.released && ip !in Fresh(At(v, p).dir.leases, v.now)
    ensures ip !in Busy(At(v, p).dir, v.now)
  {
    EmptyFit(start);
    RunFit(Empty(start), events, v);
    if ip in At(v, p).dir.status { MarkerOutlives(At(v, p), v.now, ip); }
  }

  // ---- what happens to an account while others come and go

  // An event that is none of the account's: time, a snapshot, or somebody else's.
  predicate Foreign(b: Block, e: Event) {
    match e
    case Dial(_, block, _, _, _) => forall p, ip | ip in On(block, p) :: ip !in On(b, p)
    case Leave(p, ip, found) => ip !in On(b, p) && (found.Some? ==> found.value !in On(b, p))
    case Vanish(p, ip) => ip !in On(b, p)
    case _ => true
  }

  // The account's devices are the same, and no address of its block has become busy.
  ghost predicate Settles(s: Side, now: int, t: Side, later: int, block: seq<Ip>) {
    forall ip | ip in block ::
      (ip in t.live <==> ip in s.live)
      && (ip in Fresh(t.dir.leases, later) ==> ip in Fresh(s.dir.leases, now))
      && (ip in t.dir.leases ==> ip in s.dir.leases)
      && (ip in Busy(t.dir, later) ==> ip in Busy(s.dir, now))
      && (ip in BusyThere(t.dir, later) ==> ip in BusyThere(s.dir, now))
  }

  ghost predicate AllSettle(w: World, v: World, b: Block) {
    Settles(w.udp, w.now, v.udp, v.now, b.udp) && Settles(w.tcp, w.now, v.tcp, v.now, b.tcp)
  }

  lemma TickSettles(s: Side, now: int, later: int, block: seq<Ip>)
    requires Tracked(s, now) && Marks(s, now) && now <= later && later <= s.flushed + STATUS_INTERVAL
    ensures Settles(s, now, s, later, block)
  {
    forall ip | ip in block && ip in s.dir.status && ip in s.dir.released ensures ip in Marked(s.dir.released, later) {}
  }

  lemma FlushSettles(s: Side, now: int, block: seq<Ip>)
    requires Tracked(s, now)
    ensures Settles(s, now, s.(dir := s.dir.(status := s.live.Keys), flushed := now), now, block)
  {
    forall ip | ip in s.live ensures ip in Busy(s.dir, now) && ip in BusyThere(s.dir, now) { LiveIsBusy(s, now, ip); }
  }

  lemma DialSettles(s: Side, now: int, block: seq<Ip>, session: string, o: Outcome, completes: bool)
    requires o.Granted? ==> o.ip !in block
    ensures var live := if o.Granted? && completes then s.live[o.ip := Device(session, now)] else s.live;
      Settles(s, now, s.(dir := After(s.dir, now, session, o), live := live), now, block)
  {
  }

  lemma LeaveSettles(s: Side, now: int, block: seq<Ip>, ip: Ip, found: Option<Ip>)
    requires ip !in block && (found.Some? ==> found.value !in block)
    ensures Settles(s, now, s.(live := s.live - {ip},
                               dir := if found.Some? then Dropped(s.dir, now, found.value) else s.dir),
                    now, block)
  {
  }

  lemma StepSettles(w: World, e: Event, b: Block)
    requires Fit(w) && Enabled(w, e) && Foreign(b, e)
    ensures AllSettle(w, Next(w, e), b)
  {
    match e
    case Dial(p, block, session, o, completes) =>
      if o.Granted? { NeverALiveAddress(w, e); }
      DialSettles(At(w, p), w.now, On(b, p), session, o, completes);
    case Leave(p, ip, found) => LeaveSettles(At(w, p), w.now, On(b, p), ip, found);
    case Vanish(p, ip) => LeaveSettles(At(w, p), w.now, On(b, p), ip, None);
    case Flush(p) => FlushSettles(At(w, p), w.now, On(b, p));
    case Tick(ms) =>
      TickSettles(w.udp, w.now, w.now + ms, b.udp);
      TickSettles(w.tcp, w.now, w.now + ms, b.tcp);
  }

  lemma SettleOn(w: World, u: World, v: World, b: Block)
    requires AllSettle(w, u, b) && AllSettle(u, v, b)
    ensures AllSettle(w, v, b)
  {
    hide Busy, BusyThere, Fresh;
  }

  lemma SettleSame(w: World, b: Block)
    ensures AllSettle(w, w, b)
  {
    hide Busy, BusyThere, Fresh;
  }

  lemma {:induction false} RunSettles(w: World, events: seq<Event>, v: World, b: Block)
    requires Fit(w) && Run(w, events, v) && forall e | e in events :: Foreign(b, e)
    ensures AllSettle(w, v, b) && Fit(v)
    decreases |events|
  {
    hide AllSettle, Fit, Enabled, Next, Foreign;
    if events == [] {
      SettleSame(w, b);
    } else {
      var u := Next(w, events[0]);
      StepFit(w, events[0]);
      StepSettles(w, events[0], b);
      RunSettles(u, events[1..], v, b);
      SettleOn(w, u, v, b);
    }
  }

  // What the hook would count of the account.
  function Counted(w: World, p: Proto, b: Block): nat {
    Used(At(w, p).dir, At(w, Other(p)).dir, On(b, p), On(b, Other(p)), w.now)
  }

  lemma {:induction false} CountShrinks(block: seq<Ip>, s: set<Ip>, t: set<Ip>)
    requires forall ip | ip in block && ip in t :: ip in s
    ensures Count(block, t) <= Count(block, s)
  {
    if block != [] { CountShrinks(block[..|block| - 1], s, t); }
  }

  lemma SettledCount(w: World, v: World, p: Proto, b: Block)
    requires AllSettle(w, v, b)
    ensures Counted(v, p, b) <= Counted(w, p, b)
  {
    hide Busy, BusyThere, Fresh;
    CountShrinks(On(b, p), Busy(At(w, p).dir, w.now), Busy(At(v, p).dir, v.now));
    CountShrinks(On(b, Other(p)), BusyThere(At(w, Other(p)).dir, w.now), BusyThere(At(v, Other(p)).dir, v.now));
  }

  // ---- hanging up and dialling again

  // When a device leaves, its slot is free at once to a dial on the same transport, whatever the snapshot says.
  lemma LeaveFreesHere(w: World, p: Proto, ip: Ip, b: Block)
    requires Sound(w) && Enabled(w, Leave(p, ip, Some(ip))) && ip in On(b, p)
    ensures var v := Next(w, Leave(p, ip, Some(ip)));
      Total(v, b) == Total(w, b) - 1 && StaleHere(v, p, b) == StaleHere(w, p, b)
        && StaleThere(v, p, b) == StaleThere(w, p, b)
  {
    LeaveStale(At(w, p), ip, On(b, p), w.now);
    hide Busy, BusyThere, Occupied, Tracked, Stale, Dropped;
    assert At(Next(w, Leave(p, ip, Some(ip))), p) == Left(At(w, p), ip, w.now);
  }

  lemma LeaveUncounts(w: World, p: Proto, ip: Ip, b: Block)
    requires Sound(w) && Enabled(w, Leave(p, ip, Some(ip))) && ip in On(b, p) && Distinct(b.udp) && Distinct(b.tcp)
    ensures Counted(Next(w, Leave(p, ip, Some(ip))), p, b) == Counted(w, p, b) - 1
  {
    LeaveFreesHere(w, p, ip, b);
    StepSound(w, Leave(p, ip, Some(ip)));
    hide Busy, BusyThere, Occupied, Stale, Dropped, Next, Sound, Enabled, Used, StaleHere, StaleThere, Total;
    UsedIsOccupiedPlusStale(w, p, b);
    UsedIsOccupiedPlusStale(Next(w, Leave(p, ip, Some(ip))), p, b);
  }

  // A dial of an account of which the hook counts less than its limit is granted.
  lemma BelowLimitGranted(w: World, p: Proto, b: Block, o: Outcome)
    requires Distinct(b.udp) && Distinct(b.tcp) && On(b, p) != [] && Counted(w, p, b) < |On(b, p)|
    requires Decides(At(w, p).dir, At(w, Other(p)).dir, On(b, p), On(b, Other(p)), w.now, o)
    ensures o.Granted?
  {
    CountExact(On(b, p), Busy(At(w, p).dir, w.now));
    hide Busy, BusyThere;
  }

  // A device whose lease is on file when it hangs up is admitted on the same transport at every later moment, however
  // many snapshots come or fail to come in between and whatever the other accounts do, if the hook did not count more
  // than the account's limit before.
  lemma RedialAdmitted(w: World, p: Proto, ip: Ip, b: Block, events: seq<Event>, v: World, o: Outcome)
    requires Fit(w) && Distinct(b.udp) && Distinct(b.tcp) && Enabled(w, Leave(p, ip, Some(ip))) && ip in On(b, p)
    requires Counted(w, p, b) <= |On(b, p)| && Run(Next(w, Leave(p, ip, Some(ip))), events, v)
    requires forall e | e in events :: Foreign(b, e)
    requires Decides(At(v, p).dir, At(v, Other(p)).dir, On(b, p), On(b, Other(p)), v.now, o)
    ensures o.Granted?
  {
    var u := Next(w, Leave(p, ip, Some(ip)));
    assert On(b, p) != [];
    LeaveUncounts(w, p, ip, b);
    StepFit(w, Leave(p, ip, Some(ip)));
    hide Fit, Enabled, Next, Foreign, Decides, Counted;
    RunSettles(u, events, v, b);
    SettledCount(u, v, p, b);
    BelowLimitGranted(v, p, b, o);
  }

  // The lease of a live device, if it is on file, is what its own hook will find.
  ghost predicate OwnLease(s: Side, ip: Ip) {
    ip in s.live && s.live[ip].session != "" && forall x | Removable(s.dir, s.live[ip].session, x) :: x == ip
  }

  // The device's hook finds its own lease or nothing, and touches no other address.
  lemma OwnLeave(s: Side, ip: Ip, found: Option<Ip>, now: int)
    requires Tracked(s, now) && OwnLease(s, ip)
    requires if found.Some? then Removable(s.dir, s.live[ip].session, found.value)
             else forall x | x in s.dir.leases :: !Removable(s.dir, s.live[ip].session, x)
    ensures found == if ip in s.dir.leases then Some(ip) else None
    ensures var t := s.(live := s.live - {ip}, dir := if found.Some? then Dropped(s.dir, now, found.value) else s.dir);
      ip !in t.dir.leases && ip !in t.live && t.dir.status == s.dir.status && (ip in t.dir.released <==> found.Some?)
      && (forall x | x != ip :: x in Busy(t.dir, now) <==> x in Busy(s.dir, now))
      && (forall x | x != ip :: x in Fresh(t.dir.leases, now) <==> x in Fresh(s.dir.leases, now))
  {
    assert ip in s.dir.leases ==> Removable(s.dir, s.live[ip].session, ip);
  }

  lemma RowStep(w: World, e: Event, p: Proto, ip: Ip, b: Block)
    requires Fit(w) && Enabled(w, e) && Foreign(b, e) && ip in On(b, p)
    requires ip !in At(w, p).live && ip !in At(w, p).dir.leases && ip !in At(w, p).dir.released
    ensures var s := At(Next(w, e), p);
      ip !in s.live && ip !in s.dir.leases && ip !in s.dir.released
      && (ip in s.dir.status <==> ip in At(w, p).dir.status && e != Flush(p))
  {
    if e.Dial? && e.o.Granted? { NeverALiveAddress(w, e); }
  }

  // A row without a marker stays busy until the next snapshot of its transport, and no longer.
  lemma {:induction false} RowStays(w: World, events: seq<Event>, v: World, p: Proto, ip: Ip, b: Block)
    requires Run(w, events, v) && ip in On(b, p) && (forall e | e in events :: Foreign(b, e)) && Fit(w)
    requires ip !in At(w, p).live && ip !in At(w, p).dir.leases && ip !in At(w, p).dir.released
    ensures ip !in At(v, p).live && ip !in At(v, p).dir.leases && ip !in At(v, p).dir.released
    ensures ip in At(v, p).dir.status <==> ip in At(w, p).dir.status && Flush(p) !in events
    decreases |events|
  {
    if events != [] {
      var e := events[0];
      StepFit(w, e);
      assert events == [e] + events[1..];
      RowStep(w, e, p, ip, b);
      hide Enabled, Next, Foreign, Fit;
      RowStays(Next(w, e), events[1..], v, p, ip, b);
    }
  }

  lemma BusyRow(d: Dir, now: int, ip: Ip)
    requires ip !in d.leases && ip !in d.released
    ensures ip in Busy(d, now) <==> ip in d.status
  {
  }

  lemma {:induction false} CountLess(block: seq<Ip>, s: set<Ip>, ip: Ip)
    requires Distinct(block) && ip in s
    ensures Count(block, s - {ip}) == Count(block, s) - if ip in block then 1 else 0
  {
    if block != [] {
      var n := |block| - 1;
      CountLess(block[..n], s, ip);
      assert block == block[..n] + [block[n]];
    }
  }

  // Whatever the hook counts of the account is a device.
  ghost predicate OnlyDevices(w: World, p: Proto, b: Block) {
    (forall ip | ip in On(b, p) && ip in Busy(At(w, p).dir, w.now) :: ip in At(w, p).live)
    && (forall ip | ip in On(b, Other(p)) && ip in BusyThere(At(w, Other(p)).dir, w.now) :: ip in At(w, Other(p)).live)
  }

  // After a departure, while nothing of the account happens, its other devices are counted and nothing else but
  // perhaps the row of the one that left.
  ghost predicate Remaining(w: World, v: World, p: Proto, ip: Ip, b: Block) {
    var q := Other(p);
    (forall x | x in On(b, p) && x != ip :: x in Busy(At(v, p).dir, v.now) <==> x in Busy(At(w, p).dir, w.now))
    && (forall x | x in On(b, q) :: x in BusyThere(At(v, q).dir, v.now) <==> x in BusyThere(At(w, q).dir, w.now))
    && !AnyGhost(On(b, p), At(v, p).dir, v.now)
  }

  lemma GhostIsBusy(d: Dir, now: int, ip: Ip)
    requires IsGhost(d, now, ip)
    ensures ip in d.leases && ip in Busy(d, now)
  {
  }

  lemma NoGhostLeft(u: Side, t: Side, now: int, later: int, block: seq<Ip>, ip: Ip)
    requires Settles(u, now, t, later, block) && Tracked(t, later) && ip !in u.dir.leases
    requires forall x | x in block && x != ip && x in Busy(u.dir, now) :: x in u.live
    ensures !AnyGhost(block, t.dir, later)
  {
    hide Busy, BusyThere, Fresh, IsGhost, Tracked;
    forall i | 0 <= i < |block| ensures !IsGhost(t.dir, later, block[i]) {
      var x := block[i];
      if x in t.live {
        LiveIsBusy(t, later, x);
      } else if IsGhost(t.dir, later, x) {
        GhostIsBusy(t.dir, later, x);
      }
    }
  }

  // One transport: devices stay busy and nothing becomes so.
  lemma SideRemains(s: Side, u: Side, t: Side, now: int, later: int, block: seq<Ip>, gone: set<Ip>)
    requires Settles(u, now, t, later, block) && Tracked(t, later) && u.live == s.live - gone
    requires forall x | x !in gone :: x in Busy(u.dir, now) <==> x in Busy(s.dir, now)
    requires forall x | x in block && x in Busy(s.dir, now) :: x in s.live
    ensures forall x | x in block && x !in gone :: x in Busy(t.dir, later) <==> x in Busy(s.dir, now)
  {
    hide Busy, BusyThere, Fresh, Tracked;
    forall x | x in block && x !in gone && x in Busy(s.dir, now) ensures x in Busy(t.dir, later) {
      LiveIsBusy(t, later, x);
    }
  }

  lemma ThereRemains(s: Side, t: Side, now: int, later: int, block: seq<Ip>)
    requires Settles(s, now, t, later, block) && Tracked(t, later)
    requires forall x | x in block && x in BusyThere(s.dir, now) :: x in s.live
    ensures forall x | x in block :: x in BusyThere(t.dir, later) <==> x in BusyThere(s.dir, now)
  {
    hide Busy, BusyThere, Fresh, Tracked;
    forall x | x in block && x in BusyThere(s.dir, now) ensures x in BusyThere(t.dir, later) {
      LiveIsBusy(t, later, x);
    }
  }

  lemma LeftSides(w: World, p: Proto, ip: Ip, found: Option<Ip>)
    requires Fit(w) && OwnLease(At(w, p), ip) && Enabled(w, Leave(p, ip, found))
    ensures var u, s := Next(w, Leave(p, ip, found)), At(w, p);
      var t := At(u, p);
      At(u, Other(p)) == At(w, Other(p)) && u.now == w.now && t.live == s.live - {ip} && ip !in t.dir.leases
      && (forall x | x !in {ip} :: x in Busy(t.dir, w.now) <==> x in Busy(s.dir, w.now))
  {
    OwnLeave(At(w, p), ip, found, w.now);
    hide Busy, Fresh, Dropped, Tracked;
  }

  lemma FitSides(w: World, p: Proto)
    requires Fit(w)
    ensures Tracked(At(w, p), w.now) && Tracked(At(w, Other(p)), w.now)
  {
  }

  lemma SettleSides(u: World, v: World, p: Proto, b: Block)
    requires AllSettle(u, v, b)
    ensures Settles(At(u, p), u.now, At(v, p), v.now, On(b, p))
    ensures Settles(At(u, Other(p)), u.now, At(v, Other(p)), v.now, On(b, Other(p)))
  {
  }

  lemma OthersRemain(w: World, p: Proto, ip: Ip, found: Option<Ip>, b: Block, events: seq<Event>, v: World)
    requires Fit(w) && OwnLease(At(w, p), ip) && Enabled(w, Leave(p, ip, found)) && ip in On(b, p)
    requires OnlyDevices(w, p, b) && Run(Next(w, Leave(p, ip, found)), events, v)
    requires forall e | e in events :: Foreign(b, e)
    ensures Remaining(w, v, p, ip, b) && Fit(v)
  {
    hide Busy, BusyThere, Tracked, Fresh, Next, Enabled, Fit, AllSettle, Settles, Foreign, Run, AnyGhost, OwnLease;
    var u, q := Next(w, Leave(p, ip, found)), Other(p);
    LeftSides(w, p, ip, found);
    StepFit(w, Leave(p, ip, found));
    RunSettles(u, events, v, b);
    SettleSides(u, v, p, b);
    FitSides(v, p);
    SideRemains(At(w, p), At(u, p), At(v, p), w.now, v.now, On(b, p), {ip});
    ThereRemains(At(w, q), At(v, q), w.now, v.now, On(b, q));
    NoGhostLeft(At(u, p), At(v, p), w.now, v.now, On(b, p), ip);
  }

  // So the hook counts one less exactly when the row is not busy.
  lemma RemainingCount(w: World, v: World, p: Proto, ip: Ip, b: Block)
    requires Remaining(w, v, p, ip, b) && Distinct(b.udp) && Distinct(b.tcp) && ip in On(b, p)
    requires ip in Busy(At(w, p).dir, w.now)
    ensures Counted(v, p, b) == Counted(w, p, b) - if ip in Busy(At(v, p).dir, v.now) then 0 else 1
  {
    hide Busy, BusyThere, AnyGhost;
    var q, s, t := Other(p), Busy(At(w, p).dir, w.now), Busy(At(v, p).dir, v.now);
    CountShrinks(On(b, q), BusyThere(At(w, q).dir, w.now), BusyThere(At(v, q).dir, v.now));
    CountShrinks(On(b, q), BusyThere(At(v, q).dir, v.now), BusyThere(At(w, q).dir, w.now));
    if ip in t {
      CountShrinks(On(b, p), s, t);
      CountShrinks(On(b, p), t, s);
    } else {
      CountLess(On(b, p), s, ip);
      CountShrinks(On(b, p), s - {ip}, t);
      CountShrinks(On(b, p), t, s - {ip});
    }
  }

  lemma FullRefused(w: World, p: Proto, b: Block, o: Outcome)
    requires On(b, p) != [] && Counted(w, p, b) >= |On(b, p)| && !AnyGhost(On(b, p), At(w, p).dir, w.now)
    requires Decides(At(w, p).dir, At(w, Other(p)).dir, On(b, p), On(b, Other(p)), w.now, o)
    ensures o == Refused
  {
    hide Busy, BusyThere, AnyGhost, AnyFree;
  }

  // An account whose devices make up its limit, one of which hangs up and dials again on the same transport after any
  // time in which nothing else of the account happens: it is admitted exactly when its lease was still on file, or
  // the snapshot did not list it, or has been rewritten since.
  lemma RedialExactly(w: World, p: Proto, ip: Ip, found: Option<Ip>, b: Block, events: seq<Event>, v: World, o: Outcome)
    requires Fit(w) && Distinct(b.udp) && Distinct(b.tcp) && OwnLease(At(w, p), ip)
    requires Enabled(w, Leave(p, ip, found)) && ip in On(b, p)
    requires OnlyDevices(w, p, b) && Counted(w, p, b) == |On(b, p)|
    requires Run(Next(w, Leave(p, ip, found)), events, v) && forall e | e in events :: Foreign(b, e)
    requires Decides(At(v, p).dir, At(v, Other(p)).dir, On(b, p), On(b, Other(p)), v.now, o)
    ensures o.Granted? <==> ip in At(w, p).dir.leases || ip !in At(w, p).dir.status || Flush(p) in events
  {
    var u := Next(w, Leave(p, ip, found));
    LiveIsBusy(At(w, p), w.now, ip);
    OwnLeave(At(w, p), ip, found, w.now);
    assert ip !in At(w, p).dir.released && On(b, p) != [];
    OthersRemain(w, p, ip, found, b, events, v);
    RemainingCount(w, v, p, ip, b);
    StepFit(w, Leave(p, ip, found));
    if found.Some? {
      RedialAdmitted(w, p, ip, b, events, v, o);
    } else {
      RowStays(u, events, v, p, ip, b);
      BusyRow(At(v, p).dir, v.now, ip);
      hide Decides, Counted, Enabled, Next, Fit, Busy, Foreign, OnlyDevices;
      if ip in At(v, p).dir.status { FullRefused(v, p, b, o); } else { BelowLimitGranted(v, p, b, o); }
    }
  }

  // ---- leases nobody came up on

  // A slot granted to a device that has not shown itself for ten seconds is handed out again, even at the limit.
  lemma AbandonedReclaimed(w: World, p: Proto, b: Block, ip: Ip, o: Outcome)
    requires ip in On(b, p) && ip in At(w, p).dir.leases && ip !in At(w, p).dir.status
    requires 10_000 < w.now - At(w, p).dir.leases[ip].since <= 30_000
    requires Decides(At(w, p).dir, At(w, Other(p)).dir, On(b, p), On(b, Other(p)), w.now, o)
    ensures o.Granted?
  {
    var i :| 0 <= i < |On(b, p)| && On(b, p)[i] == ip;
    assert IsGhost(At(w, p).dir, w.now, On(b, p)[i]);
  }

  // Before ten it is not, nor is one whose device the snapshot shows.
  lemma GraceKept(d: Dir, now: int, ip: Ip)
    requires ip in d.leases && (now - d.leases[ip].since <= 10_000 || (ip in d.status && ip !in d.released))
    ensures !IsGhost(d, now, ip)
  {
  }

  // And nobody's lease is taken over while the account is below its limit.
  lemma ReclaimOnlyIfFull(w: World, p: Proto, b: Block, o: Outcome)
    requires Distinct(b.udp) && Distinct(b.tcp) && o.Granted? && o.ip in Busy(At(w, p).dir, w.now)
    requires Decides(At(w, p).dir, At(w, Other(p)).dir, On(b, p), On(b, Other(p)), w.now, o)
    ensures Counted(w, p, b) >= |On(b, p)|
  {
    CountExact(On(b, p), Busy(At(w, p).dir, w.now));
    hide Busy, BusyThere;
  }

  // A marker is believed over the snapshot for fifteen seconds.
  lemma MarkerBelieved(d: Dir, now: int, ip: Ip)
    requires ip in d.status && ip in d.released && ip !in d.leases
    ensures ip in Busy(d, now) <==> now - d.released[ip] > 15_000
  {
  }

  // After thirty it no longer counts, here or there; until then it does.
  lemma LeaseCounts(d: Dir, now: int, ip: Ip)
    requires ip in d.leases && ip !in d.status
    ensures ip in Busy(d, now) <==> now - d.leases[ip].since <= 30_000
    ensures ip in BusyThere(d, now) <==> now - d.leases[ip].since <= 30_000
  {
  }

  // To a dial on the other transport the same departure is invisible until the next snapshot: the slot it gave
  // up turns into a stale row, and the count stands.
  lemma LeaveUnseenThere(w: World, p: Proto, ip: Ip, b: Block)
    requires Sound(w) && Enabled(w, Leave(p, ip, Some(ip))) && ip in On(b, p) && ip in At(w, p).dir.status
    ensures var v := Next(w, Leave(p, ip, Some(ip)));
      Total(v, b) == Total(w, b) - 1 && StaleThere(v, Other(p), b) == StaleThere(w, Other(p), b) + {ip}
      && |StaleThere(v, Other(p), b)| == |StaleThere(w, Other(p), b)| + 1
  {
    LeaveStale(At(w, p), ip, On(b, p), w.now);
    hide Busy, BusyThere, Occupied, Tracked, Stale, Dropped;
    var v := Next(w, Leave(p, ip, Some(ip)));
    assert At(v, p) == Left(At(w, p), ip, w.now) && At(v, Other(p)) == At(w, Other(p)) && v.now == w.now;
    hide Next, Left, Enabled, Sound;
  }

  // So an account at its limit that hangs up on one transport and redials on the other is refused.
  lemma RedialAcrossRefused(w: World, p: Proto, ip: Ip, b: Block, o: Outcome)
    requires Sound(w) && Distinct(b.udp) && Distinct(b.tcp) && On(b, Other(p)) != []
    requires Enabled(w, Leave(p, ip, Some(ip))) && ip in On(b, p) && ip in At(w, p).dir.status
    requires Total(w, b) >= |On(b, Other(p))| && !AnyGhost(On(b, Other(p)), At(w, Other(p)).dir, w.now)
    requires var v := Next(w, Leave(p, ip, Some(ip)));
      Decides(At(v, Other(p)).dir, At(v, p).dir, On(b, Other(p)), On(b, p), v.now, o)
    ensures o == Refused
  {
    var v := Next(w, Leave(p, ip, Some(ip)));
    StepSound(w, Leave(p, ip, Some(ip)));
    LeaveUnseenThere(w, p, ip, b);
    RefusedExactly(v, Other(p), b, o);
  }
}
