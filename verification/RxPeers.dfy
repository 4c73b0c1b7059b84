/**
 * The peer and connection tables of rx/rx.c.  Peers hang in hash chains by address and
 * connections by connection id; a peer counts and lists its connections.  Structures are
 * known by numbers.  The chains are shown to be an index of a plain map from (host, port)
 * to one peer and of a flat set of connections.
 */
module RxPeers {
  import opened RxBase

  const TABLE := 256

  datatype Address = Address(host: nat, port: nat)

  datatype Peer = Peer(addr: Address, refCount: int, conns: seq<nat>)

  datatype Kind = Client | Server

  /** What a packet names a connection by. */
  datatype Name = Name(kind: Kind, cid: nat, epoch: nat, security: nat)

  datatype Conn = Conn(name: Name, peer: nat)

  datatype State = State(peers: map<nat, Peer>, peerTable: seq<seq<nat>>, conns: map<nat, Conn>, connTable: seq<seq<nat>>)

  /** Exclusive or of the low bits. */
  function Xor(a: nat, b: nat, bits: nat): nat
    decreases bits
  {
    if bits == 0 then 0 else One(a % 2 != b % 2) + 2 * Xor(a / 2, b / 2, bits - 1)
  }

  /** PEER_HASH. */
  function PeerHash(a: Address): (h: nat)
    ensures h < TABLE
  {
    Xor(a.host, a.port, 32) % TABLE
  }

  /** RX_CIDMASK. */
  function Masked(cid: nat): nat {
    cid - cid % 4
  }

  /** CONN_HASH, which looks past the channel bits. */
  function ConnHash(cid: nat): (h: nat)
    ensures h < TABLE
  {
    (cid / 4) % 256
  }

  // ------------------------------------------------------------- operations

  /** The first of a chain with that address. */
  function Lookup(chain: seq<nat>, peers: map<nat, Peer>, a: Address): (r: Option<nat>)
    ensures r.Some? ==> r.value in peers
  {
    if chain == [] then None
    else if chain[0] in peers && peers[chain[0]].addr == a then Some(chain[0])
    else Lookup(chain[1..], peers, a)
  }

  /** The structure goes to the front of its chain. */
  function Chained(table: seq<seq<nat>>, h: nat, x: nat): seq<seq<nat>>
    requires h < |table|
  {
    table[h := [x] + table[h]]
  }

  function Unchained(table: seq<seq<nat>>, h: nat, x: nat): seq<seq<nat>>
    requires h < |table|
  {
    table[h := Without(table[h], x)]
  }

  function Joined(x: Peer, c: nat): Peer {
    x.(refCount := x.refCount + 1, conns := x.conns + [c])
  }

  function Left(x: Peer, c: nat): Peer {
    x.(refCount := x.refCount - 1, conns := Without(x.conns, c))
  }

  function Merged(x: Peer, y: Peer): Peer {
    x.(refCount := x.refCount + y.refCount, conns := x.conns + y.conns)
  }

  predicate Shape(s: State) {
    |s.peerTable| == TABLE && |s.connTable| == TABLE
  }

  /** rxi_FindPeer without its count: the peer of the address, new when there is none. */
  function FindPeer(s: State, a: Address, n: nat): (r: (State, nat))
    requires Shape(s)
    ensures Shape(r.0) && r.1 in r.0.peers
  {
    match Lookup(s.peerTable[PeerHash(a)], s.peers, a)
    case Some(p) => (s, p)
    case None => (s.(peers := s.peers[n := Peer(a, 0, [])], peerTable := Chained(s.peerTable, PeerHash(a), n)), n)
  }

  /** A new connection: rxi_FindPeer counts it, and it joins the peer's queue and its own chain. */
  function NewConnection(s: State, a: Address, name: Name, p: nat, c: nat): State
    requires Shape(s) && p !in s.peers
  {
    var (t, q) := FindPeer(s, a, p);
    t.(peers := t.peers[q := Joined(t.peers[q], c)],
       conns := t.conns[c := Conn(name, q)], connTable := Chained(t.connTable, ConnHash(name.cid), c))
  }

  /** rx_DestroyConnection, once nothing refers to the connection. */
  function DestroyConnection(s: State, c: nat): State
    requires Shape(s) && c in s.conns && s.conns[c].peer in s.peers
  {
    var p := s.conns[c].peer;
    s.(peers := s.peers[p := Left(s.peers[p], c)],
       conns := s.conns - {c}, connTable := Unchained(s.connTable, ConnHash(s.conns[c].name.cid), c))
  }

  function Moved(conns: map<nat, Conn>, p: nat, q: nat): map<nat, Conn> {
    map c | c in conns :: if conns[c].peer == p then conns[c].(peer := q) else conns[c]
  }

  /** rxi_ChangePeer: off its chain, the new address, and onto the new chain or into the peer already there. */
  function ChangePeer(s: State, p: nat, a: Address): (State, nat)
    requires Shape(s) && p in s.peers
  {
    var table := Unchained(s.peerTable, PeerHash(s.peers[p].addr), p);
    match Lookup(table[PeerHash(a)], s.peers - {p}, a)
    case None => (s.(peers := s.peers[p := s.peers[p].(addr := a)], peerTable := Chained(table, PeerHash(a), p)), p)
    case Some(q) =>
      (s.(peers := (s.peers - {p})[q := Merged(s.peers[q], s.peers[p])],
          peerTable := table, conns := Moved(s.conns, p, q)), q)
  }

  /** rxi_DestroyPeer of a peer without references. */
  function DestroyPeer(s: State, p: nat): State
    requires Shape(s) && p in s.peers
  {
    s.(peers := s.peers - {p}, peerTable := Unchained(s.peerTable, PeerHash(s.peers[p].addr), p))
  }

  /** A packet's connection: the name agrees, and for a server connection the host too. */
  predicate Wanted(s: State, c: nat, name: Name, host: nat) {
    && c in s.conns && s.conns[c].name == name
    && (name.kind == Client || (s.conns[c].peer in s.peers && s.peers[s.conns[c].peer].addr.host == host))
  }

  function FindIn(chain: seq<nat>, s: State, name: Name, host: nat): (r: Option<nat>)
    ensures r.Some? ==> r.value in s.conns
  {
    if chain == [] then None
    else if Wanted(s, chain[0], name, host) then Some(chain[0])
    else FindIn(chain[1..], s, name, host)
  }

  // -------------------------------------------------------------- invariant

  predicate Home(peers: map<nat, Peer>, p: nat, h: int) {
    p in peers && PeerHash(peers[p].addr) == h
  }

  /** A chain holds, once each, exactly the peers that hash to it. */
  ghost predicate PeersIndexed(peers: map<nat, Peer>, table: seq<seq<nat>>) {
    && |table| == TABLE
    && forall h, p: nat :: 0 <= h < TABLE ==> Count(table[h], p) == One(Home(peers, p, h))
  }

  predicate Hung(conns: map<nat, Conn>, c: nat, h: int) {
    c in conns && ConnHash(conns[c].name.cid) == h
  }

  ghost predicate ConnsIndexed(conns: map<nat, Conn>, table: seq<seq<nat>>) {
    && |table| == TABLE
    && (forall h, c: nat :: 0 <= h < TABLE ==> Count(table[h], c) == One(Hung(conns, c, h)))
    && forall c :: c in conns ==> conns[c].name.cid % 4 == 0
  }

  ghost predicate OnePerAddress(peers: map<nat, Peer>) {
    forall p, q :: p in peers && q in peers && peers[p].addr == peers[q].addr ==> p == q
  }

  predicate PointsTo(conns: map<nat, Conn>, c: nat, p: nat) {
    c in conns && conns[c].peer == p
  }

  /** A peer's queue holds, once each, exactly the connections that point to it. */
  ghost predicate Attached(peers: map<nat, Peer>, conns: map<nat, Conn>) {
    && (forall p, c: nat :: p in peers ==> Count(peers[p].conns, c) == One(PointsTo(conns, c, p)))
    && forall c :: c in conns ==> conns[c].peer in peers
  }

  ghost predicate Counted(peers: map<nat, Peer>) {
    forall p :: p in peers ==> peers[p].refCount == |peers[p].conns|
  }

  ghost predicate Inv(s: State) {
    && PeersIndexed(s.peers, s.peerTable) && ConnsIndexed(s.conns, s.connTable)
    && OnePerAddress(s.peers) && Attached(s.peers, s.conns) && Counted(s.peers)
  }

  // ------------------------------------------------------------------ lookups

  lemma {:induction false} LookupFinds(chain: seq<nat>, peers: map<nat, Peer>, a: Address)
    ensures match Lookup(chain, peers, a)
            case None => forall p :: p in chain && p in peers ==> peers[p].addr != a
            case Some(p) => p in chain && p in peers && peers[p].addr == a
    decreases |chain|
  {
    if chain != [] {
      assert chain == [chain[0]] + chain[1..];
      LookupFinds(chain[1..], peers, a);
    }
  }

  lemma IndexedLookup(peers: map<nat, Peer>, table: seq<seq<nat>>, a: Address, p: nat)
    requires PeersIndexed(peers, table) && OnePerAddress(peers)
    ensures Lookup(table[PeerHash(a)], peers, a) == Some(p) <==> p in peers && peers[p].addr == a
  {
    var chain := table[PeerHash(a)];
    LookupFinds(chain, peers, a);
    if p in peers && peers[p].addr == a {
      assert Home(peers, p, PeerHash(a)) && Count(chain, p) == 1;
      assert p in multiset(chain);
    }
  }

  /** The hash table is the plain map: it finds a peer exactly when the peer has that address. */
  lemma TableIsMap(s: State, a: Address, p: nat)
    requires Inv(s)
    ensures Lookup(s.peerTable[PeerHash(a)], s.peers, a) == Some(p) <==> p in s.peers && s.peers[p].addr == a
  {
    IndexedLookup(s.peers, s.peerTable, a, p);
  }

  lemma {:induction false} FindInFinds(chain: seq<nat>, s: State, name: Name, host: nat)
    ensures match FindIn(chain, s, name, host)
            case None => forall c :: c in chain ==> !Wanted(s, c, name, host)
            case Some(c) => c in chain && Wanted(s, c, name, host)
    decreases |chain|
  {
    if chain != [] {
      assert chain == [chain[0]] + chain[1..];
      FindInFinds(chain[1..], s, name, host);
    }
  }

  lemma InChain(conns: map<nat, Conn>, table: seq<seq<nat>>, c: nat)
    requires ConnsIndexed(conns, table) && c in conns
    ensures c in table[ConnHash(conns[c].name.cid)]
  {
    var h := ConnHash(conns[c].name.cid);
    assert Count(table[h], c) == One(Hung(conns, c, h));
    assert c in multiset(table[h]);
  }

  /** The search of one chain finds a connection for a packet, whatever its channel, exactly when there is one. */
  lemma ChainIsSet(s: State, kind: Kind, cid: nat, epoch: nat, security: nat, host: nat)
    requires Inv(s)
    ensures var name := Name(kind, Masked(cid), epoch, security);
            var r := FindIn(s.connTable[ConnHash(cid)], s, name, host);
            && (r.Some? ==> Wanted(s, r.value, name, host))
            && (r.None? ==> forall c :: c in s.conns ==> !Wanted(s, c, name, host))
  {
    var name := Name(kind, Masked(cid), epoch, security);
    var chain := s.connTable[ConnHash(cid)];
    FindInFinds(chain, s, name, host);
    forall c | c in s.conns && Wanted(s, c, name, host) ensures c in chain {
      assert ConnHash(Masked(cid)) == ConnHash(cid);
      InChain(s.conns, s.connTable, c);
    }
  }

  // ----------------------------------------------------------- preservation

  lemma ChainedCount(table: seq<seq<nat>>, h: nat, x: nat)
    requires h < |table|
    ensures forall j, y: nat :: 0 <= j < |table| ==>
              Count(Chained(table, h, x)[j], y) == Count(table[j], y) + One(j == h && y == x)
  {
    assert multiset([x] + table[h]) == multiset{x} + multiset(table[h]);
  }

  lemma UnchainedCount(table: seq<seq<nat>>, h: nat, x: nat)
    requires h < |table| && Count(table[h], x) == 1
    ensures forall j, y: nat :: 0 <= j < |table| ==>
              Count(Unchained(table, h, x)[j], y) == Count(table[j], y) - One(j == h && y == x)
  {
    WithoutCounts(table[h], x);
  }

  lemma PeerAdded(peers: map<nat, Peer>, table: seq<seq<nat>>, n: nat, x: Peer)
    requires PeersIndexed(peers, table) && n !in peers
    ensures PeersIndexed(peers[n := x], Chained(table, PeerHash(x.addr), n))
  {
    ChainedCount(table, PeerHash(x.addr), n);
  }

  lemma PeerDropped(peers: map<nat, Peer>, table: seq<seq<nat>>, p: nat)
    requires PeersIndexed(peers, table) && p in peers
    ensures PeersIndexed(peers - {p}, Unchained(table, PeerHash(peers[p].addr), p))
  {
    var h := PeerHash(peers[p].addr);
    assert Home(peers, p, h) && Count(table[h], p) == 1;
    UnchainedCount(table, h, p);
    DroppedIndexed(peers, table, Unchained(table, h, p), p);
  }

  lemma DroppedIndexed(peers: map<nat, Peer>, table: seq<seq<nat>>, t: seq<seq<nat>>, p: nat)
    requires PeersIndexed(peers, table) && p in peers && |t| == |table|
    requires forall j, y: nat :: 0 <= j < |t| ==>
               Count(t[j], y) == Count(table[j], y) - One(j == PeerHash(peers[p].addr) && y == p)
    ensures PeersIndexed(peers - {p}, t)
  {
    forall h, y: nat | 0 <= h < TABLE ensures Count(t[h], y) == One(Home(peers - {p}, y, h)) {
      assert Count(table[h], y) == One(Home(peers, y, h));
    }
  }

  lemma PeerChanged(peers: map<nat, Peer>, table: seq<seq<nat>>, q: nat, x: Peer)
    requires PeersIndexed(peers, table) && OnePerAddress(peers) && q in peers && x.addr == peers[q].addr
    ensures PeersIndexed(peers[q := x], table) && OnePerAddress(peers[q := x])
  {
  }

  lemma ConnAdded(conns: map<nat, Conn>, table: seq<seq<nat>>, c: nat, x: Conn)
    requires ConnsIndexed(conns, table) && c !in conns && x.name.cid % 4 == 0
    ensures ConnsIndexed(conns[c := x], Chained(table, ConnHash(x.name.cid), c))
  {
    ChainedCount(table, ConnHash(x.name.cid), c);
  }

  lemma ConnDropped(conns: map<nat, Conn>, table: seq<seq<nat>>, c: nat)
    requires ConnsIndexed(conns, table) && c in conns
    ensures ConnsIndexed(conns - {c}, Unchained(table, ConnHash(conns[c].name.cid), c))
  {
    var h := ConnHash(conns[c].name.cid);
    assert Hung(conns, c, h) && Count(table[h], c) == 1;
    UnchainedCount(table, h, c);
    DroppedHung(conns, table, Unchained(table, h, c), c);
  }

  lemma DroppedHung(conns: map<nat, Conn>, table: seq<seq<nat>>, t: seq<seq<nat>>, c: nat)
    requires ConnsIndexed(conns, table) && c in conns && |t| == |table|
    requires forall j, y: nat :: 0 <= j < |t| ==>
               Count(t[j], y) == Count(table[j], y) - One(j == ConnHash(conns[c].name.cid) && y == c)
    ensures ConnsIndexed(conns - {c}, t)
  {
    forall h, y: nat | 0 <= h < TABLE ensures Count(t[h], y) == One(Hung(conns - {c}, y, h)) {
      assert Count(table[h], y) == One(Hung(conns, y, h));
    }
  }

  lemma FindPeerInv(s: State, a: Address, n: nat)
    requires Inv(s) && n !in s.peers
    ensures var (t, q) := FindPeer(s, a, n);
            Inv(t) && t.peers[q].addr == a && t.conns == s.conns && t.connTable == s.connTable
  {
    var x := Peer(a, 0, []);
    if Lookup(s.peerTable[PeerHash(a)], s.peers, a).None? {
      PeerAdded(s.peers, s.peerTable, n, x);
      NewAddress(s, a, n, x);
      NewAttached(s.peers, s.conns, n, x);
    } else {
      LookupFinds(s.peerTable[PeerHash(a)], s.peers, a);
    }
  }

  lemma NewAddress(s: State, a: Address, n: nat, x: Peer)
    requires Inv(s) && n !in s.peers && x.addr == a && Lookup(s.peerTable[PeerHash(a)], s.peers, a).None?
    ensures OnePerAddress(s.peers[n := x])
  {
    forall p | p in s.peers ensures s.peers[p].addr != a {
      TableIsMap(s, a, p);
    }
  }

  lemma NewAttached(peers: map<nat, Peer>, conns: map<nat, Conn>, n: nat, x: Peer)
    requires Attached(peers, conns) && Counted(peers) && n !in peers && x.conns == [] && x.refCount == 0
    ensures Attached(peers[n := x], conns) && Counted(peers[n := x])
  {
    assert forall c :: c in conns ==> conns[c].peer != n;
  }

  lemma JoinAttached(peers: map<nat, Peer>, conns: map<nat, Conn>, q: nat, c: nat, name: Name)
    requires Attached(peers, conns) && Counted(peers) && q in peers && c !in conns
    ensures Attached(peers[q := Joined(peers[q], c)], conns[c := Conn(name, q)])
    ensures Counted(peers[q := Joined(peers[q], c)])
  {
    var l := peers[q].conns;
    assert multiset(l + [c]) == multiset(l) + multiset{c};
    assert forall x: nat :: Count(l + [c], x) == Count(l, x) + One(x == c);
    EnterAttached(peers, conns, q, c, name, Joined(peers[q], c));
  }

  lemma EnterAttached(peers: map<nat, Peer>, conns: map<nat, Conn>, q: nat, c: nat, name: Name, x: Peer)
    requires Attached(peers, conns) && q in peers && c !in conns
    requires forall y: nat :: Count(x.conns, y) == Count(peers[q].conns, y) + One(y == c)
    ensures Attached(peers[q := x], conns[c := Conn(name, q)])
  {
    var ps, cs := peers[q := x], conns[c := Conn(name, q)];
    forall p, y: nat | p in ps ensures Count(ps[p].conns, y) == One(PointsTo(cs, y, p)) {
      assert Count(peers[p].conns, y) == One(PointsTo(conns, y, p));
    }
  }

  /** A new connection has the name and address it was made for, and the tables stay an index. */
  lemma NewConnectionInv(s: State, a: Address, name: Name, p: nat, c: nat)
    requires Inv(s) && p !in s.peers && c !in s.conns && name.cid % 4 == 0
    ensures Inv(NewConnection(s, a, name, p, c))
    ensures var t := NewConnection(s, a, name, p, c);
            && t.conns == s.conns[c := Conn(name, t.conns[c].peer)]
            && t.conns[c].peer in t.peers && t.peers[t.conns[c].peer].addr == a
  {
    FindPeerInv(s, a, p);
    var (t, q) := FindPeer(s, a, p);
    PeerChanged(t.peers, t.peerTable, q, Joined(t.peers[q], c));
    JoinAttached(t.peers, t.conns, q, c, name);
    ConnAdded(t.conns, t.connTable, c, Conn(name, q));
  }

  lemma WithoutCount(q: seq<nat>, x: nat)
    requires Count(q, x) == 1
    ensures |Without(q, x)| == |q| - 1 && forall y: nat :: Count(Without(q, x), y) == Count(q, y) - One(y == x)
  {
    WithoutCounts(q, x);
    assert |multiset(Without(q, x))| == |Without(q, x)|;
  }

  lemma LeaveAttached(peers: map<nat, Peer>, conns: map<nat, Conn>, c: nat, p: nat, x: Peer)
    requires Attached(peers, conns) && Counted(peers) && c in conns && conns[c].peer == p
    requires x.refCount == peers[p].refCount - 1 && |x.conns| == |peers[p].conns| - 1
    requires forall y: nat :: Count(x.conns, y) == Count(peers[p].conns, y) - One(y == c)
    ensures Attached(peers[p := x], conns - {c}) && Counted(peers[p := x])
  {
  }

  lemma DestroyConnectionInv(s: State, c: nat)
    requires Inv(s) && c in s.conns
    ensures Inv(DestroyConnection(s, c)) && DestroyConnection(s, c).conns == s.conns - {c}
  {
    var p := s.conns[c].peer;
    PeerChanged(s.peers, s.peerTable, p, Left(s.peers[p], c));
    LeftAttached(s.peers, s.conns, c, p);
    ConnDropped(s.conns, s.connTable, c);
  }

  lemma LeftAttached(peers: map<nat, Peer>, conns: map<nat, Conn>, c: nat, p: nat)
    requires Attached(peers, conns) && Counted(peers) && c in conns && conns[c].peer == p
    ensures Attached(peers[p := Left(peers[p], c)], conns - {c}) && Counted(peers[p := Left(peers[p], c)])
  {
    assert Count(peers[p].conns, c) == 1;
    WithoutCount(peers[p].conns, c);
    LeaveAttached(peers, conns, c, p, Left(peers[p], c));
  }

  lemma NoConnections(peers: map<nat, Peer>, conns: map<nat, Conn>, p: nat)
    requires Attached(peers, conns) && Counted(peers) && p in peers && peers[p].refCount == 0
    ensures peers[p].conns == [] && Attached(peers - {p}, conns)
  {
    assert forall c: nat :: Count(peers[p].conns, c) == 0;
    forall c | c in conns ensures conns[c].peer != p {
      assert Count(peers[p].conns, c) == One(PointsTo(conns, c, p));
    }
  }

  /** A peer without references has an empty queue, as rxi_DestroyPeer asserts. */
  lemma DestroyPeerInv(s: State, p: nat)
    requires Inv(s) && p in s.peers && s.peers[p].refCount == 0
    ensures s.peers[p].conns == [] && Inv(DestroyPeer(s, p))
  {
    NoConnections(s.peers, s.conns, p);
    PeerDropped(s.peers, s.peerTable, p);
  }

  // ---------------------------------------------------------------- the merge

  lemma MovedIndexed(conns: map<nat, Conn>, table: seq<seq<nat>>, p: nat, q: nat)
    requires ConnsIndexed(conns, table)
    ensures ConnsIndexed(Moved(conns, p, q), table)
  {
  }

  lemma MergedAttached(peers: map<nat, Peer>, conns: map<nat, Conn>, p: nat, q: nat)
    requires Attached(peers, conns) && Counted(peers) && p in peers && q in peers && p != q
    ensures Attached((peers - {p})[q := Merged(peers[q], peers[p])], Moved(conns, p, q))
    ensures Counted((peers - {p})[q := Merged(peers[q], peers[p])])
  {
    var k, l := peers[q].conns, peers[p].conns;
    assert multiset(k + l) == multiset(k) + multiset(l);
    assert forall c: nat :: Count(k + l, c) == Count(k, c) + Count(l, c);
    UnitedAttached(peers, conns, p, q, Merged(peers[q], peers[p]));
  }

  lemma UnitedAttached(peers: map<nat, Peer>, conns: map<nat, Conn>, p: nat, q: nat, x: Peer)
    requires Attached(peers, conns) && p in peers && q in peers && p != q
    requires forall y: nat :: Count(x.conns, y) == Count(peers[q].conns, y) + Count(peers[p].conns, y)
    ensures Attached((peers - {p})[q := x], Moved(conns, p, q))
  {
    var ps, cs := (peers - {p})[q := x], Moved(conns, p, q);
    forall r, y: nat | r in ps ensures Count(ps[r].conns, y) == One(PointsTo(cs, y, r)) {
      assert Count(peers[r].conns, y) == One(PointsTo(conns, y, r));
      assert Count(peers[p].conns, y) == One(PointsTo(conns, y, p));
    }
  }

  lemma RekeyedAttached(peers: map<nat, Peer>, conns: map<nat, Conn>, p: nat, a: Address)
    requires Attached(peers, conns) && Counted(peers) && p in peers
    ensures Attached(peers[p := peers[p].(addr := a)], conns) && Counted(peers[p := peers[p].(addr := a)])
  {
  }

  lemma LookupRest(s: State, p: nat, a: Address, q: nat)
    requires Inv(s) && p in s.peers
    ensures Lookup(Unchained(s.peerTable, PeerHash(s.peers[p].addr), p)[PeerHash(a)], s.peers - {p}, a) == Some(q) <==>
            q in s.peers && q != p && s.peers[q].addr == a
  {
    PeerDropped(s.peers, s.peerTable, p);
    IndexedLookup(s.peers - {p}, Unchained(s.peerTable, PeerHash(s.peers[p].addr), p), a, q);
  }

  /**
   * rxi_ChangePeer gives all connections of a peer the new address and loses none: the peer at
   * that address, itself or the one already there, has exactly its own and theirs.
   */
  lemma ChangePeerInv(s: State, p: nat, a: Address)
    requires Inv(s) && p in s.peers
    ensures var (t, q) := ChangePeer(s, p, a);
            && Inv(t) && q in t.peers && t.peers[q].addr == a
            && t.conns == Moved(s.conns, p, q)
            && (q != p ==> p !in t.peers)
            && forall r :: r in s.peers && r != p && r != q ==> r in t.peers && t.peers[r] == s.peers[r]
  {
    var table := Unchained(s.peerTable, PeerHash(s.peers[p].addr), p);
    PeerDropped(s.peers, s.peerTable, p);
    match Lookup(table[PeerHash(a)], s.peers - {p}, a)
    case None =>
      RekeyedAddress(s, p, a);
      RekeyInv(s, p, a, table);
    case Some(q) =>
      LookupRest(s, p, a, q);
      MergeInv(s, p, q, table);
  }

  lemma RekeyInv(s: State, p: nat, a: Address, table: seq<seq<nat>>)
    requires Inv(s) && p in s.peers && PeersIndexed(s.peers - {p}, table)
    requires forall q :: q in s.peers && q != p ==> s.peers[q].addr != a
    ensures Inv(s.(peers := s.peers[p := s.peers[p].(addr := a)], peerTable := Chained(table, PeerHash(a), p)))
    ensures Moved(s.conns, p, p) == s.conns
  {
    var x := s.peers[p].(addr := a);
    PeerAdded(s.peers - {p}, table, p, x);
    assert (s.peers - {p})[p := x] == s.peers[p := x];
    RekeyedAttached(s.peers, s.conns, p, a);
  }

  lemma MergeInv(s: State, p: nat, q: nat, table: seq<seq<nat>>)
    requires Inv(s) && p in s.peers && q in s.peers && p != q && PeersIndexed(s.peers - {p}, table)
    ensures Inv(s.(peers := (s.peers - {p})[q := Merged(s.peers[q], s.peers[p])], peerTable := table,
                   conns := Moved(s.conns, p, q)))
  {
    PeerChanged(s.peers - {p}, table, q, Merged(s.peers[q], s.peers[p]));
    MergedAttached(s.peers, s.conns, p, q);
    MovedIndexed(s.conns, s.connTable, p, q);
  }

  lemma RekeyedAddress(s: State, p: nat, a: Address)
    requires Inv(s) && p in s.peers
    requires Lookup(Unchained(s.peerTable, PeerHash(s.peers[p].addr), p)[PeerHash(a)], s.peers - {p}, a).None?
    ensures forall q :: q in s.peers && q != p ==> s.peers[q].addr != a
  {
    forall q | q in s.peers && q != p ensures s.peers[q].addr != a {
      LookupRest(s, p, a, q);
    }
  }

  // -------------------------------------------------------------------- runs

  /**
   * What rxi_FindConnection does for a packet, whose cid has the channel in it; p and c number new
   * structures.  offered says that the service and its security index exist.
   */
  function Arrive(s: State, kind: Kind, cid: nat, epoch: nat, security: nat, a: Address, offered: bool, p: nat, c: nat):
    (State, Option<nat>)
    requires Inv(s) && p !in s.peers && c !in s.conns
  {
    var name := Name(kind, Masked(cid), epoch, security);
    match FindIn(s.connTable[ConnHash(cid)], s, name, a.host)
    case Some(d) =>
      if s.peers[s.conns[d].peer].addr == a then (s, Some(d))
      else (ChangePeer(s, s.conns[d].peer, a).0, Some(d))
    case None =>
      if kind == Client || !offered then (s, None) else (NewConnection(s, a, name, p, c), Some(c))
  }

  datatype Label =
    | DoConnect(name: Name, addr: Address, p: nat, c: nat)
    | DoArrive(kind: Kind, cid: nat, epoch: nat, security: nat, addr: Address, offered: bool, p: nat, c: nat)
    | DoDestroy(c: nat)
    | DoReap(p: nat)

  predicate Enabled(s: State, l: Label) {
    match l
    case DoConnect(name, _, p, c) => p !in s.peers && c !in s.conns && name.cid % 4 == 0
    case DoArrive(_, _, _, _, _, _, p, c) => p !in s.peers && c !in s.conns
    case DoDestroy(c) => c in s.conns
    case DoReap(p) => p in s.peers && s.peers[p].refCount == 0
  }

  ghost function Step(s: State, l: Label): State
    requires Inv(s) && Enabled(s, l)
  {
    match l
    case DoConnect(name, a, p, c) => NewConnection(s, a, name, p, c)
    case DoArrive(kind, cid, epoch, security, a, offered, p, c) => Arrive(s, kind, cid, epoch, security, a, offered, p, c).0
    case DoDestroy(c) => DestroyConnection(s, c)
    case DoReap(p) => DestroyPeer(s, p)
  }

  /**
   * The packet's connection has the packet's name, and its peer the packet's address; there is none
   * exactly when none is wanted and none may be made.
   */
  lemma ArriveInv(s: State, kind: Kind, cid: nat, epoch: nat, security: nat, a: Address, offered: bool, p: nat, c: nat)
    requires Inv(s) && p !in s.peers && c !in s.conns
    ensures var (t, r) := Arrive(s, kind, cid, epoch, security, a, offered, p, c);
            var name := Name(kind, Masked(cid), epoch, security);
            && Inv(t)
            && (r.Some? ==> r.value in t.conns && t.conns[r.value].name == name &&
                            t.peers[t.conns[r.value].peer].addr == a)
            && (r.None? <==> (kind == Client || !offered) && forall d :: d in s.conns ==> !Wanted(s, d, name, a.host))
            && (r.None? ==> t == s)
            && s.conns.Keys <= t.conns.Keys
  {
    var name := Name(kind, Masked(cid), epoch, security);
    ChainIsSet(s, kind, cid, epoch, security, a.host);
    match FindIn(s.connTable[ConnHash(cid)], s, name, a.host)
    case Some(d) => if s.peers[s.conns[d].peer].addr != a { ChangePeerInv(s, s.conns[d].peer, a); }
    case None => if kind == Server && offered { NewConnectionInv(s, a, name, p, c); }
  }

  lemma StepInv(s: State, l: Label)
    requires Inv(s) && Enabled(s, l)
    ensures Inv(Step(s, l))
  {
    match l
    case DoConnect(name, a, p, c) => NewConnectionInv(s, a, name, p, c);
    case DoArrive(kind, cid, epoch, security, a, offered, p, c) => ArriveInv(s, kind, cid, epoch, security, a, offered, p, c);
    case DoDestroy(c) => DestroyConnectionInv(s, c);
    case DoReap(p) => DestroyPeerInv(s, p);
  }

  ghost predicate Run(s: State, ls: seq<Label>, t: State)
    requires Inv(s)
    decreases |ls|
  {
    if ls == [] then s == t
    else Enabled(s, ls[0]) && (StepInv(s, ls[0]); Run(Step(s, ls[0]), ls[1..], t))
  }

  function Start(): State {
    State(map[], seq(TABLE, _ => []), map[], seq(TABLE, _ => []))
  }

  lemma StartInv()
    ensures Inv(Start())
  {
  }

  /** A run from empty tables. */
  ghost predicate Runs(ls: seq<Label>, t: State) {
    StartInv();
    Run(Start(), ls, t)
  }

  lemma {:induction false} RunInv(s: State, ls: seq<Label>, t: State)
    requires Inv(s) && Run(s, ls, t)
    ensures Inv(t)
    decreases |ls|
  {
    if ls != [] {
      StepInv(s, ls[0]);
      RunInv(Step(s, ls[0]), ls[1..], t);
    }
  }

  /**
   * In every run the peer table is a map from address to one peer, the connection table finds a
   * packet's connection exactly when there is one, and a peer lists exactly its connections, each
   * once, and counts them.
   */
  lemma TablesInEveryRun(ls: seq<Label>, s: State)
    requires Runs(ls, s)
    ensures Shape(s)
    ensures forall a, p ::
              Lookup(s.peerTable[PeerHash(a)], s.peers, a) == Some(p) <==> p in s.peers && s.peers[p].addr == a
    ensures forall p, c: nat :: p in s.peers ==> Count(s.peers[p].conns, c) == One(PointsTo(s.conns, c, p))
    ensures forall p :: p in s.peers ==> s.peers[p].refCount == |s.peers[p].conns|
    ensures forall c :: c in s.conns ==> s.conns[c].peer in s.peers
    ensures forall kind, cid: nat, epoch, security, host ::
              Findable(s, kind, cid, epoch, security, host)
  {
    StartInv();
    RunInv(Start(), ls, s);
    forall a, p
      ensures Lookup(s.peerTable[PeerHash(a)], s.peers, a) == Some(p) <==> p in s.peers && s.peers[p].addr == a
    {
      TableIsMap(s, a, p);
    }
    forall kind, cid: nat, epoch, security, host ensures Findable(s, kind, cid, epoch, security, host) {
      ChainIsSet(s, kind, cid, epoch, security, host);
    }
  }

  /** The answer of a search is right. */
  ghost predicate Right(s: State, r: Option<nat>, name: Name, host: nat) {
    && (r.Some? ==> Wanted(s, r.value, name, host))
    && (r.None? ==> forall c :: c in s.conns ==> !Wanted(s, c, name, host))
  }

  /** The chain of a packet's cid has a connection for the packet exactly when the set of connections has. */
  ghost predicate Findable(s: State, kind: Kind, cid: nat, epoch: nat, security: nat, host: nat)
    requires Shape(s)
  {
    Right(s, FindIn(s.connTable[ConnHash(cid)], s, Name(kind, Masked(cid), epoch, security), host),
          Name(kind, Masked(cid), epoch, security), host)
  }
}
