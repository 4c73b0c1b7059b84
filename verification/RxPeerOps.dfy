/**
 * The routines of rx/rx.c that search and change the peer and connection tables in place,
 * each proved against its function in RxPeers.
 */
module RxPeerOps {
  import opened RxBase
  import opened RxPeers

  /** The connections with those of the list pointing to q. */
  function Handed(conns: map<nat, Conn>, list: seq<nat>, q: nat): map<nat, Conn> {
    map c | c in conns :: if c in list then conns[c].(peer := q) else conns[c]
  }

  lemma HandedNone(conns: map<nat, Conn>, q: nat)
    ensures Handed(conns, [], q) == conns
  {
  }

  lemma HandedOne(conns: map<nat, Conn>, list: seq<nat>, i: nat, q: nat)
    requires i < |list|
    ensures Handed(Handed(conns, list[..i], q), [list[i]], q) == Handed(conns, list[..i + 1], q)
    ensures list[i..] != [] && list[i..][0] == list[i] && list[i..][1..] == list[i + 1..]
    ensures list[..i] + [list[i]] == list[..i + 1]
  {
    assert list[..i + 1] == list[..i] + [list[i]];
  }

  class PeerTable {
    var peers: map<nat, Peer>
    var peerTable: seq<seq<nat>>
    var conns: map<nat, Conn>
    var connTable: seq<seq<nat>>

    ghost function View(): State
      reads this
    {
      State(peers, peerTable, conns, connTable)
    }

    /** The walk along a chain for an address, in rxi_FindPeer and rxi_InsertPeer. */
    method Search(a: Address, chain: seq<nat>) returns (r: Option<nat>)
      ensures r == Lookup(chain, peers, a)
    {
      var i := 0;
      while i < |chain|
        invariant i <= |chain| && Lookup(chain[i..], peers, a) == Lookup(chain, peers, a)
      {
        if chain[i] in peers && peers[chain[i]].addr == a { return Some(chain[i]); }
        assert chain[i..][1..] == chain[i + 1..];
        i := i + 1;
      }
      r := None;
    }

    /** The walk by pointer to pointer that takes a structure out of a chain. */
    method Unhook(chain: seq<nat>, x: nat) returns (r: seq<nat>)
      ensures r == Without(chain, x)
    {
      var i := 0;
      while i < |chain| && chain[i] != x
        invariant i <= |chain| && forall j :: 0 <= j < i ==> chain[j] != x
      {
        i := i + 1;
      }
      assert i == IndexOf(chain, x);
      r := if i < |chain| then chain[..i] + chain[i + 1..] else chain;
    }

    method FindPeerFor(a: Address, n: nat) returns (q: nat)
      requires Shape(View()) && n !in peers
      modifies `peers, `peerTable
      ensures (View(), q) == FindPeer(old(View()), a, n)
    {
      var r := Search(a, peerTable[PeerHash(a)]);
      if r.Some? { return r.value; }
      peers := peers[n := Peer(a, 0, [])];
      peerTable := Chained(peerTable, PeerHash(a), n);
      q := n;
    }

    method Connect(a: Address, name: Name, n: nat, c: nat)
      requires Shape(View()) && n !in peers
      modifies this
      ensures View() == NewConnection(old(View()), a, name, n, c)
    {
      var q := FindPeerFor(a, n);
      peers := peers[q := peers[q].(refCount := peers[q].refCount + 1, conns := peers[q].conns + [c])];
      conns := conns[c := Conn(name, q)];
      connTable := Chained(connTable, ConnHash(name.cid), c);
    }

    method Disconnect(c: nat)
      requires Shape(View()) && c in conns && conns[c].peer in peers
      modifies this
      ensures View() == DestroyConnection(old(View()), c)
    {
      var p, h := conns[c].peer, ConnHash(conns[c].name.cid);
      var chain := Unhook(connTable[h], c);
      connTable := connTable[h := chain];
      var queue := Unhook(peers[p].conns, c);
      peers := peers[p := peers[p].(refCount := peers[p].refCount - 1, conns := queue)];
      conns := conns - {c};
    }

    /** One turn of the scan in rxi_InsertPeer: the first connection of p goes to q. */
    method HandOne(p: nat, q: nat)
      requires p in peers && q in peers && p != q && peers[p].conns != [] && peers[p].conns[0] in conns
      modifies `peers, `conns
      ensures peers.Keys == old(peers.Keys)
      ensures forall r :: r in peers && r != p && r != q ==> peers[r] == old(peers[r])
      ensures peers[p] == old(peers[p]).(conns := old(peers[p].conns)[1..])
      ensures peers[q] == old(peers[q]).(conns := old(peers[q].conns) + [old(peers[p].conns)[0]])
      ensures conns == Handed(old(conns), [old(peers[p].conns)[0]], q)
    {
      var c := peers[p].conns[0];
      conns := conns[c := conns[c].(peer := q)];
      peers := peers[p := peers[p].(conns := peers[p].conns[1..])];
      peers := peers[q := peers[q].(conns := peers[q].conns + [c])];
    }

    /** The scan in rxi_InsertPeer that hands the connections of p to q. */
    method HandOver(p: nat, q: nat)
      requires p in peers && q in peers && p != q
      requires forall i :: 0 <= i < |peers[p].conns| ==> peers[p].conns[i] in conns
      modifies `peers, `conns
      ensures peers.Keys == old(peers.Keys)
      ensures forall r :: r in peers && r != p && r != q ==> peers[r] == old(peers[r])
      ensures peers[p] == old(peers[p]).(conns := [])
      ensures peers[q] == old(peers[q]).(conns := old(peers[q].conns) + old(peers[p].conns))
      ensures conns == Handed(old(conns), old(peers[p].conns), q)
    {
      ghost var all, mine, i := conns, peers[p].conns, 0;
      HandedNone(conns, q);
      while peers[p].conns != []
        invariant i <= |mine| && peers.Keys == old(peers.Keys)
        invariant forall r :: r in peers && r != p && r != q ==> peers[r] == old(peers[r])
        invariant peers[p] == old(peers[p]).(conns := mine[i..])
        invariant peers[q] == old(peers[q]).(conns := old(peers[q].conns) + mine[..i])
        invariant conns == Handed(all, mine[..i], q)
        decreases |peers[p].conns|
      {
        HandedOne(all, mine, i, q);
        HandOne(p, q);
        i := i + 1;
      }
      assert mine[..i] == mine;
    }

    /** rxi_ChangePeer: rxi_RemovePeer, the new address, and rxi_InsertPeer. */
    method Readdress(p: nat, a: Address) returns (q: nat)
      requires Inv(View()) && p in peers
      modifies this
      ensures (View(), q) == ChangePeer(old(View()), p, a)
    {
      ghost var s := View();
      var h := PeerHash(peers[p].addr);
      var chain := Unhook(peerTable[h], p);
      peerTable := peerTable[h := chain];
      var r := SearchOthers(p, a, peerTable[PeerHash(a)]);
      if r.None? {
        peers := peers[p := peers[p].(addr := a)];
        peerTable := Chained(peerTable, PeerHash(a), p);
        return p;
      }
      q := r.value;
      Absorb(p, q);
    }

    /** The same walk for a structure that is not in the table any more. */
    method SearchOthers(p: nat, a: Address, chain: seq<nat>) returns (r: Option<nat>)
      ensures r == Lookup(chain, peers - {p}, a)
    {
      var i := 0;
      while i < |chain|
        invariant i <= |chain| && Lookup(chain[i..], peers - {p}, a) == Lookup(chain, peers - {p}, a)
      {
        if chain[i] != p && chain[i] in peers && peers[chain[i]].addr == a { return Some(chain[i]); }
        assert chain[i..][1..] == chain[i + 1..];
        i := i + 1;
      }
      r := None;
    }

    /** The merge of rxi_InsertPeer; the queue of p is empty when its structure is freed. */
    method Absorb(p: nat, q: nat)
      requires Attached(peers, conns) && p in peers && q in peers && p != q
      modifies `peers, `conns
      ensures peers == (old(peers) - {p})[q := Merged(old(peers[q]), old(peers[p]))]
      ensures conns == Moved(old(conns), p, q)
    {
      AllMine(peers, conns, p, peers[p].conns);
      HandOver(p, q);
      assert peers[p].conns == [];
      peers := peers[q := peers[q].(refCount := peers[q].refCount + peers[p].refCount)];
      peers := peers - {p};
    }

    /** rxi_DestroyPeer, with its assertion. */
    method Reap(p: nat)
      requires Inv(View()) && p in peers && peers[p].refCount == 0
      modifies this
      ensures View() == DestroyPeer(old(View()), p)
    {
      DestroyPeerInv(View(), p);
      assert peers[p].conns == [];
      var h := PeerHash(peers[p].addr);
      var chain := Unhook(peerTable[h], p);
      peerTable := peerTable[h := chain];
      peers := peers - {p};
    }
  }

  lemma AllMine(peers: map<nat, Peer>, conns: map<nat, Conn>, p: nat, mine: seq<nat>)
    requires Attached(peers, conns) && p in peers && mine == peers[p].conns
    ensures forall c :: c in conns ==> (c in mine <==> conns[c].peer == p)
    ensures forall i :: 0 <= i < |mine| ==> mine[i] in conns
  {
    forall i | 0 <= i < |mine| ensures mine[i] in conns {
      assert mine[i] in multiset(mine);
      assert 0 < Count(mine, mine[i]);
    }
    forall c | c in conns ensures c in mine <==> conns[c].peer == p {
      assert c in mine <==> c in multiset(mine);
      assert Count(mine, c) == One(PointsTo(conns, c, p));
    }
  }
}
