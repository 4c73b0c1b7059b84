/**
 * The peer and connection tables as their users see them: connections with a name and an address.
 * What each operation does to this view, in every state that the tables can be in.
 */
module RxPeerViews {
  import opened RxBase
  import opened RxPeers

  datatype View = View(name: Name, addr: Address)

  ghost function Seen(s: State): map<nat, View>
    requires Inv(s)
  {
    map c | c in s.conns :: View(s.conns[c].name, s.peers[s.conns[c].peer].addr)
  }

  /** The peer whose address it is, and no peer is made for an address that has one. */
  ghost predicate PeersFor(s: State, t: State, a: Address, p: nat) {
    t.peers.Keys == s.peers.Keys + if exists q :: q in s.peers && s.peers[q].addr == a then {} else {p}
  }

  /** A new connection is one more, with its name and address; all others are as they were. */
  lemma ConnectExactly(s: State, a: Address, name: Name, p: nat, c: nat)
    requires Inv(s) && Enabled(s, DoConnect(name, a, p, c))
    ensures Inv(Step(s, DoConnect(name, a, p, c)))
    ensures Seen(Step(s, DoConnect(name, a, p, c))) == Seen(s)[c := View(name, a)]
    ensures PeersFor(s, Step(s, DoConnect(name, a, p, c)), a, p)
  {
    NewConnectionInv(s, a, name, p, c);
    NewSeen(s, a, name, p, c);
  }

  lemma NewSeen(s: State, a: Address, name: Name, p: nat, c: nat)
    requires Inv(s) && p !in s.peers && c !in s.conns && name.cid % 4 == 0
    requires Inv(NewConnection(s, a, name, p, c))
    ensures Seen(NewConnection(s, a, name, p, c)) == Seen(s)[c := View(name, a)]
    ensures PeersFor(s, NewConnection(s, a, name, p, c), a, p)
  {
    NewConnectionInv(s, a, name, p, c);
    PeerFound(s, a, name, p, c);
    SameViews(s, NewConnection(s, a, name, p, c), c, View(name, a));
  }

  lemma PeerFound(s: State, a: Address, name: Name, p: nat, c: nat)
    requires Inv(s) && p !in s.peers && c !in s.conns
    ensures var t := NewConnection(s, a, name, p, c);
            && PeersFor(s, t, a, p)
            && forall q :: q in s.peers ==> q in t.peers && t.peers[q].addr == s.peers[q].addr
  {
    AddressLookup(s, a);
  }

  lemma SameViews(s: State, t: State, c: nat, v: View)
    requires Inv(s) && Inv(t) && c !in s.conns && c in t.conns
    requires t.conns == s.conns[c := t.conns[c]] && View(t.conns[c].name, t.peers[t.conns[c].peer].addr) == v
    requires forall q :: q in s.peers ==> q in t.peers && t.peers[q].addr == s.peers[q].addr
    ensures Seen(t) == Seen(s)[c := v]
  {
  }

  lemma AddressLookup(s: State, a: Address)
    requires Inv(s)
    ensures Lookup(s.peerTable[PeerHash(a)], s.peers, a).Some? <==> exists q :: q in s.peers && s.peers[q].addr == a
  {
    var r := Lookup(s.peerTable[PeerHash(a)], s.peers, a);
    if r.Some? {
      TableIsMap(s, a, r.value);
    } else {
      forall q | q in s.peers
        ensures s.peers[q].addr != a
      {
        TableIsMap(s, a, q);
      }
    }
  }

  /** A destroyed connection is gone, and all others are as they were. */
  lemma DestroyExactly(s: State, c: nat)
    requires Inv(s) && Enabled(s, DoDestroy(c))
    ensures Inv(Step(s, DoDestroy(c))) && Seen(Step(s, DoDestroy(c))) == Seen(s) - {c}
    ensures Step(s, DoDestroy(c)).peers.Keys == s.peers.Keys
  {
    DestroyConnectionInv(s, c);
  }

  /** A reaped peer is gone, and all connections are as they were. */
  lemma ReapExactly(s: State, p: nat)
    requires Inv(s) && Enabled(s, DoReap(p))
    ensures Inv(Step(s, DoReap(p))) && Seen(Step(s, DoReap(p))) == Seen(s)
    ensures Step(s, DoReap(p)).peers.Keys == s.peers.Keys - {p}
  {
    DestroyPeerInv(s, p);
    assert forall c :: c in s.conns ==> s.conns[c].peer != p by {
      forall c | c in s.conns
        ensures s.conns[c].peer != p
      {
        assert Count(s.peers[s.conns[c].peer].conns, c) == 1;
        assert Count(s.peers[p].conns, c) == 0;
      }
    }
  }

  /** All connections of one peer have the address now. */
  ghost function Readdressed(s: State, p: nat, a: Address): map<nat, View>
    requires Inv(s)
  {
    map c | c in s.conns :: View(s.conns[c].name, if s.conns[c].peer == p then a else s.peers[s.conns[c].peer].addr)
  }

  lemma ChangeSeen(s: State, p: nat, a: Address)
    requires Inv(s) && p in s.peers
    ensures Inv(ChangePeer(s, p, a).0) && Seen(ChangePeer(s, p, a).0) == Readdressed(s, p, a)
  {
    ChangePeerInv(s, p, a);
    MergedInto(s, p, a);
    var (t, q) := ChangePeer(s, p, a);
    MovedViews(s, t, p, q, a);
  }

  lemma MovedViews(s: State, t: State, p: nat, q: nat, a: Address)
    requires Inv(s) && Inv(t) && t.conns == Moved(s.conns, p, q) && q in t.peers && t.peers[q].addr == a
    requires q != p ==> q in s.peers && s.peers[q].addr == a
    requires forall r :: r in s.peers && r != p && r != q ==> r in t.peers && t.peers[r] == s.peers[r]
    ensures Seen(t) == Readdressed(s, p, a)
  {
  }

  lemma MergedInto(s: State, p: nat, a: Address)
    requires Inv(s) && p in s.peers
    ensures var q := ChangePeer(s, p, a).1; q != p ==> q in s.peers && s.peers[q].addr == a
  {
    var q := ChangePeer(s, p, a).1;
    if q != p {
      LookupRest(s, p, a, q);
    }
  }

  /** The connection that a packet is for. */
  ghost predicate IsFor(s: State, d: nat, name: Name, a: Address)
    requires Inv(s)
  {
    d in Seen(s) && Seen(s)[d].name == name && (name.kind == Client || Seen(s)[d].addr.host == a.host)
  }

  /**
   * A packet goes to the connection it names, whose peer takes the packet's address with all its
   * connections; only when there is none, and it may be, is one made; and otherwise nothing happens.
   */
  lemma ArriveExactly(s: State, kind: Kind, cid: nat, epoch: nat, security: nat, a: Address, offered: bool, p: nat, c: nat)
    requires Inv(s) && p !in s.peers && c !in s.conns
    ensures var (t, r) := Arrive(s, kind, cid, epoch, security, a, offered, p, c);
            var name := Name(kind, Masked(cid), epoch, security);
            && Inv(t)
            && ((exists d :: IsFor(s, d, name, a)) ==>
                  r.Some? && IsFor(s, r.value, name, a) && Seen(t) == Readdressed(s, s.conns[r.value].peer, a))
            && (!(exists d :: IsFor(s, d, name, a)) ==>
                  if kind == Server && offered then r == Some(c) && Seen(t) == Seen(s)[c := View(name, a)]
                  else r == None && t == s)
  {
    ArriveInv(s, kind, cid, epoch, security, a, offered, p, c);
    var name := Name(kind, Masked(cid), epoch, security);
    ChainIsSet(s, kind, cid, epoch, security, a.host);
    match FindIn(s.connTable[ConnHash(cid)], s, name, a.host)
    case Some(d) =>
      assert IsFor(s, d, name, a);
      if s.peers[s.conns[d].peer].addr == a {
        assert Readdressed(s, s.conns[d].peer, a) == Seen(s);
      } else {
        ChangeSeen(s, s.conns[d].peer, a);
      }
    case None =>
      assert forall d :: IsFor(s, d, name, a) ==> Wanted(s, d, name, a.host);
      if kind == Server && offered {
        NewSeen(s, a, name, p, c);
      }
  }

  /** The four channels of a connection have its connection id, and no other cid has. */
  lemma ChannelsShare(a: nat, b: nat)
    ensures Masked(a) == Masked(b) <==> a / 4 == b / 4
    ensures Masked(a) % 4 == 0 && Masked(a) <= a < Masked(a) + 4
  {
  }

  /** A new connection is the last of its peer's queue, and connections that move come after those already there, in their order. */
  lemma QueuesInOrder(s: State, a: Address, name: Name, p: nat, c: nat, r: nat)
    requires Inv(s) && p !in s.peers && c !in s.conns && r in s.peers
    ensures var t := NewConnection(s, a, name, p, c); var q := t.conns[c].peer;
            q in t.peers && t.peers[q].conns == (if q in s.peers then s.peers[q].conns else []) + [c]
    ensures var (t, q) := ChangePeer(s, r, a);
            q in t.peers && t.peers[q].conns == (if q == r || q !in s.peers then [] else s.peers[q].conns) + s.peers[r].conns
  {
    MergedInto(s, r, a);
  }
}
