/** p2p/bootstrap_server.py: the peer registry and the sets of peers each message is sent to. */
module Relay {
  import opened Ids
  import opened Options
  import opened P2PTypes

  datatype Peer = Peer(conn: ConnId, role: Role, capacity: Option<Capacity>)

  type Registry = map<PeerId, Peer>

  /** The registered providers and their latest capacities. */
  function ProviderView(reg: Registry): map<PeerId, Option<Capacity>> {
    map id | id in reg && reg[id].role.Provider? :: reg[id].capacity
  }

  function Refreshed(reg: Registry, sender: PeerId, capacity: Capacity): Registry {
    if sender in reg then reg[sender := reg[sender].(capacity := Some(capacity))] else reg
  }

  function Removed(reg: Registry, id: PeerId): (r: Registry)
    ensures id !in r
    ensures forall other :: other != id ==> (other in r <==> other in reg)
    ensures forall other :: other in r ==> r[other] == reg[other]
  {
    reg - {id}
  }

  /** `list` names every registered provider but `exclude`, once each with its capacity, and nobody else. */
  ghost predicate ListsProviders(list: seq<Entry>, reg: Registry, exclude: PeerId) {
    && (forall e <- list ::
          e.peer != exclude && e.peer in reg && reg[e.peer].role.Provider? && e.capacity == reg[e.peer].capacity)
    && (forall id :: id in reg && id != exclude && reg[id].role.Provider? ==> Entry(id, reg[id].capacity) in list)
    && (forall i, j :: 0 <= i < j < |list| ==> list[i].peer != list[j].peer)
  }

  /** `ids` are the registered peers of this role but `exclude`, once each, and `targets` their connections. */
  ghost predicate SentTo(ids: seq<PeerId>, targets: seq<ConnId>, reg: Registry, role: Role, exclude: Option<PeerId>) {
    && |ids| == |targets|
    && (forall i, j :: 0 <= i < j < |ids| ==> ids[i] != ids[j])
    && (forall i :: 0 <= i < |ids| ==>
          ids[i] in reg && reg[ids[i]].role == role && Some(ids[i]) != exclude && reg[ids[i]].conn == targets[i])
    && (forall id :: id in reg && reg[id].role == role && Some(id) != exclude ==> id in ids)
  }

  /** `targets` reaches each registered peer of this role but `exclude` exactly once, and nobody else. */
  ghost predicate Addresses(targets: seq<ConnId>, reg: Registry, role: Role, exclude: Option<PeerId>) {
    exists ids :: SentTo(ids, targets, reg, role, exclude)
  }

  lemma AddressesConns(targets: seq<ConnId>, reg: Registry, role: Role, exclude: Option<PeerId>)
    requires Addresses(targets, reg, role, exclude)
    ensures forall t <- targets ::
      exists id :: id in reg && reg[id].conn == t && reg[id].role == role && Some(id) != exclude
    ensures forall id :: id in reg && reg[id].role == role && Some(id) != exclude ==> reg[id].conn in targets
  {
    var ids :| SentTo(ids, targets, reg, role, exclude);
    forall t | t in targets
      ensures exists id :: id in reg && reg[id].conn == t && reg[id].role == role && Some(id) != exclude
    {
      var i :| 0 <= i < |targets| && targets[i] == t;
      assert reg[ids[i]].conn == t;
    }
    forall id | id in reg && reg[id].role == role && Some(id) != exclude
      ensures reg[id].conn in targets
    {
      var i :| 0 <= i < |ids| && ids[i] == id;
      assert targets[i] in targets;
    }
  }

  /** Each method is the work one handler does between two suspensions. */
  class BootstrapServer {
    var peers: Registry

    constructor ()
      ensures peers == map[]
    {
      peers := map[];
    }

    /** The list comprehension that fills a PEER_LIST. */
    method ListProviders(exclude: PeerId) returns (list: seq<Entry>)
      ensures ListsProviders(list, peers, exclude)
    {
      list := [];
      var todo := peers.Keys;
      while todo != {}
        invariant todo <= peers.Keys
        invariant forall e <- list ::
            e.peer != exclude && e.peer in peers && peers[e.peer].role.Provider? && e.capacity == peers[e.peer].capacity
        invariant forall id :: id in peers && id !in todo && id != exclude && peers[id].role.Provider? ==>
                      Entry(id, peers[id].capacity) in list
        invariant forall i :: 0 <= i < |list| ==> list[i].peer !in todo
        invariant forall i, j :: 0 <= i < j < |list| ==> list[i].peer != list[j].peer
        decreases todo
      {
        var id :| id in todo;
        todo := todo - {id};
        if id != exclude && peers[id].role.Provider? {
          list := list + [Entry(id, peers[id].capacity)];
        }
      }
    }

    /** The snapshot a broadcast walks over. */
    method Snapshot(role: Role, exclude: Option<PeerId>) returns (targets: seq<ConnId>)
      ensures Addresses(targets, peers, role, exclude)
    {
      targets := [];
      ghost var ids: seq<PeerId> := [];
      var todo := peers.Keys;
      while todo != {}
        invariant todo <= peers.Keys && |ids| == |targets|
        invariant forall i, j :: 0 <= i < j < |ids| ==> ids[i] != ids[j]
        invariant forall i :: 0 <= i < |ids| ==>
            ids[i] in peers && ids[i] !in todo && peers[ids[i]].role == role && Some(ids[i]) != exclude
              && peers[ids[i]].conn == targets[i]
        invariant forall id :: id in peers && id !in todo && peers[id].role == role && Some(id) != exclude ==> id in ids
        decreases todo
      {
        var id :| id in todo;
        todo := todo - {id};
        if peers[id].role == role && Some(id) != exclude {
          targets := targets + [peers[id].conn];
          ids := ids + [id];
        }
      }
      assert SentTo(ids, targets, peers, role, exclude);
    }

    /** PEER_HELLO up to its reply: register, then list the other providers. */
    method HandleHello(id: PeerId, conn: ConnId, role: Role, capacity: Option<Capacity>) returns (list: seq<Entry>)
      modifies this
      ensures peers == old(peers)[id := Peer(conn, role, capacity)]
      ensures ListsProviders(list, peers, id)
    {
      peers := peers[id := Peer(conn, role, capacity)];
      list := ListProviders(id);
    }

    /** ANNOUNCE_CAPACITY up to its first send: refresh, then snapshot the renters. */
    method RouteAnnounce(sender: PeerId, capacity: Capacity) returns (targets: seq<ConnId>)
      modifies this
      ensures peers == Refreshed(old(peers), sender, capacity)
      ensures Addresses(targets, peers, Renter, Some(sender))
    {
      if sender in peers {
        peers := peers[sender := peers[sender].(capacity := Some(capacity))];
      }
      targets := Snapshot(Renter, Some(sender));
    }

    /** The unicast messages: the addressee's connection, if it is registered. */
    method RouteTo(addressee: PeerId) returns (conn: Option<ConnId>)
      ensures conn == if addressee in peers then Some(peers[addressee].conn) else None
    {
      if addressee in peers {
        conn := Some(peers[addressee].conn);
      } else {
        conn := None;
      }
    }

    /** The handler's `finally`: delete by id, then snapshot the renters if a provider left. */
    method Cleanup(id: PeerId) returns (targets: seq<ConnId>)
      modifies this
      ensures peers == Removed(old(peers), id)
      ensures if id in old(peers) && old(peers)[id].role.Provider?
              then Addresses(targets, peers, Renter, None) else targets == []
    {
      targets := [];
      if id in peers {
        var role := peers[id].role;
        peers := Removed(peers, id);
        if role.Provider? {
          targets := Snapshot(Renter, None);
        }
      }
    }
  }
}
