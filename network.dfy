/** The network (stp_simulator.py, class Network): bridges kept by id in
    insertion order, links built between their ports, and the simulation
    driver of the main block: boot every bridge, then run rounds of
    findBestBPDU on every bridge followed by sendBPDUs on every bridge. */
module Networks {
  import opened Bpdus
  import opened Ports
  import opened Bridges

  /** COST_MAP: the port cost of a link of each known speed (Mb/s); these
      are the path costs IEEE 802.1D-1998 recommends. */
  const CostMap: map<nat, nat> := map[10 := 100, 100 := 19, 1000 := 4, 10000 := 2]

  /** A faster link never costs more. */
  lemma CostMapFasterIsCheaper(s: nat, t: nat)
    requires s in CostMap && t in CostMap && s < t
    ensures CostMap[t] < CostMap[s]
  {
  }

  /** Two new ports with the given numbers and cost, cleared, each the
      other's partner. */
  method NewLink(num1: nat, num2: nat, cost: nat) returns (l: Port, r: Port)
    ensures fresh(l) && fresh(r) && l != r
    ensures l.num == num1 && r.num == num2 && l.cost == cost && r.cost == cost
    ensures l.remote == r && r.remote == l && l.Cleared() && r.Cleared()
  {
    l := new Port(num1, cost);
    r := new Port(num2, cost);
    l.SetRemote(r);
    r.SetRemote(l);
  }

  class Network {
    /** The bridges by id (self.bridges). */
    var bridges: map<nat, Bridge>
    /** The ids in the order they were inserted, the order in which
        getAllBridges hands the bridges out. */
    var order: seq<nat>
    /** The id of the bridge each port was appended to. */
    ghost var owner: map<Port, nat>

    /** The bookkeeping every operation keeps: `order` lists the keys, each
        bridge is stored under its own id, each port of a bridge is owned by
        it (so no port belongs to two bridges) and has an owned partner, and
        every bridge is wired. */
    ghost predicate Valid()
      reads this, bridges.Values`ports, owner.Keys`remote
    {
      && Keyed()
      && Owned()
      && (forall id :: id in bridges ==> bridges[id].Wired())
    }

    ghost predicate Keyed()
      reads this`bridges, this`order
    {
      && (forall id :: id in bridges <==> id in order)
      && (forall id :: id in bridges ==> bridges[id].id == id)
    }

    ghost predicate Owned()
      reads this`bridges, this`owner, bridges.Values`ports, owner.Keys`remote
    {
      forall id, p :: id in bridges && p in bridges[id].ports ==>
        p in owner && owner[p] == id && p.remote in owner
    }

    /** Every bridge is settled: booted, believing in a root no higher than
        itself, root flag matching its best BPDU, at most one root port. */
    ghost predicate AllSettled()
      requires Valid()
      reads this, bridges.Values, owner.Keys
    {
      forall id :: id in bridges ==> bridges[id].Settled()
    }

    /** Network(): no bridges. */
    constructor ()
      ensures bridges == map[] && order == [] && Valid()
    {
      bridges := map[];
      order := [];
      owner := map[];
    }

    /** getBridge: the bridge stored under `id`, or a new one inserted under
        it (and appended to the insertion order) when there is none. */
    method GetBridge(id: nat) returns (br: Bridge)
      requires Valid()
      modifies this`bridges, this`order
      ensures Valid() && id in bridges && bridges[id] == br
      ensures id in old(bridges) ==> br == old(bridges[id]) && bridges == old(bridges) && order == old(order)
      ensures id !in old(bridges) ==>
                && fresh(br) && br.id == id && br.ports == [] && br.best == None
                && bridges == old(bridges)[id := br] && order == old(order) + [id]
    {
      if id in bridges {
        br := bridges[id];
      } else {
        br := new Bridge(id);
        bridges := bridges[id := br];
        order := order + [id];
        forall i | i in bridges
          ensures bridges[i].Wired()
        {
          if i != id {
            assert bridges[i] == old(bridges[i]) && old(bridges[i].Wired());
          }
        }
      }
    }

    /** Append the linked ports `l` and `r`, owned by no bridge yet, to
        `br1` and `br2` (both appends land on one bridge when the two are the
        same). */
    method Attach(br1: Bridge, l: Port, br2: Bridge, r: Port)
      requires Valid() && br1 in bridges.Values && br2 in bridges.Values
      requires l != r && l !in owner && r !in owner && l.remote == r && r.remote == l
      modifies br1`ports, br2`ports, this`owner
      ensures Valid() && bridges == old(bridges) && order == old(order)
      ensures br1 != br2 ==> br1.ports == old(br1.ports) + [l] && br2.ports == old(br2.ports) + [r]
      ensures br1 == br2 ==> br1.ports == old(br1.ports) + [l, r]
    {
      br1.AddPort(l);
      br2.AddPort(r);
      owner := owner[l := br1.id][r := br2.id];
      forall i, p | i in bridges && p in bridges[i].ports
        ensures p in owner && owner[p] == i && p.remote in owner
      {
        var b := bridges[i];
        if p != l && p != r {
          assert p in old(b.ports);
        }
      }
      forall i | i in bridges
        ensures bridges[i].Wired()
      {
        var b := bridges[i];
        if b != br1 && b != br2 {
          assert old(b.Wired()) && b.ports == old(b.ports);
        }
      }
    }

    /** connect: look the cost of `speed` up in COST_MAP, which fails (the
        KeyError of the source) before anything changes when the speed is
        unknown; otherwise create a port numbered `port1` for `br1` and one
        numbered `port2` for `br2`, both with that cost and cleared STP
        data, make each the other's partner and append each to its bridge.
        The two bridges may be the same one. */
    method Connect(br1: Bridge, port1: nat, br2: Bridge, port2: nat, speed: nat)
      returns (ok: bool, ghost local: Port?, ghost remote: Port?)
      requires Valid() && br1 in bridges.Values && br2 in bridges.Values
      modifies br1`ports, br2`ports, this`owner
      ensures Valid() && bridges == old(bridges) && order == old(order)
      ensures ok <==> speed in CostMap
      ensures !ok ==> br1.ports == old(br1.ports) && br2.ports == old(br2.ports)
      ensures ok ==>
                && local != null && remote != null && fresh(local) && fresh(remote) && local != remote
                && local.num == port1 && remote.num == port2
                && local.cost == CostMap[speed] && remote.cost == CostMap[speed]
                && local.remote == remote && remote.remote == local
                && local.Cleared() && remote.Cleared()
      ensures ok && br1 != br2 ==> br1.ports == old(br1.ports) + [local] && br2.ports == old(br2.ports) + [remote]
      ensures ok && br1 == br2 ==> br1.ports == old(br1.ports) + [local, remote]
    {
      local, remote := null, null;
      if speed !in CostMap {
        return false, local, remote;
      }
      ok := true;
      var l, r := NewLink(port1, port2, CostMap[speed]);
      Attach(br1, l, br2, r);
      local, remote := l, r;
    }
    /** br.boot() for the bridge stored under `id`: it is left as boot
        leaves it, and the bridges listed in `done` keep the state boot left
        them in, since no port belongs to two bridges. */
    method BootOne(id: nat, br: Bridge, ghost done: seq<nat>)
      requires Valid() && id in bridges && bridges[id] == br
      requires forall j :: j in done && j in bridges ==> bridges[j].Settled() && bridges[j].Booted()
      modifies br`best, br`root
      modifies owner.Keys`best, owner.Keys`role, owner.Keys`status, owner.Keys`costToRoot
      ensures Valid()
      ensures br.best == Some(Bpdu(id, 0, id, 0)) && br.root && forall p :: p in br.ports ==> p.Cleared()
      ensures forall j :: j in done + [id] && j in bridges ==> bridges[j].Settled() && bridges[j].Booted()
    {
      br.Boot();
      forall j | j in done + [id] && j in bridges
        ensures bridges[j].Settled() && bridges[j].Booted()
      {
        if j != id {
          var b := bridges[j];
          forall p | p in b.ports
            ensures p !in br.ports
          {
            assert owner[p] == j;
          }
          assert old(b.Settled()) && old(b.Booted());
        }
      }
    }

    /** The first loop of the main block: boot every bridge, in insertion
        order. Every bridge ends in the state boot leaves: its own BPDU
        (id, 0, id, 0), the root flag set, every port cleared. */
    method BootAll()
      requires Valid()
      modifies bridges.Values`best, bridges.Values`root
      modifies owner.Keys`best, owner.Keys`role, owner.Keys`status, owner.Keys`costToRoot
      ensures Valid() && AllSettled()
      ensures forall j :: j in bridges ==> bridges[j].Booted()
    {
      for i := 0 to |order|
        invariant Valid()
        invariant forall j :: j in order[..i] && j in bridges ==> bridges[j].Settled() && bridges[j].Booted()
      {
        assert order[..i + 1] == order[..i] + [order[i]];
        BootOne(order[i], bridges[order[i]], order[..i]);
      }
      assert order[..|order|] == order;
    }
    /** br.findBestBPDU() for the bridge stored under `id`: only that
        bridge's best BPDU (and root flag) changes, and every bridge stays
        settled. */
    method FindOne(id: nat, br: Bridge)
      requires Valid() && AllSettled() && id in bridges && bridges[id] == br
      modifies br`best, br`root
      ensures Valid() && AllSettled()
      ensures br.best == Some(FoldBest(old(br.best.value), StoredOf(br.ports)))
    {
      br.FindBestBpdu();
      forall j | j in bridges && j != id
        ensures bridges[j].Settled()
      {
        SettledKept(bridges[j]);
      }
      ValidKept();
    }

    /** The first inner loop of a round: findBestBPDU on every bridge, in
        insertion order. Every bridge stays settled; no port is written. */
    method FindAll()
      requires Valid() && AllSettled()
      modifies bridges.Values`best, bridges.Values`root
      ensures Valid() && AllSettled()
    {
      for i := 0 to |order|
        invariant Valid() && AllSettled()
      {
        FindOne(order[i], bridges[order[i]]);
      }
    }

    /** A bridge none of whose own fields, and none of whose ports' roles,
        statuses and costs to the root, changed stays settled. */
    twostate lemma SettledKept(b: Bridge)
      requires old(b.Settled())
      requires unchanged(b`best, b`root, b`ports)
      requires forall p :: p in b.ports ==> unchanged(p`role, p`status, p`costToRoot)
      ensures b.Settled()
    {
    }

    /** The bookkeeping reads only the maps, the bridges' port lists and
        the ports' partners: it survives any change to anything else. */
    twostate lemma ValidKept()
      requires old(Valid()) && unchanged(this)
      requires forall b :: b in bridges.Values ==> unchanged(b`ports)
      requires forall p :: p in owner.Keys ==> unchanged(p`remote)
      ensures Valid()
    {
    }

    /** br.sendBPDUs() as the driver sees it: the bridge stays settled, and
        only its own ports and their partners are written. */
    method SendFrom(br: Bridge)
      requires br.Wired() && br.Settled()
      modifies br.PortSet()`role, br.PortSet()`status, br.PortSet()`costToRoot, br.Footprint()`best
      ensures br.Settled()
    {
      br.SendBpdus();
    }

    /** sendBPDUs on the bridge stored under `id`: it writes only the roles,
        statuses and costs to the root of its own ports and the stored BPDUs
        of its ports and their partners, and every bridge stays settled, the
        others because none of their ports is one of its own. */
    method SendOne(id: nat, br: Bridge)
      requires Valid() && AllSettled() && id in bridges && bridges[id] == br
      modifies br.PortSet()`role, br.PortSet()`status, br.PortSet()`costToRoot, br.Footprint()`best
      ensures Valid() && AllSettled()
    {
      SendFrom(br);
      forall j | j in bridges && j != id
        ensures bridges[j].Settled()
      {
        var b := bridges[j];
        forall p | p in b.ports
          ensures p !in br.ports
        {
          assert owner[p] == j;
        }
        SettledKept(b);
      }
      ValidKept();
    }

    /** The second inner loop of a round: sendBPDUs on every bridge, in
        insertion order. Every bridge stays settled, and no bridge's best
        BPDU or root flag changes. */
    method SendAll()
      requires Valid() && AllSettled()
      modifies owner.Keys`best, owner.Keys`role, owner.Keys`status, owner.Keys`costToRoot
      ensures Valid() && AllSettled()
      ensures forall id :: id in bridges ==> bridges[id].best == old(bridges[id].best) && bridges[id].root == old(bridges[id].root)
    {
      for i := 0 to |order|
        invariant Valid() && AllSettled()
      {
        var br := bridges[order[i]];
        assert br.PortSet() <= owner.Keys && br.Footprint() <= owner.Keys;
        SendOne(order[i], br);
      }
    }

    /** The main block after the network is built: boot every bridge, then
        `steps` rounds of findBestBPDU on every bridge followed by sendBPDUs
        on every bridge. Afterwards every bridge is settled, so in
        particular believes in a root whose id is no higher than its own;
        with no rounds every bridge is as boot left it. */
    method Simulate(steps: nat)
      requires Valid()
      modifies bridges.Values`best, bridges.Values`root
      modifies owner.Keys`best, owner.Keys`role, owner.Keys`status, owner.Keys`costToRoot
      ensures Valid() && AllSettled()
      ensures steps == 0 ==> forall j :: j in bridges ==> bridges[j].Booted()
    {
      BootAll();
      for round := 0 to steps
        invariant Valid() && AllSettled()
        invariant round == 0 ==> forall j :: j in bridges ==> bridges[j].Booted()
      {
        FindAll();
        SendAll();
      }
    }
  }
}
