/** A switch port (stp_simulator.py, class Port): one end of a link, holding
    the best BPDU seen on it, its role, its forwarding status, its link cost
    and its cost to the root. */
module Ports {
  import opened Bpdus

  datatype Role = RootPort | Designated | Undesignated
  datatype Status = Forwarding | Blocked

  /** ROLE_STATUS_MAP: a port forwards exactly when it is not undesignated. */
  function RoleStatus(r: Role): (s: Status)
    ensures s == Forwarding <==> r != Undesignated
  {
    match r
    case RootPort => Forwarding
    case Designated => Forwarding
    case Undesignated => Blocked
  }

  class Port {
    const num: nat
    const cost: nat
    var remote: Port?
    var best: Option<Bpdu>
    var role: Role
    var status: Status
    var costToRoot: Option<nat>

    /** The state resetSTP leaves behind. */
    predicate Cleared()
      reads this`best, this`role, this`status, this`costToRoot
    {
      best == None && role == Undesignated && status == Blocked && costToRoot == None
    }

    /** Port(num, cost): no link partner yet, STP data cleared. */
    constructor (num: nat, cost: nat)
      ensures this.num == num && this.cost == cost && remote == null
      ensures Cleared()
    {
      this.num := num;
      this.cost := cost;
      remote := null;
      best, role, status, costToRoot := None, Undesignated, Blocked, None;
    }

    /** resetSTP: forget the stored BPDU and the role. */
    method ResetStp()
      modifies this`best, this`role, this`status, this`costToRoot
      ensures Cleared()
    {
      best := None;
      role := Undesignated;
      status := Blocked;
      costToRoot := None;
    }

    method SetRemote(r: Port)
      modifies this`remote
      ensures remote == r
    {
      remote := r;
    }

    /** receiveBPDU: keep the better of the stored BPDU and `m`. */
    method ReceiveBpdu(m: Bpdu)
      modifies this`best
      ensures best == Some(Merge(old(best), m))
    {
      best := Some(Merge(best, m));
    }

    /** sendBPDU: record `m` here as if received, and deliver it to the link
        partner. Only the two `best` fields change. The contract also covers
        a port that is its own partner, which connect never builds. */
    method SendBpdu(m: Bpdu)
      requires remote != null
      modifies this`best, remote`best
      ensures best == Some(Merge(old(best), m))
      ensures remote.best == Some(Merge(old(remote.best), m))
    {
      best := Some(Merge(best, m));
      remote.ReceiveBpdu(m);
      if remote == this {
        MergeIdempotent(old(best), m);
      }
    }

    /** setRole: the status follows the role through ROLE_STATUS_MAP. */
    method SetRole(r: Role)
      modifies this`role, this`status
      ensures role == r && status == RoleStatus(r)
    {
      role := r;
      status := RoleStatus(r);
    }
  }
}
