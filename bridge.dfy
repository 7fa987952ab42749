/** A switch (stp_simulator.py, class Bridge): its ports, the best BPDU it
    knows and whether it believes itself to be the root. */
module Bridges {
  import opened Bpdus
  import opened Ports

  // ---------------------------------------------------------------------
  // Python's min over a non-empty collection of naturals

  /** A least element, found by removing elements one at a time. */
  ghost function LeastOf(s: set<nat>): (m: nat)
    requires s != {}
    ensures m in s && forall x :: x in s ==> m <= x
    decreases |s|
  {
    var x :| x in s;
    if s == {x} then x
    else
      var m := LeastOf(s - {x});
      assert forall y :: y in s ==> y == x || y in s - {x};
      if x <= m then x else m
  }

  lemma HasMin(s: set<nat>)
    requires s != {}
    ensures exists m :: m in s && forall x :: x in s ==> m <= x
  {
    var m := LeastOf(s);
  }

  function SetMin(s: set<nat>): (m: nat)
    requires s != {}
    ensures m in s && forall x :: x in s ==> m <= x
  {
    HasMin(s);
    var m :| m in s && forall x :: x in s ==> m <= x; m
  }

  /** Python's min over a non-empty list of naturals. */
  function SeqMin(s: seq<nat>): (m: nat)
    requires s != []
    ensures m in s && forall i :: 0 <= i < |s| ==> m <= s[i]
  {
    if |s| == 1 then s[0]
    else
      var m := SeqMin(s[1..]);
      assert forall i :: 1 <= i < |s| ==> s[i] == s[1..][i - 1];
      if s[0] <= m then s[0] else m
  }

  // ---------------------------------------------------------------------
  // What sendBPDUs computes, as functions of the state it starts from

  /** The BPDU the bridge offers on a port whose link cost is `linkCost`,
      before the port number is filled in: the root it believes in, cost 0
      when it believes itself root and otherwise its cost plus the link's,
      its own id, port 0. */
  function Candidate(best: Bpdu, id: nat, linkCost: nat): (c: Bpdu)
    ensures c.root == best.root && c.id == id && c.port == 0
    ensures best.root == id ==> c == Bpdu(id, 0, id, 0)
    ensures best.root != id ==> c.cost == best.cost + linkCost
  {
    Bpdu(best.root, if best.root != id then best.cost + linkCost else 0, id, 0)
  }

  /** On the next round a port meets the copy of its candidate it sent
      before, which carries the port's number where the fresh candidate
      carries 0: the candidate wins again exactly when that number is not 0.
      A port numbered 0 ties, getBest returns the stored copy, and the port
      stops being designated. */
  lemma CandidateBeatsOwnCopy(best: Bpdu, id: nat, linkCost: nat, num: nat)
    ensures var c := Candidate(best, id, linkCost);
      SelfWins(c, Some(c.(port := num))) <==> num > 0
  {
  }

  function Nums(ps: seq<Port>): (r: seq<nat>)
    ensures |r| == |ps| && forall k :: 0 <= k < |ps| ==> r[k] == ps[k].num
  {
    seq(|ps|, k requires 0 <= k < |ps| => ps[k].num)
  }

  /** The cost of each port's candidate, the key sendBPDUs buckets it under. */
  function CandidateCosts(best: Bpdu, id: nat, ps: seq<Port>): (r: seq<nat>)
    ensures |r| == |ps| && forall k :: 0 <= k < |ps| ==> r[k] == Candidate(best, id, ps[k].cost).cost
  {
    seq(|ps|, k requires 0 <= k < |ps| => Candidate(best, id, ps[k].cost).cost)
  }

  /** The outcome of the first loop of sendBPDUs: for each port whether it
      became designated, and the BPDU stored on every port it can reach. */
  datatype Sent = Sent(designated: seq<bool>, bests: map<Port, Option<Bpdu>>)

  /** One iteration of the first loop of sendBPDUs, for port `p` whose link
      partner is `r`: when getBest keeps the candidate the port becomes
      designated and the candidate, numbered with the port, is stored on the
      port and then on its partner. */
  function SendStep(best: Bpdu, id: nat, prev: Sent, p: Port, r: Port): (out: Sent)
    requires p in prev.bests && r in prev.bests
    ensures out.bests.Keys == prev.bests.Keys
    ensures out.designated == prev.designated + [SelfWins(Candidate(best, id, p.cost), prev.bests[p])]
  {
    var c := Candidate(best, id, p.cost);
    if SelfWins(c, prev.bests[p]) then
      var m := c.(port := p.num);
      var b := prev.bests[p := Some(Merge(prev.bests[p], m))];
      Sent(prev.designated + [true], b[r := Some(Merge(b[r], m))])
    else
      Sent(prev.designated + [false], prev.bests)
  }

  /** What one step stores, port by port, when the port is not its own
      partner. */
  lemma SendStepBests(best: Bpdu, id: nat, prev: Sent, p: Port, r: Port)
    requires p in prev.bests && r in prev.bests && p != r
    ensures
      var out := SendStep(best, id, prev, p, r);
      var c := Candidate(best, id, p.cost);
      var sent := SelfWins(c, prev.bests[p]);
      && out.bests[p] == (if sent then Some(Merge(prev.bests[p], c.(port := p.num))) else prev.bests[p])
      && out.bests[r] == (if sent then Some(Merge(prev.bests[r], c.(port := p.num))) else prev.bests[r])
      && forall q :: q in prev.bests && q != p && q != r ==> out.bests[q] == prev.bests[q]
  {
  }

  /** The first `n` iterations of the first loop of sendBPDUs over `ports`
      (whose link partners are `remotes`), starting from the stored BPDUs
      `bests`; later ports see what earlier ones sent. */
  function SendLoop(best: Bpdu, id: nat, ports: seq<Port>, remotes: seq<Port>,
                    bests: map<Port, Option<Bpdu>>, n: nat): (out: Sent)
    requires n <= |ports| == |remotes|
    requires forall k :: 0 <= k < n ==> ports[k] in bests && remotes[k] in bests
    ensures |out.designated| == n && out.bests.Keys == bests.Keys
  {
    if n == 0 then Sent([], bests)
    else SendStep(best, id, SendLoop(best, id, ports, remotes, bests, n - 1), ports[n - 1], remotes[n - 1])
  }

  /** One more iteration of the loop is one more SendStep. */
  lemma SendLoopNext(best: Bpdu, id: nat, ports: seq<Port>, remotes: seq<Port>,
                     bests: map<Port, Option<Bpdu>>, n: nat)
    requires n < |ports| == |remotes|
    requires forall k :: 0 <= k < |ports| ==> ports[k] in bests && remotes[k] in bests
    ensures SendLoop(best, id, ports, remotes, bests, n + 1)
         == SendStep(best, id, SendLoop(best, id, ports, remotes, bests, n), ports[n], remotes[n])
  {
  }

  /** The root_ports dictionary of sendBPDUs after the ports whose outcomes
      `designated` lists: the numbers of the undesignated ones, in order,
      under their candidate costs. */
  function Buckets(nums: seq<nat>, costs: seq<nat>, designated: seq<bool>): (b: map<nat, seq<nat>>)
    requires |designated| <= |nums| == |costs|
    ensures b == map[] <==> forall k :: 0 <= k < |designated| ==> designated[k]
    ensures forall c :: c in b ==> b[c] != []
  {
    if designated == [] then map[]
    else
      var n := |designated| - 1;
      var b := Buckets(nums, costs, designated[..n]);
      if designated[n] then b
      else b[costs[n] := (if costs[n] in b then b[costs[n]] else []) + [nums[n]]]
  }

  lemma BucketsUnfold(nums: seq<nat>, costs: seq<nat>, designated: seq<bool>, d: bool)
    requires |designated| < |nums| == |costs|
    ensures var b := Buckets(nums, costs, designated);
      var i := |designated|;
      Buckets(nums, costs, designated + [d])
      == if d then b else b[costs[i] := (if costs[i] in b then b[costs[i]] else []) + [nums[i]]]
  {
    assert (designated + [d])[..|designated|] == designated;
  }

  /** The dictionary holds a cost exactly when some undesignated port's
      candidate has it, and under it exactly those ports' numbers. */
  lemma {:induction false} BucketsHold(nums: seq<nat>, costs: seq<nat>, designated: seq<bool>)
    requires |designated| <= |nums| == |costs|
    ensures forall c :: c in Buckets(nums, costs, designated) <==>
              exists k :: 0 <= k < |designated| && !designated[k] && costs[k] == c
    ensures forall c, n :: c in Buckets(nums, costs, designated) ==>
              (n in Buckets(nums, costs, designated)[c] <==>
                exists k :: 0 <= k < |designated| && !designated[k] && costs[k] == c && nums[k] == n)
    decreases |designated|
  {
    if designated != [] {
      var last := |designated| - 1;
      var designated' := designated[..last];
      BucketsHold(nums, costs, designated');
      var b := Buckets(nums, costs, designated');
      forall c
        ensures c in Buckets(nums, costs, designated) <==>
                exists k :: 0 <= k < |designated| && !designated[k] && costs[k] == c
      {
        if exists k :: 0 <= k < |designated| && !designated[k] && costs[k] == c {
          var k :| 0 <= k < |designated| && !designated[k] && costs[k] == c;
          if k < last {
            assert designated'[k] == designated[k];
          }
        }
      }
      forall c, n | c in Buckets(nums, costs, designated)
        ensures n in Buckets(nums, costs, designated)[c] <==>
                exists k :: 0 <= k < |designated| && !designated[k] && costs[k] == c && nums[k] == n
      {
        if exists k :: 0 <= k < |designated| && !designated[k] && costs[k] == c && nums[k] == n {
          var k :| 0 <= k < |designated| && !designated[k] && costs[k] == c && nums[k] == n;
          if k < last {
            assert designated'[k] == designated[k];
          }
        }
        if n in Buckets(nums, costs, designated)[c] && (c in b ==> n !in b[c]) {
          assert !designated[last] && costs[last] == c && nums[last] == n;
        }
      }
    }
  }

  /** A root-port choice (cost, port number): some undesignated port has that
      candidate cost and number, no undesignated port is cheaper, and no
      undesignated port of that cost has a lower number. */
  predicate IsRootChoice(nums: seq<nat>, costs: seq<nat>, designated: seq<bool>, c: nat, n: nat)
    requires |nums| == |costs| == |designated|
  {
    && (exists k :: 0 <= k < |nums| && !designated[k] && costs[k] == c && nums[k] == n)
    && (forall k :: 0 <= k < |nums| && !designated[k] ==> c <= costs[k])
    && (forall k :: 0 <= k < |nums| && !designated[k] && costs[k] == c ==> n <= nums[k])
  }

  /** The second half of sendBPDUs: the least cost among the undesignated
      ports' candidates, and the least port number in that cost's bucket;
      nothing when every port became designated. */
  function RootChoice(nums: seq<nat>, costs: seq<nat>, designated: seq<bool>): (r: Option<(nat, nat)>)
    requires |nums| == |costs| == |designated|
    ensures r.None? <==> forall k :: 0 <= k < |designated| ==> designated[k]
    ensures r.Some? ==> IsRootChoice(nums, costs, designated, r.value.0, r.value.1)
  {
    var keys := set k | 0 <= k < |designated| && !designated[k] :: costs[k];
    if forall k :: 0 <= k < |designated| ==> designated[k] then None
    else
      var k0 :| 0 <= k0 < |designated| && !designated[k0];
      assert costs[k0] in keys;
      var c := SetMin(keys);
      assert forall k :: 0 <= k < |designated| && !designated[k] ==> c <= costs[k] by {
        forall k | 0 <= k < |designated| && !designated[k] ensures c <= costs[k] {
          assert costs[k] in keys;
        }
      }
      var bucket := set k | 0 <= k < |designated| && !designated[k] && costs[k] == c :: nums[k];
      var k1 :| 0 <= k1 < |designated| && !designated[k1] && costs[k1] == c;
      assert nums[k1] in bucket;
      var n := SetMin(bucket);
      assert forall k :: 0 <= k < |designated| && !designated[k] && costs[k] == c ==> n <= nums[k] by {
        forall k | 0 <= k < |designated| && !designated[k] && costs[k] == c ensures n <= nums[k] {
          assert nums[k] in bucket;
        }
      }
      Some((c, n))
  }

  /** At most one root-port choice exists. */
  lemma RootChoiceUnique(nums: seq<nat>, costs: seq<nat>, designated: seq<bool>, c: nat, n: nat, c': nat, n': nat)
    requires |nums| == |costs| == |designated|
    requires IsRootChoice(nums, costs, designated, c, n)
    requires IsRootChoice(nums, costs, designated, c', n')
    ensures c == c' && n == n'
  {
    var k :| 0 <= k < |nums| && !designated[k] && costs[k] == c && nums[k] == n;
    var k' :| 0 <= k' < |nums| && !designated[k'] && costs[k'] == c' && nums[k'] == n';
  }

  /** Reading the dictionary as sendBPDUs does (least key, then least
      number in its bucket) yields the root-port choice, and the dictionary
      is empty exactly when there is none. */
  lemma BucketsChoose(nums: seq<nat>, costs: seq<nat>, designated: seq<bool>)
    requires |nums| == |costs| == |designated|
    ensures var b := Buckets(nums, costs, designated);
      var choice := RootChoice(nums, costs, designated);
      && (b == map[] <==> choice.None?)
      && (b != map[] ==>
            var c := SetMin(b.Keys);
            b[c] != [] && choice == Some((c, SeqMin(b[c]))))
  {
    var b := Buckets(nums, costs, designated);
    BucketsHold(nums, costs, designated);
    forall k | 0 <= k < |designated| && !designated[k]
      ensures costs[k] in b
    {
    }
    if b != map[] {
      var c := SetMin(b.Keys);
      var k0 :| 0 <= k0 < |designated| && !designated[k0] && costs[k0] == c;
      assert nums[k0] in b[c];
      var n := SeqMin(b[c]);
      var k1 :| 0 <= k1 < |designated| && !designated[k1] && costs[k1] == c && nums[k1] == n;
      assert IsRootChoice(nums, costs, designated, c, n) by {
        forall k | 0 <= k < |nums| && !designated[k]
          ensures c <= costs[k]
        {
          assert costs[k] in b.Keys;
        }
        forall k | 0 <= k < |nums| && !designated[k] && costs[k] == c
          ensures n <= nums[k]
        {
          assert nums[k] in b[c];
        }
      }
      var choice := RootChoice(nums, costs, designated);
      RootChoiceUnique(nums, costs, designated, c, n, choice.value.0, choice.value.1);
    }
  }

  /** The first position holding port number `n`: the port the last loop of
      sendBPDUs stops at. */
  function FirstIndexOf(nums: seq<nat>, n: nat): (j: nat)
    requires n in nums
    ensures j < |nums| && nums[j] == n
    ensures forall i :: 0 <= i < j ==> nums[i] != n
  {
    if nums[0] == n then 0 else 1 + FirstIndexOf(nums[1..], n)
  }

  /** The position of the port that becomes the root port, if any. */
  function RootIndex(nums: seq<nat>, costs: seq<nat>, designated: seq<bool>): (r: Option<nat>)
    requires |nums| == |costs| == |designated|
    ensures r.None? <==> forall k :: 0 <= k < |designated| ==> designated[k]
    ensures r.Some? ==> r.value < |nums| && nums[r.value] == RootChoice(nums, costs, designated).value.1
  {
    var choice := RootChoice(nums, costs, designated);
    if choice.None? then None else Some(FirstIndexOf(nums, choice.value.1))
  }

  /** With distinct port numbers the root port is an undesignated port of
      least candidate cost, with the lowest number among those. */
  lemma RootIndexUndesignated(nums: seq<nat>, costs: seq<nat>, designated: seq<bool>)
    requires |nums| == |costs| == |designated|
    requires forall i, j :: 0 <= i < j < |nums| ==> nums[i] != nums[j]
    requires RootIndex(nums, costs, designated).Some?
    ensures var j := RootIndex(nums, costs, designated).value;
      && !designated[j]
      && (forall k :: 0 <= k < |nums| && !designated[k] ==> costs[j] <= costs[k])
      && (forall k :: 0 <= k < |nums| && !designated[k] && costs[k] == costs[j] ==> nums[j] <= nums[k])
  {
    var j := RootIndex(nums, costs, designated).value;
    var choice := RootChoice(nums, costs, designated).value;
    var k :| 0 <= k < |nums| && !designated[k] && costs[k] == choice.0 && nums[k] == choice.1;
    assert nums[j] == nums[k];
  }

  /** The role a port has after sendBPDUs. */
  function RoleAfterSend(designated: bool, isRootPort: bool): Role
  {
    if isRootPort then RootPort else if designated then Designated else Undesignated
  }

  // ---------------------------------------------------------------------
  // Reading the ports

  /** Every port of `fp` holds what `bests` says. */
  ghost predicate Holds(fp: set<Port>, bests: map<Port, Option<Bpdu>>)
    reads fp`best
  {
    forall q :: q in fp ==> q in bests && q.best == bests[q]
  }

  /** The first `n` ports have the roles the outcomes `designated` give
      them, and their statuses follow. */
  ghost predicate RolesFollow(ps: seq<Port>, designated: seq<bool>, n: nat)
    reads (set p | p in ps)`role, (set p | p in ps)`status
  {
    && n <= |ps| && n <= |designated|
    && forall k :: 0 <= k < n ==>
         ps[k].role == (if designated[k] then Designated else Undesignated) &&
         ps[k].status == RoleStatus(ps[k].role)
  }

  /** No port object occurs twice among the first `n`. Each position is
      compared with the ones before it only, so the verifier learns about a
      pair of positions when DistinctApart is called for it. */
  predicate DistinctUpTo(ps: seq<Port>, n: nat)
    requires n <= |ps|
  {
    n == 0 || (DistinctUpTo(ps, n - 1) && forall k :: 0 <= k < n - 1 ==> ps[k] != ps[n - 1])
  }

  predicate Distinct(ps: seq<Port>)
  {
    DistinctUpTo(ps, |ps|)
  }

  /** Position `i` of a distinct sequence holds an object found nowhere
      else in it. */
  lemma DistinctFrom(ps: seq<Port>, i: nat)
    requires Distinct(ps) && i < |ps|
    ensures forall k :: 0 <= k < |ps| && k != i ==> ps[k] != ps[i]
  {
    forall k | 0 <= k < |ps| && k != i
      ensures ps[k] != ps[i]
    {
      DistinctApart(ps, k, i);
    }
  }

  lemma {:induction false} DistinctApart(ps: seq<Port>, a: nat, b: nat)
    requires Distinct(ps) && a < |ps| && b < |ps| && a != b
    ensures ps[a] != ps[b]
  {
    var n := |ps|;
    while n > (if a < b then b else a) + 1
      invariant (if a < b then b else a) < n <= |ps| && DistinctUpTo(ps, n)
    {
      n := n - 1;
    }
  }


  /** Appending a port found nowhere in a distinct sequence keeps it
      distinct. */
  lemma DistinctAppend(ps: seq<Port>, x: Port)
    requires Distinct(ps) && x !in ps
    ensures Distinct(ps + [x])
  {
    DistinctPrefix(ps, [x], |ps|);
  }

  lemma {:induction false} DistinctPrefix(ps: seq<Port>, tail: seq<Port>, n: nat)
    requires n <= |ps| && DistinctUpTo(ps, n)
    ensures DistinctUpTo(ps + tail, n)
  {
    if n > 0 {
      DistinctPrefix(ps, tail, n - 1);
      assert forall k :: 0 <= k < n ==> (ps + tail)[k] == ps[k];
    }
  }

  function RemotesOf(ps: seq<Port>): (rs: seq<Port>)
    requires forall p :: p in ps ==> p.remote != null
    reads (set p | p in ps)`remote
    ensures |rs| == |ps| && forall k :: 0 <= k < |ps| ==> rs[k] == ps[k].remote
  {
    if ps == [] then [] else [ps[0].remote] + RemotesOf(ps[1..])
  }

  function StoredOf(ps: seq<Port>): (r: seq<Option<Bpdu>>)
    reads (set p | p in ps)`best
    ensures |r| == |ps| && forall k :: 0 <= k < |ps| ==> r[k] == ps[k].best
  {
    if ps == [] then [] else [ps[0].best] + StoredOf(ps[1..])
  }

  function BestsOf(s: set<Port>): (m: map<Port, Option<Bpdu>>)
    reads s`best
    ensures m.Keys == s && forall q :: q in s ==> m[q] == q.best
  {
    map q | q in s :: q.best
  }

  function CostsToRoot(ps: seq<Port>): (r: seq<Option<nat>>)
    reads (set p | p in ps)`costToRoot
    ensures |r| == |ps| && forall k :: 0 <= k < |ps| ==> r[k] == ps[k].costToRoot
  {
    if ps == [] then [] else [ps[0].costToRoot] + CostsToRoot(ps[1..])
  }

  /** The ports after sendBPDUs: the root port (position `rootIndex`) has
      its role and the cost of `choice`; every other port has the role its
      outcome in `designated` gave it and the cost to the root it had before
      (`costs0`); every status follows its role. */
  ghost predicate Promoted(ps: seq<Port>, designated: seq<bool>, rootIndex: Option<nat>,
                           choice: Option<(nat, nat)>, costs0: seq<Option<nat>>)
    reads (set p | p in ps)`role, (set p | p in ps)`status, (set p | p in ps)`costToRoot
  {
    && |designated| == |ps| == |costs0|
    && forall k :: 0 <= k < |ps| ==>
         && ps[k].role == RoleAfterSend(designated[k], rootIndex == Some(k))
         && ps[k].status == RoleStatus(ps[k].role)
         && ps[k].costToRoot == (if rootIndex == Some(k) && choice.Some? then Some(choice.value.0) else costs0[k])
  }

  /** Every status follows its role, at most one port is the root port,
      and the root port holds a cost to the root. */
  predicate SettledPorts(ps: seq<Port>)
    reads (set p | p in ps)`role, (set p | p in ps)`status, (set p | p in ps)`costToRoot
  {
    && (forall p :: p in ps ==> p.status == RoleStatus(p.role))
    && AtMostOneRootPort(ps, |ps|)
    && (forall p :: p in ps && p.role == RootPort ==> p.costToRoot.Some?)
  }

  /** No two of the first `n` ports are root ports. Each position is
      compared with the ones before it only (as in DistinctUpTo);
      RootPortsApart gives the pairwise reading. */
  predicate AtMostOneRootPort(ps: seq<Port>, n: nat)
    requires n <= |ps|
    reads (set p | p in ps)`role
  {
    n == 0 ||
    (&& AtMostOneRootPort(ps, n - 1)
     && (ps[n - 1].role == RootPort ==> forall k :: 0 <= k < n - 1 ==> ps[k].role != RootPort))
  }

  /** Two root-port positions are the same position. */
  lemma {:induction false} RootPortsApart(ps: seq<Port>, a: nat, b: nat)
    requires a < |ps| && b < |ps| && AtMostOneRootPort(ps, |ps|)
    requires ps[a].role == RootPort && ps[b].role == RootPort
    ensures a == b
  {
    var n := |ps|;
    while n > (if a < b then b else a) + 1
      invariant (if a < b then b else a) < n <= |ps| && AtMostOneRootPort(ps, n)
    {
      n := n - 1;
    }
  }

  /** When only position `r` (if any) can hold a root port, there is at most
      one. */
  lemma {:induction false} OnlyRootPortAt(ps: seq<Port>, r: Option<nat>, n: nat)
    requires n <= |ps|
    requires forall k :: 0 <= k < |ps| && ps[k].role == RootPort ==> r == Some(k)
    ensures AtMostOneRootPort(ps, n)
  {
    if n > 0 {
      OnlyRootPortAt(ps, r, n - 1);
    }
  }

  /** What sendBPDUs leaves behind is settled: only the chosen position can
      be the root port, and it is given a cost. */
  lemma PromotedSettled(ps: seq<Port>, designated: seq<bool>, nums: seq<nat>, costs: seq<nat>,
                        costs0: seq<Option<nat>>)
    requires |nums| == |costs| == |designated| == |ps|
    requires Promoted(ps, designated, RootIndex(nums, costs, designated),
                      RootChoice(nums, costs, designated), costs0)
    ensures SettledPorts(ps)
  {
    var rootIndex := RootIndex(nums, costs, designated);
    OnlyRootPortAt(ps, rootIndex, |ps|);
    forall p | p in ps && p.role == RootPort
      ensures p.costToRoot.Some?
    {
      var k :| 0 <= k < |ps| && ps[k] == p;
      assert rootIndex == Some(k);
    }
  }

  /** The last loop of sendBPDUs: the position of the first port carrying
      number `n`. The caller knows some port carries it, so the search
      always stops on a port. */
  method FindPort(ps: seq<Port>, n: nat) returns (j: nat)
    requires n in Nums(ps)
    ensures j == FirstIndexOf(Nums(ps), n)
  {
    ghost var j0 := FirstIndexOf(Nums(ps), n);
    j := 0;
    while ps[j].num != n
      invariant j <= j0
      decreases j0 - j
    {
      j := j + 1;
    }
  }

  /** The ports `ps` lie in `portSet`, and they and their partners
      `remotes`, each other than its port, lie in the footprint `fp` and in
      the map `bests0`. */
  ghost predicate Linked(ps: seq<Port>, remotes: seq<Port>, portSet: set<Port>, fp: set<Port>,
                         bests0: map<Port, Option<Bpdu>>)
  {
    && |remotes| == |ps|
    && forall k :: 0 <= k < |ps| ==>
         && ps[k] in portSet && ps[k] in fp && remotes[k] in fp && ps[k] in bests0 && remotes[k] in bests0
         && remotes[k] != ps[k]
  }

  /** One iteration of the first loop of sendBPDUs on port `p`, offered the
      candidate `c` (port number still 0): when getBest keeps `c` itself, the
      port sends `c` numbered with the port and becomes designated; otherwise
      nothing is sent and it becomes undesignated. */
  method Offer(p: Port, c: Bpdu) returns (sent: bool)
    requires p.remote != null
    modifies p`best, p.remote`best, p`role, p`status
    ensures sent == SelfWins(c, old(p.best))
    ensures p.best == if sent then Some(Merge(old(p.best), c.(port := p.num))) else old(p.best)
    ensures p.remote != p ==>
              p.remote.best == if sent then Some(Merge(old(p.remote.best), c.(port := p.num)))
                               else old(p.remote.best)
    ensures p.role == (if sent then Designated else Undesignated) && p.status == RoleStatus(p.role)
  {
    sent := SelfWins(c, p.best);
    if sent {
      p.SendBpdu(c.(port := p.num));
      p.SetRole(Designated);
    } else {
      p.SetRole(Undesignated);
    }
  }

  class Bridge {
    const id: nat
    var ports: seq<Port>
    var best: Option<Bpdu>
    var root: bool

    function PortSet(): set<Port>
      reads this`ports
    {
      set p | p in ports
    }

    /** The ports are distinct objects, each linked to a partner other than
        itself (what Network.connect builds). */
    predicate Wired()
      reads this`ports, (set p | p in ports)`remote
    {
      && Distinct(ports)
      && (forall p :: p in ports ==> p.remote != null && p.remote != p)
    }

    /** The ports and their link partners: every port sendBPDUs may write to. */
    function Footprint(): (fp: set<Port>)
      requires Wired()
      reads this`ports, (set p | p in ports)`remote
      ensures forall k :: 0 <= k < |ports| ==> ports[k] in fp && ports[k].remote in fp
    {
      (set p | p in ports) + (set p | p in RemotesOf(ports))
    }

    /** What holds of a booted bridge between operations: the root it
        believes in has an id no higher than its own, the root flag matches
        the best BPDU, every status follows its role, and at most one port,
        holding a cost to the root, is the root port. */
    predicate Settled()
      reads this`best, this`root, this`ports
      reads (set p | p in ports)`role, (set p | p in ports)`status, (set p | p in ports)`costToRoot
    {
      && best.Some?
      && best.value.root <= id
      && root == (best.value.root == id)
      && SettledPorts(ports)
    }

    /** The state boot leaves: the bridge's own BPDU (id, 0, id, 0), the
        root flag set, and every port cleared. */
    predicate Booted()
      reads this`best, this`root, this`ports
      reads (set p | p in ports)`best, (set p | p in ports)`role
      reads (set p | p in ports)`status, (set p | p in ports)`costToRoot
    {
      && best == Some(Bpdu(id, 0, id, 0))
      && root
      && forall p :: p in ports ==> p.Cleared()
    }

    /** Bridge(id): no ports, no BPDU; the root flag is set by boot. */
    constructor (id: nat)
      ensures this.id == id && ports == [] && best == None && !root
    {
      this.id := id;
      ports := [];
      best := None;
      root := false;
    }

    /** boot: believe itself root and clear every port. */
    method Boot()
      modifies this`best, this`root
      modifies PortSet()`best, PortSet()`role, PortSet()`status, PortSet()`costToRoot
      ensures best == Some(Bpdu(id, 0, id, 0)) && root
      ensures forall p :: p in ports ==> p.Cleared()
      ensures Settled()
    {
      best := Some(Bpdu(id, 0, id, 0));
      root := true;
      for i := 0 to |ports|
        invariant best == Some(Bpdu(id, 0, id, 0)) && root
        invariant forall k :: 0 <= k < i ==> ports[k].Cleared()
      {
        ports[i].ResetStp();
      }
      OnlyRootPortAt(ports, None, |ports|);
    }

    /** `ports.append(p)`, for a port linked to a partner other than itself
        and not yet among the ports: the bridge stays wired. */
    method AddPort(p: Port)
      requires Wired() && p.remote != null && p.remote != p && p !in ports
      modifies this`ports
      ensures ports == old(ports) + [p] && Wired()
    {
      DistinctAppend(ports, p);
      ports := ports + [p];
    }

    /** findBestBPDU: fold getBest over the ports' stored BPDUs, starting from
        the current best, then set the root flag from the result. */
    method FindBestBpdu()
      requires best.Some?
      modifies this`best, this`root
      ensures best == Some(FoldBest(old(best.value), StoredOf(ports)))
      ensures root <==> best.value.root == id
      ensures best.value.root <= old(best.value.root)
      ensures old(Settled()) ==> Settled()
    {
      ghost var stored := StoredOf(ports);
      for i := 0 to |ports|
        invariant best.Some?
        invariant FoldBest(best.value, stored[i..]) == FoldBest(old(best.value), stored)
      {
        assert stored[i..][1..] == stored[i + 1..];
        best := Some(GetBest(best.value, ports[i].best));
      }
      assert stored[|ports|..] == [];
      FoldBestNeverWorse(old(best.value), stored);
      root := best.value.root == id;
    }

    /** One iteration of the first loop of sendBPDUs, on port `p` whose
        partner is `r`: build the candidate as the source does and offer it
        (Offer). `prev` is what the earlier iterations stored on the
        footprint `fp`. */
    method OfferAt(p: Port, ghost r: Port, ghost ps: seq<Port>, ghost fp: set<Port>, ghost prev: Sent)
      returns (sent: bool, cost: nat, ghost next: Sent)
      requires best.Some? && p.remote == r && r != p && p in fp && r in fp
      requires |prev.designated| < |ps| && ps[|prev.designated|] == p
      requires forall k :: 0 <= k < |ps| && k != |prev.designated| ==> ps[k] != p
      requires Holds(fp, prev.bests) && RolesFollow(ps, prev.designated, |prev.designated|)
      modifies p`best, r`best, p`role, p`status
      ensures next == SendStep(best.value, id, prev, p, r)
      ensures sent == next.designated[|prev.designated|]
      ensures cost == Candidate(best.value, id, p.cost).cost
      ensures Holds(fp, next.bests) && RolesFollow(ps, next.designated, |next.designated|)
    {
      var myBpdu := Bpdu(best.value.root, 0, id, 0);
      if best.value.root != id {
        myBpdu := myBpdu.(cost := best.value.cost + p.cost);
      }
      assert myBpdu == Candidate(best.value, id, p.cost);
      next := SendStep(best.value, id, prev, p, r);
      SendStepBests(best.value, id, prev, p, r);
      sent := Offer(p, myBpdu);
      cost := myBpdu.cost;
      forall q | q in fp
        ensures q in next.bests && q.best == next.bests[q]
      {
        if q != p && q != r {
          assert q.best == prev.bests[q];
        }
      }
      var i := |prev.designated|;
      forall k | 0 <= k < i + 1
        ensures ps[k].role == (if next.designated[k] then Designated else Undesignated)
        ensures ps[k].status == RoleStatus(ps[k].role)
      {
        if k < i {
          assert next.designated[k] == prev.designated[k];
          assert ps[k].role == old(ps[k].role);
        }
      }
    }

    /** The body of the first loop of sendBPDUs for port `i` of `ps`
        (linked to `remotes`, with footprint `fp` holding `bests0`
        beforehand), with the dictionary update: what the first `i`
        iterations established holds after `i + 1`. */
    method OfferStep(i: nat, p: Port, ghost r: Port, ghost ps: seq<Port>, ghost remotes: seq<Port>,
                     ghost portSet: set<Port>, ghost fp: set<Port>, ghost bests0: map<Port, Option<Bpdu>>,
                     ghost st: Sent, rootPorts: map<nat, seq<nat>>)
      returns (ghost st': Sent, rootPorts': map<nat, seq<nat>>)
      requires best.Some? && Linked(ps, remotes, portSet, fp, bests0) && Distinct(ps)
      requires i < |ps| && p == ps[i] && r == remotes[i] && p.remote == r
      requires st == SendLoop(best.value, id, ps, remotes, bests0, i)
      requires Holds(fp, st.bests) && RolesFollow(ps, st.designated, i)
      requires rootPorts == Buckets(Nums(ps), CandidateCosts(best.value, id, ps), st.designated)
      modifies p`best, r`best, p`role, p`status
      ensures st' == SendLoop(best.value, id, ps, remotes, bests0, i + 1)
      ensures Holds(fp, st'.bests) && RolesFollow(ps, st'.designated, i + 1)
      ensures rootPorts' == Buckets(Nums(ps), CandidateCosts(best.value, id, ps), st'.designated)
    {
      DistinctFrom(ps, i);
      SendLoopNext(best.value, id, ps, remotes, bests0, i);
      var sent, cost;
      sent, cost, st' := OfferAt(p, r, ps, fp, st);
      BucketsUnfold(Nums(ps), CandidateCosts(best.value, id, ps), st.designated, sent);
      rootPorts' := rootPorts;
      if !sent {
        var bucket := if cost in rootPorts then rootPorts[cost] else [];
        rootPorts' := rootPorts[cost := bucket + [p.num]];
      }
    }

    /** The first loop of sendBPDUs over the ports `ps`, linked to
        `remotes`, whose footprint `fp` holds `bests0` beforehand. */
    method OfferLoop(ghost ps: seq<Port>, ghost remotes: seq<Port>, ghost portSet: set<Port>,
                     ghost fp: set<Port>, ghost bests0: map<Port, Option<Bpdu>>)
      returns (rootPorts: map<nat, seq<nat>>, ghost st: Sent)
      requires best.Some? && ports == ps && Linked(ps, remotes, portSet, fp, bests0) && Distinct(ps)
      requires forall k :: 0 <= k < |ps| ==> ps[k].remote == remotes[k]
      requires Holds(fp, bests0)
      modifies portSet`role, portSet`status, fp`best
      ensures st == SendLoop(best.value, id, ps, remotes, bests0, |ps|)
      ensures Holds(fp, st.bests) && RolesFollow(ps, st.designated, |ps|)
      ensures rootPorts == Buckets(Nums(ps), CandidateCosts(best.value, id, ps), st.designated)
    {
      st := Sent([], bests0);
      rootPorts := map[];
      for i := 0 to |ports|
        invariant st == SendLoop(best.value, id, ps, remotes, bests0, i)
        invariant Holds(fp, st.bests) && RolesFollow(ps, st.designated, i)
        invariant rootPorts == Buckets(Nums(ps), CandidateCosts(best.value, id, ps), st.designated)
      {
        st, rootPorts := OfferStep(i, ports[i], remotes[i], ps, remotes, portSet, fp, bests0, st, rootPorts);
      }
    }

    /** The second half of sendBPDUs over the ports `ps`, which OfferCandidates
        left with the outcomes `designated` and the dictionary `rootPorts`:
        when the dictionary is non-empty, take its least cost and the least
        number in that bucket, and make the first port carrying the number
        the root port with that cost. The number is in the bucket, so the
        search always ends on a port. */
    method PromoteRootPort(rootPorts: map<nat, seq<nat>>, ghost ps: seq<Port>, ghost costs: seq<nat>,
                           ghost designated: seq<bool>, ghost portSet: set<Port>,
                           ghost costs0: seq<Option<nat>>)
      requires ports == ps && Distinct(ps) && |costs| == |designated| == |costs0| == |ps|
      requires forall k :: 0 <= k < |ps| ==> ps[k] in portSet && ps[k].costToRoot == costs0[k]
      requires rootPorts == Buckets(Nums(ps), costs, designated)
      requires RolesFollow(ps, designated, |ps|)
      modifies portSet`role, portSet`status, portSet`costToRoot
      ensures Promoted(ps, designated, RootIndex(Nums(ps), costs, designated),
                       RootChoice(Nums(ps), costs, designated), costs0)
    {
      ghost var nums := Nums(ps);
      BucketsChoose(nums, costs, designated);
      if rootPorts != map[] {
        var leastCost := SetMin(rootPorts.Keys);
        var rootPort := SeqMin(rootPorts[leastCost]);
        var j := FindPort(ports, rootPort);
        ports[j].SetRole(RootPort);
        ports[j].costToRoot := Some(leastCost);
        DistinctFrom(ps, j);
      }
    }

    /** sendBPDUs over the ports `ps`, linked to `remotes`, whose footprint
        `fp` holds `bests0` and whose costs to the root are `costs0`
        beforehand: the first loop (OfferLoop), then the root-port choice
        (PromoteRootPort). */
    method SendOver(ghost ps: seq<Port>, ghost remotes: seq<Port>, ghost portSet: set<Port>,
                    ghost fp: set<Port>, ghost bests0: map<Port, Option<Bpdu>>,
                    ghost costs0: seq<Option<nat>>)
      returns (ghost out: Sent)
      requires best.Some? && ports == ps && Linked(ps, remotes, portSet, fp, bests0) && Distinct(ps)
      requires forall k :: 0 <= k < |ps| ==> ps[k].remote == remotes[k]
      requires |costs0| == |ps| && forall k :: 0 <= k < |ps| ==> ps[k].costToRoot == costs0[k]
      requires Holds(fp, bests0)
      modifies portSet`role, portSet`status, portSet`costToRoot, fp`best
      ensures out == SendLoop(best.value, id, ps, remotes, bests0, |ps|)
      ensures Holds(fp, out.bests)
      ensures
        var nums := Nums(ps);
        var costs := CandidateCosts(best.value, id, ps);
        Promoted(ps, out.designated, RootIndex(nums, costs, out.designated),
                 RootChoice(nums, costs, out.designated), costs0)
      ensures SettledPorts(ps)
    {
      var rootPorts;
      rootPorts, out := OfferLoop(ps, remotes, portSet, fp, bests0);
      ghost var costs := CandidateCosts(best.value, id, ps);
      PromoteRootPort(rootPorts, ps, costs, out.designated, portSet, costs0);
      PromotedSettled(ps, out.designated, Nums(ps), costs, costs0);
    }

    /** The facts about the ports, their partners and their stored state
        that SendOver needs, read off the current state. */
    lemma Snapshot(remotes: seq<Port>, fp: set<Port>, bests0: map<Port, Option<Bpdu>>,
                   costs0: seq<Option<nat>>)
      requires Wired() && remotes == RemotesOf(ports) && fp == Footprint() && bests0 == BestsOf(fp)
      requires costs0 == CostsToRoot(ports)
      ensures Linked(ports, remotes, PortSet(), fp, bests0) && Holds(fp, bests0)
      ensures forall k :: 0 <= k < |ports| ==> ports[k].remote == remotes[k]
      ensures |costs0| == |ports| && forall k :: 0 <= k < |ports| ==> ports[k].costToRoot == costs0[k]
    {
    }

    /** sendBPDUs: offer the bridge's candidate on every port in order; a
        port on which getBest keeps the candidate itself becomes designated
        and sends it, the others become undesignated and are bucketed by
        the candidate's cost; then the lowest-numbered port of the cheapest
        bucket, found as the first port carrying that number, becomes the
        root port with that cost. */
    method SendBpdus()
      requires best.Some? && Wired()
      modifies PortSet()`role, PortSet()`status, PortSet()`costToRoot, Footprint()`best
      ensures
        var out := old(SendLoop(best.value, id, ports, RemotesOf(ports), BestsOf(Footprint()), |ports|));
        var nums := Nums(ports);
        var costs := CandidateCosts(best.value, id, ports);
        && Holds(old(Footprint()), out.bests)
        && Promoted(ports, out.designated, RootIndex(nums, costs, out.designated),
                    RootChoice(nums, costs, out.designated), old(CostsToRoot(ports)))
      ensures SettledPorts(ports)
    {
      ghost var ps := ports;
      ghost var remotes := RemotesOf(ports);
      ghost var fp := Footprint();
      ghost var bests0 := BestsOf(fp);
      ghost var portSet := PortSet();
      ghost var costs0 := CostsToRoot(ports);
      Snapshot(remotes, fp, bests0, costs0);
      ghost var out := SendOver(ps, remotes, portSet, fp, bests0, costs0);
    }
  }
}
