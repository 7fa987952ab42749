# Spanning Tree Protocol simulator — a Dafny model of its core

`stp_simulator.py` simulates a simplified Spanning Tree Protocol on a
network of bridges (switches) joined by point-to-point links. Each bridge
boots believing it is the root, then runs rounds. In each round every bridge
first folds the BPDUs stored on its ports into the best one it knows
(`findBestBPDU`). Then every bridge offers each port a BPDU built from that
best one (`sendBPDUs`):

- A port where the offer wins becomes Designated, stores the offer and hands
  it to its link partner.
- The other ports become Undesignated and are grouped by the cost of their
  offer.
- The lowest-numbered port of the cheapest group becomes the Root Port.

This project models that core in four modules, one per class of the source,
and proves what each step promises.

- `bpdu.dfy` (module `Bpdus`, class `BPDU`). It covers `getBest` exactly as
  written:
  - four tests, the last two comparing only the field next to the one they
    order;
  - on a full tie it returns the other operand.

  It is compared with the lexicographic order the method's docstring
  describes. The model proves that the two agree except in a named set of
  anomalous cases, and that `getBest` is not order-independent and not
  transitive. It then proves what storing a BPDU on a port and folding
  `getBest` over a bridge's ports do.
- `port.dfy` (module `Ports`, class `Port`). A port is a class whose fields
  the methods update: `resetSTP`, `setRemote`, `sendBPDU`, `receiveBPDU`,
  `setRole` and `ROLE_STATUS_MAP`.
- `bridge.dfy` (module `Bridges`, class `Bridge`). It covers `boot`,
  `findBestBPDU` and `sendBPDUs` as imperative methods over the bridge's ports.
  - `sendBPDUs` is proved against functions of the state it starts from:
    - the first loop, port by port (`SendStep`, `SendLoop`);
    - the `root_ports` dictionary it builds (`Buckets`);
    - the root-port choice (`RootChoice`, `RootIndex`).
  - Lemmas prove that reading the dictionary as the source does (least key,
    then least number in its list) is exactly that choice.
  - `boot` leaves a bridge settled, and `findBestBPDU` and `sendBPDUs` keep it
    settled. A settled bridge believes in a root whose id is no higher than its
    own, its statuses follow its roles, it has at most one root port, and that
    root port holds a cost to the root. The root bound holds because getBest
    never returns a BPDU with a higher root than `self`.
- `network.dfy` (module `Networks`, class `Network`). It covers `COST_MAP`,
  `getBridge` (get-or-create on an insertion-ordered dictionary), `connect`,
  and the simulation driver of the main block. The driver boots every bridge,
  then runs rounds of `findBestBPDU` on every bridge followed by `sendBPDUs`
  on every bridge. The network keeps its bookkeeping (`Valid`):
  - the id order lists the keys;
  - each bridge is stored under its own id;
  - each port of a bridge is recorded as owned by that bridge alone, and its
    partner is recorded as owned too;
  - every bridge's ports are distinct and linked.

  The driver proves that boot leaves every bridge with its own BPDU, the
  root flag set and every port cleared. It also proves that every bridge is
  settled after boot and after every round. Each bridge's `sendBPDUs` writes
  only its own ports and their partners.

Behaviour of the source that the model keeps, and proves:

- **The comparator is not the documented order.** `getBest` prefers `self`
  when the costs tie and the sender id is lower, even if the root is worse.
  The same holds when the sender ids tie and the port is lower
  (`SelfWinsCharacterised`, `Anomaly`). A stored BPDU can therefore survive a
  better incoming one (`MergeCanKeepWorse`).
- **The designation test is an identity test.**
  - `my_bpdu.getBest(p.best_bpdu) == my_bpdu` compares objects. `BPDU`
    defines no equality, and the candidate is a fresh object.
  - A stored BPDU equal in value to the candidate therefore makes the port
    undesignated (`ValueVersusIdentity`).
  - The candidate carries port 0 until it is sent. So on the next round it
    beats its own stored copy only when the port's number is not 0
    (`CandidateBeatsOwnCopy`).
- **The root port is found by number.** The last loop of `sendBPDUs` stops
  at the first port carrying the chosen number, whatever that port's role
  (`FindPort`, `FirstIndexOf`). When port numbers are distinct, that port is
  an undesignated one of least cost (`RootIndexUndesignated`).
- **BPDUs are values.** The source never changes a BPDU object after it is
  sent, so sharing one object between ports is modelled as sharing a value.

## Model

| member | source | states |
|---|---|---|
| `Bpdus.SelfWins` | stp_simulator.py:61-72 | the four tests as written decide whether `self` is returned; an absent BPDU always loses to `self`, and an equal copy never does |
| `Bpdus.GetBest` | stp_simulator.py:47-72 | the result is always one of the two operands, and `self` when there is no other BPDU |
| `Bpdus.GetBestPrecedence` | stp_simulator.py:61-72 | each of the four tests, as written, makes `self` win; on a full tie `self` does not win |
| `Bpdus.ValueVersusIdentity` | stp_simulator.py:172 | getBest returns a BPDU equal in value to `self` exactly when `self` wins or the two are equal, so value equality and the source's identity test differ exactly on the tie |
| `Bpdus.LexStrictTotalOrder` | stp_simulator.py:48-59 | the order the docstring describes (root, then cost, then sender id, then port) is irreflexive, asymmetric, total and transitive |
| `Bpdus.SelfWinsCharacterised` | stp_simulator.py:61-72 | getBest keeps `self` exactly when `self` is lexicographically smaller or the case is one of the anomalies; everything the documented order prefers, getBest prefers too |
| `Bpdus.SameRootAndCostAgree` | stp_simulator.py:67-70 | when root and cost tie, getBest agrees with the documented order |
| `Bpdus.SelfWinsConnected` | stp_simulator.py:61-72 | of two different BPDUs, at least one wins when it is `self` |
| `Bpdus.GetBestOrderDependent` | stp_simulator.py:61-72 | there are two different BPDUs each of which wins when it is `self` |
| `Bpdus.SelfWinsNotTransitive` | stp_simulator.py:61-72 | "keeps `self`" is not transitive |
| `Bpdus.Merge` | stp_simulator.py:113 | the value a port stores when handed `m`: either `m` or what was stored before |
| `Bpdus.MergeIdempotent` | stp_simulator.py:112-117 | handing a port the same BPDU twice stores what handing it once does; `Port.SendBpdu` uses it for a port that is its own partner, which `connect` never builds |
| `Bpdus.MergeNeverWorse` | stp_simulator.py:117 | the stored BPDU is either kept or replaced by a lexicographically smaller one |
| `Bpdus.MergeCanKeepWorse` | stp_simulator.py:117 | a stored BPDU can survive an incoming one that is lexicographically smaller |
| `Bpdus.FoldBest` | stp_simulator.py:201-202 | folding getBest over the stored BPDUs ends on the starting BPDU or on one of the stored ones |
| `Bpdus.FoldBestNeverWorse` | stp_simulator.py:201-202 | the fold never ends lexicographically above where it started |
| `Bpdus.FoldBestIsLexMin` | stp_simulator.py:196-203 | when getBest agrees with the documented order on all the BPDUs involved, the fold returns their lexicographic minimum |
| `Ports.RoleStatus` | stp_simulator.py:91-95 | a port forwards exactly when its role is not Undesignated |
| `Ports.Port.constructor` | stp_simulator.py:97-101 | a new port has its number and cost, no partner, and cleared STP data |
| `Ports.Port.ResetStp` | stp_simulator.py:103-107 | no stored BPDU, Undesignated, Blocked, no cost to the root |
| `Ports.Port.SetRemote` | stp_simulator.py:109-110 | the partner is the given port; nothing else changes |
| `Ports.Port.ReceiveBpdu` | stp_simulator.py:116-117 | the stored BPDU becomes the merge of the old one with `m`; nothing else changes |
| `Ports.Port.SendBpdu` | stp_simulator.py:112-114 | both this port and its partner store the merge of what each held with `m`; the contract also covers a port that is its own partner, which `connect` never builds |
| `Ports.Port.SetRole` | stp_simulator.py:119-121 | the role is set and the status follows it |
| `Bridges.SetMin` | stp_simulator.py:187 | the least key of the dictionary, an element no greater than any other |
| `Bridges.SeqMin` | stp_simulator.py:188 | the least number of a non-empty list, an element no greater than any other |
| `Bridges.Candidate` | stp_simulator.py:165-168 | the offered BPDU names the bridge's root and the bridge itself, with port 0; a bridge that believes itself root offers its boot BPDU (id, 0, id, 0), any other bridge its cost plus the link's |
| `Bridges.CandidateBeatsOwnCopy` | stp_simulator.py:165-174 | a candidate beats its own earlier copy stored on the port exactly when the port's number is not 0 |
| `Bridges.SendStep` | stp_simulator.py:164-182 | one port's outcome is appended: designated exactly when getBest keeps the candidate; the ports reachable stay the same |
| `Bridges.SendStepBests` | stp_simulator.py:172-174 | a designated port and its partner store the merge with the numbered candidate; every other port keeps what it had |
| `Bridges.SendLoop` | stp_simulator.py:164-182 | after `n` ports there are `n` outcomes, over the same ports |
| `Bridges.SendLoopNext` | stp_simulator.py:164 | one more iteration of the loop is one more step over the next port |
| `Bridges.Buckets` | stp_simulator.py:163-182 | the dictionary is empty exactly when every port became designated, and every cost it holds lists at least one port, so both `min` calls are defined |
| `Bridges.BucketsHold` | stp_simulator.py:163-182 | the dictionary has a cost exactly when an undesignated port's candidate has it, and lists under it exactly those ports' numbers |
| `Bridges.RootChoice` | stp_simulator.py:184-188 | no choice exactly when every port became designated; otherwise an undesignated port of least cost, with the least number at that cost |
| `Bridges.RootChoiceUnique` | stp_simulator.py:184-188 | at most one (cost, number) pair meets that description |
| `Bridges.BucketsChoose` | stp_simulator.py:185-188 | the dictionary is empty exactly when there is no choice; otherwise its least key and the least number under it are the choice |
| `Bridges.FirstIndexOf` | stp_simulator.py:190-194 | the first position carrying the number: it carries it and no earlier one does |
| `Bridges.RootIndex` | stp_simulator.py:184-194 | the root-port position exists exactly when some port is undesignated, and carries the chosen number |
| `Bridges.RootIndexUndesignated` | stp_simulator.py:178-194 | with distinct port numbers the root port is undesignated, of least candidate cost, and lowest-numbered among those |
| `Bridges.RootPortsApart` | stp_simulator.py:184-194 | in a settled bridge two root-port positions are the same position |
| `Bridges.PromotedSettled` | stp_simulator.py:184-194 | the ports sendBPDUs leaves behind are settled: statuses follow roles, at most one root port, and it holds a cost |
| `Bridges.FindPort` | stp_simulator.py:190-194 | the loop stops at the first port carrying the number |
| `Bridges.Offer` | stp_simulator.py:172-182 | sends exactly when getBest keeps the candidate; what the port and its partner store; the role and status set |
| `Bridges.Bridge.constructor` | stp_simulator.py:129-132 | a new bridge has its id, no ports and no BPDU |
| `Bridges.Bridge.Boot` | stp_simulator.py:134-146 | the best BPDU is (id, 0, id, 0), the bridge is root, every port is cleared, and the bridge is settled |
| `Bridges.Bridge.AddPort` | stp_simulator.py:254-255 | the port is appended and the ports stay distinct and linked |
| `Bridges.Bridge.FindBestBpdu` | stp_simulator.py:196-203 | the best BPDU is the fold of getBest over the stored BPDUs from the old best; the root flag holds exactly when it names this bridge; the root it names is no higher than before; a settled bridge stays settled |
| `Bridges.Bridge.OfferLoop` | stp_simulator.py:164-182 | after the first loop every reachable port stores what `SendLoop` says, every port has the role of its outcome with the status following, and the dictionary is `Buckets` of the outcomes |
| `Bridges.Bridge.PromoteRootPort` | stp_simulator.py:184-194 | only the chosen position becomes the root port, with the least cost; every other port keeps its role and cost |
| `Bridges.Bridge.SendBpdus` | stp_simulator.py:150-194 | every port reachable stores what `SendLoop` says; every port has the role of its outcome, except the `RootIndex` position, which is the root port with the chosen cost; the bridge is settled |
| `Networks.CostMapFasterIsCheaper` | stp_simulator.py:229-234 | a faster known link costs strictly less |
| `Networks.NewLink` | stp_simulator.py:250-253 | two new ports with the given numbers and the cost, cleared, each the other's partner |
| `Networks.Network.constructor` | stp_simulator.py:236-237 | no bridges, and the bookkeeping holds |
| `Networks.Network.GetBridge` | stp_simulator.py:239-244 | an existing id returns its bridge and changes nothing; a new id inserts a fresh bridge under it, appended to the order; the bookkeeping holds |
| `Networks.Network.Attach` | stp_simulator.py:254-255 | each new port is appended to its bridge (both to one bridge when they are the same) and the bookkeeping holds |
| `Networks.Network.Connect` | stp_simulator.py:249-255 | fails, changing nothing, exactly when the speed is not a key of COST_MAP; otherwise two fresh, cleared, mutually linked ports with that cost are appended |
| `Networks.Network.BootOne` | stp_simulator.py:364-365 | booting one bridge gives it the best BPDU (id, 0, id, 0), sets its root flag and clears its ports; it and every bridge booted before are settled and as boot left them |
| `Networks.Network.BootAll` | stp_simulator.py:363-365 | after booting every bridge in insertion order, every bridge has its own BPDU (id, 0, id, 0), its root flag set and every port cleared, and is settled |
| `Networks.Network.FindOne` | stp_simulator.py:371-372 | that bridge's best BPDU is the fold over its ports, and every bridge stays settled |
| `Networks.Network.FindAll` | stp_simulator.py:371-372 | every bridge stays settled, and no port is written |
| `Networks.Network.SendOne` | stp_simulator.py:373-374 | one bridge's sendBPDUs writes only the roles, statuses and costs to the root of its own ports and the stored BPDUs of its ports and their partners; every bridge stays settled |
| `Networks.Network.SendAll` | stp_simulator.py:373-374 | every bridge stays settled, and no bridge's best BPDU or root flag changes |
| `Networks.Network.Simulate` | stp_simulator.py:363-374 | after boot and any number of rounds, the bookkeeping holds and every bridge is settled, so believes in a root no higher than itself; with no rounds every bridge is as boot left it |

## Left out

- Reading the network from a DOT file (`buildNetworkFromDOT`), the
  commented-out YAML builder, the command line, logging, `reportSTP` and the
  `__str__` methods. These are input, output and presentation.
- Bridge ids are naturals. The DOT loader, which is not part of this model,
  computes each id as the integer priority plus the MAC address read as an
  integer (stp_simulator.py:299-301). That is a natural whenever the priority
  is not negative.
- Port numbers and link speeds are naturals. The loader reads them with
  `int()` (stp_simulator.py:309-315), which also accepts negative numbers.
- The `root` attribute is created by `boot` and not by `Bridge()`. The model
  starts it at false.
- `findBestBPDU` and `sendBPDUs` fail in the source on a bridge that was
  never booted, because `best_bpdu` is `None`. The model requires a best
  BPDU, which the driver always provides.
- `connect` raises `KeyError` for an unknown speed. The model returns
  `ok == false` before changing anything.
- `connect` accepts any objects. The model requires both bridges to be ones
  the network holds, as they are when they come from `getBridge`.
- Networks.Network.FindAll: does not state each bridge's resulting BPDU at the
  network level. That result is the contract of `FindOne` and
  `Bridge.FindBestBpdu`. The loop's modifies clause shows that no port changes
  during it, so the order of the bridges does not matter.
- Networks.Network.SendAll: does not state the BPDUs and roles a whole round
  leaves behind across bridges. Each bridge's `sendBPDUs` changes what later
  bridges read, and `Bridge.SendBpdus` states each bridge's effect. At the
  network level the model proves only that every bridge stays settled.
- Networks.Network.SendOne: does not carry `Bridge.SendBpdus`' statement of
  what each port stores and which role it takes up to the network level.
  Restating it there, beside the proof that every other bridge stays
  settled, exceeds the verifier's resource limit. SendOne states the frame
  `SendBpdus` writes and that every bridge stays settled.
- Networks.Network.Simulate: does not state the BPDUs, roles or root ports
  that boot and a number of rounds leave behind. It states only that:
  - the bookkeeping holds;
  - every bridge is settled, and so believes in a root no higher than
    itself;
  - with no rounds, every bridge is as boot left it.
- Convergence of the simulation to a spanning tree is not claimed. The
  comparator anomalies above show that the source does not guarantee it.
