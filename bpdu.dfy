/** Bridge Protocol Data Units and the comparator that decides which of two
    BPDUs a port or a bridge keeps (stp_simulator.py, class BPDU). */
module Bpdus {

  datatype Option<T> = None | Some(value: T)

  /** A priority vector: root bridge id, cost to the root, sender bridge id,
      sender port number. Bridge ids are taken as naturals. */
  datatype Bpdu = Bpdu(root: nat, cost: nat, id: nat, port: nat)

  /** True exactly when `b.getBest(other)` returns `b` itself. The four tests
      are the ones the source writes: the third and fourth compare only the
      field next to the one they order, not the whole prefix. Absent
      BPDUs always lose, an equal copy never does. */
  predicate SelfWins(b: Bpdu, other: Option<Bpdu>): (w: bool)
    ensures other.None? ==> w
    ensures other == Some(b) ==> !w
  {
    match other
    case None => true
    case Some(o) =>
      || b.root < o.root
      || (b.root == o.root && b.cost < o.cost)
      || (b.cost == o.cost && b.id < o.id)
      || (b.id == o.id && b.port < o.port)
  }

  /** `b.getBest(other)`: the BPDU to believe, always one of the two operands. */
  function GetBest(b: Bpdu, other: Option<Bpdu>): (r: Bpdu)
    ensures r == b || other == Some(r)
    ensures other.None? ==> r == b
  {
    if SelfWins(b, other) then b else other.value
  }

  /** The precedence the comparator's documentation describes: lower root,
      then lower cost, then lower sender id, then lower port, each level used
      only when all higher levels tie. */
  predicate LexLess(a: Bpdu, b: Bpdu)
  {
    || a.root < b.root
    || (a.root == b.root && a.cost < b.cost)
    || (a.root == b.root && a.cost == b.cost && a.id < b.id)
    || (a.root == b.root && a.cost == b.cost && a.id == b.id && a.port < b.port)
  }

  /** The cases in which the adjacent-field tests pick `b` although `b` is
      worse than `o` in the documented order. */
  predicate Anomaly(b: Bpdu, o: Bpdu)
  {
    && LexLess(o, b)
    && ((b.cost == o.cost && b.id < o.id) || (b.id == o.id && b.port < o.port))
  }

  // ---------------------------------------------------------------------
  // What getBest decides

  /** Each precedence level, as the source tests it, and the tie rule. */
  lemma GetBestPrecedence(b: Bpdu, o: Bpdu)
    ensures b.root < o.root ==> GetBest(b, Some(o)) == b
    ensures b.root == o.root && b.cost < o.cost ==> GetBest(b, Some(o)) == b
    ensures b.cost == o.cost && b.id < o.id ==> GetBest(b, Some(o)) == b
    ensures b.id == o.id && b.port < o.port ==> GetBest(b, Some(o)) == b
    ensures b == o ==> !SelfWins(b, Some(o))
  {
  }

  /** Returning the operand equal in value to `b` is not the same as returning
      `b`: the identity test of the source differs from value equality
      exactly on the tie. */
  lemma ValueVersusIdentity(b: Bpdu, o: Bpdu)
    ensures GetBest(b, Some(o)) == b <==> SelfWins(b, Some(o)) || b == o
  {
  }

  /** The lexicographic order is a strict total order. */
  lemma LexStrictTotalOrder(a: Bpdu, b: Bpdu, c: Bpdu)
    ensures !LexLess(a, a)
    ensures LexLess(a, b) ==> !LexLess(b, a)
    ensures a != b ==> LexLess(a, b) || LexLess(b, a)
    ensures LexLess(a, b) && LexLess(b, c) ==> LexLess(a, c)
  {
  }

  /** Everything the documented order prefers, getBest prefers too; beyond
      that it prefers `b` exactly in the anomalous cases. */
  lemma SelfWinsCharacterised(b: Bpdu, o: Bpdu)
    ensures LexLess(b, o) ==> SelfWins(b, Some(o))
    ensures SelfWins(b, Some(o)) <==> LexLess(b, o) || Anomaly(b, o)
  {
  }

  /** When root and cost tie, getBest agrees with the documented order. */
  lemma SameRootAndCostAgree(b: Bpdu, o: Bpdu)
    requires b.root == o.root && b.cost == o.cost
    ensures SelfWins(b, Some(o)) <==> LexLess(b, o)
  {
  }

  /** getBest is connected: of two different BPDUs one always wins when
      offered first. */
  lemma SelfWinsConnected(b: Bpdu, o: Bpdu)
    requires b != o
    ensures SelfWins(b, Some(o)) || SelfWins(o, Some(b))
  {
    LexStrictTotalOrder(b, o, o);
    SelfWinsCharacterised(b, o);
    SelfWinsCharacterised(o, b);
  }

  /** getBest is not argument-order independent: two BPDUs can each win when
      offered first, so the result depends on which object is `self`. */
  lemma GetBestOrderDependent()
    ensures exists b: Bpdu, o: Bpdu :: SelfWins(b, Some(o)) && SelfWins(o, Some(b)) && b != o
  {
    var b := Bpdu(5, 10, 1, 0);
    var o := Bpdu(3, 10, 2, 0);
    assert SelfWins(b, Some(o)) && SelfWins(o, Some(b)) && b != o;
  }

  /** The relation "getBest keeps the first operand" is not transitive. */
  lemma SelfWinsNotTransitive()
    ensures exists a: Bpdu, b: Bpdu, c: Bpdu ::
      SelfWins(a, Some(b)) && SelfWins(b, Some(c)) && !SelfWins(a, Some(c))
  {
    var a := Bpdu(5, 10, 1, 0);
    var b := Bpdu(3, 10, 2, 0);
    var c := Bpdu(4, 0, 0, 0);
    assert SelfWins(a, Some(b)) && SelfWins(b, Some(c)) && !SelfWins(a, Some(c));
  }

  // ---------------------------------------------------------------------
  // Storing a BPDU on a port (Port.receiveBPDU / Port.sendBPDU)

  /** The value a port stores after being handed `m`: `m` when nothing was
      stored, otherwise `stored.getBest(m)`. */
  function Merge(stored: Option<Bpdu>, m: Bpdu): (r: Bpdu)
    ensures r == m || stored == Some(r)
  {
    if stored.None? then m else GetBest(stored.value, Some(m))
  }

  /** Handing a port the same BPDU twice stores what handing it once does. */
  lemma MergeIdempotent(stored: Option<Bpdu>, m: Bpdu)
    ensures Merge(Some(Merge(stored, m)), m) == Merge(stored, m)
  {
  }

  /** A stored BPDU never gets worse in the documented order: it is kept or
      replaced by one that is lexicographically no greater. */
  lemma MergeNeverWorse(x: Bpdu, m: Bpdu)
    ensures Merge(Some(x), m) == x || LexLess(m, x)
  {
    if Merge(Some(x), m) != x {
      SelfWinsCharacterised(x, m);
      LexStrictTotalOrder(x, m, m);
    }
  }

  /** The comparator can refuse an improvement: a stored BPDU can survive an
      incoming one that is better in the documented order. */
  lemma MergeCanKeepWorse()
    ensures exists x: Bpdu, m: Bpdu :: LexLess(m, x) && Merge(Some(x), m) == x
  {
    var x := Bpdu(5, 10, 1, 0);
    var m := Bpdu(3, 10, 2, 0);
    assert LexLess(m, x) && Merge(Some(x), m) == x;
  }

  // ---------------------------------------------------------------------
  // Folding the comparator over stored BPDUs (Bridge.findBestBPDU)

  /** `acc`, then `acc := acc.getBest(s)` for each `s` of `stored` in order. */
  function FoldBest(acc: Bpdu, stored: seq<Option<Bpdu>>): (r: Bpdu)
    ensures r == acc || Some(r) in stored
    decreases |stored|
  {
    if stored == [] then acc else FoldBest(GetBest(acc, stored[0]), stored[1..])
  }

  /** The BPDUs a fold starts from or may meet. */
  function FoldInputs(acc: Bpdu, stored: seq<Option<Bpdu>>): set<Bpdu>
  {
    {acc} + set k | 0 <= k < |stored| && stored[k].Some? :: stored[k].value
  }

  /** The fold never ends lexicographically above its starting value. */
  lemma {:induction false} FoldBestNeverWorse(acc: Bpdu, stored: seq<Option<Bpdu>>)
    ensures FoldBest(acc, stored) == acc || LexLess(FoldBest(acc, stored), acc)
    decreases |stored|
  {
    if stored != [] {
      var next := GetBest(acc, stored[0]);
      FoldBestNeverWorse(next, stored[1..]);
      if stored[0].Some? {
        MergeNeverWorse(acc, stored[0].value);
      }
      var r := FoldBest(next, stored[1..]);
      LexStrictTotalOrder(r, next, acc);
    }
  }

  /** When getBest agrees with the documented order on every pair the fold
      can meet, the fold returns the lexicographic minimum of them. */
  lemma {:induction false} FoldBestIsLexMin(acc: Bpdu, stored: seq<Option<Bpdu>>)
    requires forall x, y :: x in FoldInputs(acc, stored) && y in FoldInputs(acc, stored) ==>
               (SelfWins(x, Some(y)) <==> LexLess(x, y))
    ensures FoldBest(acc, stored) in FoldInputs(acc, stored)
    ensures forall x :: x in FoldInputs(acc, stored) ==>
              x == FoldBest(acc, stored) || LexLess(FoldBest(acc, stored), x)
    decreases |stored|
  {
    if stored != [] {
      var next := GetBest(acc, stored[0]);
      var rest := stored[1..];
      assert FoldInputs(next, rest) <= FoldInputs(acc, stored) by {
        forall k | 0 <= k < |rest| && rest[k].Some?
          ensures rest[k].value in FoldInputs(acc, stored)
        {
          assert rest[k] == stored[k + 1];
        }
      }
      FoldBestIsLexMin(next, rest);
      var r := FoldBest(next, rest);
      // `next` is the lexicographic minimum of `acc` and `stored[0]`.
      assert next == acc || LexLess(next, acc) by {
        if stored[0].Some? { MergeNeverWorse(acc, stored[0].value); }
      }
      assert stored[0].Some? ==> next == stored[0].value || LexLess(next, stored[0].value) by {
        if stored[0].Some? {
          var o := stored[0].value;
          assert o in FoldInputs(acc, stored);
          LexStrictTotalOrder(acc, o, o);
        }
      }
      forall x | x in FoldInputs(acc, stored)
        ensures x == r || LexLess(r, x)
      {
        if x == acc {
          LexStrictTotalOrder(r, next, acc);
        } else if stored[0] == Some(x) {
          LexStrictTotalOrder(r, next, x);
        } else {
          var k :| 0 <= k < |stored| && stored[k].Some? && stored[k].value == x;
          assert rest[k - 1] == stored[k];
          assert x in FoldInputs(next, rest);
        }
      }
    }
  }
}
