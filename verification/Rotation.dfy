/** The round-robin turn of a ready view (sdk/cockpit/auth/scheduler_roundrobin.go) over
    a mask that says which entries the request accepts, and its fairness. */
module Rotation {

  function Position(mask: seq<bool>, start: nat, offset: nat): (k: nat)
    requires start < |mask| && offset < |mask|
    ensures k < |mask|
  {
    if start + offset < |mask| then start + offset else start + offset - |mask|
  }

  /** The first accepted position met from `start` on, wrapping around, after `offset`
      positions have been looked at; the length of the mask when there is none. */
  function Scan(mask: seq<bool>, start: nat, offset: nat): (k: nat)
    requires start < |mask| && offset <= |mask|
    ensures k <= |mask| && (k < |mask| ==> mask[k])
    decreases |mask| - offset
  {
    if offset == |mask| then |mask|
    else
      var index := Position(mask, start, offset);
      if mask[index] then index else Scan(mask, start, offset + 1)
  }

  function Modulo(a: nat, n: nat): (r: nat)
    requires n > 0
    ensures r < n
    ensures a < n ==> r == a
    ensures n <= a < 2 * n ==> r == a - n
  {
    a % n
  }

  function Start(mask: seq<bool>, cursor: nat): (start: nat)
    requires mask != []
    ensures start < |mask|
  {
    Modulo(cursor, |mask|)
  }

  function Turn(mask: seq<bool>, cursor: nat): (k: nat)
    ensures k <= |mask| && (k < |mask| ==> mask[k])
  {
    if mask == [] then 0 else Scan(mask, Start(mask, cursor), 0)
  }

  /** Nothing is returned exactly when nothing is accepted. */
  lemma TurnFails(mask: seq<bool>, cursor: nat)
    ensures Turn(mask, cursor) == |mask| <==> true !in mask
  {
    if mask != [] {
      var start := Start(mask, cursor);
      ScanFails(mask, start, 0);
      if Turn(mask, cursor) == |mask| {
        forall k | 0 <= k < |mask| ensures !mask[k] {
          var d := if k >= start then k - start else k - start + |mask|;
          assert Position(mask, start, d) == k;
        }
      }
    }
  }

  lemma {:induction false} ScanFails(mask: seq<bool>, start: nat, offset: nat)
    requires start < |mask| && offset <= |mask|
    ensures Scan(mask, start, offset) == |mask| ==>
              forall d :: offset <= d < |mask| ==> !mask[Position(mask, start, d)]
    decreases |mask| - offset
  {
    if offset < |mask| {
      ScanFails(mask, start, offset + 1);
    }
  }

  // ----- ranks among the accepted positions

  function Rank(mask: seq<bool>, k: nat): (r: nat)
    requires k <= |mask|
    ensures r <= k
  {
    if k == 0 then 0 else Rank(mask, k - 1) + (if mask[k - 1] then 1 else 0)
  }

  function Accepted(mask: seq<bool>): nat {
    Rank(mask, |mask|)
  }

  lemma {:induction false} RankMonotone(mask: seq<bool>, i: nat, j: nat)
    requires i <= j <= |mask|
    ensures Rank(mask, i) <= Rank(mask, j)
    ensures (forall k :: i <= k < j ==> !mask[k]) ==> Rank(mask, i) == Rank(mask, j)
    decreases j - i
  {
    if i < j { RankMonotone(mask, i, j - 1); }
  }

  lemma RankSeparates(mask: seq<bool>, i: nat, j: nat)
    requires i < |mask| && j < |mask| && mask[i] && mask[j] && Rank(mask, i) == Rank(mask, j)
    ensures i == j
  {
    var low, high := if i < j then i else j, if i < j then j else i;
    if low != high { RankMonotone(mask, low + 1, high); }
  }

  /** Where the scan stands, the rank of the position it returns is the number of
      accepted positions behind it, or zero once it has wrapped. */
  lemma {:induction false} ScanRank(mask: seq<bool>, start: nat, offset: nat)
    requires start < |mask| && offset <= |mask|
    requires forall d :: 0 <= d < offset ==> !mask[Position(mask, start, d)]
    ensures var k := Scan(mask, start, offset);
            k < |mask| ==> Rank(mask, k) == if Rank(mask, start) == Accepted(mask) then 0 else Rank(mask, start)
    decreases |mask| - offset
  {
    if offset < |mask| {
      var k := Position(mask, start, offset);
      if !mask[k] {
        ScanRank(mask, start, offset + 1);
      } else if start + offset < |mask| {
        forall i | start <= i < k ensures !mask[i] { assert Position(mask, start, i - start) == i; }
        RankMonotone(mask, start, k);
        RankMonotone(mask, k + 1, |mask|);
      } else {
        forall i | start <= i < |mask| ensures !mask[i] { assert Position(mask, start, i - start) == i; }
        RankMonotone(mask, start, |mask|);
        forall i | 0 <= i < k ensures !mask[i] { assert Position(mask, start, i + |mask| - start) == i; }
        RankMonotone(mask, 0, k);
      }
    }
  }

  /** The positions that `count` consecutive calls return, each leaving the cursor just
      behind the position it returned. */
  function Turns(mask: seq<bool>, cursor: nat, count: nat): (ks: seq<nat>)
    ensures |ks| == count
    decreases count
  {
    if count == 0 then [] else
      var k := Turn(mask, cursor);
      [k] + Turns(mask, k + 1, count - 1)
  }

  /** The rank of the position whose turn it is. */
  function Behind(mask: seq<bool>, cursor: nat): nat
    requires mask != []
  {
    var r := Rank(mask, Start(mask, cursor));
    if r == Accepted(mask) then 0 else r
  }

  ghost predicate IsNth(mask: seq<bool>, k: nat, r: nat) {
    k < |mask| && mask[k] && Rank(mask, k) == r
  }

  lemma TurnRank(mask: seq<bool>, cursor: nat)
    requires Accepted(mask) > 0
    ensures Behind(mask, cursor) < Accepted(mask)
    ensures IsNth(mask, Turn(mask, cursor), Behind(mask, cursor))
    ensures Behind(mask, Turn(mask, cursor) + 1)
         == if Behind(mask, cursor) + 1 == Accepted(mask) then 0 else Behind(mask, cursor) + 1
  {
    var k := Turn(mask, cursor);
    TurnFails(mask, cursor);
    if true !in mask {
      assert forall i :: 0 <= i < |mask| ==> mask[i] in mask;
      RankMonotone(mask, 0, |mask|);
    }
    RankMonotone(mask, Start(mask, cursor), |mask|);
    ScanRank(mask, Start(mask, cursor), 0);
    RankMonotone(mask, k + 1, |mask|);
  }

  lemma {:induction false} TurnsByRank(mask: seq<bool>, cursor: nat, count: nat, j: nat)
    requires Accepted(mask) > 0 && j < count && j < Accepted(mask)
    ensures var r, m := Behind(mask, cursor), Accepted(mask);
            r < m && IsNth(mask, Turns(mask, cursor, count)[j], if r + j < m then r + j else r + j - m)
    decreases count
  {
    TurnRank(mask, cursor);
    if j > 0 {
      TurnsByRank(mask, Turn(mask, cursor) + 1, count - 1, j - 1);
    }
  }

  /** Fairness: from any cursor, as many consecutive turns as there are accepted
      positions return each accepted position exactly once, and nothing else. */
  lemma Fairness(mask: seq<bool>, cursor: nat)
    requires Accepted(mask) > 0
    ensures var ks := Turns(mask, cursor, Accepted(mask));
            && (forall i, j :: 0 <= i < j < |ks| ==> ks[i] != ks[j])
            && (forall i :: 0 <= i < |ks| ==> ks[i] < |mask| && mask[ks[i]])
            && (forall k :: 0 <= k < |mask| && mask[k] ==> k in ks)
  {
    var m := Accepted(mask);
    var ks := Turns(mask, cursor, m);
    forall i | 0 <= i < m ensures ks[i] < |mask| && mask[ks[i]] {
      TurnsByRank(mask, cursor, m, i);
    }
    forall i, j | 0 <= i < j < m ensures ks[i] != ks[j] {
      TurnsByRank(mask, cursor, m, i);
      TurnsByRank(mask, cursor, m, j);
    }
    forall k | 0 <= k < |mask| && mask[k] ensures k in ks {
      var j := HasItsTurn(mask, cursor, k);
    }
  }

  lemma HasItsTurn(mask: seq<bool>, cursor: nat, k: nat) returns (j: nat)
    requires k < |mask| && mask[k] && Accepted(mask) > 0
    ensures j < Accepted(mask) && Turns(mask, cursor, Accepted(mask))[j] == k
  {
    RankMonotone(mask, k + 1, |mask|);
    TurnRank(mask, cursor);
    var r, s := Behind(mask, cursor), Rank(mask, k);
    j := if s >= r then s - r else s - r + Accepted(mask);
    TurnsByRank(mask, cursor, Accepted(mask), j);
    RankSeparates(mask, k, Turns(mask, cursor, Accepted(mask))[j]);
  }
}
