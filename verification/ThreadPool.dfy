/** Round-robin choice of an I/O loop (src/EventLoopThreadPool.cc). Loop 0 is the
    base loop; the pool's own loops are numbered from 1.
 */
module ThreadPools {
  type LoopId = nat

  const BASE_LOOP: LoopId := 0

  /** next_ after a pick among n loops. */
  function Advance(next: nat, n: nat): nat { if n <= next + 1 then 0 else next + 1 }

  datatype Picked = Picked(next: nat, picks: seq<nat>)

  /** The positions picked by k calls on a pool of n loops. */
  function Picks(n: nat, k: nat): Picked
  {
    if k == 0 then Picked(0, []) else
      var before := Picks(n, k - 1);
      Picked(Advance(before.next, n), before.picks + [before.next])
  }

  function Count(picks: seq<nat>, j: nat): nat
  {
    if picks == [] then 0
    else Count(picks[..|picks| - 1], j) + (if picks[|picks| - 1] == j then 1 else 0)
  }

  lemma MulAtLeast(n: nat, d: nat)
    requires 1 <= d
    ensures n <= n * d
  {
  }

  lemma QuotientOrder(n: nat, q: nat, r: nat, q': nat, r': nat)
    requires r < n && q < q'
    ensures n * q + r < n * q' + r'
  {
    MulAtLeast(n, q' - q);
    assert n * q' == n * q + n * (q' - q);
  }

  lemma QuotientUnique(n: nat, q: nat, r: nat, q': nat, r': nat)
    requires r < n && r' < n && n * q + r == n * q' + r'
    ensures q == q' && r == r'
  {
    if q < q' {
      QuotientOrder(n, q, r, q', r');
    } else if q' < q {
      QuotientOrder(n, q', r', q, r);
    }
  }

  datatype Turn = Turn(round: nat, position: nat)

  /** k as whole rounds of n picks and a position in the next one. */
  function TurnOf(n: nat, k: nat): (t: Turn)
    requires 0 < n
    ensures t.position < n
  {
    if k == 0 then Turn(0, 0) else
      var t := TurnOf(n, k - 1);
      if t.position + 1 == n then Turn(t.round + 1, 0) else Turn(t.round, t.position + 1)
  }

  lemma {:induction false} TurnIsDivMod(n: nat, k: nat)
    requires 0 < n
    ensures TurnOf(n, k) == Turn(k / n, k % n)
  {
    TurnAdds(n, k);
    QuotientUnique(n, TurnOf(n, k).round, TurnOf(n, k).position, k / n, k % n);
  }

  lemma {:induction false} TurnAdds(n: nat, k: nat)
    requires 0 < n
    ensures n * TurnOf(n, k).round + TurnOf(n, k).position == k
  {
    if k > 0 {
      TurnAdds(n, k - 1);
      var t := TurnOf(n, k - 1);
      assert n * (t.round + 1) == n * t.round + n;
    }
  }

  lemma CountSnoc(picks: seq<nat>, pick: nat, j: nat)
    ensures Count(picks + [pick], j) == Count(picks, j) + (if pick == j then 1 else 0)
  {
    assert (picks + [pick])[..|picks|] == picks;
  }

  lemma {:induction false} PicksByTurn(n: nat, k: nat, j: nat)
    requires j < n
    ensures var p, t := Picks(n, k), TurnOf(n, k);
            p.next == t.position && |p.picks| == k && Count(p.picks, j) == t.round + (if j < t.position then 1 else 0)
  {
    if k > 0 {
      PicksByTurn(n, k - 1, j);
      CountSnoc(Picks(n, k - 1).picks, Picks(n, k - 1).next, j);
    }
  }

  lemma ModSuccessor(k: nat, n: nat)
    requires 0 < n
    ensures (k + 1) % n == Advance(k % n, n)
  {
    TurnIsDivMod(n, k);
    TurnIsDivMod(n, k + 1);
  }

  /** The k-th pick is loop k modulo n, and after k picks every loop has had k / n of
      them, the first k modulo n one more. */
  lemma RoundRobin(n: nat, k: nat, j: nat)
    requires j < n
    ensures Picks(n, k + 1).picks == Picks(n, k).picks + [k % n]
    ensures Picks(n, k).next == k % n && |Picks(n, k).picks| == k
    ensures Count(Picks(n, k).picks, j) == k / n + (if j < k % n then 1 else 0)
  {
    PicksByTurn(n, k, j);
    TurnIsDivMod(n, k);
  }

  /** No loop is ever more than one connection ahead of another. */
  lemma Fair(n: nat, k: nat, i: nat, j: nat)
    requires i < n && j < n
    ensures Count(Picks(n, k).picks, i) <= Count(Picks(n, k).picks, j) + 1
  {
    RoundRobin(n, k, i);
    RoundRobin(n, k, j);
  }

  class EventLoopThreadPool {
    var loops: seq<LoopId>
    var next: nat
    ghost var picked: nat

    ghost predicate Valid()
      reads this
    {
      && (forall i | 0 <= i < |loops| :: loops[i] == i + 1)
      && (if loops == [] then next == 0 else next == picked % |loops|)
    }

    constructor ()
      ensures Valid() && loops == [] && next == 0 && picked == 0
    {
      loops := [];
      next := 0;
      picked := 0;
    }

    /** Creates the I/O loops; called once, before any pick. */
    method Start(numThreads: nat)
      requires Valid() && loops == [] && picked == 0
      modifies this
      ensures Valid() && |loops| == numThreads && next == 0 && picked == 0
    {
      for i := 0 to numThreads
        invariant |loops| == i && next == 0 && picked == 0
        invariant forall k | 0 <= k < |loops| :: loops[k] == k + 1
      {
        loops := loops + [i + 1];
      }
    }

    method GetNextLoop() returns (loop: LoopId)
      requires Valid()
      modifies this`next, this`picked
      ensures Valid() && picked == old(picked) + 1
      ensures loops == [] ==> loop == BASE_LOOP && next == old(next)
      ensures loops != [] ==>
                && old(next) < |loops| && loop == 1 + old(next) && next == Advance(old(next), |loops|)
                && loop == 1 + old(picked) % |loops|
    {
      loop := BASE_LOOP;
      if loops != [] {
        ModSuccessor(picked, |loops|);
        loop := loops[next];
        next := next + 1;
        if |loops| <= next {
          next := 0;
        }
      }
      picked := picked + 1;
    }
  }
}
