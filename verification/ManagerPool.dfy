/** ManagerPool.cpp: handing the sub-loops out in turn. */
module ManagerPools {

  type LoopId = nat

  /** The position after one call. */
  function Advance(next: nat, k: nat): nat {
    if next + 1 >= k then 0 else next + 1
  }

  /** How often position j is chosen in m calls on k loops, starting at `next`. */
  function Chosen(next: nat, k: nat, m: nat, j: nat): nat
    decreases m
  {
    if m == 0 then 0 else (if next == j then 1 else 0) + Chosen(Advance(next, k), k, m - 1, j)
  }

  /** How many calls pass before position j's turn. */
  function Offset(next: nat, k: nat, j: nat): int {
    if j >= next then j - next else j - next + k
  }

  lemma DivStep(m: nat, k: nat)
    requires k > 0
    ensures if m % k == k - 1 then (m + 1) / k == m / k + 1 && (m + 1) % k == 0
            else (m + 1) / k == m / k && (m + 1) % k == m % k + 1
  {
    var q, r := m / k, m % k;
    assert m + 1 == k * q + r + 1;
    if r == k - 1 {
      assert m + 1 == k * (q + 1);
      DivUnique(m + 1, k, q + 1, 0);
    } else {
      DivUnique(m + 1, k, q, r + 1);
    }
  }

  lemma DivUnique(n: int, k: int, q: int, r: int)
    requires 0 <= r < k && n == k * q + r
    ensures n / k == q && n % k == r
  {
    var d := n / k - q;
    assert k * (n / k) + n % k == n;
    assert k * d == r - n % k;
    assert d >= 1 ==> k * d >= k;
    assert d <= -1 ==> k * d <= -k;
  }

  /** After m calls every loop has been chosen m / k times, and the first m % k in turn once more. */
  lemma {:induction false} FairShares(next: nat, k: nat, m: nat, j: nat)
    requires next < k && j < k
    ensures Chosen(next, k, m, j) == m / k + (if Offset(next, k, j) < m % k then 1 else 0)
    decreases m
  {
    if m > 0 {
      FairShares(Advance(next, k), k, m - 1, j);
      DivStep(m - 1, k);
    } else {
      assert 0 / k == 0 && 0 % k == 0 by { DivUnique(0, k, 0, 0); }
    }
  }

  /** So any two loops' shares differ by at most one. */
  lemma SharesDifferByOne(next: nat, k: nat, m: nat, i: nat, j: nat)
    requires next < k && i < k && j < k
    ensures -1 <= Chosen(next, k, m, i) - Chosen(next, k, m, j) <= 1
  {
    FairShares(next, k, m, i);
    FairShares(next, k, m, j);
  }

  class ManagerPool {
    const baseLoop: LoopId
    var loops: seq<LoopId>
    var threadsNum: int
    var nextLoop: nat
    var started: bool

    ghost predicate Valid()
      reads this
    {
      if loops == [] then nextLoop == 0 else nextLoop < |loops|
    }

    constructor (baseLoop: LoopId)
      ensures Valid() && this.baseLoop == baseLoop && loops == [] && nextLoop == 0 && threadsNum == 0 && !started
    {
      this.baseLoop := baseLoop;
      loops, threadsNum, nextLoop, started := [], 0, 0, false;
    }

    method SetThreadNum(num: int)
      modifies this`threadsNum
      ensures threadsNum == num
    {
      threadsNum := num;
    }

    /** `newLoops` are the loops the new threads create. A negative number creates none. */
    method Start(newLoops: seq<LoopId>)
      requires Valid() && |newLoops| == (if threadsNum < 0 then 0 else threadsNum)
      modifies this`loops, this`started
      ensures Valid() && started && loops == old(loops) + newLoops
    {
      started := true;
      var i := 0;
      while i < threadsNum
        invariant 0 <= i <= |newLoops|
        invariant Valid() && started && loops == old(loops) + newLoops[..i]
      {
        loops := loops + [newLoops[i]];
        i := i + 1;
        assert newLoops[..i] == newLoops[..i - 1] + [newLoops[i - 1]];
      }
      assert newLoops[..i] == newLoops;
    }

    /** The loop at the present position, which then advances; or the base loop if there is no other. */
    method GetNextLoop() returns (loop: LoopId)
      requires Valid()
      modifies this`nextLoop
      ensures Valid()
      ensures loops == [] ==> loop == baseLoop && nextLoop == old(nextLoop)
      ensures loops != [] ==> loop == loops[old(nextLoop)] && nextLoop == Advance(old(nextLoop), |loops|)
    {
      loop := baseLoop;
      if loops != [] {
        loop := loops[nextLoop];
        nextLoop := nextLoop + 1;
        if nextLoop >= |loops| {
          nextLoop := 0;
        }
      }
    }
  }
}
