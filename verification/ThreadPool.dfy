/** `EventLoopThreadPool`: round-robin choice of an I/O loop. */
module ThreadPool {

  /** The index after `next` among `n` loops. */
  function After(next: nat, n: nat): nat {
    if next + 1 >= n then 0 else next + 1
  }

  /** The index `getNextLoop` starts from after `k` calls. */
  function Cursor(k: nat, n: nat): nat {
    if k == 0 then 0 else After(Cursor(k - 1, n), n)
  }

  /** The k-th call (counting from 0) picks loop `k mod n`. */
  lemma {:induction false} CursorIsModulo(k: nat, n: nat)
    requires n > 0
    ensures Cursor(k, n) == k % n
  {
    if k > 0 {
      CursorIsModulo(k - 1, n);
      NextModulo(k - 1, n);
    }
  }

  lemma NextModulo(k: nat, n: nat)
    requires n > 0
    ensures After(k % n, n) == (k + 1) % n
    ensures (k + 1) / n == k / n + (if k % n + 1 == n then 1 else 0)
  {
    var q, r := k / n, k % n;
    assert k + 1 == n * q + (r + 1);
    if r + 1 == n {
      assert k + 1 == n * (q + 1);
      DivModUnique(k + 1, n, q + 1, 0);
    } else {
      DivModUnique(k + 1, n, q, r + 1);
    }
  }

  lemma DivModUnique(k: nat, n: nat, q: nat, r: nat)
    requires n > 0 && k == n * q + r && r < n
    ensures k / n == q && k % n == r
  {
    assert k == n * (k / n) + k % n;
    if q < k / n { Spread(n, q, k / n); }
    if k / n < q { Spread(n, k / n, q); }
  }

  lemma Spread(n: nat, q: nat, q': nat)
    requires q < q'
    ensures n * q + n <= n * q'
  {
    assert n * q' == n * q + n * (q' - q);
    assert n * (q' - q) == n + n * (q' - q - 1);
  }

  /** How many of the first `k` calls picked loop `i`. */
  function Picks(k: nat, n: nat, i: nat): nat {
    if k == 0 then 0 else Picks(k - 1, n, i) + (if Cursor(k - 1, n) == i then 1 else 0)
  }

  /** After any number of calls each loop was picked `k / n` times, or once more if it
      comes early in the current round: counts never differ by more than one. */
  lemma {:induction false} PicksAreFair(k: nat, n: nat, i: nat)
    requires i < n
    ensures Picks(k, n, i) == k / n + (if i < k % n then 1 else 0)
  {
    if k > 0 {
      PicksAreFair(k - 1, n, i);
      CursorIsModulo(k - 1, n);
      NextModulo(k - 1, n);
    } else {
      DivModUnique(0, n, 0, 0);
    }
  }

  /** The pool on the base loop. Loops are identified by `L`. */
  class EventLoopThreadPool<L(==, 0)> {
    const baseLoop: L
    var started: bool
    var numThreads: nat
    var next: nat
    var loops: seq<L>
    ghost var calls: nat  // how often getNextLoop ran since start

    ghost predicate Valid()
      reads this
    {
      next == Cursor(calls, |loops|) && (!started ==> loops == [] && calls == 0)
    }

    constructor (base: L)
      ensures Valid() && baseLoop == base && !started && numThreads == 0
    {
      baseLoop, started, numThreads, next, loops, calls := base, false, 0, 0, [], 0;
    }

    method SetThreadNum(n: nat)
      requires Valid()
      modifies `numThreads
      ensures Valid() && numThreads == n
    {
      numThreads := n;
    }

    /** Starts `numThreads` threads; `threads[i]` is the loop the i-th one hands back. */
    method Start(threads: seq<L>)
      requires Valid() && !started && |threads| == numThreads
      modifies this
      ensures Valid() && started && loops == threads && calls == 0 && numThreads == old(numThreads)
    {
      started := true;
      for i := 0 to numThreads
        invariant loops == threads[..i] && started && next == 0 && calls == 0 && numThreads == |threads|
      {
        loops := loops + [threads[i]];
      }
    }

    /** `getNextLoop`: the loops in turn, or the base loop when there are none. */
    method GetNextLoop() returns (loop: L)
      requires Valid() && started
      modifies `next, `calls
      ensures Valid() && calls == old(calls) + 1
      ensures loop == if loops == [] then baseLoop else loops[old(calls) % |loops|]
    {
      loop := baseLoop;
      ghost var k := calls;
      if loops != [] {
        CursorIsModulo(k, |loops|);
        loop := loops[next];
        next := next + 1;
        if next >= |loops| {
          next := 0;
        }
      }
      calls := calls + 1;
    }
  }
}
