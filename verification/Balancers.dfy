/**
 The three load balancers of the concurrent message router. A worker is named by its index.
 */
module Balancers {
  import opened GoInts
  import opened Division

  /** What a balancer's index expression does: an empty pool gives nil, a negative index panics. */
  datatype Pick = NoWorker | Worker(index: nat) | Panic

  // ---------------------------------------------------------------- hash

  /** The client id read as a number in base 31, without any machine arithmetic. */
  function Base31(id: seq<byte>): nat {
    if id == [] then 0 else Base31(id[..|id| - 1]) * 31 + id[|id| - 1]
  }

  function Power(base: nat, k: nat): nat {
    if k == 0 then 1 else base * Power(base, k - 1)
  }

  /** The bytes are digits of base 31, the first the most significant. */
  lemma {:induction false} Base31Digits(a: seq<byte>, b: seq<byte>)
    ensures Base31(a + b) == Base31(a) * Power(31, |b|) + Base31(b)
    ensures |a| == 1 ==> Base31(a) == a[0]
  {
    if b == [] {
      assert a + b == a;
    } else {
      var front, x := b[..|b| - 1], b[|b| - 1];
      Base31Digits(a, front);
      assert (a + b)[..|a + b| - 1] == a + front;
      assert 31 * (Base31(a) * Power(31, |front|)) == Base31(a) * Power(31, |b|);
    }
  }

  /** The worker a client is bound to: the absolute truncated remainder of the wrapped number. */
  function HashIndex(id: seq<byte>, n: nat): (w: nat)
    requires n > 0
    ensures w < n
  {
    var r := Rem(Wrap64(Base31(id)), n);
    if r < 0 then -r else r
  }

  method SelectByHash(workers: nat, clientID: seq<byte>) returns (pick: Pick)
    ensures workers == 0 ==> pick == NoWorker
    ensures workers > 0 ==> pick == Worker(HashIndex(clientID, workers)) && pick.index < workers
  {
    if workers == 0 {
      return NoWorker;
    }
    var hash := 0;
    var i := 0;
    while i < |clientID|
      invariant 0 <= i <= |clientID|
      invariant hash == Wrap64(Base31(clientID[..i]))
    {
      assert clientID[..i + 1][..i] == clientID[..i];
      WrapStep(Base31(clientID[..i]), 31, clientID[i]);
      hash := Wrap64(hash * 31 + clientID[i]);
      i := i + 1;
    }
    assert clientID[..i] == clientID;
    var index := Rem(hash, workers);
    if index < 0 {
      index := -index;
    }
    pick := Worker(index);
  }

  // ---------------------------------------------------------------- least loaded

  /** What the loop reads of one worker when it reaches it. */
  datatype Load = Load(idle: bool, processed: nat)

  /** The first idle worker if there is one, else the first of those with the fewest tasks. */
  method SelectLeastLoaded(workers: seq<Load>) returns (pick: Pick)
    ensures pick == NoWorker <==> workers == []
    ensures pick != Panic
    ensures pick.Worker? ==> pick.index < |workers|
    ensures pick.Worker? && workers[pick.index].idle ==>
              forall j :: 0 <= j < pick.index ==> !workers[j].idle
    ensures pick.Worker? && !workers[pick.index].idle ==>
              && (forall j :: 0 <= j < |workers| ==> !workers[j].idle)
              && (forall j :: 0 <= j < |workers| ==> workers[pick.index].processed <= workers[j].processed)
              && (forall j :: 0 <= j < pick.index ==> workers[pick.index].processed < workers[j].processed)
  {
    pick := NoWorker;
    var minLoad := -1;
    var i := 0;
    while i < |workers|
      invariant 0 <= i <= |workers|
      invariant forall j :: 0 <= j < i ==> !workers[j].idle
      invariant pick != Panic
      invariant pick == NoWorker <==> i == 0
      invariant minLoad == -1 <==> i == 0
      invariant i > 0 ==> pick.index < i && minLoad == workers[pick.index].processed
      invariant forall j :: 0 <= j < i ==> minLoad <= workers[j].processed
      invariant i > 0 ==> forall j :: 0 <= j < pick.index ==> minLoad < workers[j].processed
    {
      if workers[i].idle {
        return Worker(i);
      }
      var load := workers[i].processed;
      if minLoad == -1 || load < minLoad {
        minLoad := load;
        pick := Worker(i);
      }
      i := i + 1;
    }
  }

  // ---------------------------------------------------------------- round robin

  /** The outcome of the index expression once the counter has been advanced to `counter`. */
  function RoundRobinPick(counter: int, n: nat): Pick {
    if n == 0 then NoWorker
    else if Rem(counter, n) < 0 then Panic
    else Worker(Rem(counter, n))
  }

  /** The `k`-th pick (from 1) of a balancer whose counter starts at `start`. */
  function KthPick(start: int, k: nat, n: nat): Pick {
    RoundRobinPick(Wrap64(start + k), n)
  }

  /** The counter after `k` picks, each of which adds one and wraps. */
  function CounterAfter(start: int, k: nat): int {
    if k == 0 then start else Wrap64(CounterAfter(start, k - 1) + 1)
  }

  /** The picks that successive calls make are the picks of `start` in order. */
  lemma {:induction false} SuccessivePicks(start: int, k: nat, n: nat)
    requires IsInt64(start)
    ensures CounterAfter(start, k) == Wrap64(start + k)
    ensures KthPick(CounterAfter(start, k), 1, n) == KthPick(start, k + 1, n)
  {
    if k > 0 {
      SuccessivePicks(start, k - 1, n);
      WrapStep(start + k - 1, 1, 1);
    }
    WrapStep(start + k, 1, 1);
  }

  class RoundRobinBalancer {
    var counter: int

    ghost predicate Valid()
      reads this
    {
      IsInt64(counter)
    }

    constructor ()
      ensures Valid() && counter == 0
    {
      counter := 0;
    }

    method SelectWorker(workers: nat) returns (pick: Pick)
      requires Valid()
      modifies this
      ensures Valid()
      ensures counter == if workers == 0 then old(counter) else CounterAfter(old(counter), 1)
      ensures pick == KthPick(old(counter), 1, workers)
    {
      if workers == 0 {
        return NoWorker;
      }
      counter := Wrap64(counter + 1);
      var index := Rem(counter, workers);
      pick := if index < 0 then Panic else Worker(index);
    }
  }

  /** How often worker `w` is chosen by the first `m` picks. */
  function Chosen(start: int, m: nat, n: nat, w: nat): nat {
    if m == 0 then 0
    else Chosen(start, m - 1, n, w) + if KthPick(start, m, n) == Worker(w) then 1 else 0
  }

  /** Closed form: picks of `w` are the integers congruent to `w` that the counter passes. */
  lemma {:induction false} ChosenClosedForm(start: int, m: nat, n: nat, w: nat)
    requires n > 0 && w < n && 0 <= start && start + m < TWO_63
    ensures Chosen(start, m, n, w) == (start + m - w) / n - (start - w) / n
  {
    if m > 0 {
      ChosenClosedForm(start, m - 1, n, w);
      DivStep(start + m - 1 - w, n);
      ModShiftBy(start + m, n, w);
    }
  }

  /** Fairness: without overflow every worker is chosen floor(m/n) or ceil(m/n) times by m picks. */
  lemma RoundRobinFair(start: int, m: nat, n: nat, w: nat)
    requires n > 0 && w < n && 0 <= start && start + m < TWO_63
    ensures m / n <= Chosen(start, m, n, w) <= (m + n - 1) / n
    ensures m % n == 0 ==> Chosen(start, m, n, w) == m / n
  {
    ChosenClosedForm(start, m, n, w);
    DivSum(start - w, m, n);
  }

  ghost predicate NoPanic(start: int, m: nat, n: nat) {
    forall k :: 1 <= k <= m ==> KthPick(start, k, n) != Panic
  }

  /**
   The counter is a signed 64-bit integer, so picks go wrong once it has wrapped. All of `m`
   picks are in range exactly when the counter does not wrap, or wraps only onto its least
   value and the pool size divides 2^63, or there is a single worker.
   */
  lemma RoundRobinInRangeIff(start: int, m: nat, n: nat)
    requires n > 0 && 0 <= start < TWO_63 && m < TWO_63
    ensures NoPanic(start, m, n) <==>
              start + m < TWO_63 || n == 1 || (start + m == TWO_63 && TWO_63 % n == 0)
  {
    forall k | 1 <= k <= m && start + k < TWO_63 ensures KthPick(start, k, n) != Panic {}
    if start + m >= TWO_63 {
      var k := TWO_63 - start;
      assert Wrap64(start + k) == -TWO_63;
      assert KthPick(start, k, n) == Panic <==> TWO_63 % n != 0;
      if start + m > TWO_63 && n > 1 {
        var k' := k + 1;
        assert Wrap64(start + k') == -TWO_63 + 1;
        assert KthPick(start, k', n) == Panic <==> (TWO_63 - 1) % n != 0;
        ConsecutiveMultiples(TWO_63 - 1, n);
        assert !NoPanic(start, m, n);
      }
      if n == 1 {
        forall k | 1 <= k <= m ensures KthPick(start, k, n) != Panic {}
      }
    }
  }
}
