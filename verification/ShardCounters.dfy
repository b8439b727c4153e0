/** The abstract sharded reference count: one signed count and one tag per shard. */
module ShardCounters {

  datatype Counter = Counter(count: int, tag: bool) {
    /** What a clone, a load or an upgrade does to its shard. */
    function Incremented(): Counter {
      Counter(count + 1, tag)
    }

    /** What a drop does to its shard, in one indivisible step. */
    function DecrementedAndTagged(): Counter {
      Counter(count - 1, true)
    }

    /** What the collector does to a shard before it starts to watch it. */
    function TagCleared(): Counter {
      Counter(count, false)
    }
  }

  const ZERO := Counter(0, false)

  /** The true reference count: the sum over all shards at one instant. */
  function Total(cs: seq<Counter>): int {
    if cs == [] then 0 else Total(cs[..|cs| - 1]) + cs[|cs| - 1].count
  }

  predicate AnyTag(cs: seq<Counter>) {
    exists i :: 0 <= i < |cs| && cs[i].tag
  }

  function Zeroes(n: nat): (cs: seq<Counter>)
    ensures |cs| == n
  {
    seq(n, _ => ZERO)
  }

  lemma {:induction false} TotalUpdate(cs: seq<Counter>, i: nat, c: Counter)
    requires i < |cs|
    ensures Total(cs[i := c]) == Total(cs) - cs[i].count + c.count
  {
    var last := |cs| - 1;
    if i == last {
      assert cs[i := c][..last] == cs[..last];
    } else {
      TotalUpdate(cs[..last], i, c);
      assert cs[i := c][..last] == cs[..last][i := c];
    }
  }

  lemma {:induction false} TotalZeroes(n: nat)
    ensures Total(Zeroes(n)) == 0
  {
    if n > 0 {
      assert Zeroes(n)[..n - 1] == Zeroes(n - 1);
      TotalZeroes(n - 1);
    }
  }

  lemma TotalExtend(cs: seq<Counter>, k: nat)
    requires k < |cs|
    ensures Total(cs[..k + 1]) == Total(cs[..k]) + cs[k].count
  {
    assert cs[..k + 1][..k] == cs[..k];
  }
}
