/**
 The collector's wait for readers. Time counts the collector's loads; at each one
 other threads may have entered or left any number of critical sections.
 */
module ReaderCriticalSection {
  import opened Counting

  /** One visit to a critical section: its shard's counter counts it from `enter`
      until just before `leave`. */
  datatype Visit = Visit(shard: nat, enter: nat, leave: nat)

  /** What a load of a shard's counter returns at a time. */
  type Readings = (nat, nat) -> nat

  /** A counter is not zero while somebody is inside. */
  ghost predicate CountsVisits(load: Readings, visits: iset<Visit>) {
    forall v, t: nat {:trigger v in visits, load(t, v.shard)} ::
      v in visits && v.enter <= t < v.leave ==> load(t, v.shard) > 0
  }

  predicate ZeroAt(load: Readings, i: nat, t: nat, from: nat, until: nat) {
    from <= t < until && load(t, i) == 0
  }

  ghost predicate SeenZero(load: Readings, i: nat, from: nat, until: nat) {
    exists t: nat :: ZeroAt(load, i, t, from, until)
  }

  /** Shard i was loaded this often in a row and never read as zero. */
  ghost predicate NeverZero(load: Readings, i: nat, from: nat, times: nat) {
    forall t: nat :: from <= t < from + times ==> load(t, i) != 0
  }

  ghost predicate StuckOn(load: Readings, n: nat, start: nat, patience: nat) {
    exists i: nat, from: nat :: i < n && from >= start && NeverZero(load, i, from, patience)
  }

  /** Every shard's counter is read as zero at some time, each at its own; so every
      visit under way at the start is over at the end, although visits go on
      beginning meanwhile. The wait may be given up only on a shard that `patience`
      loads in a row found visited, for whatever patience. */
  method SpinUntilObservingNonCriticalSectionOnceInEachShard(
      n: nat, load: Readings, start: nat, patience: nat, ghost visits: iset<Visit>) returns (end: Option<nat>)
    requires CountsVisits(load, visits)
    ensures end.Some? ==> end.value >= start && forall i: nat :: i < n ==> SeenZero(load, i, start, end.value)
    ensures end.Some? ==> forall v :: v in visits && v.shard < n && v.enter <= start ==> v.leave <= end.value
    ensures end.None? ==> StuckOn(load, n, start, patience)
  {
    var now := start;
    var toSpin: seq<nat> := [];
    for i := 0 to n
      invariant now >= start
      invariant forall k :: 0 <= k < |toSpin| ==> toSpin[k] < i
      invariant forall j: nat :: j < i ==> j in toSpin || SeenZero(load, j, start, now)
    {
      var count := load(now, i);
      now := now + 1;
      Longer(load, start, now - 1, now);
      if count != 0 {
        toSpin := toSpin + [i];
      } else {
        assert ZeroAt(load, i, now - 1, start, now);
      }
    }
    for k := 0 to |toSpin|
      invariant now >= start
      invariant forall j: nat :: j < n ==> j in toSpin[k..] || SeenZero(load, j, start, now)
    {
      var seen := SpinOn(load, toSpin[k], now, patience);
      if seen.None? {
        assert toSpin[k] < n && now >= start && NeverZero(load, toSpin[k], now, patience);
        return None;
      }
      Longer(load, start, now, seen.value);
      now := seen.value;
      assert ZeroAt(load, toSpin[k], now - 1, start, now);
    }
    forall v | v in visits && v.shard < n && v.enter <= start ensures v.leave <= now {
      assert SeenZero(load, v.shard, start, now);
      var t: nat :| ZeroAt(load, v.shard, t, start, now);
    }
    end := Some(now);
  }

  /** Loads one shard's counter until its first zero. */
  method SpinOn(load: Readings, i: nat, start: nat, patience: nat) returns (end: Option<nat>)
    ensures end.Some? ==> start < end.value <= start + patience && ZeroAt(load, i, end.value - 1, start, end.value)
    ensures end.Some? ==> NeverZero(load, i, start, end.value - 1 - start)
    ensures end.None? ==> NeverZero(load, i, start, patience)
  {
    var spins := 0;
    while spins < patience
      invariant spins <= patience && NeverZero(load, i, start, spins)
    {
      if load(start + spins, i) == 0 {
        return Some(start + spins + 1);
      }
      spins := spins + 1;
    }
    end := None;
  }

  lemma Longer(load: Readings, from: nat, until: nat, later: nat)
    requires until <= later
    ensures forall i: nat :: SeenZero(load, i, from, until) ==> SeenZero(load, i, from, later)
  {
    forall i: nat | SeenZero(load, i, from, until) ensures SeenZero(load, i, from, later) {
      var t: nat :| ZeroAt(load, i, t, from, until);
      assert ZeroAt(load, i, t, from, later);
    }
  }
}
