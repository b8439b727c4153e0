/**
 The collector's bookkeeping: the tracked map, the set of counters to re-check,
 and the inner iterations of one outer iteration.

 What the shared counters show is an oracle: every interleaving of other threads
 is some oracle. The loop ends under every oracle.
 */
module CollectorBooks {
  import opened Counting
  import opened Protocol

  type Key = nat

  /** What one update of a counter reads: the two stage-one sums, the re-check
      (None if a tag was set), and whether the object was ever downgraded. */
  datatype Observation = Observation(relaxed: int, cleared: int, recheck: Option<int>, downgraded: bool)

  /** What the world shows in pass number p, and which counters the destructor of
      a freed object drops on the collector thread. */
  datatype World = World(observe: (nat, Key) -> Observation, drops: (nat, Key) -> set<Key>)

  datatype ClearResult = WeakRefNotInvolved | WeakBackRefCleared | WeakBackRefWasAlreadyNull

  const INNER_ITERATION_LIMIT: nat := 100000

  /** The phase after one update, given whether the back-reference was nulled before. */
  function PhaseAfter(phase: Phase, obs: Observation, nulled: bool): Phase {
    match phase
    case DefaultState =>
      if obs.relaxed == 0 && obs.cleared == 0 then RequiresReChecking else DefaultState
    case RequiresReChecking =>
      if obs.recheck != Some(0) then DefaultState
      else if obs.downgraded && !nulled then RequiresReChecking
      else ReadyToFree
    case ReadyToFree => ReadyToFree
  }

  predicate ClearsNow(phase: Phase, obs: Observation, nulled: bool) {
    phase == RequiresReChecking && obs.recheck == Some(0) && obs.downgraded && !nulled
  }

  /** The re-check's assertion that the sum is not negative. */
  predicate AssertionHolds(phase: Phase, obs: Observation) {
    phase == RequiresReChecking && obs.recheck.Some? ==> obs.recheck.value >= 0
  }

  // ----- one pass as a function

  /** The collector's books between passes. */
  datatype Books = Books(tracked: map<Key, Phase>, nulled: set<Key>, work: set<Key>)

  function Updated(b: Books, obs: Key -> Observation): map<Key, Phase> {
    map k | k in b.tracked :: if k in b.work then PhaseAfter(b.tracked[k], obs(k), k in b.nulled) else b.tracked[k]
  }

  function NewlyNulled(b: Books, obs: Key -> Observation): set<Key> {
    set k | k in b.work && k in b.tracked && ClearsNow(b.tracked[k], obs(k), k in b.nulled)
  }

  function InPhase(tracked: map<Key, Phase>, phase: Phase): set<Key> {
    set k | k in tracked && tracked[k] == phase
  }

  function DroppedBy(freed: set<Key>, drops: Key -> set<Key>): set<Key> {
    set k, d | k in freed && d in drops(k) :: d
  }

  /** Update every counter to re-check, free what is ready, and re-check what is
      under watch or was dropped by the freed. */
  function PassOf(b: Books, obs: Key -> Observation, drops: Key -> set<Key>): Books {
    var updated := Updated(b, obs);
    var ready := InPhase(updated, ReadyToFree);
    Books(updated - ready, b.nulled + NewlyNulled(b, obs),
          InPhase(updated, RequiresReChecking) + DroppedBy(ready, drops))
  }

  ghost predicate AssertionsHold(b: Books, obs: Key -> Observation) {
    forall k :: k in b.work && k in b.tracked ==> AssertionHolds(b.tracked[k], obs(k))
  }

  function Observe(world: World, number: nat): Key -> Observation {
    (k: Key) => world.observe(number, k)
  }

  function Drops(world: World, number: nat): Key -> set<Key> {
    (k: Key) => world.drops(number, k)
  }

  /** The books after the first `count` passes of an outer iteration. */
  function AfterPasses(world: World, start: Books, count: nat): Books {
    if count == 0 then start
    else PassOf(AfterPasses(world, start, count - 1), Observe(world, count - 1), Drops(world, count - 1))
  }

  lemma NextPass(world: World, start: Books, count: nat)
    ensures AfterPasses(world, start, count + 1)
         == PassOf(AfterPasses(world, start, count), Observe(world, count), Drops(world, count))
    ensures AfterPasses(world, start, 0) == start
  {
  }

  /** Passes 1 up to `count` each left something to re-check. */
  ghost predicate BusyUntil(world: World, start: Books, count: nat) {
    forall i :: 0 < i <= count ==> AfterPasses(world, start, i).work != {}
  }

  lemma BusyLonger(world: World, start: Books, count: nat)
    requires BusyUntil(world, start, count) && AfterPasses(world, start, count + 1).work != {}
    ensures BusyUntil(world, start, count + 1)
  {
    hide AfterPasses;
  }

  /** Nothing is ready to free, and every counter under watch is to be re-checked. */
  ghost predicate Consistent(b: Books) {
    forall k :: k in b.tracked ==>
      b.tracked[k] != ReadyToFree && (b.tracked[k] == RequiresReChecking ==> k in b.work)
  }

  lemma PassConsistent(b: Books, obs: Key -> Observation, drops: Key -> set<Key>)
    requires Consistent(b)
    ensures Consistent(PassOf(b, obs, drops))
  {
  }

  // ----- what a pass may do to a counter

  /** A counter is freed only out of a re-check that found sum zero, and a downgraded
      object only if its back-reference had been nulled before the pass. */
  predicate MayFree(b: Books, obs: Key -> Observation, k: Key) {
    && k in b.work && k in b.tracked && b.tracked[k] == RequiresReChecking && obs(k).recheck == Some(0)
    && (obs(k).downgraded ==> k in b.nulled)
  }

  /** Its back-reference is nulled only out of such a re-check. */
  predicate MayNull(b: Books, obs: Key -> Observation, k: Key) {
    && k in b.work && k in b.tracked && b.tracked[k] == RequiresReChecking && obs(k).recheck == Some(0)
    && obs(k).downgraded && k !in b.nulled
  }

  /** It comes under watch only if both stage-one sums are zero. */
  predicate MayWatch(b: Books, obs: Key -> Observation, k: Key) {
    k in b.work && k in b.tracked && b.tracked[k] == DefaultState && obs(k).relaxed == 0 && obs(k).cleared == 0
  }

  /** What becomes of every tracked counter in a pass: freed, nulled, put under watch
      or sent back to the default state, each under its condition and no other. */
  lemma PassOutcome(b: Books, obs: Key -> Observation, drops: Key -> set<Key>, k: Key)
    requires Consistent(b) && k in b.tracked
    ensures var b2 := PassOf(b, obs, drops);
            && (k !in b2.tracked <==> MayFree(b, obs, k))
            && (k in b2.nulled <==> k in b.nulled || MayNull(b, obs, k))
            && (k in b2.tracked && b2.tracked[k] == RequiresReChecking <==> MayWatch(b, obs, k) || MayNull(b, obs, k))
  {
  }

  /** Pass number i freed k. */
  predicate FreedInPass(world: World, start: Books, i: nat, k: Key) {
    MayFree(AfterPasses(world, start, i), Observe(world, i), k)
  }

  predicate NulledInPass(world: World, start: Books, i: nat, k: Key) {
    MayNull(AfterPasses(world, start, i), Observe(world, i), k)
  }

  lemma {:induction false} PassesConsistent(world: World, start: Books, count: nat)
    requires Consistent(start)
    ensures Consistent(AfterPasses(world, start, count))
  {
    hide PassOf, Consistent;
    if count > 0 {
      PassesConsistent(world, start, count - 1);
      PassConsistent(AfterPasses(world, start, count - 1), Observe(world, count - 1), Drops(world, count - 1));
    }
  }

  /** Whatever is no longer tracked was freed in one of the passes, as it may be. */
  lemma {:induction false} GoneWasFreed(world: World, start: Books, count: nat, k: Key) returns (i: nat)
    requires Consistent(start) && k in start.tracked && k !in AfterPasses(world, start, count).tracked
    ensures i < count && FreedInPass(world, start, i, k)
  {
    hide PassOf, Consistent, MayFree, MayNull, MayWatch;
    var b := AfterPasses(world, start, count - 1);
    if k in b.tracked {
      PassesConsistent(world, start, count - 1);
      PassOutcome(b, Observe(world, count - 1), Drops(world, count - 1), k);
      i := count - 1;
    } else {
      i := GoneWasFreed(world, start, count - 1, k);
    }
  }

  /** A back-reference nulled since the start was nulled in an earlier pass. */
  lemma {:induction false} NulledBefore(world: World, start: Books, count: nat, k: Key) returns (i: nat)
    requires Consistent(start) && k !in start.nulled && k in AfterPasses(world, start, count).nulled
    ensures i < count && NulledInPass(world, start, i, k)
  {
    var b := AfterPasses(world, start, count - 1);
    if k in b.nulled {
      i := NulledBefore(world, start, count - 1, k);
    } else {
      i := count - 1;
    }
  }

  /** So a downgraded object is freed, and its back-reference nulled, in different
      passes of the iteration: a whole spin lies between them. */
  lemma FreedAfterNulled(world: World, start: Books, count: nat, k: Key) returns (i: nat, j: nat)
    requires Consistent(start) && k in start.tracked && k !in start.nulled
    requires k !in AfterPasses(world, start, count).tracked
    ensures j < count && FreedInPass(world, start, j, k)
    ensures world.observe(j, k).downgraded ==> i < j && NulledInPass(world, start, i, k)
  {
    hide AfterPasses;
    j := GoneWasFreed(world, start, count, k);
    i := 0;
    if world.observe(j, k).downgraded {
      i := NulledBefore(world, start, j, k);
    }
  }

  ghost predicate GoneFreed(world: World, start: Books, tracked: map<Key, Phase>, passes: nat) {
    forall k :: k in start.tracked && k !in tracked ==> exists i :: 0 <= i <= passes && FreedInPass(world, start, i, k)
  }

  lemma AllGoneFreed(world: World, start: Books, passes: nat)
    requires Consistent(start)
    ensures GoneFreed(world, start, AfterPasses(world, start, passes + 1).tracked, passes)
  {
    hide AfterPasses, Consistent, FreedInPass;
    forall k | k in start.tracked && k !in AfterPasses(world, start, passes + 1).tracked
      ensures exists i :: 0 <= i <= passes && FreedInPass(world, start, i, k)
    {
      var i := GoneWasFreed(world, start, passes + 1, k);
    }
  }

  // ----- the measure

  /** 2 while some counter to re-check starts from the default state, 1 while any is left. */
  ghost function Weight(b: Books): nat {
    if exists k :: k in b.work && k in b.tracked && b.tracked[k] == DefaultState then 2
    else if b.work != {} then 1
    else 0
  }

  /** Objects that can still be freed, and back-references that can still be cleared. */
  ghost function Events(b: Books): nat {
    |b.tracked.Keys| + |b.tracked.Keys - b.nulled|
  }

  ghost function Measure(b: Books): nat {
    2 * Events(b) + Weight(b)
  }

  lemma EventsDrop(b: Books, b2: Books)
    requires b2.tracked.Keys <= b.tracked.Keys && b.nulled <= b2.nulled <= b.nulled + b.tracked.Keys
    ensures Events(b2) <= Events(b)
    ensures b2.tracked.Keys != b.tracked.Keys || b2.nulled != b.nulled ==> Events(b2) < Events(b)
  {
    var before, after := b.tracked.Keys, b2.tracked.Keys;
    SubsetSize(after, before);
    SubsetSize(after - b2.nulled, before - b.nulled);
    if after == before && b2.nulled != b.nulled {
      var k :| k in b2.nulled && k !in b.nulled;
      assert k in before - b.nulled && k !in after - b2.nulled;
    }
  }

  lemma SomeLeft<T>(done: set<T>, all: set<T>)
    requires done <= all && done != all
    ensures exists x :: x in all - done
  {
    var x :| x in all && x !in done;
    assert x in all - done;
  }

  lemma ReadyIsTracked(tracked: map<Key, Phase>)
    ensures InPhase(tracked, ReadyToFree) <= tracked.Keys
  {
  }

  lemma MinusStep(tracked: map<Key, Phase>, done: set<Key>, key: Key)
    ensures (tracked - done) - {key} == tracked - (done + {key})
  {
  }

  lemma DroppedStep(done: set<Key>, key: Key, drops: Key -> set<Key>)
    ensures DroppedBy({}, drops) == {}
    ensures DroppedBy(done + {key}, drops) == DroppedBy(done, drops) + drops(key)
  {
  }

  lemma SubsetSize<T>(a: set<T>, b: set<T>)
    requires a <= b
    ensures |a| <= |b| && (a != b ==> |a| < |b|)
  {
    assert b == a + (b - a);
    assert a != b ==> b - a != {};
  }

  /** A pass that freed nothing and cleared nothing only watches counters that
      started from the default state. */
  lemma QuietPass(b: Books, obs: Key -> Observation, drops: Key -> set<Key>)
    requires Consistent(b)
    requires var b2 := PassOf(b, obs, drops); b2.tracked.Keys == b.tracked.Keys && b2.nulled == b.nulled
    ensures var b2 := PassOf(b, obs, drops);
            forall k :: k in b2.work ==>
              k in b.work && k in b.tracked && b.tracked[k] == DefaultState && b2.tracked[k] == RequiresReChecking
  {
    var updated := Updated(b, obs);
    var ready := InPhase(updated, ReadyToFree);
    assert ready == {} by {
      forall k ensures k !in ready {
        assert k in ready ==> k in b.tracked.Keys && k !in PassOf(b, obs, drops).tracked.Keys;
      }
    }
    assert NewlyNulled(b, obs) <= b.nulled;
    forall k | k in PassOf(b, obs, drops).work
      ensures k in b.work && k in b.tracked && b.tracked[k] == DefaultState && updated[k] == RequiresReChecking
    {
      assert k in updated && updated[k] == RequiresReChecking;
      assert k in NewlyNulled(b, obs) ==> k in b.nulled;
    }
  }

  lemma PassBounds(b: Books, obs: Key -> Observation, drops: Key -> set<Key>)
    ensures var b2 := PassOf(b, obs, drops);
            b2.tracked.Keys <= b.tracked.Keys && b.nulled <= b2.nulled <= b.nulled + b.tracked.Keys
  {
  }

  lemma MeasureDrops(b: Books, b2: Books)
    requires b.work != {}
    requires b2.tracked.Keys <= b.tracked.Keys && b.nulled <= b2.nulled <= b.nulled + b.tracked.Keys
    requires b2.tracked.Keys == b.tracked.Keys && b2.nulled == b.nulled ==>
               forall k :: k in b2.work ==>
                 k in b.work && k in b.tracked && b.tracked[k] == DefaultState && b2.tracked[k] == RequiresReChecking
    ensures Measure(b2) < Measure(b)
  {
    EventsDrop(b, b2);
    if b2.tracked.Keys == b.tracked.Keys && b2.nulled == b.nulled {
      assert Weight(b2) < 2;
      if b2.work != {} {
        var k :| k in b2.work;
        assert k in b.work && k in b.tracked && b.tracked[k] == DefaultState;
        assert Weight(b) == 2;
      }
    }
  }

  /** Every pass over a non-empty set lowers the measure, whatever it saw. */
  lemma PassProgress(b: Books, obs: Key -> Observation, drops: Key -> set<Key>)
    requires Consistent(b) && b.work != {}
    ensures Measure(PassOf(b, obs, drops)) < Measure(b)
  {
    hide PassOf, Measure;
    var b2 := PassOf(b, obs, drops);
    PassBounds(b, obs, drops);
    if b2.tracked.Keys == b.tracked.Keys && b2.nulled == b.nulled {
      QuietPass(b, obs, drops);
    }
    MeasureDrops(b, b2);
  }

  lemma MeasureBound(b: Books)
    ensures Measure(b) <= 4 * |b.tracked| + 2
  {
    SubsetSize(b.tracked.Keys - b.nulled, b.tracked.Keys);
    assert |b.tracked.Keys| == |b.tracked|;
  }

  lemma HasMeasure(b: Books)
    requires b.work != {}
    ensures Measure(b) > 0
  {
  }

  lemma UpdatedKeys(b: Books, obs: Key -> Observation)
    ensures Updated(b, obs).Keys == b.tracked.Keys
  {
  }

  lemma UpdatedNone(b: Books, obs: Key -> Observation)
    ensures Updated(b.(work := {}), obs) == b.tracked && NewlyNulled(b.(work := {}), obs) == {}
  {
  }

  /** One more counter updated. */
  lemma UpdatedStep(b: Books, obs: Key -> Observation, done: set<Key>, key: Key)
    requires key !in done
    ensures var b1, b2 := b.(work := done), b.(work := done + {key});
            && (key in Updated(b1, obs) <==> key in b.tracked) && key !in NewlyNulled(b1, obs)
            && (key in b.tracked ==>
                  && Updated(b1, obs)[key] == b.tracked[key]
                  && Updated(b2, obs) == Updated(b1, obs)[key := PhaseAfter(b.tracked[key], obs(key), key in b.nulled)]
                  && NewlyNulled(b2, obs) == NewlyNulled(b1, obs) +
                       if ClearsNow(b.tracked[key], obs(key), key in b.nulled) then {key} else {})
            && (key !in b.tracked ==> Updated(b2, obs) == Updated(b1, obs) && NewlyNulled(b2, obs) == NewlyNulled(b1, obs))
  {
  }

  /** The updated counters that ended in a phase. */
  function Found(tracked: map<Key, Phase>, done: set<Key>, phase: Phase): set<Key> {
    set k | k in done && k in tracked && tracked[k] == phase
  }

  lemma FoundStep(tracked: map<Key, Phase>, done: set<Key>, key: Key, now: Phase, phase: Phase)
    requires key in tracked && key !in done
    ensures Found(tracked[key := now], done + {key}, phase) == Found(tracked, done, phase) + if now == phase then {key} else {}
  {
  }

  lemma FoundAll(b: Books, tracked: map<Key, Phase>, obs: Key -> Observation, phase: Phase)
    requires Consistent(b) && tracked == Updated(b, obs) && phase != DefaultState
    ensures Found(tracked, b.work, phase) == InPhase(tracked, phase)
  {
  }

  // ----- new counters

  function KeysIn(list: seq<Key>): set<Key> {
    set a | 0 <= a < |list| :: list[a]
  }

  function PendingKeys(pending: seq<seq<Key>>): set<Key> {
    if pending == [] then {} else PendingKeys(pending[..|pending| - 1]) + KeysIn(pending[|pending| - 1])
  }

  predicate NoDuplicates(list: seq<Key>) {
    forall a, b :: 0 <= a < b < |list| ==> list[a] != list[b]
  }

  /** No counter waits twice: an allocated slot is handed out once. */
  predicate PendingDistinct(pending: seq<seq<Key>>) {
    pending == [] ||
    (PendingDistinct(pending[..|pending| - 1]) && NoDuplicates(pending[|pending| - 1]) &&
     PendingKeys(pending[..|pending| - 1]) !! KeysIn(pending[|pending| - 1]))
  }

  lemma {:induction false} PendingPrefix(pending: seq<seq<Key>>, i: nat)
    requires i <= |pending| && PendingDistinct(pending)
    ensures PendingDistinct(pending[..i]) && PendingKeys(pending[..i]) <= PendingKeys(pending)
  {
    if i < |pending| {
      PendingPrefix(pending[..|pending| - 1], i);
      assert pending[..|pending| - 1][..i] == pending[..i];
    } else {
      assert pending[..i] == pending;
    }
  }

  /** `tracked` with every key of `keys` added in the default state. */
  function Added(tracked: map<Key, Phase>, keys: set<Key>): map<Key, Phase> {
    tracked + (map k | k in keys :: DefaultState)
  }

  lemma AddedTwice(tracked: map<Key, Phase>, a: set<Key>, b: set<Key>)
    ensures Added(tracked, a).Keys == tracked.Keys + a
    ensures Added(Added(tracked, a), b) == Added(tracked, a + b)
  {
  }

  lemma KeysStep(tracked: map<Key, Phase>, taken: seq<Key>, a: nat)
    requires a < |taken| && NoDuplicates(taken)
    ensures taken[a] in KeysIn(taken) && taken[a] !in KeysIn(taken[..a])
    ensures KeysIn(taken[..a + 1]) == KeysIn(taken[..a]) + {taken[a]}
    ensures Added(tracked, KeysIn(taken[..a]))[taken[a] := DefaultState] == Added(tracked, KeysIn(taken[..a + 1]))
  {
    assert KeysIn(taken[..a + 1]) == KeysIn(taken[..a]) + {taken[a]};
  }

  lemma PendingStep(pending: seq<seq<Key>>, i: nat)
    requires i < |pending| && PendingDistinct(pending)
    ensures NoDuplicates(pending[i])
    ensures PendingKeys(pending[..i + 1]) == PendingKeys(pending[..i]) + KeysIn(pending[i])
    ensures PendingKeys(pending[..i]) !! KeysIn(pending[i])
    ensures KeysIn(pending[i]) <= PendingKeys(pending)
  {
    PendingPrefix(pending, i + 1);
    assert pending[..i + 1][..i] == pending[..i];
  }

  // ----- what was freed

  /** From `before` to `after` exactly the objects in `gone` were freed, each once. */
  ghost predicate FreedOnce(before: seq<Key>, after: seq<Key>, gone: set<Key>) {
    && |after| == |before| + |gone| && after[..|before|] == before
    && KeysIn(after[|before|..]) == gone
  }

  lemma KeysOfConcat(a: seq<Key>, b: seq<Key>)
    ensures KeysIn(a + b) == KeysIn(a) + KeysIn(b)
  {
    forall k | k in KeysIn(b) ensures k in KeysIn(a + b) {
      var i :| 0 <= i < |b| && b[i] == k;
      assert (a + b)[|a| + i] == k;
    }
    forall k | k in KeysIn(a) ensures k in KeysIn(a + b) {
      var i :| 0 <= i < |a| && a[i] == k;
      assert (a + b)[i] == k;
    }
  }

  lemma FreedOnceMore(before: seq<Key>, middle: seq<Key>, after: seq<Key>, gone: set<Key>, more: set<Key>)
    requires FreedOnce(before, middle, gone) && FreedOnce(middle, after, more) && gone !! more
    ensures FreedOnce(before, after, gone + more)
  {
    KeysOfConcat(middle[|before|..], after[|middle|..]);
    assert after[|before|..] == middle[|before|..] + after[|middle|..];
    assert |gone + more| == |gone| + |more|;
    assert after[..|before|] == middle[..|before|];
  }

  lemma FreedSince(before: seq<Key>, middle: seq<Key>, after: seq<Key>, first: set<Key>, between: set<Key>, last: set<Key>)
    requires last <= between <= first && FreedOnce(before, middle, first - between) && FreedOnce(middle, after, between - last)
    ensures FreedOnce(before, after, first - last)
  {
    hide FreedOnce;
    FreedOnceMore(before, middle, after, first - between, between - last);
    assert (first - between) + (between - last) == first - last;
  }

  lemma FreedOne(before: seq<Key>, key: Key)
    ensures FreedOnce(before, before, {}) && FreedOnce(before, before + [key], {key})
  {
    assert (before + [key])[|before|..] == [key] && [key][0] == key;
    assert KeysIn([key]) == {key};
  }

  // ----- the collector thread's own state

  class CollectorThreadState {
    var tracked: map<Key, Phase>
    var pending: seq<seq<Key>>         // new counters, one list per shard
    var nulled: set<Key>               // counters whose object's back-reference was nulled
    var droppedHere: set<Key>          // counters dropped on the collector thread
    var freed: seq<Key>

    function AsBooks(work: set<Key>): Books
      reads this
    {
      Books(tracked, nulled, work)
    }

    /** Between passes: consistent books, and no drop of this thread left over. */
    ghost predicate Settled(work: set<Key>)
      reads this
    {
      droppedHere == {} && Consistent(AsBooks(work))
    }

    constructor (shards: nat)
      ensures tracked == map[] && nulled == {} && freed == [] && Settled({})
      ensures pending == seq(shards, _ => [])
    {
      tracked, nulled, droppedHere, freed := map[], {}, {}, [];
      pending := seq(shards, _ => []);
    }

    /** Starts tracking the counters taken from one shard. */
    method InsertNew(taken: seq<Key>) returns (replaced: bool)
      requires NoDuplicates(taken) && KeysIn(taken) !! tracked.Keys
      modifies this`tracked, this`nulled
      ensures !replaced && tracked == Added(old(tracked), KeysIn(taken)) && nulled == old(nulled) - KeysIn(taken)
    {
      replaced := false;
      for a := 0 to |taken|
        invariant !replaced && tracked == Added(old(tracked), KeysIn(taken[..a]))
        invariant tracked.Keys == old(tracked).Keys + KeysIn(taken[..a])
        invariant nulled == old(nulled) - KeysIn(taken[..a])
      {
        KeysStep(old(tracked), taken, a);
        replaced := replaced || taken[a] in tracked;
        tracked := tracked[taken[a] := DefaultState];
        nulled := nulled - {taken[a]};   // a slot reused belongs to a new object
      }
      assert taken[..|taken|] == taken;
    }

    /** Tracks every pending counter; no insertion replaces an entry. */
    method TakeNewCountersToTrack() returns (replaced: bool)
      requires PendingDistinct(pending) && PendingKeys(pending) !! tracked.Keys
      modifies this`tracked, this`pending, this`nulled
      ensures !replaced
      ensures tracked == Added(old(tracked), PendingKeys(old(pending))) && nulled == old(nulled) - PendingKeys(old(pending))
      ensures |pending| == |old(pending)| && forall i :: 0 <= i < |pending| ==> pending[i] == []
    {
      replaced := false;
      ghost var was := pending;
      assert was[..0] == [] && PendingKeys(was[..0]) == {};
      hide PendingKeys, PendingDistinct, NoDuplicates, KeysIn;
      for i := 0 to |pending|
        invariant |pending| == |was| && !replaced
        invariant tracked == Added(old(tracked), PendingKeys(was[..i])) && nulled == old(nulled) - PendingKeys(was[..i])
        invariant forall j :: 0 <= j < i ==> pending[j] == []
        invariant forall j :: i <= j < |was| ==> pending[j] == was[j]
      {
        var taken := pending[i];
        pending := pending[i := []];
        PendingStep(was, i);
        AddedTwice(old(tracked), PendingKeys(was[..i]), KeysIn(taken));
        var clash := InsertNew(taken);
        replaced := replaced || clash;
      }
      assert was[..|was|] == was;
    }

    method ClearWeakBackRef(key: Key, downgraded: bool) returns (r: ClearResult)
      modifies this`nulled
      ensures r == (if !downgraded then WeakRefNotInvolved
                    else if key in old(nulled) then WeakBackRefWasAlreadyNull else WeakBackRefCleared)
      ensures nulled == if downgraded then old(nulled) + {key} else old(nulled)
    {
      if downgraded {
        if key in nulled {
          r := WeakBackRefWasAlreadyNull;
        } else {
          nulled := nulled + {key};
          r := WeakBackRefCleared;
        }
      } else {
        r := WeakRefNotInvolved;
      }
    }

    /** One update. It reports false where the source's assertion stops the collector. */
    method UpdateState(key: Key, obs: Observation) returns (ok: bool)
      requires key in tracked && tracked[key] != ReadyToFree
      modifies this`tracked, this`nulled
      ensures ok == AssertionHolds(old(tracked[key]), obs)
      ensures ok ==> tracked == old(tracked)[key := PhaseAfter(old(tracked[key]), obs, key in old(nulled))]
      ensures ok ==> nulled == if ClearsNow(old(tracked[key]), obs, key in old(nulled)) then old(nulled) + {key}
                               else old(nulled)
      ensures !ok ==> tracked == old(tracked) && nulled == old(nulled)
      ensures ok && tracked[key] == ReadyToFree ==>
                && old(tracked[key]) == RequiresReChecking && obs.recheck == Some(0)
                && (obs.downgraded ==> key in old(nulled))
      ensures ok && tracked[key] == RequiresReChecking ==>
                (old(tracked[key]) == DefaultState && obs.relaxed == 0 && obs.cleared == 0) ||
                (obs.recheck == Some(0) && obs.downgraded && key !in old(nulled) && key in nulled)
    {
      ok := true;
      match tracked[key]
      case DefaultState =>
        if obs.relaxed == 0 {
          if obs.cleared == 0 {
            tracked := tracked[key := RequiresReChecking];
          } else {
            tracked := tracked[key := DefaultState];
          }
        } else {
          tracked := tracked[key := DefaultState];
        }
      case RequiresReChecking =>
        match obs.recheck
        case None =>
          tracked := tracked[key := DefaultState];
        case Some(sum) =>
          if sum == 0 {
            var r := ClearWeakBackRef(key, obs.downgraded);
            if r.WeakBackRefCleared? {
              tracked := tracked[key := RequiresReChecking];
            } else {
              tracked := tracked[key := ReadyToFree];
              if obs.downgraded {
                assert nulled == old(nulled);
              }
            }
          } else if sum > 0 {
            tracked := tracked[key := DefaultState];
          } else {
            ok := false;
          }
    }

    method FreePointer(key: Key, drops: Key -> set<Key>)
      requires key in tracked && tracked[key] == ReadyToFree
      modifies this`tracked, this`droppedHere, this`freed
      ensures tracked == old(tracked) - {key} && freed == old(freed) + [key]
      ensures droppedHere == old(droppedHere) + drops(key)
    {
      tracked := tracked - {key};
      freed := freed + [key];
      droppedHere := droppedHere + drops(key);
    }

    /** Frees every counter found ready. Destructors may drop counters on this thread. */
    method FreePointers(toFree: set<Key>, drops: Key -> set<Key>)
      requires toFree == InPhase(tracked, ReadyToFree)
      modifies this`tracked, this`droppedHere, this`freed
      ensures tracked == old(tracked) - toFree
      ensures droppedHere == old(droppedHere) + DroppedBy(toFree, drops)
      ensures FreedOnce(old(freed), freed, toFree)
    {
      assert forall k :: k in toFree ==> k in tracked && tracked[k] == ReadyToFree;
      hide DroppedBy, InPhase, FreedOnce;
      var done := {};
      DroppedStep({}, 0, drops);
      FreedOne(freed, 0);
      while done != toFree
        invariant done <= toFree
        invariant tracked == old(tracked) - done
        invariant droppedHere == old(droppedHere) + DroppedBy(done, drops)
        invariant FreedOnce(old(freed), freed, done)
        decreases toFree - done
      {
        SomeLeft(done, toFree);
        var key :| key in toFree - done;
        MinusStep(old(tracked), done, key);
        DroppedStep(done, key, drops);
        FreedOne(freed, key);
        FreedOnceMore(old(freed), freed, freed + [key], done, {key});
        FreePointer(key, drops);
        done := done + {key};
      }
    }

    /** The counters in `done` are updated, and sorted by what became of them. */
    ghost predicate Partway(b: Books, obs: Key -> Observation, done: set<Key>, toFree: set<Key>, again: set<Key>)
      reads this
    {
      && tracked == Updated(b.(work := done), obs)
      && nulled == b.nulled + NewlyNulled(b.(work := done), obs)
      && toFree == Found(tracked, done, ReadyToFree) && again == Found(tracked, done, RequiresReChecking)
      && AssertionsHold(b.(work := done), obs)
    }

    method UpdateOne(key: Key, obs: Key -> Observation, toFree: set<Key>, again: set<Key>, ghost b: Books, ghost done: set<Key>)
      returns (ok: bool, toFree2: set<Key>, again2: set<Key>)
      requires Consistent(b) && key !in done && Partway(b, obs, done, toFree, again)
      modifies this`tracked, this`nulled
      ensures ok == (key in b.tracked ==> AssertionHolds(b.tracked[key], obs(key)))
      ensures ok ==> Partway(b, obs, done + {key}, toFree2, again2)
    {
      hide Updated, NewlyNulled, InPhase, PhaseAfter, ClearsNow, AssertionHolds;
      ok, toFree2, again2 := true, toFree, again;
      UpdatedStep(b, obs, done, key);
      if key in tracked {
        ghost var before := tracked;
        ok := UpdateState(key, obs(key));
        if !ok {
          return;
        }
        FoundStep(before, done, key, tracked[key], ReadyToFree);
        FoundStep(before, done, key, tracked[key], RequiresReChecking);
        match tracked[key]
        case DefaultState =>
        case RequiresReChecking => again2 := again2 + {key};
        case ReadyToFree => toFree2 := toFree2 + {key};
      }
    }

    /** The loop of a pass before anything is freed. It stops where an assertion of the source fails. */
    method UpdateCounters(work: set<Key>, obs: Key -> Observation)
      returns (ok: bool, toFree: set<Key>, again: set<Key>)
      requires Settled(work)
      modifies this`tracked, this`nulled
      ensures ok == AssertionsHold(old(AsBooks(work)), obs)
      ensures ok ==> tracked == Updated(old(AsBooks(work)), obs)
      ensures ok ==> nulled == old(nulled) + NewlyNulled(old(AsBooks(work)), obs)
      ensures ok ==> toFree == InPhase(tracked, ReadyToFree) && again == InPhase(tracked, RequiresReChecking)
    {
      hide Updated, NewlyNulled, InPhase;
      ghost var b := AsBooks(work);
      ok, toFree, again := true, {}, {};
      UpdatedNone(b, obs);
      var done := {};
      while done != work
        invariant ok && done <= work && Partway(b, obs, done, toFree, again)
        decreases work - done
      {
        SomeLeft(done, work);
        var key :| key in work - done;
        ok, toFree, again := UpdateOne(key, obs, toFree, again, b, done);
        if !ok {
          return;
        }
        done := done + {key};
      }
      assert b.(work := done) == b;
      FoundAll(b, tracked, obs, ReadyToFree);
      FoundAll(b, tracked, obs, RequiresReChecking);
    }

    /** One inner pass, over all tracked counters or over those to re-check. */
    method UpdatePass(work: set<Key>, obs: Key -> Observation, drops: Key -> set<Key>) returns (ok: bool, again: set<Key>)
      requires Settled(work)
      modifies this`tracked, this`nulled, this`droppedHere, this`freed
      ensures ok == AssertionsHold(old(AsBooks(work)), obs)
      ensures ok ==> Settled(again) && AsBooks(again) == PassOf(old(AsBooks(work)), obs, drops)
      ensures ok ==> tracked.Keys <= old(tracked).Keys && FreedOnce(old(freed), freed, old(tracked).Keys - tracked.Keys)
      ensures ok ==> forall k :: k in old(tracked) ==> (k !in tracked <==> MayFree(old(AsBooks(work)), obs, k))
    {
      hide MayFree, MayNull, MayWatch, PhaseAfter;
      hide Updated, NewlyNulled, DroppedBy, AssertionsHold, InPhase, FreedOnce;
      ghost var b := AsBooks(work);
      var toFree: set<Key>;
      ok, toFree, again := UpdateCounters(work, obs);
      if !ok {
        return;
      }
      PassConsistent(b, obs, drops);
      UpdatedKeys(b, obs);
      ReadyIsTracked(tracked);
      FreePointers(toFree, drops);
      assert b.tracked.Keys - tracked.Keys == toFree;
      again := again + droppedHere;
      droppedHere := {};
      forall k | k in b.tracked ensures k !in tracked <==> MayFree(b, obs, k) {
        PassOutcome(b, obs, drops, k);
      }
    }

    /** Where the loop stands after `passes` re-checks: what the passes so far compute,
        with enough measure left, and exactly the objects no longer tracked freed. */
    ghost predicate Reached(world: World, start: Books, before: seq<Key>, passes: nat, left: set<Key>)
      reads this
    {
      && Settled(left) && tracked.Keys <= start.tracked.Keys
      && AsBooks(left) == AfterPasses(world, start, passes + 1)
      && passes + Measure(AsBooks(left)) <= 4 * |start.tracked| + 2
      && FreedOnce(before, freed, start.tracked.Keys - tracked.Keys)
      && BusyUntil(world, start, passes)
    }

    method FirstPass(world: World) returns (ok: bool, left: set<Key>)
      requires Settled(tracked.Keys)
      modifies this`tracked, this`nulled, this`droppedHere, this`freed
      ensures ok ==> Reached(world, old(AsBooks(tracked.Keys)), old(freed), 0, left)
      ensures !ok ==> !AssertionsHold(AfterPasses(world, old(AsBooks(tracked.Keys)), 0), Observe(world, 0))
    {
      ghost var start := AsBooks(tracked.Keys);
      assert BusyUntil(world, start, 0);
      hide BusyUntil;
      hide FreedOnce, PassOf, Measure, Observe, Drops, AfterPasses, Consistent, AssertionsHold, MayFree;
      NextPass(world, start, 0);
      ok, left := UpdatePass(tracked.Keys, Observe(world, 0), Drops(world, 0));
      SubsetSize(tracked.Keys, if ok then start.tracked.Keys else tracked.Keys);
      MeasureBound(AsBooks(left));
    }

    method NextReCheck(world: World, ghost start: Books, ghost before: seq<Key>, passes: nat, left: set<Key>)
        returns (ok: bool, again: set<Key>)
      requires left != {} && Reached(world, start, before, passes, left)
      modifies this`tracked, this`nulled, this`droppedHere, this`freed
      ensures ok ==> Reached(world, start, before, passes + 1, again)
      ensures ok ==> Measure(AsBooks(again)) < old(Measure(AsBooks(left)))
      ensures !ok ==> !AssertionsHold(AfterPasses(world, start, passes + 1), Observe(world, passes + 1))
    {
      hide FreedOnce, PassOf, Measure, Observe, Drops, AfterPasses, BusyUntil, Consistent, AssertionsHold, MayFree;
      ghost var b, middle := AsBooks(left), freed;
      NextPass(world, start, passes + 1);
      BusyLonger(world, start, passes);
      PassProgress(b, Observe(world, passes + 1), Drops(world, passes + 1));
      ok, again := UpdatePass(left, Observe(world, passes + 1), Drops(world, passes + 1));
      if ok {
        FreedSince(before, middle, freed, start.tracked.Keys, b.tracked.Keys, tracked.Keys);
      }
    }

    /** The inner iterations of one outer iteration. However other threads
        interleave, at most 4 T + 2 passes re-check, for T tracked objects, each of
        them over a non-empty set; unless the loop is cut off at its limit, nothing
        is left to re-check. */
    method DoCollectionInnerIterations(world: World) returns (ok: bool, passes: nat, left: set<Key>)
      requires Settled(tracked.Keys)
      modifies this`tracked, this`nulled, this`droppedHere, this`freed
      ensures passes <= 4 * |old(tracked)| + 2 && passes <= INNER_ITERATION_LIMIT
      ensures ok ==> Settled(left) && tracked.Keys <= old(tracked).Keys
      ensures ok ==> FreedOnce(old(freed), freed, old(tracked).Keys - tracked.Keys)
      ensures ok ==> AsBooks(left) == AfterPasses(world, old(AsBooks(tracked.Keys)), passes + 1)
      ensures ok ==> BusyUntil(world, old(AsBooks(tracked.Keys)), passes)
      ensures ok && passes < INNER_ITERATION_LIMIT ==> left == {}
      ensures ok && 4 * |old(tracked)| + 2 < 100_000 ==> left == {}
      ensures ok ==> GoneFreed(world, old(AsBooks(tracked.Keys)), tracked, passes)
      ensures !ok ==> !AssertionsHold(AfterPasses(world, old(AsBooks(tracked.Keys)), passes), Observe(world, passes))
    {
      hide FreedOnce, Measure, AfterPasses, BusyUntil, Consistent, AssertionsHold, Observe, GoneFreed;
      ghost var start, before := AsBooks(tracked.Keys), freed;
      passes := 0;
      ok, left := FirstPass(world);
      if !ok {
        return;
      }
      while left != {}
        invariant ok && Reached(world, start, before, passes, left) && passes < INNER_ITERATION_LIMIT
        decreases Measure(AsBooks(left))
      {
        HasMeasure(AsBooks(left));
        ok, left := NextReCheck(world, start, before, passes, left);
        passes := passes + 1;
        if !ok {
          return;
        }
        if passes == INNER_ITERATION_LIMIT {
          break;
        }
      }
      AllGoneFreed(world, start, passes);
    }
  }
}
