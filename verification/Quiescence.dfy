/**
 Completeness: with no user thread at work, one outer iteration leaves no tracked
 object without a reference, so acyclic garbage of any depth is freed at once.
 */
module Quiescence {
  import opened Counting
  import opened Protocol
  import opened CollectorBooks

  /** Who refers to whom: the counters an object's destructor drops (with
      repetition), the references held outside tracked objects, and which
      objects were ever downgraded. */
  datatype Heap = Heap(children: Key -> seq<Key>, roots: Key -> nat, downgraded: Key -> bool)

  /** The fields of live objects that refer to k. */
  function References(heap: Heap, live: set<Key>, k: Key): set<(Key, nat)> {
    set p, i | p in live && 0 <= i < |heap.children(p)| && heap.children(p)[i] == k :: (p, i)
  }

  /** The true reference count of k while the objects in `live` exist. */
  function RefCount(heap: Heap, live: set<Key>, k: Key): nat {
    heap.roots(k) + |References(heap, live, k)|
  }

  function Fields(heap: Heap): Key -> set<Key> {
    (p: Key) => KeysIn(heap.children(p))
  }

  /** The collector's books and the counters with a tag set. */
  datatype Quiet = Quiet(books: Books, tagged: set<Key>)

  function Count(heap: Heap, q: Quiet, k: Key): nat {
    RefCount(heap, q.books.tracked.Keys, k)
  }

  /** With nobody else at work every sum is the true count, and a re-check stops
      at a tag. */
  function Shown(heap: Heap, q: Quiet): Key -> Observation {
    (k: Key) => Observation(Count(heap, q, k), Count(heap, q, k),
                            if k in q.tagged then None else Some(Count(heap, q, k)), heap.downgraded(k))
  }

  function TagsCleared(heap: Heap, q: Quiet): set<Key> {
    set k | k in q.books.work && k in q.books.tracked && q.books.tracked[k] == DefaultState && Count(heap, q, k) == 0
  }

  function FreedNow(heap: Heap, q: Quiet): set<Key> {
    InPhase(Updated(q.books, Shown(heap, q)), ReadyToFree)
  }

  /** One pass: tags of counters found at zero are cleared, fields of freed objects are tagged. */
  function Pass(heap: Heap, q: Quiet): Quiet {
    Quiet(PassOf(q.books, Shown(heap, q), Fields(heap)),
          (q.tagged - TagsCleared(heap, q)) + DroppedBy(FreedNow(heap, q), Fields(heap)))
  }

  function After(heap: Heap, start: Quiet, count: nat): Quiet {
    if count == 0 then start else Pass(heap, After(heap, start, count - 1))
  }

  function QuietWorld(heap: Heap, start: Quiet): World {
    World((p: nat, k: Key) => Shown(heap, After(heap, start, p))(k), (p: nat, k: Key) => Fields(heap)(k))
  }

  /** What holds between passes: whatever has no reference is to be re-checked,
      and whatever is under watch has none and no tag. */
  ghost predicate Complete(heap: Heap, q: Quiet) {
    && Consistent(q.books)
    && forall k :: k in q.books.tracked ==>
         && (Count(heap, q, k) == 0 ==> k in q.books.work)
         && (q.books.tracked[k] == RequiresReChecking ==> Count(heap, q, k) == 0 && k !in q.tagged)
  }

  lemma FewerReferences(heap: Heap, live: set<Key>, less: set<Key>, k: Key)
    requires less <= live
    ensures RefCount(heap, less, k) <= RefCount(heap, live, k)
    ensures k !in DroppedBy(live - less, Fields(heap)) ==> RefCount(heap, less, k) == RefCount(heap, live, k)
  {
    SubsetSize(References(heap, less, k), References(heap, live, k));
    if k !in DroppedBy(live - less, Fields(heap)) {
      forall p, i | (p, i) in References(heap, live, k) ensures p in less {
        assert k in Fields(heap)(p);
      }
      assert References(heap, less, k) == References(heap, live, k);
    }
  }

  lemma DroppedWasReferred(heap: Heap, live: set<Key>, freed: set<Key>, k: Key)
    requires freed <= live && k in DroppedBy(freed, Fields(heap))
    ensures RefCount(heap, live, k) > 0
  {
    var p :| p in freed && k in Fields(heap)(p);
    var i :| 0 <= i < |heap.children(p)| && heap.children(p)[i] == k;
    assert (p, i) in References(heap, live, k);
  }

  /** A counter without references that was to be re-checked is now freed or under watch. */
  lemma ZeroAdvances(heap: Heap, q: Quiet, k: Key)
    requires Complete(heap, q) && k in q.books.tracked && Count(heap, q, k) == 0
    ensures var updated := Updated(q.books, Shown(heap, q)); k in updated && updated[k] in {RequiresReChecking, ReadyToFree}
  {
  }

  /** Only a counter without references is freed or under watch after the update. */
  lemma AdvancedIsZero(heap: Heap, q: Quiet, k: Key)
    requires Complete(heap, q) && k in q.books.tracked
    requires Updated(q.books, Shown(heap, q))[k] != DefaultState
    ensures Count(heap, q, k) == 0
    ensures k in q.tagged ==> k in TagsCleared(heap, q)
  {
  }

  lemma PassBooks(heap: Heap, q: Quiet, k: Key)
    requires k in Pass(heap, q).books.tracked
    ensures k in q.books.tracked && k !in FreedNow(heap, q)
    ensures Pass(heap, q).books.tracked[k] == Updated(q.books, Shown(heap, q))[k]
  {
  }

  lemma PassLive(heap: Heap, q: Quiet)
    ensures FreedNow(heap, q) <= q.books.tracked.Keys
    ensures Pass(heap, q).books.tracked.Keys == q.books.tracked.Keys - FreedNow(heap, q)
  {
  }

  lemma PassWatched(heap: Heap, q: Quiet, k: Key)
    requires Complete(heap, q) && k in Pass(heap, q).books.tracked
    requires Pass(heap, q).books.tracked[k] == RequiresReChecking
    ensures Count(heap, Pass(heap, q), k) == 0 && k !in Pass(heap, q).tagged
  {
    hide Pass, Updated;
    PassBooks(heap, q, k);
    AdvancedIsZero(heap, q, k);
    PassLive(heap, q);
    FewerReferences(heap, q.books.tracked.Keys, Pass(heap, q).books.tracked.Keys, k);
    if k in DroppedBy(FreedNow(heap, q), Fields(heap)) {
      DroppedWasReferred(heap, q.books.tracked.Keys, FreedNow(heap, q), k);
    }
    PassTags(heap, q, k);
  }

  lemma PassTags(heap: Heap, q: Quiet, k: Key)
    ensures k in Pass(heap, q).tagged ==>
              (k in q.tagged && k !in TagsCleared(heap, q)) || k in DroppedBy(FreedNow(heap, q), Fields(heap))
    ensures k in DroppedBy(FreedNow(heap, q), Fields(heap)) ==> k in Pass(heap, q).books.work
    ensures k in InPhase(Updated(q.books, Shown(heap, q)), RequiresReChecking) ==> k in Pass(heap, q).books.work
  {
  }

  lemma PassZero(heap: Heap, q: Quiet, k: Key)
    requires Complete(heap, q) && k in Pass(heap, q).books.tracked && Count(heap, Pass(heap, q), k) == 0
    ensures k in Pass(heap, q).books.work
  {
    hide Pass, Updated, Complete;
    PassBooks(heap, q, k);
    PassLive(heap, q);
    PassTags(heap, q, k);
    var live, less := q.books.tracked.Keys, Pass(heap, q).books.tracked.Keys;
    assert live - less == FreedNow(heap, q);
    FewerReferences(heap, live, less, k);
    if k !in DroppedBy(FreedNow(heap, q), Fields(heap)) {
      ZeroAdvances(heap, q, k);
      assert k !in InPhase(Updated(q.books, Shown(heap, q)), ReadyToFree);
    }
  }

  lemma PassComplete(heap: Heap, q: Quiet)
    requires Complete(heap, q)
    ensures Complete(heap, Pass(heap, q)) && AssertionsHold(q.books, Shown(heap, q))
  {
    PassConsistent(q.books, Shown(heap, q), Fields(heap));
    hide PassOf, Updated;
    var q2 := Pass(heap, q);
    forall k | k in q2.books.tracked
      ensures Count(heap, q2, k) == 0 ==> k in q2.books.work
      ensures q2.books.tracked[k] == RequiresReChecking ==> Count(heap, q2, k) == 0 && k !in q2.tagged
    {
      if Count(heap, q2, k) == 0 {
        PassZero(heap, q, k);
      }
      if q2.books.tracked[k] == RequiresReChecking {
        PassWatched(heap, q, k);
      }
    }
  }

  lemma WorldShows(heap: Heap, start: Quiet, count: nat, k: Key)
    ensures Observe(QuietWorld(heap, start), count)(k) == Shown(heap, After(heap, start, count))(k)
    ensures Drops(QuietWorld(heap, start), count)(k) == Fields(heap)(k)
  {
  }

  lemma WorldPass(heap: Heap, start: Quiet, count: nat, b: Books)
    requires b == After(heap, start, count).books
    ensures PassOf(b, Observe(QuietWorld(heap, start), count), Drops(QuietWorld(heap, start), count))
         == Pass(heap, After(heap, start, count)).books
    ensures AssertionsHold(b, Shown(heap, After(heap, start, count))) ==>
              AssertionsHold(b, Observe(QuietWorld(heap, start), count))
  {
    hide QuietWorld, Shown, Fields, Observe, Drops, PassOf;
    var q, world := After(heap, start, count), QuietWorld(heap, start);
    forall k: Key ensures Shown(heap, q)(k) == Observe(world, count)(k)
                  ensures Fields(heap)(k) == Drops(world, count)(k)
    {
      WorldShows(heap, start, count, k);
    }
    SamePass(b, Shown(heap, q), Observe(world, count), Fields(heap), Drops(world, count));
  }

  /** The oracle of a quiet heap shows just what the passes compute. */
  lemma {:induction false} WorldAgrees(heap: Heap, start: Quiet, count: nat)
    requires Complete(heap, start)
    ensures AfterPasses(QuietWorld(heap, start), start.books, count) == After(heap, start, count).books
    ensures Complete(heap, After(heap, start, count))
    ensures AssertionsHold(AfterPasses(QuietWorld(heap, start), start.books, count), Observe(QuietWorld(heap, start), count))
  {
    hide QuietWorld, Shown, Fields, Observe, Drops, PassOf, Pass, Complete, AssertionsHold;
    if count > 0 {
      WorldAgrees(heap, start, count - 1);
      PassComplete(heap, After(heap, start, count - 1));
      WorldPass(heap, start, count - 1, After(heap, start, count - 1).books);
    }
    PassComplete(heap, After(heap, start, count));
    WorldPass(heap, start, count, After(heap, start, count).books);
  }

  /** A pass depends on what is shown, not on the function that shows it. */
  lemma SamePass(b: Books, obs: Key -> Observation, obs2: Key -> Observation, drops: Key -> set<Key>, drops2: Key -> set<Key>)
    requires (forall k :: obs(k) == obs2(k)) && (forall k :: drops(k) == drops2(k))
    ensures PassOf(b, obs, drops) == PassOf(b, obs2, drops2)
  {
    assert Updated(b, obs) == Updated(b, obs2);
    assert NewlyNulled(b, obs) == NewlyNulled(b, obs2);
    var ready := InPhase(Updated(b, obs), ReadyToFree);
    assert DroppedBy(ready, drops) == DroppedBy(ready, drops2);
  }

  // ----- how many passes it takes

  /** Every object in `kept` has an outside reference, or is a field of one in `kept`:
      none of them ever becomes garbage. Cycles belong here. */
  ghost predicate Anchored(heap: Heap, kept: set<Key>) {
    forall k :: k in kept ==> heap.roots(k) > 0 || exists p :: p in kept && k in Fields(heap)(p)
  }

  /** The other live objects form layers: a field lies in a later one than its object. */
  ghost predicate Ordered(heap: Heap, live: set<Key>, kept: set<Key>, layer: Key -> nat) {
    forall p, j :: p in live && p !in kept && j in live && j !in kept && j in Fields(heap)(p) ==> layer(p) < layer(j)
  }

  ghost predicate Layered(heap: Heap, live: set<Key>, kept: set<Key>, layer: Key -> nat, depth: nat) {
    && kept <= live && Anchored(heap, kept) && Ordered(heap, live, kept, layer)
    && forall k :: k in live && k !in kept ==> layer(k) <= depth
  }

  lemma KeptIsReferred(heap: Heap, live: set<Key>, kept: set<Key>, k: Key)
    requires Anchored(heap, kept) && kept <= live && k in kept
    ensures RefCount(heap, live, k) > 0
  {
    if heap.roots(k) == 0 {
      var p :| p in kept && k in Fields(heap)(p);
      assert k in DroppedBy({p}, Fields(heap));
      DroppedWasReferred(heap, live, {p}, k);
    }
  }

  /** What is freed had no reference. */
  lemma FreedIsZero(heap: Heap, q: Quiet, k: Key)
    requires Complete(heap, q) && k in FreedNow(heap, q)
    ensures k in q.books.tracked && Count(heap, q, k) == 0
  {
    hide Complete;
    AdvancedIsZero(heap, q, k);
  }

  lemma KeptStays(heap: Heap, q: Quiet, kept: set<Key>)
    requires Complete(heap, q) && Anchored(heap, kept) && kept <= q.books.tracked.Keys
    ensures kept <= Pass(heap, q).books.tracked.Keys <= q.books.tracked.Keys
  {
    hide Complete, Pass, FreedNow, Anchored, RefCount;
    PassLive(heap, q);
    forall k | k in kept ensures k !in FreedNow(heap, q) {
      KeptIsReferred(heap, q.books.tracked.Keys, kept, k);
      if k in FreedNow(heap, q) {
        FreedIsZero(heap, q, k);
      }
    }
  }

  /** No garbage is left in the layers before l. */
  ghost predicate ClearBelow(heap: Heap, q: Quiet, kept: set<Key>, layer: Key -> nat, l: nat) {
    forall k :: k in q.books.tracked && k !in kept && layer(k) < l ==> Count(heap, q, k) > 0
  }

  /** The layers in force at some pass. */
  ghost predicate InForce(heap: Heap, q: Quiet, kept: set<Key>, layer: Key -> nat) {
    && Complete(heap, q) && Anchored(heap, kept) && Ordered(heap, q.books.tracked.Keys, kept, layer)
    && kept <= q.books.tracked.Keys
  }

  lemma StaysInForce(heap: Heap, q: Quiet, kept: set<Key>, layer: Key -> nat)
    requires InForce(heap, q, kept, layer)
    ensures InForce(heap, Pass(heap, q), kept, layer) && Pass(heap, q).books.tracked.Keys <= q.books.tracked.Keys
  {
    hide Complete, Pass, Anchored;
    PassComplete(heap, q);
    KeptStays(heap, q, kept);
  }

  /** Then no pass changes a count in layer l. */
  lemma CountFixed(heap: Heap, q: Quiet, kept: set<Key>, layer: Key -> nat, l: nat, k: Key)
    requires InForce(heap, q, kept, layer) && ClearBelow(heap, q, kept, layer, l)
    requires k in Pass(heap, q).books.tracked && k !in kept && layer(k) <= l
    ensures k in q.books.tracked && Count(heap, Pass(heap, q), k) == Count(heap, q, k)
  {
    hide Complete, Pass, FreedNow, Anchored, Fields, RefCount;
    PassLive(heap, q);
    var live, less := q.books.tracked.Keys, Pass(heap, q).books.tracked.Keys;
    assert k in less && live - less == FreedNow(heap, q);
    assert k !in DroppedBy(FreedNow(heap, q), Fields(heap)) by {
      forall p | p in FreedNow(heap, q) ensures k !in Fields(heap)(p) {
        FreedIsZero(heap, q, p);
        if p in kept {
          KeptIsReferred(heap, live, kept, p);
        }
      }
    }
    FewerReferences(heap, live, less, k);
  }

  /** The passes a counter without references may still take, its own last one included. */
  ghost function PassesLeft(heap: Heap, q: Quiet, k: Key): nat
    requires k in q.books.tracked
  {
    if q.books.tracked[k] == DefaultState then 3 else if heap.downgraded(k) && k !in q.books.nulled then 2 else 1
  }

  lemma ZeroComesCloser(heap: Heap, q: Quiet, k: Key)
    requires Complete(heap, q) && k in q.books.tracked && Count(heap, q, k) == 0 && k in Pass(heap, q).books.tracked
    ensures PassesLeft(heap, Pass(heap, q), k) < PassesLeft(heap, q, k)
  {
    hide RefCount;
  }

  ghost predicate LayerWithin(heap: Heap, q: Quiet, kept: set<Key>, layer: Key -> nat, l: nat, passes: nat) {
    forall k :: k in q.books.tracked && k !in kept && layer(k) == l && Count(heap, q, k) == 0 ==>
      PassesLeft(heap, q, k) <= passes
  }

  lemma LayerStep(heap: Heap, q: Quiet, kept: set<Key>, layer: Key -> nat, l: nat, passes: nat)
    requires InForce(heap, q, kept, layer) && ClearBelow(heap, q, kept, layer, l)
    requires passes > 0 && LayerWithin(heap, q, kept, layer, l, passes)
    ensures InForce(heap, Pass(heap, q), kept, layer) && ClearBelow(heap, Pass(heap, q), kept, layer, l)
    ensures LayerWithin(heap, Pass(heap, q), kept, layer, l, passes - 1)
  {
    hide Complete, Pass, Anchored, Ordered, PassesLeft, RefCount;
    StaysInForce(heap, q, kept, layer);
    var q2 := Pass(heap, q);
    forall k | k in q2.books.tracked && k !in kept && layer(k) <= l
      ensures layer(k) < l ==> Count(heap, q2, k) > 0
      ensures layer(k) == l && Count(heap, q2, k) == 0 ==> PassesLeft(heap, q2, k) <= passes - 1
    {
      CountFixed(heap, q, kept, layer, l, k);
      if Count(heap, q, k) == 0 {
        ZeroComesCloser(heap, q, k);
      }
    }
  }

  /** Three passes clear one more layer. */
  lemma LayerInThree(heap: Heap, q: Quiet, kept: set<Key>, layer: Key -> nat, l: nat)
    requires InForce(heap, q, kept, layer) && ClearBelow(heap, q, kept, layer, l)
    ensures var q3 := Pass(heap, Pass(heap, Pass(heap, q)));
            InForce(heap, q3, kept, layer) && ClearBelow(heap, q3, kept, layer, l + 1)
  {
    hide InForce, Pass, RefCount;
    assert LayerWithin(heap, q, kept, layer, l, 3);
    LayerStep(heap, q, kept, layer, l, 3);
    LayerStep(heap, Pass(heap, q), kept, layer, l, 2);
    LayerStep(heap, Pass(heap, Pass(heap, q)), kept, layer, l, 1);
  }

  lemma {:induction false} LayersCleared(heap: Heap, start: Quiet, kept: set<Key>, layer: Key -> nat, l: nat)
    requires InForce(heap, start, kept, layer)
    ensures InForce(heap, After(heap, start, 3 * l), kept, layer)
    ensures ClearBelow(heap, After(heap, start, 3 * l), kept, layer, l)
    ensures After(heap, start, 3 * l).books.tracked.Keys <= start.books.tracked.Keys
  {
    hide InForce, Pass, RefCount;
    if l > 0 {
      LayersCleared(heap, start, kept, layer, l - 1);
      var q := After(heap, start, 3 * (l - 1));
      LayerInThree(heap, q, kept, layer, l - 1);
      ThreeMore(heap, start, 3 * (l - 1));
      StaysInForce(heap, q, kept, layer);
      StaysInForce(heap, Pass(heap, q), kept, layer);
      StaysInForce(heap, Pass(heap, Pass(heap, q)), kept, layer);
    }
  }

  lemma ThreeMore(heap: Heap, start: Quiet, count: nat)
    ensures After(heap, start, count + 3) == Pass(heap, Pass(heap, Pass(heap, After(heap, start, count))))
  {
    hide Pass;
    assert After(heap, start, count + 1) == Pass(heap, After(heap, start, count));
    assert After(heap, start, count + 2) == Pass(heap, After(heap, start, count + 1));
  }

  /** Where nothing is without a reference, the next pass leaves nothing to re-check. */
  lemma NoGarbageNoWork(heap: Heap, q: Quiet)
    requires Complete(heap, q) && forall k :: k in q.books.tracked ==> Count(heap, q, k) > 0
    ensures Pass(heap, q).books.work == {}
  {
    hide Complete, RefCount;
    var updated := Updated(q.books, Shown(heap, q));
    forall k | k in updated ensures updated[k] == DefaultState {
      if updated[k] != DefaultState {
        AdvancedIsZero(heap, q, k);
      }
    }
    assert InPhase(updated, RequiresReChecking) == {} && InPhase(updated, ReadyToFree) == {};
  }

  /** Garbage of depth d is gone, and the loop at its end, after 3 d + 4 passes,
      however many objects there are. */
  lemma WorkEnds(heap: Heap, start: Quiet, kept: set<Key>, layer: Key -> nat, depth: nat)
    requires Complete(heap, start) && Layered(heap, start.books.tracked.Keys, kept, layer, depth)
    ensures After(heap, start, 3 * depth + 4).books.work == {}
  {
    hide Complete, Pass, Anchored, Ordered, RefCount;
    LayersCleared(heap, start, kept, layer, depth + 1);
    var q := After(heap, start, 3 * depth + 3);
    forall k | k in q.books.tracked ensures Count(heap, q, k) > 0 {
      assert k in q.books.tracked.Keys;
      if k in kept {
        KeptIsReferred(heap, q.books.tracked.Keys, kept, k);
      }
    }
    NoGarbageNoWork(heap, q);
    assert After(heap, start, 3 * depth + 4) == Pass(heap, q);
  }

  lemma NothingLeft(heap: Heap, q: Quiet)
    requires Complete(heap, q) && q.books.work == {}
    ensures forall k :: k in q.books.tracked ==> Count(heap, q, k) > 0
  {
    hide RefCount;
  }

  predicate AllDefault(tracked: map<Key, Phase>) {
    forall k :: k in tracked ==> tracked[k] == DefaultState
  }

  /** One quiet outer iteration, whatever tags are set when it begins. Unless it is
      cut off it leaves no object without a reference, and every counter in the
      default state again, for the next. It takes at most 3 d + 3 passes of
      re-checking for garbage of depth d: whether it is cut off depends on the depth
      and not on how many objects there are. */
  method CollectQuietly(c: CollectorThreadState, heap: Heap, tagged: set<Key>,
                        ghost kept: set<Key>, ghost layer: Key -> nat, ghost depth: nat) returns (passes: nat)
    requires c.droppedHere == {} && AllDefault(c.tracked)
    modifies c
    ensures c.tracked.Keys <= old(c.tracked).Keys && passes <= 4 * |old(c.tracked)| + 2
    ensures Layered(heap, old(c.tracked).Keys, kept, layer, depth) ==> passes <= 3 * depth + 3
    ensures passes < INNER_ITERATION_LIMIT ==>
              AllDefault(c.tracked) && forall k :: k in c.tracked ==> RefCount(heap, c.tracked.Keys, k) > 0
    ensures Layered(heap, old(c.tracked).Keys, kept, layer, depth) && 3 * depth + 3 < INNER_ITERATION_LIMIT ==>
              forall k :: k in c.tracked ==> RefCount(heap, c.tracked.Keys, k) > 0
  {
    var start := Quiet(c.AsBooks(c.tracked.Keys), tagged);
    StartsComplete(heap, start);
    hide After, AfterPasses, QuietWorld, Complete, RefCount, Layered, Consistent, BusyUntil, AssertionsHold, FreedOnce,
         AllDefault, Observe;
    var ok, left;
    ok, passes, left := c.DoCollectionInnerIterations(QuietWorld(heap, start));
    WorldAgrees(heap, start, passes);
    BusyOnlySoLong(heap, start, passes, kept, layer, depth);
    if left == {} {
      EndsComplete(heap, start, passes + 1, c.AsBooks(left));
    }
  }

  lemma StartsComplete(heap: Heap, start: Quiet)
    requires AllDefault(start.books.tracked) && start.books.work == start.books.tracked.Keys
    ensures Complete(heap, start)
  {
    hide RefCount;
  }

  lemma BusyOnlySoLong(heap: Heap, start: Quiet, passes: nat, kept: set<Key>, layer: Key -> nat, depth: nat)
    requires Complete(heap, start) && BusyUntil(QuietWorld(heap, start), start.books, passes)
    ensures Layered(heap, start.books.tracked.Keys, kept, layer, depth) ==> passes <= 3 * depth + 3
  {
    hide After, AfterPasses, QuietWorld, Complete, Layered, AssertionsHold;
    if Layered(heap, start.books.tracked.Keys, kept, layer, depth) {
      WorldAgrees(heap, start, 3 * depth + 4);
      WorkEnds(heap, start, kept, layer, depth);
    }
  }

  lemma EndsComplete(heap: Heap, start: Quiet, count: nat, b: Books)
    requires Complete(heap, start) && b == AfterPasses(QuietWorld(heap, start), start.books, count) && b.work == {}
    ensures AllDefault(b.tracked) && forall k :: k in b.tracked ==> RefCount(heap, b.tracked.Keys, k) > 0
  {
    hide After, AfterPasses, QuietWorld, RefCount, AssertionsHold;
    WorldAgrees(heap, start, count);
    NothingLeft(heap, After(heap, start, count));
  }

  // ----- acyclic garbage

  /** A chain of fields of live objects from an object with an outside reference. */
  ghost predicate RootedPath(heap: Heap, live: set<Key>, path: seq<Key>) {
    && |path| > 0 && heap.roots(path[0]) > 0
    && (forall i :: 0 <= i < |path| ==> path[i] in live)
    && (forall i :: 0 < i < |path| ==> path[i] in Fields(heap)(path[i - 1]))
  }

  ghost predicate Reachable(heap: Heap, live: set<Key>, k: Key) {
    exists path :: RootedPath(heap, live, path) && path[|path| - 1] == k
  }

  /** If no live object is without a reference and the fields form no cycle, every
      live object is reachable from outside: no garbage of any depth is left. */
  lemma {:induction false} NoAcyclicGarbage(heap: Heap, live: set<Key>, rank: Key -> nat, bound: nat, k: Key)
    requires forall j :: j in live ==> RefCount(heap, live, j) > 0 && rank(j) <= bound
    requires forall p, j :: p in live && j in Fields(heap)(p) ==> rank(j) < rank(p)
    requires k in live
    ensures Reachable(heap, live, k)
    decreases bound - rank(k)
  {
    if heap.roots(k) > 0 {
      assert RootedPath(heap, live, [k]);
    } else {
      var p := Referrer(heap, live, k);
      NoAcyclicGarbage(heap, live, rank, bound, p);
      OneFieldFurther(heap, live, p, k);
    }
  }

  lemma Referrer(heap: Heap, live: set<Key>, k: Key) returns (p: Key)
    requires RefCount(heap, live, k) > heap.roots(k)
    ensures p in live && k in Fields(heap)(p)
  {
    var r :| r in References(heap, live, k);
    p := r.0;
  }

  lemma OneFieldFurther(heap: Heap, live: set<Key>, p: Key, k: Key)
    requires Reachable(heap, live, p) && k in live && k in Fields(heap)(p)
    ensures Reachable(heap, live, k)
  {
    hide Fields;
    var path :| RootedPath(heap, live, path) && path[|path| - 1] == p;
    assert RootedPath(heap, live, path + [k]);
    assert (path + [k])[|path|] == k;
  }
}
