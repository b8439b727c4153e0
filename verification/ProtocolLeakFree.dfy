/**
 The other half of safety: what nobody can reach is freed, and soon, whatever
 threads do to other objects meanwhile. Here both stage-one sums are what the
 source computes, the pre-check's over counts it read at moments of its pass.
 */
module ProtocolLeakFree {
  import opened Counting
  import opened ShardCounters
  import opened Protocol
  import opened ProtocolLedger
  import opened ProtocolEvolution
  import opened ProtocolInvariant
  import opened ProtocolCollector
  import opened ProtocolTheorems
  import opened ProtocolStageOne

  // ----- the pre-check's sum

  /** Moment i lies in the pass that action k belongs to. */
  ghost predicate SamePass(run: Run, i: nat, k: nat) {
    i <= k && forall x :: i <= x < k && x < |run.acts| ==> !StartsPass(run.acts[x])
  }

  ghost predicate ReadsInPass(n: nat, run: Run, k: nat, o: ObjId, moments: seq<nat>) {
    && |moments| == n
    && forall i :: 0 <= i < n ==>
         moments[i] < |run.states| && SamePass(run, moments[i], k) && HasCounter(run.states[moments[i]].m, o, i)
  }

  ghost function CountsRead(n: nat, run: Run, k: nat, o: ObjId, moments: seq<nat>): seq<int>
    requires ReadsInPass(n, run, k, o, moments)
  {
    seq(n, i requires 0 <= i < n => run.states[moments[i]].m.objs[o].counters[i].count)
  }

  /** A counter is skipped only if the counts read, each at some moment of the pass, do not sum to zero. */
  ghost predicate FollowsPreCheck(n: nat, run: Run) {
    forall k, o :: 0 <= k < |run.acts| && run.acts[k] == Col(Skip(o)) ==>
      exists moments :: ReadsInPass(n, run, k, o, moments) && Sum(CountsRead(n, run, k, o, moments)) != 0
  }

  // ----- an object nobody owns or is about to own

  ghost predicate Forsaken(m: Shared, o: ObjId) {
    && o in m.objs && !Owned(m, o) && !HeldByReader(m, o)
    && (m.objs[o].weakOf.Some? ==> !Owned(m, m.objs[o].weakOf.value))
  }

  lemma UnreachableIsForsaken(m: Shared, o: ObjId)
    requires Unreachable(m, o)
    ensures Forsaken(m, o)
  {
  }

  ghost predicate ForsakenFrom(run: Run, j: nat, k: nat, o: ObjId) {
    j <= k < |run.states| && forall i :: j <= i <= k ==> Forsaken(run.states[i].m, o)
  }

  /** A mutation that does not touch o leaves its counters as they are. */
  lemma UntouchedCounters(n: nat, m: Shared, a: Mutation, o: ObjId)
    requires CanMutate(n, m, a) && o in m.objs && o !in Touched(m, a)
    ensures o in Mutate(n, m, a).objs && Mutate(n, m, a).objs[o].counters == m.objs[o].counters
    ensures Mutate(n, m, a).objs[o].weak == m.objs[o].weak
  {
    hide MemoryFree, Pinned, CellAddress, AddressOf;
  }

  lemma ForsakenUntouched(n: nat, m: Shared, a: Mutation, o: ObjId)
    requires Shape(n, m) && CanMutate(n, m, a) && Forsaken(m, o)
    ensures o !in Touched(m, a)
  {
    hide WeakLinked, MemoryDistinct, MemoryFree, Pinned, CellAddress, AddressOf;
    match a
    case Clone(h, _, _) => assert Owned(m, Target(m, h));
    case Drop(_, h, _) => assert Owned(m, Target(m, h));
    case InitWeak(h, _, _, _, _) => assert Owned(m, Target(m, h));
    case PayDebt(t, _) => assert PcOk(n, m, PcOf(m, t));
    case CloneWeak(h, _, _) =>
      assert Owned(m, Target(m, h));
      WeakPartOf(n, m, Target(m, h));
    case ReadPointer(t) =>
    case Acquire(t, _, _) =>
    case _ =>
  }

  lemma WeakPartOf(n: nat, m: Shared, o: ObjId)
    requires Shape(n, m) && o in m.objs && m.objs[o].weak.Some?
    ensures m.objs[o].weak.value in m.objs && m.objs[m.objs[o].weak.value].weakOf == Some(o)
  {
    hide WellFormed, MemoryDistinct;
  }

  lemma ShapeOf(s: State)
    requires Inv(s)
    ensures Shape(s.n, s.m) && Ledger(s.n, s.m) && forall o :: o in s.m.objs ==> |s.m.objs[o].counters| == s.n
  {
    hide Traces, Readers, Verdicts, Clears, Tracking, Grace, RecheckOk, Bookkeeping, Balanced, SectionsCounted, WeakLinked,
         MemoryDistinct;
  }

  /** Threads leave a forsaken object's counters and back-reference alone. */
  lemma MutateForsaken(s: State, a: Mutation, o: ObjId)
    requires Inv(s) && CanMutate(s.n, s.m, a) && Forsaken(s.m, o)
    ensures var m2 := Mutate(s.n, s.m, a); o in m2.objs && m2.objs[o].counters == s.m.objs[o].counters
    ensures BackLive(Mutate(s.n, s.m, a), o) ==> BackLive(s.m, o)
  {
    ShapeOf(s);
    MutateEvolves(s.n, s.m, a);
    hide Inv, Mutate, CanMutate;
    ForsakenUntouched(s.n, s.m, a, o);
    UntouchedCounters(s.n, s.m, a, o);
    var m2 := Mutate(s.n, s.m, a);
    if s.m.objs[o].weak.Some? {
      WeakPartOf(s.n, s.m, o);
      assert ObjectEvolves(s.m.objs[s.m.objs[o].weak.value], m2.objs[s.m.objs[o].weak.value]);
    }
  }

  /** The collector changes no count, and tags of o only while it clears them. */
  lemma CollectCounters(s: State, x: CollectorStep, o: ObjId)
    requires CanCollect(s, x) && o in s.m.objs
    ensures var m2 := Collect(s, x).m;
            && o in m2.objs && |m2.objs[o].counters| == |s.m.objs[o].counters|
            && (forall i :: 0 <= i < |s.m.objs[o].counters| ==> m2.objs[o].counters[i].count == s.m.objs[o].counters[i].count)
            && (!(x == ClearTag && s.c.pc.obj == o) ==> m2.objs[o].counters == s.m.objs[o].counters)
  {
    hide Look, ReaderSet, OwnedSet, Shards;
  }

  lemma CollectBackLive(s: State, x: CollectorStep, o: ObjId)
    requires CanCollect(s, x) && o in s.m.objs && !BackLive(s.m, o)
    ensures !BackLive(Collect(s, x).m, o)
  {
    hide Look, ReaderSet, OwnedSet, Shards;
  }

  ghost predicate SameCounts(m: Shared, m2: Shared, o: ObjId) {
    && o in m.objs && o in m2.objs && |m2.objs[o].counters| == |m.objs[o].counters|
    && forall i :: 0 <= i < |m.objs[o].counters| ==> m2.objs[o].counters[i].count == m.objs[o].counters[i].count
  }

  lemma StepForsaken(s: State, a: Action, o: ObjId)
    requires Inv(s) && Enabled(s, a) && Forsaken(s.m, o)
    ensures SameCounts(s.m, Next(s, a).m, o) && (BackLive(Next(s, a).m, o) ==> BackLive(s.m, o))
    ensures a.Mut? ==> Next(s, a).m.objs[o].counters == s.m.objs[o].counters
  {
    hide Inv, CanMutate, Mutate, CanCollect, Collect, BackLive;
    match a
    case Mut(x) => MutateForsaken(s, x, o);
    case Col(x) =>
      CollectCounters(s, x, o);
      if !BackLive(s.m, o) {
        CollectBackLive(s, x, o);
      }
  }

  lemma {:induction false} FrozenCounts(n: nat, run: Run, j: nat, k: nat, o: ObjId)
    requires n >= 1 && IsRun(n, run) && ForsakenFrom(run, j, k, o)
    ensures SameCounts(run.states[j].m, run.states[k].m, o)
    decreases k
  {
    hide IsRun, Inv, Next, Enabled, Forsaken;
    ForsakenExists(run.states[j].m, o);
    if j < k {
      FrozenCounts(n, run, j, k - 1, o);
      RunInv(n, run, k - 1);
      StepOf(n, run, k - 1);
      StepForsaken(run.states[k - 1], run.acts[k - 1], o);
    }
  }

  lemma ForsakenExists(m: Shared, o: ObjId)
    requires Forsaken(m, o)
    ensures o in m.objs
  {
  }

  lemma {:induction false} SumIsTotal(xs: seq<int>, cs: seq<Counter>)
    requires |xs| == |cs| && forall i :: 0 <= i < |xs| ==> xs[i] == cs[i].count
    ensures Sum(xs) == Total(cs)
  {
    if xs != [] {
      SumIsTotal(xs[..|xs| - 1], cs[..|cs| - 1]);
    }
  }

  lemma ForsakenIsZero(s: State, o: ObjId)
    requires Inv(s) && Forsaken(s.m, o)
    ensures |s.m.objs[o].counters| == s.n && Total(s.m.objs[o].counters) == 0
  {
    ShapeOf(s);
    hide Inv, Ledger;
    UnownedIsZero(s.n, s.m, o);
  }

  /** Counts read at moments of a pass, all of them since action j, are those of moment k. */
  lemma ReadsAreFrozen(n: nat, run: Run, j: nat, k: nat, o: ObjId, moments: seq<nat>)
    requires n >= 1 && IsRun(n, run) && j < k < |run.acts| && StartsPass(run.acts[j]) && ForsakenFrom(run, j, k, o)
    requires ReadsInPass(n, run, k, o, moments)
    ensures Sum(CountsRead(n, run, k, o, moments)) == 0
  {
    RunInv(n, run, k);
    hide IsRun, Inv, Forsaken, Sum, StartsPass;
    ForsakenIsZero(run.states[k], o);
    var xs, cs := CountsRead(n, run, k, o, moments), run.states[k].m.objs[o].counters;
    forall i | 0 <= i < n ensures xs[i] == cs[i].count {
      assert SamePass(run, moments[i], k) && moments[i] > j;
      FrozenCounts(n, run, moments[i], k, o);
    }
    SumIsTotal(xs, cs);
  }

  /** A forsaken object is not skipped. */
  lemma NoSkip(n: nat, run: Run, j: nat, k: nat, o: ObjId)
    requires n >= 1 && IsRun(n, run) && FollowsPreCheck(n, run)
    requires j < k < |run.acts| && StartsPass(run.acts[j]) && ForsakenFrom(run, j, k, o)
    ensures run.acts[k] != Col(Skip(o))
  {
    hide IsRun, ForsakenFrom, Sum;
    if run.acts[k] == Col(Skip(o)) {
      var moments :| ReadsInPass(n, run, k, o, moments) && Sum(CountsRead(n, run, k, o, moments)) != 0;
      ReadsAreFrozen(n, run, j, k, o, moments);
    }
  }

  // ----- where an object stands in the collector's work

  datatype Place =
    | Queued(phase: Phase)                 // to be updated in this pass
    | InClear(k: nat, found: seq<int>)
    | InCheck(k: nat, acc: int)
    | Resting(phase: Phase)                // tracked, not to be updated in this pass
    | Ready
    | Gone
    | Elsewhere

  ghost function PlaceOf(m: Shared, c: Collector, o: ObjId): Place {
    if Freed(m, o) then Gone
    else if o !in c.tracked then Elsewhere
    else if o in c.toFree then Ready
    else if o in c.todo then Queued(c.tracked[o])
    else if c.pc.Clearing? && c.pc.obj == o then InClear(c.pc.k, c.pc.found)
    else if c.pc.Rechecking? && c.pc.obj == o then InCheck(c.pc.k, c.pc.acc)
    else Resting(c.tracked[o])
  }

  /** What a step of the collector within a pass does to the place of o. */
  ghost function PlaceAfter(s: State, x: CollectorStep, o: ObjId): Place
    requires CanCollect(s, x) && o in s.m.objs
  {
    match PlaceOf(s.m, s.c, o)
    case Queued(phase) =>
      if x == Skip(o) then Resting(phase)
      else if x == StartClear(o) then InClear(0, [])
      else if x == StartRecheck(o) then InCheck(0, 0)
      else Queued(phase)
    case InClear(k, found) =>
      if x.ClearTag? && k < |s.m.objs[o].counters| then InClear(k + 1, found + [s.m.objs[o].counters[k].count])
      else if x.EndClear? then Resting(if x.sawZero then RequiresReChecking else DefaultState)
      else InClear(k, found)
    case InCheck(k, acc) =>
      if x.ReadShard? && k < |s.m.objs[o].counters| then
        if s.m.objs[o].counters[k].tag then Resting(DefaultState) else InCheck(k + 1, acc + s.m.objs[o].counters[k].count)
      else if x.Decide? then
        if acc == 0 then if BackLive(s.m, o) then Resting(RequiresReChecking) else Ready
        else if acc > 0 then Resting(DefaultState) else Resting(RequiresReChecking)
      else InCheck(k, acc)
    case Resting(phase) => Resting(phase)
    case Ready => if x.FreeOne? && x.o == o then Gone else Ready
    case Gone => Gone
    case Elsewhere => Elsewhere
  }

  /** What the invariant says of o in the books. */
  ghost predicate Filed(s: State, o: ObjId) {
    var c := s.c;
    && (o in c.tracked || Freed(s.m, o)) && !(o in c.tracked && Freed(s.m, o)) && !(o in c.tracked && o in c.pending)
    && (o in c.todo ==> o in c.tracked && o !in c.toFree)
    && (o in c.toFree ==> o in c.tracked)
    && (o in c.tracked ==> (c.tracked[o] == ReadyToFree <==> o in c.toFree))
    && (c.pc.Clearing? ==> Working(c, c.pc.obj, DefaultState))
    && (c.pc.Rechecking? ==> Working(c, c.pc.obj, RequiresReChecking))
    && (c.pc.Between? ==> c.todo == {} && c.toFree == {})
    && (c.pc.Freeing? ==> c.todo == {})
  }

  lemma IsFiled(s: State, o: ObjId)
    requires Inv(s) && o in s.m.objs && Where(s, o) != Elsewhere
    ensures Filed(s, o)
  {
    hide Ledger, Traces, Readers, Verdicts, Clears, Grace, RecheckOk;
  }

  lemma PlaceQuiet(s: State, x: CollectorStep, o: ObjId)
    requires o in s.m.objs && Filed(s, o) && CanCollect(s, x) && (x.TakePending? || x.ObserveEmpty? || x.EndSpin? || x.StartFree? || x.EndPass?)
    ensures PlaceOf(Collect(s, x).m, Collect(s, x).c, o) == PlaceAfter(s, x, o)
  {
    hide Look, ReaderSet, OwnedSet, Shards, BackLive;
  }

  lemma PlaceUpdate(s: State, x: CollectorStep, o: ObjId)
    requires o in s.m.objs && Filed(s, o) && CanCollect(s, x) && (x.Skip? || x.StartClear? || x.StartRecheck?)
    ensures PlaceOf(Collect(s, x).m, Collect(s, x).c, o) == PlaceAfter(s, x, o)
  {
    hide Look, BackLive;
  }

  lemma PlaceClear(s: State, x: CollectorStep, o: ObjId)
    requires o in s.m.objs && Filed(s, o) && CanCollect(s, x) && (x.ClearTag? || x.EndClear?)
    ensures PlaceOf(Collect(s, x).m, Collect(s, x).c, o) == PlaceAfter(s, x, o)
  {
    hide BackLive;
  }

  lemma PlaceRead(s: State, x: CollectorStep, o: ObjId)
    requires o in s.m.objs && Filed(s, o) && CanCollect(s, x) && (x.ReadShard?)
    ensures PlaceOf(Collect(s, x).m, Collect(s, x).c, o) == PlaceAfter(s, x, o)
  {
    hide BackLive;
  }

  lemma PlaceDecide(s: State, x: CollectorStep, o: ObjId)
    requires o in s.m.objs && Filed(s, o) && CanCollect(s, x) && x.Decide?
    ensures PlaceOf(Collect(s, x).m, Collect(s, x).c, o) == PlaceAfter(s, x, o)
  {
    hide Freed, BackLive, ClearBackRef, Look, HasCounter;
    DecideFreesNothing(s, o);
    if o == s.c.pc.obj {
      assert Where(s, o) == InCheck(s.c.pc.k, s.c.pc.acc);
    }
  }

  lemma DecideFreesNothing(s: State, o: ObjId)
    requires CanCollect(s, Decide) && o in s.m.objs
    ensures Freed(Collect(s, Decide).m, o) <==> Freed(s.m, o)
  {
  }

  lemma PlaceFree(s: State, x: CollectorStep, o: ObjId)
    requires o in s.m.objs && Filed(s, o) && CanCollect(s, x) && (x.FreeOne?)
    ensures PlaceOf(Collect(s, x).m, Collect(s, x).c, o) == PlaceAfter(s, x, o)
  {
    hide BackLive;
  }

  lemma PlaceCollect(s: State, x: CollectorStep, o: ObjId)
    requires Inv(s) && CanCollect(s, x) && !x.StartPass? && o in s.m.objs && PlaceOf(s.m, s.c, o) != Elsewhere
    ensures PlaceOf(Collect(s, x).m, Collect(s, x).c, o) == PlaceAfter(s, x, o)
  {
    IsFiled(s, o);
    hide Inv, CanCollect, Collect, PlaceOf, PlaceAfter, Filed;
    match x
    case Skip(_) => PlaceUpdate(s, x, o);
    case StartClear(_) => PlaceUpdate(s, x, o);
    case StartRecheck(_) => PlaceUpdate(s, x, o);
    case ClearTag => PlaceClear(s, x, o);
    case EndClear(_) => PlaceClear(s, x, o);
    case ReadShard => PlaceRead(s, x, o);
    case Decide => PlaceDecide(s, x, o);
    case FreeOne(_, _) => PlaceFree(s, x, o);
    case _ => PlaceQuiet(s, x, o);
  }

  // ----- three promises, each kept until the next pass over o

  ghost predicate Untagged(cs: seq<Counter>) {
    forall i :: 0 <= i < |cs| ==> !cs[i].tag
  }

  ghost predicate ClearedSoFar(cs: seq<Counter>, k: nat, found: seq<int>) {
    |found| == k <= |cs| && forall i :: 0 <= i < k ==> !cs[i].tag && found[i] == cs[i].count
  }

  /** This pass puts o under watch, with no tag left. */
  ghost predicate WillWatch(cs: seq<Counter>, place: Place) {
    match place
    case Queued(phase) => phase == DefaultState
    case InClear(k, found) => ClearedSoFar(cs, k, found)
    case Resting(phase) => phase == RequiresReChecking && Untagged(cs)
    case _ => false
  }

  ghost predicate Rechecks(cs: seq<Counter>, place: Place) {
    match place
    case Queued(phase) => phase == RequiresReChecking && Untagged(cs)
    case InCheck(k, acc) => Untagged(cs) && k <= |cs| && acc == Total(cs[..k])
    case Ready => true
    case Gone => true
    case _ => false
  }

  /** This pass frees o, or cuts off its weak part. */
  ghost predicate WillCutOrFree(cs: seq<Counter>, live: bool, place: Place) {
    Rechecks(cs, place) || (place == Resting(RequiresReChecking) && Untagged(cs) && !live)
  }

  /** This pass frees o. */
  ghost predicate WillFree(cs: seq<Counter>, live: bool, place: Place) {
    Rechecks(cs, place) && (live ==> place.Ready? || place.Gone?)
  }

  ghost function Counters(s: State, o: ObjId): seq<Counter> {
    if o in s.m.objs then s.m.objs[o].counters else []
  }

  ghost function Where(s: State, o: ObjId): Place {
    PlaceOf(s.m, s.c, o)
  }

  /** A step that is none of the collector's on o. */
  lemma PlaceMutate(s: State, a: Mutation, o: ObjId)
    requires Inv(s) && CanMutate(s.n, s.m, a) && Forsaken(s.m, o)
    ensures var s2 := Next(s, Mut(a));
            && Where(s2, o) == Where(s, o) && Counters(s2, o) == Counters(s, o)
            && (BackLive(s2.m, o) ==> BackLive(s.m, o))
  {
    hide Inv, Mutate, CanMutate, BackLive, Freed;
    MutateForsaken(s, a, o);
    UnfreedMutate(s, a, o);
  }

  /** What the steps of a pass guarantee to a forsaken object. */
  ghost predicate FairStep(s: State, a: Action, o: ObjId) {
    Enabled(s, a) && OutcomeIsSum(s, a) && a != Col(Skip(o)) && !StartsPass(a)
  }

  lemma ClearTagCounters(s: State, o: ObjId)
    requires CanCollect(s, ClearTag) && s.c.pc.obj == o && o in s.m.objs
    ensures Counters(Collect(s, ClearTag), o) == Counters(s, o)[s.c.pc.k := Counters(s, o)[s.c.pc.k].TagCleared()]
  {
  }

  lemma WatchStep(s: State, x: CollectorStep, o: ObjId)
    requires Inv(s) && Forsaken(s.m, o) && FairStep(s, Col(x), o) && WillWatch(Counters(s, o), Where(s, o))
    ensures WillWatch(Counters(Collect(s, x), o), Where(Collect(s, x), o))
  {
    hide Inv, Collect, Sum, Look, HasCounter, BackLive, PlaceOf, Untagged, CanUpdate;
    match Where(s, o)
    case Queued(_) => QueuedStep(s, x, o);
    case InClear(_, _) => InClearStep(s, x, o);
    case Resting(_) => RestingStep(s, x, o);
  }

  lemma CountersUnlessCleared(s: State, x: CollectorStep, o: ObjId)
    requires Inv(s) && CanCollect(s, x) && o in s.m.objs && !Where(s, o).InClear?
    ensures Counters(Collect(s, x), o) == Counters(s, o)
  {
    hide Inv, Collect, PlaceOf;
    CollectCounters(s, x, o);
    if x == ClearTag {
      NotClearing(s, o);
    }
  }

  lemma QueuedStep(s: State, x: CollectorStep, o: ObjId)
    requires Inv(s) && CanCollect(s, x) && !x.StartPass? && o in s.m.objs && Where(s, o).Queued? && x != Skip(o)
    ensures var s2 := Collect(s, x);
            && Counters(s2, o) == Counters(s, o)
            && Where(s2, o) == (if x == StartClear(o) then InClear(0, []) else if x == StartRecheck(o) then InCheck(0, 0) else Where(s, o))
            && (x == StartClear(o) ==> Where(s, o).phase == DefaultState)
            && (x == StartRecheck(o) ==> Where(s, o).phase == RequiresReChecking)
  {
    hide Inv, Collect, CanCollect, BackLive, PlaceOf;
    PlaceCollect(s, x, o);
    QueuedCan(s, x, o);
    CountersUnlessCleared(s, x, o);
  }

  /** Clearing o finds its counts, which sum to zero. */
  lemma InClearStep(s: State, x: CollectorStep, o: ObjId)
    requires Inv(s) && Forsaken(s.m, o) && CanCollect(s, x) && !x.StartPass? && OutcomeIsSum(s, Col(x))
    requires Where(s, o).InClear? && ClearedSoFar(Counters(s, o), Where(s, o).k, Where(s, o).found)
    ensures WillWatch(Counters(Collect(s, x), o), Where(Collect(s, x), o))
  {
    hide Inv, Collect, CanCollect, Total, Sum, BackLive, PlaceOf;
    ForsakenIsZero(s, o);
    PlaceCollect(s, x, o);
    CollectCounters(s, x, o);
    InClearCan(s, x, o);
    if x.ClearTag? {
      ClearTagCounters(s, o);
    } else if x.EndClear? {
      SumIsTotal(s.c.pc.found, Counters(s, o));
    }
  }

  lemma InClearCan(s: State, x: CollectorStep, o: ObjId)
    requires CanCollect(s, x) && Where(s, o).InClear?
    ensures s.c.pc.Clearing? && s.c.pc.obj == o && Where(s, o) == InClear(s.c.pc.k, s.c.pc.found)
    ensures x.EndClear? ==> s.c.pc.k == s.n
    ensures x.ClearTag? ==> HasCounter(s.m, o, s.c.pc.k)
  {
  }

  lemma NotClearing(s: State, o: ObjId)
    requires Inv(s) && CanCollect(s, ClearTag) && !Where(s, o).InClear?
    ensures s.c.pc.obj != o
  {
    hide Ledger, Traces, Readers, Verdicts, Clears, Grace, RecheckOk;
  }

  lemma QueuedCan(s: State, x: CollectorStep, o: ObjId)
    requires CanCollect(s, x) && Where(s, o).Queued?
    ensures x == StartRecheck(o) ==> Where(s, o) == Queued(RequiresReChecking)
    ensures x == StartClear(o) || x == Skip(o) ==> Where(s, o) == Queued(DefaultState)
  {
  }

  lemma InCheckCan(s: State, x: CollectorStep, o: ObjId)
    requires CanCollect(s, x) && Where(s, o).InCheck?
    ensures s.c.pc.Rechecking? && s.c.pc.obj == o && Where(s, o) == InCheck(s.c.pc.k, s.c.pc.acc)
    ensures x.Decide? ==> s.c.pc.k == s.n
    ensures x.ReadShard? ==> HasCounter(s.m, o, s.c.pc.k)
  {
  }

  lemma CheckStep(s: State, x: CollectorStep, o: ObjId)
    requires Inv(s) && Forsaken(s.m, o) && FairStep(s, Col(x), o) && Rechecks(Counters(s, o), Where(s, o))
    ensures var s2 := Collect(s, x);
            Rechecks(Counters(s2, o), Where(s2, o)) ||
            (BackLive(s.m, o) && !BackLive(s2.m, o) && Where(s2, o) == Resting(RequiresReChecking) && Untagged(Counters(s2, o)))
  {
    hide Inv, Collect, Look, HasCounter, BackLive, PlaceOf, Untagged, CanUpdate, Total;
    match Where(s, o)
    case Queued(_) =>
      QueuedStep(s, x, o);
      NothingRead(Counters(s, o));
    case InCheck(_, _) => InCheckStep(s, x, o);
    case Ready => DoneStays(s, x, o);
    case Gone => DoneStays(s, x, o);
  }

  lemma InCheckStep(s: State, x: CollectorStep, o: ObjId)
    requires Inv(s) && Forsaken(s.m, o) && CanCollect(s, x) && !x.StartPass?
    requires Where(s, o).InCheck? && Rechecks(Counters(s, o), Where(s, o))
    ensures var s2 := Collect(s, x);
            Rechecks(Counters(s2, o), Where(s2, o)) ||
            (BackLive(s.m, o) && !BackLive(s2.m, o) && Where(s2, o) == Resting(RequiresReChecking) && Untagged(Counters(s2, o)))
  {
    hide Inv, Collect, CanCollect, Total, BackLive, PlaceOf;
    ForsakenIsZero(s, o);
    PlaceCollect(s, x, o);
    CountersUnlessCleared(s, x, o);
    InCheckCan(s, x, o);
    CheckingStep(s, x, o);
  }

  lemma NothingRead(cs: seq<Counter>)
    ensures Total(cs[..0]) == 0
  {
  }

  lemma CheckingStep(s: State, x: CollectorStep, o: ObjId)
    requires CanCollect(s, x) && o in s.m.objs && s.c.pc.Rechecking? && s.c.pc.obj == o
    ensures x.ReadShard? && s.c.pc.k < |Counters(s, o)| ==>
              Total(Counters(s, o)[..s.c.pc.k + 1]) == Total(Counters(s, o)[..s.c.pc.k]) + Counters(s, o)[s.c.pc.k].count
    ensures Counters(s, o)[..|Counters(s, o)|] == Counters(s, o)
    ensures x.Decide? && s.c.pc.acc == 0 ==> !BackLive(Collect(s, x).m, o)
  {
    if x.ReadShard? && s.c.pc.k < |Counters(s, o)| {
      TotalExtend(Counters(s, o), s.c.pc.k);
    }
  }

  lemma KeepsWatchPromise(s: State, a: Action, o: ObjId)
    requires Inv(s) && Forsaken(s.m, o) && FairStep(s, a, o) && WillWatch(Counters(s, o), Where(s, o))
    ensures WillWatch(Counters(Next(s, a), o), Where(Next(s, a), o))
  {
    hide Inv, CanMutate, Mutate, CanCollect, Collect, Forsaken, WillWatch, PlaceOf, BackLive;
    match a
    case Mut(x) => PlaceMutate(s, x, o);
    case Col(x) => WatchStep(s, x, o);
  }

  lemma KeepsCutPromise(s: State, a: Action, o: ObjId)
    requires Inv(s) && Forsaken(s.m, o) && FairStep(s, a, o)
    requires WillCutOrFree(Counters(s, o), BackLive(s.m, o), Where(s, o))
    ensures var s2 := Next(s, a); WillCutOrFree(Counters(s2, o), BackLive(s2.m, o), Where(s2, o))
  {
    StepForsaken(s, a, o);
    hide Inv, CanMutate, Mutate, Collect, Forsaken, Rechecks, BackLive, Look, HasCounter, PlaceOf, Untagged;
    match a
    case Mut(x) => PlaceMutate(s, x, o);
    case Col(x) =>
      if Rechecks(Counters(s, o), Where(s, o)) {
        CheckStep(s, x, o);
      } else {
        RestingStep(s, x, o);
      }
  }

  /** Nothing within a pass moves what is not to be updated. */
  lemma RestingStep(s: State, x: CollectorStep, o: ObjId)
    requires Inv(s) && CanCollect(s, x) && !x.StartPass? && o in s.m.objs && Where(s, o).Resting?
    ensures Where(Collect(s, x), o) == Where(s, o) && Counters(Collect(s, x), o) == Counters(s, o)
  {
    hide Inv, Collect, CanCollect, BackLive, PlaceOf;
    PlaceCollect(s, x, o);
    CountersUnlessCleared(s, x, o);
  }

  lemma KeepsFreePromise(s: State, a: Action, o: ObjId)
    requires Inv(s) && Forsaken(s.m, o) && FairStep(s, a, o)
    requires WillFree(Counters(s, o), BackLive(s.m, o), Where(s, o))
    ensures var s2 := Next(s, a); WillFree(Counters(s2, o), BackLive(s2.m, o), Where(s2, o))
  {
    StepForsaken(s, a, o);
    hide Inv, CanMutate, Mutate, Collect, Forsaken, Rechecks, BackLive, Look, HasCounter, PlaceOf, Untagged;
    match a
    case Mut(x) => PlaceMutate(s, x, o);
    case Col(x) =>
      CheckStep(s, x, o);
      if BackLive(s.m, o) {
        DoneStays(s, x, o);
      }
  }

  lemma DoneStays(s: State, x: CollectorStep, o: ObjId)
    requires Inv(s) && CanCollect(s, x) && !x.StartPass? && o in s.m.objs && (Where(s, o).Ready? || Where(s, o).Gone?)
    ensures Where(Collect(s, x), o).Ready? || Where(Collect(s, x), o).Gone?
  {
    hide Inv, Collect, CanCollect, PlaceOf;
    PlaceCollect(s, x, o);
  }

  // ----- the start and the end of a pass

  /** A pass starts with o at rest or gone, and queues it or not. */
  lemma PassStarts(s: State, todo: set<ObjId>, o: ObjId)
    requires Inv(s) && CanCollect(s, StartPass(todo)) && o in s.m.objs && Where(s, o) != Elsewhere
    ensures Where(s, o).Resting? || Where(s, o).Gone?
    ensures var s2 := Collect(s, StartPass(todo));
            && s2.m == s.m && Counters(s2, o) == Counters(s, o)
            && Where(s2, o) == if Where(s, o).Resting? && o in todo then Queued(Where(s, o).phase) else Where(s, o)
  {
    IsFiled(s, o);
    hide Inv, ReaderSet, OwnedSet, Shards, Freed;
  }

  lemma PassEnds(s: State, o: ObjId)
    requires Inv(s) && CanCollect(s, EndPass) && Rechecks(Counters(s, o), Where(s, o))
    ensures Freed(s.m, o)
  {
    hide Inv, CanCollect, Freed, Total;
    AllUpdated(s);
  }

  lemma AllUpdated(s: State)
    requires Inv(s) && CanCollect(s, EndPass)
    ensures s.c.pc.Freeing? && s.c.todo == {} && s.c.toFree == {}
  {
    hide Ledger, Traces, Readers, Verdicts, Clears, Grace, RecheckOk, Tracking;
  }

  // ----- runs

  ghost predicate FollowsSums(n: nat, run: Run) {
    FollowsStageOne(run) && FollowsPreCheck(n, run)
  }

  /** Action j starts a pass over o. */
  ghost predicate PassOver(run: Run, j: nat, o: ObjId) {
    j < |run.acts| && StartsPass(run.acts[j]) && o in run.acts[j].step.todo
  }

  /** Between actions j and k no other pass over o starts. */
  ghost predicate NoPassOver(run: Run, j: nat, k: nat, o: ObjId) {
    forall i :: j < i < k ==> !PassOver(run, i, o)
  }

  lemma StepIsFair(n: nat, run: Run, j: nat, k: nat, o: ObjId)
    requires n >= 1 && IsRun(n, run) && FollowsSums(n, run) && PassOver(run, j, o)
    requires j < k < |run.acts| && ForsakenFrom(run, j, k, o) && !StartsPass(run.acts[k])
    ensures FairStep(run.states[k], run.acts[k], o)
  {
    StepOf(n, run, k);
    hide IsRun, Enabled, ForsakenFrom, FollowsPreCheck, Sum;
    NoSkip(n, run, j, k, o);
    assert OutcomeIsSum(run.states[k], run.acts[k]);
  }

  /** A pass over a forsaken counter in the default state puts it under watch. */
  lemma {:induction false} Watches(n: nat, run: Run, j: nat, k: nat, o: ObjId)
    requires n >= 1 && IsRun(n, run) && FollowsSums(n, run) && PassOver(run, j, o) && NoPassOver(run, j, k, o)
    requires j < k < |run.states| && ForsakenFrom(run, j, k, o) && Where(run.states[j], o) == Resting(DefaultState)
    ensures WillWatch(Counters(run.states[k], o), Where(run.states[k], o))
    decreases k
  {
    hide IsRun, FollowsSums, Inv, Next, Enabled, Forsaken, PlaceOf;
    RunInv(n, run, k - 1);
    StepOf(n, run, k - 1);
    ForsakenExists(run.states[k - 1].m, o);
    var s, a := run.states[k - 1], run.acts[k - 1];
    if k - 1 == j {
      PassStep(s, a, o);
    } else {
      Watches(n, run, j, k - 1, o);
      if StartsPass(a) {
        assert !PassOver(run, k - 1, o);
        PassStep(s, a, o);
      } else {
        StepIsFair(n, run, j, k - 1, o);
        KeepsWatchPromise(s, a, o);
      }
    }
  }

  lemma PassStep(s: State, a: Action, o: ObjId)
    requires Inv(s) && Enabled(s, a) && StartsPass(a) && o in s.m.objs && Where(s, o) != Elsewhere
    ensures Where(s, o).Resting? || Where(s, o).Gone?
    ensures var s2 := Next(s, a);
            && s2.m == s.m && Counters(s2, o) == Counters(s, o)
            && Where(s2, o) == if Where(s, o).Resting? && o in a.step.todo then Queued(Where(s, o).phase) else Where(s, o)
  {
    hide Inv, Collect, CanCollect, PlaceOf;
    PassStarts(s, a.step.todo, o);
  }

  /** A pass over a watched, untagged one frees it or cuts off its weak part. */
  lemma {:induction false} CutsOrFrees(n: nat, run: Run, j: nat, k: nat, o: ObjId)
    requires n >= 1 && IsRun(n, run) && FollowsSums(n, run) && PassOver(run, j, o) && NoPassOver(run, j, k, o)
    requires j < k < |run.states| && ForsakenFrom(run, j, k, o)
    requires WillWatch(Counters(run.states[j], o), Where(run.states[j], o))
    ensures WillCutOrFree(Counters(run.states[k], o), BackLive(run.states[k].m, o), Where(run.states[k], o))
    decreases k
  {
    hide IsRun, FollowsSums, Inv, Next, Enabled, Forsaken, PlaceOf, BackLive;
    RunInv(n, run, k - 1);
    StepOf(n, run, k - 1);
    ForsakenExists(run.states[k - 1].m, o);
    var s, a := run.states[k - 1], run.acts[k - 1];
    if k - 1 == j {
      PassStep(s, a, o);
    } else {
      CutsOrFrees(n, run, j, k - 1, o);
      if StartsPass(a) {
        assert !PassOver(run, k - 1, o);
        PassStep(s, a, o);
      } else {
        StepIsFair(n, run, j, k - 1, o);
        KeepsCutPromise(s, a, o);
      }
    }
  }

  /** A pass over one that is not reachable from a weak part either frees it. */
  lemma {:induction false} Frees(n: nat, run: Run, j: nat, k: nat, o: ObjId)
    requires n >= 1 && IsRun(n, run) && FollowsSums(n, run) && PassOver(run, j, o)
    requires j < k < |run.states| && ForsakenFrom(run, j, k, o)
    requires Where(run.states[j], o).Gone? ||
             (Where(run.states[j], o) == Resting(RequiresReChecking) && Untagged(Counters(run.states[j], o)) &&
              !BackLive(run.states[j].m, o))
    ensures WillFree(Counters(run.states[k], o), BackLive(run.states[k].m, o), Where(run.states[k], o))
    decreases k
  {
    hide IsRun, FollowsSums, Inv, Next, Enabled, Forsaken, PlaceOf, BackLive, Untagged;
    RunInv(n, run, k - 1);
    StepOf(n, run, k - 1);
    ForsakenExists(run.states[k - 1].m, o);
    var s, a := run.states[k - 1], run.acts[k - 1];
    if k - 1 == j {
      PassStep(s, a, o);
    } else {
      Frees(n, run, j, k - 1, o);
      if StartsPass(a) {
        PassStep(s, a, o);
      } else {
        StepIsFair(n, run, j, k - 1, o);
        KeepsFreePromise(s, a, o);
      }
    }
  }

  // ----- leak freedom

  ghost predicate EndsPass(run: Run, e: nat) {
    e < |run.acts| && run.acts[e] == Col(EndPass)
  }

  lemma FreedAtEnd(n: nat, run: Run, j: nat, e: nat, o: ObjId)
    requires n >= 1 && IsRun(n, run) && j < e && EndsPass(run, e) && e < |run.states|
    requires WillFree(Counters(run.states[e], o), BackLive(run.states[e].m, o), Where(run.states[e], o))
    ensures Freed(run.states[e].m, o)
  {
    RunInv(n, run, e);
    assert StepAt(run, e);
    hide IsRun, Inv, PlaceOf, Rechecks, BackLive;
    PassEnds(run.states[e], o);
  }

  /** No leak: a tracked object that nobody owns or is about to own is freed by the
      end of the third pass over it, unless an upgrade revives it meanwhile. */
  lemma FreedByThirdPass(n: nat, run: Run, j1: nat, j2: nat, j3: nat, e: nat, o: ObjId)
    requires n >= 1 && IsRun(n, run) && FollowsSums(n, run) && EndsPass(run, e) && j1 < j2 < j3 < e
    requires PassOver(run, j1, o) && PassOver(run, j2, o) && PassOver(run, j3, o)
    requires NoPassOver(run, j1, j2, o) && NoPassOver(run, j2, j3, o) && ForsakenFrom(run, j1, e, o)
    requires Where(run.states[j1], o) == Resting(DefaultState)
    ensures Freed(run.states[e].m, o)
  {
    hide IsRun, FollowsSums, Inv, Forsaken, PlaceOf, BackLive;
    Watches(n, run, j1, j2, o);
    CutsOrFrees(n, run, j2, j3, o);
    RunInv(n, run, j3);
    StepOf(n, run, j3);
    ForsakenExists(run.states[j3].m, o);
    hide Next, Enabled;
    PassStep(run.states[j3], run.acts[j3], o);
    Frees(n, run, j3, e, o);
    FreedAtEnd(n, run, j3, e, o);
  }

  lemma UnreachableCollect(s: State, x: CollectorStep, o: ObjId)
    requires CanCollect(s, x) && Unreachable(s.m, o)
    ensures Unreachable(Collect(s, x).m, o)
  {
    hide Look, ReaderSet, OwnedSet, Shards, Unreachable;
    match x
    case ClearTag =>
      var m2 := Collect(s, x).m;
      assert OnlyTagsOf(s.m, m2, s.c.pc.obj);
      KeptUnreachableTags(s.m, m2, s.c.pc.obj, o);
    case Decide =>
      if BackLive(s.m, s.c.pc.obj) {
        KeptUnreachableCut(s.m, s.c.pc.obj, o);
      }
    case FreeOne(p, h) => KeptUnreachableFree(s.m, p, h, o);
    case _ =>
  }

  lemma KeptUnreachableTags(m: Shared, m2: Shared, p: ObjId, o: ObjId)
    requires OnlyTagsOf(m, m2, p) && Unreachable(m, o)
    ensures Unreachable(m2, o)
  {
    AbandonedSame(m, m2, p, o);
    if m.objs[o].weakOf.Some? {
      AbandonedSame(m, m2, p, m.objs[o].weakOf.value);
    }
  }

  lemma KeptUnreachableCut(m: Shared, p: ObjId, o: ObjId)
    requires BackLive(m, p) && Unreachable(m, o)
    ensures Unreachable(ClearBackRef(m, p), o)
  {
    var m2 := ClearBackRef(m, p);
    assert forall x :: Abandoned(m, x) ==> Abandoned(m2, x);
  }

  lemma KeptUnreachableFree(m: Shared, p: ObjId, h: nat, o: ObjId)
    requires p in m.objs && Handle(h) !in m.owners && Unreachable(m, o)
    ensures Unreachable(Release(m, p, h), o)
  {
    ReleaseReachability(m, p, h, o);
    if m.objs[o].weakOf.Some? {
      ReleaseReachability(m, p, h, m.objs[o].weakOf.value);
    }
  }

  lemma {:induction false} UnreachableStays(n: nat, run: Run, j: nat, k: nat, o: ObjId)
    requires n >= 1 && IsRun(n, run) && j <= k < |run.states| && Unreachable(run.states[j].m, o)
    ensures Unreachable(run.states[k].m, o)
  {
    hide IsRun, Inv, Unreachable;
    if j < k {
      UnreachableStays(n, run, j, k - 1, o);
      RunInv(n, run, k - 1);
      StepOf(n, run, k - 1);
      UnreachableStep(run.states[k - 1], run.acts[k - 1], o);
    }
  }

  lemma UnreachableStep(s: State, a: Action, o: ObjId)
    requires Inv(s) && Enabled(s, a) && Unreachable(s.m, o)
    ensures Unreachable(Next(s, a).m, o)
  {
    match a
    case Mut(x) => MutateEvolves(s.n, s.m, x);
    case Col(x) =>
      hide Inv, Collect, CanCollect, Unreachable;
      UnreachableCollect(s, x, o);
  }

  /** No leak: a tracked object that nobody can reach is freed by the end of the
      second pass over it, whatever threads do. */
  lemma FreedBySecondPass(n: nat, run: Run, j1: nat, j2: nat, e: nat, o: ObjId)
    requires n >= 1 && IsRun(n, run) && FollowsSums(n, run) && EndsPass(run, e) && j1 < j2 < e
    requires PassOver(run, j1, o) && PassOver(run, j2, o) && NoPassOver(run, j1, j2, o)
    requires Unreachable(run.states[j1].m, o) && Where(run.states[j1], o) == Resting(DefaultState)
    ensures Freed(run.states[e].m, o) && Unreachable(run.states[e].m, o)
  {
    hide IsRun, FollowsSums, Inv, Forsaken, PlaceOf, BackLive, Unreachable, Next, Enabled, NoPassOver;
    RunLength(n, run);
    RunInv(n, run, j2);
    StepOf(n, run, j2);
    forall i | j1 <= i <= e ensures Forsaken(run.states[i].m, o) {
      UnreachableStays(n, run, j1, i, o);
      UnreachableIsForsaken(run.states[i].m, o);
    }
    UnreachableStays(n, run, j1, j2, o);
    UnreachableNotBackLive(run.states[j2].m, o);
    Watches(n, run, j1, j2, o);
    ForsakenExists(run.states[j2].m, o);
    PassStep(run.states[j2], run.acts[j2], o);
    Frees(n, run, j2, e, o);
    FreedAtEnd(n, run, j2, e, o);
    UnreachableStays(n, run, j1, e, o);
  }

  // ----- an object dropped while under watch

  /** This pass finds a tag and sends o back to the default state. */
  ghost predicate WillReset(cs: seq<Counter>, place: Place) {
    match place
    case Queued(phase) => phase == RequiresReChecking && TaggedFrom(cs, 0)
    case InCheck(k, _) => k <= |cs| && TaggedFrom(cs, k)
    case Resting(phase) => phase == DefaultState
    case _ => false
  }

  ghost predicate TaggedFrom(cs: seq<Counter>, k: nat) {
    exists i :: k <= i < |cs| && cs[i].tag
  }

  lemma TagBeyond(cs: seq<Counter>, k: nat)
    requires TaggedFrom(cs, k)
    ensures k < |cs| && (!cs[k].tag ==> TaggedFrom(cs, k + 1))
  {
  }

  lemma ResetStep(s: State, x: CollectorStep, o: ObjId)
    requires Inv(s) && Forsaken(s.m, o) && FairStep(s, Col(x), o) && WillReset(Counters(s, o), Where(s, o))
    ensures WillReset(Counters(Collect(s, x), o), Where(Collect(s, x), o))
  {
    hide Inv, Collect, Look, HasCounter, BackLive, PlaceOf, CanUpdate, TaggedFrom;
    match Where(s, o)
    case Queued(_) => QueuedStep(s, x, o);
    case InCheck(_, _) => ResetInCheck(s, x, o);
    case Resting(_) => RestingStep(s, x, o);
  }

  lemma ResetInCheck(s: State, x: CollectorStep, o: ObjId)
    requires Inv(s) && CanCollect(s, x) && !x.StartPass? && o in s.m.objs && Where(s, o).InCheck?
    requires WillReset(Counters(s, o), Where(s, o))
    ensures WillReset(Counters(Collect(s, x), o), Where(Collect(s, x), o))
  {
    hide Inv, Collect, CanCollect, BackLive, PlaceOf, TaggedFrom;
    PlaceCollect(s, x, o);
    CountersUnlessCleared(s, x, o);
    InCheckCan(s, x, o);
    TagBeyond(Counters(s, o), s.c.pc.k);
    FullLength(s, o);
  }

  lemma FullLength(s: State, o: ObjId)
    requires Inv(s) && o in s.m.objs
    ensures |s.m.objs[o].counters| == s.n
  {
    hide Inv;
    ShapeOf(s);
  }

  lemma KeepsResetPromise(s: State, a: Action, o: ObjId)
    requires Inv(s) && Forsaken(s.m, o) && FairStep(s, a, o) && WillReset(Counters(s, o), Where(s, o))
    ensures WillReset(Counters(Next(s, a), o), Where(Next(s, a), o))
  {
    hide Inv, CanMutate, Mutate, CanCollect, Collect, Forsaken, WillReset, PlaceOf, BackLive;
    match a
    case Mut(x) => PlaceMutate(s, x, o);
    case Col(x) => ResetStep(s, x, o);
  }

  /** A pass over a watched counter that has a tag sends it back. */
  lemma {:induction false} Resets(n: nat, run: Run, j: nat, k: nat, o: ObjId)
    requires n >= 1 && IsRun(n, run) && FollowsSums(n, run) && PassOver(run, j, o) && NoPassOver(run, j, k, o)
    requires j < k < |run.states| && ForsakenFrom(run, j, k, o)
    requires Where(run.states[j], o) == Resting(RequiresReChecking) && TaggedFrom(Counters(run.states[j], o), 0)
    ensures WillReset(Counters(run.states[k], o), Where(run.states[k], o))
    decreases k
  {
    hide IsRun, FollowsSums, Inv, Next, Enabled, Forsaken, PlaceOf, TaggedFrom;
    RunInv(n, run, k - 1);
    StepOf(n, run, k - 1);
    ForsakenExists(run.states[k - 1].m, o);
    var s, a := run.states[k - 1], run.acts[k - 1];
    if k - 1 == j {
      PassStep(s, a, o);
    } else {
      Resets(n, run, j, k - 1, o);
      if StartsPass(a) {
        assert !PassOver(run, k - 1, o);
        PassStep(s, a, o);
      } else {
        StepIsFair(n, run, j, k - 1, o);
        KeepsResetPromise(s, a, o);
      }
    }
  }

  lemma UnreachableFrom(n: nat, run: Run, j: nat, k: nat, o: ObjId)
    requires n >= 1 && IsRun(n, run) && j <= k < |run.states| && Unreachable(run.states[j].m, o)
    ensures ForsakenFrom(run, j, k, o)
  {
    hide IsRun, Forsaken, Unreachable;
    forall i | j <= i <= k ensures Forsaken(run.states[i].m, o) {
      UnreachableStays(n, run, j, i, o);
      UnreachableIsForsaken(run.states[i].m, o);
    }
  }

  /** No leak, from whatever phase: an object nobody can reach, be it dropped while under
      watch so that its tag is set, is freed by the end of the third pass over it. */
  lemma FreedFromAnyPhase(n: nat, run: Run, j1: nat, j2: nat, j3: nat, e: nat, o: ObjId)
    requires n >= 1 && IsRun(n, run) && FollowsSums(n, run) && EndsPass(run, e) && j1 < j2 < j3 < e
    requires PassOver(run, j1, o) && PassOver(run, j2, o) && PassOver(run, j3, o)
    requires NoPassOver(run, j1, j2, o) && NoPassOver(run, j2, j3, o)
    requires Unreachable(run.states[j1].m, o) && o in run.states[j1].c.tracked
    ensures Freed(run.states[e].m, o)
  {
    RunLength(n, run);
    hide IsRun, FollowsSums, Inv, Forsaken, PlaceOf, BackLive, Unreachable, Next, Enabled, NoPassOver, Freed;
    UnreachableFrom(n, run, j1, e, o);
    ForsakenExists(run.states[j1].m, o);
    RestsAtPassStart(n, run, j1, o);
    if Where(run.states[j1], o) == Resting(DefaultState) {
      FreedBySecondPass(n, run, j1, j2, e, o);
    } else if TaggedFrom(Counters(run.states[j1], o), 0) {
      Resets(n, run, j1, j2, o);
      UnreachableStays(n, run, j1, j2, o);
      ForsakenExists(run.states[j2].m, o);
      RestsOnceReset(n, run, j2, o);
      FreedBySecondPass(n, run, j2, j3, e, o);
    } else {
      UnreachableNotBackLive(run.states[j1].m, o);
      Frees(n, run, j1, e, o);
      FreedAtEnd(n, run, j1, e, o);
    }
  }

  lemma RestsAtPassStart(n: nat, run: Run, j: nat, o: ObjId)
    requires n >= 1 && IsRun(n, run) && PassOver(run, j, o) && o in run.states[j].m.objs && o in run.states[j].c.tracked
    ensures Where(run.states[j], o) == Resting(DefaultState) || Where(run.states[j], o) == Resting(RequiresReChecking)
  {
    RunLength(n, run);
    hide IsRun, Inv, Next, Enabled, PlaceOf;
    RunInv(n, run, j);
    StepOf(n, run, j);
    RestsBetweenPasses(run.states[j], run.acts[j], o);
  }

  lemma RestsBetweenPasses(s: State, a: Action, o: ObjId)
    requires Inv(s) && Enabled(s, a) && StartsPass(a) && o in s.m.objs && o in s.c.tracked
    ensures Where(s, o) == Resting(DefaultState) || Where(s, o) == Resting(RequiresReChecking)
  {
    TrackedPlace(s, o);
    IsFiled(s, o);
    hide Inv, Freed;
  }

  lemma TrackedPlace(s: State, o: ObjId)
    requires Inv(s) && o in s.m.objs && o in s.c.tracked
    ensures Where(s, o) != Elsewhere
  {
    hide Inv;
  }

  lemma RestsOnceReset(n: nat, run: Run, j: nat, o: ObjId)
    requires n >= 1 && IsRun(n, run) && PassOver(run, j, o) && o in run.states[j].m.objs
    requires WillReset(Counters(run.states[j], o), Where(run.states[j], o))
    ensures Where(run.states[j], o) == Resting(DefaultState)
  {
    RunLength(n, run);
    hide IsRun, Inv, Next, Enabled, PlaceOf, WillReset;
    RunInv(n, run, j);
    StepOf(n, run, j);
    ResetRests(run.states[j], run.acts[j], o);
  }

  lemma ResetRests(s: State, a: Action, o: ObjId)
    requires Inv(s) && Enabled(s, a) && StartsPass(a) && o in s.m.objs && WillReset(Counters(s, o), Where(s, o))
    ensures Where(s, o) == Resting(DefaultState)
  {
    hide Inv, Next, Enabled, PlaceOf, TaggedFrom;
    PassStep(s, a, o);
  }
}
