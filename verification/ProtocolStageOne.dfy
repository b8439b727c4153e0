/**
 What stage one adds. The safety theorems hold whatever the two stage-one sums
 return; here the clear's sum is what the source computes. An object is then put
 under watch only if the counts its tag clear found sum to zero, and these counts
 are floors: a shard still untagged holds no less. So no re-check sums to less
 than zero, whatever threads do and whatever compare-and-sets owe.
 */
module ProtocolStageOne {
  import opened Counting
  import opened ShardCounters
  import opened Protocol
  import opened ProtocolLedger
  import opened ProtocolEvolution
  import opened ProtocolInvariant
  import opened ProtocolCollector
  import opened ProtocolTheorems

  function Sum(xs: seq<int>): int {
    if xs == [] then 0 else Sum(xs[..|xs| - 1]) + xs[|xs| - 1]
  }

  lemma SumExtend(xs: seq<int>, k: nat)
    requires k < |xs|
    ensures Sum(xs[..k + 1]) == Sum(xs[..k]) + xs[k]
  {
    assert xs[..k + 1][..k] == xs[..k];
  }

  /** The outcome of a tag clear is that of its sum. */
  ghost predicate OutcomeIsSum(s: State, a: Action) {
    a.Col? && a.step.EndClear? ==> s.c.pc.Clearing? && (a.step.sawZero <==> Sum(s.c.pc.found) == 0)
  }

  /** The run takes stage one's second branch as the source does. */
  ghost predicate FollowsStageOne(run: Run) {
    forall k :: 0 <= k < |run.acts| && k < |run.states| ==> OutcomeIsSum(run.states[k], run.acts[k])
  }

  // ----- floors

  /** A shard without a tag holds no less than was found there. */
  ghost predicate Above(cs: seq<Counter>, found: seq<int>) {
    |found| <= |cs| && forall i :: 0 <= i < |found| && !cs[i].tag ==> cs[i].count >= found[i]
  }

  ghost predicate FloorOk(n: nat, m: Shared, floors: map<ObjId, seq<int>>, o: ObjId) {
    o in floors && o in m.objs && |floors[o]| == n && Sum(floors[o]) == 0 && Above(m.objs[o].counters, floors[o])
  }

  ghost predicate Watched(c: Collector, o: ObjId) {
    o in c.tracked && c.tracked[o] == RequiresReChecking
  }

  ghost predicate WatchedOk(s: State) {
    forall o :: Watched(s.c, o) ==> FloorOk(s.n, s.m, s.c.floors, o)
  }

  ghost predicate WorkOk(m: Shared, c: Collector) {
    match c.pc
    case Clearing(o, k, found) => o in m.objs && |found| == k && Above(m.objs[o].counters, found)
    case Rechecking(o, k, acc, _) => o in c.floors && k <= |c.floors[o]| && acc >= Sum(c.floors[o][..k])
    case Panicked => false
    case _ => true
  }

  ghost predicate Floors(s: State) {
    WatchedOk(s) && WorkOk(s.m, s.c)
  }

  lemma AboveEvolves(cs: seq<Counter>, cs2: seq<Counter>, found: seq<int>)
    requires CountersEvolve(cs, cs2) && Above(cs, found)
    ensures Above(cs2, found)
  {
  }

  lemma EvolvesFloor(n: nat, m: Shared, m2: Shared, floors: map<ObjId, seq<int>>, o: ObjId)
    requires Evolves(m, m2) && FloorOk(n, m, floors, o)
    ensures FloorOk(n, m2, floors, o)
  {
    hide Sum;
    assert ObjectEvolves(m.objs[o], m2.objs[o]);
    AboveEvolves(m.objs[o].counters, m2.objs[o].counters, floors[o]);
  }

  lemma EvolvesWork(m: Shared, m2: Shared, c: Collector)
    requires Evolves(m, m2) && WorkOk(m, c)
    ensures WorkOk(m2, c)
  {
    hide Sum, Above;
    if c.pc.Clearing? {
      assert ObjectEvolves(m.objs[c.pc.obj], m2.objs[c.pc.obj]);
      AboveEvolves(m.objs[c.pc.obj].counters, m2.objs[c.pc.obj].counters, c.pc.found);
    }
  }

  lemma WorkIgnoresHistory(s: State, a: Mutation)
    requires CanMutate(s.n, s.m, a)
    ensures forall m :: WorkOk(m, s.c) ==> WorkOk(m, MutatorStep(s, a).c)
  {
    hide CanMutate, Mutate, Sum, Above, OwnedSet;
  }

  lemma MutateFloors(s: State, a: Mutation)
    requires Inv(s) && CanMutate(s.n, s.m, a) && Floors(s)
    ensures Floors(MutatorStep(s, a))
  {
    hide Mutate, CanMutate, Evolves, FloorOk, OwnedSet, WorkOk, Traces, Readers, Verdicts, Clears, Tracking, Grace, RecheckOk,
         Bookkeeping, WellFormed, Balanced, SectionsCounted, WeakLinked, MemoryDistinct;
    MutateEvolves(s.n, s.m, a);
    WorkIgnoresHistory(s, a);
    var m2, c2 := Mutate(s.n, s.m, a), MutatorStep(s, a).c;
    EvolvesWork(s.m, m2, s.c);
    forall o | Watched(c2, o) ensures FloorOk(s.n, m2, c2.floors, o) {
      assert Watched(s.c, o) && FloorOk(s.n, s.m, s.c.floors, o);
      EvolvesFloor(s.n, s.m, m2, s.c.floors, o);
    }
  }

  /** One more shard cleared: its count is the floor, and the tag of no other changes. */
  lemma ClearFloors(s: State)
    requires Inv(s) && CanCollect(s, ClearTag) && Floors(s)
    ensures Floors(Collect(s, ClearTag))
  {
    hide Ledger, Traces, Readers, Verdicts, Clears, Tracking, Grace, RecheckOk, Sum;
    var s2 := Collect(s, ClearTag);
    forall o | Watched(s2.c, o) ensures FloorOk(s2.n, s2.m, s2.c.floors, o) {
      assert FloorOk(s.n, s.m, s.c.floors, o) && o != s.c.pc.obj;
    }
  }

  lemma EndClearFloors(s: State, sawZero: bool)
    requires CanCollect(s, EndClear(sawZero)) && Floors(s) && OutcomeIsSum(s, Col(EndClear(sawZero)))
    ensures Floors(Collect(s, EndClear(sawZero)))
  {
    hide Sum, Above;
    var s2 := Collect(s, EndClear(sawZero));
    forall o | Watched(s2.c, o) ensures FloorOk(s2.n, s2.m, s2.c.floors, o) {
      assert o != s.c.pc.obj ==> Watched(s.c, o) && FloorOk(s.n, s.m, s.c.floors, o);
    }
  }

  lemma RecheckStartFloors(s: State, o: ObjId)
    requires CanCollect(s, StartRecheck(o)) && Floors(s)
    ensures Floors(Collect(s, StartRecheck(o)))
  {
    hide Above, Look;
    assert Watched(s.c, o) && FloorOk(s.n, s.m, s.c.floors, o);
    var s2 := Collect(s, StartRecheck(o));
    forall p | Watched(s2.c, p) ensures FloorOk(s2.n, s2.m, s2.c.floors, p) {
      assert Watched(s.c, p);
    }
  }

  lemma ReadFloors(s: State)
    requires Inv(s) && CanCollect(s, ReadShard) && Floors(s)
    ensures Floors(Collect(s, ReadShard))
  {
    hide Balanced, SectionsCounted, WeakLinked, MemoryDistinct, Traces, Readers, Verdicts, Clears, Tracking, Grace,
         RecheckOk, Sum;
    var s2, o, k := Collect(s, ReadShard), s.c.pc.obj, s.c.pc.k;
    assert Watched(s.c, o) && FloorOk(s.n, s.m, s.c.floors, o);
    forall p | Watched(s2.c, p) ensures FloorOk(s2.n, s2.m, s2.c.floors, p) {
      assert Watched(s.c, p) && FloorOk(s.n, s.m, s.c.floors, p);
    }
    assert |s.m.objs[o].counters| == s.n;
    SumExtend(s.c.floors[o], k);
  }

  /** The sum a re-check decides on is at least the floors' sum, which is zero. */
  lemma DecidedNotNegative(s: State)
    requires Inv(s) && CanCollect(s, Decide) && Floors(s)
    ensures s.c.pc.acc >= 0 && Watched(s.c, s.c.pc.obj)
  {
    hide Ledger, Traces, Readers, Verdicts, Clears, Tracking, Grace, RecheckOk, Sum, Above;
    var o := s.c.pc.obj;
    assert Watched(s.c, o) && FloorOk(s.n, s.m, s.c.floors, o);
    assert s.c.floors[o][..s.n] == s.c.floors[o];
  }

  lemma DecideFloors(s: State)
    requires Inv(s) && CanCollect(s, Decide) && Floors(s)
    ensures Floors(Collect(s, Decide))
  {
    DecidedNotNegative(s);
    hide Inv, Sum, Above, Collect, CanCollect;
    var s2 := Collect(s, Decide);
    DecisionBooks(s);
    forall p | Watched(s2.c, p) ensures FloorOk(s2.n, s2.m, s2.c.floors, p) {
      DecisionCounters(s, p);
      assert Watched(s.c, p) && FloorOk(s.n, s.m, s.c.floors, p);
    }
  }

  lemma DecisionBooks(s: State)
    requires CanCollect(s, Decide) && s.c.pc.acc >= 0 && Watched(s.c, s.c.pc.obj)
    ensures var s2 := Collect(s, Decide);
            && s2.n == s.n && s2.c.pc.Updating? && s2.c.floors == s.c.floors
            && forall p :: Watched(s2.c, p) ==> Watched(s.c, p)
  {
    hide BackLive, ClearBackRef;
  }

  lemma DecisionCounters(s: State, p: ObjId)
    requires CanCollect(s, Decide) && p in s.m.objs
    ensures p in Collect(s, Decide).m.objs && Collect(s, Decide).m.objs[p].counters == s.m.objs[p].counters
  {
  }

  /** Steps that change no counter and put nothing new under watch. */
  lemma OtherFloors(s: State, x: CollectorStep)
    requires CanCollect(s, x) && Floors(s)
    requires !x.ClearTag? && !x.EndClear? && !x.StartRecheck? && !x.ReadShard? && !x.Decide?
    ensures Floors(Collect(s, x))
  {
    hide Sum, Above, ReaderSet, OwnedSet, Shards;
    var s2 := Collect(s, x);
    forall p | Watched(s2.c, p) ensures FloorOk(s2.n, s2.m, s2.c.floors, p) {
      assert Watched(s.c, p) && FloorOk(s.n, s.m, s.c.floors, p);
    }
    if x.StartClear? {
      StartClearWork(s, x.o);
    }
  }

  lemma StartClearWork(s: State, o: ObjId)
    requires CanCollect(s, StartClear(o))
    ensures WorkOk(s.m, Collect(s, StartClear(o)).c)
  {
  }

  lemma StepFloors(s: State, a: Action)
    requires Inv(s) && Enabled(s, a) && Floors(s) && OutcomeIsSum(s, a)
    ensures Floors(Next(s, a))
  {
    hide Inv, CanMutate, Mutate, CanCollect, Collect, Floors, MutatorStep, OutcomeIsSum;
    match a
    case Mut(x) => MutateFloors(s, x);
    case Col(x) =>
      match x
      case ClearTag => ClearFloors(s);
      case EndClear(sawZero) => EndClearFloors(s, sawZero);
      case StartRecheck(o) => RecheckStartFloors(s, o);
      case ReadShard => ReadFloors(s);
      case Decide => DecideFloors(s);
      case _ => OtherFloors(s, x);
  }

  lemma {:induction false} RunFloors(n: nat, run: Run, k: nat)
    requires n >= 1 && IsRun(n, run) && k < |run.states| && FollowsStageOne(run)
    ensures Floors(run.states[k])
  {
    hide IsRun, Inv, Next, Enabled, OutcomeIsSum;
    if k == 0 {
      StartsEmpty(n, run);
    } else {
      RunFloors(n, run, k - 1);
      RunInv(n, run, k - 1);
      StepOf(n, run, k - 1);
      assert OutcomeIsSum(run.states[k - 1], run.acts[k - 1]);
      hide Floors;
      StepFloors(run.states[k - 1], run.acts[k - 1]);
    }
  }

  /** The collector's assertion that a re-checked sum is not negative never fails:
      in no run, whatever threads do and whatever compare-and-sets owe. */
  lemma SumAssertionHolds(n: nat, run: Run, k: nat)
    requires n >= 1 && IsRun(n, run) && k < |run.states| && FollowsStageOne(run)
    ensures run.states[k].c.pc != Panicked
    ensures run.states[k].c.pc.Rechecking? && run.states[k].c.pc.k == n ==> run.states[k].c.pc.acc >= 0
  {
    hide IsRun, Inv, Sum, Above;
    RunFloors(n, run, k);
    RunInv(n, run, k);
    var s := run.states[k];
    if s.c.pc.Rechecking? && s.c.pc.k == n {
      RecheckedIsWatched(s);
      assert Watched(s.c, s.c.pc.obj) && FloorOk(n, s.m, s.c.floors, s.c.pc.obj);
      assert s.c.floors[s.c.pc.obj][..n] == s.c.floors[s.c.pc.obj];
    }
  }
}
