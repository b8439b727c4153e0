/**
 Two runs the code allows, one shard and one object each.

 A compare-and-set counts its new pointer only after the exchange, so an object
 can be freed while the borrowed handle lives. A drop reads its object once more
 after its decrement, so that read can come after the free. These runs show that
 the conditions in the theorems are needed. Both pass stage one as the source
 does: both of its sums are zero.
 */
module ProtocolHazards {
  import opened Counting
  import opened ShardCounters
  import opened Protocol
  import opened ProtocolTheorems
  import opened ProtocolStageOne

  /** A tag clear follows a pre-check that reads every shard just before it and sums to zero. */
  ghost predicate PreCheckIsZero(s: State, a: Action) {
    a.Col? && a.step.StartClear? ==> a.step.o in s.m.objs && Total(s.m.objs[a.step.o].counters) == 0
  }

  ghost predicate Runs(run: Run) {
    && IsRun(1, run) && |run.states| > 0 && FollowsStageOne(run)
    && forall k :: 0 <= k < |run.acts| && k < |run.states| ==> PreCheckIsZero(run.states[k], run.acts[k])
  }

  ghost function Last(run: Run): State
    requires |run.states| > 0
  {
    run.states[|run.states| - 1]
  }

  ghost function Begin(): Run {
    Run([Initial(1)], [])
  }

  ghost function Extend(run: Run, a: Action): Run
    requires |run.states| > 0 && Enabled(Last(run), a)
  {
    Run(run.states + [Next(Last(run), a)], run.acts + [a])
  }

  lemma Extended(run: Run, a: Action)
    requires Runs(run) && Enabled(Last(run), a) && OutcomeIsSum(Last(run), a) && PreCheckIsZero(Last(run), a)
    ensures Runs(Extend(run, a)) && Last(Extend(run, a)) == Next(Last(run), a)
  {
    hide OutcomeIsSum, PreCheckIsZero, Next, Enabled;
    var r := Extend(run, a);
    forall k | 0 <= k < |r.acts|
      ensures StepAt(r, k) && OutcomeIsSum(r.states[k], r.acts[k]) && PreCheckIsZero(r.states[k], r.acts[k])
    {
      if k < |run.acts| {
        assert StepAt(run, k);
        assert OutcomeIsSum(run.states[k], run.acts[k]) && PreCheckIsZero(run.states[k], run.acts[k]);
      }
    }
  }

  /** The one object, with its one shard counter. */
  ghost function Thing(counter: Counter, freed: bool): Object {
    Object([counter], None, None, None, 7, 7, freed)
  }

  ghost function Memory(owners: map<OwnerId, ObjId>, pcs: map<ThreadId, Pc>, counter: Counter, freed: bool): Shared {
    Shared(map[0 := Thing(counter, freed)], owners, pcs, [0])
  }

  /** Between passes, with the one object tracked. */
  ghost predicate Resting(s: State, phase: Phase) {
    && s.n == 1 && s.c.pc == Between && s.c.todo == {} && s.c.toFree == {}
    && s.c.tracked == map[0 := phase]
  }

  ghost predicate Awake(s: State, m: Shared, phase: Phase) {
    && s.n == 1 && s.m == m && s.c.pc == Updating && s.c.todo == {0} && s.c.toFree == {}
    && s.c.tracked == map[0 := phase]
  }

  lemma Spin(run: Run, m: Shared, phase: Phase) returns (r: Run)
    requires Runs(run) && Last(run).m == m && m.section == [0] && Resting(Last(run), phase)
    ensures Runs(r) && Awake(Last(r), m, phase)
  {
    Extended(run, Col(StartPass({0})));
    r := Extend(run, Col(StartPass({0})));
    assert Last(r).c.pc.unseen == {0};
    Extended(r, Col(ObserveEmpty(0)));
    r := Extend(r, Col(ObserveEmpty(0)));
    Extended(r, Col(EndSpin));
    r := Extend(r, Col(EndSpin));
  }

  lemma ClearPass(run: Run, owners: map<OwnerId, ObjId>, pcs: map<ThreadId, Pc>) returns (r: Run)
    requires Runs(run) && Awake(Last(run), Memory(owners, pcs, Counter(0, true), false), DefaultState)
    ensures Runs(r) && Last(r).m == Memory(owners, pcs, ZERO, false)
    ensures Resting(Last(r), RequiresReChecking)
  {
    hide IsRun, FollowsStageOne;
    r := ClearOnly(run, owners, pcs);
    Extended(r, Col(StartFree));
    r := Extend(r, Col(StartFree));
    Extended(r, Col(EndPass));
    r := Extend(r, Col(EndPass));
  }

  lemma ClearOnly(run: Run, owners: map<OwnerId, ObjId>, pcs: map<ThreadId, Pc>) returns (r: Run)
    requires Runs(run) && Awake(Last(run), Memory(owners, pcs, Counter(0, true), false), DefaultState)
    ensures Runs(r) && Last(r).m == Memory(owners, pcs, ZERO, false)
    ensures Last(r).n == 1 && Last(r).c.pc == Updating && Last(r).c.todo == {} && Last(r).c.toFree == {}
    ensures Last(r).c.tracked == map[0 := RequiresReChecking]
  {
    hide IsRun, FollowsStageOne;
    r := TagCleared(run, owners, pcs);
    assert Sum([0]) == 0;
    Extended(r, Col(EndClear(true)));
    r := Extend(r, Col(EndClear(true)));
  }

  lemma TagCleared(run: Run, owners: map<OwnerId, ObjId>, pcs: map<ThreadId, Pc>) returns (r: Run)
    requires Runs(run) && Awake(Last(run), Memory(owners, pcs, Counter(0, true), false), DefaultState)
    ensures Runs(r) && Last(r).m == Memory(owners, pcs, ZERO, false)
    ensures Last(r).n == 1 && Last(r).c.pc == Clearing(0, 1, [0]) && Last(r).c.todo == {} && Last(r).c.toFree == {}
    ensures Last(r).c.tracked == map[0 := DefaultState]
  {
    hide IsRun, FollowsStageOne;
    assert Total([Counter(0, true)]) == 0;
    Extended(run, Col(StartClear(0)));
    r := Extend(run, Col(StartClear(0)));
    Extended(r, Col(ClearTag));
    r := Extend(r, Col(ClearTag));
    assert Last(r).m.objs[0].counters == [ZERO];
    assert Last(r).m.objs == map[0 := Thing(ZERO, false)];
  }

  lemma Recheck(run: Run, owners: map<OwnerId, ObjId>, pcs: map<ThreadId, Pc>) returns (r: Run)
    requires Runs(run) && Awake(Last(run), Memory(owners, pcs, ZERO, false), RequiresReChecking)
    ensures Runs(r) && Last(r).n == 1 && Last(r).m == Memory(owners, pcs, ZERO, false)
    ensures Last(r).c.pc == Updating && Last(r).c.todo == {} && Last(r).c.toFree == {0}
  {
    hide IsRun, FollowsStageOne, Look;
    r := ShardRead(run, owners, pcs);
    Extended(r, Col(Decide));
    r := Extend(r, Col(Decide));
  }

  lemma ShardRead(run: Run, owners: map<OwnerId, ObjId>, pcs: map<ThreadId, Pc>) returns (r: Run)
    requires Runs(run) && Awake(Last(run), Memory(owners, pcs, ZERO, false), RequiresReChecking)
    ensures Runs(r) && Last(r).n == 1 && Last(r).m == Memory(owners, pcs, ZERO, false)
    ensures var pc := Last(r).c.pc; pc.Rechecking? && pc.obj == 0 && pc.k == 1 && pc.acc == 0
    ensures Last(r).c.todo == {} && Last(r).c.toFree == {}
  {
    hide IsRun, FollowsStageOne, Look;
    Extended(run, Col(StartRecheck(0)));
    r := Extend(run, Col(StartRecheck(0)));
    Extended(r, Col(ReadShard));
    r := Extend(r, Col(ReadShard));
  }

  lemma FreeIt(run: Run, owners: map<OwnerId, ObjId>, pcs: map<ThreadId, Pc>) returns (r: Run)
    requires Runs(run) && Last(run).m == Memory(owners, pcs, ZERO, false)
    requires Last(run).c.pc == Updating && Last(run).c.todo == {} && Last(run).c.toFree == {0}
    requires WeakField(0) !in owners && Handle(9) !in owners
    ensures Runs(r) && Last(r).m == Memory(owners, pcs, ZERO, true)
  {
    Extended(run, Col(StartFree));
    r := Extend(run, Col(StartFree));
    Extended(r, Col(FreeOne(0, 9)));
    r := Extend(r, Col(FreeOne(0, 9)));
  }

  /** One pass clears the tag, the next re-checks. */
  lemma TwoPasses(run: Run, owners: map<OwnerId, ObjId>, pcs: map<ThreadId, Pc>) returns (r: Run)
    requires Runs(run) && Last(run).m == Memory(owners, pcs, Counter(0, true), false)
    requires Resting(Last(run), DefaultState)
    ensures Runs(r) && Last(r).n == 1 && Last(r).m == Memory(owners, pcs, ZERO, false)
    ensures Last(r).c.pc == Updating && Last(r).c.todo == {} && Last(r).c.toFree == {0}
  {
    hide Next, Enabled, IsRun, FollowsStageOne;
    r := Spin(run, Memory(owners, pcs, Counter(0, true), false), DefaultState);
    r := ClearPass(r, owners, pcs);
    r := Spin(r, Memory(owners, pcs, ZERO, false), RequiresReChecking);
    r := Recheck(r, owners, pcs);
  }

  // ----- what the threads do first

  /** The collector has not noticed the object yet. */
  ghost predicate Young(s: State, m: Shared) {
    && s.n == 1 && s.m == m && s.c.pending == {0} && s.c.tracked == map[]
    && s.c.pc == Between && s.c.todo == {} && s.c.toFree == {}
  }

  lemma Born() returns (r: Run)
    ensures Runs(r) && Young(Last(r), Memory(map[Handle(0) := 0], map[], Counter(1, false), false))
  {
    Extended(Begin(), Mut(New(0, 0, 7, 7, 0)));
    r := Extend(Begin(), Mut(New(0, 0, 7, 7, 0)));
    assert Zeroes(1)[0 := ZERO.Incremented()] == [Counter(1, false)];
  }

  lemma Tracked(run: Run, m: Shared) returns (r: Run)
    requires Runs(run) && Young(Last(run), m)
    ensures Runs(r) && Last(r).m == m && Resting(Last(r), DefaultState)
  {
    Extended(run, Col(TakePending({0})));
    r := Extend(run, Col(TakePending({0})));
  }

  /** Thread t drops handle h, counted in the only shard. */
  lemma Dropped(run: Run, owners: map<OwnerId, ObjId>, pcs: map<ThreadId, Pc>, counter: Counter, t: ThreadId, h: nat)
    returns (r: Run)
    requires Runs(run) && Young(Last(run), Memory(owners, pcs, counter, false))
    requires Handle(h) in owners && owners[Handle(h)] == 0 && t !in pcs && !Pinned(Memory(owners, pcs, counter, false), h)
    ensures Runs(r)
    ensures Young(Last(r), Memory(owners - {Handle(h)}, pcs[t := Trailing(0)], counter.DecrementedAndTagged(), false))
  {
    Extended(run, Mut(Drop(t, h, 0)));
    r := Extend(run, Mut(Drop(t, h, 0)));
    assert Last(r).m.objs[0].counters == [counter.DecrementedAndTagged()];
    assert Last(r).m.objs == map[0 := Thing(counter.DecrementedAndTagged(), false)];
  }

  /** Thread t sets empty cell c to the object of handle 0, which it borrows. */
  lemma Installed(run: Run, owners: map<OwnerId, ObjId>, pcs: map<ThreadId, Pc>, counter: Counter, t: ThreadId, c: nat)
    returns (r: Run)
    requires Runs(run) && Young(Last(run), Memory(owners, pcs, counter, false))
    requires Handle(0) in owners && owners[Handle(0)] == 0 && Cell(c) !in owners && Handle(9) !in owners && t !in pcs
    ensures Runs(r)
    ensures Young(Last(r), Memory(owners[Cell(c) := 0], pcs[t := CasDebt(0, 0)], counter, false))
  {
    Extended(run, Mut(CompareAndSet(t, c, None, Some(0), 9)));
    r := Extend(run, Mut(CompareAndSet(t, c, None, Some(0), 9)));
  }

  /** Somebody swaps the pointer out of cell c into handle h. */
  lemma SwappedOut(run: Run, owners: map<OwnerId, ObjId>, pcs: map<ThreadId, Pc>, counter: Counter, c: nat, h: nat)
    returns (r: Run)
    requires Runs(run) && Young(Last(run), Memory(owners, pcs, counter, false))
    requires Cell(c) in owners && owners[Cell(c)] == 0 && Handle(h) !in owners
    ensures Runs(r)
    ensures Young(Last(r), Memory((owners - {Cell(c)})[Handle(h) := 0], pcs, counter, false))
  {
    Extended(run, Mut(Swap(c, None, h)));
    r := Extend(run, Mut(Swap(c, None, h)));
  }

  /** A compare-and-set by t on cell c, undone by a swap into handle h and a drop by u
      before the count is made up: one count less than references. */
  lemma Robbed(run: Run, owners: map<OwnerId, ObjId>, pcs: map<ThreadId, Pc>, counter: Counter,
               t: ThreadId, c: nat, h: nat, u: ThreadId) returns (r: Run)
    requires Runs(run) && Young(Last(run), Memory(owners, pcs, counter, false)) && owners == map[Handle(0) := 0]
    requires h != 0 && t !in pcs && u !in pcs && t != u && !Pinned(Memory(owners, pcs, counter, false), h)
    ensures Runs(r)
    ensures Young(Last(r), Memory(owners, pcs[t := CasDebt(0, 0)][u := Trailing(0)], counter.DecrementedAndTagged(), false))
  {
    hide Next, Enabled;
    r := Installed(run, owners, pcs, counter, t, c);
    var pcs1 := pcs[t := CasDebt(0, 0)];
    r := SwappedOut(r, owners[Cell(c) := 0], pcs1, counter, c, h);
    var owners1 := owners[Handle(h) := 0];
    assert (owners[Cell(c) := 0] - {Cell(c)})[Handle(h) := 0] == owners1;
    r := Dropped(r, owners1, pcs1, counter, u, h);
    assert owners1 - {Handle(h)} == owners;
  }

  // ----- the hazards

  /** The read a drop makes after its decrement can find its object freed. */
  lemma TrailingReadAfterFree() returns (r: Run)
    ensures Runs(r) && Freed(Last(r).m, 0)
    ensures CanMutate(1, Last(r).m, TrailingRead(3)) && PcOf(Last(r).m, 3) == Trailing(0)
  {
    hide Next, Enabled;
    r := Born();
    r := Dropped(r, map[Handle(0) := 0], map[], Counter(1, false), 3, 0);
    assert map[Handle(0) := 0] - {Handle(0)} == map[];
    r := Tracked(r, Memory(map[], map[3 := Trailing(0)], Counter(0, true), false));
    r := TwoPasses(r, map[], map[3 := Trailing(0)]);
    r := FreeIt(r, map[], map[3 := Trailing(0)]);
  }

  /** An object can be freed while a handle on it lives, and a step about to touch it is enabled. */
  lemma FreedWhileOwned() returns (r: Run)
    ensures Runs(r) && Freed(Last(r).m, 0) && Owned(Last(r).m, 0)
    ensures CanMutate(1, Last(r).m, PayDebt(3, 0)) && 0 in Touched(Last(r).m, PayDebt(3, 0))
  {
    hide Next, Enabled;
    var owners := map[Handle(0) := 0];
    var pcs := map[3 := CasDebt(0, 0), 4 := Trailing(0)];
    r := Born();
    r := Robbed(r, owners, map[], Counter(1, false), 3, 0, 2, 4);
    assert map[][3 := CasDebt(0, 0)][4 := Trailing(0)] == pcs;
    r := Tracked(r, Memory(owners, pcs, Counter(0, true), false));
    r := TwoPasses(r, owners, pcs);
    r := FreeIt(r, owners, pcs);
    assert Handle(0) in Last(r).m.owners;
  }
}
