/**
 What the whole allocator achieves: which units an allocation tries and unlists,
 and what a round of maintenance leaves, while all other threads go on.
 */
module AllocRounds {
  import opened Counting
  import opened AllocLayout
  import opened AllocGroup
  import opened AllocMaintenance

  /** Slots of a group's units that are in use now were in use then. */
  ghost predicate OnlyFreed(units: seq<nat>, now: set<Ptr>, earlier: set<Ptr>) {
    forall x, s: nat :: 0 <= x < |units| && Ptr(units[x], s) in now ==> Ptr(units[x], s) in earlier
  }

  lemma GroupOf(st: State, g: nat)
    requires Inv(st) && g <= Shards(st)
    ensures |st.groups| == Shards(st) + 1
    ensures forall x :: 0 <= x < |st.groups[g].units| ==> st.groups[g].units[x] in st.memory
    ensures forall b :: AllUnits(st.groups)[b] <= 1
  {
    hide AllUnits, FlagsOk, MemoryApart, ListsOk, PcOk;
    forall x | 0 <= x < |st.groups[g].units| ensures st.groups[g].units[x] in st.memory {
      MemberIsLive(st, g, x);
    }
  }

  /** Only an allocation in a group itself takes slots of its units into use. */
  lemma OnlyOwnGroup(st: State, step: Step, g: nat)
    requires Inv(st) && Enabled(st, step) && g <= Shards(st) && step != TrySlot(g)
    ensures |st.groups| == Shards(st) + 1
    ensures OnlyFreed(st.groups[g].units, Next(st, step).outstanding, st.outstanding)
  {
    GroupOf(st, g);
    match step
    case TrySlot(i) =>
      GroupOf(st, i);
      hide Inv, AllUnits;
      var unit := Listed(st, i);
      forall x, s: nat | 0 <= x < |st.groups[g].units| && Ptr(st.groups[g].units[x], s) in Next(st, step).outstanding
        ensures Ptr(st.groups[g].units[x], s) in st.outstanding
      {
        if unit == Some(st.groups[g].units[x]) {
          OnePlace(st.groups, g, x, i, st.groups[i].toCheck[0], unit.value);
        }
      }
    case MakeUnit(i, base) =>
      hide Inv, AllUnits, NewUnit;
      assert base in st.memory ==> UnitsApart(base, base, Shards(st));
      assert DataLenInBytes(Shards(st)) > 0;
    case Free(p) => hide Inv;
    case Lock(i) => hide Inv;
    case Collect => CollectKeepsAllocations(st);
  }

  lemma CollectKeepsAllocations(st: State)
    requires Enabled(st, Collect)
    ensures Next(st, Collect).outstanding == st.outstanding
  {
  }

  lemma OnlyFreedTwice(units: seq<nat>, a: set<Ptr>, b: set<Ptr>, c: set<Ptr>)
    requires OnlyFreed(units, a, b) && OnlyFreed(units, b, c)
    ensures OnlyFreed(units, a, c)
  {
  }

  // ----- a round of maintenance

  /** What the readings of a round that began with `start` in use have made of the group. */
  ghost predicate RoundSoFarOk(g: Group, pc: Pc, now: set<Ptr>, start: set<Ptr>) {
    && OnlyFreed(g.units, now, start)
    && match pc
       case Scan(_, k, _) => KeptUsed(g, k, start)
       case Dropping(_, k, _) => KeptUsed(g, k, start)
       case Relist(_, k, s) =>
         KeptUsed(g, |g.units|, start) && ListTells(g, k, now, start) &&
         (k < |g.units| ==> forall j: nat :: j < s ==> Ptr(g.units[k], j) in start)
       case SwapBack(_) => KeptUsed(g, |g.units|, start) && ListTells(g, |g.units|, now, start)
       case _ => true
  }

  /** The first k units had a slot in use at the start. */
  ghost predicate KeptUsed(g: Group, k: nat, start: set<Ptr>) {
    k <= |g.units| && forall x :: 0 <= x < k ==> !Empty(g.units[x], start)
  }

  /** Of the first k units, an unlisted one was full at the start and a listed one has a free slot. */
  ghost predicate ListTells(g: Group, k: nat, now: set<Ptr>, start: set<Ptr>) {
    && k <= |g.units|
    && (forall x :: 0 <= x < k && x !in g.toCheck ==> Full(g.units[x], start))
    && (forall x :: x in g.toCheck ==> x < |g.units| && !Full(g.units[x], now))
  }

  ghost function HeldGroup(st: State): Group
    requires st.groups != []
  {
    st.groups[|st.groups| - 1]
  }

  /** Another thread's step: the group is left alone, and slots of it are only freed. */
  lemma RoundOtherStep(st: State, step: Step, start: set<Ptr>)
    requires Inv(st) && Enabled(st, step) && !step.Collect? && st.groups != []
    requires RoundSoFarOk(HeldGroup(st), st.pc, st.outstanding, start)
    ensures var st2 := Next(st, step);
            st2.groups != [] && RoundSoFarOk(HeldGroup(st2), st2.pc, st2.outstanding, start)
  {
    OnlyOwnGroup(st, step, Shards(st));
    SameHeld(st, step);
    hide Inv, Next, Enabled;
    var st2 := Next(st, step);
    OnlyFreedTwice(HeldGroup(st).units, st2.outstanding, st.outstanding, start);
    forall x | 0 <= x < |HeldGroup(st).units| && !Full(HeldGroup(st).units[x], st.outstanding)
      ensures !Full(HeldGroup(st).units[x], st2.outstanding)
    {
      StaysNotFull(HeldGroup(st).units, x, st2.outstanding, st.outstanding);
    }
  }

  lemma StaysNotFull(units: seq<nat>, x: nat, now: set<Ptr>, before: set<Ptr>)
    requires OnlyFreed(units, now, before) && x < |units| && !Full(units[x], before)
    ensures !Full(units[x], now)
  {
    var s: nat :| s < SLOT_COUNT_PER_UNIT && Ptr(units[x], s) !in before;
  }

  lemma SameHeld(st: State, step: Step)
    requires Enabled(st, step) && !step.Collect?
    ensures var st2 := Next(st, step); st2.groups != [] && HeldGroup(st2) == HeldGroup(st) && st2.pc == st.pc
  {
  }

  lemma RoundScan(st: State, start: set<Ptr>)
    requires Inv(st) && Enabled(st, Collect) && st.pc.Scan?
    requires RoundSoFarOk(HeldGroup(st), st.pc, st.outstanding, start)
    ensures var st2 := Next(st, Collect); RoundSoFarOk(HeldGroup(st2), st2.pc, st2.outstanding, start)
  {
    var n, g := Shards(st), HeldGroup(st);
    if st.pc.k < |g.units| {
      MemberIsLive(st, n, st.pc.k);
      FlagReads(st, g.units[st.pc.k], st.pc.s);
    }
    hide UnitsPartitioned, FlagsOk, MemoryApart, ListsOk;
  }

  lemma RoundDrop(st: State, start: set<Ptr>)
    requires Inv(st) && Enabled(st, Collect) && st.pc.Dropping?
    requires RoundSoFarOk(HeldGroup(st), st.pc, st.outstanding, start)
    ensures var st2 := Next(st, Collect); RoundSoFarOk(HeldGroup(st2), st2.pc, st2.outstanding, start)
  {
    hide UnitsPartitioned, FlagsOk, MemoryApart, ListsOk;
  }

  lemma RoundRelist(st: State, start: set<Ptr>)
    requires Inv(st) && Enabled(st, Collect) && st.pc.Relist?
    requires RoundSoFarOk(HeldGroup(st), st.pc, st.outstanding, start)
    ensures var st2 := Next(st, Collect); RoundSoFarOk(HeldGroup(st2), st2.pc, st2.outstanding, start)
  {
    var n, g := Shards(st), HeldGroup(st);
    if st.pc.k < |g.units| {
      MemberIsLive(st, n, st.pc.k);
      FlagReads(st, g.units[st.pc.k], st.pc.s);
    }
    hide UnitsPartitioned, FlagsOk, MemoryApart, ListsOk;
  }

  lemma RoundStep(st: State, step: Step, i: nat, start: set<Ptr>)
    requires Inv(st) && Enabled(st, step) && InRound(st.pc, i) && InRound(Next(st, step).pc, i) && st.groups != []
    requires RoundSoFarOk(HeldGroup(st), st.pc, st.outstanding, start)
    ensures var st2 := Next(st, step);
            st2.groups != [] && RoundSoFarOk(HeldGroup(st2), st2.pc, st2.outstanding, start)
  {
    if !step.Collect? {
      RoundOtherStep(st, step, start);
    } else {
      StepInv(st, step);
      GroupCount(Next(st, step));
      hide Inv, RoundSoFarOk;
      match st.pc
      case Scan(_, _, _) => RoundScan(st, start);
      case Dropping(_, _, _) => RoundDrop(st, start);
      case Relist(_, _, _) => RoundRelist(st, start);
      case SwapBack(_) => SwapBackLeaves(st, i);
    }
  }

  lemma SwapBackLeaves(st: State, i: nat)
    requires Enabled(st, Collect) && st.pc.SwapBack?
    ensures !InRound(Next(st, Collect).pc, st.pc.i)
  {
  }

  /** Round i is under way from moment f, its first, to moment k. Round n is the filling group's own. */
  ghost predicate RoundRuns(n: nat, run: Run, i: nat, f: nat, k: nat) {
    && IsRun(n, run) && i <= n && f <= k < |run.states| && run.states[f].pc == Scan(i, 0, 0)
    && forall m :: f <= m <= k ==> InRound(run.states[m].pc, i)
  }

  lemma {:induction false} RoundHolds(n: nat, run: Run, i: nat, f: nat, k: nat)
    requires RoundRuns(n, run, i, f, k)
    ensures |run.states[k].groups| == n + 1
    ensures RoundSoFarOk(HeldGroup(run.states[k]), run.states[k].pc, run.states[k].outstanding, run.states[f].outstanding)
    decreases k
  {
    hide IsRun, Inv, Next, Enabled, Empty, Full;
    RunInv(n, run, k);
    GroupCount(run.states[k]);
    if f < k {
      RoundHolds(n, run, i, f, k - 1);
      RunInv(n, run, k - 1);
      StepOf(n, run, k - 1);
      RoundStep(run.states[k - 1], run.steps[k - 1], i, run.states[f].outstanding);
    }
  }

  /** The round has read all its flags. */
  ghost predicate RoundDone(st: State) {
    st.groups != [] && (st.pc.SwapBack? || (st.pc.Relist? && st.pc.k == |Held(st)|))
  }

  /** What a round of maintenance achieves, whatever threads do meanwhile. A unit it
      keeps had a slot in use when it began. A unit it leaves unlisted was full when
      it began, so one with a free slot then is listed; and a listed unit has a free
      slot now. */
  lemma RoundRelists(n: nat, run: Run, i: nat, f: nat, k: nat, x: nat)
    requires RoundRuns(n, run, i, f, k) && RoundDone(run.states[k]) && x < |HeldGroup(run.states[k]).units|
    ensures var g := HeldGroup(run.states[k]);
            && !Empty(g.units[x], run.states[f].outstanding)
            && (x !in g.toCheck ==> Full(g.units[x], run.states[f].outstanding))
            && (x in g.toCheck ==> !Full(g.units[x], run.states[k].outstanding))
  {
    hide IsRun, Empty, Full;
    RoundHolds(n, run, i, f, k);
  }

  // ----- every round happens

  /** Round i runs from moment f to moment e, where it has read all its flags. */
  ghost predicate WholeRound(n: nat, run: Run, i: nat, f: nat, e: nat) {
    RoundRuns(n, run, i, f, e) && RoundDone(run.states[e])
  }

  /** Round i happened between moments j and k. */
  ghost predicate RoundHappened(n: nat, run: Run, j: nat, k: nat, i: nat) {
    exists f, e :: j < f <= e < k && WholeRound(n, run, i, f, e)
  }

  ghost predicate RoundsBefore(n: nat, run: Run, j: nat, k: nat, i: nat) {
    forall r: nat :: r < i ==> RoundHappened(n, run, j, k, r)
  }

  ghost predicate InRoundSince(n: nat, run: Run, j: nat, k: nat, i: nat) {
    RoundsBefore(n, run, j, k, i) && exists f :: j < f <= k && RoundRuns(n, run, i, f, k)
  }

  /** How far the maintenance that began at moment j has got. */
  ghost predicate MaintainedSoFar(n: nat, run: Run, j: nat, k: nat) {
    k < |run.states| &&
    match run.states[k].pc
    case Resting => RoundsBefore(n, run, j, k, n + 1)
    case SwapOut(i) => i < n && RoundsBefore(n, run, j, k, i)
    case Scan(i, _, _) => InRoundSince(n, run, j, k, i)
    case Dropping(i, _, _) => InRoundSince(n, run, j, k, i)
    case Relist(i, _, _) => InRoundSince(n, run, j, k, i)
    case SwapBack(i) => i < n && InRoundSince(n, run, j, k, i)
  }

  lemma RoundsLater(n: nat, run: Run, j: nat, k: nat, later: nat, i: nat)
    requires RoundsBefore(n, run, j, k, i) && k <= later
    ensures RoundsBefore(n, run, j, later, i)
  {
    hide WholeRound;
    forall r: nat | r < i ensures RoundHappened(n, run, j, later, r) {
      assert RoundHappened(n, run, j, k, r);
      var f, e :| j < f <= e < k && WholeRound(n, run, r, f, e);
      assert j < f <= e < later && WholeRound(n, run, r, f, e);
    }
  }

  lemma OneMoreRound(n: nat, run: Run, j: nat, k: nat, later: nat, i: nat)
    requires InRoundSince(n, run, j, k, i) && k < later && k < |run.states| && RoundDone(run.states[k])
    ensures RoundsBefore(n, run, j, later, i + 1)
  {
    hide RoundRuns, RoundDone;
    RoundsLater(n, run, j, k, later, i);
    var f :| j < f <= k && RoundRuns(n, run, i, f, k);
    assert j < f <= k < later && WholeRound(n, run, i, f, k);
    assert RoundHappened(n, run, j, later, i);
  }

  lemma RoundGoesOn(n: nat, run: Run, j: nat, k: nat, i: nat)
    requires InRoundSince(n, run, j, k, i) && k + 1 < |run.states| && InRound(run.states[k + 1].pc, i)
    ensures InRoundSince(n, run, j, k + 1, i)
  {
    hide RoundsBefore, IsRun;
    assert RoundsBefore(n, run, j, k + 1, i) by { RoundsLater(n, run, j, k, k + 1, i); }
    var f :| j < f <= k && RoundRuns(n, run, i, f, k);
    assert RoundRuns(n, run, i, f, k + 1);
  }

  lemma RoundBegins(n: nat, run: Run, j: nat, k: nat, i: nat)
    requires IsRun(n, run) && j < k < |run.states| && i <= n && run.states[k].pc == Scan(i, 0, 0)
    requires RoundsBefore(n, run, j, k, i)
    ensures InRoundSince(n, run, j, k, i)
  {
    hide RoundsBefore, IsRun;
    assert RoundRuns(n, run, i, k, k);
  }

  /** Where a step takes the collector: on in its round, or from one round to the next. */
  ghost predicate RoundOrder(n: nat, st: State, pc2: Pc) {
    match st.pc
    case Resting => pc2 == Resting || pc2 == (if n > 0 then SwapOut(0) else Scan(0, 0, 0))
    case SwapOut(i) => i < n && (pc2 == st.pc || pc2 == Scan(i, 0, 0))
    case SwapBack(i) => i < n && (pc2 == st.pc || pc2 == (if i + 1 < n then SwapOut(i + 1) else Scan(n, 0, 0)))
    case Relist(i, _, _) =>
      || (InRound(pc2, i) && !pc2.SwapBack?)
      || (i < n && pc2 == SwapBack(i) && RoundDone(st))
      || (i == n && pc2 == Resting && RoundDone(st))
    case Scan(i, _, _) => InRound(pc2, i) && !pc2.SwapBack?
    case Dropping(i, _, _) => InRound(pc2, i) && !pc2.SwapBack?
  }

  lemma CollectOrder(st: State)
    requires |st.groups| == Shards(st) + 1 && PcOk(st) && Enabled(st, Collect) && !Next(st, Collect).failed
    ensures RoundOrder(Shards(st), st, Next(st, Collect).pc)
  {
    hide Empty;
  }

  lemma StepOrder(st: State, step: Step)
    requires Inv(st) && Enabled(st, step)
    ensures RoundOrder(Shards(st), st, Next(st, step).pc)
  {
    StepInv(st, step);
    PcOf(st);
    NotFailed(Next(st, step));
    hide Inv, Next, Enabled;
    if step.Collect? {
      CollectOrder(st);
    } else {
      SameHeld(st, step);
    }
  }

  lemma PcOf(st: State)
    requires Inv(st)
    ensures |st.groups| == Shards(st) + 1 && PcOk(st)
    ensures match st.pc
            case SwapOut(i) => i < Shards(st)
            case SwapBack(i) => i < Shards(st)
            case Scan(i, _, _) => i <= Shards(st)
            case Dropping(i, _, _) => i <= Shards(st)
            case Relist(i, _, _) => i <= Shards(st)
            case Resting => true
  {
    hide UnitsPartitioned, FlagsOk, MemoryApart, ListsOk;
  }

  lemma NotFailed(st: State)
    requires Inv(st)
    ensures !st.failed
  {
    hide UnitsPartitioned, FlagsOk, MemoryApart, ListsOk, PcOk;
  }

  lemma MaintainStep(n: nat, run: Run, j: nat, k: nat)
    requires IsRun(n, run) && j < k && k + 1 < |run.states|
    requires MaintainedSoFar(n, run, j, k) && !run.states[k].pc.Resting? && RoundOrder(n, run.states[k], run.states[k + 1].pc)
    ensures MaintainedSoFar(n, run, j, k + 1)
  {
    hide IsRun, RoundsBefore, InRoundSince, RoundDone;
    var pc, pc2 := run.states[k].pc, run.states[k + 1].pc;
    match pc
    case SwapOut(i) =>
      RoundsLater(n, run, j, k, k + 1, i);
      if pc2 == Scan(i, 0, 0) {
        RoundBegins(n, run, j, k + 1, i);
      }
    case SwapBack(i) =>
      if pc2 == pc {
        RoundGoesOn(n, run, j, k, i);
      } else {
        SwapBackIsDone(n, run, k);
        OneMoreRound(n, run, j, k, k + 1, i);
        if pc2.Scan? {
          RoundBegins(n, run, j, k + 1, n);
        }
      }
    case Relist(i, _, _) =>
      if pc2 == Resting {
        OneMoreRound(n, run, j, k, k + 1, i);
      } else {
        RoundGoesOn(n, run, j, k, i);
      }
    case Scan(i, _, _) => RoundGoesOn(n, run, j, k, i);
    case Dropping(i, _, _) => RoundGoesOn(n, run, j, k, i);
  }

  lemma SwapBackIsDone(n: nat, run: Run, k: nat)
    requires IsRun(n, run) && k < |run.states| && run.states[k].pc.SwapBack?
    ensures RoundDone(run.states[k])
  {
    hide IsRun, Inv;
    RunInv(n, run, k);
    GroupCount(run.states[k]);
  }

  lemma {:induction false} Maintained(n: nat, run: Run, j: nat, k: nat)
    requires IsRun(n, run) && j < k < |run.states| && run.states[j].pc.Resting? && !run.states[j + 1].pc.Resting?
    requires forall m :: j < m < k ==> !run.states[m].pc.Resting?
    ensures MaintainedSoFar(n, run, j, k)
    decreases k
  {
    hide IsRun, Inv, Next, Enabled, MaintainedSoFar;
    RunInv(n, run, k - 1);
    StepOf(n, run, k - 1);
    StepOrder(run.states[k - 1], run.steps[k - 1]);
    if k - 1 > j {
      Maintained(n, run, j, k - 1);
      MaintainStep(n, run, j, k - 1);
    } else {
      FirstRound(n, run, j, k);
    }
  }

  lemma FirstRound(n: nat, run: Run, j: nat, k: nat)
    requires IsRun(n, run) && j + 1 == k < |run.states|
    requires run.states[k].pc == if n > 0 then SwapOut(0) else Scan(0, 0, 0)
    ensures MaintainedSoFar(n, run, j, k)
  {
    hide IsRun;
    assert RoundsBefore(n, run, j, k, 0);
    if n == 0 {
      RoundBegins(n, run, j, k, 0);
    }
  }

  /** Maintenance that began at moment j and is over at moment k went through every
      shard's round and the filling group's own, each from its first flag to its last. */
  lemma EveryRoundHappens(n: nat, run: Run, j: nat, k: nat, i: nat)
    requires IsRun(n, run) && j < k < |run.states| && i <= n
    requires run.states[j].pc.Resting? && !run.states[j + 1].pc.Resting? && run.states[k].pc.Resting?
    requires forall m :: j < m < k ==> !run.states[m].pc.Resting?
    ensures exists f, e :: j < f <= e < k && WholeRound(n, run, i, f, e)
  {
    hide IsRun, WholeRound;
    Maintained(n, run, j, k);
    assert RoundHappened(n, run, j, k, i);
  }

  // ----- an allocation

  /** The allocation that locked shard i with step j holds the lock still at moment k. */
  ghost predicate AllocRuns(n: nat, run: Run, i: nat, j: nat, k: nat) {
    && IsRun(n, run) && i < n && j < k < |run.states| && j < |run.steps| && run.steps[j] == Lock(i)
    && forall m :: j < m <= k ==> Locked(run.states[m], i)
  }

  ghost predicate Locked(st: State, i: nat) {
    i < |st.locks| && st.locks[i].Some?
  }

  /** What the allocation has found since it took the lock: slots of its group are only
      freed meanwhile, and what it has taken off the list was full when it began. */
  ghost predicate TriedSoFar(g: Group, slot: nat, now: set<Ptr>, g0: Group, start: set<Ptr>) {
    && g.units == g0.units && OnlyFreed(g.units, now, start)
    && (forall u :: u in g.toCheck ==> u in g0.toCheck)
    && Unlisted(g, g0, start)
    && (g.toCheck != [] && g.toCheck[0] < |g.units| ==> forall s: nat :: s < slot ==> Ptr(g.units[g.toCheck[0]], s) in start)
  }

  ghost predicate Unlisted(g: Group, g0: Group, start: set<Ptr>) {
    forall u :: u in g0.toCheck && u !in g.toCheck ==> u < |g0.units| && Full(g0.units[u], start)
  }

  lemma OthersLeaveGroup(st: State, step: Step, i: nat)
    requires |st.groups| == Shards(st) + 1 && Enabled(st, step) && Locked(st, i) && step != TrySlot(i) && !(step.MakeUnit? && step.i == i)
    ensures var st2 := Next(st, step); |st2.groups| == |st.groups| && st2.groups[i] == st.groups[i] && |st2.locks| == |st.locks| && st2.locks[i] == st.locks[i]
  {
    hide NewUnit;
  }

  lemma TryOtherStep(st: State, step: Step, i: nat, g0: Group, start: set<Ptr>)
    requires Inv(st) && Enabled(st, step) && Locked(st, i) && step != TrySlot(i) && !(step.MakeUnit? && step.i == i)
    requires i < |st.groups| && TriedSoFar(st.groups[i], st.locks[i].value, st.outstanding, g0, start)
    ensures var st2 := Next(st, step);
            i < |st2.groups| && Locked(st2, i) && TriedSoFar(st2.groups[i], st2.locks[i].value, st2.outstanding, g0, start)
  {
    GroupCount(st);
    OnlyOwnGroup(st, step, i);
    OthersLeaveGroup(st, step, i);
    hide Inv, Next, Enabled;
    OnlyFreedTwice(st.groups[i].units, Next(st, step).outstanding, st.outstanding, start);
  }

  lemma ListedUnit(st: State, i: nat)
    requires Inv(st) && i < Shards(st) && Locked(st, i) && i < |st.groups| && st.groups[i].toCheck != []
    ensures var g := st.groups[i];
            && IndexListOk(g.toCheck, |g.units|) && g.toCheck[0] < |g.units| && st.locks[i].value < SLOT_COUNT_PER_UNIT
            && var b := g.units[g.toCheck[0]];
               FlagAt(st, b, st.locks[i].value) == Some(Ptr(b, st.locks[i].value) in st.outstanding)
  {
    hide UnitsPartitioned, FlagsOk, MemoryApart, PcOk;
    assert ListOk(st.groups[i]);
    MemberIsLive(st, i, st.groups[i].toCheck[0]);
    FlagReads(st, st.groups[i].units[st.groups[i].toCheck[0]], st.locks[i].value);
  }

  lemma TryOwnStep(st: State, i: nat, g0: Group, start: set<Ptr>)
    requires Inv(st) && Enabled(st, TrySlot(i)) && Locked(Next(st, TrySlot(i)), i)
    requires i < |st.groups| && TriedSoFar(st.groups[i], st.locks[i].value, st.outstanding, g0, start)
    ensures var st2 := Next(st, TrySlot(i));
            i < |st2.groups| && TriedSoFar(st2.groups[i], st2.locks[i].value, st2.outstanding, g0, start)
  {
    ListedUnit(st, i);
    hide Inv, SetFlag;
    var g, s := st.groups[i], st.locks[i].value;
    if s + 1 == SLOT_COUNT_PER_UNIT {
      SwapRemoveFirstOk(g.toCheck, |g.units|);
    }
  }

  lemma {:induction false} AllocTries(n: nat, run: Run, i: nat, j: nat, k: nat)
    requires AllocRuns(n, run, i, j, k)
    ensures |run.states[j].groups| == |run.states[k].groups| == n + 1 && |run.states[k].locks| == n
    ensures TriedSoFar(run.states[k].groups[i], run.states[k].locks[i].value, run.states[k].outstanding,
                       run.states[j].groups[i], run.states[j].outstanding)
    decreases k
  {
    hide IsRun, Inv, Next, Enabled, TriedSoFar;
    RunInv(n, run, j);
    RunInv(n, run, k - 1);
    RunInv(n, run, k);
    GroupCount(run.states[j]);
    GroupCount(run.states[k]);
    StepOf(n, run, k - 1);
    var st, step := run.states[k - 1], run.steps[k - 1];
    assert Locked(run.states[k], i);
    if j < k - 1 {
      AllocTries(n, run, i, j, k - 1);
      assert Locked(st, i);
      if step == TrySlot(i) {
        TryOwnStep(st, i, run.states[j].groups[i], run.states[j].outstanding);
      } else {
        if step.MakeUnit? && step.i == i {
          MakeUnitUnlocks(st, i, step.base);
        }
        TryOtherStep(st, step, i, run.states[j].groups[i], run.states[j].outstanding);
      }
    } else {
      LockStarts(st, i);
    }
  }

  lemma MakeUnitUnlocks(st: State, i: nat, base: nat)
    requires Enabled(st, MakeUnit(i, base))
    ensures !Locked(Next(st, MakeUnit(i, base)), i)
  {
  }

  lemma LockStarts(st: State, i: nat)
    requires Enabled(st, Lock(i))
    ensures var st2 := Next(st, Lock(i));
            && i < |st2.groups| && i < |st2.locks| && st2.locks[i] == Some(0)
            && TriedSoFar(st2.groups[i], 0, st2.outstanding, st.groups[i], st.outstanding)
  {
  }

  /** An allocation makes a new unit only if every unit listed when it took the lock was
      full then, though it reads flags one by one and others free meanwhile; and the
      new unit is listed. */
  lemma NewUnitOnlyIfFull(n: nat, run: Run, i: nat, j: nat, k: nat, base: nat)
    requires AllocRuns(n, run, i, j, k) && k < |run.steps| && run.steps[k] == MakeUnit(i, base)
    ensures |run.states[j].groups| == |run.states[k + 1].groups| == n + 1
    ensures var g, g2 := run.states[j].groups[i], run.states[k + 1].groups[i];
            && (forall u :: u in g.toCheck ==> u < |g.units| && Full(g.units[u], run.states[j].outstanding))
            && g2.units == g.units + [base] && g2.toCheck == [|g.units|]
  {
    AllocTries(n, run, i, j, k);
    StepOf(n, run, k);
    hide IsRun, Full, NewUnit, OnlyFreed;
  }

  /** An allocation served from the list gets a slot of a listed unit that nobody held;
      the unit stays listed, and whatever was taken off the list was full at the start. */
  lemma ServedFromList(n: nat, run: Run, i: nat, j: nat, k: nat) returns (p: Ptr)
    requires AllocRuns(n, run, i, j, k) && k < |run.steps| && run.steps[k] == TrySlot(i) && !Locked(run.states[k + 1], i)
    ensures |run.states[j].groups| == |run.states[k + 1].groups| == n + 1
    ensures p !in run.states[k].outstanding && run.states[k + 1].outstanding == run.states[k].outstanding + {p}
    ensures var g, g2 := run.states[j].groups[i], run.states[k + 1].groups[i];
            && g2.units == g.units && Unlisted(g2, g, run.states[j].outstanding)
            && exists u :: u in g2.toCheck && u in g.toCheck && u < |g2.units| && g2.units[u] == p.base
  {
    AllocTries(n, run, i, j, k);
    StepOf(n, run, k);
    RunInv(n, run, k);
    assert Locked(run.states[k], i);
    p := Served(run.states[k], i);
  }

  lemma Served(st: State, i: nat) returns (p: Ptr)
    requires Inv(st) && Enabled(st, TrySlot(i)) && !Locked(Next(st, TrySlot(i)), i)
    ensures var st2 := Next(st, TrySlot(i));
            && p !in st.outstanding && st2.outstanding == st.outstanding + {p} && st2.groups == st.groups
            && var g := st.groups[i]; g.toCheck != [] && g.toCheck[0] < |g.units| && g.units[g.toCheck[0]] == p.base
  {
    ListedUnit(st, i);
    hide Inv, SetFlag;
    p := Ptr(st.groups[i].units[st.groups[i].toCheck[0]], st.locks[i].value);
  }

  // ----- nobody waits but for a lock

  lemma {:induction false} MemoryBeyond(bases: set<nat>, length: nat) returns (base: nat)
    ensures forall b :: b in bases ==> b + length <= base
  {
    base := 0;
    if bases != {} {
      var b :| b in bases;
      var rest := MemoryBeyond(bases - {b}, length);
      base := if rest < b + length then b + length else rest;
      forall c | c in bases ensures c + length <= base {
        assert c == b || c in bases - {b};
      }
    }
  }

  /** A thread that holds its shard's lock can go on, one that frees never waits, and
      the collector waits only to swap a group whose lock is held. */
  lemma WaitsOnlyForLocks(n: nat, run: Run, k: nat, i: nat) returns (base: nat)
    requires IsRun(n, run) && k < |run.states| && i < n
    ensures var st := run.states[k];
            && i < |st.locks| && i < |st.groups|
            && (st.locks[i].None? ==> Enabled(st, Lock(i)))
            && (st.locks[i].Some? ==> Enabled(st, if st.groups[i].toCheck != [] then TrySlot(i) else MakeUnit(i, base)))
            && (forall p :: p in st.outstanding ==> Enabled(st, Free(p)))
            && (((st.pc.SwapOut? || st.pc.SwapBack?) && Locked(st, st.pc.i)) || Enabled(st, Collect))
  {
    hide IsRun, Inv;
    RunInv(n, run, k);
    var st := run.states[k];
    GroupCount(st);
    NotFailed(st);
    PcOf(st);
    base := MemoryBeyond(st.memory.Keys, DataLenInBytes(n));
    assert FreshMemory(st, base) by {
      forall b | b in st.memory ensures UnitsApart(b, base, n) {
        assert b in st.memory.Keys;
      }
    }
  }
}
