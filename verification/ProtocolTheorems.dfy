/**
 What the protocol guarantees in every run, for any number of shards, threads
 and objects and every interleaving.
 */
module ProtocolTheorems {
  import opened Counting
  import opened ShardCounters
  import opened Protocol
  import opened ProtocolLedger
  import opened ProtocolEvolution
  import opened ProtocolInvariant
  import opened ProtocolCollector

  // ----- conservation

  /** In every state of every run the shard counts of an object sum to the
      references held, less outstanding compare-and-set compensations. */
  lemma CountConservation(n: nat, run: Run, k: nat, o: ObjId)
    requires n >= 1 && IsRun(n, run) && k < |run.states| && o in run.states[k].m.objs
    ensures var m := run.states[k].m;
            Total(m.objs[o].counters) == |Holders(m, o)| - |Debtors(m, o)|
  {
    RunInv(n, run, k);
  }

  /** Pending, tracked and freed objects partition all allocations; tracked and
      pending ones have distinct counter slots, so a map keyed by slot holds
      them all; and no counter already ready to free waits for an update. */
  lemma BooksPartition(n: nat, run: Run, k: nat, o: ObjId, p: ObjId)
    requires n >= 1 && IsRun(n, run) && k < |run.states|
    ensures var s := run.states[k];
            && (o in s.m.objs <==> o in s.c.pending || o in s.c.tracked || Freed(s.m, o))
            && !(o in s.c.pending && o in s.c.tracked)
            && (o in s.c.pending || o in s.c.tracked ==> !Freed(s.m, o))
            && (o != p && (o in s.c.pending || o in s.c.tracked) && (p in s.c.pending || p in s.c.tracked) ==>
                  o in s.m.objs && p in s.m.objs && s.m.objs[o].slot != s.m.objs[p].slot)
            && (o in s.c.todo ==> o in s.c.tracked && s.c.tracked[o] != ReadyToFree)
            && (o in s.c.toFree ==> o in s.c.tracked && s.c.tracked[o] == ReadyToFree)
  {
    RunInv(n, run, k);
  }

  // ----- the re-check under way

  /** Action r started the re-check of o that is still under way at moment k. */
  ghost predicate RecheckRuns(run: Run, r: nat, k: nat, o: ObjId) {
    && r < k < |run.states| && r < |run.acts| && run.acts[r] == Col(StartRecheck(o)) && o in run.states[r].m.objs
    && forall i :: r < i <= k ==> RecheckingFrom(run.states[i].c.pc, o, Look(run.states[r].m, o))
  }

  ghost predicate RecheckingFrom(pc: CollectorPc, o: ObjId, first: FirstRead) {
    pc.Rechecking? && pc.obj == o && pc.first == first
  }

  /** What a step does to a re-check: it goes on, or it begins. */
  lemma RecheckStep(s: State, a: Action)
    requires Enabled(s, a) && Next(s, a).c.pc.Rechecking?
    ensures var pc, pc2 := s.c.pc, Next(s, a).c.pc;
            RecheckingFrom(pc, pc2.obj, pc2.first) ||
            (a == Col(StartRecheck(pc2.obj)) && pc2.obj in s.m.objs && pc2.first == Look(s.m, pc2.obj))
  {
    hide CanMutate, Mutate, Collect, CanCollect, Look;
    if a.Col? {
      RecheckCollect(s, a.step);
    }
  }

  lemma RecheckCollect(s: State, x: CollectorStep)
    requires CanCollect(s, x) && Collect(s, x).c.pc.Rechecking?
    ensures var pc, pc2 := s.c.pc, Collect(s, x).c.pc;
            RecheckingFrom(pc, pc2.obj, pc2.first) ||
            (x == StartRecheck(pc2.obj) && pc2.obj in s.m.objs && pc2.first == Look(s.m, pc2.obj))
  {
    hide Release, ClearBackRef, SetCounter, BackLive, Look, HasCounter, ReaderSet, OwnedSet, Shards;
  }

  /** A run's step, unfolded. */
  lemma StepOf(n: nat, run: Run, k: nat)
    requires IsRun(n, run) && k + 1 < |run.states|
    ensures k < |run.acts| && Enabled(run.states[k], run.acts[k])
    ensures run.states[k + 1] == Next(run.states[k], run.acts[k])
  {
    assert StepAt(run, k);
  }

  lemma RunLength(n: nat, run: Run)
    requires IsRun(n, run)
    ensures |run.states| == |run.acts| + 1
  {
  }

  lemma StartsEmpty(n: nat, run: Run)
    requires IsRun(n, run)
    ensures |run.states| > 0 && run.states[0].c == Initial(n).c && run.states[0].n == n
  {
  }

  lemma {:induction false} RecheckUnderWay(n: nat, run: Run, k: nat) returns (r: nat)
    requires IsRun(n, run) && k < |run.states| && run.states[k].c.pc.Rechecking?
    ensures RecheckRuns(run, r, k, run.states[k].c.pc.obj)
  {
    hide Next, Enabled, IsRun, Look;
    StartsEmpty(n, run);
    StepOf(n, run, k - 1);
    RecheckStep(run.states[k - 1], run.acts[k - 1]);
    var pc, pc2 := run.states[k - 1].c.pc, run.states[k].c.pc;
    if RecheckingFrom(pc, pc2.obj, pc2.first) {
      r := RecheckUnderWay(n, run, k - 1);
    } else {
      r := k - 1;
    }
  }

  // ----- the re-check as a snapshot

  /** State k ends a re-check that began with action r and read every shard without a tag. */
  ghost predicate RecheckDone(n: nat, run: Run, r: nat, k: nat) {
    && k < |run.states| && run.states[k].c.pc.Rechecking? && run.states[k].c.pc.k == n
    && RecheckRuns(run, r, k, run.states[k].c.pc.obj)
  }

  /** Every re-check that got that far began with some action r. */
  lemma RecheckBegan(n: nat, run: Run, k: nat) returns (r: nat)
    requires IsRun(n, run) && k < |run.states| && run.states[k].c.pc.Rechecking? && run.states[k].c.pc.k == n
    ensures RecheckDone(n, run, r, k) && r < k
  {
    hide Look;
    r := RecheckUnderWay(n, run, k);
  }

  /** Its sum is at least the true total at its first read. Where the sum is
      zero, the object was owned at that moment if and only if a compare-and-set
      still owed it a count. A negative sum would mean more counts owed than
      references held; where stage one is followed it cannot occur at all. */
  lemma RecheckIsSnapshot(n: nat, run: Run, r: nat, k: nat, o: ObjId, acc: int)
    requires n >= 1 && IsRun(n, run) && RecheckDone(n, run, r, k)
    requires o == run.states[k].c.pc.obj && acc == run.states[k].c.pc.acc
    ensures var m := run.states[r].m;
            && acc >= Total(m.objs[o].counters)
            && (acc == 0 ==> (Owned(m, o) <==> |Debtors(m, o)| > 0))
            && (acc < 0 ==> |Debtors(m, o)| > |Holders(m, o)|)
  {
    RunInv(n, run, k);
    RunInv(n, run, r);
    var s := run.states[k];
    assert RecheckingFrom(s.c.pc, o, Look(run.states[r].m, o));
    SnapshotAtDecision(n, s.m, s.c.verdicts, s.c.pc);
    NoHolders(run.states[r].m, o);
  }

  /** Action c clears a tag of o. */
  ghost predicate ClearsTagAt(run: Run, c: nat, o: ObjId) {
    && c < |run.acts| && c < |run.states| && run.acts[c] == Col(ClearTag)
    && run.states[c].c.pc.Clearing? && run.states[c].c.pc.obj == o
  }

  /** No tag of o is cleared by actions j up to k. */
  ghost predicate NoTagClear(run: Run, j: nat, k: nat, o: ObjId) {
    forall i :: j <= i < k ==> !ClearsTagAt(run, i, o)
  }

  ghost predicate Traced(m: Shared, o: ObjId) {
    o in m.objs && (Owned(m, o) || AnyTag(m.objs[o].counters))
  }

  lemma CollectTraced(s: State, a: CollectorStep, o: ObjId)
    requires CanCollect(s, a) && Traced(s.m, o) && !(a.ClearTag? && s.c.pc.obj == o)
    ensures Traced(Collect(s, a).m, o)
  {
    if a.FreeOne? {
      ReleaseOwned(s.m, a.o, a.h, o);
    }
  }

  lemma MutateTraced(s: State, a: Mutation, o: ObjId)
    requires Inv(s) && CanMutate(s.n, s.m, a) && Traced(s.m, o)
    ensures Traced(Mutate(s.n, s.m, a), o)
  {
    MutateEvolves(s.n, s.m, a);
    assert ObjectEvolves(s.m.objs[o], Mutate(s.n, s.m, a).objs[o]);
    if AnyTag(s.m.objs[o].counters) {
      TagStays(s.m.objs[o].counters, Mutate(s.n, s.m, a).objs[o].counters);
    }
  }

  lemma StepTraced(s: State, a: Action, o: ObjId)
    requires Inv(s) && Enabled(s, a) && Traced(s.m, o) && !(a == Col(ClearTag) && s.c.pc.obj == o)
    ensures Traced(Next(s, a).m, o)
  {
    match a
    case Mut(x) => MutateTraced(s, x, o);
    case Col(x) => CollectTraced(s, x, o);
  }

  /** Ownership leaves a trace: an owned object is still owned later, or tagged. */
  lemma {:induction false} OwnershipTraced(n: nat, run: Run, j: nat, k: nat, o: ObjId)
    requires n >= 1 && IsRun(n, run) && j <= k < |run.states|
    requires NoTagClear(run, j, k, o) && Traced(run.states[j].m, o)
    ensures Traced(run.states[k].m, o)
  {
    if j < k {
      OwnershipTraced(n, run, j, k - 1, o);
      RunInv(n, run, k - 1);
      assert StepAt(run, k - 1);
      assert !ClearsTagAt(run, k - 1, o);
      StepTraced(run.states[k - 1], run.acts[k - 1], o);
    }
  }

  lemma UntracedAtFirstRead(n: nat, run: Run, r: nat, k: nat, o: ObjId)
    requires n >= 1 && IsRun(n, run) && RecheckDone(n, run, r, k)
    requires o == run.states[k].c.pc.obj && run.states[k].c.pc.acc == 0 && |Debtors(run.states[r].m, o)| == 0
    ensures !Traced(run.states[r].m, o)
  {
    RunInv(n, run, k);
    var s := run.states[k];
    assert RecheckingFrom(s.c.pc, o, Look(run.states[r].m, o));
    SnapshotAtDecision(n, s.m, s.c.verdicts, s.c.pc);
    NoHolders(run.states[r].m, o);
  }

  lemma UnownedIsZero(n: nat, m: Shared, o: ObjId)
    requires Ledger(n, m) && o in m.objs && !Owned(m, o)
    ensures Total(m.objs[o].counters) == 0
  {
    NoHolders(m, o);
    if |Debtors(m, o)| > 0 {
      DebtMeansOwned(n, m, o);
    }
  }

  /** A re-check that summed to zero, with nothing owed at its first read,
      proves the true total was zero at every moment since the object's tags
      were last cleared, whatever threads did meanwhile. */
  lemma ZeroSinceTagClear(n: nat, run: Run, r: nat, k: nat, j: nat, o: ObjId)
    requires n >= 1 && IsRun(n, run) && RecheckDone(n, run, r, k)
    requires o == run.states[k].c.pc.obj && run.states[k].c.pc.acc == 0 && |Debtors(run.states[r].m, o)| == 0
    requires j <= r && NoTagClear(run, j, r, o) && o in run.states[j].m.objs
    ensures !Owned(run.states[j].m, o) && Total(run.states[j].m.objs[o].counters) == 0
  {
    UntracedAtFirstRead(n, run, r, k, o);
    if Traced(run.states[j].m, o) {
      OwnershipTraced(n, run, j, r, o);
    }
    RunInv(n, run, j);
    UnownedIsZero(n, run.states[j].m, o);
  }

  // ----- what condemned an object

  /** The re-check that began with action r ended with decision d and made o ready to free. */
  ghost predicate Condemned(n: nat, run: Run, r: nat, d: nat, o: ObjId) {
    && d < |run.acts| && d + 1 < |run.states| && run.acts[d] == Col(Decide)
    && RecheckDone(n, run, r, d) && run.states[d].c.pc.obj == o && run.states[d].c.pc.acc == 0
    && (o in run.states[d].c.tracked ==> run.states[d].c.tracked[o] != ReadyToFree)
    && o in run.states[d + 1].c.tracked && run.states[d + 1].c.tracked[o] == ReadyToFree
    && o !in run.states[d].c.verdicts && o in run.states[d + 1].c.verdicts
  }

  /** The re-check that began with action r ended with decision d and cleared o's back-reference. */
  ghost predicate CutOff(n: nat, run: Run, r: nat, d: nat, o: ObjId) {
    && d < |run.acts| && d < |run.states| && run.acts[d] == Col(Decide)
    && RecheckDone(n, run, r, d) && run.states[d].c.pc.obj == o && run.states[d].c.pc.acc == 0
    && BackLive(run.states[d].m, o)
  }

  /** Decision d of a re-check that read every shard of o, without a tag and with sum zero. */
  ghost predicate DecidesOn(s: State, a: Action, o: ObjId) {
    a == Col(Decide) && s.c.pc.Rechecking? && s.c.pc.obj == o && s.c.pc.k == s.n && s.c.pc.acc == 0
  }

  /** An object being re-checked is under watch and not condemned. */
  lemma RecheckedIsWatched(s: State)
    requires Inv(s) && s.c.pc.Rechecking?
    ensures var o := s.c.pc.obj; o !in s.c.verdicts && o in s.c.tracked && s.c.tracked[o] == RequiresReChecking
  {
    hide Ledger, Traces, Readers, Clears, Grace, RecheckOk, VerdictOk;
  }

  /** Only a decision on o writes o's verdict. */
  lemma VerdictStep(s: State, x: CollectorStep, o: ObjId)
    requires CanCollect(s, x)
    ensures var c, c2 := s.c, Collect(s, x).c;
            ((o in c.verdicts <==> o in c2.verdicts) && (o in c.verdicts ==> c2.verdicts[o] == c.verdicts[o])) ||
            (DecidesOn(s, Col(x), o) && !BackLive(s.m, o) && o in c2.verdicts && c2.verdicts[o] == c.pc.first &&
             o in c2.tracked && c2.tracked[o] == ReadyToFree)
  {
    hide Release, ClearBackRef, SetCounter, BackLive, Look, HasCounter, CanUpdate, ReaderSet, OwnedSet, Shards;
  }

  lemma NewVerdictStep(s: State, a: Action, o: ObjId)
    requires Inv(s) && Enabled(s, a) && o in Next(s, a).c.verdicts && o !in s.c.verdicts
    ensures DecidesOn(s, a, o) && !BackLive(s.m, o) && Next(s, a).c.verdicts[o] == s.c.pc.first
    ensures o in s.c.tracked && s.c.tracked[o] == RequiresReChecking
    ensures o in Next(s, a).c.tracked && Next(s, a).c.tracked[o] == ReadyToFree
  {
    hide Inv, CanMutate, Mutate, Collect, CanCollect, BackLive;
    VerdictStep(s, a.step, o);
    RecheckedIsWatched(s);
  }

  lemma OldVerdictStep(s: State, a: Action, o: ObjId)
    requires Inv(s) && Enabled(s, a) && o in s.c.verdicts
    ensures o in Next(s, a).c.verdicts && Next(s, a).c.verdicts[o] == s.c.verdicts[o]
  {
    hide Inv, CanMutate, Mutate, Collect, CanCollect, BackLive;
    if a.Col? {
      VerdictStep(s, a.step, o);
      if s.c.pc.Rechecking? {
        RecheckedIsWatched(s);
      }
    }
  }

  lemma ClearsStep(s: State, a: Action, o: ObjId)
    requires Enabled(s, a) && o in Next(s, a).c.clears
    ensures (o in s.c.clears && Next(s, a).c.clears[o] == s.c.clears[o]) ||
            (DecidesOn(s, a, o) && BackLive(s.m, o) && Next(s, a).c.clears[o] == s.c.pc.first)
  {
    hide CanMutate, Mutate, Collect, CanCollect, BackLive;
    if a.Col? {
      ClearsCollect(s, a.step, o);
    }
  }

  lemma ClearsCollect(s: State, x: CollectorStep, o: ObjId)
    requires CanCollect(s, x) && o in Collect(s, x).c.clears
    ensures (o in s.c.clears && Collect(s, x).c.clears[o] == s.c.clears[o]) ||
            (DecidesOn(s, Col(x), o) && BackLive(s.m, o) && Collect(s, x).c.clears[o] == s.c.pc.first)
  {
    hide Release, ClearBackRef, SetCounter, BackLive, Look, HasCounter, CanUpdate, ReaderSet, OwnedSet, Shards;
  }

  /** A verdict was passed by one decision, on what its re-check found at its first read. */
  lemma {:induction false} CondemnedBefore(n: nat, run: Run, k: nat, o: ObjId) returns (r: nat, d: nat)
    requires n >= 1 && IsRun(n, run) && k < |run.states| && o in run.states[k].c.verdicts
    ensures d < k && Condemned(n, run, r, d, o) && run.states[k].c.verdicts[o] == Look(run.states[r].m, o)
  {
    hide Next, Enabled, IsRun, Inv, Look, BackLive;
    StartsEmpty(n, run);
    StepOf(n, run, k - 1);
    RunInv(n, run, k - 1);
    var s, a := run.states[k - 1], run.acts[k - 1];
    if o in s.c.verdicts {
      OldVerdictStep(s, a, o);
      r, d := CondemnedBefore(n, run, k - 1, o);
    } else {
      NewVerdictStep(s, a, o);
      r := RecheckBegan(n, run, k - 1);
      d := k - 1;
      assert RecheckingFrom(s.c.pc, o, Look(run.states[r].m, o));
    }
  }

  lemma {:induction false} VerdictStays(n: nat, run: Run, j: nat, k: nat, o: ObjId)
    requires n >= 1 && IsRun(n, run) && j <= k < |run.states| && o in run.states[j].c.verdicts
    ensures o in run.states[k].c.verdicts && run.states[k].c.verdicts[o] == run.states[j].c.verdicts[o]
  {
    hide Next, Enabled, IsRun, Inv;
    if j < k {
      VerdictStays(n, run, j, k - 1, o);
      StepOf(n, run, k - 1);
      RunInv(n, run, k - 1);
      OldVerdictStep(run.states[k - 1], run.acts[k - 1], o);
    }
  }

  lemma SameRecheck(run: Run, r: nat, r2: nat, d: nat, o: ObjId)
    requires RecheckRuns(run, r, d, o) && RecheckRuns(run, r2, d, o) && StartsFromUpdating(run, r) && StartsFromUpdating(run, r2)
    ensures r == r2
  {
    hide Look;
  }

  ghost predicate StartsFromUpdating(run: Run, r: nat) {
    r < |run.states| && run.states[r].c.pc.Updating?
  }

  lemma RecheckStart(n: nat, run: Run, r: nat, o: ObjId)
    requires IsRun(n, run) && r + 1 < |run.states| && run.acts[r] == Col(StartRecheck(o))
    ensures StartsFromUpdating(run, r)
  {
    StepOf(n, run, r);
  }

  /** No object is condemned twice: the decision and its re-check are unique. */
  lemma CondemnedOnce(n: nat, run: Run, r: nat, d: nat, r2: nat, d2: nat, o: ObjId)
    requires n >= 1 && IsRun(n, run) && Condemned(n, run, r, d, o) && Condemned(n, run, r2, d2, o)
    ensures r == r2 && d == d2
  {
    hide IsRun, Look;
    if d < d2 {
      VerdictStays(n, run, d + 1, d2, o);
    } else if d2 < d {
      VerdictStays(n, run, d2 + 1, d, o);
    } else {
      RecheckStart(n, run, r, o);
      RecheckStart(n, run, r2, o);
      SameRecheck(run, r, r2, d, o);
    }
  }

  lemma {:induction false} CutOffBefore(n: nat, run: Run, k: nat, o: ObjId) returns (r: nat, d: nat)
    requires IsRun(n, run) && n >= 1 && k < |run.states| && o in run.states[k].c.clears
    ensures d < k && CutOff(n, run, r, d, o) && run.states[k].c.clears[o] == Look(run.states[r].m, o)
  {
    hide Next, Enabled, IsRun, Inv, Look, BackLive;
    StartsEmpty(n, run);
    StepOf(n, run, k - 1);
    RunInv(n, run, k - 1);
    var s, a := run.states[k - 1], run.acts[k - 1];
    ClearsStep(s, a, o);
    if DecidesOn(s, a, o) && BackLive(s.m, o) && run.states[k].c.clears[o] == s.c.pc.first {
      r := RecheckBegan(n, run, k - 1);
      d := k - 1;
      assert RecheckingFrom(s.c.pc, o, Look(run.states[r].m, o));
    } else {
      r, d := CutOffBefore(n, run, k - 1, o);
    }
  }

  // ----- no early free

  ghost predicate Freed(m: Shared, o: ObjId) {
    o in m.objs && m.objs[o].freed
  }

  /** A compare-and-set owes o a count at moment k. */
  ghost predicate Owing(run: Run, k: nat, o: ObjId) {
    k < |run.states| && |Debtors(run.states[k].m, o)| > 0
  }

  /** No count was owed when the re-check began that condemned o, if any has by moment k. */
  ghost predicate DebtFree(n: nat, run: Run, k: nat, o: ObjId) {
    forall r: nat, d: nat :: d < k && Condemned(n, run, r, d, o) ==> !Owing(run, r, o)
  }

  /** The clean case: so it was for o, and for the object o is the weak part of. */
  ghost predicate Clean(n: nat, run: Run, k: nat, o: ObjId) {
    && DebtFree(n, run, k, o) && k < |run.states|
    && (o in run.states[k].m.objs && run.states[k].m.objs[o].weakOf.Some? ==>
          DebtFree(n, run, k, run.states[k].m.objs[o].weakOf.value))
  }

  lemma VerdictWithoutDebt(n: nat, run: Run, k: nat, o: ObjId)
    requires n >= 1 && IsRun(n, run) && k < |run.states| && DebtFree(n, run, k, o) && o in run.states[k].c.verdicts
    ensures run.states[k].c.verdicts[o].debt == 0
  {
    hide IsRun;
    var r, d := CondemnedBefore(n, run, k, o);
  }

  /** Condemned without debt, and so was the object it is the weak part of. */
  ghost predicate FairVerdict(s: State, o: ObjId) {
    o in s.m.objs && o in s.c.verdicts && s.c.verdicts[o].debt == 0 && ParentClean(s.m, s.c.verdicts, o)
  }

  lemma FairlyCondemnedUnreachable(s: State, o: ObjId)
    requires Inv(s) && FairVerdict(s, o)
    ensures Unreachable(s.m, o)
  {
    hide Ledger, Traces, Readers, Clears, Tracking, Grace, RecheckOk, Bookkeeping, Unreachable;
    assert VerdictOk(s.m, s.c.verdicts, o);
  }

  /** Whatever is freed has its verdict, and so has the object it is the weak part of. */
  lemma FreedHasVerdict(s: State, o: ObjId)
    requires Inv(s) && Freed(s.m, o)
    ensures o in s.c.verdicts
    ensures s.c.verdicts[o].debt == 0 && s.m.objs[o].weakOf.Some? ==> s.m.objs[o].weakOf.value in s.c.verdicts
  {
    hide Ledger, Traces, Readers, Clears, Tracking, Grace, RecheckOk, Bookkeeping, Unreachable;
    assert VerdictOk(s.m, s.c.verdicts, o);
  }

  lemma CleanFreed(n: nat, run: Run, k: nat, o: ObjId)
    requires n >= 1 && IsRun(n, run) && Clean(n, run, k, o) && Freed(run.states[k].m, o)
    ensures FairVerdict(run.states[k], o)
  {
    hide IsRun, Inv, DebtFree;
    RunInv(n, run, k);
    var s := run.states[k];
    FreedHasVerdict(s, o);
    VerdictWithoutDebt(n, run, k, o);
    if s.m.objs[o].weakOf.Some? {
      VerdictWithoutDebt(n, run, k, s.m.objs[o].weakOf.value);
    }
  }

  /** The collector never frees an object that someone owns or is about to own:
      no handle, no pointer cell, no in-flight reader holds it, and no weak
      reference leads to it. The one condition is on the re-check that condemned
      it: no compare-and-set owed the object a count when it began. */
  lemma NoEarlyFree(n: nat, run: Run, k: nat, o: ObjId)
    requires n >= 1 && IsRun(n, run) && Clean(n, run, k, o) && Freed(run.states[k].m, o)
    ensures Unreachable(run.states[k].m, o)
  {
    hide IsRun, Inv, DebtFree, FairVerdict, Unreachable;
    RunInv(n, run, k);
    CleanFreed(n, run, k, o);
    FairlyCondemnedUnreachable(run.states[k], o);
  }

  /** The exact condition. Every freed object was condemned by one re-check, and
      that one found it owned if and only if a compare-and-set owed it a count. */
  lemma FreedExactly(n: nat, run: Run, k: nat, o: ObjId) returns (r: nat, d: nat)
    requires n >= 1 && IsRun(n, run) && k < |run.states| && Freed(run.states[k].m, o)
    ensures r < d < k && Condemned(n, run, r, d, o)
    ensures forall r2, d2 :: Condemned(n, run, r2, d2, o) ==> r2 == r && d2 == d
    ensures Owned(run.states[r].m, o) <==> Owing(run, r, o)
  {
    hide IsRun, Inv;
    RunInv(n, run, k);
    FreedHasVerdict(run.states[k], o);
    r, d := CondemnedBefore(n, run, k, o);
    forall r2, d2 | Condemned(n, run, r2, d2, o) ensures r2 == r && d2 == d {
      CondemnedOnce(n, run, r, d, r2, d2, o);
    }
    RecheckIsSnapshot(n, run, r, d, o, 0);
  }

  // ----- for the rest of the run

  /** What no step ever undoes: an object keeps its identity, stays freed, and
      its back-reference never comes back. */
  ghost predicate Persists(m: Shared, m2: Shared, o: ObjId) {
    && o in m.objs && o in m2.objs
    && m2.objs[o].weakOf == m.objs[o].weakOf
    && m2.objs[o].addr == m.objs[o].addr && m2.objs[o].slot == m.objs[o].slot
    && (m.objs[o].freed ==> m2.objs[o].freed)
    && (m.objs[o].backRef.None? ==> m2.objs[o].backRef.None?)
  }

  lemma CollectPersists(s: State, a: CollectorStep, o: ObjId)
    requires CanCollect(s, a) && o in s.m.objs
    ensures Persists(s.m, Collect(s, a).m, o)
  {
  }

  lemma StepPersists(s: State, a: Action, o: ObjId)
    requires Inv(s) && Enabled(s, a) && o in s.m.objs
    ensures Persists(s.m, Next(s, a).m, o)
  {
    match a
    case Mut(x) =>
      MutateEvolves(s.n, s.m, x);
      assert ObjectEvolves(s.m.objs[o], Next(s, a).m.objs[o]);
    case Col(x) => CollectPersists(s, x, o);
  }

  lemma {:induction false} RunPersists(n: nat, run: Run, j: nat, k: nat, o: ObjId)
    requires n >= 1 && IsRun(n, run) && j <= k < |run.states| && o in run.states[j].m.objs
    ensures Persists(run.states[j].m, run.states[k].m, o)
  {
    if j < k {
      RunPersists(n, run, j, k - 1, o);
      RunInv(n, run, k - 1);
      assert StepAt(run, k - 1);
      StepPersists(run.states[k - 1], run.acts[k - 1], o);
    }
  }

  /** No holder of a freed object can appear later either. */
  lemma NoneAppearsLater(n: nat, run: Run, j: nat, k: nat, o: ObjId)
    requires n >= 1 && IsRun(n, run) && j <= k < |run.states| && Freed(run.states[j].m, o) && Clean(n, run, j, o)
    ensures Freed(run.states[k].m, o) && Unreachable(run.states[k].m, o)
  {
    hide IsRun, Inv, Clean, Unreachable;
    CleanFreed(n, run, j, o);
    RunPersists(n, run, j, k, o);
    VerdictStays(n, run, j, k, o);
    var p := run.states[j].m.objs[o].weakOf;
    if p.Some? {
      VerdictStays(n, run, j, k, p.value);
    }
    RunInv(n, run, k);
    FairlyCondemnedUnreachable(run.states[k], o);
  }

  lemma FreeStep(n: nat, run: Run, k: nat, o: ObjId, h: nat)
    requires n >= 1 && IsRun(n, run) && k < |run.acts| && run.acts[k] == Col(FreeOne(o, h))
    ensures !Freed(run.states[k].m, o) && Freed(run.states[k + 1].m, o)
  {
    RunInv(n, run, k);
    assert StepAt(run, k);
  }

  /** No object is freed twice. */
  lemma FreedAtMostOnce(n: nat, run: Run, j: nat, k: nat, o: ObjId, h: nat, h2: nat)
    requires n >= 1 && IsRun(n, run) && j < k < |run.acts| && run.acts[j] == Col(FreeOne(o, h))
    ensures run.acts[k] != Col(FreeOne(o, h2))
  {
    FreeStep(n, run, j, o, h);
    RunPersists(n, run, j + 1, k, o);
    if run.acts[k] == Col(FreeOne(o, h2)) {
      FreeStep(n, run, k, o, h2);
    }
  }

  // ----- nobody touches freed memory

  /** The objects whose memory a mutator step reads or writes. The read a drop
      makes after its decrement is not among them. */
  ghost function Touched(m: Shared, a: Mutation): set<ObjId> {
    match a
    case Clone(h, _, _) => if HandleOf(m, h) then {Target(m, h)} else {}
    case Drop(_, h, _) => if HandleOf(m, h) then {Target(m, h)} else {}
    case ReadPointer(t) =>
      var pc := PcOf(m, t);
      if pc.Reading? && pc.src.FromWeak? && HandleOf(m, pc.src.handle) then {Target(m, pc.src.handle)} else {}
    case Acquire(t, _, _) => if PcOf(m, t).Holding? then {PcOf(m, t).obj} else {}
    case PayDebt(t, _) => if PcOf(m, t).CasDebt? then {PcOf(m, t).obj} else {}
    case InitWeak(h, _, _, _, _) => if HandleOf(m, h) then {Target(m, h)} else {}
    case CloneWeak(h, _, _) =>
      if HandleOf(m, h) && m.objs[Target(m, h)].weak.Some?
      then {Target(m, h), m.objs[Target(m, h)].weak.value} else {}
    case _ => {}
  }

  lemma TouchedReachable(n: nat, m: Shared, a: Mutation, o: ObjId)
    requires Shape(n, m) && CanMutate(n, m, a) && o in Touched(m, a)
    ensures !Unreachable(m, o)
  {
    match a
    case Acquire(t, _, _) => assert HeldByReader(m, o);
    case PayDebt(t, _) =>
      assert PcOk(n, m, PcOf(m, t));
      assert Owned(m, o);
    case CloneWeak(h, _, _) => assert Owned(m, Target(m, h));
    case ReadPointer(t) => assert Owned(m, o);
    case Clone(h, _, _) => assert Owned(m, o);
    case Drop(_, h, _) => assert Owned(m, o);
    case InitWeak(h, _, _, _, _) => assert Owned(m, o);
  }

  /** No mutator step touches the memory of a freed object. */
  lemma NoUseAfterFree(n: nat, run: Run, k: nat, a: Mutation, o: ObjId)
    requires n >= 1 && IsRun(n, run) && k < |run.acts| && run.acts[k] == Mut(a) && Clean(n, run, k, o)
    requires o in Touched(run.states[k].m, a)
    ensures !Freed(run.states[k].m, o)
  {
    RunInv(n, run, k);
    assert StepAt(run, k);
    TouchedReachable(n, run.states[k].m, a, o);
    if Freed(run.states[k].m, o) {
      NoEarlyFree(n, run, k, o);
    }
  }

  ghost predicate Found(m: Shared, o: ObjId) {
    o in m.objs && (Owned(m, o) || HeldByReader(m, o) || BackLive(m, o))
  }

  lemma FoundIsUnfreed(n: nat, run: Run, k: nat, o: ObjId)
    requires n >= 1 && IsRun(n, run) && Clean(n, run, k, o) && Found(run.states[k].m, o)
    ensures !Freed(run.states[k].m, o)
  {
    if Freed(run.states[k].m, o) {
      NoEarlyFree(n, run, k, o);
    }
  }

  /** The objects whose memory a collector step reads or writes: the counter it
      updates, the object it frees, and the weak part whose back-reference a
      decision looks at. */
  ghost function TouchedByCollector(s: State, x: CollectorStep): set<ObjId> {
    match x
    case Skip(o) => {o}
    case StartClear(o) => {o}
    case StartRecheck(o) => {o}
    case FreeOne(o, _) => {o}
    case ClearTag => if s.c.pc.Clearing? then {s.c.pc.obj} else {}
    case ReadShard => if s.c.pc.Rechecking? then {s.c.pc.obj} else {}
    case Decide =>
      if s.c.pc.Rechecking? && s.c.pc.obj in s.m.objs then
        {s.c.pc.obj} + if s.m.objs[s.c.pc.obj].weak.Some? then {s.m.objs[s.c.pc.obj].weak.value} else {}
      else {}
    case _ => {}
  }

  lemma TouchedIsTracked(s: State, x: CollectorStep, o: ObjId)
    requires Inv(s) && CanCollect(s, x) && o in TouchedByCollector(s, x)
    ensures o in s.c.tracked || (o in s.m.objs && Owned(s.m, o))
    ensures o in s.c.tracked ==> !Freed(s.m, o)
  {
    hide Traces, Readers, Clears, Grace, RecheckOk, Verdicts, Balanced, SectionsCounted, MemoryDistinct, WellFormed;
    if x.Decide? && o != s.c.pc.obj {
      assert WeakField(s.c.pc.obj) in s.m.owners && s.m.owners[WeakField(s.c.pc.obj)] == o;
    }
  }

  /** Nor does a collector step: what it tracks is unfreed without any condition,
      and a weak part it reaches through its object is owned. */
  lemma CollectorTouchesUnfreed(n: nat, run: Run, k: nat, x: CollectorStep, o: ObjId)
    requires n >= 1 && IsRun(n, run) && k < |run.acts| && run.acts[k] == Col(x)
    requires o in TouchedByCollector(run.states[k], x)
    requires o in run.states[k].c.tracked || Clean(n, run, k, o)
    ensures !Freed(run.states[k].m, o)
  {
    RunInv(n, run, k);
    StepOf(n, run, k);
    hide IsRun, Inv, Clean;
    TouchedIsTracked(run.states[k], x, o);
    if o !in run.states[k].c.tracked {
      FoundIsUnfreed(n, run, k, o);
    }
  }

  /** Two different objects somebody can still find never share an address, so
      comparing pointers compares objects. */
  lemma NoAba(n: nat, run: Run, k: nat, o: ObjId, p: ObjId)
    requires n >= 1 && IsRun(n, run) && Clean(n, run, k, o) && Clean(n, run, k, p)
    requires Found(run.states[k].m, o) && Found(run.states[k].m, p)
    requires run.states[k].m.objs[o].addr == run.states[k].m.objs[p].addr
    ensures o == p
  {
    RunInv(n, run, k);
    FoundIsUnfreed(n, run, k, o);
    FoundIsUnfreed(n, run, k, p);
  }

  // ----- weak references

  /** The back-reference of a weak part is null for good once it is null. */
  lemma ClearedForGood(n: nat, run: Run, j: nat, k: nat, w: ObjId)
    requires n >= 1 && IsRun(n, run) && j <= k < |run.states|
    requires w in run.states[j].m.objs && run.states[j].m.objs[w].backRef.None?
    ensures w in run.states[k].m.objs && run.states[k].m.objs[w].backRef.None?
  {
    RunPersists(n, run, j, k, w);
  }

  /** If an object was owned at every moment so far, and a re-check that cleared
      its back-reference began without debt, if one did, then none did: the weak
      part still points to it and every upgrade finds it. */
  lemma UpgradeSucceedsWhileOwned(n: nat, run: Run, k: nat, o: ObjId, w: ObjId)
    requires n >= 1 && IsRun(n, run) && k < |run.states|
    requires forall r: nat, d: nat :: d < k && CutOff(n, run, r, d, o) ==> !Owing(run, r, o)
    requires forall j :: 0 <= j <= k && o in run.states[j].m.objs ==> Owned(run.states[j].m, o)
    requires o in run.states[k].m.objs && run.states[k].m.objs[o].weak == Some(w)
    ensures w in run.states[k].m.objs && run.states[k].m.objs[w].backRef == Some(o)
  {
    hide IsRun, BackLive, CutOff;
    RunInv(n, run, k);
    var s := run.states[k];
    if s.m.objs[w].backRef.None? {
      var _, r, d := CutOffExactly(n, run, k, w);
    }
  }

  /** The exact condition. A back-reference is null only because a re-check cut it
      off, and that re-check found the object owned if and only if a count was owed. */
  lemma CutOffExactly(n: nat, run: Run, k: nat, w: ObjId) returns (o: ObjId, r: nat, d: nat)
    requires n >= 1 && IsRun(n, run) && k < |run.states| && w in run.states[k].m.objs
    requires run.states[k].m.objs[w].weakOf.Some? && run.states[k].m.objs[w].backRef.None?
    ensures run.states[k].m.objs[w].weakOf == Some(o) && r < d < k && CutOff(n, run, r, d, o)
    ensures o in run.states[r].m.objs && (Owned(run.states[r].m, o) <==> Owing(run, r, o))
  {
    hide IsRun, Inv, BackLive;
    RunInv(n, run, k);
    o := run.states[k].m.objs[w].weakOf.value;
    CutOffRecorded(run.states[k], w);
    r, d := CutOffBefore(n, run, k, o);
    RecheckIsSnapshot(n, run, r, d, o, 0);
  }

  lemma CutOffRecorded(s: State, w: ObjId)
    requires Inv(s) && w in s.m.objs && s.m.objs[w].weakOf.Some? && s.m.objs[w].backRef.None?
    ensures s.m.objs[w].weakOf.value in s.c.clears
  {
    hide Ledger, Traces, Readers, Verdicts, Tracking, Grace, RecheckOk, Bookkeeping;
  }

  /** When a weak part is freed its back-reference is null, so the assertion in
      its destructor holds. */
  lemma WeakPartFreedCleared(n: nat, run: Run, k: nat, w: ObjId)
    requires n >= 1 && IsRun(n, run) && Clean(n, run, k, w) && Freed(run.states[k].m, w)
    ensures run.states[k].m.objs[w].backRef.None?
  {
    RunInv(n, run, k);
    NoEarlyFree(n, run, k, w);
    var m := run.states[k].m;
    if m.objs[w].backRef.Some? {
      assert BackLive(m, m.objs[w].backRef.value);
    }
  }

  /** A reader that found an object, be it through a weak part whose object had
      lost its last owner, finds it unfreed until it has counted itself in. */
  lemma ResurrectionSafe(n: nat, run: Run, k: nat, t: ThreadId, o: ObjId)
    requires n >= 1 && IsRun(n, run) && Clean(n, run, k, o)
    requires PcOf(run.states[k].m, t).Holding? && PcOf(run.states[k].m, t).obj == o
    ensures !Freed(run.states[k].m, o)
  {
    assert HeldByReader(run.states[k].m, o);
    if Freed(run.states[k].m, o) {
      NoEarlyFree(n, run, k, o);
    }
  }

  // ----- the grace period

  ghost predicate StartsPass(a: Action) {
    a.Col? && a.step.StartPass?
  }

  lemma BecomesOld(s: State, a: Action, t: ThreadId)
    requires Enabled(s, a) && StartsPass(a) && InSection(PcOf(s.m, t))
    ensures t in Next(s, a).c.oldReaders
  {
  }

  lemma KeepsOld(s: State, a: Action, t: ThreadId)
    requires Enabled(s, a) && t in s.c.oldReaders && a != Mut(Leave(t)) && !StartsPass(a)
    ensures t in Next(s, a).c.oldReaders
  {
    hide CanMutate, Mutate, Collect, CanCollect;
    if a.Col? {
      OldReadersStep(s, a.step);
    }
  }

  lemma OldReadersStep(s: State, x: CollectorStep)
    requires CanCollect(s, x) && !x.StartPass?
    ensures Collect(s, x).c.oldReaders == s.c.oldReaders
  {
    hide Release, ClearBackRef, SetCounter, BackLive, Look, HasCounter, CanUpdate, Shards;
  }

  lemma {:induction false} StillOld(n: nat, run: Run, j: nat, k: nat, t: ThreadId)
    requires IsRun(n, run) && j < k < |run.states|
    requires StartsPass(run.acts[j]) && InSection(PcOf(run.states[j].m, t))
    requires forall i :: j < i < k ==> run.acts[i] != Mut(Leave(t)) && !StartsPass(run.acts[i])
    ensures t in run.states[k].c.oldReaders
  {
    assert StepAt(run, k - 1);
    if k > j + 1 {
      StillOld(n, run, j, k - 1, t);
      KeepsOld(run.states[k - 1], run.acts[k - 1], t);
    } else {
      BecomesOld(run.states[j], run.acts[j], t);
    }
  }

  /** Between the start of a spin (action j) and its end (action k), every reader
      that was inside its critical section when the spin began has left it. */
  lemma GracePeriod(n: nat, run: Run, j: nat, k: nat, t: ThreadId)
    requires n >= 1 && IsRun(n, run) && j < k < |run.acts|
    requires StartsPass(run.acts[j]) && run.acts[k] == Col(EndSpin)
    requires forall i :: j < i < k ==> !StartsPass(run.acts[i])
    requires InSection(PcOf(run.states[j].m, t))
    ensures exists i :: j < i < k && run.acts[i] == Mut(Leave(t))
  {
    if forall i :: j < i < k ==> run.acts[i] != Mut(Leave(t)) {
      StillOld(n, run, j, k, t);
      assert StepAt(run, k);
      RunInv(n, run, k);
    }
  }

  // ----- a whole spin between two updates of the same counter

  /** The collector begins an update of o's state. */
  ghost predicate Updates(a: Action, o: ObjId) {
    a.Col? && (a.step == Skip(o) || a.step == StartClear(o) || a.step == StartRecheck(o))
  }

  lemma StaysOut(s: State, a: Action, o: ObjId)
    requires Enabled(s, a) && !StartsPass(a) && (o !in s.c.todo || Updates(a, o))
    ensures o !in Next(s, a).c.todo
  {
    hide CanMutate, Mutate, Collect, CanCollect;
    if a.Col? {
      TodoStep(s, a.step);
    }
  }

  /** Only the start of a pass adds to what is to be updated, and an update takes its counter off. */
  lemma TodoStep(s: State, x: CollectorStep)
    requires CanCollect(s, x) && !x.StartPass?
    ensures Collect(s, x).c.todo == if x.Skip? || x.StartClear? || x.StartRecheck? then s.c.todo - {x.o} else s.c.todo
  {
    hide Release, ClearBackRef, SetCounter, BackLive, Look, HasCounter, CanUpdate, Shards;
  }

  lemma StaysSpinning(s: State, a: Action)
    requires Enabled(s, a) && (s.c.pc.Spinning? || StartsPass(a)) && a != Col(EndSpin)
    ensures Next(s, a).c.pc.Spinning?
  {
    hide CanMutate, Mutate, Collect, CanCollect;
    if a.Col? {
      SpinningStep(s, a.step);
    }
  }

  lemma SpinningStep(s: State, x: CollectorStep)
    requires CanCollect(s, x) && (s.c.pc.Spinning? || x.StartPass?) && x != EndSpin
    ensures Collect(s, x).c.pc.Spinning?
  {
    hide Release, ClearBackRef, SetCounter, BackLive, Look, HasCounter, ReaderSet, OwnedSet, Shards;
  }

  lemma {:induction false} OutUntilNextPass(n: nat, run: Run, j: nat, k: nat, o: ObjId)
    requires IsRun(n, run) && j < k < |run.states| && Updates(run.acts[j], o)
    requires forall i :: j < i < k ==> !StartsPass(run.acts[i])
    ensures o !in run.states[k].c.todo
  {
    assert StepAt(run, k - 1);
    if k > j + 1 {
      OutUntilNextPass(n, run, j, k - 1, o);
    }
    StaysOut(run.states[k - 1], run.acts[k - 1], o);
  }

  lemma {:induction false} SpinsUntilEnd(n: nat, run: Run, j: nat, k: nat)
    requires IsRun(n, run) && j < k < |run.states| && StartsPass(run.acts[j])
    requires forall i :: j < i < k ==> run.acts[i] != Col(EndSpin)
    ensures run.states[k].c.pc.Spinning?
  {
    assert StepAt(run, k - 1);
    if k > j + 1 {
      SpinsUntilEnd(n, run, j, k - 1);
    }
    StaysSpinning(run.states[k - 1], run.acts[k - 1]);
  }

  /** No counter is updated twice without a complete spin, begun and ended, in between. */
  lemma SpinBetweenUpdates(n: nat, run: Run, j: nat, k: nat, o: ObjId)
    requires IsRun(n, run) && j < k < |run.acts| && Updates(run.acts[j], o) && Updates(run.acts[k], o)
    ensures exists b, e :: j < b < e < k && StartsPass(run.acts[b]) && run.acts[e] == Col(EndSpin)
  {
    assert StepAt(run, k);
    if forall i :: j < i < k ==> !StartsPass(run.acts[i]) {
      OutUntilNextPass(n, run, j, k, o);
    } else {
      var b :| j < b < k && StartsPass(run.acts[b]);
      if forall i :: b < i < k ==> run.acts[i] != Col(EndSpin) {
        SpinsUntilEnd(n, run, b, k);
      } else {
        var e :| b < e < k && run.acts[e] == Col(EndSpin);
      }
    }
  }

  // ----- the read a drop makes after its decrement

  /** Thread t's drop of a handle on o is action j. */
  ghost predicate DropsAt(run: Run, j: nat, t: ThreadId, o: ObjId) {
    && j < |run.acts| && j < |run.states| && run.acts[j].Mut? && run.acts[j].mutation.Drop?
    && run.acts[j].mutation.t == t && HandleOf(run.states[j].m, run.acts[j].mutation.h)
    && Target(run.states[j].m, run.acts[j].mutation.h) == o
  }

  ghost predicate FreesAt(run: Run, f: nat, o: ObjId) {
    f < |run.acts| && run.acts[f].Col? && run.acts[f].step.FreeOne? && run.acts[f].step.o == o
  }

  lemma DropLeavesTag(n: nat, run: Run, j: nat, t: ThreadId, o: ObjId)
    requires n >= 1 && IsRun(n, run) && DropsAt(run, j, t, o) && j + 1 < |run.states|
    ensures Owned(run.states[j].m, o) && Traced(run.states[j + 1].m, o)
  {
    hide IsRun;
    StepOf(n, run, j);
    var m, a := run.states[j].m, run.acts[j].mutation;
    assert Handle(a.h) in m.owners;
    assert run.states[j + 1].m.objs[o].counters[a.i].tag;
  }

  lemma BackLiveStep(s: State, a: Action, o: ObjId)
    requires Inv(s) && Enabled(s, a) && BackLive(s.m, o) && a != Col(Decide)
    ensures BackLive(Next(s, a).m, o)
  {
    match a
    case Mut(x) =>
      MutateEvolves(s.n, s.m, x);
      hide Mutate, CanMutate, Inv;
      BackLiveEvolves(s.m, Mutate(s.n, s.m, x), o);
    case Col(x) =>
      hide Inv;
      BackLiveCollect(s, x, o);
  }

  lemma BackLiveCollect(s: State, x: CollectorStep, o: ObjId)
    requires CanCollect(s, x) && BackLive(s.m, o) && x != Decide
    ensures BackLive(Collect(s, x).m, o)
  {
    hide Look, ReaderSet, OwnedSet, Shards;
  }

  lemma DecisionEndsRecheck(s: State)
    requires Enabled(s, Col(Decide))
    ensures !Next(s, Col(Decide)).c.pc.Rechecking?
  {
    hide BackLive, ClearBackRef, Look;
  }

  /** While its re-check is under way nobody but the collector's decision cuts o off. */
  lemma {:induction false} BackLiveDuringRecheck(n: nat, run: Run, r: nat, j: nat, d: nat, o: ObjId)
    requires n >= 1 && IsRun(n, run) && RecheckRuns(run, r, d, o) && r < j <= d && BackLive(run.states[j].m, o)
    ensures BackLive(run.states[d].m, o)
    decreases d
  {
    hide Next, Enabled, IsRun, Inv, Look, BackLive;
    if j < d {
      BackLiveDuringRecheck(n, run, r, j, d - 1, o);
      StepOf(n, run, d - 1);
      RunInv(n, run, d - 1);
      assert RecheckingFrom(run.states[d].c.pc, o, Look(run.states[r].m, o));
      if run.acts[d - 1] == Col(Decide) {
        DecisionEndsRecheck(run.states[d - 1]);
      }
      BackLiveStep(run.states[d - 1], run.acts[d - 1], o);
    }
  }

  /** A verdict without debt was one at every earlier moment it stood. */
  lemma FairEarlier(n: nat, run: Run, j: nat, k: nat, o: ObjId)
    requires n >= 1 && IsRun(n, run) && j <= k < |run.states| && FairVerdict(run.states[k], o)
    requires o in run.states[j].m.objs && ParentFreed(run.states[j].m, o)
    ensures ParentClean(run.states[j].m, run.states[j].c.verdicts, o)
    ensures o in run.states[j].c.verdicts ==> FairVerdict(run.states[j], o)
  {
    hide IsRun, Inv;
    RunPersists(n, run, j, k, o);
    RunInv(n, run, j);
    var p := run.states[j].m.objs[o].weakOf;
    if p.Some? {
      FreedHasVerdict(run.states[j], p.value);
      VerdictStays(n, run, j, k, p.value);
    }
    if o in run.states[j].c.verdicts {
      VerdictStays(n, run, j, k, o);
    }
  }

  /** Once condemned without debt, o is owned no more. */
  lemma UnownedOnceCondemned(n: nat, run: Run, j: nat, k: nat, o: ObjId)
    requires n >= 1 && IsRun(n, run) && j <= k < |run.states| && FairVerdict(run.states[k], o)
    requires o in run.states[j].c.verdicts
    ensures !Owned(run.states[j].m, o)
  {
    hide IsRun, Inv;
    RunInv(n, run, j);
    VerdictStays(n, run, j, k, o);
    VerdictFacts(run.states[j], o);
    FairEarlier(n, run, j, k, o);
    FairlyCondemnedUnreachable(run.states[j], o);
  }

  lemma VerdictFacts(s: State, o: ObjId)
    requires Inv(s) && o in s.c.verdicts
    ensures o in s.m.objs && (s.c.verdicts[o].debt == 0 ==> ParentFreed(s.m, o))
  {
    hide Ledger, Traces, Readers, Clears, Tracking, Grace, RecheckOk, Bookkeeping, Unreachable;
    assert VerdictOk(s.m, s.c.verdicts, o);
  }

  /** Nor is it owned while the re-check is under way that condemns it. */
  lemma UnownedDuringRecheck(n: nat, run: Run, r: nat, j: nat, d: nat, k: nat, o: ObjId)
    requires n >= 1 && IsRun(n, run) && r < j < d < k < |run.states|
    requires Condemned(n, run, r, d, o) && !Owing(run, r, o) && FairVerdict(run.states[k], o)
    ensures !Owned(run.states[j].m, o)
  {
    hide IsRun, Inv, Next, Enabled, BackLive, Unreachable;
    RunInv(n, run, j);
    RunInv(n, run, d);
    var sj, sd, first := run.states[j], run.states[d], Look(run.states[r].m, o);
    assert RecheckingFrom(sj.c.pc, o, first) && RecheckingFrom(sd.c.pc, o, first);
    FinishedRecheck(sd);
    RecheckFacts(sj);
    FairEarlier(n, run, j, k, o);
    StepOf(n, run, d);
    NewVerdictStep(sd, run.acts[d], o);
    if BackLive(sj.m, o) {
      BackLiveDuringRecheck(n, run, r, j, d, o);
    }
    UnreachableUnowned(sj.m, o);
  }

  lemma FinishedRecheck(s: State)
    requires Inv(s) && s.c.pc.Rechecking? && s.c.pc.k == s.n && s.c.pc.acc == 0
    ensures !AnyTag(s.c.pc.first.base) && Exact(s.c.pc.first)
  {
    hide Ledger, Traces, Readers, Clears, Tracking, Grace, Bookkeeping, Verdicts;
    SnapshotAtDecision(s.n, s.m, s.c.verdicts, s.c.pc);
  }

  lemma RecheckFacts(s: State)
    requires Inv(s) && s.c.pc.Rechecking?
    ensures s.c.pc.obj in s.m.objs && Sighted(s.m, s.c.verdicts, s.c.pc.obj, s.c.pc.first)
  {
    hide Ledger, Traces, Readers, Clears, Tracking, Grace, Bookkeeping, Verdicts, Sighted;
  }

  lemma UnreachableUnowned(m: Shared, o: ObjId)
    ensures Unreachable(m, o) ==> !Owned(m, o)
  {
  }

  /** A drop of o comes before the re-check that condemns it. */
  lemma DropBeforeRecheck(n: nat, run: Run, j: nat, r: nat, d: nat, k: nat, t: ThreadId, o: ObjId)
    requires n >= 1 && IsRun(n, run) && DropsAt(run, j, t, o) && j < k < |run.states| && d < k
    requires Condemned(n, run, r, d, o) && !Owing(run, r, o) && FairVerdict(run.states[k], o)
    ensures j < r
  {
    hide IsRun, Look;
    DropLeavesTag(n, run, j, t, o);
    if j > d {
      VerdictStays(n, run, d + 1, j, o);
      UnownedOnceCondemned(n, run, j, k, o);
    } else if r < j && j < d {
      UnownedDuringRecheck(n, run, r, j, d, k, o);
    }
  }

  lemma ClearedOutOfTodo(n: nat, run: Run, c: nat, o: ObjId)
    requires n >= 1 && IsRun(n, run) && ClearsTagAt(run, c, o)
    ensures o !in run.states[c].c.todo
  {
    hide IsRun, Ledger, Traces, Readers, Clears, Tracking, Grace, Verdicts, RecheckOk;
    RunInv(n, run, c);
  }

  /** Between a tag clear of o and a re-check of o a whole spin begins and ends. */
  lemma SpinAfterClear(n: nat, run: Run, c: nat, r: nat, o: ObjId) returns (b: nat, e: nat)
    requires n >= 1 && IsRun(n, run) && ClearsTagAt(run, c, o) && c < r < |run.acts| && run.acts[r] == Col(StartRecheck(o))
    ensures c < b < e < r && StartsPass(run.acts[b]) && run.acts[e] == Col(EndSpin)
  {
    ClearedOutOfTodo(n, run, c, o);
    assert StepAt(run, r);
    if forall i :: c <= i < r ==> !StartsPass(run.acts[i]) {
      OutOfTodo(n, run, c, r, o);
    }
    b :| c <= b < r && StartsPass(run.acts[b]);
    if forall i :: b < i < r ==> run.acts[i] != Col(EndSpin) {
      SpinsUntilEnd(n, run, b, r);
    }
    e :| b < e < r && run.acts[e] == Col(EndSpin);
  }

  lemma {:induction false} OutOfTodo(n: nat, run: Run, c: nat, k: nat, o: ObjId)
    requires IsRun(n, run) && c <= k < |run.states| && o !in run.states[c].c.todo
    requires forall i :: c <= i < k ==> !StartsPass(run.acts[i])
    ensures o !in run.states[k].c.todo
  {
    if c < k {
      OutOfTodo(n, run, c, k - 1, o);
      assert StepAt(run, k - 1);
      StaysOut(run.states[k - 1], run.acts[k - 1], o);
    }
  }

  /** An object dropped at j and freed by moment k had a tag cleared after the drop,
      then a whole spin begun and ended, and only then the re-check that condemned it. */
  lemma FreedOnlyAfterSpin(n: nat, run: Run, j: nat, k: nat, t: ThreadId, o: ObjId)
    returns (c: nat, b: nat, e: nat, r: nat, d: nat)
    requires n >= 1 && IsRun(n, run) && DropsAt(run, j, t, o) && j < k < |run.states|
    requires Clean(n, run, k, o) && Freed(run.states[k].m, o)
    ensures j < c < b < e < r < d < k && ClearsTagAt(run, c, o) && StartsPass(run.acts[b])
    ensures run.acts[e] == Col(EndSpin) && Condemned(n, run, r, d, o)
  {
    hide IsRun, Look, Traced;
    CleanFreed(n, run, k, o);
    r, d := CondemnedBefore(n, run, k, o);
    DropBeforeRecheck(n, run, j, r, d, k, t, o);
    DropLeavesTag(n, run, j, t, o);
    UntracedAtFirstRead(n, run, r, d, o);
    if NoTagClear(run, j + 1, r, o) {
      OwnershipTraced(n, run, j + 1, r, o);
    }
    c :| j + 1 <= c < r && ClearsTagAt(run, c, o);
    b, e := SpinAfterClear(n, run, c, r, o);
  }

  lemma TrailingStep(s: State, a: Action, t: ThreadId, o: ObjId)
    requires Enabled(s, a) && PcOf(Next(s, a).m, t) == Trailing(o)
    ensures PcOf(s.m, t) == Trailing(o) ||
            (a.Mut? && a.mutation.Drop? && a.mutation.t == t && HandleOf(s.m, a.mutation.h) && Target(s.m, a.mutation.h) == o)
  {
    hide Collect, CanCollect, Mutate, CanMutate, OwnedSet;
    match a
    case Mut(x) => TrailingMutate(s.n, s.m, x, t, o);
    case Col(x) => SamePcs(s, x);
  }

  lemma TrailingMutate(n: nat, m: Shared, a: Mutation, t: ThreadId, o: ObjId)
    requires CanMutate(n, m, a) && PcOf(Mutate(n, m, a), t) == Trailing(o)
    ensures PcOf(m, t) == Trailing(o) || (a.Drop? && a.t == t && HandleOf(m, a.h) && Target(m, a.h) == o)
  {
    hide MemoryFree, Pinned, CellAddress, AddressOf, NewObject;
  }

  lemma SamePcs(s: State, x: CollectorStep)
    requires CanCollect(s, x)
    ensures Collect(s, x).m.pcs == s.m.pcs
  {
    hide Look, ReaderSet, OwnedSet, Shards, CanUpdate, BackLive;
  }

  /** A thread about to make its trailing read has been so since its drop. */
  lemma {:induction false} TrailingSince(n: nat, run: Run, k: nat, t: ThreadId, o: ObjId) returns (j: nat)
    requires IsRun(n, run) && k < |run.states| && PcOf(run.states[k].m, t) == Trailing(o)
    ensures j < k && DropsAt(run, j, t, o)
    ensures forall i :: j < i <= k ==> PcOf(run.states[i].m, t) == Trailing(o)
  {
    if k == 0 {
      assert false;
    } else {
      StepOf(n, run, k - 1);
      hide IsRun, Next, Enabled;
      TrailingStep(run.states[k - 1], run.acts[k - 1], t, o);
      if PcOf(run.states[k - 1].m, t) == Trailing(o) {
        j := TrailingSince(n, run, k - 1, t, o);
      } else {
        j := k - 1;
      }
    }
  }

  lemma UnfreedStep(s: State, a: Action, o: ObjId)
    requires Inv(s) && Enabled(s, a) && o in s.m.objs && !Freed(s.m, o) && Freed(Next(s, a).m, o)
    ensures a.Col? && a.step.FreeOne? && a.step.o == o
  {
    hide Inv, Mutate, CanMutate, Collect, CanCollect, Freed;
    if a.Mut? {
      UnfreedMutate(s, a.mutation, o);
    } else {
      UnfreedCollect(s, a.step, o);
    }
  }

  lemma UnfreedMutate(s: State, a: Mutation, o: ObjId)
    requires Inv(s) && CanMutate(s.n, s.m, a) && o in s.m.objs
    ensures Freed(Mutate(s.n, s.m, a), o) <==> Freed(s.m, o)
  {
    MutateEvolves(s.n, s.m, a);
    hide Mutate, CanMutate, Inv;
    assert ObjectEvolves(s.m.objs[o], Mutate(s.n, s.m, a).objs[o]);
  }

  lemma UnfreedCollect(s: State, x: CollectorStep, o: ObjId)
    requires CanCollect(s, x) && o in s.m.objs && !Freed(s.m, o) && Freed(Collect(s, x).m, o)
    ensures x.FreeOne? && x.o == o
  {
    hide Look, ReaderSet, OwnedSet, Shards;
  }

  lemma {:induction false} FreedBetween(n: nat, run: Run, j: nat, k: nat, o: ObjId) returns (f: nat)
    requires n >= 1 && IsRun(n, run) && j <= k < |run.states| && o in run.states[j].m.objs
    requires !Freed(run.states[j].m, o) && Freed(run.states[k].m, o)
    ensures j <= f < k && FreesAt(run, f, o)
  {
    hide IsRun, Inv, Next, Enabled;
    RunPersists(n, run, j, k - 1, o);
    StepOf(n, run, k - 1);
    RunInv(n, run, k - 1);
    if Freed(run.states[k - 1].m, o) {
      f := FreedBetween(n, run, j, k - 1, o);
    } else {
      UnfreedStep(run.states[k - 1], run.acts[k - 1], o);
      f := k - 1;
    }
  }

  /** Between the drop and its trailing read some spin began and ended. */
  ghost predicate WholeSpinWithin(run: Run, j: nat, k: nat) {
    exists b, e :: j < b < e < k < |run.states| && e < |run.acts| && StartsPass(run.acts[b]) && run.acts[e] == Col(EndSpin)
  }

  /** When a drop's trailing read is safe. It finds its object freed if and only if
      the collector freed it since the drop, which takes a whole spin, begun after
      the drop and ended before the read; a read made before that is safe. */
  lemma TrailingReadExactly(n: nat, run: Run, k: nat, t: ThreadId, o: ObjId) returns (j: nat)
    requires n >= 1 && IsRun(n, run) && Clean(n, run, k, o) && PcOf(run.states[k].m, t) == Trailing(o)
    ensures j < k && DropsAt(run, j, t, o)
    ensures Freed(run.states[k].m, o) <==> exists f :: j < f < k && FreesAt(run, f, o)
    ensures !WholeSpinWithin(run, j, k) ==> !Freed(run.states[k].m, o)
  {
    j := TrailingSince(n, run, k, t, o);
    hide IsRun, Inv, Look, DebtFree;
    DropLeavesTag(n, run, j, t, o);
    if Freed(run.states[k].m, o) {
      var c, b, e, r, d := FreedOnlyAfterSpin(n, run, j, k, t, o);
      assert j < b < e < k && StartsPass(run.acts[b]) && run.acts[e] == Col(EndSpin);
      UnfreedAtDrop(n, run, j, k, t, o);
      var f := FreedBetween(n, run, j, k, o);
    }
    if f :| j < f < k && FreesAt(run, f, o) {
      FreeStep(n, run, f, o, run.acts[f].step.h);
      RunPersists(n, run, f + 1, k, o);
    }
  }

  lemma UnfreedAtDrop(n: nat, run: Run, j: nat, k: nat, t: ThreadId, o: ObjId)
    requires n >= 1 && IsRun(n, run) && DropsAt(run, j, t, o) && j < k < |run.states|
    requires Clean(n, run, k, o) && Freed(run.states[k].m, o)
    ensures o in run.states[j].m.objs && !Freed(run.states[j].m, o)
  {
    hide IsRun, Inv, Clean;
    DropLeavesTag(n, run, j, t, o);
    CleanFreed(n, run, k, o);
    if Freed(run.states[j].m, o) {
      RunInv(n, run, j);
      FreedHasVerdict(run.states[j], o);
      UnownedOnceCondemned(n, run, j, k, o);
    }
  }

  // ----- a weak part's object is freed only after a cut-off and a whole spin

  lemma CutOffBeforeCondemned(n: nat, run: Run, rc: nat, dc: nat, r: nat, d: nat, k: nat, o: ObjId)
    requires n >= 1 && IsRun(n, run) && dc < k < |run.states| && d < k && FairVerdict(run.states[k], o)
    requires CutOff(n, run, rc, dc, o) && Condemned(n, run, r, d, o)
    ensures dc < r
  {
    hide IsRun, Next, Enabled, Inv, Look, BackLive, Unreachable;
    RunInv(n, run, d);
    StepOf(n, run, d);
    NewVerdictStep(run.states[d], run.acts[d], o);
    if dc > d {
      VerdictStays(n, run, d + 1, dc, o);
      RunInv(n, run, dc);
      VerdictStays(n, run, dc, k, o);
      VerdictFacts(run.states[dc], o);
      FairEarlier(n, run, dc, k, o);
      FairlyCondemnedUnreachable(run.states[dc], o);
      UnreachableNotBackLive(run.states[dc].m, o);
    } else if r < dc && dc < d {
      StepOf(n, run, dc);
      DecisionEndsRecheck(run.states[dc]);
    }
  }

  lemma UnreachableNotBackLive(m: Shared, o: ObjId)
    ensures Unreachable(m, o) ==> !BackLive(m, o)
  {
  }

  lemma NoPassDuringRecheck(n: nat, run: Run, r: nat, k: nat, b: nat, o: ObjId)
    requires IsRun(n, run) && RecheckRuns(run, r, k, o) && r < b <= k && b < |run.acts|
    ensures !StartsPass(run.acts[b])
  {
    hide Look;
    assert RecheckingFrom(run.states[b].c.pc, o, Look(run.states[r].m, o));
    assert StepAt(run, b);
  }

  /** An object with a weak part is freed in this order only: a re-check nulls the
      back-reference, a whole spin follows, and then comes the re-check that condemns it. */
  lemma FreedAfterCutOff(n: nat, run: Run, k: nat, o: ObjId) returns (rc: nat, dc: nat, b: nat, e: nat, r: nat, d: nat)
    requires n >= 1 && IsRun(n, run) && Clean(n, run, k, o) && Freed(run.states[k].m, o)
    requires run.states[k].m.objs[o].weak.Some?
    ensures rc < dc < b < e < r < d < k && CutOff(n, run, rc, dc, o) && Condemned(n, run, r, d, o)
    ensures StartsPass(run.acts[b]) && run.acts[e] == Col(EndSpin)
  {
    hide Next, Enabled, Inv, Look, BackLive, Unreachable, DebtFree;
    RunInv(n, run, k);
    CleanFreed(n, run, k, o);
    NoEarlyFree(n, run, k, o);
    UnreachableNotBackLive(run.states[k].m, o);
    NullWhenNotLive(run.states[k], o);
    var p;
    p, rc, dc := CutOffExactly(n, run, k, run.states[k].m.objs[o].weak.value);
    r, d := CondemnedBefore(n, run, k, o);
    CutOffBeforeCondemned(n, run, rc, dc, r, d, k, o);
    SpinBetweenUpdates(n, run, rc, r, o);
    b, e :| rc < b < e < r && StartsPass(run.acts[b]) && run.acts[e] == Col(EndSpin);
    if b <= dc {
      NoPassDuringRecheck(n, run, rc, dc, b, o);
    }
  }

  lemma NullWhenNotLive(s: State, o: ObjId)
    requires Inv(s) && o in s.m.objs && s.m.objs[o].weak.Some? && !BackLive(s.m, o)
    ensures var w := s.m.objs[o].weak.value; w in s.m.objs && s.m.objs[w].weakOf == Some(o) && s.m.objs[w].backRef.None?
  {
    hide Traces, Readers, Verdicts, Clears, Tracking, Grace, RecheckOk, Bookkeeping, Balanced, SectionsCounted, MemoryDistinct;
  }

  // ----- what a caller can see of the condition

  /** Action i is a compare-and-set that puts o into a cell. */
  ghost predicate Installs(run: Run, i: nat, o: ObjId) {
    && i < |run.acts| && i < |run.states| && run.acts[i].Mut? && InstallStep(run.states[i].m, run.acts[i].mutation, o)
  }

  ghost predicate InstallStep(m: Shared, a: Mutation, o: ObjId) {
    a.CompareAndSet? && a.replacement.Some? && HandleOf(m, a.replacement.value) && Target(m, a.replacement.value) == o
  }

  ghost predicate NotInstalled(run: Run, k: nat, o: ObjId) {
    forall i :: 0 <= i < k ==> !Installs(run, i, o)
  }

  lemma DebtOnlyByInstalling(n: nat, m: Shared, a: Mutation, o: ObjId)
    requires CanMutate(n, m, a) && Debtors(m, o) == {} && !InstallStep(m, a, o)
    ensures Debtors(Mutate(n, m, a), o) == {}
  {
    hide MemoryFree, Pinned, CellAddress, AddressOf, NewObject;
    var m2 := Mutate(n, m, a);
    forall t | t in m2.pcs ensures !IsDebt(m2.pcs[t], o) {
      assert t !in Debtors(m, o);
    }
  }

  /** Nobody owes a count to an object no compare-and-set has put into a cell. */
  lemma {:induction false} NotInstalledOwesNothing(n: nat, run: Run, k: nat, o: ObjId)
    requires IsRun(n, run) && k < |run.states| && NotInstalled(run, k, o)
    ensures Debtors(run.states[k].m, o) == {}
  {
    if k > 0 {
      NotInstalledOwesNothing(n, run, k - 1, o);
      StepOf(n, run, k - 1);
      assert !Installs(run, k - 1, o);
      hide IsRun, CanMutate, Mutate, Collect, CanCollect;
      var s, a := run.states[k - 1], run.acts[k - 1];
      match a
      case Mut(x) => DebtOnlyByInstalling(s.n, s.m, x, o);
      case Col(x) => SamePcs(s, x);
    }
  }

  /** So the condition of the safety theorems holds for it. */
  lemma NotInstalledDebtFree(n: nat, run: Run, k: nat, o: ObjId)
    requires IsRun(n, run) && k < |run.states| && NotInstalled(run, k, o)
    ensures DebtFree(n, run, k, o)
  {
    hide IsRun, Look;
    forall r: nat, d: nat | d < k && Condemned(n, run, r, d, o) ensures !Owing(run, r, o) {
      NotInstalledOwesNothing(n, run, r, o);
    }
  }

  /** A weak part is never in a cell, so only its object's condition matters. */
  lemma WeakPartDebtFree(n: nat, run: Run, k: nat, w: ObjId)
    requires n >= 1 && IsRun(n, run) && k < |run.states| && w in run.states[k].m.objs
    requires run.states[k].m.objs[w].weakOf.Some?
    ensures DebtFree(n, run, k, w)
    ensures DebtFree(n, run, k, run.states[k].m.objs[w].weakOf.value) <==> Clean(n, run, k, w)
  {
    forall i | 0 <= i < k ensures !Installs(run, i, w) {
      if Installs(run, i, w) {
        StepOf(n, run, i);
        RunPersists(n, run, i, k, w);
      }
    }
    hide IsRun;
    NotInstalledDebtFree(n, run, k, w);
  }

  /** What callers can check: an object that no compare-and-set has put into a cell,
      itself or as the object of a weak part, is never freed early. */
  lemma NoEarlyFreeForCallers(n: nat, run: Run, k: nat, o: ObjId)
    requires n >= 1 && IsRun(n, run) && k < |run.states| && Freed(run.states[k].m, o)
    requires NotInstalled(run, k, if run.states[k].m.objs[o].weakOf.Some? then run.states[k].m.objs[o].weakOf.value else o)
    ensures Unreachable(run.states[k].m, o)
  {
    hide IsRun, DebtFree, Unreachable, NotInstalled;
    if run.states[k].m.objs[o].weakOf.Some? {
      NotInstalledDebtFree(n, run, k, run.states[k].m.objs[o].weakOf.value);
      WeakPartDebtFree(n, run, k, o);
    } else {
      NotInstalledDebtFree(n, run, k, o);
    }
    NoEarlyFree(n, run, k, o);
  }
}
