/**
 What the operations give their callers: which handles and cells each step changes
 and to what, what load, upgrade, swap and compare-and-set return over whole runs,
 and that nobody waits for anybody, the collector's spin aside.
 */
module ProtocolOperations {
  import opened Counting
  import opened ShardCounters
  import opened Protocol
  import opened ProtocolLedger
  import opened ProtocolEvolution
  import opened ProtocolInvariant
  import opened ProtocolCollector
  import opened ProtocolTheorems
  import opened ProtocolStageOne

  // ----- who holds what

  function HeldBy(m: Shared, k: OwnerId): Option<ObjId> {
    if k in m.owners then Some(m.owners[k]) else None
  }

  /** Only the owners in `keys` may hold something else after than before. */
  ghost predicate OnlyAt(m: Shared, m2: Shared, keys: set<OwnerId>) {
    forall k :: k !in keys ==> HeldBy(m2, k) == HeldBy(m, k)
  }

  /** What an optional handle points to. */
  function Pointee(m: Shared, h: Option<nat>): Option<ObjId> {
    if h.Some? then HeldBy(m, Handle(h.value)) else None
  }

  /** Every mutator step, as its caller sees it. */
  ghost predicate Effect(m: Shared, a: Mutation, m2: Shared) {
    match a
    case New(o, h, addr, slot, _) =>
      && OnlyAt(m, m2, {Handle(h)}) && HeldBy(m, Handle(h)).None? && HeldBy(m2, Handle(h)) == Some(o)
      && o !in m.objs && o in m2.objs && !m2.objs[o].freed && m2.objs[o].addr == addr && m2.objs[o].slot == slot
    case Clone(h, h2, _) =>
      OnlyAt(m, m2, {Handle(h2)}) && HeldBy(m2, Handle(h2)) == HeldBy(m, Handle(h)) && HeldBy(m, Handle(h)).Some?
    case Drop(_, h, _) =>
      OnlyAt(m, m2, {Handle(h)}) && HeldBy(m, Handle(h)).Some? && HeldBy(m2, Handle(h)).None?
    case Acquire(t, _, h) =>
      OnlyAt(m, m2, {Handle(h)}) && PcOf(m, t).Holding? && HeldBy(m2, Handle(h)) == Some(PcOf(m, t).obj)
    case Swap(c, arg, h) =>
      && OnlyAt(m, m2, {Handle(h), Cell(c)} + if arg.Some? then {Handle(arg.value)} else {})
      && HeldBy(m2, Handle(h)) == HeldBy(m, Cell(c)) && HeldBy(m2, Cell(c)) == Pointee(m, arg)
      && (arg.Some? ==> HeldBy(m2, Handle(arg.value)).None?)
    case CompareAndSet(_, c, _, replacement, h) =>
      && OnlyAt(m, m2, {Handle(h), Cell(c)})
      && HeldBy(m2, Handle(h)) == HeldBy(m, Cell(c)) && HeldBy(m2, Cell(c)) == Pointee(m, replacement)
    case InitWeak(h, w, _, _, _) =>
      var o := HeldBy(m, Handle(h));
      && o.Some? && OnlyAt(m, m2, {WeakField(o.value)}) && HeldBy(m2, WeakField(o.value)) == Some(w)
      && w !in m.objs && w in m2.objs && m2.objs[w].backRef == o && o.value in m2.objs && m2.objs[o.value].weak == Some(w)
    case CloneWeak(h, h2, _) =>
      var o := HeldBy(m, Handle(h));
      o.Some? && o.value in m.objs && OnlyAt(m, m2, {Handle(h2)}) && HeldBy(m2, Handle(h2)).Some? &&
      HeldBy(m2, Handle(h2)) == m.objs[o.value].weak
    case _ => OnlyAt(m, m2, {})
  }

  lemma ExchangeEffect(m: Shared, c: nat, content: Option<ObjId>, h: nat)
    requires Handle(h) !in m.owners
    ensures var m2 := Exchange(m, c, content, h);
            OnlyAt(m, m2, {Handle(h), Cell(c)}) && HeldBy(m2, Handle(h)) == HeldBy(m, Cell(c)) && HeldBy(m2, Cell(c)) == content
  {
  }

  lemma SwapEffect(n: nat, m: Shared, a: Mutation)
    requires CanMutate(n, m, a) && (a.Swap? || a.CompareAndSet?)
    ensures Effect(m, a, Mutate(n, m, a))
  {
    hide CellAddress, AddressOf, Pinned;
    match a
    case Swap(c, arg, h) =>
      var m1 := if arg.Some? then DropOwner(m, Handle(arg.value)) else m;
      var content := if arg.Some? then Some(Target(m, arg.value)) else None;
      ExchangeEffect(m1, c, content, h);
    case CompareAndSet(t, c, expected, replacement, h) =>
      var content := if replacement.Some? then Some(Target(m, replacement.value)) else None;
      ExchangeEffect(m, c, content, h);
  }

  lemma EffectOf(n: nat, m: Shared, a: Mutation)
    requires CanMutate(n, m, a)
    ensures Effect(m, a, Mutate(n, m, a))
  {
    hide CellAddress, AddressOf, Pinned, MemoryFree;
    if a.Swap? || a.CompareAndSet? {
      SwapEffect(n, m, a);
    }
  }

  /** In every run each step changes just these handles, cells and weak fields. */
  lemma StepEffect(n: nat, run: Run, k: nat, a: Mutation)
    requires IsRun(n, run) && k < |run.acts| && run.acts[k] == Mut(a)
    ensures Effect(run.states[k].m, a, run.states[k + 1].m)
  {
    StepOf(n, run, k);
    hide IsRun, Mutate, CanMutate, Effect;
    EffectOf(run.states[k].n, run.states[k].m, a);
  }

  /** Freeing an object passes its reference on its weak part to a handle, which the
      collector thread drops, and changes no other owner. */
  lemma FreeEffect(n: nat, run: Run, k: nat, o: ObjId, h: nat)
    requires n >= 1 && IsRun(n, run) && k < |run.acts| && run.acts[k] == Col(FreeOne(o, h))
    ensures var m, m2 := run.states[k].m, run.states[k + 1].m;
            && o in m.objs && OnlyAt(m, m2, {Handle(h), WeakField(o)})
            && HeldBy(m2, Handle(h)) == m.objs[o].weak && HeldBy(m2, WeakField(o)).None?
  {
    RunLength(n, run);
    hide IsRun, Inv, CanCollect, Freed, OnlyAt, HeldBy;
    RunInv(n, run, k);
    StepOf(n, run, k);
    var s := run.states[k];
    FreeOneUnfreed(s, o, h);
    WeakFieldOf(s, o);
    ReleaseEffect(s.m, o, h);
  }

  lemma ReleaseEffect(m: Shared, o: ObjId, h: nat)
    requires o in m.objs && Handle(h) !in m.owners
    ensures var m2 := Release(m, o, h);
            && OnlyAt(m, m2, {Handle(h), WeakField(o)})
            && HeldBy(m2, Handle(h)) == HeldBy(m, WeakField(o)) && HeldBy(m2, WeakField(o)).None?
  {
  }

  lemma WeakFieldOf(s: State, o: ObjId)
    requires Inv(s) && o in s.m.objs && !Freed(s.m, o)
    ensures HeldBy(s.m, WeakField(o)) == s.m.objs[o].weak
  {
    hide Traces, Readers, Verdicts, Clears, Tracking, Grace, RecheckOk, Bookkeeping, Balanced, SectionsCounted, MemoryDistinct;
  }

  lemma FreeOneUnfreed(s: State, o: ObjId, h: nat)
    requires Inv(s) && CanCollect(s, FreeOne(o, h))
    ensures o in s.m.objs && !Freed(s.m, o) && Handle(h) !in s.m.owners
    ensures Collect(s, FreeOne(o, h)).m == Release(s.m, o, h)
  {
    hide Ledger, Traces, Readers, Verdicts, Clears, Grace, RecheckOk, Release;
  }

  // ----- compare-and-set compares, and swap exchanges

  ghost predicate CleanIfSome(n: nat, run: Run, k: nat, o: Option<ObjId>) {
    o.Some? ==> Clean(n, run, k, o.value)
  }

  lemma OwnedIsFound(s: State, k: OwnerId)
    requires Inv(s) && k in s.m.owners
    ensures ProtocolTheorems.Found(s.m, s.m.owners[k])
  {
    hide Traces, Readers, Verdicts, Clears, Tracking, Grace, RecheckOk, Bookkeeping, Balanced, SectionsCounted, MemoryDistinct,
         WeakLinked;
  }

  /** Equal addresses in a cell and behind a handle mean equal objects. */
  lemma SameAddressSameObject(n: nat, run: Run, k: nat, c: nat, expected: Option<nat>)
    requires n >= 1 && IsRun(n, run) && k < |run.states|
    requires expected.Some? ==> HandleOf(run.states[k].m, expected.value)
    requires CleanIfSome(n, run, k, HeldBy(run.states[k].m, Cell(c))) && CleanIfSome(n, run, k, Pointee(run.states[k].m, expected))
    ensures var m := run.states[k].m;
            && (Cell(c) in m.owners ==> m.owners[Cell(c)] in m.objs)
            && (CellAddress(m, c) == AddressOf(m, expected) <==> HeldBy(m, Cell(c)) == Pointee(m, expected))
  {
    RunInv(n, run, k);
    hide IsRun, Inv, Clean, Found;
    var s := run.states[k];
    if Cell(c) in s.m.owners {
      OwnedIsFound(s, Cell(c));
      FoundExists(s.m, s.m.owners[Cell(c)]);
    }
    if Cell(c) in s.m.owners && expected.Some? && CellAddress(s.m, c) == AddressOf(s.m, expected) {
      OwnedIsFound(s, Handle(expected.value));
      NoAba(n, run, k, s.m.owners[Cell(c)], Target(s.m, expected.value));
    }
  }

  lemma FoundExists(m: Shared, o: ObjId)
    requires Found(m, o)
    ensures o in m.objs
  {
  }

  /** A compare-and-set that takes effect found the very object it expected in the
      cell, or the cell empty if it expected null. It returns that as a handle and
      leaves the new object, or nothing, in the cell; no other owner changes. */
  lemma CompareAndSetExchanges(n: nat, run: Run, k: nat, t: ThreadId, c: nat, expected: Option<nat>, replacement: Option<nat>, h: nat)
    requires n >= 1 && IsRun(n, run) && k < |run.acts|
    requires run.acts[k] == Mut(CompareAndSet(t, c, expected, replacement, h))
    requires CleanIfSome(n, run, k, HeldBy(run.states[k].m, Cell(c))) && CleanIfSome(n, run, k, Pointee(run.states[k].m, expected))
    ensures var m, m2 := run.states[k].m, run.states[k + 1].m;
            && HeldBy(m, Cell(c)) == Pointee(m, expected) && HeldBy(m2, Handle(h)) == Pointee(m, expected)
            && HeldBy(m2, Cell(c)) == Pointee(m, replacement) && OnlyAt(m, m2, {Handle(h), Cell(c)})
  {
    StepOf(n, run, k);
    StepEffect(n, run, k, CompareAndSet(t, c, expected, replacement, h));
    CasCan(run.states[k].n, run.states[k].m, t, c, expected, replacement, h);
    hide IsRun, CleanIfSome, OnlyAt, CanMutate, Mutate;
    SameAddressSameObject(n, run, k, c, expected);
  }

  lemma CasCan(n: nat, m: Shared, t: ThreadId, c: nat, expected: Option<nat>, replacement: Option<nat>, h: nat)
    requires CanMutate(n, m, CompareAndSet(t, c, expected, replacement, h))
    ensures expected.Some? ==> HandleOf(m, expected.value)
    ensures Cell(c) in m.owners ==> m.owners[Cell(c)] in m.objs
    ensures CellAddress(m, c) == AddressOf(m, expected)
  {
  }

  /** And it takes effect exactly if the cell holds what is expected. */
  lemma CompareAndSetExactly(n: nat, run: Run, k: nat, t: ThreadId, c: nat, expected: Option<nat>, replacement: Option<nat>, h: nat)
    requires n >= 1 && IsRun(n, run) && k < |run.states| && PcOf(run.states[k].m, t).Idle? && Handle(h) !in run.states[k].m.owners
    requires expected.Some? ==> HandleOf(run.states[k].m, expected.value)
    requires replacement.Some? ==> FitsCell(run.states[k].m, replacement.value)
    requires CleanIfSome(n, run, k, HeldBy(run.states[k].m, Cell(c))) && CleanIfSome(n, run, k, Pointee(run.states[k].m, expected))
    ensures var s := run.states[k];
            CanMutate(s.n, s.m, CompareAndSet(t, c, expected, replacement, h)) <==> HeldBy(s.m, Cell(c)) == Pointee(s.m, expected)
  {
    hide IsRun, CleanIfSome;
    SameAddressSameObject(n, run, k, c, expected);
  }

  // ----- load and upgrade, from the first step to the last

  /** The action is one of thread t's own. */
  ghost predicate IsStepOf(a: Action, t: ThreadId) {
    a.Mut? &&
    match a.mutation
    case Drop(u, _, _) => u == t
    case TrailingRead(u) => u == t
    case Enter(u, _, _) => u == t
    case ReadPointer(u) => u == t
    case Acquire(u, _, _) => u == t
    case Leave(u) => u == t
    case CompareAndSet(u, _, _, _, _) => u == t
    case PayDebt(u, _) => u == t
    case _ => false
  }

  /** Between actions j and k thread t takes no step of its own. */
  ghost predicate Pauses(run: Run, j: nat, k: nat, t: ThreadId) {
    forall i :: j < i < k && i < |run.acts| ==> !IsStepOf(run.acts[i], t)
  }

  lemma OtherStepPc(s: State, a: Action, t: ThreadId)
    requires Enabled(s, a) && !IsStepOf(a, t)
    ensures PcOf(Next(s, a).m, t) == PcOf(s.m, t)
  {
    hide Mutate, CanMutate, Collect, CanCollect, OwnedSet;
    match a
    case Mut(x) => OtherMutatePc(s.n, s.m, x, t);
    case Col(x) => SamePcs(s, x);
  }

  lemma OtherMutatePc(n: nat, m: Shared, a: Mutation, t: ThreadId)
    requires CanMutate(n, m, a) && !IsStepOf(Mut(a), t)
    ensures PcOf(Mutate(n, m, a), t) == PcOf(m, t)
  {
    hide MemoryFree, Pinned, CellAddress, AddressOf, NewObject;
  }

  lemma {:induction false} PcWhilePausing(n: nat, run: Run, j: nat, k: nat, t: ThreadId)
    requires IsRun(n, run) && j < k < |run.states| && Pauses(run, j, k, t)
    ensures PcOf(run.states[k].m, t) == PcOf(run.states[j + 1].m, t)
    decreases k
  {
    hide IsRun, Next, Enabled, IsStepOf;
    if j + 1 < k {
      PcWhilePausing(n, run, j, k - 1, t);
      StepOf(n, run, k - 1);
      OtherStepPc(run.states[k - 1], run.acts[k - 1], t);
    }
  }

  /** Thread t enters its section with action e and reads its pointer with action r. */
  ghost predicate Reads(run: Run, e: nat, r: nat, t: ThreadId, i: nat, src: Source) {
    && e < r < |run.acts| && run.acts[e] == Mut(Enter(t, i, src)) && run.acts[r] == Mut(ReadPointer(t)) && Pauses(run, e, r, t)
  }

  /** It then counts itself in with action q, as handle h. */
  ghost predicate CountsIn(run: Run, r: nat, q: nat, t: ThreadId, i: nat, h: nat) {
    r < q < |run.acts| && run.acts[q] == Mut(Acquire(t, i, h)) && Pauses(run, r, q, t)
  }

  lemma EnterPc(n: nat, run: Run, e: nat, r: nat, t: ThreadId, i: nat, src: Source)
    requires IsRun(n, run) && Reads(run, e, r, t, i, src)
    ensures PcOf(run.states[r].m, t) == Reading(i, src)
  {
    StepOf(n, run, e);
    RunLength(n, run);
    hide IsRun;
    PcWhilePausing(n, run, e, r, t);
  }

  /** A load finds what the cell holds at its read, and nothing in an empty cell. */
  lemma LoadFinds(n: nat, run: Run, e: nat, r: nat, t: ThreadId, i: nat, c: nat)
    requires IsRun(n, run) && Reads(run, e, r, t, i, FromCell(c))
    ensures var found := HeldBy(run.states[r].m, Cell(c));
            PcOf(run.states[r + 1].m, t) == if found.Some? then Holding(i, found.value, false) else Leaving(i)
    ensures run.states[r + 1].m.owners == run.states[r].m.owners
  {
    EnterPc(n, run, e, r, t, i, FromCell(c));
    StepOf(n, run, r);
  }

  /** The handle thread t gets is on the object it holds. */
  lemma CountsInHeld(n: nat, run: Run, r: nat, q: nat, t: ThreadId, i: nat, h: nat)
    requires IsRun(n, run) && CountsIn(run, r, q, t, i, h) && r + 1 < |run.states|
    ensures var pc := PcOf(run.states[r + 1].m, t);
            && pc.Holding? && HeldBy(run.states[q + 1].m, Handle(h)) == Some(pc.obj)
            && OnlyAt(run.states[q].m, run.states[q + 1].m, {Handle(h)})
            && PcOf(run.states[q + 1].m, t) == Leaving(pc.shard)
  {
    RunLength(n, run);
    StepOf(n, run, q);
    hide IsRun;
    PcWhilePausing(n, run, r, q, t);
  }

  /** A whole load: it returns a handle on what the cell held at its read. */
  lemma LoadReturns(n: nat, run: Run, e: nat, r: nat, q: nat, t: ThreadId, i: nat, i2: nat, c: nat, h: nat)
    requires IsRun(n, run) && Reads(run, e, r, t, i, FromCell(c)) && CountsIn(run, r, q, t, i2, h)
    ensures HeldBy(run.states[r].m, Cell(c)).Some? && HeldBy(run.states[q + 1].m, Handle(h)) == HeldBy(run.states[r].m, Cell(c))
  {
    RunLength(n, run);
    hide IsRun, OnlyAt;
    LoadFinds(n, run, e, r, t, i, c);
    CountsInHeld(n, run, r, q, t, i2, h);
  }

  /** A reader that found nothing can only leave: its load or upgrade returns none. */
  lemma FoundNothingLeaves(n: nat, run: Run, r: nat, q: nat, t: ThreadId)
    requires IsRun(n, run) && r < q < |run.acts| && Pauses(run, r, q, t) && IsStepOf(run.acts[q], t)
    requires r + 1 < |run.states| && PcOf(run.states[r + 1].m, t).Leaving?
    ensures run.acts[q] == Mut(Leave(t))
  {
    RunLength(n, run);
    StepOf(n, run, q);
    hide IsRun;
    PcWhilePausing(n, run, r, q, t);
  }

  lemma PinnedStep(s: State, a: Action, t: ThreadId, h: nat)
    requires Enabled(s, a) && PcOf(s.m, t).Reading? && PcOf(s.m, t).src == FromWeak(h) && HandleOf(s.m, h)
    ensures HeldBy(Next(s, a).m, Handle(h)) == HeldBy(s.m, Handle(h))
  {
    assert Pinned(s.m, h);
    match a
    case Mut(x) =>
      EffectOf(s.n, s.m, x);
      PinnedNotGiven(s.n, s.m, x, h);
      hide Mutate, CanMutate;
    case Col(x) => CollectKeepsHandle(s, x, h);
  }

  /** A pinned handle is neither dropped nor given away, and no other is put in its place. */
  lemma PinnedNotGiven(n: nat, m: Shared, a: Mutation, h: nat)
    requires CanMutate(n, m, a) && Pinned(m, h) && Handle(h) in m.owners
    ensures match a
            case Drop(_, g, _) => g != h
            case Swap(_, arg, g) => arg != Some(h) && g != h
            case New(_, g, _, _, _) => g != h
            case Clone(_, g, _) => g != h
            case CloneWeak(_, g, _) => g != h
            case Acquire(_, _, g) => g != h
            case CompareAndSet(_, _, _, _, g) => g != h
            case _ => true
  {
    hide Pinned, CellAddress, AddressOf, MemoryFree;
  }

  lemma CollectKeepsHandle(s: State, x: CollectorStep, h: nat)
    requires CanCollect(s, x) && Handle(h) in s.m.owners
    ensures HeldBy(Collect(s, x).m, Handle(h)) == HeldBy(s.m, Handle(h))
  {
    hide Look, ReaderSet, OwnedSet, Shards, BackLive, CanUpdate;
  }

  /** While a thread upgrades through handle h nobody takes the handle away. */
  lemma {:induction false} PinnedStays(n: nat, run: Run, e: nat, k: nat, t: ThreadId, i: nat, h: nat)
    requires n >= 1 && IsRun(n, run) && e < k < |run.states| && e < |run.acts| && run.acts[e] == Mut(Enter(t, i, FromWeak(h)))
    requires Pauses(run, e, k, t)
    ensures HeldBy(run.states[k].m, Handle(h)) == HeldBy(run.states[e].m, Handle(h)) && HandleOf(run.states[k].m, h)
    decreases k
  {
    StepOf(n, run, e);
    StepOf(n, run, k - 1);
    RunInv(n, run, k);
    if e + 1 < k {
      hide IsRun, Inv, Next, Enabled, HeldBy;
      PinnedStays(n, run, e, k - 1, t, i, h);
      PcWhilePausing(n, run, e, k - 1, t);
      EnteredPc(run.states[e], t, i, FromWeak(h));
      PinnedStep(run.states[k - 1], run.acts[k - 1], t, h);
      HandleLive(run.states[k - 1], run.states[k], h);
    } else {
      hide IsRun, Inv;
      EnteredPc(run.states[e], t, i, FromWeak(h));
    }
  }

  lemma EnteredPc(s: State, t: ThreadId, i: nat, src: Source)
    requires Enabled(s, Mut(Enter(t, i, src)))
    ensures PcOf(Next(s, Mut(Enter(t, i, src))).m, t) == Reading(i, src)
    ensures Next(s, Mut(Enter(t, i, src))).m.owners == s.m.owners && Next(s, Mut(Enter(t, i, src))).m.objs == s.m.objs
    ensures src.FromWeak? ==> HandleOf(s.m, src.handle)
  {
  }

  lemma HandleLive(s: State, s2: State, h: nat)
    requires Inv(s2) && HandleOf(s.m, h) && HeldBy(s2.m, Handle(h)) == HeldBy(s.m, Handle(h))
    ensures HandleOf(s2.m, h)
  {
    hide Traces, Readers, Verdicts, Clears, Tracking, Grace, RecheckOk, Bookkeeping, Balanced, SectionsCounted, MemoryDistinct,
         WeakLinked;
  }

  /** An upgrade through a handle on weak part w finds o if and only if w's
      back-reference is o at its read; else it finds nothing. */
  lemma UpgradeFinds(n: nat, run: Run, e: nat, r: nat, t: ThreadId, i: nat, h: nat, w: ObjId)
    requires n >= 1 && IsRun(n, run) && Reads(run, e, r, t, i, FromWeak(h))
    requires e < |run.states| && HeldBy(run.states[e].m, Handle(h)) == Some(w)
    ensures w in run.states[r].m.objs
    ensures var found := run.states[r].m.objs[w].backRef;
            PcOf(run.states[r + 1].m, t) == if found.Some? then Holding(i, found.value, true) else Leaving(i)
  {
    RunLength(n, run);
    EnterPc(n, run, e, r, t, i, FromWeak(h));
    PinnedStays(n, run, e, r, t, i, h);
    StepOf(n, run, r);
  }

  /** A whole upgrade of an object owned at every moment so far ends with a new handle
      on it, unless a re-check cut it off under a debt. */
  lemma UpgradeReturns(n: nat, run: Run, e: nat, r: nat, q: nat, t: ThreadId, i: nat, i2: nat, h: nat, h2: nat, o: ObjId, w: ObjId)
    requires n >= 1 && IsRun(n, run) && Reads(run, e, r, t, i, FromWeak(h)) && CountsIn(run, r, q, t, i2, h2)
    requires e < r < |run.states| && HeldBy(run.states[e].m, Handle(h)) == Some(w)
    requires o in run.states[r].m.objs && run.states[r].m.objs[o].weak == Some(w)
    requires forall j :: 0 <= j <= r && o in run.states[j].m.objs ==> Owned(run.states[j].m, o)
    requires forall a: nat, d: nat :: d < r && CutOff(n, run, a, d, o) ==> !Owing(run, a, o)
    ensures HeldBy(run.states[q + 1].m, Handle(h2)) == Some(o)
  {
    RunLength(n, run);
    hide IsRun, OnlyAt, CutOff, HeldBy;
    UpgradeSucceedsWhileOwned(n, run, r, o, w);
    UpgradeFinds(n, run, e, r, t, i, h, w);
    CountsInHeld(n, run, r, q, t, i2, h2);
  }

  /** Such an upgrade has no other way to go on than to count itself in. */
  lemma UpgradeGoesOn(n: nat, run: Run, e: nat, r: nat, q: nat, t: ThreadId, i: nat, h: nat, o: ObjId, w: ObjId)
    requires n >= 1 && IsRun(n, run) && Reads(run, e, r, t, i, FromWeak(h)) && r < q < |run.acts| && Pauses(run, r, q, t)
    requires IsStepOf(run.acts[q], t) && e < r < |run.states| && HeldBy(run.states[e].m, Handle(h)) == Some(w)
    requires BackLive(run.states[r].m, o) && run.states[r].m.objs[o].weak == Some(w)
    ensures run.acts[q].mutation.Acquire?
  {
    RunLength(n, run);
    UpgradeFinds(n, run, e, r, t, i, h, w);
    StepOf(n, run, q);
    hide IsRun;
    PcWhilePausing(n, run, r, q, t);
  }

  // ----- nobody waits

  /** The step a thread inside an operation takes next, for any shard and fresh handle. */
  function NextOf(m: Shared, t: ThreadId, i: nat, h: nat): Mutation {
    match PcOf(m, t)
    case Idle => Enter(t, i, FromCell(0))
    case Reading(_, _) => ReadPointer(t)
    case Holding(_, _, _) => Acquire(t, i, h)
    case Leaving(_) => Leave(t)
    case CasDebt(_, _) => PayDebt(t, i)
    case Trailing(_) => TrailingRead(t)
  }

  lemma SectionNotEmpty(n: nat, m: Shared, t: ThreadId)
    requires WellFormed(n, m) && SectionsCounted(m) && InSection(PcOf(m, t))
    ensures PcOf(m, t).shard < |m.section| && m.section[PcOf(m, t).shard] > 0
  {
    var i := PcOf(m, t).shard;
    assert PcOk(n, m, m.pcs[t]);
    assert t in ReadersAt(m, i);
  }

  lemma LedgerParts(s: State)
    requires Inv(s)
    ensures WellFormed(s.n, s.m) && SectionsCounted(s.m)
  {
    hide Traces, Readers, Verdicts, Clears, Tracking, Grace, RecheckOk, Bookkeeping, Balanced, WellFormed, SectionsCounted,
         MemoryDistinct, WeakLinked;
  }

  /** No thread inside a load, upgrade, drop or compare-and-set ever waits for another:
      its next step is enabled, on whatever shard it may be. */
  lemma ThreadsNeverWait(n: nat, run: Run, k: nat, t: ThreadId, i: nat, h: nat)
    requires n >= 1 && IsRun(n, run) && k < |run.states| && i < n && Handle(h) !in run.states[k].m.owners
    ensures CanMutate(n, run.states[k].m, NextOf(run.states[k].m, t, i, h))
  {
    hide IsRun, Inv, WellFormed, SectionsCounted, CanMutate;
    RunInv(n, run, k);
    var m := run.states[k].m;
    LedgerParts(run.states[k]);
    if InSection(PcOf(m, t)) {
      SectionNotEmpty(n, m, t);
    }
    NextOfEnabled(n, m, t, i, h);
  }

  lemma NextOfEnabled(n: nat, m: Shared, t: ThreadId, i: nat, h: nat)
    requires WellFormed(n, m) && i < n && Handle(h) !in m.owners
    requires InSection(PcOf(m, t)) ==> PcOf(m, t).shard < |m.section| && m.section[PcOf(m, t).shard] > 0
    ensures CanMutate(n, m, NextOf(m, t, i, h))
  {
    hide CellAddress, AddressOf, Pinned, MemoryFree;
    if t in m.pcs {
      assert PcOk(n, m, m.pcs[t]);
    }
  }

  /** What can be done with a handle in this state, on shard i. */
  ghost predicate Usable(n: nat, m: Shared, h: nat, h2: nat, i: nat, t: ThreadId, c: nat)
    requires HandleOf(m, h)
  {
    var o := m.objs[Target(m, h)];
    && CanMutate(n, m, Clone(h, h2, i)) && CanMutate(n, m, Enter(t, i, FromWeak(h))) && CanMutate(n, m, Swap(c, None, h2))
    && (!Pinned(m, h) ==> CanMutate(n, m, Drop(t, h, i)) && (o.weakOf.None? ==> CanMutate(n, m, Swap(c, Some(h), h2))))
    && (o.weak.Some? ==> CanMutate(n, m, CloneWeak(h, h2, i)))
    && (o.weak.None? && o.weakOf.None? ==>
          forall w, addr, slot :: w !in m.objs && MemoryFree(m, addr, slot) ==> CanMutate(n, m, InitWeak(h, w, addr, slot, i)))
  }

  lemma UsableWithCounters(n: nat, m: Shared, h: nat, h2: nat, i: nat, t: ThreadId, c: nat)
    requires HandleOf(m, h) && i < n && Handle(h2) !in m.owners && PcOf(m, t).Idle?
    requires |m.section| == n && HasCounter(m, Target(m, h), i)
    requires m.objs[Target(m, h)].weak.Some? ==> HasCounter(m, m.objs[Target(m, h)].weak.value, i)
    ensures Usable(n, m, h, h2, i, t, c)
  {
    hide Pinned, MemoryFree, CellAddress, AddressOf;
  }

  /** A handle can be cloned, dropped, swapped into a cell, downgraded and, on a weak
      part, upgraded through, at any moment and on any shard; only a handle that an
      operation of another thread borrows must stay where it is. */
  lemma HandlesAlwaysUsable(n: nat, run: Run, k: nat, h: nat, h2: nat, i: nat, t: ThreadId, c: nat)
    requires n >= 1 && IsRun(n, run) && k < |run.states| && i < n
    requires HandleOf(run.states[k].m, h) && Handle(h2) !in run.states[k].m.owners && PcOf(run.states[k].m, t).Idle?
    ensures Usable(n, run.states[k].m, h, h2, i, t, c)
  {
    hide IsRun, Inv, Usable;
    RunInv(n, run, k);
    CountersThere(run.states[k], h);
    UsableWithCounters(n, run.states[k].m, h, h2, i, t, c);
  }

  lemma CountersThere(s: State, h: nat)
    requires Inv(s) && HandleOf(s.m, h)
    ensures |s.m.section| == s.n && |s.m.objs[Target(s.m, h)].counters| == s.n
    ensures var weak := s.m.objs[Target(s.m, h)].weak;
            weak.Some? ==> weak.value in s.m.objs && |s.m.objs[weak.value].counters| == s.n
  {
    hide Traces, Readers, Verdicts, Clears, Tracking, Grace, RecheckOk, Bookkeeping, Balanced, SectionsCounted, MemoryDistinct;
  }

  // ----- the collector waits for readers only

  lemma {:induction false} FreshHandle(keys: set<OwnerId>) returns (h: nat)
    ensures forall g :: g >= h ==> Handle(g) !in keys
  {
    if keys == {} {
      h := 0;
    } else {
      var k :| k in keys;
      var rest := FreshHandle(keys - {k});
      h := if k.Handle? && k.id >= rest then k.id + 1 else rest;
      forall g | g >= h ensures Handle(g) !in keys {
        assert Handle(g) !in keys - {k};
      }
    }
  }

  ghost predicate Waits(s: State) {
    s.c.pc.Spinning? && s.c.pc.unseen != {} && forall i :: i in s.c.pc.unseen && i < |s.m.section| ==> s.m.section[i] > 0
  }

  ghost predicate CanWork(s: State, x: CollectorStep) {
    CanCollect(s, x) && OutcomeIsSum(s, Col(x))
  }

  lemma WorkUpdating(s: State) returns (x: CollectorStep)
    requires Inv(s) && s.c.pc.Updating?
    ensures CanWork(s, x)
  {
    hide Traces, Readers, Verdicts, Clears, Grace, RecheckOk, Balanced, SectionsCounted, MemoryDistinct, WeakLinked;
    if s.c.todo == {} {
      x := StartFree;
    } else {
      var o :| o in s.c.todo;
      x := if s.c.tracked[o] == DefaultState then StartClear(o) else StartRecheck(o);
    }
  }

  lemma WorkReading(s: State) returns (x: CollectorStep)
    requires Inv(s) && (s.c.pc.Clearing? || s.c.pc.Rechecking?)
    ensures CanWork(s, x)
  {
    hide Traces, Readers, Verdicts, Clears, Grace, RecheckOk, Balanced, SectionsCounted, MemoryDistinct, WeakLinked, Sum;
    var o := s.c.pc.obj;
    assert o in s.c.tracked.Keys && o in s.m.objs && |s.m.objs[o].counters| == s.n;
    if s.c.pc.Clearing? {
      x := if s.c.pc.k < s.n then ClearTag else EndClear(Sum(s.c.pc.found) == 0);
    } else {
      x := if s.c.pc.k < s.n then ReadShard else Decide;
    }
  }

  lemma WorkFreeing(s: State) returns (x: CollectorStep)
    requires Inv(s) && s.c.pc.Freeing?
    ensures CanWork(s, x)
  {
    hide Traces, Readers, Verdicts, Clears, Grace, RecheckOk, Ledger;
    if s.c.toFree == {} {
      x := EndPass;
    } else {
      var o :| o in s.c.toFree;
      var h := FreshHandle(s.m.owners.Keys);
      assert o in s.c.tracked.Keys;
      x := FreeOne(o, h);
    }
  }

  lemma WorkSpinning(s: State) returns (x: CollectorStep)
    requires Inv(s) && s.c.pc.Spinning? && !Waits(s)
    ensures CanWork(s, x)
  {
    hide Traces, Readers, Verdicts, Clears, Grace, RecheckOk, Balanced, SectionsCounted, MemoryDistinct, WeakLinked, Tracking;
    if s.c.pc.unseen == {} {
      x := EndSpin;
    } else {
      var i :| i in s.c.pc.unseen && i < |s.m.section| && s.m.section[i] == 0;
      x := ObserveEmpty(i);
    }
  }

  /** In every run that computes its clear's sums the collector can always go on, save
      where it spins on shards that all have a reader inside. */
  lemma CollectorWaitsOnlyForReaders(n: nat, run: Run, k: nat) returns (x: CollectorStep)
    requires n >= 1 && IsRun(n, run) && k < |run.states| && FollowsStageOne(run) && !Waits(run.states[k])
    ensures CanWork(run.states[k], x)
  {
    RunInv(n, run, k);
    SumAssertionHolds(n, run, k);
    var s := run.states[k];
    hide IsRun, Inv, FollowsStageOne, Waits, CanWork;
    match s.c.pc
    case Between => x := StartPass({}); StartsAnyTime(s);
    case Spinning(_) => x := WorkSpinning(s);
    case Updating => x := WorkUpdating(s);
    case Clearing(_, _, _) => x := WorkReading(s);
    case Rechecking(_, _, _, _) => x := WorkReading(s);
    case Freeing => x := WorkFreeing(s);
  }

  lemma StartsAnyTime(s: State)
    requires s.c.pc.Between?
    ensures CanWork(s, StartPass({}))
  {
  }

  // ----- what a decision decides

  /** A decision sends an object back to the default state exactly if the sum was not
      zero, keeps it under watch exactly if it nulled its back-reference now, and makes
      it ready to free exactly if there was none left to null. */
  lemma DecisionOutcome(n: nat, run: Run, d: nat)
    requires n >= 1 && IsRun(n, run) && FollowsStageOne(run) && d < |run.acts| && run.acts[d] == Col(Decide)
    ensures d + 1 < |run.states| && run.states[d].c.pc.Rechecking?
    ensures var s, s2, o := run.states[d], run.states[d + 1], run.states[d].c.pc.obj;
            && o in s2.c.tracked && o in s.m.objs
            && (s2.c.tracked[o] == DefaultState <==> s.c.pc.acc != 0)
            && (s2.c.tracked[o] == RequiresReChecking <==> BackLive(s.m, o) && !BackLive(s2.m, o))
            && (s2.c.tracked[o] == ReadyToFree <==> s.c.pc.acc == 0 && !BackLive(s.m, o))
  {
    RunLength(n, run);
    hide IsRun, FollowsStageOne, Inv;
    RunInv(n, run, d);
    StepOf(n, run, d);
    SumAssertionHolds(n, run, d);
    hide Look;
    RecheckedIsWatched(run.states[d]);
  }
}
