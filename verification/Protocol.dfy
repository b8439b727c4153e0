/**
 The two-stage collection protocol as interleaved steps.

 Any number of threads change per-shard counters, owners and pointers; one
 collector observes them one shard at a time. A step is one access to shared
 memory, under sequentially consistent interleaving. The collector state also
 carries history (which readers were inside when the spin began, which objects
 were owned since, what a re-check saw at its first read); no step depends on it.
 */
module Protocol {
  import opened Counting
  import opened ShardCounters

  type ObjId = nat
  type ThreadId = nat

  /** Everything that holds one reference: a strong handle, an atomic pointer
      cell, or the weak part kept inside an object. */
  datatype OwnerId = Handle(id: nat) | Cell(cell: nat) | WeakField(of: ObjId)

  /** What a reader reads its pointer from. */
  datatype Source = FromCell(cell: nat) | FromWeak(handle: nat)

  /** Where a thread is inside an operation of several steps. */
  datatype Pc =
    | Idle
    | Reading(shard: nat, src: Source)                   // entered the section, pointer not read
    | Holding(shard: nat, obj: ObjId, viaWeak: bool)     // pointer read, count not incremented
    | Leaving(shard: nat)                                // done, still in the section
    | CasDebt(obj: ObjId, borrowed: nat)                 // pointer exchanged, count not incremented
    | Trailing(obj: ObjId)                               // count decremented, object read once more

  datatype Object = Object(
    counters: seq<Counter>,
    weak: Option<ObjId>,        // the weak part, once downgraded
    weakOf: Option<ObjId>,      // the object this one is the weak part of
    backRef: Option<ObjId>,     // the weak part's pointer back, until cleared
    addr: nat,                  // address of the object
    slot: nat,                  // address of its counters
    freed: bool)

  datatype Shared = Shared(
    objs: map<ObjId, Object>,
    owners: map<OwnerId, ObjId>,
    pcs: map<ThreadId, Pc>,
    section: seq<nat>)          // reader critical section counters, one per shard

  // ----- what a state says about an object

  predicate InSection(pc: Pc) {
    pc.Reading? || pc.Holding? || pc.Leaving?
  }

  predicate ReadsAt(pc: Pc, i: nat) {
    InSection(pc) && pc.shard == i
  }

  predicate IsDebt(pc: Pc, o: ObjId) {
    pc.CasDebt? && pc.obj == o
  }

  function PcOf(m: Shared, t: ThreadId): Pc {
    if t in m.pcs then m.pcs[t] else Idle
  }

  predicate Owned(m: Shared, o: ObjId) {
    exists k :: k in m.owners && m.owners[k] == o
  }

  function Holders(m: Shared, o: ObjId): set<OwnerId> {
    Preimage(m.owners, o)
  }

  /** Threads that exchanged a pointer to o into a cell and have not counted it yet. */
  function Debtors(m: Shared, o: ObjId): set<ThreadId> {
    set t | t in m.pcs && IsDebt(m.pcs[t], o)
  }

  function ReadersAt(m: Shared, shard: nat): set<ThreadId> {
    set t | t in m.pcs && ReadsAt(m.pcs[t], shard)
  }

  predicate HeldByReader(m: Shared, o: ObjId) {
    exists t :: t in m.pcs && m.pcs[t].Holding? && m.pcs[t].obj == o
  }

  /** o can still be reached from its weak part. */
  predicate BackLive(m: Shared, o: ObjId) {
    o in m.objs && m.objs[o].weak.Some? && m.objs[o].weak.value in m.objs &&
    m.objs[m.objs[o].weak.value].backRef == Some(o)
  }

  /** Nobody owns o, nobody is about to own it, and no weak reference leads to it. */
  predicate Abandoned(m: Shared, o: ObjId) {
    o in m.objs && !Owned(m, o) && !HeldByReader(m, o) && !BackLive(m, o)
  }

  /** Abandoned for good: a weak part could also be found through its object. */
  predicate Unreachable(m: Shared, o: ObjId) {
    Abandoned(m, o) && (m.objs[o].weakOf.Some? ==> Abandoned(m, m.objs[o].weakOf.value))
  }

  predicate Pinned(m: Shared, h: nat) {
    exists t :: t in m.pcs &&
      ((m.pcs[t].CasDebt? && m.pcs[t].borrowed == h) ||
       (m.pcs[t].Reading? && m.pcs[t].src == FromWeak(h)))
  }

  // ----- building blocks of mutator steps

  predicate HasCounter(m: Shared, o: ObjId, i: nat) {
    o in m.objs && i < |m.objs[o].counters|
  }

  function SetCounter(m: Shared, o: ObjId, i: nat, c: Counter): Shared
    requires HasCounter(m, o, i)
  {
    m.(objs := m.objs[o := m.objs[o].(counters := m.objs[o].counters[i := c])])
  }

  function Increment(m: Shared, o: ObjId, i: nat): Shared
    requires HasCounter(m, o, i)
  {
    SetCounter(m, o, i, m.objs[o].counters[i].Incremented())
  }

  function Decrement(m: Shared, o: ObjId, i: nat): Shared
    requires HasCounter(m, o, i)
  {
    SetCounter(m, o, i, m.objs[o].counters[i].DecrementedAndTagged())
  }

  function SetPc(m: Shared, t: ThreadId, pc: Pc): Shared {
    m.(pcs := m.pcs[t := pc])
  }

  function AddOwner(m: Shared, k: OwnerId, o: ObjId): Shared {
    m.(owners := m.owners[k := o])
  }

  function DropOwner(m: Shared, k: OwnerId): Shared {
    m.(owners := m.owners - {k})
  }

  /** The atomic exchange of cell c: its old content becomes the handle h,
      the new content (if any) becomes the cell's own reference. */
  function Exchange(m: Shared, c: nat, content: Option<ObjId>, h: nat): Shared {
    var taken := if Cell(c) in m.owners
                 then AddOwner(DropOwner(m, Cell(c)), Handle(h), m.owners[Cell(c)])
                 else m;
    if content.Some? then AddOwner(taken, Cell(c), content.value) else taken
  }

  /** A new object holds one reference, counted in shard i; a weak part points back at its object. */
  function NewObject(n: nat, i: nat, weakOf: Option<ObjId>, addr: nat, slot: nat): Object
    requires i < n
  {
    Object(Zeroes(n)[i := ZERO.Incremented()], None, weakOf, weakOf, addr, slot, false)
  }

  /** Memory handed out by an allocator is not in use by an unfreed object. */
  predicate MemoryFree(m: Shared, addr: nat, slot: nat) {
    forall o :: o in m.objs && !m.objs[o].freed ==> m.objs[o].addr != addr && m.objs[o].slot != slot
  }

  predicate HandleOf(m: Shared, h: nat) {
    Handle(h) in m.owners && m.owners[Handle(h)] in m.objs
  }

  function Target(m: Shared, h: nat): ObjId
    requires HandleOf(m, h)
  {
    m.owners[Handle(h)]
  }

  /** A pointer cell holds ordinary objects: the source has no cell type for weak parts. */
  predicate FitsCell(m: Shared, h: nat) {
    HandleOf(m, h) && m.objs[Target(m, h)].weakOf.None?
  }

  // ----- mutator steps

  datatype Mutation =
    | New(o: ObjId, h: nat, addr: nat, slot: nat, i: nat)
    | Clone(h: nat, h2: nat, i: nat)
    | Drop(t: ThreadId, h: nat, i: nat)
    | TrailingRead(t: ThreadId)
    | Enter(t: ThreadId, i: nat, src: Source)
    | ReadPointer(t: ThreadId)
    | Acquire(t: ThreadId, i: nat, h: nat)
    | Leave(t: ThreadId)
    | Swap(c: nat, arg: Option<nat>, h: nat)
    | CompareAndSet(t: ThreadId, c: nat, expected: Option<nat>, replacement: Option<nat>, h: nat)
    | PayDebt(t: ThreadId, i: nat)
    | InitWeak(h: nat, w: ObjId, addr: nat, slot: nat, i: nat)
    | CloneWeak(h: nat, h2: nat, i: nat)

  /** The raw pointer behind an optional handle; None is null. */
  function AddressOf(m: Shared, h: Option<nat>): Option<nat>
    requires h.Some? ==> HandleOf(m, h.value)
  {
    if h.Some? then Some(m.objs[Target(m, h.value)].addr) else None
  }

  function CellAddress(m: Shared, c: nat): Option<nat>
    requires Cell(c) in m.owners ==> m.owners[Cell(c)] in m.objs
  {
    if Cell(c) in m.owners then Some(m.objs[m.owners[Cell(c)]].addr) else None
  }

  predicate CanMutate(n: nat, m: Shared, a: Mutation) {
    match a
    case New(o, h, addr, slot, i) =>
      o !in m.objs && Handle(h) !in m.owners && i < n && MemoryFree(m, addr, slot)
    case Clone(h, h2, i) =>
      HandleOf(m, h) && Handle(h2) !in m.owners && HasCounter(m, Target(m, h), i)
    case Drop(t, h, i) =>
      HandleOf(m, h) && !Pinned(m, h) && HasCounter(m, Target(m, h), i) && PcOf(m, t).Idle?
    case TrailingRead(t) =>
      PcOf(m, t).Trailing?
    case Enter(t, i, src) =>
      PcOf(m, t).Idle? && i < |m.section| && (src.FromWeak? ==> HandleOf(m, src.handle))
    case ReadPointer(t) =>
      PcOf(m, t).Reading? && (PcOf(m, t).src.FromWeak? ==> HandleOf(m, PcOf(m, t).src.handle))
    case Acquire(t, i, h) =>
      PcOf(m, t).Holding? && HasCounter(m, PcOf(m, t).obj, i) && Handle(h) !in m.owners
    case Leave(t) =>
      PcOf(m, t).Leaving? && PcOf(m, t).shard < |m.section| && m.section[PcOf(m, t).shard] > 0
    case Swap(c, arg, h) =>
      Handle(h) !in m.owners && (arg.Some? ==> FitsCell(m, arg.value) && !Pinned(m, arg.value))
    case CompareAndSet(t, c, expected, replacement, h) =>
      && PcOf(m, t).Idle? && Handle(h) !in m.owners
      && (expected.Some? ==> HandleOf(m, expected.value))
      && (replacement.Some? ==> FitsCell(m, replacement.value))
      && (Cell(c) in m.owners ==> m.owners[Cell(c)] in m.objs)
      && CellAddress(m, c) == AddressOf(m, expected)
    case PayDebt(t, i) =>
      PcOf(m, t).CasDebt? && HasCounter(m, PcOf(m, t).obj, i)
    case InitWeak(h, w, addr, slot, i) =>
      && HandleOf(m, h) && m.objs[Target(m, h)].weak.None? && m.objs[Target(m, h)].weakOf.None?
      && w !in m.objs && i < n && MemoryFree(m, addr, slot)
    case CloneWeak(h, h2, i) =>
      && HandleOf(m, h) && Handle(h2) !in m.owners
      && m.objs[Target(m, h)].weak.Some? && HasCounter(m, m.objs[Target(m, h)].weak.value, i)
  }

  /** The pointer a reader finds: the cell's content, or the weak part's back-reference. */
  function PointerRead(m: Shared, src: Source): Option<ObjId>
    requires src.FromWeak? ==> HandleOf(m, src.handle)
  {
    match src
    case FromCell(c) => if Cell(c) in m.owners then Some(m.owners[Cell(c)]) else None
    case FromWeak(h) => m.objs[Target(m, h)].backRef
  }

  function Mutate(n: nat, m: Shared, a: Mutation): Shared
    requires CanMutate(n, m, a)
  {
    match a
    case New(o, h, addr, slot, i) =>
      AddOwner(m.(objs := m.objs[o := NewObject(n, i, None, addr, slot)]), Handle(h), o)
    case Clone(h, h2, i) =>
      AddOwner(Increment(m, Target(m, h), i), Handle(h2), Target(m, h))
    case Drop(t, h, i) =>
      SetPc(DropOwner(Decrement(m, Target(m, h), i), Handle(h)), t, Trailing(Target(m, h)))
    case TrailingRead(t) =>
      SetPc(m, t, Idle)
    case Enter(t, i, src) =>
      SetPc(m.(section := m.section[i := m.section[i] + 1]), t, Reading(i, src))
    case ReadPointer(t) =>
      var pc := PcOf(m, t);
      var found := PointerRead(m, pc.src);
      SetPc(m, t, if found.Some? then Holding(pc.shard, found.value, pc.src.FromWeak?) else Leaving(pc.shard))
    case Acquire(t, i, h) =>
      var pc := PcOf(m, t);
      SetPc(AddOwner(Increment(m, pc.obj, i), Handle(h), pc.obj), t, Leaving(pc.shard))
    case Leave(t) =>
      var i := PcOf(m, t).shard;
      SetPc(m.(section := m.section[i := m.section[i] - 1]), t, Idle)
    case Swap(c, arg, h) =>
      if arg.Some? then Exchange(DropOwner(m, Handle(arg.value)), c, Some(Target(m, arg.value)), h)
      else Exchange(m, c, None, h)
    case CompareAndSet(t, c, expected, replacement, h) =>
      if replacement.Some?
      then SetPc(Exchange(m, c, Some(Target(m, replacement.value)), h), t,
                 CasDebt(Target(m, replacement.value), replacement.value))
      else Exchange(m, c, None, h)
    case PayDebt(t, i) =>
      SetPc(Increment(m, PcOf(m, t).obj, i), t, Idle)
    case InitWeak(h, w, addr, slot, i) =>
      var o := Target(m, h);
      AddOwner(m.(objs := m.objs[w := NewObject(n, i, Some(o), addr, slot)][o := m.objs[o].(weak := Some(w))]),
               WeakField(o), w)
    case CloneWeak(h, h2, i) =>
      var w := m.objs[Target(m, h)].weak.value;
      AddOwner(Increment(m, w, i), Handle(h2), w)
  }

  // ----- the collector

  datatype Phase = DefaultState | RequiresReChecking | ReadyToFree

  /** What held at the instant before a re-check's first read. */
  datatype FirstRead = FirstRead(base: seq<Counter>, owners: nat, debt: nat, unreachable: bool)

  datatype CollectorPc =
    | Between
    | Spinning(unseen: set<nat>)                                       // shards not yet seen empty
    | Updating
    | Clearing(obj: ObjId, k: nat, found: seq<int>)                     // counts found in the cleared shards
    | Rechecking(obj: ObjId, k: nat, acc: int, first: FirstRead)
    | Freeing
    | Panicked

  datatype Collector = Collector(
    tracked: map<ObjId, Phase>,
    pending: set<ObjId>,
    todo: set<ObjId>,              // counters this pass has not updated yet
    toFree: set<ObjId>,            // counters this pass found ready to free
    pc: CollectorPc,
    // history
    oldReaders: set<ThreadId>,     // inside their section since before the latest spin began
    ownedSince: set<ObjId>,        // owned at some moment since the latest spin began
    verdicts: map<ObjId, FirstRead>,   // the re-check that made an object ready to free
    clears: map<ObjId, FirstRead>,     // the re-check that cleared an object's back-reference
    floors: map<ObjId, seq<int>>)      // the counts the latest tag clear of an object found

  /** All shard indexes below n. */
  function Shards(n: nat): (r: set<nat>)
    ensures forall i :: i in r <==> 0 <= i < n
  {
    if n == 0 then {} else Shards(n - 1) + {n - 1}
  }

  datatype State = State(n: nat, m: Shared, c: Collector)

  function OwnedSet(m: Shared): set<ObjId> {
    set k | k in m.owners :: m.owners[k]
  }

  function ReaderSet(m: Shared): set<ThreadId> {
    set t | t in m.pcs && InSection(m.pcs[t])
  }

  function Look(m: Shared, o: ObjId): FirstRead
    requires o in m.objs
  {
    FirstRead(m.objs[o].counters, |Holders(m, o)|, |Debtors(m, o)|, Unreachable(m, o))
  }

  /** Every value the two stage-one sums might return is covered: `Skip` is a
      non-zero pre-check, and `EndClear` takes either outcome, whatever the clear
      found. So what is proved of all runs does not depend on stage one. */
  datatype CollectorStep =
    | TakePending(taken: set<ObjId>)     // one shard's list at a time, or any part of it
    | StartPass(todo: set<ObjId>)
    | ObserveEmpty(i: nat)
    | EndSpin
    | Skip(o: ObjId)
    | StartClear(o: ObjId)
    | ClearTag
    | EndClear(sawZero: bool)
    | StartRecheck(o: ObjId)
    | ReadShard
    | Decide
    | StartFree
    | FreeOne(o: ObjId, h: nat)
    | EndPass

  predicate CanUpdate(s: State, o: ObjId, phase: Phase) {
    s.c.pc.Updating? && o in s.c.todo && o in s.c.tracked && s.c.tracked[o] == phase && o in s.m.objs
  }

  predicate CanCollect(s: State, a: CollectorStep) {
    var c := s.c;
    match a
    case TakePending(taken) => c.pc.Between? && taken <= c.pending
    case StartPass(todo) => c.pc.Between? && todo <= c.tracked.Keys
    case ObserveEmpty(i) => c.pc.Spinning? && i in c.pc.unseen && i < |s.m.section| && s.m.section[i] == 0
    case EndSpin => c.pc.Spinning? && c.pc.unseen == {}
    case Skip(o) => CanUpdate(s, o, DefaultState)
    case StartClear(o) => CanUpdate(s, o, DefaultState)
    case ClearTag => c.pc.Clearing? && HasCounter(s.m, c.pc.obj, c.pc.k)
    case EndClear(sawZero) => c.pc.Clearing? && c.pc.k == s.n
    case StartRecheck(o) => CanUpdate(s, o, RequiresReChecking)
    case ReadShard => c.pc.Rechecking? && HasCounter(s.m, c.pc.obj, c.pc.k)
    case Decide => c.pc.Rechecking? && c.pc.k == s.n && c.pc.obj in s.m.objs
    case StartFree => c.pc.Updating? && c.todo == {}
    case FreeOne(o, h) => c.pc.Freeing? && o in c.toFree && o in s.m.objs && Handle(h) !in s.m.owners
    case EndPass => c.pc.Freeing? && c.toFree == {}
  }

  /** Nulling the back-reference of o's weak part. */
  function ClearBackRef(m: Shared, o: ObjId): Shared
    requires BackLive(m, o)
  {
    var w := m.objs[o].weak.value;
    m.(objs := m.objs[w := m.objs[w].(backRef := None)])
  }

  /** Freeing o lets go of its weak part: the reference passes to the handle
      the collector thread then drops. */
  function Release(m: Shared, o: ObjId, h: nat): Shared
    requires o in m.objs
  {
    var m1 := m.(objs := m.objs[o := m.objs[o].(freed := true)]);
    if WeakField(o) in m.owners
    then AddOwner(DropOwner(m1, WeakField(o)), Handle(h), m.owners[WeakField(o)])
    else m1
  }

  /** The decision after all shards were read without a tag. */
  function Decision(s: State): State
    requires CanCollect(s, Decide)
  {
    var c, m := s.c, s.m;
    var o, first := c.pc.obj, c.pc.first;
    if c.pc.acc == 0 then
      if BackLive(m, o) then
        s.(m := ClearBackRef(m, o), c := c.(pc := Updating, clears := c.clears[o := first]))
      else
        s.(c := c.(pc := Updating, tracked := c.tracked[o := ReadyToFree], toFree := c.toFree + {o},
                   verdicts := c.verdicts[o := first]))
    else if c.pc.acc > 0 then
      s.(c := c.(pc := Updating, tracked := c.tracked[o := DefaultState]))
    else
      s.(c := c.(pc := Panicked))
  }

  function Collect(s: State, a: CollectorStep): State
    requires CanCollect(s, a)
  {
    var c, m := s.c, s.m;
    match a
    case TakePending(taken) =>
      s.(c := c.(tracked := c.tracked + (map o | o in taken :: DefaultState), pending := c.pending - taken))
    case StartPass(todo) =>
      s.(c := c.(pc := Spinning(Shards(s.n)), todo := todo,
                 oldReaders := ReaderSet(m), ownedSince := OwnedSet(m)))
    case ObserveEmpty(i) =>
      s.(c := c.(pc := Spinning(c.pc.unseen - {i})))
    case EndSpin =>
      s.(c := c.(pc := Updating))
    case Skip(o) =>
      s.(c := c.(todo := c.todo - {o}))
    case StartClear(o) =>
      s.(c := c.(pc := Clearing(o, 0, []), todo := c.todo - {o}))
    case ClearTag =>
      var counter := m.objs[c.pc.obj].counters[c.pc.k];
      s.(m := SetCounter(m, c.pc.obj, c.pc.k, counter.TagCleared()),
         c := c.(pc := Clearing(c.pc.obj, c.pc.k + 1, c.pc.found + [counter.count])))
    case EndClear(sawZero) =>
      s.(c := c.(pc := Updating,
                 tracked := c.tracked[c.pc.obj := if sawZero then RequiresReChecking else DefaultState],
                 floors := c.floors[c.pc.obj := c.pc.found]))
    case StartRecheck(o) =>
      s.(c := c.(pc := Rechecking(o, 0, 0, Look(m, o)), todo := c.todo - {o}))
    case ReadShard =>
      var counter := m.objs[c.pc.obj].counters[c.pc.k];
      if counter.tag
      then s.(c := c.(pc := Updating, tracked := c.tracked[c.pc.obj := DefaultState]))
      else s.(c := c.(pc := Rechecking(c.pc.obj, c.pc.k + 1, c.pc.acc + counter.count, c.pc.first)))
    case Decide =>
      Decision(s)
    case StartFree =>
      s.(c := c.(pc := Freeing))
    case FreeOne(o, h) =>
      s.(m := Release(m, o, h), c := c.(tracked := c.tracked - {o}, toFree := c.toFree - {o}))
    case EndPass =>
      s.(c := c.(pc := Between))
  }

  // ----- runs

  datatype Action = Mut(mutation: Mutation) | Col(step: CollectorStep)

  predicate Enabled(s: State, a: Action) {
    match a
    case Mut(x) => CanMutate(s.n, s.m, x)
    case Col(x) => CanCollect(s, x)
  }

  /** A mutator step, and what history keeps of it. New objects wait in the pending list. */
  function MutatorStep(s: State, x: Mutation): State
    requires CanMutate(s.n, s.m, x)
  {
    var m := Mutate(s.n, s.m, x);
    State(s.n, m, s.c.(
      pending := s.c.pending + (m.objs.Keys - s.m.objs.Keys),
      oldReaders := if x.Leave? then s.c.oldReaders - {x.t} else s.c.oldReaders,
      ownedSince := s.c.ownedSince + OwnedSet(m)))
  }

  function Next(s: State, a: Action): State
    requires Enabled(s, a)
  {
    match a
    case Mut(x) => MutatorStep(s, x)
    case Col(x) => Collect(s, x)
  }

  function Initial(n: nat): State {
    State(n, Shared(map[], map[], map[], seq(n, _ => 0)),
          Collector(map[], {}, {}, {}, Between, {}, {}, map[], map[], map[]))
  }

  /** A run: the actions taken, and the state before and after each of them. */
  datatype Run = Run(states: seq<State>, acts: seq<Action>)

  /** Action k of the run is enabled and leads from state k to state k + 1. */
  predicate StepAt(run: Run, k: nat) {
    k < |run.acts| && k + 1 < |run.states| &&
    Enabled(run.states[k], run.acts[k]) && run.states[k + 1] == Next(run.states[k], run.acts[k])
  }

  ghost predicate IsRun(n: nat, run: Run) {
    && |run.states| == |run.acts| + 1 && run.states[0] == Initial(n)
    && forall k {:trigger StepAt(run, k)} :: 0 <= k < |run.acts| ==> StepAt(run, k)
  }
}
