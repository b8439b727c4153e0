/**
 The ledger: what every mutator step keeps of the shared memory, whatever the
 collector does in between. Its centre is count conservation.
 */
module ProtocolLedger {
  import opened Counting
  import opened ShardCounters
  import opened Protocol

  ghost predicate PcOk(n: nat, m: Shared, pc: Pc) {
    && (InSection(pc) ==> pc.shard < n)
    && (pc.Holding? || pc.CasDebt? || pc.Trailing? ==> pc.obj in m.objs)
    && (pc.CasDebt? ==> Handle(pc.borrowed) in m.owners && m.owners[Handle(pc.borrowed)] == pc.obj)
    && (pc.Reading? && pc.src.FromWeak? ==> Handle(pc.src.handle) in m.owners)
  }

  ghost predicate WellFormed(n: nat, m: Shared) {
    && |m.section| == n
    && (forall o :: o in m.objs ==> |m.objs[o].counters| == n)
    && (forall k :: k in m.owners ==> m.owners[k] in m.objs)
    && (forall t :: t in m.pcs ==> PcOk(n, m, m.pcs[t]))
  }

  /** Conservation: shard counts sum to references held, less the references a
      compare-and-set put in a cell and has not counted yet. */
  ghost predicate Balanced(m: Shared) {
    forall o :: o in m.objs ==> Total(m.objs[o].counters) == |Holders(m, o)| - |Debtors(m, o)|
  }

  ghost predicate SectionsCounted(m: Shared) {
    forall i :: 0 <= i < |m.section| ==> m.section[i] == |ReadersAt(m, i)|
  }

  /** An object and its weak part point at each other until the collector cuts the way back. */
  ghost predicate WeakLinked(m: Shared) {
    && (forall o :: o in m.objs && m.objs[o].weak.Some? ==>
          && m.objs[o].weak.value in m.objs
          && m.objs[m.objs[o].weak.value].weakOf == Some(o)
          && m.objs[o].weakOf.None?
          && (!m.objs[o].freed ==> WeakField(o) in m.owners))
    && (forall o :: WeakField(o) in m.owners ==> o in m.objs && m.objs[o].weak == Some(m.owners[WeakField(o)]))
    && (forall w :: w in m.objs && m.objs[w].weakOf.Some? ==>
          m.objs[w].weakOf.value in m.objs && m.objs[m.objs[w].weakOf.value].weak == Some(w))
    && (forall w :: w in m.objs && m.objs[w].backRef.Some? ==> m.objs[w].backRef == m.objs[w].weakOf)
  }

  /** No two unfreed objects share an address or a counter slot. */
  ghost predicate MemoryDistinct(m: Shared) {
    forall o, p :: o in m.objs && p in m.objs && o != p && !m.objs[o].freed && !m.objs[p].freed ==>
      m.objs[o].addr != m.objs[p].addr && m.objs[o].slot != m.objs[p].slot
  }

  ghost predicate Ledger(n: nat, m: Shared) {
    && n >= 1
    && WellFormed(n, m)
    && Balanced(m)
    && SectionsCounted(m)
    && WeakLinked(m)
    && MemoryDistinct(m)
  }

  // ----- effect of the building blocks on the balance of one object

  function Balance(m: Shared, x: ObjId): int
    requires x in m.objs
  {
    Total(m.objs[x].counters) - |Holders(m, x)| + |Debtors(m, x)|
  }

  lemma SetCounterBalance(m: Shared, o: ObjId, i: nat, c: Counter, x: ObjId)
    requires HasCounter(m, o, i) && x in m.objs
    ensures Balance(SetCounter(m, o, i, c), x)
         == Balance(m, x) + (if x == o then c.count - m.objs[o].counters[i].count else 0)
  {
    TotalUpdate(m.objs[o].counters, i, c);
    assert Debtors(SetCounter(m, o, i, c), x) == Debtors(m, x);
  }

  lemma AddOwnerBalance(m: Shared, k: OwnerId, o: ObjId, x: ObjId)
    requires k !in m.owners && x in m.objs
    ensures Balance(AddOwner(m, k, o), x) == Balance(m, x) - One(o == x)
  {
    PreimageInsert(m.owners, k, o, x);
    assert Debtors(AddOwner(m, k, o), x) == Debtors(m, x);
  }

  lemma DropOwnerBalance(m: Shared, k: OwnerId, x: ObjId)
    requires k in m.owners && x in m.objs
    ensures Balance(DropOwner(m, k), x) == Balance(m, x) + One(m.owners[k] == x)
  {
    PreimageRemove(m.owners, k, x);
    assert Debtors(DropOwner(m, k), x) == Debtors(m, x);
  }

  lemma SetPcBalance(m: Shared, t: ThreadId, pc: Pc, x: ObjId)
    requires x in m.objs
    ensures Balance(SetPc(m, t, pc), x) == Balance(m, x) - One(IsDebt(PcOf(m, t), x)) + One(IsDebt(pc, x))
  {
    SetPcDebtors(m, t, pc, x);
  }

  lemma SetPcDebtors(m: Shared, t: ThreadId, pc: Pc, x: ObjId)
    ensures |Debtors(SetPc(m, t, pc), x)| == |Debtors(m, x)| - One(IsDebt(PcOf(m, t), x)) + One(IsDebt(pc, x))
  {
    ChangedAt(Debtors(m, x), Debtors(SetPc(m, t, pc), x), t);
  }

  lemma ExchangeBalance(m: Shared, c: nat, content: Option<ObjId>, h: nat, x: ObjId)
    requires Handle(h) !in m.owners && x in m.objs
    ensures Balance(Exchange(m, c, content, h), x) == Balance(m, x) - One(content == Some(x))
  {
    var m1 := m;
    if Cell(c) in m.owners {
      DropOwnerBalance(m, Cell(c), x);
      AddOwnerBalance(DropOwner(m, Cell(c)), Handle(h), m.owners[Cell(c)], x);
      m1 := AddOwner(DropOwner(m, Cell(c)), Handle(h), m.owners[Cell(c)]);
    }
    if content.Some? {
      AddOwnerBalance(m1, Cell(c), content.value, x);
    }
  }

  lemma NewObjectTotal(n: nat, i: nat, backRef: Option<ObjId>, addr: nat, slot: nat)
    requires i < n
    ensures Total(NewObject(n, i, backRef, addr, slot).counters) == 1
  {
    TotalZeroes(n);
    TotalUpdate(Zeroes(n), i, ZERO.Incremented());
  }

  /** A fresh identifier is held by nobody. */
  lemma FreshBalance(n: nat, m: Shared, o: ObjId)
    requires WellFormed(n, m) && o !in m.objs
    ensures Holders(m, o) == {} && Debtors(m, o) == {}
  {
    assert forall k :: k in m.owners ==> m.owners[k] in m.objs;
    assert forall t :: t in m.pcs ==> PcOk(n, m, m.pcs[t]);
  }

  // ----- conservation, mutation by mutation

  lemma NewBalanced(n: nat, m: Shared, o: ObjId, backRef: Option<ObjId>, k: OwnerId, addr: nat, slot: nat, i: nat)
    requires Ledger(n, m) && o !in m.objs && i < n && k !in m.owners
    ensures Balanced(AddOwner(m.(objs := m.objs[o := NewObject(n, i, backRef, addr, slot)]), k, o))
  {
    var m1 := m.(objs := m.objs[o := NewObject(n, i, backRef, addr, slot)]);
    FreshBalance(n, m, o);
    NewObjectTotal(n, i, backRef, addr, slot);
    forall x | x in m1.objs ensures Balance(AddOwner(m1, k, o), x) == 0 {
      AddOwnerBalance(m1, k, o, x);
      assert Holders(m1, x) == Holders(m, x) && Debtors(m1, x) == Debtors(m, x);
    }
  }

  lemma InitWeakBalanced(n: nat, m: Shared, h: nat, w: ObjId, addr: nat, slot: nat, i: nat)
    requires Ledger(n, m) && CanMutate(n, m, InitWeak(h, w, addr, slot, i))
    ensures Balanced(Mutate(n, m, InitWeak(h, w, addr, slot, i)))
  {
    hide MemoryDistinct, SectionsCounted, MemoryFree;
    var o := Target(m, h);
    NewBalanced(n, m, w, Some(o), WeakField(o), addr, slot, i);
    var m1 := AddOwner(m.(objs := m.objs[w := NewObject(n, i, Some(o), addr, slot)]), WeakField(o), w);
    var m2 := Mutate(n, m, InitWeak(h, w, addr, slot, i));
    forall x | x in m2.objs ensures Balance(m2, x) == 0 {
      assert m2.owners == m1.owners && m2.pcs == m1.pcs;
      assert m2.objs[x].counters == m1.objs[x].counters;
      assert Debtors(m2, x) == Debtors(m1, x);
      assert Balance(m1, x) == 0;
    }
  }

  lemma MutateBalanced(n: nat, m: Shared, a: Mutation)
    requires Ledger(n, m) && CanMutate(n, m, a)
    ensures Balanced(Mutate(n, m, a))
  {
    if a.New? {
      NewBalanced(n, m, a.o, None, Handle(a.h), a.addr, a.slot, a.i);
    } else if a.InitWeak? {
      InitWeakBalanced(n, m, a.h, a.w, a.addr, a.slot, a.i);
    } else {
      MutateBalancedSameObjects(n, m, a);
    }
  }

  lemma MutateBalancedSameObjects(n: nat, m: Shared, a: Mutation)
    requires Ledger(n, m) && CanMutate(n, m, a) && !a.New? && !a.InitWeak?
    ensures Balanced(Mutate(n, m, a))
  {
    var m2 := Mutate(n, m, a);
    SameObjects(n, m, a);
    hide Mutate, CanMutate;
    forall x | x in m2.objs ensures Balance(m2, x) == 0 {
      assert x in m2.objs.Keys;
      MutateBalance(n, m, a, x);
      assert Balance(m, x) == 0;
    }
  }

  lemma SameObjects(n: nat, m: Shared, a: Mutation)
    requires CanMutate(n, m, a) && !a.New? && !a.InitWeak?
    ensures Mutate(n, m, a).objs.Keys == m.objs.Keys
  {
  }

  /** One more reference to o, counted. */
  lemma CountedBalance(m: Shared, o: ObjId, i: nat, k: OwnerId, x: ObjId)
    requires HasCounter(m, o, i) && k !in m.owners && x in m.objs
    ensures Balance(AddOwner(Increment(m, o, i), k, o), x) == Balance(m, x)
  {
    hide Balance;
    SetCounterBalance(m, o, i, m.objs[o].counters[i].Incremented(), x);
    AddOwnerBalance(Increment(m, o, i), k, o, x);
  }

  lemma SectionBalance(m: Shared, section: seq<nat>, x: ObjId)
    requires x in m.objs
    ensures Balance(m.(section := section), x) == Balance(m, x)
  {
    assert Debtors(m.(section := section), x) == Debtors(m, x);
  }

  lemma MutateBalance(n: nat, m: Shared, a: Mutation, x: ObjId)
    requires CanMutate(n, m, a) && !a.New? && !a.InitWeak? && x in m.objs
    ensures x in Mutate(n, m, a).objs && Balance(Mutate(n, m, a), x) == Balance(m, x)
  {
    hide Balance, MemoryFree, Pinned, CellAddress, AddressOf;
    match a
    case Clone(h, h2, i) =>
      CountedBalance(m, Target(m, h), i, Handle(h2), x);
    case CloneWeak(h, h2, i) =>
      CountedBalance(m, m.objs[Target(m, h)].weak.value, i, Handle(h2), x);
    case Drop(t, h, i) =>
      DropBalance(m, t, h, i, x);
    case TrailingRead(t) =>
      SetPcBalance(m, t, Idle, x);
    case Enter(t, i, src) =>
      var section := m.section[i := m.section[i] + 1];
      SectionBalance(m, section, x);
      SetPcBalance(m.(section := section), t, Reading(i, src), x);
    case ReadPointer(t) =>
      SetPcBalance(m, t, PcOf(Mutate(n, m, a), t), x);
    case Acquire(t, i, h) =>
      var pc := PcOf(m, t);
      CountedBalance(m, pc.obj, i, Handle(h), x);
      SetPcBalance(AddOwner(Increment(m, pc.obj, i), Handle(h), pc.obj), t, Leaving(pc.shard), x);
    case Leave(t) =>
      var i := PcOf(m, t).shard;
      var section := m.section[i := m.section[i] - 1];
      SectionBalance(m, section, x);
      SetPcBalance(m.(section := section), t, Idle, x);
    case Swap(c, arg, h) =>
      SwapBalance(m, c, arg, h, x);
    case CompareAndSet(t, c, expected, replacement, h) =>
      CasBalance(m, t, c, replacement, h, x);
    case PayDebt(t, i) =>
      var o := PcOf(m, t).obj;
      SetCounterBalance(m, o, i, m.objs[o].counters[i].Incremented(), x);
      SetPcBalance(Increment(m, o, i), t, Idle, x);
  }

  lemma DropBalance(m: Shared, t: ThreadId, h: nat, i: nat, x: ObjId)
    requires HandleOf(m, h) && HasCounter(m, Target(m, h), i) && PcOf(m, t).Idle? && x in m.objs
    ensures var o := Target(m, h);
            Balance(SetPc(DropOwner(Decrement(m, o, i), Handle(h)), t, Trailing(o)), x) == Balance(m, x)
  {
    hide Balance;
    var o := Target(m, h);
    SetCounterBalance(m, o, i, m.objs[o].counters[i].DecrementedAndTagged(), x);
    DropOwnerBalance(Decrement(m, o, i), Handle(h), x);
    SetPcBalance(DropOwner(Decrement(m, o, i), Handle(h)), t, Trailing(o), x);
  }

  lemma SwapBalance(m: Shared, c: nat, arg: Option<nat>, h: nat, x: ObjId)
    requires Handle(h) !in m.owners && x in m.objs && (arg.Some? ==> HandleOf(m, arg.value))
    ensures Balance(if arg.Some? then Exchange(DropOwner(m, Handle(arg.value)), c, Some(Target(m, arg.value)), h)
                    else Exchange(m, c, None, h), x) == Balance(m, x)
  {
    if arg.Some? {
      DropOwnerBalance(m, Handle(arg.value), x);
      ExchangeBalance(DropOwner(m, Handle(arg.value)), c, Some(Target(m, arg.value)), h, x);
    } else {
      ExchangeBalance(m, c, None, h, x);
    }
  }

  lemma CasBalance(m: Shared, t: ThreadId, c: nat, replacement: Option<nat>, h: nat, x: ObjId)
    requires Handle(h) !in m.owners && x in m.objs && PcOf(m, t).Idle?
    requires replacement.Some? ==> HandleOf(m, replacement.value)
    ensures Balance(if replacement.Some?
                    then SetPc(Exchange(m, c, Some(Target(m, replacement.value)), h), t,
                               CasDebt(Target(m, replacement.value), replacement.value))
                    else Exchange(m, c, None, h), x) == Balance(m, x)
  {
    if replacement.Some? {
      var o := Target(m, replacement.value);
      ExchangeBalance(m, c, Some(o), h, x);
      SetPcBalance(Exchange(m, c, Some(o), h), t, CasDebt(o, replacement.value), x);
    } else {
      ExchangeBalance(m, c, None, h, x);
    }
  }

  // ----- the other parts of the ledger

  lemma ReadersSetPc(m: Shared, t: ThreadId, pc: Pc, i: nat)
    ensures |ReadersAt(SetPc(m, t, pc), i)|
         == |ReadersAt(m, i)| - One(ReadsAt(PcOf(m, t), i)) + One(ReadsAt(pc, i))
  {
    ChangedAt(ReadersAt(m, i), ReadersAt(SetPc(m, t, pc), i), t);
  }

  /** The thread whose program counter a mutation moves, if any. */
  ghost function Mover(n: nat, m: Shared, a: Mutation): Option<ThreadId>
    requires CanMutate(n, m, a)
    ensures Mover(n, m, a).None? ==> Mutate(n, m, a).pcs == m.pcs
    ensures Mover(n, m, a).Some? ==>
              Mutate(n, m, a).pcs == m.pcs[Mover(n, m, a).value := PcOf(Mutate(n, m, a), Mover(n, m, a).value)]
  {
    match a
    case Drop(t, _, _) => Some(t)
    case TrailingRead(t) => Some(t)
    case Enter(t, _, _) => Some(t)
    case ReadPointer(t) => Some(t)
    case Acquire(t, _, _) => Some(t)
    case Leave(t) => Some(t)
    case CompareAndSet(t, _, _, replacement, _) => if replacement.Some? then Some(t) else None
    case PayDebt(t, _) => Some(t)
    case _ => None
  }

  lemma MutateSections(n: nat, m: Shared, a: Mutation)
    requires WellFormed(n, m) && SectionsCounted(m) && CanMutate(n, m, a)
    ensures SectionsCounted(Mutate(n, m, a))
  {
    var m2, mover := Mutate(n, m, a), Mover(n, m, a);
    forall i | 0 <= i < |m2.section| ensures m2.section[i] == |ReadersAt(m2, i)| {
      if mover.Some? {
        var t, pc := mover.value, PcOf(m2, mover.value);
        ReadersSetPc(m, t, pc, i);
        assert ReadersAt(m2, i) == ReadersAt(SetPc(m, t, pc), i);
      } else {
        assert ReadersAt(m2, i) == ReadersAt(m, i);
      }
    }
  }

  ghost predicate Shape(n: nat, m: Shared) {
    WellFormed(n, m) && WeakLinked(m) && MemoryDistinct(m)
  }

  lemma SetCounterShape(n: nat, m: Shared, o: ObjId, i: nat, c: Counter)
    requires Shape(n, m) && HasCounter(m, o, i)
    ensures Shape(n, SetCounter(m, o, i, c))
  {
    var m2 := SetCounter(m, o, i, c);
    assert forall t :: t in m.pcs ==> PcOk(n, m, m.pcs[t]) ==> PcOk(n, m2, m.pcs[t]);
  }

  lemma AddOwnerShape(n: nat, m: Shared, k: OwnerId, o: ObjId)
    requires Shape(n, m) && k !in m.owners && !k.WeakField? && o in m.objs
    ensures Shape(n, AddOwner(m, k, o))
  {
    assert forall t :: t in m.pcs ==> PcOk(n, m, m.pcs[t]) ==> PcOk(n, AddOwner(m, k, o), m.pcs[t]);
  }

  lemma DropOwnerShape(n: nat, m: Shared, k: OwnerId)
    requires Shape(n, m) && !k.WeakField? && (k.Handle? ==> !Pinned(m, k.id))
    ensures Shape(n, DropOwner(m, k))
  {
    forall t | t in m.pcs ensures PcOk(n, DropOwner(m, k), m.pcs[t]) {
      assert PcOk(n, m, m.pcs[t]);
    }
  }

  lemma SetPcShape(n: nat, m: Shared, t: ThreadId, pc: Pc)
    requires Shape(n, m) && PcOk(n, m, pc)
    ensures Shape(n, SetPc(m, t, pc))
  {
    var m2 := SetPc(m, t, pc);
    forall u | u in m2.pcs ensures PcOk(n, m2, m2.pcs[u]) {
      assert u != t ==> PcOk(n, m, m.pcs[u]);
    }
  }

  lemma SectionShape(n: nat, m: Shared, section: seq<nat>)
    requires Shape(n, m) && |section| == n
    ensures Shape(n, m.(section := section))
  {
    var m2 := m.(section := section);
    assert forall t :: t in m.pcs ==> PcOk(n, m, m.pcs[t]) ==> PcOk(n, m2, m.pcs[t]);
  }

  lemma ExchangeShape(n: nat, m: Shared, c: nat, content: Option<ObjId>, h: nat)
    requires Shape(n, m) && Handle(h) !in m.owners && (content.Some? ==> content.value in m.objs)
    ensures Shape(n, Exchange(m, c, content, h))
  {
    var m1 := m;
    if Cell(c) in m.owners {
      DropOwnerShape(n, m, Cell(c));
      AddOwnerShape(n, DropOwner(m, Cell(c)), Handle(h), m.owners[Cell(c)]);
      m1 := AddOwner(DropOwner(m, Cell(c)), Handle(h), m.owners[Cell(c)]);
    }
    if content.Some? {
      AddOwnerShape(n, m1, Cell(c), content.value);
    }
  }

  lemma NewShape(n: nat, m: Shared, o: ObjId, addr: nat, slot: nat, i: nat)
    requires Shape(n, m) && o !in m.objs && i < n && MemoryFree(m, addr, slot)
    ensures Shape(n, m.(objs := m.objs[o := NewObject(n, i, None, addr, slot)]))
  {
    NewShapeFor(n, m, o, None, addr, slot, i);
    NewLinked(m, m.(objs := m.objs[o := NewObject(n, i, None, addr, slot)]), o);
  }

  lemma NewLinked(m: Shared, m2: Shared, o: ObjId)
    requires WeakLinked(m) && o !in m.objs && o in m2.objs && m2.objs == m.objs[o := m2.objs[o]] && m2.owners == m.owners
    requires m2.objs[o].weak.None? && m2.objs[o].weakOf.None? && m2.objs[o].backRef.None?
    ensures WeakLinked(m2)
  {
  }

  lemma InitWeakShape(n: nat, m: Shared, h: nat, w: ObjId, addr: nat, slot: nat, i: nat)
    requires Shape(n, m) && CanMutate(n, m, InitWeak(h, w, addr, slot, i))
    ensures Shape(n, Mutate(n, m, InitWeak(h, w, addr, slot, i)))
  {
    var o := Target(m, h);
    NewShapeFor(n, m, w, Some(o), addr, slot, i);
    var m1 := m.(objs := m.objs[w := NewObject(n, i, Some(o), addr, slot)]);
    WithWeakWellFormed(n, m1, o, w);
    WeakPartLinked(m, WithWeak(m1, o, w), o, w);
  }

  lemma NewShapeFor(n: nat, m: Shared, o: ObjId, backRef: Option<ObjId>, addr: nat, slot: nat, i: nat)
    requires Shape(n, m) && o !in m.objs && i < n && MemoryFree(m, addr, slot)
    ensures var m2 := m.(objs := m.objs[o := NewObject(n, i, backRef, addr, slot)]);
            WellFormed(n, m2) && MemoryDistinct(m2)
  {
    var m2 := m.(objs := m.objs[o := NewObject(n, i, backRef, addr, slot)]);
    assert forall t :: t in m.pcs ==> PcOk(n, m, m.pcs[t]) ==> PcOk(n, m2, m.pcs[t]);
  }

  /** o gets w as its weak part. */
  ghost predicate WeakPartAdded(m: Shared, m2: Shared, o: ObjId, w: ObjId) {
    && o in m.objs && m.objs[o].weak.None? && m.objs[o].weakOf.None? && w !in m.objs && w in m2.objs
    && m2.objs == m.objs[w := m2.objs[w]][o := m.objs[o].(weak := Some(w))]
    && m2.owners == m.owners[WeakField(o) := w]
    && m2.objs[w].weak.None? && m2.objs[w].weakOf == m2.objs[w].backRef == Some(o)
  }

  lemma WeakPartLinked(m: Shared, m2: Shared, o: ObjId, w: ObjId)
    requires WeakLinked(m) && WeakPartAdded(m, m2, o, w)
    ensures WeakLinked(m2)
  {
    forall x | x in m2.objs && m2.objs[x].weak.Some?
      ensures m2.objs[x].weak.value in m2.objs && m2.objs[m2.objs[x].weak.value].weakOf == Some(x)
      ensures m2.objs[x].weakOf.None? && (!m2.objs[x].freed ==> WeakField(x) in m2.owners)
    {
      if x != o {
        assert x in m.objs && m2.objs[x] == m.objs[x];
        var v := m.objs[x].weak.value;
        assert v in m.objs && v != w && v != o;
      }
    }
    forall x | WeakField(x) in m2.owners
      ensures x in m2.objs && m2.objs[x].weak == Some(m2.owners[WeakField(x)])
    {
      if x != o {
        assert WeakField(x) in m.owners;
      }
    }
    forall v | v in m2.objs && m2.objs[v].weakOf.Some?
      ensures m2.objs[v].weakOf.value in m2.objs && m2.objs[m2.objs[v].weakOf.value].weak == Some(v)
    {
      if v != w {
        assert v in m.objs && m2.objs[v].weakOf == m.objs[v].weakOf;
      }
    }
  }

  ghost function WithWeak(m: Shared, o: ObjId, w: ObjId): Shared
    requires o in m.objs
  {
    AddOwner(m.(objs := m.objs[o := m.objs[o].(weak := Some(w))]), WeakField(o), w)
  }

  lemma WithWeakWellFormed(n: nat, m: Shared, o: ObjId, w: ObjId)
    requires WellFormed(n, m) && MemoryDistinct(m) && o in m.objs && w in m.objs
    ensures WellFormed(n, WithWeak(m, o, w)) && MemoryDistinct(WithWeak(m, o, w))
  {
    var m2 := WithWeak(m, o, w);
    forall t | t in m2.pcs ensures PcOk(n, m2, m2.pcs[t]) {
      assert PcOk(n, m, m.pcs[t]);
    }
  }

  /** One more reference to o, counted in shard i. */
  lemma GrantShape(n: nat, m: Shared, o: ObjId, i: nat, h: nat)
    requires Shape(n, m) && HasCounter(m, o, i) && Handle(h) !in m.owners
    ensures Shape(n, AddOwner(Increment(m, o, i), Handle(h), o))
  {
    SetCounterShape(n, m, o, i, m.objs[o].counters[i].Incremented());
    AddOwnerShape(n, Increment(m, o, i), Handle(h), o);
  }

  lemma DropShape(n: nat, m: Shared, t: ThreadId, h: nat, i: nat)
    requires Shape(n, m) && CanMutate(n, m, Drop(t, h, i))
    ensures Shape(n, Mutate(n, m, Drop(t, h, i)))
  {
    hide WeakLinked, MemoryDistinct;
    var o := Target(m, h);
    SetCounterShape(n, m, o, i, m.objs[o].counters[i].DecrementedAndTagged());
    assert Pinned(Decrement(m, o, i), h) ==> Pinned(m, h);
    DropOwnerShape(n, Decrement(m, o, i), Handle(h));
    SetPcShape(n, DropOwner(Decrement(m, o, i), Handle(h)), t, Trailing(o));
  }

  lemma ReadPointerShape(n: nat, m: Shared, t: ThreadId)
    requires Shape(n, m) && CanMutate(n, m, ReadPointer(t))
    ensures Shape(n, Mutate(n, m, ReadPointer(t)))
  {
    assert PcOk(n, m, PcOf(m, t));
    SetPcShape(n, m, t, PcOf(Mutate(n, m, ReadPointer(t)), t));
  }

  lemma SwapShape(n: nat, m: Shared, c: nat, arg: Option<nat>, h: nat)
    requires Shape(n, m) && CanMutate(n, m, Swap(c, arg, h))
    ensures Shape(n, Mutate(n, m, Swap(c, arg, h)))
  {
    if arg.Some? {
      DropOwnerShape(n, m, Handle(arg.value));
      ExchangeShape(n, DropOwner(m, Handle(arg.value)), c, Some(Target(m, arg.value)), h);
    } else {
      ExchangeShape(n, m, c, None, h);
    }
  }

  lemma CasShape(n: nat, m: Shared, a: Mutation)
    requires Shape(n, m) && CanMutate(n, m, a) && a.CompareAndSet?
    ensures Shape(n, Mutate(n, m, a))
  {
    hide WeakLinked, MemoryDistinct;
    if a.replacement.Some? {
      var o := Target(m, a.replacement.value);
      ExchangeShape(n, m, a.c, Some(o), a.h);
      SetPcShape(n, Exchange(m, a.c, Some(o), a.h), a.t, CasDebt(o, a.replacement.value));
    } else {
      ExchangeShape(n, m, a.c, None, a.h);
    }
  }

  lemma SectionStepShape(n: nat, m: Shared, section: seq<nat>, t: ThreadId, pc: Pc)
    requires Shape(n, m) && |section| == n && PcOk(n, m, pc)
    ensures Shape(n, SetPc(m.(section := section), t, pc))
  {
    SectionShape(n, m, section);
    SetPcShape(n, m.(section := section), t, pc);
  }

  lemma AcquireShape(n: nat, m: Shared, t: ThreadId, i: nat, h: nat)
    requires Shape(n, m) && CanMutate(n, m, Acquire(t, i, h))
    ensures Shape(n, Mutate(n, m, Acquire(t, i, h)))
  {
    var pc := PcOf(m, t);
    assert PcOk(n, m, pc);
    GrantShape(n, m, pc.obj, i, h);
    SetPcShape(n, AddOwner(Increment(m, pc.obj, i), Handle(h), pc.obj), t, Leaving(pc.shard));
  }

  lemma PayDebtShape(n: nat, m: Shared, t: ThreadId, i: nat)
    requires Shape(n, m) && CanMutate(n, m, PayDebt(t, i))
    ensures Shape(n, Mutate(n, m, PayDebt(t, i)))
  {
    var o := PcOf(m, t).obj;
    SetCounterShape(n, m, o, i, m.objs[o].counters[i].Incremented());
    SetPcShape(n, Increment(m, o, i), t, Idle);
  }

  /** Steps that move a thread along a reader's or a debtor's path. */
  ghost predicate IsThreadStep(a: Mutation) {
    a.TrailingRead? || a.Enter? || a.ReadPointer? || a.Acquire? || a.Leave? || a.PayDebt?
  }

  lemma ThreadStepShape(n: nat, m: Shared, a: Mutation)
    requires Shape(n, m) && CanMutate(n, m, a) && IsThreadStep(a)
    ensures Shape(n, Mutate(n, m, a))
  {
    hide WeakLinked, MemoryDistinct, MemoryFree, Pinned, CellAddress, AddressOf;
    match a
    case TrailingRead(t) => SetPcShape(n, m, t, Idle);
    case Enter(t, i, src) => SectionStepShape(n, m, m.section[i := m.section[i] + 1], t, Reading(i, src));
    case Leave(t) =>
      var i := PcOf(m, t).shard;
      SectionStepShape(n, m, m.section[i := m.section[i] - 1], t, Idle);
    case ReadPointer(t) => ReadPointerShape(n, m, t);
    case Acquire(t, i, h) => AcquireShape(n, m, t, i, h);
    case PayDebt(t, i) => PayDebtShape(n, m, t, i);
  }

  lemma OwnerStepShape(n: nat, m: Shared, a: Mutation)
    requires Shape(n, m) && CanMutate(n, m, a) && !IsThreadStep(a)
    ensures Shape(n, Mutate(n, m, a))
  {
    match a
    case New(o, h, addr, slot, i) =>
      NewShape(n, m, o, addr, slot, i);
      AddOwnerShape(n, m.(objs := m.objs[o := NewObject(n, i, None, addr, slot)]), Handle(h), o);
    case Clone(h, h2, i) => GrantShape(n, m, Target(m, h), i, h2);
    case CloneWeak(h, h2, i) => GrantShape(n, m, m.objs[Target(m, h)].weak.value, i, h2);
    case Drop(t, h, i) => DropShape(n, m, t, h, i);
    case Swap(c, arg, h) => SwapShape(n, m, c, arg, h);
    case CompareAndSet(_, _, _, _, _) => CasShape(n, m, a);
    case InitWeak(h, w, addr, slot, i) => InitWeakShape(n, m, h, w, addr, slot, i);
  }

  lemma MutateShape(n: nat, m: Shared, a: Mutation)
    requires Shape(n, m) && CanMutate(n, m, a)
    ensures Shape(n, Mutate(n, m, a))
  {
    if IsThreadStep(a) {
      ThreadStepShape(n, m, a);
    } else {
      OwnerStepShape(n, m, a);
    }
  }

  /** Every mutator step keeps the ledger. */
  lemma MutateLedger(n: nat, m: Shared, a: Mutation)
    requires Ledger(n, m) && CanMutate(n, m, a)
    ensures Ledger(n, Mutate(n, m, a))
  {
    MutateBalanced(n, m, a);
    MutateSections(n, m, a);
    MutateShape(n, m, a);
  }
}
