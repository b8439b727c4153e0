/**
 How far other threads can move the world between two collector steps.

 `Evolves` is transitive and holds of every mutator step: tags stay set, an
 untagged count only grows, an object stops being owned only with a tag left
 behind, and an unreachable object stays unreachable.
 */
module ProtocolEvolution {
  import opened Counting
  import opened ShardCounters
  import opened Protocol
  import opened ProtocolLedger

  ghost predicate CountersEvolve(cs: seq<Counter>, cs2: seq<Counter>) {
    && |cs| == |cs2|
    && forall i :: 0 <= i < |cs| ==>
         (cs[i].tag ==> cs2[i].tag) && (!cs2[i].tag ==> cs2[i].count >= cs[i].count)
  }

  ghost predicate ObjectEvolves(x: Object, y: Object) {
    && CountersEvolve(x.counters, y.counters)
    && y.freed == x.freed && y.weakOf == x.weakOf && y.backRef == x.backRef && y.addr == x.addr && y.slot == x.slot
    && (x.weak.Some? ==> y.weak == x.weak)
  }

  ghost predicate Evolves(m: Shared, m2: Shared) {
    && (forall o :: o in m.objs ==> o in m2.objs && ObjectEvolves(m.objs[o], m2.objs[o]))
    && (forall o :: o in m.objs && Owned(m, o) ==> Owned(m2, o) || AnyTag(m2.objs[o].counters))
    && (forall o :: Unreachable(m, o) ==> Unreachable(m2, o))
  }

  lemma TagStays(cs: seq<Counter>, cs2: seq<Counter>)
    requires CountersEvolve(cs, cs2) && AnyTag(cs)
    ensures AnyTag(cs2)
  {
    var i :| 0 <= i < |cs| && cs[i].tag;
    assert cs2[i].tag;
  }

  lemma EvolvesTrans(a: Shared, b: Shared, c: Shared)
    requires Evolves(a, b) && Evolves(b, c)
    ensures Evolves(a, c)
  {
    forall o | o in a.objs
      ensures o in c.objs && ObjectEvolves(a.objs[o], c.objs[o])
      ensures Owned(a, o) ==> Owned(c, o) || AnyTag(c.objs[o].counters)
    {
      assert ObjectEvolves(a.objs[o], b.objs[o]) && ObjectEvolves(b.objs[o], c.objs[o]);
      if Owned(a, o) && !Owned(b, o) {
        TagStays(b.objs[o].counters, c.objs[o].counters);
      }
    }
  }

  /** Where no abandoned object is picked up again, none becomes reachable. */
  ghost predicate KeepsAbandoned(m: Shared, m2: Shared) {
    && (forall x :: Abandoned(m, x) ==> Abandoned(m2, x))
    && (forall x :: x in m.objs ==> x in m2.objs && m2.objs[x].weakOf == m.objs[x].weakOf)
  }

  lemma KeepsUnreachable(m: Shared, m2: Shared, x: ObjId)
    requires KeepsAbandoned(m, m2) && Unreachable(m, x)
    ensures Unreachable(m2, x)
  {
  }

  /** o can be given one more reference without reviving an unreachable object. */
  ghost predicate MayGrant(m: Shared, o: ObjId) {
    forall x :: Unreachable(m, x) ==> x != o && m.objs[x].weakOf != Some(o)
  }

  // ----- the building blocks

  lemma SetCounterEvolves(m: Shared, o: ObjId, i: nat, c: Counter)
    requires HasCounter(m, o, i)
    requires CountersEvolve(m.objs[o].counters, m.objs[o].counters[i := c])
    ensures Evolves(m, SetCounter(m, o, i, c))
  {
    var m2 := SetCounter(m, o, i, c);
    forall x | Abandoned(m, x) ensures Abandoned(m2, x) {
      assert BackLive(m2, x) ==> BackLive(m, x);
    }
    assert KeepsAbandoned(m, m2);
  }

  lemma AddOwnerEvolves(m: Shared, k: OwnerId, o: ObjId)
    requires k !in m.owners && MayGrant(m, o)
    ensures Evolves(m, AddOwner(m, k, o))
  {
    var m2 := AddOwner(m, k, o);
    forall x | Owned(m, x) ensures Owned(m2, x) {
      var j :| j in m.owners && m.owners[j] == x;
      assert j in m2.owners && m2.owners[j] == x;
    }
    forall x | Abandoned(m, x) && x != o ensures Abandoned(m2, x) {
      assert BackLive(m2, x) ==> BackLive(m, x);
    }
  }

  lemma DropOwnerEvolves(m: Shared, k: OwnerId)
    requires k in m.owners && m.owners[k] in m.objs && AnyTag(m.objs[m.owners[k]].counters)
    ensures Evolves(m, DropOwner(m, k))
  {
    var m2 := DropOwner(m, k);
    forall x | x in m.objs && Owned(m, x) ensures Owned(m2, x) || AnyTag(m2.objs[x].counters) {
      var j :| j in m.owners && m.owners[j] == x;
      assert j != k ==> j in m2.owners && m2.owners[j] == x;
    }
    forall x | Abandoned(m, x) ensures Abandoned(m2, x) {
      assert BackLive(m2, x) ==> BackLive(m, x);
    }
    assert KeepsAbandoned(m, m2);
  }

  /** References change hands: the same objects are owned before and after. */
  lemma ReownEvolves(m: Shared, m2: Shared)
    requires m2 == m.(owners := m2.owners)
    requires forall x :: Owned(m, x) <==> Owned(m2, x)
    ensures Evolves(m, m2)
  {
    forall x | Abandoned(m, x) ensures Abandoned(m2, x) {
      assert BackLive(m2, x) ==> BackLive(m, x);
    }
    assert KeepsAbandoned(m, m2);
  }

  lemma SetPcEvolves(m: Shared, t: ThreadId, pc: Pc)
    requires pc.Holding? ==> MayGrant(m, pc.obj)
    ensures Evolves(m, SetPc(m, t, pc))
  {
    var m2 := SetPc(m, t, pc);
    forall x | Abandoned(m, x) && (pc.Holding? ==> x != pc.obj) ensures Abandoned(m2, x) {
      assert BackLive(m2, x) ==> BackLive(m, x);
      forall u | u in m2.pcs ensures !(m2.pcs[u].Holding? && m2.pcs[u].obj == x) {
        assert u == t || u in m.pcs;
      }
    }
  }

  lemma SectionEvolves(m: Shared, section: seq<nat>)
    ensures Evolves(m, m.(section := section))
  {
    var m2 := m.(section := section);
    forall x | Abandoned(m, x) ensures Abandoned(m2, x) {
      assert BackLive(m2, x) ==> BackLive(m, x);
    }
    assert KeepsAbandoned(m, m2);
  }

  lemma NewEvolves(n: nat, m: Shared, m2: Shared, o: ObjId, k: OwnerId)
    requires WellFormed(n, m) && WeakLinked(m) && o !in m.objs && o in m2.objs && k !in m.owners
    requires m2 == m.(objs := m.objs[o := m2.objs[o]], owners := m.owners[k := o])
    ensures Evolves(m, m2)
  {
    forall x | Owned(m, x) ensures Owned(m2, x) {
      var j :| j in m.owners && m.owners[j] == x;
      assert j in m2.owners && m2.owners[j] == x;
    }
    forall x | Abandoned(m, x) ensures Abandoned(m2, x) {
      assert BackLive(m2, x) ==> BackLive(m, x);
    }
    assert KeepsAbandoned(m, m2);
  }

  lemma InitWeakEvolves(n: nat, m: Shared, m2: Shared, o: ObjId, w: ObjId)
    requires WellFormed(n, m) && WeakLinked(m) && WeakPartAdded(m, m2, o, w) && m2.pcs == m.pcs && Owned(m, o)
    ensures Evolves(m, m2)
  {
    assert WeakField(o) !in m.owners;
    forall x | Owned(m, x) ensures Owned(m2, x) {
      var j :| j in m.owners && m.owners[j] == x;
      assert j in m2.owners && m2.owners[j] == x;
    }
    forall x | Abandoned(m, x) ensures Abandoned(m2, x) {
      assert x != o && x != w;
      assert BackLive(m2, x) ==> BackLive(m, x);
      assert HeldByReader(m2, x) ==> HeldByReader(m, x);
    }
    assert KeepsAbandoned(m, m2);
  }

  lemma IncrementEvolves(m: Shared, o: ObjId, i: nat)
    requires HasCounter(m, o, i)
    ensures Evolves(m, Increment(m, o, i))
  {
    SetCounterEvolves(m, o, i, m.objs[o].counters[i].Incremented());
  }

  lemma FoundMayGrant(m: Shared, o: ObjId)
    requires Owned(m, o) || HeldByReader(m, o) || BackLive(m, o)
    ensures MayGrant(m, o)
  {
  }

  lemma GrantEvolves(m: Shared, o: ObjId, i: nat, h: nat)
    requires HasCounter(m, o, i) && Handle(h) !in m.owners && MayGrant(m, o)
    ensures Evolves(m, AddOwner(Increment(m, o, i), Handle(h), o))
  {
    var m1 := Increment(m, o, i);
    IncrementEvolves(m, o, i);
    forall x | Unreachable(m1, x) ensures Unreachable(m, x) {
      forall y | Abandoned(m1, y) ensures Abandoned(m, y) {
        assert BackLive(m, y) ==> BackLive(m1, y);
      }
    }
    AddOwnerEvolves(m1, Handle(h), o);
    EvolvesTrans(m, m1, AddOwner(m1, Handle(h), o));
  }

  /** A handle on an object leads to its weak part, even where nothing owns the weak part. */
  lemma WeakPartMayGrant(n: nat, m: Shared, h: nat)
    requires WeakLinked(m) && HandleOf(m, h) && m.objs[Target(m, h)].weak.Some?
    ensures MayGrant(m, m.objs[Target(m, h)].weak.value)
  {
    var o := Target(m, h);
    var w := m.objs[o].weak.value;
    assert Owned(m, o);
    forall x | Unreachable(m, x) ensures x != w && m.objs[x].weakOf != Some(w) {
      assert m.objs[w].weakOf == Some(o);
    }
  }

  lemma DropEvolves(n: nat, m: Shared, t: ThreadId, h: nat, i: nat)
    requires CanMutate(n, m, Drop(t, h, i))
    ensures Evolves(m, Mutate(n, m, Drop(t, h, i)))
  {
    var o := Target(m, h);
    var m1 := Decrement(m, o, i);
    SetCounterEvolves(m, o, i, m.objs[o].counters[i].DecrementedAndTagged());
    assert m1.objs[o].counters[i].tag;
    DropOwnerEvolves(m1, Handle(h));
    var m2 := DropOwner(m1, Handle(h));
    SetPcEvolves(m2, t, Trailing(o));
    EvolvesTrans(m, m1, m2);
    EvolvesTrans(m, m2, SetPc(m2, t, Trailing(o)));
  }

  lemma ReadPointerEvolves(n: nat, m: Shared, t: ThreadId)
    requires Shape(n, m) && CanMutate(n, m, ReadPointer(t))
    ensures Evolves(m, Mutate(n, m, ReadPointer(t)))
  {
    var src := PcOf(m, t).src;
    if PointerRead(m, src).Some? {
      if src.FromCell? {
        assert Owned(m, m.owners[Cell(src.cell)]);
      } else {
        assert BackLive(m, PointerRead(m, src).value);
      }
      FoundMayGrant(m, PointerRead(m, src).value);
    }
    SetPcEvolves(m, t, PcOf(Mutate(n, m, ReadPointer(t)), t));
  }

  lemma AcquireEvolves(n: nat, m: Shared, t: ThreadId, i: nat, h: nat)
    requires CanMutate(n, m, Acquire(t, i, h))
    ensures Evolves(m, Mutate(n, m, Acquire(t, i, h)))
  {
    var pc := PcOf(m, t);
    FoundMayGrant(m, pc.obj);
    GrantEvolves(m, pc.obj, i, h);
    var m1 := AddOwner(Increment(m, pc.obj, i), Handle(h), pc.obj);
    SetPcEvolves(m1, t, Leaving(pc.shard));
    EvolvesTrans(m, m1, SetPc(m1, t, Leaving(pc.shard)));
  }

  /** The exchange alone, seen from m: every owned object stays owned. */
  lemma ExchangeOwned(m: Shared, c: nat, content: Option<ObjId>, h: nat, x: ObjId)
    requires Handle(h) !in m.owners
    ensures Owned(Exchange(m, c, content, h), x) <==> Owned(m, x) || content == Some(x)
  {
    var m2 := Exchange(m, c, content, h);
    if Owned(m, x) {
      var j :| j in m.owners && m.owners[j] == x;
      if j == Cell(c) {
        assert Handle(h) in m2.owners && m2.owners[Handle(h)] == x;
      } else {
        assert j in m2.owners && m2.owners[j] == x;
      }
    }
    if content == Some(x) {
      assert Cell(c) in m2.owners && m2.owners[Cell(c)] == x;
    }
  }

  lemma SwapEvolves(n: nat, m: Shared, c: nat, arg: Option<nat>, h: nat)
    requires CanMutate(n, m, Swap(c, arg, h))
    ensures Evolves(m, Mutate(n, m, Swap(c, arg, h)))
  {
    var m2 := Mutate(n, m, Swap(c, arg, h));
    forall x ensures Owned(m, x) <==> Owned(m2, x) {
      if arg.Some? {
        var m1 := DropOwner(m, Handle(arg.value));
        ExchangeOwned(m1, c, Some(Target(m, arg.value)), h, x);
        DropOwnerOwned(m, Handle(arg.value), x);
      } else {
        ExchangeOwned(m, c, None, h, x);
      }
    }
    ReownEvolves(m, m2);
  }

  lemma DropOwnerOwned(m: Shared, k: OwnerId, x: ObjId)
    requires k in m.owners
    ensures Owned(m, x) <==> Owned(DropOwner(m, k), x) || m.owners[k] == x
  {
    if Owned(m, x) {
      var j :| j in m.owners && m.owners[j] == x;
      assert j != k ==> j in DropOwner(m, k).owners && DropOwner(m, k).owners[j] == x;
    }
  }

  lemma CasEvolves(n: nat, m: Shared, a: Mutation)
    requires CanMutate(n, m, a) && a.CompareAndSet?
    ensures Evolves(m, Mutate(n, m, a))
  {
    var content := if a.replacement.Some? then Some(Target(m, a.replacement.value)) else None;
    var m1 := Exchange(m, a.c, content, a.h);
    forall x ensures Owned(m, x) <==> Owned(m1, x) {
      ExchangeOwned(m, a.c, content, a.h, x);
    }
    ReownEvolves(m, m1);
    if a.replacement.Some? {
      SetPcEvolves(m1, a.t, CasDebt(content.value, a.replacement.value));
      EvolvesTrans(m, m1, SetPc(m1, a.t, CasDebt(content.value, a.replacement.value)));
    }
  }

  lemma SectionStepEvolves(n: nat, m: Shared, a: Mutation)
    requires CanMutate(n, m, a) && (a.Enter? || a.Leave?)
    ensures Evolves(m, Mutate(n, m, a))
  {
    var m2 := Mutate(n, m, a);
    SectionEvolves(m, m2.section);
    SetPcEvolves(m.(section := m2.section), a.t, PcOf(m2, a.t));
    EvolvesTrans(m, m.(section := m2.section), m2);
  }

  lemma PayDebtEvolves(n: nat, m: Shared, t: ThreadId, i: nat)
    requires CanMutate(n, m, PayDebt(t, i))
    ensures Evolves(m, Mutate(n, m, PayDebt(t, i)))
  {
    var o := PcOf(m, t).obj;
    IncrementEvolves(m, o, i);
    SetPcEvolves(Increment(m, o, i), t, Idle);
    EvolvesTrans(m, Increment(m, o, i), SetPc(Increment(m, o, i), t, Idle));
  }

  lemma MutateEvolves(n: nat, m: Shared, a: Mutation)
    requires Shape(n, m) && CanMutate(n, m, a)
    ensures Evolves(m, Mutate(n, m, a))
  {
    match a
    case New(o, h, addr, slot, i) => NewEvolves(n, m, Mutate(n, m, a), o, Handle(h));
    case Clone(h, h2, i) =>
      FoundMayGrant(m, Target(m, h));
      GrantEvolves(m, Target(m, h), i, h2);
    case CloneWeak(h, h2, i) =>
      WeakPartMayGrant(n, m, h);
      GrantEvolves(m, m.objs[Target(m, h)].weak.value, i, h2);
    case Drop(t, h, i) => DropEvolves(n, m, t, h, i);
    case TrailingRead(t) => SetPcEvolves(m, t, Idle);
    case Enter(_, _, _) => SectionStepEvolves(n, m, a);
    case Leave(_) => SectionStepEvolves(n, m, a);
    case ReadPointer(t) => ReadPointerEvolves(n, m, t);
    case Acquire(t, i, h) => AcquireEvolves(n, m, t, i, h);
    case Swap(c, arg, h) => SwapEvolves(n, m, c, arg, h);
    case CompareAndSet(_, _, _, _, _) => CasEvolves(n, m, a);
    case PayDebt(t, i) => PayDebtEvolves(n, m, t, i);
    case InitWeak(h, w, addr, slot, i) =>
      assert Owned(m, Target(m, h));
      InitWeakEvolves(n, m, Mutate(n, m, a), Target(m, h), w);
  }
}
