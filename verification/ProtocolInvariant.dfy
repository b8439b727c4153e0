/**
 The inductive invariant of the whole protocol, and its preservation by every
 step. It holds without any assumption on what threads or the collector do.
 */
module ProtocolInvariant {
  import opened Counting
  import opened ShardCounters
  import opened Protocol
  import opened ProtocolLedger
  import opened ProtocolEvolution

  /** Pending, tracked and freed objects partition all allocations. */
  ghost predicate Tracking(m: Shared, pending: set<ObjId>, tracked: set<ObjId>) {
    && (forall o :: o in m.objs <==> o in pending || o in tracked || (o in m.objs && m.objs[o].freed))
    && (forall o :: o in pending ==> o !in tracked && !m.objs[o].freed)
    && (forall o :: o in tracked ==> !m.objs[o].freed)
  }

  /** The counter being updated is out of both sets. */
  ghost predicate Working(c: Collector, o: ObjId, phase: Phase) {
    o in c.tracked && c.tracked[o] == phase && o !in c.todo && o !in c.toFree
  }

  /** The bookkeeping of one pass: what is still to be updated, what was found ready. */
  ghost predicate Bookkeeping(n: nat, c: Collector) {
    && c.todo <= c.tracked.Keys
    && c.toFree <= c.tracked.Keys
    && c.todo !! c.toFree
    && (forall o :: o in c.tracked ==> (c.tracked[o] == ReadyToFree <==> o in c.toFree))
    && match c.pc
       case Between => c.todo == {} && c.toFree == {}
       case Spinning(unseen) => c.toFree == {} && unseen <= Shards(n)
       case Clearing(o, k, _) => Working(c, o, DefaultState) && k <= n
       case Rechecking(o, k, _, _) => Working(c, o, RequiresReChecking) && k <= n
       case Freeing => c.todo == {}
       case _ => true
  }

  /** The shards the current spin has not seen empty; none outside a spin. */
  ghost function Unseen(pc: CollectorPc): set<nat> {
    if pc.Spinning? then pc.unseen else {}
  }

  /** Readers from before the spin sit on shards not yet seen empty; after it there are none. */
  ghost predicate Grace(m: Shared, unseen: set<nat>, oldReaders: set<ThreadId>) {
    forall t :: t in oldReaders ==> t in m.pcs && InSection(m.pcs[t]) && m.pcs[t].shard in unseen
  }

  /** An owned object leaves a trace: it is still owned, or some shard is tagged. */
  ghost predicate Traces(m: Shared, todo: set<ObjId>, ownedSince: set<ObjId>) {
    && (forall o :: Owned(m, o) ==> o in ownedSince)
    && (forall o :: o in todo && o in m.objs && o in ownedSince ==> Owned(m, o) || AnyTag(m.objs[o].counters))
  }

  /** A reader that is not old found an owned object, or one its weak part still points to. */
  ghost predicate HoldingOk(m: Shared, todo: set<ObjId>, oldReaders: set<ThreadId>, ownedSince: set<ObjId>, t: ThreadId)
    requires t in m.pcs && m.pcs[t].Holding?
  {
    var pc := m.pcs[t];
    t in oldReaders ||
    if pc.viaWeak then pc.obj in todo ==> BackLive(m, pc.obj) else pc.obj in ownedSince
  }

  ghost predicate Readers(m: Shared, todo: set<ObjId>, oldReaders: set<ThreadId>, ownedSince: set<ObjId>) {
    forall t :: t in m.pcs && m.pcs[t].Holding? ==> HoldingOk(m, todo, oldReaders, ownedSince, t)
  }

  /** If o is a weak part, its object was freed by a re-check without debt. */
  ghost predicate ParentClean(m: Shared, verdicts: map<ObjId, FirstRead>, o: ObjId)
    requires o in m.objs
  {
    var p := m.objs[o].weakOf;
    p.Some? ==> p.value in verdicts && verdicts[p.value].debt == 0
  }

  ghost predicate ParentFreed(m: Shared, o: ObjId)
    requires o in m.objs
  {
    var p := m.objs[o].weakOf;
    p.Some? ==> p.value in m.objs && m.objs[p.value].freed
  }

  /** The counters a re-check has not read yet, against its first read. */
  ghost predicate BaseEvolves(base: seq<Counter>, cs: seq<Counter>, k: nat) {
    && |base| == |cs|
    && forall i :: k <= i < |cs| ==>
         (base[i].tag ==> cs[i].tag) && (!cs[i].tag ==> cs[i].count >= base[i].count)
  }

  /** What the first read of a re-check tells about the object from then on. */
  ghost predicate Sighted(m: Shared, verdicts: map<ObjId, FirstRead>, o: ObjId, first: FirstRead)
    requires o in m.objs
  {
    && Total(first.base) == first.owners - first.debt
    && (first.debt > 0 ==> first.owners > 0)
    && (first.unreachable ==> Unreachable(m, o))
    && (!AnyTag(first.base) && first.owners == 0 ==>
          ParentFreed(m, o) && (ParentClean(m, verdicts, o) ==> first.unreachable || BackLive(m, o)))
  }

  ghost predicate Reads(base: seq<Counter>, cs: seq<Counter>, k: nat, acc: int) {
    && k <= |base|
    && (forall i :: 0 <= i < k ==> !base[i].tag)
    && Total(base[..k]) <= acc
    && BaseEvolves(base, cs, k)
  }

  ghost predicate RecheckOk(n: nat, m: Shared, verdicts: map<ObjId, FirstRead>, pc: CollectorPc) {
    pc.Rechecking? ==>
      && pc.obj in m.objs && |pc.first.base| == n
      && Sighted(m, verdicts, pc.obj, pc.first)
      && Reads(pc.first.base, m.objs[pc.obj].counters, pc.k, pc.acc)
  }

  /** A re-check that saw no tag and sum zero found the object owned exactly when
      a compare-and-set still owed it a count. */
  ghost predicate Exact(first: FirstRead) {
    first.owners > 0 <==> first.debt > 0
  }

  ghost predicate VerdictOk(m: Shared, verdicts: map<ObjId, FirstRead>, o: ObjId)
    requires o in verdicts
  {
    && o in m.objs
    && Exact(verdicts[o])
    && (verdicts[o].debt == 0 ==>
          ParentFreed(m, o) && (ParentClean(m, verdicts, o) ==> Unreachable(m, o)))
  }

  ghost predicate Verdicts(m: Shared, verdicts: map<ObjId, FirstRead>, toFree: set<ObjId>) {
    && (forall o :: o in verdicts <==> o in toFree || (o in m.objs && m.objs[o].freed))
    && (forall o :: o in verdicts ==> VerdictOk(m, verdicts, o))
  }

  /** A back-reference is missing only because a re-check cleared it. */
  ghost predicate Clears(m: Shared, clears: map<ObjId, FirstRead>) {
    forall w :: w in m.objs && m.objs[w].weakOf.Some? && m.objs[w].backRef.None? ==>
      m.objs[w].weakOf.value in clears && Exact(clears[m.objs[w].weakOf.value])
  }

  ghost predicate Inv(s: State) {
    && Ledger(s.n, s.m)
    && Tracking(s.m, s.c.pending, s.c.tracked.Keys)
    && Bookkeeping(s.n, s.c)
    && Grace(s.m, Unseen(s.c.pc), s.c.oldReaders)
    && Traces(s.m, s.c.todo, s.c.ownedSince)
    && Readers(s.m, s.c.todo, s.c.oldReaders, s.c.ownedSince)
    && RecheckOk(s.n, s.m, s.c.verdicts, s.c.pc)
    && Verdicts(s.m, s.c.verdicts, s.c.toFree)
    && Clears(s.m, s.c.clears)
  }

  lemma InitialInv(n: nat)
    requires n >= 1
    ensures Inv(Initial(n))
  {
    var m := Initial(n).m;
    forall i | 0 <= i < n ensures m.section[i] == |ReadersAt(m, i)| {
      assert ReadersAt(m, i) == {};
    }
  }

  // ----- what one mutator step does to the parts

  lemma MutateNewObjects(n: nat, m: Shared, a: Mutation, o: ObjId)
    requires CanMutate(n, m, a) && o in Mutate(n, m, a).objs && o !in m.objs
    ensures var x := Mutate(n, m, a).objs[o]; !x.freed && x.backRef == x.weakOf
  {
  }

  lemma MutateFreed(n: nat, m: Shared, a: Mutation, o: ObjId)
    requires CanMutate(n, m, a) && Evolves(m, Mutate(n, m, a))
    ensures o in m.objs ==> o in Mutate(n, m, a).objs
    ensures o in Mutate(n, m, a).objs ==>
              (Mutate(n, m, a).objs[o].freed <==> o in m.objs && m.objs[o].freed)
  {
    if o in m.objs {
      assert ObjectEvolves(m.objs[o], Mutate(n, m, a).objs[o]);
    } else if o in Mutate(n, m, a).objs {
      MutateNewObjects(n, m, a, o);
    }
  }

  lemma MutateHolding(n: nat, m: Shared, a: Mutation, t: ThreadId)
    requires Shape(n, m) && CanMutate(n, m, a)
    requires PcOf(Mutate(n, m, a), t).Holding?
    ensures var pc := PcOf(Mutate(n, m, a), t);
            PcOf(m, t) == pc || (!pc.viaWeak && Owned(m, pc.obj)) || (pc.viaWeak && BackLive(m, pc.obj))
  {
    var mover := Mover(n, m, a);
    if mover == Some(t) && a.ReadPointer? {
      var src := PcOf(m, t).src;
      if src.FromCell? && Cell(src.cell) in m.owners {
        assert Owned(m, m.owners[Cell(src.cell)]);
      }
    }
  }

  lemma MutateStaysInside(n: nat, m: Shared, a: Mutation, t: ThreadId)
    requires CanMutate(n, m, a) && InSection(PcOf(m, t)) && !(a.Leave? && a.t == t)
    ensures InSection(PcOf(Mutate(n, m, a), t)) && PcOf(Mutate(n, m, a), t).shard == PcOf(m, t).shard
  {
    var mover := Mover(n, m, a);
  }

  lemma MutateTracking(n: nat, m: Shared, a: Mutation, pending: set<ObjId>, tracked: set<ObjId>)
    requires CanMutate(n, m, a) && Evolves(m, Mutate(n, m, a)) && Tracking(m, pending, tracked)
    ensures var m2 := Mutate(n, m, a); Tracking(m2, pending + (m2.objs.Keys - m.objs.Keys), tracked)
  {
    forall o ensures o in m.objs ==> o in Mutate(n, m, a).objs
             ensures o in Mutate(n, m, a).objs ==>
                       (Mutate(n, m, a).objs[o].freed <==> o in m.objs && m.objs[o].freed)
    {
      MutateFreed(n, m, a, o);
    }
  }

  lemma MutateGrace(n: nat, m: Shared, a: Mutation, unseen: set<nat>, oldReaders: set<ThreadId>)
    requires CanMutate(n, m, a) && Grace(m, unseen, oldReaders)
    ensures Grace(Mutate(n, m, a), unseen, if a.Leave? then oldReaders - {a.t} else oldReaders)
  {
    var m2 := Mutate(n, m, a);
    forall t | t in oldReaders && !(a.Leave? && a.t == t)
      ensures t in m2.pcs && InSection(m2.pcs[t]) && m2.pcs[t].shard in unseen
    {
      MutateStaysInside(n, m, a, t);
    }
  }

  lemma BackLiveEvolves(m: Shared, m2: Shared, o: ObjId)
    requires Evolves(m, m2) && BackLive(m, o)
    ensures BackLive(m2, o)
  {
    var w := m.objs[o].weak.value;
    assert ObjectEvolves(m.objs[o], m2.objs[o]) && ObjectEvolves(m.objs[w], m2.objs[w]);
  }

  lemma EvolveTraces(m: Shared, m2: Shared, todo: set<ObjId>, ownedSince: set<ObjId>)
    requires Evolves(m, m2) && Traces(m, todo, ownedSince) && todo <= m.objs.Keys
    ensures Traces(m2, todo, ownedSince + OwnedSet(m2))
  {
    forall o | Owned(m2, o) ensures o in OwnedSet(m2) {
      var k :| k in m2.owners && m2.owners[k] == o;
    }
    forall o | o in todo && o in ownedSince ensures Owned(m2, o) || AnyTag(m2.objs[o].counters) {
      assert ObjectEvolves(m.objs[o], m2.objs[o]);
      if !Owned(m, o) {
        TagStays(m.objs[o].counters, m2.objs[o].counters);
      }
    }
  }

  lemma MutateReaders(n: nat, m: Shared, a: Mutation, todo: set<ObjId>, oldReaders: set<ThreadId>, ownedSince: set<ObjId>)
    requires Shape(n, m) && CanMutate(n, m, a) && Evolves(m, Mutate(n, m, a))
    requires Traces(m, todo, ownedSince) && Readers(m, todo, oldReaders, ownedSince)
    ensures var m2 := Mutate(n, m, a);
            Readers(m2, todo, if a.Leave? then oldReaders - {a.t} else oldReaders, ownedSince + OwnedSet(m2))
  {
    var m2 := Mutate(n, m, a);
    var old2 := if a.Leave? then oldReaders - {a.t} else oldReaders;
    forall t | t in m2.pcs && m2.pcs[t].Holding? ensures HoldingOk(m2, todo, old2, ownedSince + OwnedSet(m2), t) {
      MutateHolding(n, m, a, t);
      if PcOf(m, t) == m2.pcs[t] {
        assert HoldingOk(m, todo, oldReaders, ownedSince, t);
      }
      if BackLive(m, m2.pcs[t].obj) {
        BackLiveEvolves(m, m2, m2.pcs[t].obj);
      }
    }
  }

  lemma EvolveParents(m: Shared, m2: Shared, verdicts: map<ObjId, FirstRead>, o: ObjId)
    requires Evolves(m, m2) && o in m.objs
    ensures o in m2.objs
    ensures ParentClean(m2, verdicts, o) <==> ParentClean(m, verdicts, o)
    ensures ParentFreed(m, o) ==> ParentFreed(m2, o)
  {
    assert ObjectEvolves(m.objs[o], m2.objs[o]);
    var p := m.objs[o].weakOf;
    if p.Some? && p.value in m.objs {
      assert ObjectEvolves(m.objs[p.value], m2.objs[p.value]);
    }
  }

  lemma EvolveSighted(m: Shared, m2: Shared, verdicts: map<ObjId, FirstRead>, o: ObjId, first: FirstRead)
    requires Evolves(m, m2) && o in m.objs && Sighted(m, verdicts, o, first)
    ensures o in m2.objs && Sighted(m2, verdicts, o, first)
  {
    EvolveParents(m, m2, verdicts, o);
    if BackLive(m, o) {
      BackLiveEvolves(m, m2, o);
    }
  }

  lemma EvolveReads(base: seq<Counter>, cs: seq<Counter>, cs2: seq<Counter>, k: nat, acc: int)
    requires Reads(base, cs, k, acc) && CountersEvolve(cs, cs2)
    ensures Reads(base, cs2, k, acc)
  {
  }

  lemma EvolveRecheck(n: nat, m: Shared, m2: Shared, verdicts: map<ObjId, FirstRead>, pc: CollectorPc)
    requires Evolves(m, m2) && RecheckOk(n, m, verdicts, pc)
    ensures RecheckOk(n, m2, verdicts, pc)
  {
    if pc.Rechecking? {
      EvolveSighted(m, m2, verdicts, pc.obj, pc.first);
      assert ObjectEvolves(m.objs[pc.obj], m2.objs[pc.obj]);
      EvolveReads(pc.first.base, m.objs[pc.obj].counters, m2.objs[pc.obj].counters, pc.k, pc.acc);
    }
  }

  lemma MutateVerdicts(n: nat, m: Shared, a: Mutation, verdicts: map<ObjId, FirstRead>, toFree: set<ObjId>)
    requires CanMutate(n, m, a) && Evolves(m, Mutate(n, m, a)) && Verdicts(m, verdicts, toFree)
    ensures Verdicts(Mutate(n, m, a), verdicts, toFree)
  {
    var m2 := Mutate(n, m, a);
    forall o ensures o in verdicts <==> o in toFree || (o in m2.objs && m2.objs[o].freed) {
      MutateFreed(n, m, a, o);
    }
    forall o | o in verdicts ensures VerdictOk(m2, verdicts, o) {
      EvolveParents(m, m2, verdicts, o);
    }
  }

  lemma MutateClears(n: nat, m: Shared, a: Mutation, clears: map<ObjId, FirstRead>)
    requires CanMutate(n, m, a) && Evolves(m, Mutate(n, m, a)) && Clears(m, clears)
    ensures Clears(Mutate(n, m, a), clears)
  {
    var m2 := Mutate(n, m, a);
    forall w | w in m2.objs && m2.objs[w].weakOf.Some? && m2.objs[w].backRef.None?
      ensures m2.objs[w].weakOf.value in clears && Exact(clears[m2.objs[w].weakOf.value])
    {
      if w in m.objs {
        assert ObjectEvolves(m.objs[w], m2.objs[w]);
      } else {
        MutateNewObjects(n, m, a, w);
      }
    }
  }

  lemma TodoTracked(s: State)
    requires Inv(s)
    ensures s.c.todo <= s.m.objs.Keys
  {
  }

  lemma MutatorInv(s: State, a: Mutation)
    requires Inv(s) && CanMutate(s.n, s.m, a)
    ensures Inv(MutatorStep(s, a))
  {
    var n, m, c := s.n, s.m, s.c;
    MutateEvolves(n, m, a);
    MutateLedger(n, m, a);
    MutateTracking(n, m, a, c.pending, c.tracked.Keys);
    MutateGrace(n, m, a, Unseen(c.pc), c.oldReaders);
    TodoTracked(s);
    EvolveTraces(m, Mutate(n, m, a), c.todo, c.ownedSince);
    MutateReaders(n, m, a, c.todo, c.oldReaders, c.ownedSince);
    EvolveRecheck(n, m, Mutate(n, m, a), c.verdicts, c.pc);
    MutateVerdicts(n, m, a, c.verdicts, c.toFree);
    MutateClears(n, m, a, c.clears);
    assert Bookkeeping(n, MutatorStep(s, a).c);
  }
}
