/** Every collector step keeps the invariant. The heart is the first read of a re-check. */
module ProtocolCollector {
  import opened Counting
  import opened ShardCounters
  import opened Protocol
  import opened ProtocolLedger
  import opened ProtocolEvolution
  import opened ProtocolInvariant

  // ----- the books alone

  ghost predicate AtWork(n: nat, c: Collector, o: ObjId) {
    Bookkeeping(n, c) && ((c.pc.Clearing? && c.pc.obj == o) || (c.pc.Rechecking? && c.pc.obj == o))
  }

  lemma BooksBack(n: nat, c: Collector, o: ObjId, phase: Phase)
    requires AtWork(n, c, o) && phase != ReadyToFree
    ensures c.tracked[o := phase].Keys == c.tracked.Keys
    ensures Bookkeeping(n, c.(pc := Updating, tracked := c.tracked[o := phase]))
  {
  }

  lemma BooksReady(n: nat, c: Collector, o: ObjId, verdicts: map<ObjId, FirstRead>)
    requires AtWork(n, c, o)
    ensures c.tracked[o := ReadyToFree].Keys == c.tracked.Keys
    ensures Bookkeeping(n, c.(pc := Updating, tracked := c.tracked[o := ReadyToFree], toFree := c.toFree + {o},
                              verdicts := verdicts))
  {
  }

  lemma BooksFree(n: nat, c: Collector, o: ObjId)
    requires Bookkeeping(n, c) && c.pc.Freeing? && o in c.toFree
    ensures (c.tracked - {o}).Keys == c.tracked.Keys - {o}
    ensures Bookkeeping(n, c.(tracked := c.tracked - {o}, toFree := c.toFree - {o}))
  {
  }

  // ----- the spin

  lemma StartPassParts(n: nat, m: Shared, todo: set<ObjId>)
    requires WellFormed(n, m)
    ensures Grace(m, Shards(n), ReaderSet(m))
    ensures Traces(m, todo, OwnedSet(m))
    ensures Readers(m, todo, ReaderSet(m), OwnedSet(m))
  {
    forall t | t in ReaderSet(m) ensures m.pcs[t].shard in Shards(n) {
      assert PcOk(n, m, m.pcs[t]);
    }
    forall o | Owned(m, o) ensures o in OwnedSet(m) {
      var k :| k in m.owners && m.owners[k] == o;
    }
    forall t | t in m.pcs && m.pcs[t].Holding? ensures HoldingOk(m, todo, ReaderSet(m), OwnedSet(m), t) {
      assert t in ReaderSet(m);
    }
  }

  /** A shard counter at zero means nobody is inside on that shard. */
  lemma EmptyShard(m: Shared, i: nat)
    requires SectionsCounted(m) && i < |m.section| && m.section[i] == 0
    ensures forall t :: t in m.pcs ==> !ReadsAt(m.pcs[t], i)
  {
    assert ReadersAt(m, i) == {};
    assert forall t :: t in m.pcs && ReadsAt(m.pcs[t], i) ==> t in ReadersAt(m, i);
  }

  lemma ObserveEmptyGrace(m: Shared, i: nat, unseen: set<nat>, oldReaders: set<ThreadId>)
    requires SectionsCounted(m) && i < |m.section| && m.section[i] == 0 && Grace(m, unseen, oldReaders)
    ensures Grace(m, unseen - {i}, oldReaders)
  {
    EmptyShard(m, i);
    forall t | t in oldReaders ensures m.pcs[t].shard in unseen - {i} {
      assert !ReadsAt(m.pcs[t], i);
    }
  }

  lemma FewerTodo(m: Shared, todo: set<ObjId>, less: set<ObjId>, oldReaders: set<ThreadId>, ownedSince: set<ObjId>)
    requires less <= todo && Traces(m, todo, ownedSince) && Readers(m, todo, oldReaders, ownedSince)
    ensures Traces(m, less, ownedSince) && Readers(m, less, oldReaders, ownedSince)
  {
    forall t | t in m.pcs && m.pcs[t].Holding? ensures HoldingOk(m, less, oldReaders, ownedSince, t) {
      assert HoldingOk(m, todo, oldReaders, ownedSince, t);
    }
  }

  lemma TakePendingInv(s: State, taken: set<ObjId>)
    requires Inv(s) && CanCollect(s, TakePending(taken))
    ensures Inv(Collect(s, TakePending(taken)))
  {
    var c2 := Collect(s, TakePending(taken)).c;
    assert c2.tracked.Keys == s.c.tracked.Keys + taken;
    assert Bookkeeping(s.n, c2);
    assert Tracking(s.m, c2.pending, c2.tracked.Keys);
  }

  lemma StartPassInv(s: State, todo: set<ObjId>)
    requires Inv(s) && CanCollect(s, StartPass(todo))
    ensures Inv(Collect(s, StartPass(todo)))
  {
    StartPassParts(s.n, s.m, todo);
    assert Bookkeeping(s.n, Collect(s, StartPass(todo)).c);
  }

  lemma ObserveEmptyInv(s: State, i: nat)
    requires Inv(s) && CanCollect(s, ObserveEmpty(i))
    ensures Inv(Collect(s, ObserveEmpty(i)))
  {
    ObserveEmptyGrace(s.m, i, s.c.pc.unseen, s.c.oldReaders);
    assert Bookkeeping(s.n, Collect(s, ObserveEmpty(i)).c);
  }

  lemma EndSpinInv(s: State)
    requires Inv(s) && CanCollect(s, EndSpin)
    ensures Inv(Collect(s, EndSpin))
  {
    assert Bookkeeping(s.n, Collect(s, EndSpin).c);
  }

  lemma SkipInv(s: State, o: ObjId)
    requires Inv(s) && CanCollect(s, Skip(o))
    ensures Inv(Collect(s, Skip(o)))
  {
    FewerTodo(s.m, s.c.todo, s.c.todo - {o}, s.c.oldReaders, s.c.ownedSince);
    assert Bookkeeping(s.n, Collect(s, Skip(o)).c);
  }

  lemma StartFreeInv(s: State)
    requires Inv(s) && CanCollect(s, StartFree)
    ensures Inv(Collect(s, StartFree))
  {
    assert Bookkeeping(s.n, Collect(s, StartFree).c);
  }

  lemma EndPassInv(s: State)
    requires Inv(s) && CanCollect(s, EndPass)
    ensures Inv(Collect(s, EndPass))
  {
    assert Bookkeeping(s.n, Collect(s, EndPass).c);
  }

  // ----- stage one: clearing tags

  lemma StartClearInv(s: State, o: ObjId)
    requires Inv(s) && CanCollect(s, StartClear(o))
    ensures Inv(Collect(s, StartClear(o)))
  {
    FewerTodo(s.m, s.c.todo, s.c.todo - {o}, s.c.oldReaders, s.c.ownedSince);
    assert Bookkeeping(s.n, Collect(s, StartClear(o)).c);
  }

  lemma EndClearInv(s: State, sawZero: bool)
    requires Inv(s) && CanCollect(s, EndClear(sawZero))
    ensures Inv(Collect(s, EndClear(sawZero)))
  {
    BooksBack(s.n, s.c, s.c.pc.obj, if sawZero then RequiresReChecking else DefaultState);
  }

  /** Clearing a tag changes nothing but that tag. */
  ghost predicate OnlyTagsOf(m: Shared, m2: Shared, o: ObjId) {
    && m2 == m.(objs := m2.objs) && m2.objs.Keys == m.objs.Keys
    && o in m.objs && m2.objs[o] == m.objs[o].(counters := m2.objs[o].counters)
    && (forall x :: x in m.objs && x != o ==> m2.objs[x] == m.objs[x])
  }

  lemma AbandonedSame(m: Shared, m2: Shared, o: ObjId, x: ObjId)
    requires OnlyTagsOf(m, m2, o)
    ensures Owned(m2, x) <==> Owned(m, x)
    ensures BackLive(m2, x) <==> BackLive(m, x)
    ensures Abandoned(m2, x) <==> Abandoned(m, x)
  {
  }

  lemma TagsTraces(m: Shared, m2: Shared, o: ObjId, todo: set<ObjId>, oldReaders: set<ThreadId>, ownedSince: set<ObjId>)
    requires OnlyTagsOf(m, m2, o) && o !in todo
    requires Traces(m, todo, ownedSince) && Readers(m, todo, oldReaders, ownedSince)
    ensures Traces(m2, todo, ownedSince) && Readers(m2, todo, oldReaders, ownedSince)
  {
    forall x ensures Owned(m2, x) <==> Owned(m, x) {
      AbandonedSame(m, m2, o, x);
    }
    forall t | t in m2.pcs && m2.pcs[t].Holding? ensures HoldingOk(m2, todo, oldReaders, ownedSince, t) {
      assert HoldingOk(m, todo, oldReaders, ownedSince, t);
      AbandonedSame(m, m2, o, m.pcs[t].obj);
    }
  }

  lemma TagsVerdicts(m: Shared, m2: Shared, o: ObjId, verdicts: map<ObjId, FirstRead>, toFree: set<ObjId>)
    requires OnlyTagsOf(m, m2, o) && Verdicts(m, verdicts, toFree)
    ensures Verdicts(m2, verdicts, toFree)
  {
    forall x | x in verdicts ensures VerdictOk(m2, verdicts, x) {
      AbandonedSame(m, m2, o, x);
      if m.objs[x].weakOf.Some? {
        AbandonedSame(m, m2, o, m.objs[x].weakOf.value);
      }
    }
  }

  lemma TagsRest(m: Shared, m2: Shared, o: ObjId, pending: set<ObjId>, tracked: set<ObjId>,
                 unseen: set<nat>, oldReaders: set<ThreadId>, clears: map<ObjId, FirstRead>)
    requires OnlyTagsOf(m, m2, o)
    requires Tracking(m, pending, tracked) && Grace(m, unseen, oldReaders) && Clears(m, clears)
    ensures Tracking(m2, pending, tracked) && Grace(m2, unseen, oldReaders) && Clears(m2, clears)
  {
  }

  lemma ClearTagLedger(n: nat, m: Shared, o: ObjId, k: nat)
    requires Ledger(n, m) && HasCounter(m, o, k)
    ensures Ledger(n, SetCounter(m, o, k, m.objs[o].counters[k].TagCleared()))
  {
    var m2 := SetCounter(m, o, k, m.objs[o].counters[k].TagCleared());
    SetCounterShape(n, m, o, k, m.objs[o].counters[k].TagCleared());
    forall x | x in m2.objs ensures Balance(m2, x) == 0 {
      SetCounterBalance(m, o, k, m.objs[o].counters[k].TagCleared(), x);
      assert Balance(m, x) == 0;
    }
    forall i | 0 <= i < n ensures m2.section[i] == |ReadersAt(m2, i)| {
      assert ReadersAt(m2, i) == ReadersAt(m, i);
    }
  }

  lemma ClearTagInv(s: State)
    requires Inv(s) && CanCollect(s, ClearTag)
    ensures Inv(Collect(s, ClearTag))
  {
    hide Balanced, SectionsCounted, WeakLinked, MemoryDistinct, Traces, Readers, Verdicts, Clears, Tracking, Grace;
    var c, o := s.c, s.c.pc.obj;
    var s2 := Collect(s, ClearTag);
    assert OnlyTagsOf(s.m, s2.m, o);
    ClearTagLedger(s.n, s.m, o, c.pc.k);
    TagsTraces(s.m, s2.m, o, c.todo, c.oldReaders, c.ownedSince);
    TagsVerdicts(s.m, s2.m, o, c.verdicts, c.toFree);
    TagsRest(s.m, s2.m, o, c.pending, c.tracked.Keys, {}, c.oldReaders, c.clears);
    assert Bookkeeping(s.n, s2.c);
  }

  // ----- stage two: the re-check

  lemma DebtMeansOwned(n: nat, m: Shared, o: ObjId)
    requires WellFormed(n, m) && |Debtors(m, o)| > 0
    ensures |Holders(m, o)| > 0
  {
    var t :| t in Debtors(m, o);
    assert PcOk(n, m, m.pcs[t]);
    assert Handle(m.pcs[t].borrowed) in Holders(m, o);
  }

  lemma NoHolders(m: Shared, o: ObjId)
    ensures |Holders(m, o)| == 0 <==> !Owned(m, o)
  {
    if Owned(m, o) {
      var k :| k in m.owners && m.owners[k] == o;
      assert k in Holders(m, o);
    } else {
      assert Holders(m, o) == {};
    }
  }

  /** At the first read after a full spin, an object without tag and without
      owner is held by no reader, unless its weak part still points to it. */
  lemma QuietAtFirstRead(m: Shared, todo: set<ObjId>, ownedSince: set<ObjId>, o: ObjId)
    requires Traces(m, todo, ownedSince) && Readers(m, todo, {}, ownedSince)
    requires o in todo && o in m.objs
    requires !AnyTag(m.objs[o].counters) && !Owned(m, o) && !BackLive(m, o)
    ensures Abandoned(m, o)
  {
    assert o !in ownedSince;
    forall t | t in m.pcs && m.pcs[t].Holding? ensures m.pcs[t].obj != o {
      assert HoldingOk(m, todo, {}, ownedSince, t);
    }
  }

  /** A weak part nobody owns has lost its object. */
  lemma ParentAtFirstRead(m: Shared, verdicts: map<ObjId, FirstRead>, toFree: set<ObjId>, o: ObjId)
    requires WeakLinked(m) && Verdicts(m, verdicts, toFree)
    requires o in m.objs && !Owned(m, o) && m.objs[o].weakOf.Some?
    ensures ParentFreed(m, o)
    ensures ParentClean(m, verdicts, o) ==> Abandoned(m, m.objs[o].weakOf.value)
  {
    var p := m.objs[o].weakOf.value;
    assert p in m.objs && m.objs[p].weak == Some(o);
    assert WeakField(p) !in m.owners;
    assert m.objs[p].freed && p in verdicts;
    assert VerdictOk(m, verdicts, p);
  }

  lemma FirstReadSighted(s: State, o: ObjId)
    requires Inv(s) && CanCollect(s, StartRecheck(o))
    ensures Sighted(s.m, s.c.verdicts, o, Look(s.m, o))
  {
    var first := Look(s.m, o);
    if first.debt > 0 {
      DebtMeansOwned(s.n, s.m, o);
    }
    if !AnyTag(first.base) && first.owners == 0 {
      NoHolders(s.m, o);
      if s.m.objs[o].weakOf.Some? {
        ParentAtFirstRead(s.m, s.c.verdicts, s.c.toFree, o);
      }
      assert s.c.oldReaders == {};
      if !BackLive(s.m, o) {
        QuietAtFirstRead(s.m, s.c.todo, s.c.ownedSince, o);
      }
    }
  }

  lemma StartRecheckInv(s: State, o: ObjId)
    requires Inv(s) && CanCollect(s, StartRecheck(o))
    ensures Inv(Collect(s, StartRecheck(o)))
  {
    var s2 := Collect(s, StartRecheck(o));
    FirstReadSighted(s, o);
    FewerTodo(s.m, s.c.todo, s.c.todo - {o}, s.c.oldReaders, s.c.ownedSince);
    assert s2.c.pc.first.base[..0] == [];
    assert Reads(s2.c.pc.first.base, s.m.objs[o].counters, 0, 0);
    assert Bookkeeping(s.n, s2.c);
  }

  lemma ReadOne(base: seq<Counter>, cs: seq<Counter>, k: nat, acc: int)
    requires Reads(base, cs, k, acc) && k < |cs| && !cs[k].tag
    ensures Reads(base, cs, k + 1, acc + cs[k].count)
  {
    TotalExtend(base, k);
  }

  lemma ReadTaggedInv(s: State)
    requires CanCollect(s, ReadShard) && s.m.objs[s.c.pc.obj].counters[s.c.pc.k].tag && Inv(s)
    ensures Inv(Collect(s, ReadShard))
  {
    BooksBack(s.n, s.c, s.c.pc.obj, DefaultState);
  }

  lemma ReadUntaggedInv(s: State)
    requires CanCollect(s, ReadShard) && !s.m.objs[s.c.pc.obj].counters[s.c.pc.k].tag && Inv(s)
    ensures Inv(Collect(s, ReadShard))
  {
    var pc, s2 := s.c.pc, Collect(s, ReadShard);
    ReadOne(pc.first.base, s.m.objs[pc.obj].counters, pc.k, pc.acc);
    assert Bookkeeping(s.n, s2.c);
  }

  lemma ReadShardInv(s: State)
    requires Inv(s) && CanCollect(s, ReadShard)
    ensures Inv(Collect(s, ReadShard))
  {
    if s.m.objs[s.c.pc.obj].counters[s.c.pc.k].tag {
      ReadTaggedInv(s);
    } else {
      ReadUntaggedInv(s);
    }
  }

  /** The snapshot argument: the sum a re-check returns is at least the true
      total before its first read. */
  lemma SnapshotAtDecision(n: nat, m: Shared, verdicts: map<ObjId, FirstRead>, pc: CollectorPc)
    requires RecheckOk(n, m, verdicts, pc) && pc.Rechecking? && pc.k == n
    ensures !AnyTag(pc.first.base)
    ensures pc.acc >= pc.first.owners - pc.first.debt
    ensures pc.acc == 0 ==> Exact(pc.first)
  {
    assert pc.first.base[..n] == pc.first.base;
  }

  // ----- clearing the way back

  lemma ClearBackRefShape(n: nat, m: Shared, o: ObjId)
    requires Shape(n, m) && BackLive(m, o)
    ensures Shape(n, ClearBackRef(m, o))
  {
    var m2 := ClearBackRef(m, o);
    forall t | t in m2.pcs ensures PcOk(n, m2, m2.pcs[t]) {
      assert PcOk(n, m, m.pcs[t]);
    }
  }

  lemma ClearBackRefLedger(n: nat, m: Shared, o: ObjId)
    requires Ledger(n, m) && BackLive(m, o)
    ensures Ledger(n, ClearBackRef(m, o))
  {
    var m2 := ClearBackRef(m, o);
    ClearBackRefShape(n, m, o);
    forall x | x in m2.objs ensures Balance(m2, x) == 0 {
      assert Debtors(m2, x) == Debtors(m, x);
      assert Balance(m, x) == 0;
    }
    forall i | 0 <= i < n ensures m2.section[i] == |ReadersAt(m2, i)| {
      assert ReadersAt(m2, i) == ReadersAt(m, i);
    }
  }

  /** Only o loses its way back. */
  lemma ClearBackRefLinks(m: Shared, o: ObjId, x: ObjId)
    requires WeakLinked(m) && BackLive(m, o) && x != o
    ensures BackLive(ClearBackRef(m, o), x) <==> BackLive(m, x)
  {
    var w := m.objs[o].weak.value;
    if x in m.objs && m.objs[x].weak.Some? {
      assert m.objs[x].weak.value != w;
    }
  }

  lemma ClearBackRefTraces(m: Shared, o: ObjId, todo: set<ObjId>, oldReaders: set<ThreadId>, ownedSince: set<ObjId>)
    requires WeakLinked(m) && BackLive(m, o) && o !in todo
    requires Traces(m, todo, ownedSince) && Readers(m, todo, oldReaders, ownedSince)
    ensures Traces(ClearBackRef(m, o), todo, ownedSince)
    ensures Readers(ClearBackRef(m, o), todo, oldReaders, ownedSince)
  {
    var m2 := ClearBackRef(m, o);
    assert forall x :: Owned(m2, x) <==> Owned(m, x);
    forall t | t in m2.pcs && m2.pcs[t].Holding? ensures HoldingOk(m2, todo, oldReaders, ownedSince, t) {
      assert HoldingOk(m, todo, oldReaders, ownedSince, t);
      if m.pcs[t].obj != o {
        ClearBackRefLinks(m, o, m.pcs[t].obj);
      }
    }
  }

  lemma ClearBackRefVerdicts(m: Shared, o: ObjId, verdicts: map<ObjId, FirstRead>, toFree: set<ObjId>)
    requires BackLive(m, o) && Verdicts(m, verdicts, toFree)
    ensures Verdicts(ClearBackRef(m, o), verdicts, toFree)
  {
    var m2 := ClearBackRef(m, o);
    forall y | Abandoned(m, y) ensures Abandoned(m2, y) {
      assert BackLive(m2, y) ==> BackLive(m, y);
    }
    assert KeepsAbandoned(m, m2);
    forall x | x in verdicts ensures VerdictOk(m2, verdicts, x) {
      assert VerdictOk(m, verdicts, x);
      if Unreachable(m, x) {
        KeepsUnreachable(m, m2, x);
      }
    }
  }

  lemma ClearBackRefRest(m: Shared, o: ObjId, pending: set<ObjId>, tracked: set<ObjId>, clears: map<ObjId, FirstRead>,
                         first: FirstRead)
    requires WeakLinked(m) && BackLive(m, o) && Tracking(m, pending, tracked) && Clears(m, clears) && Exact(first)
    ensures Tracking(ClearBackRef(m, o), pending, tracked) && Clears(ClearBackRef(m, o), clears[o := first])
  {
  }

  lemma DecideClearTraces(s: State)
    requires Inv(s) && CanCollect(s, Decide) && s.c.pc.acc == 0 && BackLive(s.m, s.c.pc.obj)
    ensures var m2 := ClearBackRef(s.m, s.c.pc.obj);
            && Traces(m2, s.c.todo, s.c.ownedSince)
            && Readers(m2, s.c.todo, s.c.oldReaders, s.c.ownedSince)
  {
    ClearBackRefTraces(s.m, s.c.pc.obj, s.c.todo, s.c.oldReaders, s.c.ownedSince);
  }

  lemma DecideClearRecords(s: State)
    requires Inv(s) && CanCollect(s, Decide) && s.c.pc.acc == 0 && BackLive(s.m, s.c.pc.obj)
    ensures var m2 := ClearBackRef(s.m, s.c.pc.obj);
            && Tracking(m2, s.c.pending, s.c.tracked.Keys)
            && Grace(m2, {}, s.c.oldReaders)
            && Verdicts(m2, s.c.verdicts, s.c.toFree)
            && Clears(m2, s.c.clears[s.c.pc.obj := s.c.pc.first])
  {
    var c, m, o := s.c, s.m, s.c.pc.obj;
    SnapshotAtDecision(s.n, m, c.verdicts, c.pc);
    ClearBackRefVerdicts(m, o, c.verdicts, c.toFree);
    ClearBackRefRest(m, o, c.pending, c.tracked.Keys, c.clears, c.pc.first);
  }

  lemma BooksCleared(n: nat, c: Collector, o: ObjId, clears: map<ObjId, FirstRead>)
    requires AtWork(n, c, o)
    ensures Bookkeeping(n, c.(pc := Updating, clears := clears))
  {
  }

  lemma DecideClearInv(s: State)
    requires Inv(s) && CanCollect(s, Decide) && s.c.pc.acc == 0 && BackLive(s.m, s.c.pc.obj)
    ensures Inv(Decision(s))
  {
    ClearBackRefLedger(s.n, s.m, s.c.pc.obj);
    DecideClearTraces(s);
    DecideClearRecords(s);
    BooksCleared(s.n, s.c, s.c.pc.obj, s.c.clears[s.c.pc.obj := s.c.pc.first]);
  }

  // ----- ready to free

  lemma NewVerdict(m: Shared, verdicts: map<ObjId, FirstRead>, toFree: set<ObjId>, o: ObjId, first: FirstRead)
    requires Verdicts(m, verdicts, toFree) && o in m.objs && !m.objs[o].freed && o !in toFree
    requires Sighted(m, verdicts, o, first) && Exact(first) && !AnyTag(first.base) && !BackLive(m, o)
    ensures Verdicts(m, verdicts[o := first], toFree + {o})
  {
    var verdicts2 := verdicts[o := first];
    forall x | x in verdicts2 ensures VerdictOk(m, verdicts2, x) {
      if x != o {
        assert VerdictOk(m, verdicts, x);
      }
      // a freed parent has its verdict already, so this one is not its
      assert ParentFreed(m, x) ==> (ParentClean(m, verdicts2, x) <==> ParentClean(m, verdicts, x));
    }
  }

  lemma DecideReadyInv(s: State)
    requires Inv(s) && CanCollect(s, Decide) && s.c.pc.acc == 0 && !BackLive(s.m, s.c.pc.obj)
    ensures Inv(Decision(s))
  {
    var c, m, o := s.c, s.m, s.c.pc.obj;
    SnapshotAtDecision(s.n, m, c.verdicts, c.pc);
    NewVerdict(m, c.verdicts, c.toFree, o, c.pc.first);
    BooksReady(s.n, c, o, c.verdicts[o := c.pc.first]);
  }

  lemma DecideBackInv(s: State)
    requires Inv(s) && CanCollect(s, Decide) && s.c.pc.acc != 0
    ensures Inv(Decision(s))
  {
    hide Ledger, Traces, Readers, Verdicts, Clears, Tracking, Grace;
    BooksBack(s.n, s.c, s.c.pc.obj, DefaultState);
  }

  lemma DecideInv(s: State)
    requires Inv(s) && CanCollect(s, Decide)
    ensures Inv(Collect(s, Decide))
  {
    if s.c.pc.acc != 0 {
      DecideBackInv(s);
    } else if BackLive(s.m, s.c.pc.obj) {
      DecideClearInv(s);
    } else {
      DecideReadyInv(s);
    }
  }

  // ----- freeing

  lemma ReleaseOwned(m: Shared, o: ObjId, h: nat, x: ObjId)
    requires o in m.objs && Handle(h) !in m.owners
    ensures Owned(Release(m, o, h), x) <==> Owned(m, x)
  {
    var m2 := Release(m, o, h);
    if Owned(m, x) {
      var k :| k in m.owners && m.owners[k] == x;
      if k == WeakField(o) {
        assert Handle(h) in m2.owners && m2.owners[Handle(h)] == x;
      } else {
        assert k in m2.owners && m2.owners[k] == x;
      }
    }
  }

  lemma ReleaseReachability(m: Shared, o: ObjId, h: nat, x: ObjId)
    requires o in m.objs && Handle(h) !in m.owners
    ensures BackLive(Release(m, o, h), x) <==> BackLive(m, x)
    ensures Abandoned(Release(m, o, h), x) <==> Abandoned(m, x)
  {
    ReleaseOwned(m, o, h, x);
    assert HeldByReader(Release(m, o, h), x) <==> HeldByReader(m, x);
  }

  lemma ReleaseBalance(m: Shared, o: ObjId, h: nat, x: ObjId)
    requires o in m.objs && Handle(h) !in m.owners && x in m.objs
    ensures Balance(Release(m, o, h), x) == Balance(m, x)
  {
    var m1 := m.(objs := m.objs[o := m.objs[o].(freed := true)]);
    assert Debtors(m1, x) == Debtors(m, x);
    if WeakField(o) in m.owners {
      DropOwnerBalance(m1, WeakField(o), x);
      AddOwnerBalance(DropOwner(m1, WeakField(o)), Handle(h), m.owners[WeakField(o)], x);
    }
  }

  lemma ReleaseShape(n: nat, m: Shared, o: ObjId, h: nat)
    requires Shape(n, m) && o in m.objs && Handle(h) !in m.owners
    ensures Shape(n, Release(m, o, h))
  {
    hide WellFormed, WeakLinked, MemoryDistinct, Release;
    ReleaseWellFormed(n, m, o, h);
    ReleaseLinked(m, o, h);
    ReleaseDistinct(m, o, h);
  }

  lemma ReleaseWellFormed(n: nat, m: Shared, o: ObjId, h: nat)
    requires WellFormed(n, m) && o in m.objs && Handle(h) !in m.owners
    ensures WellFormed(n, Release(m, o, h))
  {
    var m2 := Release(m, o, h);
    forall t | t in m.pcs ensures PcOk(n, m2, m.pcs[t]) {
      assert PcOk(n, m, m.pcs[t]);
    }
  }

  lemma ReleaseDistinct(m: Shared, o: ObjId, h: nat)
    requires MemoryDistinct(m) && o in m.objs
    ensures MemoryDistinct(Release(m, o, h))
  {
  }

  lemma ReleaseLinked(m: Shared, o: ObjId, h: nat)
    requires WeakLinked(m) && o in m.objs && Handle(h) !in m.owners
    ensures WeakLinked(Release(m, o, h))
  {
  }

  lemma ReleaseLedger(n: nat, m: Shared, o: ObjId, h: nat)
    requires Ledger(n, m) && o in m.objs && Handle(h) !in m.owners
    ensures Ledger(n, Release(m, o, h))
  {
    hide WeakLinked, MemoryDistinct;
    var m2 := Release(m, o, h);
    ReleaseShape(n, m, o, h);
    forall x | x in m2.objs ensures Balance(m2, x) == 0 {
      ReleaseBalance(m, o, h, x);
      assert Balance(m, x) == 0;
    }
    forall i | 0 <= i < n ensures m2.section[i] == |ReadersAt(m2, i)| {
      assert ReadersAt(m2, i) == ReadersAt(m, i);
    }
  }

  lemma ReleaseTraces(m: Shared, o: ObjId, h: nat, oldReaders: set<ThreadId>, ownedSince: set<ObjId>)
    requires o in m.objs && Handle(h) !in m.owners
    requires Traces(m, {}, ownedSince) && Readers(m, {}, oldReaders, ownedSince)
    ensures Traces(Release(m, o, h), {}, ownedSince) && Readers(Release(m, o, h), {}, oldReaders, ownedSince)
  {
    var m2 := Release(m, o, h);
    forall x ensures Owned(m2, x) <==> Owned(m, x) {
      ReleaseOwned(m, o, h, x);
    }
    forall t | t in m2.pcs && m2.pcs[t].Holding? ensures HoldingOk(m2, {}, oldReaders, ownedSince, t) {
      assert HoldingOk(m, {}, oldReaders, ownedSince, t);
    }
  }

  lemma ReleaseVerdicts(m: Shared, o: ObjId, h: nat, verdicts: map<ObjId, FirstRead>, toFree: set<ObjId>)
    requires o in m.objs && Handle(h) !in m.owners && o in toFree && Verdicts(m, verdicts, toFree)
    ensures Verdicts(Release(m, o, h), verdicts, toFree - {o})
  {
    var m2 := Release(m, o, h);
    forall x | x in verdicts ensures VerdictOk(m2, verdicts, x) {
      assert VerdictOk(m, verdicts, x);
      ReleaseReachability(m, o, h, x);
      if m.objs[x].weakOf.Some? {
        ReleaseReachability(m, o, h, m.objs[x].weakOf.value);
      }
    }
  }

  lemma ReleaseRest(m: Shared, o: ObjId, h: nat, pending: set<ObjId>, tracked: set<ObjId>, clears: map<ObjId, FirstRead>)
    requires o in tracked && Tracking(m, pending, tracked) && Clears(m, clears)
    ensures o in m.objs && Tracking(Release(m, o, h), pending, tracked - {o}) && Clears(Release(m, o, h), clears)
  {
  }

  lemma FreeOneTraces(s: State, o: ObjId, h: nat)
    requires Inv(s) && CanCollect(s, FreeOne(o, h))
    ensures var m2 := Release(s.m, o, h);
            && Traces(m2, s.c.todo, s.c.ownedSince)
            && Readers(m2, s.c.todo, s.c.oldReaders, s.c.ownedSince)
  {
    hide Ledger, Verdicts, Clears, Tracking, Grace, RecheckOk;
    assert s.c.todo == {};
    ReleaseTraces(s.m, o, h, s.c.oldReaders, s.c.ownedSince);
  }

  lemma FreeOneRecords(s: State, o: ObjId, h: nat)
    requires Inv(s) && CanCollect(s, FreeOne(o, h))
    ensures var m2 := Release(s.m, o, h);
            && Tracking(m2, s.c.pending, s.c.tracked.Keys - {o})
            && Grace(m2, {}, s.c.oldReaders)
            && Verdicts(m2, s.c.verdicts, s.c.toFree - {o})
            && Clears(m2, s.c.clears)
  {
    ReleaseVerdicts(s.m, o, h, s.c.verdicts, s.c.toFree);
    ReleaseRest(s.m, o, h, s.c.pending, s.c.tracked.Keys, s.c.clears);
  }

  lemma FreeOneInv(s: State, o: ObjId, h: nat)
    requires Inv(s) && CanCollect(s, FreeOne(o, h))
    ensures Inv(Collect(s, FreeOne(o, h)))
  {
    ReleaseLedger(s.n, s.m, o, h);
    FreeOneTraces(s, o, h);
    FreeOneRecords(s, o, h);
    BooksFree(s.n, s.c, o);
  }

  // ----- every step

  lemma CollectInv(s: State, a: CollectorStep)
    requires Inv(s) && CanCollect(s, a)
    ensures Inv(Collect(s, a))
  {
    match a
    case TakePending(taken) => TakePendingInv(s, taken);
    case StartPass(todo) => StartPassInv(s, todo);
    case ObserveEmpty(i) => ObserveEmptyInv(s, i);
    case EndSpin => EndSpinInv(s);
    case Skip(o) => SkipInv(s, o);
    case StartClear(o) => StartClearInv(s, o);
    case ClearTag => ClearTagInv(s);
    case EndClear(sawZero) => EndClearInv(s, sawZero);
    case StartRecheck(o) => StartRecheckInv(s, o);
    case ReadShard => ReadShardInv(s);
    case Decide => DecideInv(s);
    case StartFree => StartFreeInv(s);
    case FreeOne(o, h) => FreeOneInv(s, o, h);
    case EndPass => EndPassInv(s);
  }

  lemma NextInv(s: State, a: Action)
    requires Inv(s) && Enabled(s, a)
    ensures Inv(Next(s, a))
  {
    match a
    case Mut(x) => MutatorInv(s, x);
    case Col(x) => CollectInv(s, x);
  }

  lemma MomentInv(run: Run, k: nat)
    requires StepAt(run, k) && Inv(run.states[k])
    ensures Inv(run.states[k + 1]) && run.states[k + 1].n == run.states[k].n
  {
    hide Inv, Next, Enabled;
    NextInv(run.states[k], run.acts[k]);
    SameShards(run.states[k], run.acts[k]);
  }

  lemma SameShards(s: State, a: Action)
    requires Enabled(s, a)
    ensures Next(s, a).n == s.n
  {
  }

  /** The invariant holds in every state of every run. */
  lemma {:induction false} RunInv(n: nat, run: Run, k: nat)
    requires n >= 1 && IsRun(n, run) && k < |run.states|
    ensures Inv(run.states[k]) && run.states[k].n == n
  {
    hide Inv, Next, Enabled;
    if k == 0 {
      InitialInv(n);
    } else {
      RunInv(n, run, k - 1);
      assert StepAt(run, k - 1);
      MomentInv(run, k - 1);
    }
  }
}
