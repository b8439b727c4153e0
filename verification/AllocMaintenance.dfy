/**
 The whole allocator: one group of units per shard and the filling group that
 stands in for a shard's group while the collector maintains it. Threads allocate
 under their shard's lock and free without any lock; the collector reads one flag
 at a time. Steps of all of them interleave freely.
 */
module AllocMaintenance {
  import opened Counting
  import opened AllocLayout
  import opened AllocGroup

  datatype Group = Group(units: seq<nat>, toCheck: seq<nat>)

  /** Where the collector is in its maintenance. Round i < n is shard i's, round n
      the filling group's own; the group under maintenance is the last one. */
  datatype Pc =
    | Resting
    | SwapOut(i: nat)
    | Scan(i: nat, k: nat, s: nat)       // about to read flag s of unit k: is any slot used?
    | Dropping(i: nat, k: nat, s: nat)   // about to read flag s of unit k in its drop assertion
    | Relist(i: nat, k: nat, s: nat)     // about to read flag s of unit k: is any slot free?
    | SwapBack(i: nat)

  datatype State = State(
    memory: map<nat, seq<bool>>,   // the live units' flags, by address
    groups: seq<Group>,            // the shards' groups, then the filling group
    locks: seq<Option<nat>>,       // a locked shard's allocating thread tries this slot next
    outstanding: set<Ptr>,         // handed out and not yet freed
    pc: Pc,
    failed: bool)                  // some assertion or bounds check failed

  datatype Step =
    | Lock(i: nat)
    | TrySlot(i: nat)
    | MakeUnit(i: nat, base: nat)
    | Free(p: Ptr)
    | Collect

  function Shards(st: State): nat {
    |st.locks|
  }

  /** The system allocator hands out memory that no live unit occupies. */
  predicate FreshMemory(st: State, base: nat) {
    forall b :: b in st.memory ==> UnitsApart(b, base, Shards(st))
  }

  predicate Enabled(st: State, step: Step) {
    && |st.groups| == Shards(st) + 1
    && !st.failed
    && match step
       case Lock(i) => i < Shards(st) && st.locks[i].None?
       case TrySlot(i) => i < Shards(st) && st.locks[i].Some? && st.groups[i].toCheck != []
       case MakeUnit(i, base) =>
         i < Shards(st) && st.locks[i].Some? && st.groups[i].toCheck == [] && FreshMemory(st, base)
       case Free(p) => p in st.outstanding
       case Collect =>
         match st.pc
         case SwapOut(i) => i < Shards(st) && st.locks[i].None?
         case SwapBack(i) => i < Shards(st) && st.locks[i].None?
         case _ => true
  }

  function Fail(st: State): State {
    st.(failed := true)
  }

  /** A live unit's flag, or nothing where there is no such unit. */
  function FlagAt(st: State, base: nat, s: nat): Option<bool> {
    if base in st.memory && s < |st.memory[base]| then Some(st.memory[base][s]) else None
  }

  function SetFlag(st: State, p: Ptr, value: bool): map<nat, seq<bool>>
    requires FlagAt(st, p.base, p.slot).Some?
  {
    st.memory[p.base := st.memory[p.base][p.slot := value]]
  }

  function Swapped(groups: seq<Group>, i: nat): seq<Group>
    requires i < |groups|
  {
    groups[i := groups[|groups| - 1]][|groups| - 1 := groups[i]]
  }

  /** The unit the allocation in shard i tries: the first on the list. */
  function Listed(st: State, i: nat): Option<nat>
    requires i < |st.groups| && st.groups[i].toCheck != []
  {
    var g := st.groups[i];
    if g.toCheck[0] < |g.units| then Some(g.units[g.toCheck[0]]) else None
  }

  function TryNext(st: State, i: nat): State
    requires Enabled(st, TrySlot(i))
  {
    var s := st.locks[i].value;
    var unit := Listed(st, i);
    if unit.None? || FlagAt(st, unit.value, s).None? then Fail(st)
    else if FlagAt(st, unit.value, s) == Some(false) then
      var p := Ptr(unit.value, s);
      st.(memory := SetFlag(st, p, true), outstanding := st.outstanding + {p}, locks := st.locks[i := None])
    else if s + 1 < SLOT_COUNT_PER_UNIT then
      st.(locks := st.locks[i := Some(s + 1)])
    else
      var g := st.groups[i];
      st.(groups := st.groups[i := g.(toCheck := SwapRemoveFirst(g.toCheck))], locks := st.locks[i := Some(0)])
  }

  function AddUnit(st: State, i: nat, base: nat): State
    requires Enabled(st, MakeUnit(i, base))
  {
    var g := st.groups[i];
    st.(memory := st.memory[base := NewUnit(base).flags[0 := true]],
        outstanding := st.outstanding + {Ptr(base, 0)},
        groups := st.groups[i := Group(g.units + [base], g.toCheck + [|g.units|])],
        locks := st.locks[i := None])
  }

  function FreeSlot(st: State, p: Ptr): State {
    if FlagAt(st, p.base, p.slot) == Some(true)
    then st.(memory := SetFlag(st, p, false), outstanding := st.outstanding - {p})
    else Fail(st)
  }

  function StartRound(st: State, i: nat): Pc {
    if i < Shards(st) then SwapOut(i) else Scan(Shards(st), 0, 0)
  }

  function EndRound(st: State, i: nat): Pc {
    if i < Shards(st) then SwapBack(i) else Resting
  }

  function ScanStep(st: State): State
    requires Enabled(st, Collect) && st.pc.Scan?
  {
    var Scan(i, k, s) := st.pc;
    var g := st.groups[Shards(st)];
    if k >= |g.units| then
      st.(groups := st.groups[Shards(st) := g.(toCheck := [])], pc := Relist(i, 0, 0))
    else match FlagAt(st, g.units[k], s)
      case None => Fail(st)
      case Some(true) => st.(pc := Scan(i, k + 1, 0))
      case Some(false) => st.(pc := if s + 1 < SLOT_COUNT_PER_UNIT then Scan(i, k, s + 1) else Dropping(i, k, 0))
  }

  function DropStep(st: State): State
    requires Enabled(st, Collect) && st.pc.Dropping?
  {
    var Dropping(i, k, s) := st.pc;
    var g := st.groups[Shards(st)];
    if k >= |g.units| then Fail(st)
    else if s < SLOT_COUNT_PER_UNIT then
      if FlagAt(st, g.units[k], s) == Some(false) then st.(pc := Dropping(i, k, s + 1)) else Fail(st)
    else
      st.(memory := st.memory - {g.units[k]},
          groups := st.groups[Shards(st) := g.(units := g.units[..k] + g.units[k + 1..])],
          pc := Scan(i, k, 0))
  }

  function RelistStep(st: State): State
    requires Enabled(st, Collect) && st.pc.Relist?
  {
    var Relist(i, k, s) := st.pc;
    var g := st.groups[Shards(st)];
    if k >= |g.units| then st.(pc := EndRound(st, i))
    else match FlagAt(st, g.units[k], s)
      case None => Fail(st)
      case Some(false) =>
        st.(groups := st.groups[Shards(st) := g.(toCheck := g.toCheck + [k])], pc := Relist(i, k + 1, 0))
      case Some(true) =>
        st.(pc := if s + 1 < SLOT_COUNT_PER_UNIT then Relist(i, k, s + 1) else Relist(i, k + 1, 0))
  }

  function CollectorNext(st: State): State
    requires Enabled(st, Collect)
  {
    match st.pc
    case Resting => st.(pc := StartRound(st, 0))
    case SwapOut(i) => st.(groups := Swapped(st.groups, i), pc := Scan(i, 0, 0))
    case Scan(_, _, _) => ScanStep(st)
    case Dropping(_, _, _) => DropStep(st)
    case Relist(_, _, _) => RelistStep(st)
    case SwapBack(i) => st.(groups := Swapped(st.groups, i), pc := StartRound(st, i + 1))
  }

  function Next(st: State, step: Step): State
    requires Enabled(st, step)
  {
    match step
    case Lock(i) => st.(locks := st.locks[i := Some(0)])
    case TrySlot(i) => TryNext(st, i)
    case MakeUnit(i, base) => AddUnit(st, i, base)
    case Free(p) => FreeSlot(st, p)
    case Collect => CollectorNext(st)
  }

  function Initial(n: nat): State {
    State(map[], seq(n + 1, _ => Group([], [])), seq(n, _ => None), {}, Resting, false)
  }

  // ----- the units of all groups, counted with their multiplicity

  function AllUnits(groups: seq<Group>): multiset<nat> {
    if groups == [] then multiset{}
    else AllUnits(groups[..|groups| - 1]) + multiset(groups[|groups| - 1].units)
  }

  lemma {:induction false} AllUnitsUpdate(groups: seq<Group>, i: nat, g: Group)
    requires i < |groups|
    ensures multiset(groups[i].units) <= AllUnits(groups)
    ensures AllUnits(groups[i := g]) == AllUnits(groups) - multiset(groups[i].units) + multiset(g.units)
  {
    var last := |groups| - 1;
    var after := groups[i := g];
    if i < last {
      assert after[..last] == groups[..last][i := g];
      AllUnitsUpdate(groups[..last], i, g);
    } else {
      assert after[..last] == groups[..last];
    }
  }

  lemma CancelOut(all: multiset<nat>, x: multiset<nat>, y: multiset<nat>)
    requires x <= all
    ensures all - x + y - y + x == all
  {
  }

  lemma AllUnitsSwapped(groups: seq<Group>, i: nat)
    requires i < |groups|
    ensures AllUnits(Swapped(groups, i)) == AllUnits(groups)
  {
    hide AllUnits;
    var last := |groups| - 1;
    if i < last {
      var once := groups[i := groups[last]];
      AllUnitsUpdate(groups, i, groups[last]);
      AllUnitsUpdate(once, last, groups[i]);
      assert once[last] == groups[last];
      CancelOut(AllUnits(groups), multiset(groups[i].units), multiset(groups[last].units));
    } else {
      assert Swapped(groups, i) == groups;
    }
  }

  lemma {:induction false} EmptyGroups(n: nat)
    ensures AllUnits(seq(n, _ => Group([], []))) == multiset{}
  {
    if n > 0 {
      EmptyGroups(n - 1);
      var gs := seq(n, _ => Group([], []));
      assert gs[..n - 1] == seq(n - 1, _ => Group([], []));
      assert gs[n - 1].units == [];
    }
  }

  /** Unit b is at position k of group g. */
  predicate UnitAt(groups: seq<Group>, g: nat, k: nat, b: nat) {
    g < |groups| && k < |groups[g].units| && groups[g].units[k] == b
  }

  lemma TwiceInSeq(s: seq<nat>, j: nat, k: nat)
    requires j < k < |s| && s[j] == s[k]
    ensures multiset(s)[s[j]] >= 2
  {
    assert s == s[..k] + s[k..];
    assert s[..k][j] == s[j] && s[k..][0] == s[j];
    assert multiset(s[..k])[s[j]] >= 1 && multiset(s[k..])[s[j]] >= 1;
  }

  /** Units on one group's list count among all units. */
  lemma {:induction false} CountsInGroup(groups: seq<Group>, g: nat, b: nat)
    requires g < |groups|
    ensures AllUnits(groups)[b] >= multiset(groups[g].units)[b]
  {
    var last := |groups| - 1;
    if g < last {
      CountsInGroup(groups[..last], g, b);
    }
  }

  lemma {:induction false} CountsInTwoGroups(groups: seq<Group>, g: nat, h: nat, b: nat)
    requires g < h < |groups|
    ensures AllUnits(groups)[b] >= multiset(groups[g].units)[b] + multiset(groups[h].units)[b]
  {
    var last := |groups| - 1;
    if h < last {
      CountsInTwoGroups(groups[..last], g, h, b);
    } else {
      CountsInGroup(groups[..last], g, b);
    }
  }

  /** Groups that hold no unit twice hold each in one place. */
  lemma OnePlace(groups: seq<Group>, g: nat, j: nat, h: nat, k: nat, b: nat)
    requires AllUnits(groups)[b] <= 1 && UnitAt(groups, g, j, b) && UnitAt(groups, h, k, b)
    ensures g == h && j == k
  {
    hide AllUnits;
    assert multiset(groups[g].units)[b] >= 1 && multiset(groups[h].units)[b] >= 1;
    if g < h {
      CountsInTwoGroups(groups, g, h, b);
    } else if h < g {
      CountsInTwoGroups(groups, h, g, b);
    } else {
      CountsInGroup(groups, g, b);
      if j < k {
        TwiceInSeq(groups[g].units, j, k);
      } else if k < j {
        TwiceInSeq(groups[g].units, k, j);
      }
    }
  }

  lemma {:induction false} SomePlace(groups: seq<Group>, b: nat) returns (g: nat, k: nat)
    requires b in AllUnits(groups)
    ensures UnitAt(groups, g, k, b)
  {
    var last := |groups| - 1;
    if b in groups[last].units {
      g := last;
      k :| 0 <= k < |groups[last].units| && groups[last].units[k] == b;
    } else {
      g, k := SomePlace(groups[..last], b);
    }
  }

  // ----- what every step keeps

  /** Exactly the live units, each once. */
  ghost predicate UnitsPartitioned(st: State) {
    AllUnits(st.groups) == multiset(st.memory.Keys)
  }

  ghost predicate FlagsOk(memory: map<nat, seq<bool>>, outstanding: set<Ptr>) {
    && (forall b :: b in memory ==> FlagsAgree(Unit(b, memory[b]), outstanding))
    && (forall p :: p in outstanding ==> p.slot < SLOT_COUNT_PER_UNIT && p.base in memory)
  }

  ghost predicate MemoryApart(st: State) {
    forall b, c :: b in st.memory && c in st.memory && b != c ==> UnitsApart(b, c, Shards(st))
  }

  ghost predicate ListOk(g: Group) {
    IndexListOk(g.toCheck, |g.units|)
  }

  ghost predicate ListsOk(st: State)
    requires |st.groups| == Shards(st) + 1
  {
    && (forall i :: 0 <= i < Shards(st) ==> ListOk(st.groups[i]))
    && (!st.pc.Scan? && !st.pc.Dropping? ==> ListOk(st.groups[Shards(st)]))
    && (forall i :: 0 <= i < Shards(st) && st.locks[i].Some? ==> st.locks[i].value < SLOT_COUNT_PER_UNIT)
  }

  /** What the collector's readings so far have told it is still so. */
  ghost predicate PcOk(st: State)
    requires |st.groups| == Shards(st) + 1
  {
    var g := st.groups[Shards(st)];
    match st.pc
    case Resting => true
    case SwapOut(i) => i < Shards(st)
    case Scan(i, k, s) =>
      && i <= Shards(st) && k <= |g.units| && s < SLOT_COUNT_PER_UNIT
      && (k < |g.units| ==> forall j: nat :: j < s ==> Ptr(g.units[k], j) !in st.outstanding)
    case Dropping(i, k, s) =>
      && i <= Shards(st) && k < |g.units| && s <= SLOT_COUNT_PER_UNIT && Empty(g.units[k], st.outstanding)
    case Relist(i, k, s) =>
      i <= Shards(st) && k <= |g.units| && s < SLOT_COUNT_PER_UNIT && IndexListOk(g.toCheck, k)
    case SwapBack(i) => i < Shards(st)
  }

  ghost predicate Inv(st: State) {
    && |st.groups| == Shards(st) + 1
    && UnitsPartitioned(st)
    && FlagsOk(st.memory, st.outstanding)
    && MemoryApart(st)
    && ListsOk(st)
    && PcOk(st)
    && !st.failed
  }

  /** A unit on any group's list of units is live. */
  lemma MemberIsLive(st: State, g: nat, k: nat)
    requires UnitsPartitioned(st) && g < |st.groups| && k < |st.groups[g].units|
    ensures st.groups[g].units[k] in st.memory
  {
    hide AllUnits;
    var b := st.groups[g].units[k];
    CountsInGroup(st.groups, g, b);
    assert b in multiset(st.groups[g].units);
  }

  lemma FlagReads(st: State, b: nat, s: nat)
    requires FlagsOk(st.memory, st.outstanding) && b in st.memory && s < SLOT_COUNT_PER_UNIT
    ensures FlagAt(st, b, s) == Some(Ptr(b, s) in st.outstanding)
  {
    assert FlagsAgree(Unit(b, st.memory[b]), st.outstanding);
  }

  lemma PartitionKept(st: State, i: nat, g: Group, st2: State)
    requires UnitsPartitioned(st) && i < |st.groups| && g.units == st.groups[i].units
    requires st2.groups == st.groups[i := g] && st2.memory.Keys == st.memory.Keys
    ensures UnitsPartitioned(st2)
  {
    hide AllUnits;
    AllUnitsUpdate(st.groups, i, g);
  }

  lemma ApartKept(st: State, st2: State)
    requires MemoryApart(st) && st2.memory.Keys <= st.memory.Keys && Shards(st2) == Shards(st)
    ensures MemoryApart(st2)
  {
    forall b | b in st2.memory ensures b in st.memory {
      assert b in st2.memory.Keys;
    }
  }

  lemma SetFlagOk(st: State, p: Ptr, value: bool)
    requires FlagsOk(st.memory, st.outstanding) && FlagAt(st, p.base, p.slot).Some?
    ensures FlagsOk(SetFlag(st, p, value), if value then st.outstanding + {p} else st.outstanding - {p})
    ensures SetFlag(st, p, value).Keys == st.memory.Keys
  {
    var after := if value then st.outstanding + {p} else st.outstanding - {p};
    var memory := SetFlag(st, p, value);
    assert FlagsAgree(Unit(p.base, st.memory[p.base]), st.outstanding);
    forall b | b in memory ensures FlagsAgree(Unit(b, memory[b]), after) {
      assert FlagsAgree(Unit(b, st.memory[b]), st.outstanding);
    }
  }

  lemma TryNextInv(st: State, i: nat)
    requires Inv(st) && Enabled(st, TrySlot(i))
    ensures Inv(Next(st, TrySlot(i)))
  {
    hide UnitsPartitioned, FlagsOk, MemoryApart, SetFlag;
    var st2 := Next(st, TrySlot(i));
    var g := st.groups[i];
    var s := st.locks[i].value;
    assert ListOk(g);
    MemberIsLive(st, i, g.toCheck[0]);
    var b := g.units[g.toCheck[0]];
    FlagReads(st, b, s);
    if FlagAt(st, b, s) == Some(false) {
      var p := Ptr(b, s);
      SetFlagOk(st, p, true);
      NotUnderMaintenance(st, i, g.toCheck[0], p);
      PartitionKept(st, i, g, st2);
    } else if s + 1 == SLOT_COUNT_PER_UNIT {
      SwapRemoveFirstOk(g.toCheck, |g.units|);
      PartitionKept(st, i, st2.groups[i], st2);
    } else {
      PartitionKept(st, i, g, st2);
    }
    ApartKept(st, st2);
  }

  /** A flag is set only in a shard's own group, never in the group the collector holds. */
  lemma NotUnderMaintenance(st: State, i: nat, k: nat, p: Ptr)
    requires Inv(st) && i < Shards(st) && UnitAt(st.groups, i, k, p.base)
    ensures PcOk(st.(outstanding := st.outstanding + {p}))
  {
    hide AllUnits, FlagsOk, MemoryApart, ListsOk;
    var held := st.groups[Shards(st)];
    if (st.pc.Scan? || st.pc.Dropping?) && st.pc.k < |held.units| && held.units[st.pc.k] == p.base {
      OnePlace(st.groups, i, k, Shards(st), st.pc.k, p.base);
    }
  }

  lemma MakeUnitInv(st: State, i: nat, base: nat)
    requires Inv(st) && Enabled(st, MakeUnit(i, base))
    ensures Inv(Next(st, MakeUnit(i, base)))
  {
    hide UnitsPartitioned, FlagsOk, AllUnits, NewUnit;
    var st2 := Next(st, MakeUnit(i, base));
    assert base !in st.memory by {
      assert base in st.memory ==> UnitsApart(base, base, Shards(st));
      assert DataLenInBytes(Shards(st)) > 0;
    }
    UnitAdded(st, i, base);
    NewUnitFlags(st, base);
    var held := st.groups[Shards(st)];
    if (st.pc.Scan? || st.pc.Dropping?) && st.pc.k < |held.units| {
      MemberIsLive(st, Shards(st), st.pc.k);
    }
  }

  lemma UnitAdded(st: State, i: nat, base: nat)
    requires Enabled(st, MakeUnit(i, base)) && UnitsPartitioned(st) && base !in st.memory
    ensures UnitsPartitioned(AddUnit(st, i, base))
  {
    hide AllUnits;
    var st2 := AddUnit(st, i, base);
    AllUnitsUpdate(st.groups, i, st2.groups[i]);
    assert st2.memory.Keys == st.memory.Keys + {base};
    assert multiset(st.groups[i].units + [base]) == multiset(st.groups[i].units) + multiset{base};
  }

  lemma NewUnitFlags(st: State, base: nat)
    requires FlagsOk(st.memory, st.outstanding) && base !in st.memory
    ensures FlagsOk(st.memory[base := NewUnit(base).flags[0 := true]], st.outstanding + {Ptr(base, 0)})
  {
    var memory := st.memory[base := NewUnit(base).flags[0 := true]];
    forall b | b in memory ensures FlagsAgree(Unit(b, memory[b]), st.outstanding + {Ptr(base, 0)}) {
      if b in st.memory {
        assert FlagsAgree(Unit(b, st.memory[b]), st.outstanding);
      }
    }
  }

  lemma FreeInv(st: State, p: Ptr)
    requires Inv(st) && Enabled(st, Free(p))
    ensures Inv(Next(st, Free(p)))
  {
    hide UnitsPartitioned, MemoryApart, SetFlag;
    var st2 := Next(st, Free(p));
    FlagReads(st, p.base, p.slot);
    SetFlagOk(st, p, false);
    PartitionKept(st, 0, st.groups[0], st2);
    ApartKept(st, st2);
  }

  lemma ScanInv(st: State)
    requires Inv(st) && Enabled(st, Collect) && st.pc.Scan?
    ensures Inv(Next(st, Collect))
  {
    hide UnitsPartitioned, MemoryApart, FlagsOk;
    var n := Shards(st);
    var g := st.groups[n];
    var st2 := Next(st, Collect);
    if st.pc.k < |g.units| {
      MemberIsLive(st, n, st.pc.k);
      FlagReads(st, g.units[st.pc.k], st.pc.s);
    }
    PartitionKept(st, n, st2.groups[n], st2);
    ApartKept(st, st2);
  }

  lemma RelistInv(st: State)
    requires Inv(st) && Enabled(st, Collect) && st.pc.Relist?
    ensures Inv(Next(st, Collect))
  {
    hide UnitsPartitioned, MemoryApart, FlagsOk;
    var n := Shards(st);
    var g := st.groups[n];
    var st2 := Next(st, Collect);
    if st.pc.k < |g.units| {
      MemberIsLive(st, n, st.pc.k);
      FlagReads(st, g.units[st.pc.k], st.pc.s);
    }
    PartitionKept(st, n, st2.groups[n], st2);
    ApartKept(st, st2);
  }

  lemma DropInv(st: State)
    requires Inv(st) && Enabled(st, Collect) && st.pc.Dropping?
    ensures Inv(Next(st, Collect))
  {
    hide UnitsPartitioned, MemoryApart, FlagsOk;
    var n := Shards(st);
    var g := st.groups[n];
    var k := st.pc.k;
    var st2 := Next(st, Collect);
    MemberIsLive(st, n, k);
    if st.pc.s < SLOT_COUNT_PER_UNIT {
      FlagReads(st, g.units[k], st.pc.s);
      PartitionKept(st, n, g, st2);
    } else {
      UnitDropped(st);
    }
    ApartKept(st, st2);
  }

  lemma UnitDropped(st: State)
    requires Inv(st) && Enabled(st, Collect) && st.pc.Dropping? && st.pc.s == SLOT_COUNT_PER_UNIT
    ensures UnitsPartitioned(DropStep(st)) && FlagsOk(DropStep(st).memory, st.outstanding)
  {
    hide AllUnits, MemoryApart, ListsOk, FlagsOk, Empty;
    FlagsWithout(st, st.groups[Shards(st)].units[st.pc.k]);
    var n := Shards(st);
    var g := st.groups[n];
    var k := st.pc.k;
    var b := g.units[k];
    var st2 := DropStep(st);
    MemberIsLive(st, n, k);
    AllUnitsUpdate(st.groups, n, st2.groups[n]);
    assert g.units == g.units[..k] + [b] + g.units[k + 1..];
    assert multiset(g.units) == multiset(st2.groups[n].units) + multiset{b};
    assert st2.memory.Keys == st.memory.Keys - {b};
  }

  lemma FlagsWithout(st: State, b: nat)
    requires FlagsOk(st.memory, st.outstanding) && Empty(b, st.outstanding)
    ensures FlagsOk(st.memory - {b}, st.outstanding)
  {
    forall p | p in st.outstanding ensures p.base != b {
      assert p.base == b ==> p == Ptr(b, p.slot);
    }
  }

  lemma SwapInv(st: State)
    requires Inv(st) && Enabled(st, Collect) && (st.pc.SwapOut? || st.pc.SwapBack?)
    ensures Inv(Next(st, Collect))
  {
    hide MemoryApart, FlagsOk, AllUnits;
    AllUnitsSwapped(st.groups, st.pc.i);
    ApartKept(st, Next(st, Collect));
  }

  lemma StepInv(st: State, step: Step)
    requires Inv(st) && Enabled(st, step)
    ensures Inv(Next(st, step)) && Shards(Next(st, step)) == Shards(st)
  {
    hide UnitsPartitioned, MemoryApart, FlagsOk;
    match step
    case Lock(i) =>
      PartitionKept(st, i, st.groups[i], Next(st, step));
      ApartKept(st, Next(st, step));
    case TrySlot(i) => TryNextInv(st, i);
    case MakeUnit(i, base) => MakeUnitInv(st, i, base);
    case Free(p) => FreeInv(st, p);
    case Collect =>
      match st.pc
      case Resting =>
        PartitionKept(st, 0, st.groups[0], Next(st, step));
        ApartKept(st, Next(st, step));
      case SwapOut(i) => SwapInv(st);
      case Scan(_, _, _) => ScanInv(st);
      case Dropping(_, _, _) => DropInv(st);
      case Relist(_, _, _) => RelistInv(st);
      case SwapBack(i) => SwapInv(st);
  }

  // ----- runs

  datatype Run = Run(states: seq<State>, steps: seq<Step>)

  predicate StepAt(run: Run, k: nat) {
    k < |run.steps| && k + 1 < |run.states| &&
    Enabled(run.states[k], run.steps[k]) && run.states[k + 1] == Next(run.states[k], run.steps[k])
  }

  ghost predicate IsRun(n: nat, run: Run) {
    && |run.states| == |run.steps| + 1 && run.states[0] == Initial(n)
    && forall k {:trigger StepAt(run, k)} :: 0 <= k < |run.steps| ==> StepAt(run, k)
  }

  lemma InitialInv(n: nat)
    ensures Inv(Initial(n)) && Shards(Initial(n)) == n
  {
    hide AllUnits;
    EmptyGroups(n + 1);
  }

  lemma {:induction false} RunInv(n: nat, run: Run, k: nat)
    requires IsRun(n, run) && k < |run.states|
    ensures Inv(run.states[k]) && Shards(run.states[k]) == n
  {
    hide Inv, Next, Initial;
    if k == 0 {
      InitialInv(n);
    } else {
      RunInv(n, run, k - 1);
      assert StepAt(run, k - 1);
      StepInv(run.states[k - 1], run.steps[k - 1]);
    }
  }

  /** No assertion and no bounds check ever fails: not the drop's, although frees
      race with it, not the free's, not the indexing of the units. */
  lemma NoAssertionFails(n: nat, run: Run, k: nat)
    requires IsRun(n, run) && k < |run.states|
    ensures !run.states[k].failed
  {
    hide IsRun;
    RunInv(n, run, k);
  }

  /** Every live unit is in exactly one group, at one position, at every moment of
      the swapping; and every unit in a group is live. */
  lemma OneGroupEach(n: nat, run: Run, k: nat, b: nat)
    requires IsRun(n, run) && k < |run.states|
    ensures b in run.states[k].memory <==> exists g, j :: UnitAt(run.states[k].groups, g, j, b)
    ensures forall g, j, h, l :: UnitAt(run.states[k].groups, g, j, b) && UnitAt(run.states[k].groups, h, l, b) ==> g == h && j == l
  {
    hide IsRun, AllUnits, FlagsOk, ListsOk, PcOk, MemoryApart;
    RunInv(n, run, k);
    var st := run.states[k];
    if b in st.memory {
      assert b in AllUnits(st.groups);
      var g, j := SomePlace(st.groups, b);
    }
    forall g, j | UnitAt(st.groups, g, j, b) ensures b in st.memory {
      MemberIsLive(st, g, j);
    }
    forall g, j, h, l | UnitAt(st.groups, g, j, b) && UnitAt(st.groups, h, l, b) ensures g == h && j == l {
      OnePlace(st.groups, g, j, h, l, b);
    }
  }

  /** A unit disappears only if none of its slots is in use: read as flags or as allocations. */
  lemma LostOnlyUnused(n: nat, run: Run, k: nat, b: nat)
    requires IsRun(n, run) && k + 1 < |run.states|
    requires b in run.states[k].memory && b !in run.states[k + 1].memory
    ensures run.steps[k].Collect?
    ensures Empty(b, run.states[k].outstanding)
    ensures forall s: nat :: s < SLOT_COUNT_PER_UNIT ==> FlagAt(run.states[k], b, s) == Some(false)
  {
    RunInv(n, run, k);
    hide UnitsPartitioned, MemoryApart, ListsOk, FlagsOk;
    assert StepAt(run, k);
    assert Empty(b, run.states[k].outstanding);
    forall s: nat | s < SLOT_COUNT_PER_UNIT ensures FlagAt(run.states[k], b, s) == Some(false) {
      FlagReads(run.states[k], b, s);
    }
  }

  /** What one step does to the allocations: a slot handed out was nobody's, a
      freed slot was its owner's, and nothing else changes. */
  ghost predicate Handed(before: set<Ptr>, step: Step, after: set<Ptr>) {
    match step
    case TrySlot(_) => after == before || exists p :: p in after && p !in before && after == before + {p}
    case MakeUnit(_, base) => Ptr(base, 0) !in before && after == before + {Ptr(base, 0)}
    case Free(p) => p in before && after == before - {p}
    case _ => after == before
  }

  lemma HandedOutOnce(n: nat, run: Run, k: nat)
    requires IsRun(n, run) && k < |run.steps|
    ensures Handed(run.states[k].outstanding, run.steps[k], run.states[k + 1].outstanding)
  {
    RunInv(n, run, k);
    RunInv(n, run, k + 1);
    hide UnitsPartitioned, IsRun;
    var st := run.states[k];
    assert StepAt(run, k) by { StepOf(n, run, k); }
    match run.steps[k] {
      case TrySlot(i) =>
        var unit := Listed(st, i);
        if unit.Some? && FlagAt(st, unit.value, st.locks[i].value) == Some(false) {
          FlagReads(st, unit.value, st.locks[i].value);
        }
      case MakeUnit(i, base) =>
        assert Ptr(base, 0) in st.outstanding ==> UnitsApart(base, base, Shards(st));
      case _ =>
    }
  }

  lemma StepOf(n: nat, run: Run, k: nat)
    requires IsRun(n, run) && k + 1 < |run.states|
    ensures StepAt(run, k)
  {
  }

  /** An allocation lasts, its unit live and its flag set, until its owner frees it. */
  lemma {:induction false} OutstandingUntilFreed(n: nat, run: Run, j: nat, k: nat, p: Ptr)
    requires IsRun(n, run) && j <= k < |run.states| && p in run.states[j].outstanding
    requires forall m :: j <= m < k ==> run.steps[m] != Free(p)
    ensures p in run.states[k].outstanding && FlagAt(run.states[k], p.base, p.slot) == Some(true)
    decreases k
  {
    if j < k {
      OutstandingUntilFreed(n, run, j, k - 1, p);
      StepOf(n, run, k - 1);
    }
    hide IsRun, UnitsPartitioned, MemoryApart, ListsOk, PcOk;
    RunInv(n, run, k);
    FlagReads(run.states[k], p.base, p.slot);
  }

  /** Two allocations outstanding at once share no cell in any shard, and no
      allocation's cell is a usage flag; every cell lies in its live unit. */
  lemma AllocationsApart(n: nat, run: Run, k: nat, p: Ptr, i: nat, q: Ptr, j: nat)
    requires IsRun(n, run) && k < |run.states| && i < n && j < n
    requires p in run.states[k].outstanding && q in run.states[k].outstanding
    ensures Apart(PtrAtShard(p, i), CELL_SIZE, PtrAtShard(q, j), CELL_SIZE) <==> (p != q || i != j)
    ensures Apart(PtrAtShard(p, i), CELL_SIZE, FlagAddress(q), CELL_SIZE)
    ensures p.base in run.states[k].memory && InUnit(p.base, n, PtrAtShard(p, i))
  {
    hide IsRun, UnitsPartitioned, ListsOk, PcOk, Apart, PtrAtShard, FlagAddress, InUnit;
    RunInv(n, run, k);
    CellsApart(p, i, q, j, n);
    CellInUnit(p, i, n);
  }

  // ----- one round of maintenance

  predicate InRound(pc: Pc, i: nat) {
    match pc
    case Scan(r, _, _) => r == i
    case Dropping(r, _, _) => r == i
    case Relist(r, _, _) => r == i
    case SwapBack(r) => r == i
    case _ => false
  }

  /** From taking shard i's group out, at step j, up to moment k before it is put back. */
  ghost predicate RoundSoFar(n: nat, run: Run, i: nat, j: nat, k: nat) {
    && IsRun(n, run) && i < n && j < k < |run.states|
    && run.steps[j].Collect? && run.states[j].pc == SwapOut(i)
    && forall m :: j < m <= k ==> InRound(run.states[m].pc, i)
  }

  function Held(st: State): seq<nat>
    requires st.groups != []
  {
    st.groups[|st.groups| - 1].units
  }

  /** While the collector holds a group, the group gains no unit, and loses none with a slot in use. */
  lemma HeldStep(st: State, step: Step, i: nat)
    requires Inv(st) && Enabled(st, step) && InRound(st.pc, i) && InRound(Next(st, step).pc, i)
    ensures Next(st, step).groups != []
    ensures forall b :: b in Held(Next(st, step)) ==> b in Held(st)
    ensures forall b :: b in Held(st) && !Empty(b, st.outstanding) ==> b in Held(Next(st, step))
  {
    hide UnitsPartitioned, FlagsOk, MemoryApart, ListsOk, Empty;
    if step.Collect? && st.pc.Dropping? && st.pc.s == SLOT_COUNT_PER_UNIT {
      var units := Held(st);
      assert units == units[..st.pc.k] + [units[st.pc.k]] + units[st.pc.k + 1..];
    }
  }

  /** The group held is what is left of the one taken out. */
  lemma {:induction false} RoundKeepsGroup(n: nat, run: Run, i: nat, j: nat, k: nat, b: nat)
    requires RoundSoFar(n, run, i, j, k)
    ensures |run.states[j].groups| == |run.states[k].groups| == n + 1
    ensures b in Held(run.states[k]) ==> b in run.states[j].groups[i].units
    ensures b in run.states[j].groups[i].units && (forall m :: j <= m < k ==> !Empty(b, run.states[m].outstanding)) ==>
              b in Held(run.states[k])
    decreases k
  {
    hide IsRun, Inv, Next, Empty, Enabled;
    RunInv(n, run, j);
    RunInv(n, run, k - 1);
    RunInv(n, run, k);
    GroupCount(run.states[j]);
    GroupCount(run.states[k - 1]);
    GroupCount(run.states[k]);
    StepOf(n, run, k - 1);
    if j < k - 1 {
      RoundKeepsGroup(n, run, i, j, k - 1, b);
      HeldStep(run.states[k - 1], run.steps[k - 1], i);
    } else {
      TakenOut(run.states[j]);
    }
  }

  lemma TakenOut(st: State)
    requires Inv(st) && Enabled(st, Collect) && st.pc.SwapOut?
    ensures Next(st, Collect).groups != [] && Held(Next(st, Collect)) == st.groups[st.pc.i].units
  {
    hide UnitsPartitioned, FlagsOk, MemoryApart, ListsOk;
  }

  lemma GroupCount(st: State)
    requires Inv(st)
    ensures |st.groups| == Shards(st) + 1
  {
  }

  /** A round of maintenance gives shard i back its own group: no unit joins it, and
      a unit with an allocation outstanding throughout is in it again. */
  lemma RoundReturnsGroup(n: nat, run: Run, i: nat, j: nat, k: nat, b: nat)
    requires RoundSoFar(n, run, i, j, k) && k < |run.steps| && run.steps[k].Collect? && run.states[k].pc.SwapBack?
    ensures |run.states[j].groups| == |run.states[k + 1].groups| == n + 1
    ensures b in run.states[k + 1].groups[i].units ==> b in run.states[j].groups[i].units
    ensures b in run.states[j].groups[i].units && (forall m :: j <= m < k ==> !Empty(b, run.states[m].outstanding)) ==>
              b in run.states[k + 1].groups[i].units
  {
    RoundKeepsGroup(n, run, i, j, k, b);
    RunInv(n, run, k);
    StepOf(n, run, k);
    hide IsRun, UnitsPartitioned, FlagsOk, MemoryApart, ListsOk, Empty;
    GroupCount(run.states[k]);
  }
}
