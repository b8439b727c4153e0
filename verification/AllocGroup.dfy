/**
 One shard's group of allocation units. Its methods run under the group's lock,
 so only they set a usage flag or change the lists; but any thread may clear the
 flag of a slot it frees, between any two accesses. `races(k)` is what other
 threads free just before the k-th access to a flag, whatever they please.
 */
module AllocGroup {
  import opened Counting
  import opened AllocLayout

  datatype Unit = Unit(base: nat, flags: seq<bool>) {
    /** The unit once the slots in `freed` are unused. */
    function Freed(freed: set<Ptr>): Unit {
      Unit(base, seq(|flags|, s requires 0 <= s < |flags| => flags[s] && Ptr(base, s) !in freed))
    }
  }

  /** A unit's flags tell which of its slots are handed out. */
  ghost predicate FlagsAgree(u: Unit, outstanding: set<Ptr>) {
    |u.flags| == SLOT_COUNT_PER_UNIT &&
    forall s: nat :: s < SLOT_COUNT_PER_UNIT ==> (u.flags[s] <==> Ptr(u.base, s) in outstanding)
  }

  ghost predicate Full(base: nat, outstanding: set<Ptr>) {
    forall s: nat :: s < SLOT_COUNT_PER_UNIT ==> Ptr(base, s) in outstanding
  }

  ghost predicate Empty(base: nat, outstanding: set<Ptr>) {
    forall s: nat :: s < SLOT_COUNT_PER_UNIT ==> Ptr(base, s) !in outstanding
  }

  ghost predicate Distinct(units: seq<Unit>) {
    forall i, j :: 0 <= i < j < |units| ==> units[i].base != units[j].base
  }

  ghost predicate HasBase(units: seq<Unit>, base: nat) {
    exists i :: 0 <= i < |units| && units[i].base == base
  }

  ghost predicate UnitsOk(units: seq<Unit>, outstanding: set<Ptr>) {
    && Distinct(units)
    && (forall i :: 0 <= i < |units| ==> FlagsAgree(units[i], outstanding))
    && (forall p :: p in outstanding ==> p.slot < SLOT_COUNT_PER_UNIT && HasBase(units, p.base))
  }

  ghost predicate SameBases(before: seq<Unit>, after: seq<Unit>) {
    |before| == |after| && forall i :: 0 <= i < |before| ==> after[i].base == before[i].base
  }

  /** Indexes in bounds and without repetition. */
  ghost predicate IndexListOk(list: seq<nat>, length: nat) {
    && (forall k :: 0 <= k < |list| ==> list[k] < length)
    && (forall j, k :: 0 <= j < k < |list| ==> list[j] != list[k])
  }

  /** Everything other threads free from access j up to access k. */
  ghost function FreedBetween(races: nat -> set<Ptr>, j: nat, k: nat): set<Ptr>
    decreases k
  {
    if k <= j then {} else FreedBetween(races, j, k - 1) + races(k - 1)
  }

  lemma {:induction false} FreedSplit(races: nat -> set<Ptr>, i: nat, j: nat, k: nat)
    requires i <= j <= k
    ensures FreedBetween(races, i, k) == FreedBetween(races, i, j) + FreedBetween(races, j, k)
    decreases k
  {
    if j < k {
      FreedSplit(races, i, j, k - 1);
    }
  }

  /** What swap_remove(0) leaves of an index list. */
  function SwapRemoveFirst(list: seq<nat>): seq<nat>
    requires list != []
  {
    if |list| == 1 then [] else [list[|list| - 1]] + list[1..|list| - 1]
  }

  lemma SwapRemoveFirstOk(list: seq<nat>, length: nat)
    requires list != [] && IndexListOk(list, length)
    ensures IndexListOk(SwapRemoveFirst(list), length)
    ensures forall u :: u in SwapRemoveFirst(list) <==> u in list && u != list[0]
  {
    var after := SwapRemoveFirst(list);
    forall u | u in list && u != list[0] ensures u in after {
      var k :| 0 <= k < |list| && list[k] == u;
      assert after[if k == |list| - 1 then 0 else k] == u;
    }
  }

  /** What frees leave of the units. */
  function AfterFrees(units: seq<Unit>, freed: set<Ptr>): seq<Unit> {
    seq(|units|, i requires 0 <= i < |units| => units[i].Freed(freed))
  }

  lemma AfterFreesOk(units: seq<Unit>, freed: set<Ptr>, outstanding: set<Ptr>)
    requires UnitsOk(units, outstanding)
    ensures UnitsOk(AfterFrees(units, freed), outstanding - freed)
    ensures SameBases(units, AfterFrees(units, freed))
  {
    var after := AfterFrees(units, freed);
    forall p | p in outstanding - freed ensures HasBase(after, p.base) {
      var i :| 0 <= i < |units| && units[i].base == p.base;
      assert after[i].base == p.base;
    }
    forall i | 0 <= i < |after| ensures FlagsAgree(after[i], outstanding - freed) {
      assert FlagsAgree(units[i], outstanding);
    }
  }

  lemma MarkUsedOk(units: seq<Unit>, u: nat, s: nat, outstanding: set<Ptr>)
    requires UnitsOk(units, outstanding) && u < |units| && s < SLOT_COUNT_PER_UNIT
    ensures FlagsAgree(units[u], outstanding)
    ensures UnitsOk(units[u := Unit(units[u].base, units[u].flags[s := true])], outstanding + {Ptr(units[u].base, s)})
  {
    assert FlagsAgree(units[u], outstanding);
    var p := Ptr(units[u].base, s);
    var after := units[u := Unit(units[u].base, units[u].flags[s := true])];
    forall q | q in outstanding + {p} ensures q.slot < SLOT_COUNT_PER_UNIT && HasBase(after, q.base) {
      var i :| 0 <= i < |units| && units[i].base == q.base;
      assert after[i].base == q.base;
    }
    forall i | 0 <= i < |after| ensures FlagsAgree(after[i], outstanding + {p}) {
      assert FlagsAgree(units[i], outstanding);
    }
  }

  lemma NewUnitOk(units: seq<Unit>, base: nat, outstanding: set<Ptr>)
    requires UnitsOk(units, outstanding) && !HasBase(units, base)
    ensures UnitsOk(units + [NewUnit(base)], outstanding)
  {
    var after := units + [NewUnit(base)];
    forall p | p in outstanding ensures HasBase(after, p.base) {
      var i :| 0 <= i < |units| && units[i].base == p.base;
      assert after[i].base == p.base;
    }
    forall s: nat ensures Ptr(base, s) !in outstanding {
      assert Ptr(base, s) in outstanding ==> HasBase(units, Ptr(base, s).base);
    }
  }

  lemma DropUnitOk(units: seq<Unit>, k: nat, outstanding: set<Ptr>)
    requires UnitsOk(units, outstanding) && k < |units| && Empty(units[k].base, outstanding)
    ensures UnitsOk(units[..k] + units[k + 1..], outstanding)
  {
    var after := units[..k] + units[k + 1..];
    forall p | p in outstanding ensures HasBase(after, p.base) {
      var i :| 0 <= i < |units| && units[i].base == p.base;
      assert i != k;
      assert after[if i < k then i else i - 1].base == p.base;
    }
  }

  function NewUnit(base: nat): Unit {
    Unit(base, seq(SLOT_COUNT_PER_UNIT, _ => false))
  }

  class AllocUnitGroup {
    var allUnits: seq<Unit>
    var toCheck: seq<nat>            // indexes of the units to check for allocation
    const races: nat -> set<Ptr>     // what other threads free before each access to a flag
    var clock: nat                   // accesses to flags so far
    ghost var outstanding: set<Ptr>  // handed out and not yet freed

    ghost predicate UnitsValid()
      reads this
    {
      UnitsOk(allUnits, outstanding)
    }

    ghost predicate Valid()
      reads this
    {
      UnitsValid() && IndexListOk(toCheck, |allUnits|)
    }

    constructor (races: nat -> set<Ptr>)
      ensures Valid() && outstanding == {} && allUnits == [] && this.races == races
    {
      allUnits, toCheck, outstanding, clock := [], [], {}, 0;
      this.races := races;
    }

    /** Other threads free slots: each clears a flag and nothing else. */
    method Race()
      requires UnitsValid()
      modifies this`allUnits, this`outstanding, this`clock
      ensures UnitsValid() && outstanding == old(outstanding) - races(old(clock))
      ensures SameBases(old(allUnits), allUnits) && clock == old(clock) + 1
    {
      AfterFreesOk(allUnits, races(clock), outstanding);
      allUnits := AfterFrees(allUnits, races(clock));
      outstanding := outstanding - races(clock);
      clock := clock + 1;
    }

    /** Tries the slots of unit u in order. Returns a slot nobody held when its
        flag was set; fails only if every slot was in use when it began. */
    method AllocateInUnit(u: nat) returns (slot: Option<nat>)
      requires UnitsValid() && u < |allUnits|
      modifies this`allUnits, this`outstanding, this`clock
      ensures UnitsValid() && SameBases(old(allUnits), allUnits) && clock >= old(clock)
      ensures slot.None? ==>
                && outstanding == old(outstanding) - FreedBetween(races, old(clock), clock)
                && Full(allUnits[u].base, old(outstanding))
      ensures slot.Some? ==>
                && slot.value < SLOT_COUNT_PER_UNIT
                && var p := Ptr(allUnits[u].base, slot.value);
                   var others := old(outstanding) - FreedBetween(races, old(clock), clock);
                   p !in others && outstanding == others + {p}
    {
      for s := 0 to SLOT_COUNT_PER_UNIT
        invariant UnitsValid() && SameBases(old(allUnits), allUnits) && clock >= old(clock)
        invariant outstanding == old(outstanding) - FreedBetween(races, old(clock), clock)
        invariant forall i: nat :: i < s ==> Ptr(allUnits[u].base, i) in old(outstanding)
      {
        Race();
        MarkUsedOk(allUnits, u, s, outstanding);
        var unit := allUnits[u];
        var oldValue := unit.flags[s];
        allUnits := allUnits[u := Unit(unit.base, unit.flags[s := true])];
        if !oldValue {
          outstanding := outstanding + {Ptr(unit.base, s)};
          return Some(s);
        }
        assert outstanding + {Ptr(unit.base, s)} == outstanding;
      }
      slot := None;
    }

    /** Hands out a slot that nobody held when its flag was set, changing no other
        allocation. A new unit is made only if every listed unit was full when the
        call began; otherwise the slot is in a listed unit, which stays listed. A unit
        leaves the list only if it was full when the call began. */
    method Allocate(newBase: nat) returns (p: Ptr)
      requires Valid() && !HasBase(allUnits, newBase)
      modifies this`allUnits, this`toCheck, this`outstanding, this`clock
      ensures Valid()
      ensures var others := old(outstanding) - FreedBetween(races, old(clock), clock);
              p !in others && outstanding == others + {p}
      ensures p.base != newBase ==>
                && SameBases(old(allUnits), allUnits)
                && (forall u :: u in toCheck ==> u in old(toCheck))
                && exists u :: u in toCheck && u < |allUnits| && allUnits[u].base == p.base
      ensures forall u :: u in old(toCheck) && u !in toCheck ==>
                u < |old(allUnits)| && Full(old(allUnits)[u].base, old(outstanding))
      ensures p.base == newBase ==>
                && |allUnits| == |old(allUnits)| + 1 && SameBases(old(allUnits), allUnits[..|old(allUnits)|])
                && p == Ptr(newBase, 0) && allUnits[|old(allUnits)|].base == newBase
                && toCheck == [|old(allUnits)|]
                && forall u :: u in old(toCheck) ==> u < |old(allUnits)| && Full(old(allUnits)[u].base, old(outstanding))
    {
      while toCheck != []
        invariant Valid() && SameBases(old(allUnits), allUnits) && clock >= old(clock)
        invariant outstanding == old(outstanding) - FreedBetween(races, old(clock), clock)
        invariant forall u :: u in old(toCheck) ==> u in toCheck || Full(old(allUnits)[u].base, old(outstanding))
        invariant forall u :: u in toCheck ==> u in old(toCheck)
        decreases |toCheck|
      {
        var u := toCheck[0];
        ghost var middle := clock;
        var slot := AllocateInUnit(u);
        FreedSplit(races, old(clock), middle, clock);
        if slot.Some? {
          return Ptr(allUnits[u].base, slot.value);
        }
        SwapRemoveFirstOk(toCheck, |allUnits|);
        toCheck := SwapRemoveFirst(toCheck);
      }
      AppendUnit(newBase);
      p := Ptr(newBase, 0);
    }

    /** A new unit whose first slot is handed out at once. */
    method AppendUnit(newBase: nat)
      requires Valid() && !HasBase(allUnits, newBase) && toCheck == []
      modifies this`allUnits, this`toCheck, this`outstanding
      ensures Valid() && Ptr(newBase, 0) !in old(outstanding) && outstanding == old(outstanding) + {Ptr(newBase, 0)}
      ensures |allUnits| == |old(allUnits)| + 1 && allUnits[..|old(allUnits)|] == old(allUnits)
      ensures allUnits[|old(allUnits)|].base == newBase && toCheck == [|old(allUnits)|]
    {
      ghost var p := Ptr(newBase, 0);
      assert p in outstanding ==> HasBase(allUnits, p.base);
      NewUnitOk(allUnits, newBase, outstanding);
      allUnits := allUnits + [NewUnit(newBase)];
      MarkUsedOk(allUnits, |allUnits| - 1, 0, outstanding);
      allUnits := allUnits[|allUnits| - 1 := Unit(newBase, allUnits[|allUnits| - 1].flags[0 := true])];
      outstanding := outstanding + {p};
      toCheck := toCheck + [|allUnits| - 1];
    }

    /** Reads unit k's flags one by one until one has the wanted value. */
    method AnyFlag(k: nat, value: bool) returns (found: bool)
      requires UnitsValid() && k < |allUnits|
      modifies this`allUnits, this`outstanding, this`clock
      ensures UnitsValid() && SameBases(old(allUnits), allUnits) && clock >= old(clock)
      ensures outstanding == old(outstanding) - FreedBetween(races, old(clock), clock)
      ensures value && !found ==> Empty(allUnits[k].base, outstanding)
      ensures value && found ==> !Empty(allUnits[k].base, old(outstanding))
      ensures !value && !found ==> Full(allUnits[k].base, old(outstanding))
      ensures !value && found ==> !Full(allUnits[k].base, outstanding)
    {
      for s := 0 to SLOT_COUNT_PER_UNIT
        invariant UnitsValid() && SameBases(old(allUnits), allUnits) && clock >= old(clock)
        invariant outstanding == old(outstanding) - FreedBetween(races, old(clock), clock)
        invariant value ==> forall i: nat :: i < s ==> Ptr(allUnits[k].base, i) !in outstanding
        invariant !value ==> forall i: nat :: i < s ==> Ptr(allUnits[k].base, i) in old(outstanding)
      {
        Race();
        assert FlagsAgree(allUnits[k], outstanding);
        if allUnits[k].flags[s] == value {
          return true;
        }
      }
      found := false;
    }

    /** Drops unit k, found unused: the drop's own reading of the flags finds none in use. */
    method DropUnit(k: nat)
      requires UnitsValid() && k < |allUnits| && Empty(allUnits[k].base, outstanding)
      modifies this`allUnits, this`outstanding, this`clock
      ensures UnitsValid() && clock >= old(clock)
      ensures outstanding == old(outstanding) - FreedBetween(races, old(clock), clock)
      ensures SameBases(old(allUnits)[..k] + old(allUnits)[k + 1..], allUnits)
    {
      var anyUsed := AnyFlag(k, true);
      assert !anyUsed;
      DropUnitOk(allUnits, k, outstanding);
      allUnits := allUnits[..k] + allUnits[k + 1..];
    }

    /** Keeps the units with a slot in use: one that still has a slot in use at the
        end is kept, and one that had none at the start is not. */
    method RetainUsed()
      requires UnitsValid()
      modifies this`allUnits, this`outstanding, this`clock
      ensures UnitsValid() && clock >= old(clock)
      ensures outstanding == old(outstanding) - FreedBetween(races, old(clock), clock)
      ensures forall base :: HasBase(allUnits, base) ==> HasBase(old(allUnits), base) && !Empty(base, old(outstanding))
      ensures forall base :: HasBase(old(allUnits), base) && !Empty(base, outstanding) ==> HasBase(allUnits, base)
    {
      var k := 0;
      while k < |allUnits|
        invariant k <= |allUnits| && UnitsValid() && clock >= old(clock)
        invariant outstanding == old(outstanding) - FreedBetween(races, old(clock), clock)
        invariant forall i :: 0 <= i < k ==> !Empty(allUnits[i].base, old(outstanding))
        invariant forall i :: 0 <= i < |allUnits| ==> HasBase(old(allUnits), allUnits[i].base)
        decreases |allUnits| - k
      {
        ghost var t0 := clock;
        var anyUsed := AnyFlag(k, true);
        FreedSplit(races, old(clock), t0, clock);
        if anyUsed {
          k := k + 1;
        } else {
          ghost var t1 := clock;
          DropUnit(k);
          FreedSplit(races, old(clock), t1, clock);
        }
      }
    }

    /** Units that become empty are dropped, none with a slot in use is lost, and
        the list names exactly the units seen with a free slot: a listed unit has
        one, an unlisted unit had none at the start. */
    method DoMaintenance()
      requires UnitsValid()
      modifies this`allUnits, this`toCheck, this`outstanding, this`clock
      ensures Valid() && outstanding == old(outstanding) - FreedBetween(races, old(clock), clock)
      ensures forall base :: HasBase(allUnits, base) ==> HasBase(old(allUnits), base) && !Empty(base, old(outstanding))
      ensures forall base :: HasBase(old(allUnits), base) && !Empty(base, outstanding) ==> HasBase(allUnits, base)
      ensures forall k :: k in toCheck ==> k < |allUnits| && !Full(allUnits[k].base, outstanding)
      ensures forall k :: 0 <= k < |allUnits| && k !in toCheck ==> Full(allUnits[k].base, old(outstanding))
    {
      RetainUsed();
      ghost var kept := allUnits;
      toCheck := [];
      for k := 0 to |allUnits|
        invariant UnitsValid() && SameBases(kept, allUnits) && clock >= old(clock) && IndexListOk(toCheck, k)
        invariant outstanding == old(outstanding) - FreedBetween(races, old(clock), clock)
        invariant forall i :: i in toCheck ==> !Full(allUnits[i].base, outstanding)
        invariant forall i :: 0 <= i < k && i !in toCheck ==> Full(allUnits[i].base, old(outstanding))
      {
        ghost var t := clock;
        var anyFree := AnyFlag(k, false);
        FreedSplit(races, old(clock), t, clock);
        if anyFree {
          toCheck := toCheck + [k];
        }
      }
    }
  }
}
