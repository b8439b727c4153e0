/**
 Where a sharded allocation lives. A unit is one block of memory: a row of usage
 flags, then one row of data cells per shard. Slot k of every row belongs to the
 same allocation, and the address of its flag is the allocation's pointer.
 */
module AllocLayout {

  const SLOT_COUNT_PER_UNIT: nat := 16

  const CELL_SIZE: nat := 8

  /** An allocation: its unit's address and its slot there. */
  datatype Ptr = Ptr(base: nat, slot: nat)

  function DataLenInBytes(shards: nat): nat {
    SLOT_COUNT_PER_UNIT * (1 + shards) * CELL_SIZE
  }

  /** The pointer's own address, which is that of its usage flag. */
  function FlagAddress(p: Ptr): nat {
    p.base + CELL_SIZE * p.slot
  }

  function PtrAtShard(p: Ptr, shard: nat): nat {
    FlagAddress(p) + CELL_SIZE * (SLOT_COUNT_PER_UNIT * (shard + 1))
  }

  /** Two blocks of memory that share no byte. */
  predicate Apart(a: nat, lenA: nat, b: nat, lenB: nat) {
    a + lenA <= b || b + lenB <= a
  }

  predicate UnitsApart(a: nat, b: nat, shards: nat) {
    Apart(a, DataLenInBytes(shards), b, DataLenInBytes(shards))
  }

  predicate InUnit(base: nat, shards: nat, address: nat) {
    base <= address && address + CELL_SIZE <= base + DataLenInBytes(shards)
  }

  /** A cell lies inside its unit, past the whole row of flags. */
  lemma CellInUnit(p: Ptr, shard: nat, shards: nat)
    requires p.slot < SLOT_COUNT_PER_UNIT && shard < shards
    ensures InUnit(p.base, shards, PtrAtShard(p, shard)) && InUnit(p.base, shards, FlagAddress(p))
    ensures PtrAtShard(p, shard) >= p.base + CELL_SIZE * SLOT_COUNT_PER_UNIT
    ensures FlagAddress(p) + CELL_SIZE <= p.base + CELL_SIZE * SLOT_COUNT_PER_UNIT
  {
    assert DataLenInBytes(shards) == 128 + 128 * shards;
    assert 128 * (shard + 1) <= 128 * shards;
  }

  /** Cells overlap only if they are the same slot of the same unit in the same shard. */
  lemma CellsApart(p: Ptr, i: nat, q: Ptr, j: nat, shards: nat)
    requires p.slot < SLOT_COUNT_PER_UNIT && q.slot < SLOT_COUNT_PER_UNIT && i < shards && j < shards
    requires p.base == q.base || UnitsApart(p.base, q.base, shards)
    ensures Apart(PtrAtShard(p, i), CELL_SIZE, PtrAtShard(q, j), CELL_SIZE) <==> (p != q || i != j)
    ensures Apart(PtrAtShard(p, i), CELL_SIZE, FlagAddress(q), CELL_SIZE)
    ensures Apart(FlagAddress(p), CELL_SIZE, FlagAddress(q), CELL_SIZE) <==> p != q
  {
    CellInUnit(p, i, shards);
    CellInUnit(q, j, shards);
  }
}
