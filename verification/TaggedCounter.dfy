/**
 The 64-bit tagged word and its refinement of a (count, tag) pair.

 The bit layout is given on bit sequences, the word operations on signed
 integers with explicit wrap-around; both are tied to the abstract counter.
 */
module TaggedCounter {
  import opened Counting
  import opened ShardCounters

  const TWO_62: int := 0x4000_0000_0000_0000
  const TWO_63: int := 0x8000_0000_0000_0000
  const TWO_64: int := 0x1_0000_0000_0000_0000

  ghost predicate IsI64(x: int) {
    -TWO_63 <= x < TWO_63
  }

  /** Two's complement wrap-around of a 64-bit result. */
  function Wrap64(x: int): (w: int)
    ensures IsI64(w) && (w - x) % TWO_64 == 0
    ensures IsI64(x) ==> w == x
  {
    (x + TWO_63) % TWO_64 - TWO_63
  }

  // ----- the bits

  /** The two's complement value of a bit sequence, least significant bit first. */
  function Signed(bits: seq<bool>): int
    requires |bits| > 0
  {
    if |bits| == 1 then 0 - One(bits[0]) else One(bits[0]) + 2 * Signed(bits[1..])
  }

  /** Arithmetic shift right by one: the sign bit is repeated. */
  function ShiftRight(bits: seq<bool>): seq<bool>
    requires |bits| > 0
  {
    bits[1..] + [bits[|bits| - 1]]
  }

  function SetLowest(bits: seq<bool>, b: bool): seq<bool>
    requires |bits| > 0
  {
    [b] + bits[1..]
  }

  lemma {:induction false} SignExtend(bits: seq<bool>)
    requires |bits| > 0
    ensures Signed(bits + [bits[|bits| - 1]]) == Signed(bits)
  {
    var wide := bits + [bits[|bits| - 1]];
    if |bits| == 1 {
      assert wide[1..] == bits;
    } else {
      SignExtend(bits[1..]);
      assert wide[1..] == bits[1..] + [bits[1..][|bits| - 2]];
    }
  }

  /** The upper bits are a signed count and the lowest bit is the tag; the shift,
      the mask and the or of the source are these word operations. */
  lemma BitLayout(bits: seq<bool>)
    requires |bits| > 1
    ensures RefCount(Signed(bits)) == Signed(ShiftRight(bits)) == Signed(bits[1..])
    ensures Tag(Signed(bits)) == bits[0]
    ensures WithTag(Signed(bits)) == Signed(SetLowest(bits, true))
    ensures WithoutTag(Signed(bits)) == Signed(SetLowest(bits, false))
  {
    SignExtend(bits[1..]);
    assert ShiftRight(bits) == bits[1..] + [bits[1..][|bits| - 2]];
    assert SetLowest(bits, true)[1..] == bits[1..] && SetLowest(bits, false)[1..] == bits[1..];
  }

  // ----- the word

  function RefCount(w: int): int {
    w / 2
  }

  predicate Tag(w: int) {
    w % 2 != 0
  }

  function WithTag(w: int): int {
    if Tag(w) then w else w + 1
  }

  function WithoutTag(w: int): int {
    if Tag(w) then w - 1 else w
  }

  function Decode(w: int): Counter {
    Counter(RefCount(w), Tag(w))
  }

  function Encode(c: Counter): int {
    2 * c.count + One(c.tag)
  }

  /** Counts the upper 63 bits can hold. */
  predicate InRange(c: Counter) {
    -TWO_62 <= c.count < TWO_62
  }

  // ----- operations, on words and on pairs

  datatype Op = Inc | Dec | Clear

  function OnWord(w: int, op: Op): int {
    match op
    case Inc => Wrap64(w + 2)
    case Dec => Wrap64(WithTag(w) - 2)
    case Clear => WithoutTag(w)
  }

  function OnPair(c: Counter, op: Op): Counter {
    match op
    case Inc => c.Incremented()
    case Dec => c.DecrementedAndTagged()
    case Clear => c.TagCleared()
  }

  function WordAfter(w: int, ops: seq<Op>): int {
    if ops == [] then w else OnWord(WordAfter(w, ops[..|ops| - 1]), ops[|ops| - 1])
  }

  function PairAfter(c: Counter, ops: seq<Op>): Counter {
    if ops == [] then c else OnPair(PairAfter(c, ops[..|ops| - 1]), ops[|ops| - 1])
  }

  lemma OpRefines(c: Counter, op: Op)
    requires InRange(c) && InRange(OnPair(c, op))
    ensures OnWord(Encode(c), op) == Encode(OnPair(c, op))
  {
  }

  /** Over any sequence of operations of any threads, as long as the counts stay
      in range, the word encodes the pair. */
  lemma {:induction false} WordRefinesPair(c: Counter, ops: seq<Op>)
    requires forall k :: 0 <= k <= |ops| ==> InRange(PairAfter(c, ops[..k]))
    ensures WordAfter(Encode(c), ops) == Encode(PairAfter(c, ops))
  {
    if ops != [] {
      var k := |ops| - 1;
      var before := ops[..k];
      forall i | 0 <= i <= k ensures InRange(PairAfter(c, before[..i])) {
        assert before[..i] == ops[..i];
      }
      assert ops[..|ops|] == ops;
      WordRefinesPair(c, before);
      OpRefines(PairAfter(c, before), ops[k]);
    }
  }

  lemma {:induction false} CountDrift(c: Counter, ops: seq<Op>)
    ensures c.count - |ops| <= PairAfter(c, ops).count <= c.count + |ops|
  {
    if ops != [] {
      CountDrift(c, ops[..|ops| - 1]);
    }
  }

  /** A new counter cannot leave the range in fewer than 2^62 operations. */
  lemma NewCounterStaysInRange(ops: seq<Op>)
    requires |ops| < TWO_62
    ensures forall k :: 0 <= k <= |ops| ==> InRange(PairAfter(ZERO, ops[..k]))
  {
    forall k | 0 <= k <= |ops| ensures InRange(PairAfter(ZERO, ops[..k])) {
      CountDrift(ZERO, ops[..k]);
    }
  }

  lemma {:induction false} WordAfterAppend(w: int, ops: seq<Op>, more: seq<Op>)
    ensures WordAfter(w, ops + more) == WordAfter(WordAfter(w, ops), more)
  {
    if more == [] {
      assert ops + more == ops;
    } else {
      WordAfterAppend(w, ops, more[..|more| - 1]);
      assert (ops + more)[..|ops + more| - 1] == ops + more[..|more| - 1];
    }
  }

  // ----- the atomic counter

  /** What other threads do between two of this thread's accesses, and whether
      its next weak exchange fails for no reason. */
  datatype Turn = Turn(ops: seq<Op>, spurious: bool)

  function AllOps(turns: seq<Turn>): seq<Op> {
    if turns == [] then [] else AllOps(turns[..|turns| - 1]) + turns[|turns| - 1].ops
  }

  class AtomicTaggedCounter {
    var word: int
    ghost var log: seq<Op>   // every operation that took effect, in order

    ghost predicate Valid()
      reads this
    {
      word == WordAfter(0, log)
    }

    constructor ()
      ensures Valid() && log == [] && Decode(word) == ZERO
    {
      word, log := 0, [];
    }

    method IncrementRefCount()
      requires Valid()
      modifies this
      ensures Valid() && log == old(log) + [Inc]
    {
      word := Wrap64(word + 2);
      log := log + [Inc];
    }

    method FetchAndClearTag() returns (before: int)
      requires Valid()
      modifies this
      ensures Valid() && log == old(log) + [Clear] && before == old(word)
    {
      before := word;
      word := WithoutTag(word);
      log := log + [Clear];
    }

    /** Other threads take their turn. */
    method Interfere(ops: seq<Op>)
      requires Valid()
      modifies this
      ensures Valid() && log == old(log) + ops
    {
      for i := 0 to |ops|
        invariant Valid() && log == old(log) + ops[..i]
      {
        word := OnWord(word, ops[i]);
        log := log + [ops[i]];
        assert log[..|log| - 1] == old(log) + ops[..i];
        assert log == old(log) + ops[..i + 1];
      }
      assert ops[..|ops|] == ops;
    }

    /** The compare-exchange loop takes effect as exactly one decrement, after
        some of the other threads' turns, however often the exchange fails. */
    method DecrementRefCountAndSetTag(turns: seq<Turn>) returns (ghost taken: nat)
      requires Valid()
      modifies this
      ensures Valid() && taken <= |turns|
      ensures log == old(log) + AllOps(turns[..taken]) + [Dec]
    {
      var value := word;
      var i := 0;
      taken := 0;
      assert turns[..0] == [];
      while true
        invariant Valid() && i <= |turns| && value == word
        invariant log == old(log) + AllOps(turns[..i])
        decreases |turns| - i
      {
        var fails := false;
        taken := i;
        if i < |turns| {
          assert turns[..i + 1][..i] == turns[..i];
          Interfere(turns[i].ops);
          fails := turns[i].spurious;
          taken := i + 1;
        }
        var newValue := Wrap64(WithTag(value) - 2);
        if word == value && !fails {
          word := newValue;
          log := log + [Dec];
          assert log[..|log| - 1] == old(log) + AllOps(turns[..taken]);
          return;
        }
        value := word;
        i := i + 1;
      }
    }
  }

  // ----- the collector's sums over shards

  ghost predicate SmallCounts(cs: seq<Counter>) {
    |cs| <= 256 && forall i :: 0 <= i < |cs| ==> -0x80_0000_0000_0000 < cs[i].count < 0x80_0000_0000_0000
  }

  /** With at most 256 shards and counts below 2^55, no partial sum overflows. */
  lemma {:induction false} SumBound(cs: seq<Counter>)
    requires SmallCounts(cs)
    ensures -|cs| * 0x80_0000_0000_0000 <= Total(cs) <= |cs| * 0x80_0000_0000_0000
  {
    if cs != [] {
      SumBound(cs[..|cs| - 1]);
    }
  }

  lemma {:induction false} SumFits(cs: seq<Counter>)
    requires SmallCounts(cs)
    ensures IsI64(Total(cs))
  {
    if cs != [] {
      SumBound(cs[..|cs| - 1]);
    }
  }

  function Decoded(words: seq<int>): seq<Counter> {
    seq(|words|, i requires 0 <= i < |words| => Decode(words[i]))
  }

  lemma WrapAdd(x: int, y: int)
    ensures Wrap64(Wrap64(x) + y) == Wrap64(x + y)
  {
  }

  /** The sum over the words read, one per shard: their counts' true sum, up to
      wrap-around, which small counts rule out. */
  method ReadRefCountSum(words: seq<int>) returns (sum: int)
    ensures sum == Wrap64(Total(Decoded(words)))
    ensures SmallCounts(Decoded(words)) ==> sum == Total(Decoded(words))
  {
    ghost var cs := Decoded(words);
    sum := 0;
    for i := 0 to |words|
      invariant sum == Wrap64(Total(cs[..i]))
    {
      TotalExtend(cs, i);
      WrapAdd(Total(cs[..i]), RefCount(words[i]));
      sum := Wrap64(sum + RefCount(words[i]));
    }
    assert cs[..|words|] == cs;
    if SmallCounts(cs) {
      SumFits(cs);
    }
  }

  /** What other threads do to each shard just before each step of a loop over shards. */
  type Interference = (nat, nat) -> seq<Op>

  /** Everything that takes effect on shard j up to step t of the clearing loop:
      the other threads' operations, and the clear at the shard's own step. */
  function ClearLog(others: Interference, j: nat, t: nat): seq<Op> {
    if t == 0 then [] else ClearLog(others, j, t - 1) + others(t - 1, j) + if t - 1 == j then [Clear] else []
  }

  /** Shard j's word at the moment it is read and cleared. */
  function FoundAt(word: int, others: Interference, j: nat): int {
    WordAfter(word, ClearLog(others, j, j) + others(j, j))
  }

  function FoundCounters(words: seq<int>, others: Interference): seq<Counter> {
    seq(|words|, j requires 0 <= j < |words| => Decode(FoundAt(words[j], others, j)))
  }

  method OthersAct(words: array<int>, others: Interference, t: nat)
    modifies words
    ensures forall j :: 0 <= j < words.Length ==> words[j] == WordAfter(old(words[j]), others(t, j))
  {
    for j := 0 to words.Length
      invariant forall i :: 0 <= i < j ==> words[i] == WordAfter(old(words[i]), others(t, i))
      invariant forall i :: j <= i < words.Length ==> words[i] == old(words[i])
    {
      words[j] := WordAfter(words[j], others(t, j));
    }
  }

  lemma ClearLogStep(word: int, others: Interference, j: nat, t: nat)
    ensures var now := WordAfter(WordAfter(word, ClearLog(others, j, t)), others(t, j));
            && (j == t ==> now == FoundAt(word, others, j) && WithoutTag(now) == WordAfter(word, ClearLog(others, j, t + 1)))
            && (j != t ==> now == WordAfter(word, ClearLog(others, j, t + 1)))
  {
    var log := ClearLog(others, j, t) + others(t, j);
    WordAfterAppend(word, ClearLog(others, j, t), others(t, j));
    if j == t {
      WordAfterAppend(word, log, [Clear]);
      assert [Clear][..0] == [];
    } else {
      assert log + [] == log;
    }
  }

  lemma ClearStart(words: seq<int>, others: Interference, cs: seq<Counter>)
    ensures forall j :: 0 <= j < |words| ==> words[j] == WordAfter(words[j], ClearLog(others, j, 0))
    ensures Wrap64(Total(cs[..0])) == 0
  {
  }

  /** Whatever other threads do between the shards, each shard is cleared once, at
      its own moment, and the sum is that of the counts found at these moments. */
  method ClearTagsAndReadRefCountSum(words: array<int>, others: Interference) returns (sum: int)
    modifies words
    ensures forall j :: 0 <= j < words.Length ==> words[j] == WordAfter(old(words[j]), ClearLog(others, j, words.Length))
    ensures sum == Wrap64(Total(FoundCounters(old(words[..]), others)))
  {
    hide WordAfter, ClearLog, FoundAt, Wrap64, Total;
    ghost var start := words[..];
    ghost var cs := FoundCounters(start, others);
    ClearStart(start, others, cs);
    sum := 0;
    for t := 0 to words.Length
      invariant sum == Wrap64(Total(cs[..t]))
      invariant forall j :: 0 <= j < words.Length ==> words[j] == WordAfter(start[j], ClearLog(others, j, t))
    {
      OthersAct(words, others, t);
      TotalExtend(cs, t);
      forall j | 0 <= j < words.Length
        ensures var now := words[j];
                && (j == t ==> now == FoundAt(start[j], others, j) && WithoutTag(now) == WordAfter(start[j], ClearLog(others, j, t + 1)))
                && (j != t ==> now == WordAfter(start[j], ClearLog(others, j, t + 1)))
      {
        ClearLogStep(start[j], others, j, t);
      }
      WrapAdd(Total(cs[..t]), RefCount(words[t]));
      sum := Wrap64(sum + RefCount(words[t]));
      words[t] := WithoutTag(words[t]);
    }
    assert cs[..words.Length] == cs;
  }

  /** None exactly when some word read carries a tag; otherwise the same sum. */
  method ReadRefCountSumIfAllTagsUnset(words: seq<int>) returns (result: Option<int>)
    ensures result.None? <==> AnyTag(Decoded(words))
    ensures result.Some? ==> result.value == Wrap64(Total(Decoded(words)))
    ensures result.Some? && SmallCounts(Decoded(words)) ==> result.value == Total(Decoded(words))
  {
    ghost var cs := Decoded(words);
    var sum := 0;
    for i := 0 to |words|
      invariant sum == Wrap64(Total(cs[..i]))
      invariant forall j :: 0 <= j < i ==> !cs[j].tag
    {
      if Tag(words[i]) {
        assert cs[i].tag;
        return None;
      }
      TotalExtend(cs, i);
      WrapAdd(Total(cs[..i]), RefCount(words[i]));
      sum := Wrap64(sum + RefCount(words[i]));
    }
    assert cs[..|words|] == cs;
    if SmallCounts(cs) {
      SumFits(cs);
    }
    result := Some(sum);
  }
}
