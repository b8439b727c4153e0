/** The collector's status and waiting for one full collection. */
module CollectorStatus {
  import opened Counting

  datatype CollectorState = Waiting(finished: nat) | Running(workingOn: nat) {
    function ToSerialNumber(): nat {
      match this
      case Running(n) => n * 2
      case Waiting(n) => n * 2 + 1
    }

    function AfterAtLeastOneFullCollection(): CollectorState {
      match this
      case Waiting(n) => Waiting(n + 1)
      case Running(n) => Waiting(n + 1)
    }

    predicate Less(other: CollectorState) {
      ToSerialNumber() < other.ToSerialNumber()
    }
  }

  /** One change of status: an outer iteration begins, or the one at work ends. */
  predicate Follows(before: CollectorState, after: CollectorState) {
    match before
    case Waiting(n) => after == Running(n + 1)
    case Running(n) => after == Waiting(n)
  }

  predicate IsHistory(h: seq<CollectorState>) {
    && |h| > 0 && h[0] == Waiting(0)
    && forall i :: 0 < i < |h| ==> Follows(h[i - 1], h[i])
  }

  /** Every status the collector thread publishes, in order. */
  method CollectorThreadMain(iterations: nat) returns (history: seq<CollectorState>)
    ensures IsHistory(history) && |history| == 2 * iterations + 1
  {
    var counter := 0;
    history := [Waiting(0)];
    while counter < iterations
      invariant counter <= iterations && IsHistory(history) && |history| == 2 * counter + 1
      invariant history[|history| - 1] == Waiting(counter)
    {
      counter := counter + 1;
      history := history + [Running(counter)];
      history := history + [Waiting(counter)];
    }
  }

  /** The status passes through consecutive serial numbers. */
  lemma {:induction false} ConsecutiveSerialNumbers(h: seq<CollectorState>, i: nat)
    requires IsHistory(h) && i < |h|
    ensures h[i].ToSerialNumber() == i + 1
    ensures i % 2 == 0 ==> h[i] == Waiting(i / 2)
    ensures i % 2 == 1 ==> h[i] == Running(i / 2 + 1)
  {
    if i > 0 {
      ConsecutiveSerialNumbers(h, i - 1);
    }
  }

  /** Some outer iteration began after moment n and ended by moment m. */
  ghost predicate FullIterationWithin(h: seq<CollectorState>, n: nat, m: nat) {
    exists b, e :: n < b < e <= m < |h| && h[b].Running? && h[e] == Waiting(h[b].workingOn)
  }

  /** Waiting from moment n may end at moment m exactly when an outer iteration
      both began and ended in between. */
  lemma WaitsForFullIteration(h: seq<CollectorState>, n: nat, m: nat)
    requires IsHistory(h) && n <= m < |h|
    ensures !h[m].Less(h[n].AfterAtLeastOneFullCollection()) <==> FullIterationWithin(h, n, m)
  {
    ConsecutiveSerialNumbers(h, n);
    ConsecutiveSerialNumbers(h, m);
    var target := h[n].AfterAtLeastOneFullCollection();
    if !h[m].Less(target) {
      var b := if n % 2 == 0 then n + 1 else n + 2;
      ConsecutiveSerialNumbers(h, b);
      ConsecutiveSerialNumbers(h, b + 1);
      assert n < b < b + 1 <= m && h[b].Running? && h[b + 1] == Waiting(h[b].workingOn);
    }
    if b, e :| n < b < e <= m && h[b].Running? && h[e] == Waiting(h[b].workingOn) {
      ConsecutiveSerialNumbers(h, b);
      ConsecutiveSerialNumbers(h, e);
    }
  }

  /** The moments at which a waiter holds the lock and tests the status: the call
      itself, then every time it is woken. */
  predicate IsLooks(h: seq<CollectorState>, looks: seq<nat>) {
    && |looks| > 0 && (forall i :: 0 <= i < |looks| ==> looks[i] < |h|)
    && forall i, j :: 0 <= i < j < |looks| ==> looks[i] <= looks[j]
  }

  /** The waiter returns at its first look that has a full iteration behind it,
      counted from the call, and goes on waiting at every look before. */
  method UpdateNowAndWait(h: seq<CollectorState>, looks: seq<nat>) returns (result: Option<nat>)
    requires IsHistory(h) && IsLooks(h, looks)
    ensures result.Some? ==> 0 < result.value < |looks| && FullIterationWithin(h, looks[0], looks[result.value])
    ensures forall i :: 0 <= i < |looks| && (result.Some? ==> i < result.value) ==>
              !FullIterationWithin(h, looks[0], looks[i])
  {
    var target := h[looks[0]].AfterAtLeastOneFullCollection();
    var i := 0;
    while i < |looks| && h[looks[i]].Less(target)
      invariant 0 <= i <= |looks|
      invariant forall j :: 0 <= j < i ==> !FullIterationWithin(h, looks[0], looks[j])
    {
      WaitsForFullIteration(h, looks[0], looks[i]);
      i := i + 1;
    }
    if i < |looks| {
      WaitsForFullIteration(h, looks[0], looks[i]);
      result := Some(i);
    } else {
      result := None;
    }
  }
}
