/**
 The sharded read-write lock: a reader takes one shard's lock, a writer takes all
 of them in ascending order and releases them in the same order.
 */
module ShardedRwLock {
  import opened Counting

  type ThreadId = nat

  /** One shard's lock. */
  datatype Lock = Lock(readers: set<ThreadId>, writer: Option<ThreadId>)

  datatype Thread =
    | Idle
    | WantRead(shard: nat)
    | Reading(shard: nat)
    | Acquiring(next: nat)        // holds the locks below `next`, waits for `next`
    | Writing
    | Releasing(next: nat)        // holds the locks from `next` on

  datatype State = State(locks: seq<Lock>, threads: map<ThreadId, Thread>)

  function At(s: State, t: ThreadId): Thread {
    if t in s.threads then s.threads[t] else Idle
  }

  datatype Step =
    | StartRead(t: ThreadId, i: nat)
    | TakeRead(t: ThreadId)
    | TryRead(t: ThreadId, i: nat)
    | EndRead(t: ThreadId)
    | StartWrite(t: ThreadId)
    | TakeWrite(t: ThreadId)
    | EndWrite(t: ThreadId)
    | ReleaseOne(t: ThreadId)

  predicate WriterWaitsAt(s: State, i: nat) {
    exists t :: t in s.threads && s.threads[t] == Acquiring(i)
  }

  /** A read lock is granted if no writer holds the shard; a fair lock also makes
      readers wait behind waiting writers. */
  predicate ReadFree(s: State, i: nat, fair: bool) {
    i < |s.locks| && s.locks[i].writer.None? && (fair ==> !WriterWaitsAt(s, i))
  }

  predicate WriteFree(s: State, i: nat) {
    i < |s.locks| && s.locks[i].writer.None? && s.locks[i].readers == {}
  }

  predicate Enabled(s: State, step: Step, fair: bool) {
    match step
    case StartRead(t, i) => At(s, t).Idle? && i < |s.locks|
    case TakeRead(t) => At(s, t).WantRead? && ReadFree(s, At(s, t).shard, fair)
    case TryRead(t, i) => At(s, t).Idle? && i < |s.locks|
    case EndRead(t) => At(s, t).Reading? && At(s, t).shard < |s.locks|
    case StartWrite(t) => At(s, t).Idle?
    case TakeWrite(t) => At(s, t).Acquiring? && WriteFree(s, At(s, t).next)
    case EndWrite(t) => At(s, t).Writing?
    case ReleaseOne(t) => At(s, t).Releasing? && At(s, t).next < |s.locks|
  }

  function SetLock(s: State, i: nat, lock: Lock): State
    requires i < |s.locks|
  {
    s.(locks := s.locks[i := lock])
  }

  function SetThread(s: State, t: ThreadId, thread: Thread): State {
    s.(threads := s.threads[t := thread])
  }

  function GrantRead(s: State, t: ThreadId, i: nat): State
    requires i < |s.locks|
  {
    SetThread(SetLock(s, i, s.locks[i].(readers := s.locks[i].readers + {t})), t, Reading(i))
  }

  function Next(s: State, step: Step, fair: bool): State
    requires Enabled(s, step, fair)
  {
    match step
    case StartRead(t, i) => SetThread(s, t, WantRead(i))
    case TakeRead(t) => GrantRead(s, t, At(s, t).shard)
    case TryRead(t, i) => if ReadFree(s, i, fair) then GrantRead(s, t, i) else s
    case EndRead(t) =>
      var i := At(s, t).shard;
      SetThread(SetLock(s, i, s.locks[i].(readers := s.locks[i].readers - {t})), t, Idle)
    case StartWrite(t) => SetThread(s, t, if |s.locks| == 0 then Writing else Acquiring(0))
    case TakeWrite(t) =>
      var i := At(s, t).next;
      SetThread(SetLock(s, i, s.locks[i].(writer := Some(t))), t,
                if i + 1 == |s.locks| then Writing else Acquiring(i + 1))
    case EndWrite(t) => SetThread(s, t, if |s.locks| == 0 then Idle else Releasing(0))
    case ReleaseOne(t) =>
      var i := At(s, t).next;
      SetThread(SetLock(s, i, s.locks[i].(writer := None)), t,
                if i + 1 == |s.locks| then Idle else Releasing(i + 1))
  }

  predicate HoldsWrite(thread: Thread, i: nat) {
    match thread
    case Acquiring(next) => i < next
    case Writing => true
    case Releasing(next) => i >= next
    case _ => false
  }

  predicate HoldsRead(thread: Thread, i: nat) {
    thread == Reading(i)
  }

  ghost predicate LockOk(s: State, i: nat)
    requires i < |s.locks|
  {
    && (forall t: ThreadId :: s.locks[i].writer == Some(t) <==> HoldsWrite(At(s, t), i))
    && (forall t: ThreadId :: t in s.locks[i].readers <==> HoldsRead(At(s, t), i))
    && (s.locks[i].writer.Some? ==> s.locks[i].readers == {})
  }

  ghost predicate ThreadOk(s: State, thread: Thread) {
    match thread
    case WantRead(i) => i < |s.locks|
    case Reading(i) => i < |s.locks|
    case Acquiring(next) => next < |s.locks|
    case Releasing(next) => next < |s.locks|
    case _ => true
  }

  ghost predicate Inv(s: State) {
    && (forall i :: 0 <= i < |s.locks| ==> LockOk(s, i))
    && (forall t :: t in s.threads ==> ThreadOk(s, s.threads[t]))
  }

  function Initial(n: nat): State {
    State(seq(n, _ => Lock({}, None)), map[])
  }

  lemma StepInv(s: State, step: Step, fair: bool)
    requires Inv(s) && Enabled(s, step, fair)
    ensures Inv(Next(s, step, fair)) && |Next(s, step, fair).locks| == |s.locks|
  {
    var s2 := Next(s, step, fair);
    forall i | 0 <= i < |s2.locks| ensures LockOk(s2, i) {
      assert LockOk(s, i);
      if step.TryRead? && !ReadFree(s, step.i, fair) {
      } else {
        assert forall u: ThreadId :: u != step.t ==> At(s2, u) == At(s, u);
      }
    }
  }

  /** The steps a thread still has to take until it is done, its data phase's end included. */
  function StepsLeft(n: nat, thread: Thread): int {
    match thread
    case Idle => 0
    case WantRead(_) => 2
    case Reading(_) => 1
    case Acquiring(next) => n - next + 1 + n
    case Writing => 1 + n
    case Releasing(next) => n - next
  }

  /** A lock asked for is a lock held: every step within an operation brings its thread
      one step closer to its end, through all phases, and moves no other thread; and
      try_read grants exactly what is free. */
  lemma OneStepCloser(s: State, step: Step, fair: bool, u: ThreadId)
    requires Inv(s) && Enabled(s, step, fair)
    ensures var n, before, after := |s.locks|, At(s, u), At(Next(s, step, fair), u);
            && (u != step.t ==> after == before)
            && (u == step.t ==>
                  match step
                  case StartRead(_, i) => before == Idle && after == WantRead(i)
                  case TryRead(_, i) => before == Idle && after == (if ReadFree(s, i, fair) then Reading(i) else Idle)
                  case StartWrite(_) => before == Idle && StepsLeft(n, after) == 2 * n + 1
                  case TakeRead(_) => before.WantRead? && after == Reading(before.shard)
                  case _ => StepsLeft(n, after) == StepsLeft(n, before) - 1)
    ensures StepsLeft(|s.locks|, At(s, u)) == 0 <==> At(s, u) == Idle
  {
    if u in s.threads {
      assert ThreadOk(s, s.threads[u]);
    }
  }

  datatype Run = Run(states: seq<State>, steps: seq<Step>)

  predicate StepAt(run: Run, k: nat, fair: bool) {
    k < |run.steps| && k + 1 < |run.states| &&
    Enabled(run.states[k], run.steps[k], fair) && run.states[k + 1] == Next(run.states[k], run.steps[k], fair)
  }

  ghost predicate IsRun(n: nat, run: Run, fair: bool) {
    && |run.states| == |run.steps| + 1 && run.states[0] == Initial(n)
    && forall k {:trigger StepAt(run, k, fair)} :: 0 <= k < |run.steps| ==> StepAt(run, k, fair)
  }

  lemma {:induction false} RunInv(n: nat, run: Run, fair: bool, k: nat)
    requires IsRun(n, run, fair) && k < |run.states|
    ensures Inv(run.states[k]) && |run.states[k].locks| == n
  {
    if k > 0 {
      RunInv(n, run, fair, k - 1);
      assert StepAt(run, k - 1, fair);
      StepInv(run.states[k - 1], run.steps[k - 1], fair);
    }
  }

  /** A writer in its data phase excludes every reader and every other writer,
      even one part-way through acquiring or releasing. */
  lemma MutualExclusion(n: nat, run: Run, fair: bool, k: nat, t: ThreadId, u: ThreadId)
    requires n >= 1 && IsRun(n, run, fair) && k < |run.states| && t != u
    requires At(run.states[k], t).Writing?
    ensures var other := At(run.states[k], u);
            !other.Reading? && !other.Writing? && !other.Releasing? && (other.Acquiring? ==> other.next == 0)
  {
    RunInv(n, run, fair, k);
    var s := run.states[k];
    var i := if At(s, u).Reading? then At(s, u).shard else 0;
    assert LockOk(s, 0) && LockOk(s, n - 1) && LockOk(s, i);
  }

  // ----- no deadlock

  predicate IsAcquiring(s: State, t: ThreadId) {
    t in s.threads && s.threads[t].Acquiring?
  }

  function NextLock(s: State, t: ThreadId): nat {
    if IsAcquiring(s, t) then s.threads[t].next else 0
  }

  /** Among the writers waiting for a lock, one waits for the highest. */
  lemma {:induction false} FarthestWriter(s: State, among: set<ThreadId>) returns (t: ThreadId)
    requires among != {}
    ensures t in among && forall u :: u in among ==> NextLock(s, u) <= NextLock(s, t)
    decreases among
  {
    var first :| first in among;
    t := first;
    var rest := among - {first};
    assert forall u :: u in among ==> u == first || u in rest;
    if rest != {} {
      var r := FarthestWriter(s, rest);
      if NextLock(s, r) > NextLock(s, first) {
        t := r;
      }
    }
  }

  /** The step that ends what t is doing, or takes the lock it waits for. */
  function NextStepOf(s: State, t: ThreadId): Step {
    match At(s, t)
    case WantRead(_) => TakeRead(t)
    case Reading(_) => EndRead(t)
    case Acquiring(_) => TakeWrite(t)
    case Writing => EndWrite(t)
    case Releasing(_) => ReleaseOne(t)
    case Idle => StartWrite(t)
  }

  /** While any thread is inside an operation, some thread inside one can take its next step. */
  lemma NoDeadlock(n: nat, run: Run, fair: bool, k: nat, t: ThreadId) returns (u: ThreadId)
    requires IsRun(n, run, fair) && k < |run.states| && !At(run.states[k], t).Idle?
    ensures !At(run.states[k], u).Idle? && Enabled(run.states[k], NextStepOf(run.states[k], u), fair)
  {
    RunInv(n, run, fair, k);
    u := SomeoneCanMove(run.states[k], fair, t);
  }

  lemma SomeoneCanMove(s: State, fair: bool, t: ThreadId) returns (u: ThreadId)
    requires Inv(s) && !At(s, t).Idle?
    ensures !At(s, u).Idle? && Enabled(s, NextStepOf(s, u), fair)
  {
    if v :| v in s.threads && Inside(s.threads[v]) {
      u := v;
      assert ThreadOk(s, s.threads[v]);
    } else {
      assert forall v :: v in s.threads ==> !Inside(s.threads[v]);
      var waiting := set v | v in s.threads && IsAcquiring(s, v);
      if waiting == {} {
        u := t;
        assert forall v :: v in s.threads ==> v !in waiting;
        assert ThreadOk(s, s.threads[t]);
        NobodyHolds(s, At(s, t).shard);
      } else {
        u := FarthestWriter(s, waiting);
        FarthestFree(s, u);
      }
    }
  }

  /** A reader with its lock, or a writer past its last acquisition: neither waits for anybody. */
  predicate Inside(thread: Thread) {
    thread.Reading? || thread.Writing? || thread.Releasing?
  }

  lemma NobodyHolds(s: State, i: nat)
    requires Inv(s) && i < |s.locks|
    requires forall v :: v in s.threads ==> !Inside(s.threads[v]) && !IsAcquiring(s, v)
    ensures s.locks[i].writer.None?
  {
    assert LockOk(s, i);
    assert s.locks[i].writer.Some? ==> HoldsWrite(At(s, s.locks[i].writer.value), i);
  }

  lemma FarthestFree(s: State, u: ThreadId)
    requires Inv(s) && IsAcquiring(s, u)
    requires forall v :: v in s.threads ==> !Inside(s.threads[v])
    requires forall v :: IsAcquiring(s, v) ==> NextLock(s, v) <= NextLock(s, u)
    ensures WriteFree(s, NextLock(s, u))
  {
    var i := NextLock(s, u);
    assert ThreadOk(s, s.threads[u]);
    assert LockOk(s, i);
    assert s.locks[i].writer.None? by {
      assert s.locks[i].writer.Some? ==> HoldsWrite(At(s, s.locks[i].writer.value), i);
      assert forall v :: IsAcquiring(s, v) ==> !HoldsWrite(At(s, v), i);
    }
    assert s.locks[i].readers == {} by {
      forall v ensures v !in s.locks[i].readers {
        assert !HoldsRead(At(s, v), i);
      }
    }
  }
}
