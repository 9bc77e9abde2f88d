/** The thread pool over the blocking queue: one thread adds requests and stops the pool, workers
    pop and process until they see the exit flag. Reading the exit flag and the unlocked
    emptiness test are atomic steps. */
module Threadpools {
  import opened Sequences
  import opened Options
  import opened TaskQueues

  const MAIN: Tid := 0

  /** Where a worker is in its loop; a working one holds the i-th task that was popped. */
  datatype Work = Top | Popping | Working(i: nat) | Exited

  /** Where the owner is: in stop() it waits for an empty queue, sets the exit flag, clears the
      queue's flag, notifies, and joins. */
  datatype Owner = Running | Pushing | Waiting | FlagSet | FlagCleared | Joining | Joined

  datatype Pool = Pool(m: Monitor, owner: Owner, isExit: bool, work: map<Tid, Work>, done: seq<nat>)

  datatype PoolStep =
    | AddRequest(e: Task)
    | Queue(s: Step)            // a step inside push or pop
    | Look(t: Tid)              // a worker tests the exit flag and calls pop, or leaves
    | Finish(t: Tid)            // process() returns
    | BeginStop | SeeEmpty | ClearQueueFlag | Notify | Join

  /** The thread a step inside push or pop belongs to. */
  function Actor(s: Step): Tid {
    match s
    case CallPush(t, _) => t
    case CallPop(t) => t
    case Acquire(t) => t
    case TryPush(t, _) => t
    case TryPop(t, _) => t
    case Sleep(t) => t
    case Spurious(t) => t
    case ClearFlag => MAIN
    case NotifyAll => MAIN
  }

  predicate Inside(s: Step) {
    s.Acquire? || s.TryPush? || s.TryPop? || s.Sleep? || s.Spurious?
  }

  predicate CanStep(p: Pool, s: PoolStep) {
    match s
    case AddRequest(e) => p.owner == Running && Enabled(p.m, CallPush(MAIN, e))
    case Queue(q) => Inside(q) && Enabled(p.m, q) && (Actor(q) == MAIN ==> p.owner == Pushing)
                     && (Actor(q) != MAIN ==> Actor(q) in p.work && p.work[Actor(q)] == Popping)
    case Look(t) => t in p.work && p.work[t] == Top && t != MAIN && Enabled(p.m, CallPop(t))
    case Finish(t) => t in p.work && p.work[t].Working?
    case BeginStop => p.owner == Running
    case SeeEmpty => p.owner == Waiting && p.m.que == []
    case ClearQueueFlag => p.owner == FlagSet
    case Notify => p.owner == FlagCleared
    case Join => p.owner == Joining && forall t | t in p.work :: p.work[t] == Exited
  }

  function Stepped(p: Pool, s: PoolStep): Pool
    requires CanStep(p, s)
  {
    match s
    case AddRequest(e) => p.(m := Do(p.m, CallPush(MAIN, e)), owner := Pushing)
    case Queue(q) =>
      var t, m' := Actor(q), Do(p.m, q);
      if t == MAIN then p.(m := m', owner := if m'.pc[t].Idle? then Running else Pushing)
      else if !m'.pc[t].Idle? then p.(m := m')
      else p.(m := m', work := p.work[t := if |m'.popped| > |p.m.popped| then Working(|p.m.popped|) else Top])
    case Look(t) =>
      if p.isExit then p.(work := p.work[t := Exited])
      else p.(m := Do(p.m, CallPop(t)), work := p.work[t := Popping])
    case Finish(t) => p.(work := p.work[t := Top], done := p.done + [p.work[t].i])
    case BeginStop => p.(owner := Waiting)
    case SeeEmpty => p.(owner := FlagSet, isExit := true)
    case ClearQueueFlag => p.(owner := FlagCleared, m := Do(p.m, ClearFlag))
    case Notify => p.(owner := Joining, m := Do(p.m, NotifyAll))
    case Join => p.(owner := Joined)
  }

  // ---- The invariant ----

  predicate Pushes(pc: Pc) { pc.WantPush? || pc.HoldPush? || pc.DozePush? || pc.SleepPush? }
  predicate Pops(pc: Pc) { pc.WantPop? || pc.HoldPop? || pc.DozePop? || pc.SleepPop? }

  function PlaceOf(m: Monitor, t: Tid): Pc {
    if t in m.pc then m.pc[t] else Idle
  }

  /** The owner only pushes, workers only pop, and just while they say so. */
  predicate PlacesFit(p: Pool) {
    && MAIN !in p.work
    && (if p.owner == Pushing then Pushes(PlaceOf(p.m, MAIN)) else PlaceOf(p.m, MAIN).Idle?)
    && (forall t | t in p.work :: if p.work[t] == Popping then Pops(PlaceOf(p.m, t)) else PlaceOf(p.m, t).Idle?)
    && (forall t | t in p.m.pc :: t == MAIN || t in p.work)
  }

  predicate HasWorker(p: Pool, i: nat) {
    exists t :: t in p.work && p.work[t] == Working(i)
  }

  /** Every popped task is processed or in the hands of exactly one worker, never both, never twice. */
  predicate TasksFit(p: Pool) {
    && (forall i: nat | i < |p.m.popped| :: i in p.done || HasWorker(p, i))
    && (forall k | 0 <= k < |p.done| :: p.done[k] < |p.m.popped|)
    && (forall k, l | 0 <= k < l < |p.done| :: p.done[k] != p.done[l])
    && (forall t | t in p.work && p.work[t].Working? :: p.work[t].i < |p.m.popped| && p.work[t].i !in p.done)
    && (forall t, u | t in p.work && u in p.work && t != u && p.work[t].Working? && p.work[u].Working? ::
          p.work[t].i != p.work[u].i)
  }

  /** Once the exit flag is set nothing is in the queue, and the queue's flag follows. */
  predicate StopFits(p: Pool) {
    && (p.isExit <==> p.owner.FlagSet? || p.owner.FlagCleared? || p.owner.Joining? || p.owner.Joined?)
    && (p.isExit ==> p.m.que == [])
    && (p.m.flag <==> !(p.owner.FlagCleared? || p.owner.Joining? || p.owner.Joined?))
    && (p.owner.Joined? ==> forall t | t in p.work :: p.work[t] == Exited)
  }

  predicate PoolInv(p: Pool) {
    Inv(p.m) && PlacesFit(p) && TasksFit(p) && StopFits(p)
  }

  // ---- Every step keeps it ----

  /** A step inside push or pop only moves its own thread, and those it wakes stay in the same call. */
  lemma OthersStay(m: Monitor, q: Step, u: Tid)
    requires Inside(q) && Enabled(m, q) && u != Actor(q)
    ensures (u in Do(m, q).pc <==> u in m.pc)
    ensures Pushes(PlaceOf(Do(m, q), u)) <==> Pushes(PlaceOf(m, u))
    ensures Pops(PlaceOf(Do(m, q), u)) <==> Pops(PlaceOf(m, u))
    ensures PlaceOf(Do(m, q), u).Idle? <==> PlaceOf(m, u).Idle?
  {
  }

  lemma ActorStays(m: Monitor, q: Step)
    requires Inv(m) && Inside(q) && Enabled(m, q)
    ensures var t, m' := Actor(q), Do(m, q);
            t in m.pc && t in m'.pc && m'.flag == m.flag && m'.cap == m.cap
            && (Pushes(m.pc[t]) ==> Pushes(m'.pc[t]) || m'.pc[t].Idle?)
            && (Pops(m.pc[t]) ==> Pops(m'.pc[t]) || m'.pc[t].Idle?)
            && (Pushes(m.pc[t]) || Pops(m.pc[t]))
            && (Pushes(m.pc[t]) ==> m'.popped == m.popped)
            && (Pops(m.pc[t]) ==> |m'.que| <= |m.que|)
            && (m'.popped == m.popped
                || (m'.pc[t].Idle? && |m'.popped| == |m.popped| + 1 && m'.popped[..|m.popped|] == m.popped
                    && m.que != []))
  {
  }

  lemma QueueKeepsPlaces(p: Pool, q: Step)
    requires PoolInv(p) && CanStep(p, Queue(q))
    ensures PlacesFit(Stepped(p, Queue(q)))
  {
    hide Inv, Do, Enabled;
    ActorStays(p.m, q);
    var p' := Stepped(p, Queue(q));
    forall u: Tid | u != Actor(q)
      ensures (u in p'.m.pc <==> u in p.m.pc)
      ensures Pushes(PlaceOf(p'.m, u)) <==> Pushes(PlaceOf(p.m, u))
      ensures Pops(PlaceOf(p'.m, u)) <==> Pops(PlaceOf(p.m, u))
      ensures PlaceOf(p'.m, u).Idle? <==> PlaceOf(p.m, u).Idle?
    {
      OthersStay(p.m, q, u);
    }
  }

  lemma QueueKeepsTasks(p: Pool, q: Step)
    requires PoolInv(p) && CanStep(p, Queue(q))
    ensures TasksFit(Stepped(p, Queue(q)))
  {
    hide Inv, Do, Enabled;
    ActorStays(p.m, q);
    var p', t := Stepped(p, Queue(q)), Actor(q);
    if t != MAIN && |p'.m.popped| > |p.m.popped| {
      assert p'.work[t] == Working(|p.m.popped|);
      assert HasWorker(p', |p.m.popped|);
    }
    forall i: nat | i < |p.m.popped| ensures i in p'.done || HasWorker(p', i) {
      if i !in p.done {
        var u :| u in p.work && p.work[u] == Working(i);
        assert u != t && p'.work[u] == Working(i);
      }
    }
  }

  lemma QueueKeepsStop(p: Pool, q: Step)
    requires PoolInv(p) && CanStep(p, Queue(q))
    ensures StopFits(Stepped(p, Queue(q)))
  {
    hide Inv, Do, Enabled;
    ActorStays(p.m, q);
  }

  lemma FinishKeeps(p: Pool, t: Tid)
    requires PoolInv(p) && CanStep(p, Finish(t))
    ensures PoolInv(Stepped(p, Finish(t)))
  {
    hide Inv;
    var p' := Stepped(p, Finish(t));
    forall i: nat | i < |p'.m.popped| ensures i in p'.done || HasWorker(p', i) {
      if i !in p.done && i != p.work[t].i {
        var u :| u in p.work && p.work[u] == Working(i);
        assert p'.work[u] == Working(i);
      }
    }
  }

  lemma LookKeeps(p: Pool, t: Tid)
    requires PoolInv(p) && CanStep(p, Look(t))
    ensures PoolInv(Stepped(p, Look(t)))
  {
    hide Inv, TasksFit;
    StepKeeps(p.m, CallPop(t));
    LookKeepsTasks(p, t);
  }

  lemma LookKeepsTasks(p: Pool, t: Tid)
    requires PoolInv(p) && CanStep(p, Look(t))
    ensures TasksFit(Stepped(p, Look(t)))
  {
    hide Inv, PlacesFit, StopFits;
    var p' := Stepped(p, Look(t));
    forall i: nat | i < |p'.m.popped| ensures i in p'.done || HasWorker(p', i) {
      if i !in p.done {
        var u :| u in p.work && p.work[u] == Working(i);
        assert p'.work[u] == Working(i);
      }
    }
  }

  lemma OwnerKeeps(p: Pool, s: PoolStep)
    requires PoolInv(p) && CanStep(p, s) && !s.Queue? && !s.Look? && !s.Finish?
    ensures PoolInv(Stepped(p, s))
  {
    hide Inv, TasksFit;
    if s.AddRequest? { StepKeeps(p.m, CallPush(MAIN, s.e)); }
    if s.ClearQueueFlag? { StepKeeps(p.m, ClearFlag); }
    if s.Notify? { StepKeeps(p.m, NotifyAll); }
    OwnerKeepsTasks(p, s);
  }

  lemma OwnerKeepsTasks(p: Pool, s: PoolStep)
    requires PoolInv(p) && CanStep(p, s) && !s.Queue? && !s.Look? && !s.Finish?
    ensures TasksFit(Stepped(p, s))
  {
    hide Inv, PlacesFit, StopFits;
    var p' := Stepped(p, s);
    forall i: nat | i < |p'.m.popped| ensures i in p'.done || HasWorker(p', i) {
      if i !in p.done {
        var u :| u in p.work && p.work[u] == Working(i);
        assert p'.work[u] == Working(i);
      }
    }
  }

  lemma PoolStepKeeps(p: Pool, s: PoolStep)
    requires PoolInv(p) && CanStep(p, s)
    ensures PoolInv(Stepped(p, s))
  {
    match s {
      case Queue(q) =>
        hide Inv, Do, Enabled, PlacesFit, TasksFit, StopFits;
        StepKeeps(p.m, q);
        QueueKeepsPlaces(p, q);
        QueueKeepsTasks(p, q);
        QueueKeepsStop(p, q);
      case Look(t) => LookKeeps(p, t);
      case Finish(t) => FinishKeeps(p, t);
      case _ => OwnerKeeps(p, s);
    }
  }

  // ---- Runs ----

  /** A pool as start() leaves it. */
  function Started(cap: nat, workers: set<Tid>): Pool {
    Pool(Start(cap), Running, false, map t | t in workers :: Top, [])
  }

  ghost predicate IsPoolRun(p: Pool, steps: seq<PoolStep>)
    decreases |steps|
  {
    steps == [] || (CanStep(p, steps[0]) && IsPoolRun(Stepped(p, steps[0]), steps[1..]))
  }

  ghost function PoolAfter(p: Pool, steps: seq<PoolStep>): Pool
    requires IsPoolRun(p, steps)
    decreases |steps|
  {
    if steps == [] then p else PoolAfter(Stepped(p, steps[0]), steps[1..])
  }

  lemma {:induction false} PoolRunsKeep(p: Pool, steps: seq<PoolStep>)
    requires PoolInv(p) && IsPoolRun(p, steps)
    ensures PoolInv(PoolAfter(p, steps)) && PoolAfter(p, steps).m.cap == p.m.cap
    decreases |steps|
  {
    hide PoolInv, CanStep, Stepped;
    if steps != [] {
      PoolStepKeeps(p, steps[0]);
      CapStays(p, steps[0]);
      PoolRunsKeep(Stepped(p, steps[0]), steps[1..]);
    }
  }

  lemma CapStays(p: Pool, s: PoolStep)
    requires CanStep(p, s)
    ensures Stepped(p, s).m.cap == p.m.cap
  {
  }

  /** The tasks given to addRequest, read off the steps alone. */
  function Added(steps: seq<PoolStep>): seq<Task> {
    if steps == [] then [] else (if steps[0].AddRequest? then [steps[0].e] else []) + Added(steps[1..])
  }

  /** A step of the pool pushes only what the owner has in hand, and the owner gets only what it adds. */
  lemma StepAdds(p: Pool, s: PoolStep)
    requires PoolInv(p) && CanStep(p, s)
    ensures Stepped(p, s).m.pushed + InHand(Stepped(p, s).m, MAIN)
         == p.m.pushed + InHand(p.m, MAIN) + if s.AddRequest? then [s.e] else []
  {
    hide Inv, TasksFit, StopFits;
    if s.Queue? {
      QueueAdds(p, s.s);
    } else {
      assert InHand(p.m, MAIN) == [] || !s.AddRequest?;
    }
  }

  lemma QueueAdds(p: Pool, q: Step)
    requires PoolInv(p) && CanStep(p, Queue(q))
    ensures Do(p.m, q).pushed + InHand(Do(p.m, q), MAIN) == p.m.pushed + InHand(p.m, MAIN)
  {
    hide Inv, TasksFit, StopFits, Do;
    StepPuts(p.m, q, MAIN);
    PutterIsOwner(p, q);
    var ps := Puts(p.m, q);
    assert Tasks(ps) == TasksOf(ps, MAIN) by { if ps != [] { assert ps[1..] == []; } }
    Assoc(p.m.pushed, TasksOf(ps, MAIN), InHand(Do(p.m, q), MAIN));
  }

  lemma PutterIsOwner(p: Pool, q: Step)
    requires PoolInv(p) && CanStep(p, Queue(q))
    ensures q.TryPush? ==> q.t == MAIN
  {
    hide Inv, TasksFit, StopFits, Do;
  }

  lemma {:induction false} RunAdds(p: Pool, steps: seq<PoolStep>)
    requires PoolInv(p) && IsPoolRun(p, steps)
    ensures PoolAfter(p, steps).m.pushed + InHand(PoolAfter(p, steps).m, MAIN)
         == p.m.pushed + InHand(p.m, MAIN) + Added(steps)
    decreases |steps|
  {
    hide PoolInv, CanStep, Stepped, InHand;
    if steps == [] {
      assert p.m.pushed + InHand(p.m, MAIN) + [] == p.m.pushed + InHand(p.m, MAIN);
    } else {
      PoolStepKeeps(p, steps[0]);
      StepAdds(p, steps[0]);
      RunAdds(Stepped(p, steps[0]), steps[1..]);
      Assoc(p.m.pushed + InHand(p.m, MAIN), if steps[0].AddRequest? then [steps[0].e] else [], Added(steps[1..]));
    }
  }

  lemma OwnerInHand(p: Pool)
    requires PoolInv(p)
    ensures |InHand(p.m, MAIN)| <= 1 && (p.owner != Pushing ==> InHand(p.m, MAIN) == [])
  {
    hide Inv, TasksFit, StopFits;
  }

  /** Over every run, what was pushed are the tasks given to addRequest, in order; all of them, except for the
      one that addRequest is still pushing. */
  lemma PushedWasAdded(cap: nat, workers: set<Tid>, steps: seq<PoolStep>)
    requires MAIN !in workers && IsPoolRun(Started(cap, workers), steps)
    ensures var p := PoolAfter(Started(cap, workers), steps);
            p.m.pushed <= Added(steps) && |Added(steps)| <= |p.m.pushed| + 1
            && (p.owner != Pushing ==> p.m.pushed == Added(steps))
  {
    hide IsPoolRun, PoolAfter, PoolInv, InHand;
    var p0 := Started(cap, workers);
    StartedFits(cap, workers);
    RunAdds(p0, steps);
    PoolRunsKeep(p0, steps);
    OwnerInHand(p0);
    OwnerInHand(PoolAfter(p0, steps));
    assert p0.m.pushed + InHand(p0.m, MAIN) + Added(steps) == Added(steps);
  }

  /** Drain on stop, over every run: at any time the tasks pushed are the tasks popped followed by
      those queued, at most queSize of them; and once stop() has joined the workers every task
      that was given to addRequest has been processed, exactly once. */
  lemma DrainOnStop(cap: nat, workers: set<Tid>, steps: seq<PoolStep>)
    requires MAIN !in workers && IsPoolRun(Started(cap, workers), steps)
    ensures var p := PoolAfter(Started(cap, workers), steps);
            p.m.pushed == p.m.popped + p.m.que && |p.m.que| <= cap
            && (p.owner == Joined ==>
                  p.m.popped == p.m.pushed == Added(steps) && |p.done| == |p.m.pushed|
                  && (forall i: nat | i < |p.m.pushed| :: i in p.done)
                  && forall k, l | 0 <= k < l < |p.done| :: p.done[k] != p.done[l])
  {
    hide IsPoolRun, PoolAfter;
    var p0 := Started(cap, workers);
    assert PoolInv(p0);
    PoolRunsKeep(p0, steps);
    PushedWasAdded(cap, workers, steps);
    var p := PoolAfter(p0, steps);
    if p.owner == Joined {
      assert p.m.popped + [] == p.m.popped;
      forall i: nat | i < |p.m.popped| ensures i in p.done {
        assert !HasWorker(p, i);
      }
      CoversOnce(p.done, |p.m.popped|);
    }
  }

  /** A list without repetitions that covers 0..n and nothing else has n entries. */
  lemma CoversOnce(xs: seq<nat>, n: nat)
    requires forall k, l | 0 <= k < l < |xs| :: xs[k] != xs[l]
    requires forall i: nat :: i in xs <==> i < n
    ensures |xs| == n
  {
    ElementsAre(xs);
    DistinctElements(xs);
    Below(n);
    assert Elements(xs) == UpTo(n);
  }

  function Elements(xs: seq<nat>): set<nat> {
    if xs == [] then {} else Elements(xs[1..]) + {xs[0]}
  }

  lemma {:induction false} ElementsAre(xs: seq<nat>)
    ensures forall x: nat :: x in Elements(xs) <==> x in xs
  {
    if xs != [] {
      ElementsAre(xs[1..]);
      assert xs == [xs[0]] + xs[1..];
    }
  }

  lemma {:induction false} DistinctElements(xs: seq<nat>)
    requires forall k, l | 0 <= k < l < |xs| :: xs[k] != xs[l]
    ensures |Elements(xs)| == |xs|
  {
    if xs != [] {
      var rest := xs[1..];
      assert forall j | 0 <= j < |rest| :: rest[j] == xs[j + 1];
      DistinctElements(rest);
      ElementsAre(rest);
      assert xs[0] !in Elements(rest);
    }
  }

  function UpTo(n: nat): set<nat> {
    if n == 0 then {} else UpTo(n - 1) + {n - 1}
  }

  lemma {:induction false} Below(n: nat)
    ensures |UpTo(n)| == n && forall i: nat :: i in UpTo(n) <==> i < n
  {
    if n > 0 { Below(n - 1); }
  }

  // ---- After the exit flags ----

  /** After the exit flag is set no worker starts another pop, and the one it may still be in
      returns null. */
  lemma LastPopIsNull(p: Pool, s: PoolStep, t: Tid)
    requires PoolInv(p) && p.isExit && CanStep(p, s) && t in p.work
    ensures Stepped(p, s).m.popped == p.m.popped
    ensures Stepped(p, s).work[t] == Popping ==> p.work[t] == Popping
    ensures p.work[t] == Popping ==> Stepped(p, s).work[t] == Popping || Stepped(p, s).work[t] == Top
    ensures p.work[t] == Top ==> Stepped(p, s).work[t] == Top || Stepped(p, s).work[t] == Exited
  {
    if s.Queue? {
      hide Do, Inv, Enabled;
      ActorStays(p.m, s.s);
    }
  }

  // ---- The shutdown ends ----

  /** stop() is joining its workers and no consumer sleeps or is about to. */
  predicate Ending(p: Pool) {
    PoolInv(p) && p.owner == Joining && Released(p.m)
  }

  /** How many steps a worker takes until it leaves, when nobody sleeps any more. */
  function Rank(p: Pool, t: Tid): nat {
    if t !in p.work || p.work[t] == Exited then 0
    else if p.work[t] != Popping then (if p.work[t] == Top then 1 else 2)
    else if PlaceOf(p.m, t).HoldPop? then 2 else 3
  }

  function WorkerOf(s: PoolStep): Tid {
    match s
    case Queue(q) => Actor(q)
    case Look(t) => t
    case Finish(t) => t
    case _ => MAIN
  }

  lemma NobodySleeps(p: Pool, t: Tid)
    requires Ending(p) && t in p.m.pc
    ensures !p.m.pc[t].SleepPop? && !p.m.pc[t].DozePop?
  {
    assert SleepsPop(p.m.pc[t]) ==> t in Those(p.m.pc, SleepsPop);
  }

  lemma Awake(p: Pool, t: Tid)
    requires Ending(p)
    requires (t in p.work && p.work[t] == Popping) || p.m.lock == Some(t)
    ensures t in p.work && p.work[t] == Popping && t in p.m.pc
    ensures if p.m.lock == Some(t) then p.m.pc[t].HoldPop? else p.m.pc[t].WantPop?
  {
    if t in p.m.pc { NobodySleeps(p, t); }
  }

  lemma EndingStaysReleased(p: Pool, s: PoolStep)
    requires Ending(p) && CanStep(p, s) && s != Join
    ensures Ending(Stepped(p, s)) && WorkerOf(s) in p.work && Stepped(p, s).work.Keys == p.work.Keys
  {
    hide PoolInv, Released;
    PoolStepKeeps(p, s);
    if s.Queue? { ReleasedStays(p.m, s.s); }
    ExitIsSet(p);
  }

  lemma ExitIsSet(p: Pool)
    requires Ending(p)
    ensures p.isExit && !p.m.flag
  {
  }

  /** Every step but the last join is a worker's, and brings just this worker closer to leaving. */
  lemma EndingStep(p: Pool, s: PoolStep)
    requires Ending(p) && CanStep(p, s) && s != Join
    ensures Rank(Stepped(p, s), WorkerOf(s)) < Rank(p, WorkerOf(s))
    ensures forall v | v in p.work && v != WorkerOf(s) :: Rank(Stepped(p, s), v) == Rank(p, v)
  {
    var p', t := Stepped(p, s), WorkerOf(s);
    if s.Queue? {
      Awake(p, t);
      assert s.s.Acquire? || s.s.TryPop?;
    }
    hide Inv, TasksFit, PlacesFit;
    forall v | v in p.work && v != t ensures Rank(p', v) == Rank(p, v) {
      assert p'.work[v] == p.work[v] && PlaceOf(p'.m, v) == PlaceOf(p.m, v);
    }
  }

  /** All the steps the workers `ts` still take. */
  ghost function Turns(p: Pool, ts: set<Tid>): nat
    decreases |ts|
  {
    if ts == {} then 0 else
    var t :| t in ts;
    Rank(p, t) + Turns(p, ts - {t})
  }

  lemma {:induction false} TurnsOf(p: Pool, ts: set<Tid>, t: Tid)
    requires t in ts
    ensures Turns(p, ts) == Rank(p, t) + Turns(p, ts - {t})
    decreases |ts|
  {
    hide Rank;
    var u :| u in ts && Turns(p, ts) == Rank(p, u) + Turns(p, ts - {u});
    if u != t {
      TurnsOf(p, ts - {u}, t);
      TurnsOf(p, ts - {t}, u);
      assert ts - {u} - {t} == ts - {t} - {u};
    }
  }

  lemma {:induction false} SameTurns(p: Pool, p': Pool, ts: set<Tid>)
    requires forall t | t in ts :: Rank(p', t) == Rank(p, t)
    ensures Turns(p', ts) == Turns(p, ts)
    decreases |ts|
  {
    hide Rank;
    if ts != {} {
      var t :| t in ts;
      TurnsOf(p, ts, t);
      TurnsOf(p', ts, t);
      SameTurns(p, p', ts - {t});
    }
  }

  lemma TurnsDrop(p: Pool, s: PoolStep)
    requires Ending(p) && CanStep(p, s) && s != Join
    ensures var p' := Stepped(p, s);
            Ending(p') && Turns(p', p'.work.Keys) < Turns(p, p.work.Keys)
  {
    hide Ending, CanStep, Rank;
    var p', ts, t := Stepped(p, s), p.work.Keys, WorkerOf(s);
    EndingStaysReleased(p, s);
    EndingStep(p, s);
    TurnsOf(p, ts, t);
    TurnsOf(p', ts, t);
    SameTurns(p, p', ts - {t});
  }

  /** As long as stop() has not joined all workers, somebody can go on, and needs no spurious wakeup. */
  lemma SomeStep(p: Pool) returns (s: PoolStep)
    requires Ending(p)
    ensures CanStep(p, s) && Unprompted(s)
  {
    ExitIsSet(p);
    if t :| t in p.work && p.work[t] != Exited {
      if p.work[t].Working? { return Finish(t); }
      if p.work[t] == Top { return Look(t); }
      if p.m.lock == None {
        Awake(p, t);
        return Queue(Acquire(t));
      }
      var u := p.m.lock.value;
      Awake(p, u);
      var sleepers := Those(p.m.pc, SleepsPush);
      if sleepers == {} { return Queue(TryPop(u, None)); }
      var w :| w in sleepers;
      return Queue(TryPop(u, Some(w)));
    }
    s := Join;
  }

  predicate Unprompted(s: PoolStep) {
    !(s.Queue? && s.s.Spurious?)
  }

  lemma NothingAfterJoin(p: Pool, s: PoolStep)
    requires PoolInv(p) && p.owner == Joined
    ensures !CanStep(p, s)
  {
  }

  lemma JoinEnds(p: Pool, rest: seq<PoolStep>)
    requires Ending(p) && CanStep(p, Join) && IsPoolRun(Stepped(p, Join), rest)
    ensures rest == [] && Stepped(p, Join).owner == Joined
  {
    hide PoolInv, CanStep;
    PoolStepKeeps(p, Join);
    JoinJoins(p);
    if rest != [] { NothingAfterJoin(Stepped(p, Join), rest[0]); }
  }

  lemma JoinJoins(p: Pool)
    requires CanStep(p, Join)
    ensures Stepped(p, Join).owner == Joined
  {
  }

  lemma {:induction false} EndsWithin(p: Pool, steps: seq<PoolStep>)
    requires Ending(p) && IsPoolRun(p, steps)
    ensures |steps| <= Turns(p, p.work.Keys) + 1
    ensures var e := PoolAfter(p, steps);
            if e.owner == Joined then forall s :: !CanStep(e, s) else Ending(e) && exists s :: CanStep(e, s)
    decreases |steps|
  {
    hide Ending, CanStep, Stepped, PoolInv, Turns;
    if steps == [] {
      OwnerIsJoining(p);
      var s := SomeStep(p);
    } else if steps[0] == Join {
      JoinEnds(p, steps[1..]);
      JoinKeeps(p);
      forall s ensures !CanStep(Stepped(p, Join), s) { NothingAfterJoin(Stepped(p, Join), s); }
    } else {
      TurnsDrop(p, steps[0]);
      EndsWithin(Stepped(p, steps[0]), steps[1..]);
    }
  }

  lemma {:induction false} AtMostThree(p: Pool, ts: set<Tid>)
    ensures Turns(p, ts) <= 3 * |ts|
    decreases |ts|
  {
    if ts != {} {
      var t :| t in ts;
      TurnsOf(p, ts, t);
      AtMostThree(p, ts - {t});
    }
  }

  /** The shutdown ends: once the queue is released every run is finite, at most three steps for each
      worker and the join, and a run that cannot go on has joined all workers. */
  lemma ShutdownEnds(p: Pool, steps: seq<PoolStep>)
    requires Ending(p) && IsPoolRun(p, steps)
    ensures |steps| <= 3 * |p.work.Keys| + 1
    ensures PoolAfter(p, steps).owner == Joined || exists s :: CanStep(PoolAfter(p, steps), s)
  {
    EndsWithin(p, steps);
    AtMostThree(p, p.work.Keys);
  }

  lemma OwnerIsJoining(p: Pool)
    requires Ending(p)
    ensures p.owner == Joining
  {
  }

  lemma JoinKeeps(p: Pool)
    requires Ending(p) && CanStep(p, Join)
    ensures PoolInv(Stepped(p, Join))
  {
    PoolStepKeeps(p, Join);
  }

  lemma {:induction false} CanFinish(p: Pool) returns (steps: seq<PoolStep>)
    requires Ending(p)
    ensures IsPoolRun(p, steps) && PoolAfter(p, steps).owner == Joined && forall s <- steps :: Unprompted(s)
    decreases Turns(p, p.work.Keys)
  {
    hide Ending, CanStep, Stepped, PoolInv, Turns;
    var s := SomeStep(p);
    var rest := [];
    if s == Join {
      JoinJoins(p);
      assert IsPoolRun(Stepped(p, s), []);
    } else {
      TurnsDrop(p, s);
      rest := CanFinish(Stepped(p, s));
    }
    steps := [s] + rest;
    assert steps[1..] == rest;
  }

  // ---- And when it need not ----

  /** Some run comes to a point from which no run without a spurious wakeup lets stop() return. */
  ghost predicate CanHang(p: Pool) {
    exists steps :: IsPoolRun(p, steps) && HangsAt(PoolAfter(p, steps))
  }

  ghost predicate HangsAt(p: Pool) {
    forall more :: IsPoolRun(p, more) && (forall s <- more :: Unprompted(s)) ==> PoolAfter(p, more).owner != Joined
  }

  /** A consumer that sleeps after everybody was notified. */
  predicate Stranded(p: Pool, t: Tid) {
    PoolInv(p) && p.owner == Joining && t in p.work && p.work[t] == Popping && PlaceOf(p.m, t) == SleepPop
  }

  lemma StrandedStays(p: Pool, s: PoolStep, t: Tid)
    requires Stranded(p, t) && CanStep(p, s) && Unprompted(s)
    ensures Stranded(Stepped(p, s), t)
  {
    hide Inv, TasksFit, PoolInv, Do, Enabled;
    PoolStepKeeps(p, s);
    if s.Queue? { SleeperStays(p, s.s, t); }
    NoJoinYet(p, s, t);
  }

  lemma NoJoinYet(p: Pool, s: PoolStep, t: Tid)
    requires Stranded(p, t) && CanStep(p, s)
    ensures p.isExit && Stepped(p, s).owner == Joining
    ensures s.Queue? || s == Look(WorkerOf(s)) || s == Finish(WorkerOf(s))
  {
  }

  lemma SleeperStays(p: Pool, q: Step, t: Tid)
    requires Stranded(p, t) && CanStep(p, Queue(q)) && !q.Spurious?
    ensures Actor(q) != t && PlaceOf(Do(p.m, q), t) == SleepPop
  {
    hide Inv, TasksFit;
    assert !q.TryPush?;
  }

  lemma {:induction false} StrandedHangs(p: Pool, t: Tid, more: seq<PoolStep>)
    requires Stranded(p, t) && IsPoolRun(p, more) && forall s <- more :: Unprompted(s)
    ensures Stranded(PoolAfter(p, more), t)
    decreases |more|
  {
    hide Stranded, CanStep, Stepped;
    if more != [] {
      assert more[0] in more;
      StrandedStays(p, more[0], t);
      StrandedHangs(Stepped(p, more[0]), t, more[1..]);
    }
  }

  /** A consumer between its look and its sleep when all are notified. */
  lemma DozerStrands(p: Pool, t: Tid)
    requires PoolInv(p) && p.owner == FlagCleared && t in p.m.pc && p.m.pc[t].DozePop?
    ensures var p' := Stepped(p, Notify);
            CanStep(p', Queue(Sleep(t))) && Stranded(Stepped(p', Queue(Sleep(t))), t)
  {
    hide PoolInv;
    var p' := Stepped(p, Notify);
    DozerPops(p, t);
    PoolStepKeeps(p, Notify);
    PoolStepKeeps(p', Queue(Sleep(t)));
  }

  lemma DozerPops(p: Pool, t: Tid)
    requires PoolInv(p) && p.owner != Pushing && t in p.m.pc && p.m.pc[t].DozePop?
    ensures t != MAIN && t in p.work && p.work[t] == Popping
  {
    hide Inv, TasksFit, StopFits;
  }

  lemma NoDozerReleases(p: Pool)
    requires PoolInv(p) && p.owner == FlagCleared && !exists t :: t in p.m.pc && p.m.pc[t].DozePop?
    ensures Ending(Stepped(p, Notify))
  {
    hide PoolInv, Released;
    PoolStepKeeps(p, Notify);
    FlagIsClear(p);
    NotifiedIsReleased(p.m);
  }

  lemma FlagIsClear(p: Pool)
    requires PoolInv(p) && p.owner == FlagCleared
    ensures !p.m.flag
  {
  }

  lemma NotifiedIsReleased(m: Monitor)
    requires !m.flag && !exists t :: t in m.pc && m.pc[t].DozePop?
    ensures Released(Do(m, NotifyAll))
  {
    assert Those(Do(m, NotifyAll).pc, SleepsPop) == {};
  }

  /** wakeup() does not take the mutex, so stop() can wait for ever, if and only if some consumer
      stands between its look and its sleep at the moment when all are notified. */
  lemma StopHangsIff(p: Pool)
    requires PoolInv(p) && p.owner == FlagCleared
    ensures CanHang(Stepped(p, Notify)) <==> exists t :: t in p.m.pc && p.m.pc[t].DozePop?
  {
    hide PoolInv, Ending, CanStep, Stepped, Stranded;
    CanNotify(p);
    var p' := Stepped(p, Notify);
    if t :| t in p.m.pc && p.m.pc[t].DozePop? {
      DozerStrands(p, t);
      var run := [Queue(Sleep(t))];
      var p1 := Stepped(p', run[0]);
      assert run[1..] == [];
      assert IsPoolRun(p1, []);
      forall more | IsPoolRun(p1, more) && forall s <- more :: Unprompted(s)
        ensures PoolAfter(p1, more).owner != Joined
      {
        StrandedHangs(p1, t, more);
        StrandedIsJoining(PoolAfter(p1, more), t);
      }
      assert PoolAfter(p', run) == p1 && HangsAt(p1);
    } else {
      NoDozerReleases(p);
      forall steps | IsPoolRun(p', steps) ensures !HangsAt(PoolAfter(p', steps)) {
        EndsWithin(p', steps);
        var e := PoolAfter(p', steps);
        if e.owner == Joined {
          assert IsPoolRun(e, []) && PoolAfter(e, []) == e;
        } else {
          var more := CanFinish(e);
        }
      }
    }
  }

  lemma CanNotify(p: Pool)
    requires p.owner == FlagCleared
    ensures CanStep(p, Notify)
  {
  }

  lemma StrandedIsJoining(p: Pool, t: Tid)
    requires Stranded(p, t)
    ensures p.owner == Joining
  {
  }

  lemma OneStep(p: Pool, s: PoolStep, rest: seq<PoolStep>)
    requires CanStep(p, s) && IsPoolRun(Stepped(p, s), rest)
    ensures IsPoolRun(p, [s] + rest) && PoolAfter(p, [s] + rest) == PoolAfter(Stepped(p, s), rest)
  {
    hide CanStep, Stepped;
    assert ([s] + rest)[1..] == rest;
  }

  /** A worker that finds the queue empty, and has not gone to sleep yet. */
  lemma OneDozes(cap: nat, workers: set<Tid>, t: Tid) returns (p: Pool)
    requires MAIN !in workers && t in workers
    ensures var steps := [Look(t), Queue(Acquire(t)), Queue(TryPop(t, None))];
            IsPoolRun(Started(cap, workers), steps) && p == PoolAfter(Started(cap, workers), steps)
    ensures p.owner == Running && p.m.que == [] && p.m.pc == map[t := DozePop]
  {
    var p0 := Started(cap, workers);
    assert CanStep(p0, Look(t));
    var p1 := Stepped(p0, Look(t));
    assert CanStep(p1, Queue(Acquire(t)));
    var p2 := Stepped(p1, Queue(Acquire(t)));
    assert Those(p2.m.pc, SleepsPush) == {};
    assert CanStep(p2, Queue(TryPop(t, None)));
    p := Stepped(p2, Queue(TryPop(t, None)));
    hide CanStep, Stepped;
    assert IsPoolRun(p, []);
    OneStep(p2, Queue(TryPop(t, None)), []);
    OneStep(p1, Queue(Acquire(t)), [Queue(TryPop(t, None))]);
    OneStep(p0, Look(t), [Queue(Acquire(t)), Queue(TryPop(t, None))]);
  }

  lemma OwnerStops(p: Pool) returns (p': Pool)
    requires p.owner == Running && p.m.que == []
    ensures var steps := [BeginStop, SeeEmpty, ClearQueueFlag];
            IsPoolRun(p, steps) && p' == PoolAfter(p, steps)
    ensures p'.owner == FlagCleared && p'.m.pc == p.m.pc
  {
    var p1 := Stepped(p, BeginStop);
    var p2 := Stepped(p1, SeeEmpty);
    p' := Stepped(p2, ClearQueueFlag);
    assert CanStep(p, BeginStop) && CanStep(p1, SeeEmpty) && CanStep(p2, ClearQueueFlag);
    hide CanStep, Stepped;
    assert IsPoolRun(p', []);
    OneStep(p2, ClearQueueFlag, []);
    OneStep(p1, SeeEmpty, [ClearQueueFlag]);
    OneStep(p, BeginStop, [SeeEmpty, ClearQueueFlag]);
  }

  lemma {:induction false} PoolRunsChain(p: Pool, a: seq<PoolStep>, b: seq<PoolStep>)
    requires IsPoolRun(p, a) && IsPoolRun(PoolAfter(p, a), b)
    ensures IsPoolRun(p, a + b) && PoolAfter(p, a + b) == PoolAfter(PoolAfter(p, a), b)
    decreases |a|
  {
    hide CanStep, Stepped;
    if a == [] {
      assert a + b == b;
    } else {
      assert (a + b)[0] == a[0] && (a + b)[1..] == a[1..] + b;
      PoolRunsChain(Stepped(p, a[0]), a[1..], b);
    }
  }

  /** And this does happen: a pool of any size that is started and stopped with nothing to do can hang. */
  lemma StopCanHang(cap: nat, workers: set<Tid>, t: Tid) returns (steps: seq<PoolStep>)
    requires MAIN !in workers && t in workers
    ensures IsPoolRun(Started(cap, workers), steps) && CanHang(PoolAfter(Started(cap, workers), steps))
  {
    hide CanStep, Stepped, PoolInv, CanHang;
    var p0 := Started(cap, workers);
    StartedFits(cap, workers);
    var dozes := [Look(t), Queue(Acquire(t)), Queue(TryPop(t, None))];
    var p1 := OneDozes(cap, workers, t);
    var stops := [BeginStop, SeeEmpty, ClearQueueFlag];
    var p2 := OwnerStops(p1);
    PoolRunsChain(p0, dozes, stops);
    PoolRunsKeep(p0, dozes + stops);
    assert t in p2.m.pc && p2.m.pc[t].DozePop?;
    StopHangsIff(p2);
    CanNotify(p2);
    assert IsPoolRun(Stepped(p2, Notify), []);
    OneStep(p2, Notify, []);
    assert [Notify] + [] == [Notify];
    PoolRunsChain(p0, dozes + stops, [Notify]);
    steps := dozes + stops + [Notify];
  }

  lemma StartedFits(cap: nat, workers: set<Tid>)
    requires MAIN !in workers
    ensures PoolInv(Started(cap, workers))
  {
  }
}
