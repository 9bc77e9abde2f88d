/** The bounded blocking queue: its fields and critical sections, and the monitor they make up
    with a mutex and two condition variables. */
module TaskQueues {
  import opened Sequences
  import opened Options

  datatype Popped<T> = MustWait | Got(value: T) | Null

  function PopOutcome<T>(que: seq<T>, flag: bool): Popped<T> {
    if flag && que == [] then MustWait else if flag then Got(que[0]) else Null
  }

  /** The queue object. PushTurn and PopTurn are one pass through the wait loops, under the mutex. */
  class TaskQueue<T> {
    const queSize: nat
    var que: seq<T>
    var flag: bool

    constructor (size: nat)
      ensures queSize == size && que == [] && flag
    {
      queSize, que, flag := size, [], true;
    }

    method Empty() returns (b: bool)
      ensures b <==> que == []
    {
      b := |que| == 0;
    }

    method Full() returns (b: bool)
      ensures b <==> |que| == queSize
    {
      b := |que| == queSize;
    }

    method PushTurn(e: T) returns (wait: bool)
      modifies this`que
      ensures wait <==> |old(que)| == queSize
      ensures que == if wait then old(que) else old(que) + [e]
    {
      wait := Full();
      if !wait {
        que := que + [e];
      }
    }

    method PopTurn() returns (r: Popped<T>)
      modifies this`que
      ensures r == PopOutcome(old(que), flag)
      ensures que == if r.Got? then old(que)[1..] else old(que)
    {
      var empty := Empty();
      if flag && empty {
        r := MustWait;
      } else if flag {
        r := Got(que[0]);
        que := que[1..];
      } else {
        r := Null;
      }
    }

    method Wakeup()
      modifies this`flag
      ensures !flag
    {
      flag := false;
    }
  }

  // ---- The monitor ----

  type Tid = nat
  type Task = nat

  /** Where a thread is. `woken` threads have slept and have not looked again yet; a dozing thread
      has decided to wait and still holds the mutex. */
  datatype Pc =
    | Idle
    | WantPush(e: Task, woken: bool) | HoldPush(e: Task, woken: bool) | DozePush(e: Task) | SleepPush(e: Task)
    | WantPop(woken: bool) | HoldPop(woken: bool) | DozePop | SleepPop

  datatype Monitor = Monitor(
    cap: nat, que: seq<Task>, flag: bool, lock: Option<Tid>, pc: map<Tid, Pc>,
    pushed: seq<Task>, popped: seq<Task>)   // everything ever pushed and popped, in order

  datatype Step =
    | CallPush(t: Tid, e: Task) | CallPop(t: Tid)
    | Acquire(t: Tid)                       // the mutex, at the start or after waking
    | TryPush(t: Tid, notify: Option<Tid>)  // look, then push, notify one consumer and release, or doze
    | TryPop(t: Tid, notify: Option<Tid>)
    | Sleep(t: Tid)                         // release the mutex and wait, in one step
    | Spurious(t: Tid)
    | ClearFlag                             // the two halves of wakeup(); neither takes the mutex
    | NotifyAll

  predicate Holds(p: Pc) {
    p.HoldPush? || p.DozePush? || p.HoldPop? || p.DozePop?
  }

  predicate SleepsPop(p: Pc) { p.SleepPop? }
  predicate SleepsPush(p: Pc) { p.SleepPush? }
  predicate RechecksPop(p: Pc) { (p.WantPop? || p.HoldPop?) && p.woken }
  predicate RechecksPush(p: Pc) { (p.WantPush? || p.HoldPush?) && p.woken }

  /** The threads whose place satisfies `p`. */
  function Those(pc: map<Tid, Pc>, p: Pc -> bool): set<Tid> {
    set t | t in pc && p(pc[t])
  }

  lemma ThoseUpdate(pc: map<Tid, Pc>, t: Tid, x: Pc, p: Pc -> bool)
    ensures Those(pc[t := x], p) == if p(x) then Those(pc, p) + {t} else Those(pc, p) - {t}
  {
  }

  /** notify_one wakes a sleeper whenever there is one. */
  predicate Notifies(sleepers: set<Tid>, notify: Option<Tid>) {
    if sleepers == {} then notify == None else notify.Some? && notify.value in sleepers
  }

  function Woken(p: Pc): Pc {
    match p
    case SleepPop => WantPop(true)
    case SleepPush(e) => WantPush(e, true)
    case _ => p
  }

  function Wake(pc: map<Tid, Pc>, notify: Option<Tid>): map<Tid, Pc> {
    if notify.Some? && notify.value in pc then pc[notify.value := Woken(pc[notify.value])] else pc
  }

  predicate Enabled(m: Monitor, s: Step) {
    match s
    case CallPush(t, _) => t !in m.pc || m.pc[t].Idle?
    case CallPop(t) => t !in m.pc || m.pc[t].Idle?
    case Acquire(t) => m.lock == None && t in m.pc && (m.pc[t].WantPush? || m.pc[t].WantPop?)
    case TryPush(t, notify) => t in m.pc && m.pc[t].HoldPush? && Notifies(Those(m.pc, SleepsPop), notify)
    case TryPop(t, notify) => t in m.pc && m.pc[t].HoldPop? && Notifies(Those(m.pc, SleepsPush), notify)
    case Sleep(t) => t in m.pc && (m.pc[t].DozePush? || m.pc[t].DozePop?)
    case Spurious(t) => t in m.pc && (m.pc[t].SleepPush? || m.pc[t].SleepPop?)
    case ClearFlag => true
    case NotifyAll => true
  }

  function Move(m: Monitor, t: Tid, p: Pc): Monitor {
    m.(pc := m.pc[t := p])
  }

  function Do(m: Monitor, s: Step): Monitor
    requires Enabled(m, s)
  {
    match s
    case CallPush(t, e) => Move(m, t, WantPush(e, false))
    case CallPop(t) => Move(m, t, WantPop(false))
    case Acquire(t) =>
      var pc := m.pc[t];
      Move(m, t, if pc.WantPush? then HoldPush(pc.e, pc.woken) else HoldPop(pc.woken)).(lock := Some(t))
    case TryPush(t, notify) =>
      if |m.que| == m.cap then Move(m, t, DozePush(m.pc[t].e))
      else m.(que := m.que + [m.pc[t].e], pushed := m.pushed + [m.pc[t].e], lock := None,
              pc := Wake(m.pc, notify)[t := Idle])
    case TryPop(t, notify) =>
      (match PopOutcome(m.que, m.flag)
       case MustWait => Move(m, t, DozePop)
       case Null => Move(m, t, Idle).(lock := None)
       case Got(x) => m.(que := m.que[1..], popped := m.popped + [x], lock := None,
                         pc := Wake(m.pc, notify)[t := Idle]))
    case Sleep(t) => Move(m, t, if m.pc[t].DozePush? then SleepPush(m.pc[t].e) else SleepPop).(lock := None)
    case Spurious(t) => Move(m, t, Woken(m.pc[t]))
    case ClearFlag => m.(flag := false)
    case NotifyAll => m.(pc := map t | t in m.pc :: if m.pc[t].SleepPop? then WantPop(true) else m.pc[t])
  }

  // ---- The invariant ----

  predicate LockFits(m: Monitor) {
    && (m.lock.Some? ==> m.lock.value in m.pc)
    && forall t | t in m.pc :: Holds(m.pc[t]) <==> m.lock == Some(t)
  }

  /** A dozing thread was right: it holds the mutex, so nothing has changed since it looked. */
  predicate DozesFit(m: Monitor) {
    forall t | t in m.pc :: (m.pc[t].DozePush? ==> |m.que| == m.cap) && (m.pc[t].DozePop? && m.flag ==> m.que == [])
  }

  /** No wakeup is lost: if a consumer sleeps, every item has a woken consumer on its way. */
  predicate ItemsCovered(m: Monitor) {
    m.flag && Those(m.pc, SleepsPop) != {} ==> |m.que| <= |Those(m.pc, RechecksPop)|
  }

  /** And if a producer sleeps, so has every free slot a woken producer. */
  predicate SlotsCovered(m: Monitor) {
    Those(m.pc, SleepsPush) != {} ==> m.cap - |m.que| <= |Those(m.pc, RechecksPush)|
  }

  predicate Inv(m: Monitor) {
    LockFits(m) && DozesFit(m) && ItemsCovered(m) && SlotsCovered(m) && |m.que| <= m.cap && m.pushed == m.popped + m.que
  }

  /** One thread goes from a place that is in none of the four sets to another such place. */
  lemma QuietMove(m: Monitor, t: Tid, p: Pc)
    requires t in m.pc ==> !SleepsPop(m.pc[t]) && !SleepsPush(m.pc[t])
    requires t in m.pc ==> !RechecksPop(m.pc[t]) && !RechecksPush(m.pc[t])
    requires !SleepsPop(p) && !SleepsPush(p) && !RechecksPop(p) && !RechecksPush(p)
    ensures SameSets(m, Move(m, t, p))
  {
  }

  predicate SameSets(m: Monitor, m': Monitor) {
    && Those(m'.pc, SleepsPop) == Those(m.pc, SleepsPop) && Those(m'.pc, SleepsPush) == Those(m.pc, SleepsPush)
    && Those(m'.pc, RechecksPop) == Those(m.pc, RechecksPop) && Those(m'.pc, RechecksPush) == Those(m.pc, RechecksPush)
  }

  lemma CallKeeps(m: Monitor, t: Tid, p: Pc)
    requires Inv(m) && (t !in m.pc || m.pc[t].Idle?) && ((p.WantPush? || p.WantPop?) && !p.woken)
    ensures Inv(Move(m, t, p))
  {
    QuietMove(m, t, p);
  }

  lemma AcquireKeeps(m: Monitor, t: Tid)
    requires Inv(m) && Enabled(m, Acquire(t))
    ensures Inv(Do(m, Acquire(t)))
  {
    var m' := Do(m, Acquire(t));
    assert SameSets(m, m');
  }

  /** A move between places without the mutex. */
  lemma FreeMove(m: Monitor, t: Tid, p: Pc)
    requires LockFits(m) && DozesFit(m) && t in m.pc && !Holds(m.pc[t]) && !Holds(p)
    ensures LockFits(Move(m, t, p)) && DozesFit(Move(m, t, p))
  {
  }

  lemma SpuriousKeeps(m: Monitor, t: Tid)
    requires Inv(m) && Enabled(m, Spurious(t))
    ensures Inv(Do(m, Spurious(t)))
  {
    hide LockFits, DozesFit, Those;
    FreeMoveOf(m, t, Woken(m.pc[t]));
    SpuriousSets(m.pc, t);
  }

  lemma SpuriousSets(pc: map<Tid, Pc>, t: Tid)
    requires t in pc && (pc[t].SleepPush? || pc[t].SleepPop?)
    ensures var pc' := pc[t := Woken(pc[t])];
            (Those(pc', SleepsPop) != {} ==> Those(pc, SleepsPop) != {})
            && (Those(pc', SleepsPush) != {} ==> Those(pc, SleepsPush) != {})
            && |Those(pc', RechecksPop)| >= |Those(pc, RechecksPop)|
            && |Those(pc', RechecksPush)| >= |Those(pc, RechecksPush)|
  {
    hide Those;
    var p := Woken(pc[t]);
    ThoseUpdate(pc, t, p, SleepsPop);
    ThoseUpdate(pc, t, p, SleepsPush);
    ThoseUpdate(pc, t, p, RechecksPop);
    ThoseUpdate(pc, t, p, RechecksPush);
    NotThere(pc, t, RechecksPop);
    NotThere(pc, t, RechecksPush);
  }

  lemma NotThere(pc: map<Tid, Pc>, t: Tid, p: Pc -> bool)
    requires t in pc && !p(pc[t])
    ensures t !in Those(pc, p)
  {
  }

  lemma FreeMoveOf(m: Monitor, t: Tid, p: Pc)
    requires Inv(m) && t in m.pc && !Holds(m.pc[t]) && !Holds(p)
    ensures LockFits(Move(m, t, p)) && DozesFit(Move(m, t, p))
  {
    FreeMove(m, t, p);
  }

  lemma SleepLock(m: Monitor, t: Tid, p: Pc)
    requires LockFits(m) && DozesFit(m) && t in m.pc && Holds(m.pc[t]) && !Holds(p)
    ensures LockFits(Move(m, t, p).(lock := None)) && DozesFit(Move(m, t, p).(lock := None))
  {
  }

  lemma SleepKeeps(m: Monitor, t: Tid)
    requires Inv(m) && Enabled(m, Sleep(t))
    ensures Inv(Do(m, Sleep(t)))
  {
    var p := if m.pc[t].DozePush? then SleepPush(m.pc[t].e) else SleepPop;
    SleepLock(m, t, p);
    assert (p.SleepPush? ==> |m.que| == m.cap) && (p.SleepPop? && m.flag ==> m.que == []);
    SleepCovers(m, t, p);
  }

  lemma SleepCovers(m: Monitor, t: Tid, p: Pc)
    requires Inv(m) && t in m.pc && (m.pc[t].DozePush? || m.pc[t].DozePop?) && (p.SleepPush? || p.SleepPop?)
    requires (p.SleepPush? ==> |m.que| == m.cap) && (p.SleepPop? && m.flag ==> m.que == [])
    ensures ItemsCovered(Move(m, t, p)) && SlotsCovered(Move(m, t, p))
  {
    hide LockFits, DozesFit;
    if p.SleepPop? {
      OneLeaves(m.pc, t, p, SleepsPush, RechecksPush);
    } else {
      OneLeaves(m.pc, t, p, SleepsPop, RechecksPop);
    }
  }

  lemma NotifyAllKeeps(m: Monitor)
    requires Inv(m)
    ensures Inv(Do(m, NotifyAll))
  {
    var m' := Do(m, NotifyAll);
    assert Those(m'.pc, SleepsPop) == {};
    assert Those(m'.pc, SleepsPush) == Those(m.pc, SleepsPush);
    assert Those(m'.pc, RechecksPush) == Those(m.pc, RechecksPush);
  }

  /** A thread that has looked and must wait: it leaves the set of the woken. */
  lemma DozeKeeps(m: Monitor, t: Tid, p: Pc)
    requires Inv(m) && t in m.pc
    requires (m.pc[t].HoldPush? && p == DozePush(m.pc[t].e) && |m.que| == m.cap)
             || (m.pc[t].HoldPop? && p.DozePop? && m.flag && m.que == [])
    ensures Inv(Move(m, t, p))
  {
    DozeLock(m, t, p);
    DozeCovers(m, t, p);
  }

  lemma DozeLock(m: Monitor, t: Tid, p: Pc)
    requires LockFits(m) && DozesFit(m) && t in m.pc && Holds(m.pc[t]) && Holds(p)
    requires (p.DozePush? && |m.que| == m.cap) || (p.DozePop? && m.que == [])
    ensures LockFits(Move(m, t, p)) && DozesFit(Move(m, t, p))
  {
  }

  lemma DozeCovers(m: Monitor, t: Tid, p: Pc)
    requires Inv(m) && t in m.pc
    requires (m.pc[t].HoldPush? && p.DozePush? && |m.que| == m.cap) || (m.pc[t].HoldPop? && p.DozePop? && m.que == [])
    ensures ItemsCovered(Move(m, t, p)) && SlotsCovered(Move(m, t, p))
  {
    hide LockFits, DozesFit;
    OneLeaves(m.pc, t, p, SleepsPop, RechecksPop);
    OneLeaves(m.pc, t, p, SleepsPush, RechecksPush);
  }

  /** A thread that does not sleep goes where it neither sleeps nor is woken. */
  lemma OneLeaves(pc: map<Tid, Pc>, t: Tid, p: Pc, sleeps: Pc -> bool, rechecks: Pc -> bool)
    requires t in pc && !sleeps(pc[t]) && !sleeps(p) && !rechecks(p)
    ensures Those(pc[t := p], sleeps) == Those(pc, sleeps)
    ensures !rechecks(pc[t]) ==> Those(pc[t := p], rechecks) == Those(pc, rechecks)
  {
    ThoseUpdate(pc, t, p, sleeps);
    ThoseUpdate(pc, t, p, rechecks);
  }

  /** The four sets after a thread has acted, gone idle and woken another one. */
  lemma ActedSets(pc: map<Tid, Pc>, t: Tid, notify: Option<Tid>, sleeps: Pc -> bool, rechecks: Pc -> bool)
    requires t in pc && !sleeps(pc[t]) && !rechecks(pc[t]) && !sleeps(Idle) && !rechecks(Idle)
    requires Notifies(Those(pc, sleeps), notify)
    requires forall p :: sleeps(p) ==> !sleeps(Woken(p)) && rechecks(Woken(p)) && !rechecks(p)
    ensures var pc' := Wake(pc, notify)[t := Idle];
            Those(pc', sleeps) == (if notify.Some? then Those(pc, sleeps) - {notify.value} else {})
            && (notify.Some? ==>
                  notify.value != t && notify.value !in Those(pc, rechecks)
                  && Those(pc', rechecks) == Those(pc, rechecks) + {notify.value})
  {
    var pc1 := Wake(pc, notify);
    if notify.Some? {
      var n := notify.value;
      ThoseUpdate(pc, n, Woken(pc[n]), sleeps);
      ThoseUpdate(pc, n, Woken(pc[n]), rechecks);
    }
    ThoseUpdate(pc1, t, Idle, sleeps);
    ThoseUpdate(pc1, t, Idle, rechecks);
  }

  /** Waking a thread of the other kind leaves this kind's sets alone, except for the actor. */
  lemma OtherSets(pc: map<Tid, Pc>, t: Tid, notify: Option<Tid>, other: Pc -> bool)
    requires t in pc && !other(Idle)
    requires notify.Some? ==> notify.value in pc && !other(pc[notify.value]) && !other(Woken(pc[notify.value]))
    ensures Those(Wake(pc, notify)[t := Idle], other) == Those(pc, other) - {t}
  {
  }

  /** After an action the mutex is free and nobody dozes. */
  lemma ActedLock(m: Monitor, t: Tid, notify: Option<Tid>)
    requires LockFits(m) && t in m.pc && Holds(m.pc[t])
    ensures var pc' := Wake(m.pc, notify)[t := Idle];
            forall u | u in pc' :: !Holds(pc'[u])
  {
  }

  lemma PushLockFits(m: Monitor, t: Tid, notify: Option<Tid>)
    requires Inv(m) && Enabled(m, TryPush(t, notify)) && |m.que| != m.cap
    ensures LockFits(Do(m, TryPush(t, notify))) && DozesFit(Do(m, TryPush(t, notify)))
  {
    ActedLock(m, t, notify);
  }

  lemma PushKeeps(m: Monitor, t: Tid, notify: Option<Tid>)
    requires Inv(m) && Enabled(m, TryPush(t, notify)) && |m.que| != m.cap
    ensures Inv(Do(m, TryPush(t, notify)))
  {
    hide LockFits, DozesFit, Wake, Those;
    PushLockFits(m, t, notify);
    PushSets(m.pc, t, notify);
    assert m.popped + m.que + [m.pc[t].e] == m.popped + (m.que + [m.pc[t].e]);
  }

  lemma PushSets(pc: map<Tid, Pc>, t: Tid, notify: Option<Tid>)
    requires t in pc && pc[t].HoldPush? && Notifies(Those(pc, SleepsPop), notify)
    ensures var pc' := Wake(pc, notify)[t := Idle];
            (Those(pc', SleepsPop) != {} ==>
               |Those(pc', RechecksPop)| == |Those(pc, RechecksPop)| + 1 && Those(pc, SleepsPop) != {})
            && Those(pc', SleepsPush) == Those(pc, SleepsPush)
            && |Those(pc', RechecksPush)| >= |Those(pc, RechecksPush)| - 1
  {
    hide Wake;
    ActedSets(pc, t, notify, SleepsPop, RechecksPop);
    OtherSets(pc, t, notify, SleepsPush);
    OtherSets(pc, t, notify, RechecksPush);
  }

  lemma PopLockFits(m: Monitor, t: Tid, notify: Option<Tid>)
    requires Inv(m) && Enabled(m, TryPop(t, notify)) && m.flag && m.que != []
    ensures LockFits(Do(m, TryPop(t, notify))) && DozesFit(Do(m, TryPop(t, notify)))
  {
    ActedLock(m, t, notify);
  }

  lemma PopKeeps(m: Monitor, t: Tid, notify: Option<Tid>)
    requires Inv(m) && Enabled(m, TryPop(t, notify)) && m.flag && m.que != []
    ensures Inv(Do(m, TryPop(t, notify)))
  {
    hide LockFits, DozesFit, Wake, Those;
    PopLockFits(m, t, notify);
    PopSets(m.pc, t, notify);
    assert m.popped + m.que == m.popped + [m.que[0]] + m.que[1..];
  }

  lemma PopSets(pc: map<Tid, Pc>, t: Tid, notify: Option<Tid>)
    requires t in pc && pc[t].HoldPop? && Notifies(Those(pc, SleepsPush), notify)
    ensures var pc' := Wake(pc, notify)[t := Idle];
            (Those(pc', SleepsPush) != {} ==>
               |Those(pc', RechecksPush)| == |Those(pc, RechecksPush)| + 1 && Those(pc, SleepsPush) != {})
            && Those(pc', SleepsPop) == Those(pc, SleepsPop)
            && |Those(pc', RechecksPop)| >= |Those(pc, RechecksPop)| - 1
  {
    hide Wake;
    ActedSets(pc, t, notify, SleepsPush, RechecksPush);
    OtherSets(pc, t, notify, SleepsPop);
    OtherSets(pc, t, notify, RechecksPop);
  }

  lemma NullKeeps(m: Monitor, t: Tid, notify: Option<Tid>)
    requires Inv(m) && Enabled(m, TryPop(t, notify)) && !m.flag
    ensures Inv(Do(m, TryPop(t, notify)))
  {
    ThoseUpdate(m.pc, t, Idle, SleepsPush);
    ThoseUpdate(m.pc, t, Idle, RechecksPush);
  }

  lemma StepKeeps(m: Monitor, s: Step)
    requires Inv(m) && Enabled(m, s)
    ensures Inv(Do(m, s))
  {
    hide Inv;
    match s {
      case CallPush(t, e) => CallKeeps(m, t, WantPush(e, false));
      case CallPop(t) => CallKeeps(m, t, WantPop(false));
      case Acquire(t) => AcquireKeeps(m, t);
      case TryPush(t, notify) =>
        if |m.que| == m.cap { DozeKeeps(m, t, DozePush(m.pc[t].e)); } else { PushKeeps(m, t, notify); }
      case TryPop(t, notify) =>
        if !m.flag { NullKeeps(m, t, notify); }
        else if m.que == [] { DozeKeeps(m, t, DozePop); }
        else { PopKeeps(m, t, notify); }
      case Sleep(t) => SleepKeeps(m, t);
      case Spurious(t) => SpuriousKeeps(m, t);
      case ClearFlag => ClearKeeps(m);
      case NotifyAll => NotifyAllKeeps(m);
    }
  }

  lemma ClearKeeps(m: Monitor)
    requires Inv(m)
    ensures Inv(m.(flag := false))
  {
  }

  // ---- Runs ----

  ghost predicate IsRun(m: Monitor, steps: seq<Step>)
    decreases |steps|
  {
    steps == [] || (Enabled(m, steps[0]) && IsRun(Do(m, steps[0]), steps[1..]))
  }

  ghost function After(m: Monitor, steps: seq<Step>): Monitor
    requires IsRun(m, steps)
    decreases |steps|
  {
    if steps == [] then m else After(Do(m, steps[0]), steps[1..])
  }

  function Start(cap: nat): Monitor {
    Monitor(cap, [], true, None, map[], [], [])
  }

  lemma {:induction false} RunsKeep(m: Monitor, steps: seq<Step>)
    requires Inv(m) && IsRun(m, steps)
    ensures Inv(After(m, steps)) && After(m, steps).cap == m.cap
    decreases |steps|
  {
    hide Inv;
    if steps != [] {
      StepKeeps(m, steps[0]);
      RunsKeep(Do(m, steps[0]), steps[1..]);
    }
  }

  /** No lost wakeup, over every run with any number of producers and consumers and any spurious
      wakeups: before shutdown no state has items while all its consumers sleep, nor free slots while
      all its producers sleep; and nothing is lost, duplicated or reordered. */
  lemma NoLostWakeup(cap: nat, steps: seq<Step>)
    requires IsRun(Start(cap), steps)
    ensures var m := After(Start(cap), steps);
            (m.flag && Those(m.pc, SleepsPop) != {} ==> |m.que| <= |Those(m.pc, RechecksPop)|)
            && (Those(m.pc, SleepsPush) != {} ==> m.cap - |m.que| <= |Those(m.pc, RechecksPush)|)
            && |m.que| <= cap && m.pushed == m.popped + m.que
  {
    RunsKeep(Start(cap), steps);
  }

  // ---- What is pushed is what was handed to push ----

  /** The elements a thread has handed to push, read off the steps alone. */
  function Handed(steps: seq<Step>, t: Tid): seq<Task> {
    if steps == [] then []
    else (if steps[0].CallPush? && steps[0].t == t then [steps[0].e] else []) + Handed(steps[1..], t)
  }

  /** The element a thread inside push has not put into the queue yet. */
  function InHand(m: Monitor, t: Tid): seq<Task> {
    if t !in m.pc then [] else
    match m.pc[t]
    case WantPush(e, _) => [e]
    case HoldPush(e, _) => [e]
    case DozePush(e) => [e]
    case SleepPush(e) => [e]
    case _ => []
  }

  /** What one step adds to the queue, and for whom. */
  function Puts(m: Monitor, s: Step): seq<(Tid, Task)>
    requires Enabled(m, s)
  {
    if s.TryPush? && |Do(m, s).que| > |m.que| then [(s.t, Do(m, s).que[|m.que|])] else []
  }

  ghost function PutLog(m: Monitor, steps: seq<Step>): seq<(Tid, Task)>
    requires IsRun(m, steps)
    decreases |steps|
  {
    if steps == [] then [] else Puts(m, steps[0]) + PutLog(Do(m, steps[0]), steps[1..])
  }

  function Tasks(log: seq<(Tid, Task)>): seq<Task> {
    if log == [] then [] else [log[0].1] + Tasks(log[1..])
  }

  function TasksOf(log: seq<(Tid, Task)>, t: Tid): seq<Task> {
    if log == [] then [] else (if log[0].0 == t then [log[0].1] else []) + TasksOf(log[1..], t)
  }

  lemma StepPuts(m: Monitor, s: Step, t: Tid)
    requires Enabled(m, s)
    ensures Do(m, s).pushed == m.pushed + Tasks(Puts(m, s)) && |Puts(m, s)| <= 1
    ensures InHand(m, t) + (if s.CallPush? && s.t == t then [s.e] else [])
         == TasksOf(Puts(m, s), t) + InHand(Do(m, s), t)
  {
    var ps := Puts(m, s);
    if ps != [] { assert ps[1..] == []; }
    StepHands(m, s, t);
  }

  lemma StepHands(m: Monitor, s: Step, t: Tid)
    requires Enabled(m, s)
    ensures InHand(m, t) + (if s.CallPush? && s.t == t then [s.e] else [])
         == TasksOf(Puts(m, s), t) + InHand(Do(m, s), t)
  {
    hide Those;
    var ps := Puts(m, s);
    if ps != [] { assert ps[1..] == []; }
  }

  lemma TasksJoin(a: seq<(Tid, Task)>, b: seq<(Tid, Task)>, t: Tid)
    requires |a| <= 1
    ensures Tasks(a + b) == Tasks(a) + Tasks(b) && TasksOf(a + b, t) == TasksOf(a, t) + TasksOf(b, t)
  {
    if a == [] {
      assert a + b == b;
    } else {
      assert a[1..] == [] && (a + b)[1..] == b && (a + b)[0] == a[0];
    }
  }

  lemma {:induction false} HandsOver(m: Monitor, steps: seq<Step>, t: Tid)
    requires IsRun(m, steps)
    ensures After(m, steps).pushed == m.pushed + Tasks(PutLog(m, steps))
    ensures InHand(m, t) + Handed(steps, t) == TasksOf(PutLog(m, steps), t) + InHand(After(m, steps), t)
    decreases |steps|
  {
    hide Do, Enabled, InHand, Puts;
    if steps != [] {
      var m1 := Do(m, steps[0]);
      StepPuts(m, steps[0], t);
      HandsOver(m1, steps[1..], t);
      TasksJoin(Puts(m, steps[0]), PutLog(m1, steps[1..]), t);
      var given := if steps[0].CallPush? && steps[0].t == t then [steps[0].e] else [];
      Assoc(InHand(m, t), given, Handed(steps[1..], t));
      Assoc(TasksOf(Puts(m, steps[0]), t), InHand(m1, t), Handed(steps[1..], t));
      Assoc(TasksOf(Puts(m, steps[0]), t), TasksOf(PutLog(m1, steps[1..]), t), InHand(After(m, steps), t));
      Assoc(m.pushed, Tasks(Puts(m, steps[0])), Tasks(PutLog(m1, steps[1..])));
    } else {
      assert m.pushed + [] == m.pushed;
      assert InHand(m, t) + [] == [] + InHand(m, t);
    }
  }

  /** Over every run, all that was ever in the queue was put there by some thread, and what each thread has put
      there, followed by what it still has in hand inside push, is what it handed to push, in order. */
  lemma PushedWasHanded(cap: nat, steps: seq<Step>, t: Tid)
    requires IsRun(Start(cap), steps)
    ensures var m, log := After(Start(cap), steps), PutLog(Start(cap), steps);
            m.pushed == Tasks(log) && Handed(steps, t) == TasksOf(log, t) + InHand(m, t)
  {
    HandsOver(Start(cap), steps, t);
    assert [] + Tasks(PutLog(Start(cap), steps)) == Tasks(PutLog(Start(cap), steps));
    assert [] + Handed(steps, t) == Handed(steps, t);
  }

  // ---- Shutdown ----

  /** After the flag is cleared no consumer sleeps or is about to. */
  predicate Released(m: Monitor) {
    !m.flag && Those(m.pc, SleepsPop) == {} && forall t | t in m.pc :: !m.pc[t].DozePop?
  }

  lemma ReleasedStays(m: Monitor, s: Step)
    requires Released(m) && Enabled(m, s)
    ensures Released(Do(m, s))
  {
    assert forall t | t in m.pc :: !SleepsPop(m.pc[t]) by {
      forall t | t in m.pc ensures !SleepsPop(m.pc[t]) {
        assert t !in Those(m.pc, SleepsPop);
      }
    }
    var m' := Do(m, s);
    assert forall t | t in m'.pc :: !m'.pc[t].SleepPop? && !m'.pc[t].DozePop?;
  }

  lemma {:induction false} ReleasedRuns(m: Monitor, steps: seq<Step>)
    requires Released(m) && IsRun(m, steps)
    ensures Released(After(m, steps))
    decreases |steps|
  {
    if steps != [] {
      ReleasedStays(m, steps[0]);
      ReleasedRuns(Do(m, steps[0]), steps[1..]);
    }
  }

  /** No producer pushes, nobody notifies all, and nobody wakes for no reason. */
  predicate WakesNobody(s: Step) {
    !s.TryPush? && !s.NotifyAll? && !s.Spurious?
  }

  predicate Sleeps(m: Monitor, t: Tid) {
    t in m.pc && m.pc[t].SleepPop?
  }

  /** The consumer `t` sleeps, and goes on sleeping until somebody pushes or notifies all. */
  ghost predicate SleepsOn(m: Monitor, t: Tid) {
    forall more :: IsRun(m, more) && (forall s <- more :: WakesNobody(s)) ==> Sleeps(After(m, more), t)
  }

  ghost predicate CanStrand(m: Monitor) {
    exists steps, t :: IsRun(m, steps) && SleepsOn(After(m, steps), t)
  }

  lemma {:induction false} SleeperSleepsOn(m: Monitor, t: Tid, more: seq<Step>)
    requires Sleeps(m, t) && IsRun(m, more) && forall s <- more :: WakesNobody(s)
    ensures Sleeps(After(m, more), t)
    decreases |more|
  {
    if more != [] {
      assert more[0] in more;
      OneSleepsOn(m, t, more[0]);
      SleeperSleepsOn(Do(m, more[0]), t, more[1..]);
    }
  }

  lemma OneSleepsOn(m: Monitor, t: Tid, s: Step)
    requires Sleeps(m, t) && Enabled(m, s) && WakesNobody(s)
    ensures Sleeps(Do(m, s), t)
  {
  }

  /** wakeup() does not take the mutex, so it can come between a consumer's look and its sleep.
      Exactly then a consumer can be left asleep after shutdown, until somebody pushes or notifies
      again: if and only if one is dozing when everybody is notified. */
  lemma ShutdownStrandsIff(m: Monitor)
    requires Inv(m) && !m.flag
    ensures CanStrand(Do(m, NotifyAll)) <==> exists t :: t in m.pc && m.pc[t].DozePop?
  {
    var m' := Do(m, NotifyAll);
    if t :| t in m.pc && m.pc[t].DozePop? {
      DozerSleeps(m', t);
    } else {
      assert Those(m'.pc, SleepsPop) == {};
      forall steps, t | IsRun(m', steps) ensures !SleepsOn(After(m', steps), t) {
        NoneSleeps(m', steps, t);
      }
    }
  }

  lemma DozerSleeps(m: Monitor, t: Tid)
    requires t in m.pc && m.pc[t].DozePop?
    ensures CanStrand(m)
  {
    var m1 := Do(m, Sleep(t));
    hide Do;
    var run := [Sleep(t)];
    assert run[1..] == [];
    assert IsRun(m1, []);
    assert IsRun(m, run) && After(m, run) == m1;
    forall more | IsRun(m1, more) && forall s <- more :: WakesNobody(s) ensures Sleeps(After(m1, more), t) {
      SleeperSleepsOn(m1, t, more);
    }
    assert SleepsOn(After(m, run), t);
  }

  lemma NoneSleeps(m: Monitor, steps: seq<Step>, t: Tid)
    requires Released(m) && IsRun(m, steps)
    ensures !SleepsOn(After(m, steps), t)
  {
    ReleasedRuns(m, steps);
    var e := After(m, steps);
    assert IsRun(e, []) && After(e, []) == e;
    assert Sleeps(e, t) ==> t in Those(e.pc, SleepsPop);
  }

  /** A remark on how to mend it: if the two halves of wakeup() were one step under the mutex, which they
      are not, nobody could be stranded. */
  lemma LockedWakeupReleases(m: Monitor)
    requires Inv(m) && m.lock == None
    ensures Released(Do(Do(m, ClearFlag), NotifyAll))
  {
    var m' := Do(Do(m, ClearFlag), NotifyAll);
    assert Those(m'.pc, SleepsPop) == {};
  }
}
