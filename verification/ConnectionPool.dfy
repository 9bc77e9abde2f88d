/** The pool of database connections behind a counting semaphore. Taking is wait then pop, giving
    back is push then post; each of the four is one atomic step of its thread. */
module ConnectionPools {
  import opened Sequences
  import opened Options

  type Conn = nat
  type User = nat

  class ConnectionPool {
    var connList: seq<Conn>
    var reserve: nat

    constructor ()
      ensures connList == [] && reserve == 0
    {
      connList, reserve := [], 0;
    }

    /** `made` says for each of the MaxConn attempts which connection it made, or that it failed;
        the first failure ends the loop. */
    method Init(made: seq<Option<Conn>>) returns (ok: bool)
      requires connList == [] && reserve == 0
      modifies this
      ensures ok <==> None !in made
      ensures reserve == |connList| <= |made|
      ensures forall i :: 0 <= i < |connList| ==> made[i] == Some(connList[i])
      ensures |connList| == |made| || made[|connList|] == None
    {
      var i := 0;
      while i < |made|
        invariant 0 <= i <= |made| && reserve == |connList| == i
        invariant forall j :: 0 <= j < i ==> made[j] == Some(connList[j])
      {
        if made[i] == None { return false; }
        connList := connList + [made[i].value];
        reserve := reserve + 1;
        i := i + 1;
      }
      ok := true;
    }

    /** The second half of GetConnection, after the wait on the semaphore. */
    method PopBack() returns (conn: Conn)
      requires connList != []
      modifies this`connList
      ensures old(connList) == connList + [conn]
    {
      conn := connList[|connList| - 1];
      connList := connList[..|connList| - 1];
    }
  }

  /** Where a thread is: between wait and pop, holding a connection, or between push and post. */
  datatype Phase = Outside | Ticket | Holding(conn: Conn) | Pushed

  /** `broken` records a pop from an empty list. */
  datatype Pool = Pool(connList: seq<Conn>, reserve: nat, users: map<User, Phase>, broken: bool)

  datatype Step = Wait(u: User) | PopBack(u: User) | PushBack(u: User) | Post(u: User)

  function PhaseOf(p: Pool, u: User): Phase {
    if u in p.users then p.users[u] else Outside
  }

  predicate Enabled(p: Pool, s: Step) {
    match s
    case Wait(u) => PhaseOf(p, u) == Outside && p.reserve > 0
    case PopBack(u) => PhaseOf(p, u) == Ticket
    case PushBack(u) => PhaseOf(p, u).Holding?
    case Post(u) => PhaseOf(p, u) == Pushed
  }

  function Do(p: Pool, s: Step): Pool
    requires Enabled(p, s)
  {
    match s
    case Wait(u) => p.(reserve := p.reserve - 1, users := p.users[u := Ticket])
    case PopBack(u) =>
      if p.connList == [] then p.(broken := true)
      else p.(connList := p.connList[..|p.connList| - 1], users := p.users[u := Holding(p.connList[|p.connList| - 1])])
    case PushBack(u) => p.(connList := p.connList + [PhaseOf(p, u).conn], users := p.users[u := Pushed])
    case Post(u) => p.(reserve := p.reserve + 1, users := p.users[u := Outside])
  }

  function With(users: map<User, Phase>, ph: Phase): set<User> {
    set u | u in users && users[u] == ph
  }

  predicate Counts(p: Pool) {
    |p.connList| == p.reserve + |With(p.users, Ticket)| + |With(p.users, Pushed)|
  }

  predicate IsHolder(p: Pool, u: User, c: Conn) {
    u in p.users && p.users[u] == Holding(c)
  }

  /** Every connection of the beginning is in exactly one place: once in the list, or with one holder. */
  ghost predicate InOnePlace(p: Pool, all: set<Conn>) {
    && Distinct(p.connList)
    && (forall c :: c in p.connList ==> c in all)
    && (forall u, c :: IsHolder(p, u, c) ==> c in all && c !in p.connList)
    && (forall u, v, c :: IsHolder(p, u, c) && IsHolder(p, v, c) ==> u == v)
    && (forall c | c in all :: c in p.connList || exists u :: IsHolder(p, u, c))
  }

  ghost predicate Inv(p: Pool, all: set<Conn>) {
    !p.broken && Counts(p) && InOnePlace(p, all)
  }

  lemma WithUpdate(users: map<User, Phase>, u: User, x: Phase, ph: Phase)
    ensures With(users[u := x], ph) == if x == ph then With(users, ph) + {u} else With(users, ph) - {u}
  {
  }

  lemma CountsKept(p: Pool, s: Step)
    requires Counts(p) && Enabled(p, s)
    ensures (s.PopBack? ==> p.connList != []) && Counts(Do(p, s))
  {
    var u := s.u;
    if s.PopBack? { assert u in With(p.users, Ticket); }
    var x := PhaseOf(Do(p, s), u);
    WithUpdate(p.users, u, x, Ticket);
    WithUpdate(p.users, u, x, Pushed);
  }

  lemma PlacesKept(p: Pool, s: Step, all: set<Conn>)
    requires Inv(p, all) && Enabled(p, s)
    ensures InOnePlace(Do(p, s), all)
  {
    CountsKept(p, s);
    var p', u := Do(p, s), s.u;
    assert forall v, c :: v != u ==> (IsHolder(p', v, c) <==> IsHolder(p, v, c));
    match s {
      case Wait(_) =>
      case Post(_) =>
      case PopBack(_) =>
        var last := p.connList[|p.connList| - 1];
        assert p.connList == p'.connList + [last];
        assert IsHolder(p', u, last);
      case PushBack(_) =>
        var c := PhaseOf(p, u).conn;
        assert IsHolder(p, u, c);
        assert p'.connList[|p.connList|] == c;
    }
    forall c | c in all ensures c in p'.connList || exists v :: IsHolder(p', v, c) {
      if v :| IsHolder(p, v, c) {
        if v != u { assert IsHolder(p', v, c); }
      }
    }
  }

  /** Taking and giving back are both at the end of the list. */
  lemma TakesTheLast(p: Pool, u: User)
    ensures Enabled(p, PopBack(u)) && p.connList != [] ==>
              var p' := Do(p, PopBack(u));
              p'.users[u].Holding? && p.connList == p'.connList + [p'.users[u].conn]
    ensures Enabled(p, PushBack(u)) ==> Do(p, PushBack(u)).connList == p.connList + [p.users[u].conn]
  {
  }

  lemma StepKeeps(p: Pool, s: Step, all: set<Conn>)
    requires Inv(p, all) && Enabled(p, s)
    ensures Inv(Do(p, s), all)
  {
    CountsKept(p, s);
    PlacesKept(p, s, all);
  }

  ghost predicate IsRun(p: Pool, steps: seq<Step>)
    decreases |steps|
  {
    steps == [] || (Enabled(p, steps[0]) && IsRun(Do(p, steps[0]), steps[1..]))
  }

  ghost function After(p: Pool, steps: seq<Step>): Pool
    requires IsRun(p, steps)
    decreases |steps|
  {
    if steps == [] then p else After(Do(p, steps[0]), steps[1..])
  }

  lemma {:induction false} RunsKeep(p: Pool, steps: seq<Step>, all: set<Conn>)
    requires Inv(p, all) && IsRun(p, steps)
    ensures Inv(After(p, steps), all)
    decreases |steps|
  {
    hide Inv;
    if steps != [] {
      StepKeeps(p, steps[0], all);
      RunsKeep(Do(p, steps[0]), steps[1..], all);
    }
  }

  /** Conservation, over every interleaving from the pool that init has filled: the list is as long
      as the semaphore's value and the threads in between say, no pop has met an empty list, and
      every initial connection is in the list once or with exactly one holder. */
  lemma PoolConservation(conns: seq<Conn>, steps: seq<Step>)
    requires Distinct(conns) && IsRun(Pool(conns, |conns|, map[], false), steps)
    ensures var p := After(Pool(conns, |conns|, map[], false), steps);
            !p.broken
            && |p.connList| == p.reserve + |With(p.users, Ticket)| + |With(p.users, Pushed)|
            && forall c | c in conns :: (c in p.connList <==> !exists u :: IsHolder(p, u, c))
                 && forall u, v :: IsHolder(p, u, c) && IsHolder(p, v, c) ==> u == v
  {
    hide IsRun, After;
    var p0 := Pool(conns, |conns|, map[], false);
    var all := set c | c in conns;
    assert With(p0.users, Ticket) == {} && With(p0.users, Pushed) == {};
    assert forall u, c :: !IsHolder(p0, u, c);
    RunsKeep(p0, steps, all);
  }
}
