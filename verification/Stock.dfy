/** Buying: any number of requests, for any items of the table, that lock, select, check, update and
    unlock. An amount is what stoi reads, a negative one included, written canonically; a query that fails
    changes nothing. */
module Stock {
  import opened Options

  type Buyer = nat
  type Item = string
  datatype Order = Order(item: Item, amount: int)

  datatype Phase =
    | Asking(order: Order)
    | Locked(order: Order)
    | Selected(order: Order, stock: int)   // the row it has read
    | Approved(order: Order)
    | Finished(sold: bool)

  /** One mutex guards all rows. With `locking` false the guard is left out: a remark on what it is for. */
  datatype Shop = Shop(
    rows: map<Item, int>, locking: bool, lock: Option<Buyer>, buyers: map<Buyer, Phase>, sold: seq<Order>)

  datatype Step =
    | Ask(b: Buyer, order: Order)
    | Acquire(b: Buyer)
    | Select(b: Buyer, ok: bool)
    | Check(b: Buyer)
    | Update(b: Buyer, ok: bool)

  predicate Enabled(s: Shop, step: Step) {
    match step
    case Ask(b, _) => b !in s.buyers || s.buyers[b].Finished?
    case Acquire(b) => b in s.buyers && s.buyers[b].Asking? && (s.locking ==> s.lock == None)
    case Select(b, _) => b in s.buyers && s.buyers[b].Locked?
    case Check(b) => b in s.buyers && s.buyers[b].Selected?
    case Update(b, _) => b in s.buyers && s.buyers[b].Approved?
  }

  function To(s: Shop, b: Buyer, p: Phase): Shop {
    s.(buyers := s.buyers[b := p])
  }

  /** The guard's destructor runs on every way out. */
  function Leave(s: Shop, b: Buyer, sold: bool): Shop {
    To(s, b, Finished(sold)).(lock := None)
  }

  /** An update of an item that is not in the table changes no row. */
  function Reduced(rows: map<Item, int>, order: Order): map<Item, int> {
    if order.item in rows then rows[order.item := rows[order.item] - order.amount] else rows
  }

  function Do(s: Shop, step: Step): Shop
    requires Enabled(s, step)
  {
    match step
    case Ask(b, order) => To(s, b, Asking(order))
    case Acquire(b) => To(s, b, Locked(s.buyers[b].order)).(lock := Some(b))
    case Select(b, ok) =>
      var order := s.buyers[b].order;
      if ok && order.item in s.rows then To(s, b, Selected(order, s.rows[order.item])) else Leave(s, b, false)
    case Check(b) =>
      var order := s.buyers[b].order;
      if order.amount > s.buyers[b].stock then Leave(s, b, false) else To(s, b, Approved(order))
    case Update(b, ok) =>
      var order := s.buyers[b].order;
      if ok then Leave(s, b, true).(rows := Reduced(s.rows, order), sold := s.sold + [order]) else Leave(s, b, false)
  }

  /** The sum of the amounts of the successful updates of an item. */
  function SoldOf(sold: seq<Order>, item: Item): int {
    if sold == [] then 0 else
    var last := sold[|sold| - 1];
    SoldOf(sold[..|sold| - 1], item) + if last.item == item then last.amount else 0
  }

  /** Only the holder of the lock is between selecting and updating, so what it has read is still true. */
  predicate BuyersFit(s: Shop) {
    && (s.lock.Some? ==> s.lock.value in s.buyers)
    && forall b | b in s.buyers ::
         match s.buyers[b]
         case Asking(_) => s.lock != Some(b)
         case Finished(_) => s.lock != Some(b)
         case Locked(_) => s.lock == Some(b)
         case Selected(order, seen) => s.lock == Some(b) && order.item in s.rows && seen == s.rows[order.item]
         case Approved(order) => s.lock == Some(b) && order.item in s.rows && order.amount <= s.rows[order.item]
  }

  predicate RowsFit(s: Shop, initial: map<Item, int>) {
    && s.rows.Keys == initial.Keys
    && forall item | item in initial :: s.rows[item] >= 0 && initial[item] - s.rows[item] == SoldOf(s.sold, item)
  }

  predicate Inv(s: Shop, initial: map<Item, int>) {
    s.locking && BuyersFit(s) && RowsFit(s, initial)
  }

  lemma BuyersKept(s: Shop, step: Step)
    requires s.locking && BuyersFit(s) && Enabled(s, step)
    ensures BuyersFit(Do(s, step))
  {
  }

  lemma RowsKept(s: Shop, step: Step, initial: map<Item, int>)
    requires BuyersFit(s) && RowsFit(s, initial) && Enabled(s, step)
    ensures RowsFit(Do(s, step), initial)
  {
    if step.Update? && step.ok {
      var order := s.buyers[step.b].order;
      forall item | item in initial ensures SoldOf(s.sold + [order], item)
                                         == SoldOf(s.sold, item) + if order.item == item then order.amount else 0
      {
        OneMoreSold(s.sold, order, item);
      }
    }
  }

  lemma OneMoreSold(sold: seq<Order>, order: Order, item: Item)
    ensures SoldOf(sold + [order], item) == SoldOf(sold, item) + if order.item == item then order.amount else 0
  {
    assert (sold + [order])[..|sold|] == sold;
  }

  /** The check lets an order through exactly if what was read covers it, and otherwise ends it and changes nothing; an
      update that succeeds takes exactly its amount off its row. */
  lemma CheckedAndSold(s: Shop, b: Buyer, ok: bool)
    requires b in s.buyers
    ensures s.buyers[b].Selected? ==>
              var order, stock := s.buyers[b].order, s.buyers[b].stock;
              var s' := Do(s, Check(b));
              s'.rows == s.rows && s'.sold == s.sold
              && s'.buyers[b] == (if order.amount <= stock then Approved(order) else Finished(false))
    ensures s.buyers[b].Approved? && s.buyers[b].order.item in s.rows ==>
              var order := s.buyers[b].order;
              var s' := Do(s, Update(b, ok));
              s'.buyers[b] == Finished(ok) && s'.rows.Keys == s.rows.Keys
              && s'.rows[order.item] == s.rows[order.item] - (if ok then order.amount else 0)
              && forall item | item in s.rows && item != order.item :: s'.rows[item] == s.rows[item]
  {
  }

  lemma StepKeeps(s: Shop, step: Step, initial: map<Item, int>)
    requires Inv(s, initial) && Enabled(s, step)
    ensures Inv(Do(s, step), initial)
  {
    hide BuyersFit, RowsFit;
    BuyersKept(s, step);
    RowsKept(s, step, initial);
  }

  ghost predicate IsRun(s: Shop, steps: seq<Step>)
    decreases |steps|
  {
    steps == [] || (Enabled(s, steps[0]) && IsRun(Do(s, steps[0]), steps[1..]))
  }

  ghost function After(s: Shop, steps: seq<Step>): Shop
    requires IsRun(s, steps)
    decreases |steps|
  {
    if steps == [] then s else After(Do(s, steps[0]), steps[1..])
  }

  function Open(initial: map<Item, int>, locking: bool): Shop {
    Shop(initial, locking, None, map[], [])
  }

  lemma {:induction false} RunsKeep(s: Shop, steps: seq<Step>, initial: map<Item, int>)
    requires Inv(s, initial) && IsRun(s, steps)
    ensures Inv(After(s, steps), initial)
    decreases |steps|
  {
    hide Inv;
    if steps != [] {
      StepKeeps(s, steps[0], initial);
      RunsKeep(Do(s, steps[0]), steps[1..], initial);
    }
  }

  /** Conservation, over every interleaving of buyers and for every item: stock never falls below zero, and
      what is missing is what the successful updates have sold. */
  lemma StockIsConserved(initial: map<Item, int>, steps: seq<Step>)
    requires (forall item | item in initial :: initial[item] >= 0) && IsRun(Open(initial, true), steps)
    ensures var s := After(Open(initial, true), steps);
            s.rows.Keys == initial.Keys
            && forall item | item in initial ::
                 s.rows[item] >= 0 && initial[item] - s.rows[item] == SoldOf(s.sold, item)
  {
    RunsKeep(Open(initial, true), steps, initial);
  }

  // ---- What the guard is for ----

  lemma OneStep(s: Shop, step: Step, rest: seq<Step>)
    requires Enabled(s, step) && IsRun(Do(s, step), rest)
    ensures IsRun(s, [step] + rest) && After(s, [step] + rest) == After(Do(s, step), rest)
  {
    assert ([step] + rest)[1..] == rest;
  }

  /** A remark: with anything to sell, no interleaving oversells if and only if the lock guard is there. */
  lemma NeverOversoldIff(initial: map<Item, int>, item: Item, locking: bool)
    requires (forall i | i in initial :: initial[i] >= 0) && item in initial && initial[item] > 0
    ensures locking <==> forall steps :: IsRun(Open(initial, locking), steps) ==>
                           forall i | i in After(Open(initial, locking), steps).rows ::
                             After(Open(initial, locking), steps).rows[i] >= 0
  {
    var s0 := Open(initial, locking);
    if locking {
      forall steps | IsRun(s0, steps) ensures forall i | i in After(s0, steps).rows :: After(s0, steps).rows[i] >= 0 {
        StockIsConserved(initial, steps);
      }
    } else {
      var run := OversellingRun(initial, item);
      assert item in After(s0, run).rows && After(s0, run).rows[item] < 0;
    }
  }

  /** Two buyers of everything, both of whom look before either updates. */
  lemma OversellingRun(initial: map<Item, int>, item: Item) returns (run: seq<Step>)
    requires item in initial && initial[item] > 0
    ensures IsRun(Open(initial, false), run)
    ensures var s := After(Open(initial, false), run); item in s.rows && s.rows[item] == 0 - initial[item]
  {
    var order := Order(item, initial[item]);
    var s0 := Open(initial, false);
    var s4, looks := BothLook(s0, order);
    var s8, checks := BothApproved(s4, order, initial[item]);
    var s9 := Do(s8, Update(0, true));
    var s10 := Do(s9, Update(1, true));
    hide Enabled, Do;
    assert IsRun(s10, []);
    OneStep(s9, Update(1, true), []);
    assert [Update(1, true)] + [] == [Update(1, true)];
    OneStep(s8, Update(0, true), [Update(1, true)]);
    RunsChain(s4, checks, [Update(0, true)] + [Update(1, true)]);
    RunsChain(s0, looks, checks + ([Update(0, true)] + [Update(1, true)]));
    run := looks + (checks + ([Update(0, true)] + [Update(1, true)]));
  }

  /** Both have asked and passed the missing lock. */
  lemma BothLook(s0: Shop, order: Order) returns (s4: Shop, run: seq<Step>)
    requires !s0.locking && s0.buyers == map[]
    ensures IsRun(s0, run) && After(s0, run) == s4
    ensures s4.rows == s0.rows && !s4.locking && s4.buyers == map[0 := Locked(order), 1 := Locked(order)]
  {
    var s1 := Do(s0, Ask(0, order));
    var s2 := Do(s1, Ask(1, order));
    var s3 := Do(s2, Acquire(0));
    s4 := Do(s3, Acquire(1));
    run := [];
    assert IsRun(s4, run);
    OneStep(s3, Acquire(1), run);   run := [Acquire(1)] + run;
    OneStep(s2, Acquire(0), run);   run := [Acquire(0)] + run;
    OneStep(s1, Ask(1, order), run);  run := [Ask(1, order)] + run;
    OneStep(s0, Ask(0, order), run);  run := [Ask(0, order)] + run;
  }

  lemma BothApproved(s4: Shop, order: Order, stock: int) returns (s8: Shop, run: seq<Step>)
    requires s4.buyers == map[0 := Locked(order), 1 := Locked(order)]
    requires order.item in s4.rows && s4.rows[order.item] == stock >= order.amount
    ensures IsRun(s4, run) && After(s4, run) == s8
    ensures s8.rows == s4.rows && s8.buyers == map[0 := Approved(order), 1 := Approved(order)]
  {
    var s5 := Do(s4, Select(0, true));
    var s6 := Do(s5, Select(1, true));
    var s7 := Do(s6, Check(0));
    s8 := Do(s7, Check(1));
    run := [];
    assert IsRun(s8, run);
    OneStep(s7, Check(1), run);         run := [Check(1)] + run;
    OneStep(s6, Check(0), run);         run := [Check(0)] + run;
    OneStep(s5, Select(1, true), run);  run := [Select(1, true)] + run;
    OneStep(s4, Select(0, true), run);  run := [Select(0, true)] + run;
  }

  lemma {:induction false} RunsChain(s: Shop, a: seq<Step>, b: seq<Step>)
    requires IsRun(s, a) && IsRun(After(s, a), b)
    ensures IsRun(s, a + b) && After(s, a + b) == After(After(s, a), b)
    decreases |a|
  {
    hide Enabled, Do;
    if a == [] {
      assert a + b == b;
    } else {
      assert (a + b)[0] == a[0] && (a + b)[1..] == a[1..] + b;
      RunsChain(Do(s, a[0]), a[1..], b);
    }
  }
}
