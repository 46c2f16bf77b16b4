/** The bound on the pool's size over runs with resets. */
module ResetBound {
  import opened Pools
  import opened PoolBound

  // ---------------------------------------------------------------- no discard in flight

  /** Without discards in flight the size is a multiple of five wherever the loop rests, and at most fifty. */
  predicate Fives(p: Pool) {
    && p.between == {} && 0 <= p.currentSize <= MAX_SIZE
    && match p.loop
       case Idle => p.currentSize % 5 == 0
       case Growing(left, _, _) => (p.currentSize + left) % 5 == 0 && p.currentSize + left <= MAX_SIZE
       case Shrinking(left, _) => (p.currentSize - left) % 5 == 0 && p.currentSize >= left
       case Draining(_, taken) => taken ==> p.currentSize >= 1
       case Stopped => true
  }

  lemma TurnFives(p: Pool, e: Event)
    requires Fives(p) && Enabled(p, e) && Step(p, e).between == {}
    requires e.Apply? || e.Refresh? || e.Remove? || e.Add? || e.Close? || e.Reset? || e.Finish?
    ensures Fives(Step(p, e))
  {
    hide AverageDelay;
  }

  lemma MoveFives(p: Pool, e: Event)
    requires Fives(p) && Enabled(p, e)
    requires e.GrowSend? || e.GrowCount? || e.ShrinkTake? || e.ShrinkCount? || e.DrainTake? || e.DrainCount?
    ensures Fives(Step(p, e))
  {
  }

  lemma StepFives(p: Pool, e: Event)
    requires Fives(p) && Enabled(p, e) && Step(p, e).between == {}
    ensures Fives(Step(p, e))
  {
    if e.Apply? || e.Refresh? || e.Remove? || e.Add? || e.Close? || e.Reset? || e.Finish? {
      TurnFives(p, e);
    } else if e.GrowSend? || e.GrowCount? || e.ShrinkTake? || e.ShrinkCount? || e.DrainTake? || e.DrainCount? {
      MoveFives(p, e);
    } else {
      assert Step(p, e).loop == p.loop && Step(p, e).currentSize == p.currentSize;
    }
    hide Enabled, Step;
  }

  lemma {:induction false} RunFives(p: Pool, es: seq<Event>)
    requires Fives(p) && CanRun(p, es) && InFlight(p, es, 0)
    ensures Fives(Run(p, es))
    decreases |es|
  {
    if es != [] {
      assert InFlight(Step(p, es[0]), es[1..], 0);
      StepFives(p, es[0]);
      hide Fives, Step, Enabled;
      RunFives(Step(p, es[0]), es[1..]);
    }
  }

  // ---------------------------------------------------------------- one discard in flight at a reset

  lemma {:induction false} InFlightAppend(p: Pool, a: seq<Event>, b: seq<Event>, k: nat)
    requires CanRun(p, a) && CanRun(Run(p, a), b) && InFlight(p, a, k) && InFlight(Run(p, a), b, k)
    ensures CanRun(p, a + b) && Run(p, a + b) == Run(Run(p, a), b) && InFlight(p, a + b, k)
    decreases |a|
  {
    hide Enabled, Step;
    if a == [] {
      assert a + b == b;
    } else {
      assert (a + b)[0] == a[0] && (a + b)[1..] == a[1..] + b;
      InFlightAppend(Step(p, a[0]), a[1..], b, k);
    }
  }

  /** The pool once everything idle is drained. */
  function AllDrained(p: Pool): Pool {
    p.(channel := [], currentSize := p.currentSize - |p.channel|, closed := p.closed + (set i | i in p.channel))
  }

  function OneDrained(p: Pool): Pool
    requires p.channel != []
  {
    p.(channel := p.channel[1..], currentSize := p.currentSize - 1, closed := p.closed + {p.channel[0]})
  }

  lemma DrainOne(p: Pool)
    requires p.loop == Draining(false, false) && p.currentSize > 0 && p.channel != [] && |p.between| <= 1
    ensures Leads(p, [DrainTake, DrainCount], OneDrained(p), 1)
    ensures AllDrained(OneDrained(p)) == AllDrained(p)
  {
    var p1 := Step(p, DrainTake);
    assert Enabled(p1, DrainCount) && Step(p1, DrainCount) == OneDrained(p) && p1.between == p.between;
    OneStep(p, DrainTake, 1);
    assert p.channel == [p.channel[0]] + p.channel[1..];
    assert OneDrained(p).closed + (set i | i in OneDrained(p).channel) == AllDrained(p).closed;
    hide Leads, Step, Enabled;
    Extend(p, [DrainTake], p1, DrainCount, 1);
    assert [DrainTake] + [DrainCount] == [DrainTake, DrainCount];
  }

  /** A drain that nothing is missing for. */
  lemma {:induction false} DrainAll(p: Pool) returns (es: seq<Event>)
    requires p.loop == Draining(false, false) && p.currentSize == |p.channel| && |p.between| <= 1
    ensures Leads(p, es, AllDrained(p), 1)
    decreases |p.channel|
  {
    hide Leads;
    if p.channel == [] {
      es := [];
      assert AllDrained(p) == p;
      Nowhere(p, 1);
    } else {
      DrainOne(p);
      var rest := DrainAll(OneDrained(p));
      ThenLeads(p, [DrainTake, DrainCount], OneDrained(p), rest, AllDrained(p), 1);
      es := [DrainTake, DrainCount] + rest;
    }
  }

  /** A discarded instance is between its signals, and four are idle. */
  lemma DiscardFirst() returns (es: seq<Event>, q: Pool)
    ensures Leads(INITIAL, es, q, 1)
    ensures q == Pool([1, 2, 3, 4], 4, 1, 0, 0, 0, 0, {}, {}, {0}, {}, {}, map[0 := 11], 5, Idle)
  {
    var p1 := Step(INITIAL, Take);
    assert p1 == INITIAL.(channel := [1, 2, 3, 4], out := {0}, useCount := 1);
    OneStep(INITIAL, Take, 1);
    hide Leads;
    var a := DiscardMoves(p1, 0, 1);
    q := Discarded(p1, 0);
    ThenLeads(INITIAL, [Take], p1, a, q, 1);
    es := [Take] + a;
  }

  const AT_RESET: Pool :=
    Pool([1, 2, 3, 4], 4, 1, 0, 0, 0, 0, {}, {}, {0}, {}, {}, map[0 := 11], 5, Draining(false, false))

  const DRAINED: Pool := AllDrained(AT_RESET)

  const REFILLED: Pool := DRAINED.(channel := [5, 6, 7, 8, 9], currentSize := 5, next := 10, loop := Idle)

  const REFILLING: Pool := DRAINED.(loop := Growing(5, false, ForReset))

  lemma DrainEnds()
    ensures Enabled(DRAINED, Finish) && Step(DRAINED, Finish) == REFILLING
  {
  }

  lemma RefillEnds()
    ensures var p := Grown(REFILLING, 5, ForReset); Enabled(p, Finish) && Step(p, Finish) == REFILLED
  {
    assert [] + seq(5, i => 5 + i) == [5, 6, 7, 8, 9];
  }

  lemma Refill() returns (es: seq<Event>)
    ensures Leads(DRAINED, es, REFILLED, 1)
  {
    hide Leads, Step, Enabled, Grown;
    DrainEnds();
    OneStep(DRAINED, Finish, 1);
    var a := GrowAll(REFILLING, 5, ForReset, 1);
    var p2 := Grown(REFILLING, 5, ForReset);
    ThenLeads(DRAINED, [Finish], REFILLING, a, p2, 1);
    assert p2.between == REFILLING.between by {
      GrownBetween(REFILLING, 5, ForReset);
    }
    RefillEnds();
    Extend(DRAINED, [Finish] + a, p2, Finish, 1);
    es := [Finish] + a + [Finish];
  }

  lemma GrownBetween(p: Pool, n: nat, cause: Cause)
    ensures Grown(p, n, cause).between == p.between
  {
  }

  /** After a reset with that discard in flight, its replacement comes on top of the five new instances. */
  lemma RefillToSix() returns (es: seq<Event>, q: Pool)
    ensures Leads(AT_RESET, es, q, 1) && Running(q, 6, 6) && q.out == {} && q.applies == 0 && q.waiting == 0
    ensures q.errors == map[0 := 11] && q.totalDelay == 0 && q.useCount == 1 && q.channel == [5, 6, 7, 8, 9, 10]
  {
    var a := DrainAll(AT_RESET);
    var b := Refill();
    var c;
    c, q := Replace(REFILLED, 0);
    assert q.channel == [5, 6, 7, 8, 9] + seq(1, i => 10 + i) == [5, 6, 7, 8, 9, 10];
    hide Leads;
    ThenLeads(AT_RESET, a, DRAINED, b, REFILLED, 1);
    ThenLeads(AT_RESET, a + b, REFILLED, c, q, 1);
    es := a + b + c;
  }

  /** The one discard in flight is replaced. */
  lemma Replace(p: Pool, i: Id) returns (es: seq<Event>, q: Pool)
    requires p.loop == Idle && p.between == {i} && |p.channel| < MAX_SIZE
    ensures Leads(p, es, q, 1)
    ensures q == p.(between := {}, closing := p.closing + {i}, channel := p.channel + seq(1, j => p.next + j),
                    currentSize := p.currentSize + 1, next := p.next + 1)
  {
    var p1 := Step(p, Add(i));
    assert p1.between == {};
    OneStep(p, Add(i), 1);
    hide Leads;
    var a := GrowAll(p1, 1, ForAdd, 1);
    var p2 := Grown(p1, 1, ForAdd);
    ThenLeads(p, [Add(i)], p1, a, p2, 1);
    q := Step(p2, Finish);
    Extend(p, [Add(i)] + a, p2, Finish, 1);
    es := [Add(i)] + a + [Finish];
  }

  // ---------------------------------------------------------------- up to the maximum

  /** At the loop head, with no discard in flight. */
  predicate Running(q: Pool, size: nat, idle: nat) {
    q.loop == Idle && q.currentSize == size && |q.channel| == idle && q.between == {} && q.awaiting == {}
  }

  /** Long delays on record, apply signals waiting, an instance out that never failed. */
  predicate Pressed(q: Pool, size: nat, idle: nat, applies: nat, i: Id) {
    && Running(q, size, idle) && q.applies == applies && AverageDelay(q) > DELAY_TOLERANCE
    && i in q.out && ErrorsOf(q, i) == 0
  }

  lemma GetPressed(p: Pool) returns (es: seq<Event>, q: Pool)
    requires Running(p, 6, 6) && p.out == {} && p.applies == 0 && p.waiting == 0 && p.totalDelay == 0 && p.useCount == 1
    requires p.errors == map[0 := 11] && p.channel == [5, 6, 7, 8, 9, 10]
    ensures Leads(p, es, q, 1) && Pressed(q, 6, 0, 9, 5)
  {
    var a := TakeEvery(p, 1);
    var p1 := AllTaken(p);
    assert p.channel[0] == 5 && 5 in p1.out;
    var b := Waits(p1, 9, 1);
    var p2 := p1.(waiting := 9, applies := 9);
    hide Leads;
    ThenLeads(p, a, p1, b, p2, 1);
    var c := RevertAndWake(p2, 5, 1000, 1);
    q := p2.(useCount := 8, totalDelay := 1000, waiting := 8);
    ThenLeads(p, a + b, p2, c, q, 1);
    es := a + b + c;
  }

  lemma GrowPressed(p: Pool, size: nat, idle: nat, applies: nat, k: nat) returns (es: seq<Event>, q: Pool)
    requires p.loop == Idle && p.currentSize == size && |p.channel| == idle && |p.between| <= k
    requires p.applies == applies + 1 && AverageDelay(p) > DELAY_TOLERANCE
    requires size + 5 <= MAX_SIZE && idle + 5 <= MAX_SIZE
    ensures Leads(p, es, q, k)
    ensures q == p.(applies := applies, applyGrowCount := 0, channel := q.channel, currentSize := size + 5,
                    next := p.next + 5)
    ensures |q.channel| == idle + 5
  {
    var p1 := Step(p, Apply);
    assert p1.loop == Growing(5, false, ForApply);
    OneStep(p, Apply, k);
    var b := GrowAll(p1, 5, ForApply, k);
    var p2 := Grown(p1, 5, ForApply);
    q := Step(p2, Finish);
    hide Leads;
    ThenLeads(p, [Apply], p1, b, p2, k);
    Extend(p, [Apply] + b, p2, Finish, k);
    es := [Apply] + b + [Finish];
  }

  lemma {:induction false} GrowMany(p: Pool, n: nat, size: nat, idle: nat, i: Id) returns (es: seq<Event>, q: Pool)
    requires Pressed(p, size, idle, n + 1, i) && size + 5 * n <= MAX_SIZE && idle + 5 * n <= MAX_SIZE
    ensures Leads(p, es, q, 1) && Pressed(q, size + 5 * n, idle + 5 * n, 1, i)
    decreases n
  {
    if n == 0 {
      es, q := [], p;
      Nowhere(p, 1);
    } else {
      var a, p1 := GrowPressed(p, size, idle, n, 1);
      assert Pressed(p1, size + 5, idle + 5, n, i);
      hide Leads, Pressed;
      var b;
      b, q := GrowMany(p1, n - 1, size + 5, idle + 5, i);
      ThenLeads(p, a, p1, b, q, 1);
      es := a + b;
    }
  }

  /** One more discard makes room for a growth, and its replacement comes on top of that. */
  lemma OneTooMany(p: Pool, i: Id) returns (es: seq<Event>, q: Pool)
    requires Pressed(p, 46, 40, 1, i)
    ensures Leads(p, es, q, 1) && q.currentSize == MAX_SIZE + 1
  {
    var a := DiscardMoves(p, i, 1);
    var p1 := Discarded(p, i);
    assert p1.between == {i};
    var b, p2 := GrowPressed(p1, 45, 40, 0, 1);
    var c;
    c, q := Replace(p2, i);
    hide Leads;
    ThenLeads(p, a, p1, b, p2, 1);
    ThenLeads(p, a + b, p2, c, q, 1);
    es := a + b + c;
  }

  /** From the reset on: to 51 instances with one discard in flight at a time. */
  lemma AfterReset() returns (es: seq<Event>)
    ensures CanRun(AT_RESET, es) && InFlight(AT_RESET, es, 1) && Run(AT_RESET, es).currentSize == MAX_SIZE + 1
  {
    var p := AT_RESET;
    var a, p1 := RefillToSix();
    var b, p2 := GetPressed(p1);
    var c, p3 := GrowMany(p2, 8, 6, 0, 5);
    var d, p4 := OneTooMany(p3, 5);
    hide Pressed, Running;
    ThenLeads(p, a, p1, b, p2, 1);
    ThenLeads(p, a + b, p2, c, p3, 1);
    ThenLeads(p, a + b + c, p3, d, p4, 1);
    es := a + b + c + d;
  }

  /** A run with one reset and at most one discard in flight at a time, to 51 instances. */
  lemma ResetOverfills() returns (es: seq<Event>)
    ensures CanRun(INITIAL, es) && InFlight(INITIAL, es, 1) && Run(INITIAL, es).currentSize == MAX_SIZE + 1
  {
    var a, p1 := DiscardFirst();
    assert Step(p1, Reset) == AT_RESET;
    var b := AfterReset();
    ResetThen(p1, b);
    hide Step, Enabled;
    InFlightAppend(INITIAL, a, [Reset] + b, 1);
    es := a + ([Reset] + b);
  }

  lemma ResetThen(p: Pool, b: seq<Event>)
    requires p.loop == Idle && |p.between| <= 1 && CanRun(Step(p, Reset), b) && InFlight(Step(p, Reset), b, 1)
    ensures CanRun(p, [Reset] + b) && InFlight(p, [Reset] + b, 1) && Run(p, [Reset] + b) == Run(Step(p, Reset), b)
  {
    assert ([Reset] + b)[1..] == b;
  }

  /** Over all runs, resets included, the pool stays within its maximum exactly when no discard is in flight. */
  lemma ResetBoundIff(k: nat)
    ensures (forall es :: CanRun(INITIAL, es) && InFlight(INITIAL, es, k) ==> Run(INITIAL, es).currentSize <= MAX_SIZE)
       <==> k == 0
  {
    if k == 0 {
      forall es | CanRun(INITIAL, es) && InFlight(INITIAL, es, 0) ensures Run(INITIAL, es).currentSize <= MAX_SIZE {
        RunFives(INITIAL, es);
      }
    } else {
      var es := ResetOverfills();
      InFlightMonotone(INITIAL, es, 1, k);
    }
  }
}
