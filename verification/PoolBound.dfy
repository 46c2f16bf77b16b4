/** How many discards may be in flight for the pool to stay within its maximum size. */
module PoolBound {
  import opened Pools

  /** The run es leads from p to q, without a reset and with at most k discards in flight throughout. */
  ghost predicate Leads(p: Pool, es: seq<Event>, q: Pool, k: nat) {
    CanRun(p, es) && Run(p, es) == q && NoReset(es) && InFlight(p, es, k)
  }

  lemma {:induction false} ThenLeads(p: Pool, a: seq<Event>, q: Pool, b: seq<Event>, r: Pool, k: nat)
    requires Leads(p, a, q, k) && Leads(q, b, r, k)
    ensures Leads(p, a + b, r, k)
    decreases |a|
  {
    hide Enabled, Step;
    if a == [] {
      assert a + b == b;
    } else {
      assert (a + b)[0] == a[0] && (a + b)[1..] == a[1..] + b;
      assert forall e :: e in a[1..] ==> e in a;
      ThenLeads(Step(p, a[0]), a[1..], q, b, r, k);
    }
  }

  lemma OneStep(p: Pool, e: Event, k: nat)
    requires Enabled(p, e) && e != Reset && |p.between| <= k && |Step(p, e).between| <= k
    ensures Leads(p, [e], Step(p, e), k)
  {
    var es := [e];
    assert es[1..] == [];
    hide Step, Enabled;
    assert CanRun(Step(p, e), []) && Run(Step(p, e), []) == Step(p, e) && InFlight(Step(p, e), [], k);
  }

  lemma Extend(p: Pool, a: seq<Event>, q: Pool, e: Event, k: nat)
    requires Leads(p, a, q, k) && Enabled(q, e) && e != Reset && |q.between| <= k && |Step(q, e).between| <= k
    ensures Leads(p, a + [e], Step(q, e), k)
  {
    OneStep(q, e, k);
    hide *;
    ThenLeads(p, a, q, [e], Step(q, e), k);
  }

  lemma Nowhere(p: Pool, k: nat)
    requires |p.between| <= k
    ensures Leads(p, [], p, k)
  {
  }

  // ---------------------------------------------------------------- stretches of a run

  function Grown(p: Pool, n: nat, cause: Cause): Pool {
    p.(channel := p.channel + seq(n, i => p.next + i), currentSize := p.currentSize + n, next := p.next + n,
       loop := Growing(0, false, cause))
  }

  /** One instance sent and counted. */
  function GrownByOne(p: Pool, n: nat, cause: Cause): Pool
    requires n > 0
  {
    p.(channel := p.channel + [p.next], currentSize := p.currentSize + 1, next := p.next + 1,
       loop := Growing(n - 1, false, cause))
  }

  lemma GrowByOne(p: Pool, n: nat, cause: Cause, k: nat)
    requires n > 0 && p.loop == Growing(n, false, cause) && |p.channel| < MAX_SIZE && |p.between| <= k
    ensures Leads(p, [GrowSend, GrowCount], GrownByOne(p, n, cause), k)
  {
    var p1 := Step(p, GrowSend);
    assert Enabled(p1, GrowCount) && Step(p1, GrowCount) == GrownByOne(p, n, cause);
    assert p1.between == p.between;
    OneStep(p, GrowSend, k);
    hide Leads, Step, Enabled;
    Extend(p, [GrowSend], p1, GrowCount, k);
    assert [GrowSend] + [GrowCount] == [GrowSend, GrowCount];
  }

  lemma {:induction false} GrowAll(p: Pool, n: nat, cause: Cause, k: nat) returns (es: seq<Event>)
    requires p.loop == Growing(n, false, cause) && |p.channel| + n <= MAX_SIZE && |p.between| <= k
    ensures Leads(p, es, Grown(p, n, cause), k)
    decreases n
  {
    hide Leads;
    if n == 0 {
      es := [];
      Nowhere(p, k);
      assert Grown(p, 0, cause) == p;
    } else {
      var p1 := GrownByOne(p, n, cause);
      GrowByOne(p, n, cause, k);
      var rest := GrowAll(p1, n - 1, cause, k);
      es := [GrowSend, GrowCount] + rest;
      GrownOneMore(p, n, cause);
      hide *;
      ThenLeads(p, [GrowSend, GrowCount], p1, rest, Grown(p, n, cause), k);
    }
  }

  lemma GrownOneMore(p: Pool, n: nat, cause: Cause)
    requires n > 0
    ensures Grown(GrownByOne(p, n, cause), n - 1, cause) == Grown(p, n, cause)
  {
    assert [p.next] + seq(n - 1, i => p.next + 1 + i) == seq(n, i => p.next + i);
    assert (p.channel + [p.next]) + seq(n - 1, i => p.next + 1 + i) == p.channel + seq(n, i => p.next + i);
  }

  lemma {:induction false} Waits(p: Pool, n: nat, k: nat) returns (es: seq<Event>)
    requires p.channel == [] && |p.between| <= k
    ensures Leads(p, es, p.(waiting := p.waiting + n, applies := p.applies + n), k)
    decreases n
  {
    if n == 0 {
      es := [];
      Nowhere(p, k);
    } else {
      var p1 := Step(p, Wait);
      OneStep(p, Wait, k);
      var rest := Waits(p1, n - 1, k);
      es := [Wait] + rest;
      ThenLeads(p, [Wait], p1, rest, p.(waiting := p.waiting + n, applies := p.applies + n), k);
    }
  }

  lemma {:induction false} Fails(p: Pool, i: Id, n: nat, k: nat) returns (es: seq<Event>)
    requires i in p.out && |p.between| <= k && n > 0
    ensures Leads(p, es, p.(errors := p.errors[i := ErrorsOf(p, i) + n]), k)
    decreases n
  {
    var p1 := Step(p, Fail(i));
    OneStep(p, Fail(i), k);
    if n == 1 {
      es := [Fail(i)];
    } else {
      var rest := Fails(p1, i, n - 1, k);
      es := [Fail(i)] + rest;
      var q := p.(errors := p.errors[i := ErrorsOf(p, i) + n]);
      assert p1.errors[i := ErrorsOf(p1, i) + (n - 1)] == q.errors;
      ThenLeads(p, [Fail(i)], p1, rest, q, k);
    }
  }

  // ---------------------------------------------------------------- growing to the maximum

  /** Five instances out, the others idle, long delays on record, and apply signals waiting. */
  ghost predicate Ready(q: Pool, size: nat, applies: nat) {
    && q.loop == Idle && q.currentSize == size && size >= 5 && |q.channel| == size - 5
    && (forall i :: i in q.out <==> 0 <= i < 5)
    && q.awaiting == {} && q.between == {} && q.errors == map[]
    && q.applies == applies && AverageDelay(q) > DELAY_TOLERANCE
  }

  /** The pool once everything idle is taken. */
  function AllTaken(p: Pool): Pool {
    p.(channel := [], out := p.out + (set i | i in p.channel), useCount := p.useCount + |p.channel|)
  }

  lemma {:induction false} TakeEvery(p: Pool, k: nat) returns (es: seq<Event>)
    requires |p.between| <= k
    ensures Leads(p, es, AllTaken(p), k)
    decreases |p.channel|
  {
    if p.channel == [] {
      es := [];
      assert AllTaken(p) == p;
      Nowhere(p, k);
    } else {
      var p1 := Step(p, Take);
      OneStep(p, Take, k);
      OneTaken(p);
      hide Leads, Step, Enabled, AllTaken;
      var rest := TakeEvery(p1, k);
      ThenLeads(p, [Take], p1, rest, AllTaken(p), k);
      es := [Take] + rest;
    }
  }

  lemma OneTaken(p: Pool)
    requires p.channel != []
    ensures AllTaken(Step(p, Take)) == AllTaken(p) && Step(p, Take).between == p.between
    ensures |Step(p, Take).channel| == |p.channel| - 1
  {
    var p1 := Step(p, Take);
    assert p.channel == [p.channel[0]] + p.channel[1..];
    assert p1.out + (set i | i in p1.channel) == p.out + (set i | i in p.channel);
  }

  lemma TakeAll() returns (es: seq<Event>, q: Pool)
    ensures Leads(INITIAL, es, q, 5)
    ensures q == Pool([], 5, 5, 0, 0, 0, 0, {0, 1, 2, 3, 4}, {}, {}, {}, {}, map[], 5, Idle)
  {
    es := TakeEvery(INITIAL, 5);
    q := AllTaken(INITIAL);
    hide Leads;
  }

  /** A caller waits long for an instance another one reverts. */
  lemma RevertAndWake(p: Pool, i: Id, elapsed: nat, k: nat) returns (es: seq<Event>)
    requires p.channel == [] && i in p.out && ErrorsOf(p, i) == 0 && p.waiting > 0 && |p.between| <= k
    ensures Leads(p, es,
      p.(useCount := p.useCount + 1, totalDelay := p.totalDelay + elapsed, waiting := p.waiting - 1), k)
  {
    var p1 := Step(p, Revert(i));
    var q := p.(useCount := p.useCount + 1, totalDelay := p.totalDelay + elapsed, waiting := p.waiting - 1);
    assert p1.channel == [i] && p1.out + {i} == p.out && p1.channel[1..] == [];
    assert Step(p1, Wake(elapsed)) == q;
    OneStep(p, Revert(i), k);
    hide Leads;
    Extend(p, [Revert(i)], p1, Wake(elapsed), k);
    es := [Revert(i)] + [Wake(elapsed)];
  }

  lemma GetReady() returns (es: seq<Event>, q: Pool)
    ensures Leads(INITIAL, es, q, 5) && Ready(q, 5, 9)
  {
    var a, p := TakeAll();
    var b := Waits(p, 9, 5);
    var p1 := p.(waiting := 9, applies := 9);
    q := p1.(useCount := 6, totalDelay := 1000, waiting := 8);
    hide Leads;
    var c := RevertAndWake(p1, 0, 1000, 5);
    ThenLeads(INITIAL, a, p, b, p1, 5);
    ThenLeads(INITIAL, a + b, p1, c, q, 5);
    es := a + b + c;
  }

  lemma GrowOnce(p: Pool, size: nat, applies: nat) returns (es: seq<Event>, q: Pool)
    requires Ready(p, size, applies + 1) && size + 5 <= MAX_SIZE
    ensures Leads(p, es, q, 5) && Ready(q, size + 5, applies)
  {
    var p1 := Step(p, Apply);
    assert p1.loop == Growing(5, false, ForApply);
    OneStep(p, Apply, 5);
    var b := GrowAll(p1, 5, ForApply, 5);
    var p2 := Grown(p1, 5, ForApply);
    ThenLeads(p, [Apply], p1, b, p2, 5);
    q := Step(p2, Finish);
    Extend(p, [Apply] + b, p2, Finish, 5);
    es := [Apply] + b + [Finish];
  }

  lemma {:induction false} GrowToMaximum(p: Pool, size: nat, applies: nat) returns (es: seq<Event>, q: Pool)
    requires Ready(p, size, applies) && size + 5 * applies == MAX_SIZE
    ensures Leads(p, es, q, 5) && Ready(q, MAX_SIZE, 0)
    decreases applies
  {
    hide Ready, Leads;
    if applies == 0 {
      es, q := [], p;
      ReadyNowhere(p, size, applies);
    } else {
      var a, p1 := GrowOnce(p, size, applies - 1);
      var b;
      b, q := GrowToMaximum(p1, size + 5, applies - 1);
      es := a + b;
      ThenLeads(p, a, p1, b, q, 5);
    }
  }

  lemma ReadyNowhere(p: Pool, size: nat, applies: nat)
    requires Ready(p, size, applies)
    ensures Leads(p, [], p, 5)
  {
  }

  // ---------------------------------------------------------------- five discards

  /** j of the five instances out are discarded and between their signals. */
  ghost predicate Discarding(q: Pool, j: nat) {
    && q.loop == Idle && j <= 5 && q.currentSize == MAX_SIZE - j && |q.channel| == 45
    && (forall i :: i in q.out <==> j <= i < 5)
    && q.awaiting == {} && |q.between| == j && (forall i :: i in q.between ==> i < j)
    && (forall i :: j <= i < 5 ==> ErrorsOf(q, i) == 0)
    && AverageDelay(q) > DELAY_TOLERANCE
  }

  function Discarded(p: Pool, i: Id): Pool {
    p.(errors := p.errors[i := 11], out := p.out - {i}, between := p.between + {i}, currentSize := p.currentSize - 1)
  }

  lemma DiscardMoves(p: Pool, i: Id, k: nat) returns (es: seq<Event>)
    requires p.loop == Idle && i in p.out && p.awaiting == {} && i !in p.between && ErrorsOf(p, i) == 0
    requires |p.between| < k
    ensures Leads(p, es, Discarded(p, i), k)
  {
    var a := Fails(p, i, 11, k);
    var p1 := p.(errors := p.errors[i := 11]);
    var p2 := Step(p1, Revert(i));
    AddOne(p.between, i);
    assert p.awaiting + {i} - {i} == {} == p.awaiting;
    assert Step(p2, Remove(i)) == Discarded(p, i);
    hide Leads;
    Extend(p, a, p1, Revert(i), k);
    Extend(p, a + [Revert(i)], p2, Remove(i), k);
    es := a + [Revert(i)] + [Remove(i)];
  }

  lemma DiscardOne(p: Pool, j: nat) returns (es: seq<Event>, q: Pool)
    requires Discarding(p, j) && j < 5
    ensures Leads(p, es, q, 5) && Discarding(q, j + 1)
  {
    es := DiscardMoves(p, j, 5);
    q := Discarded(p, j);
    AddOne(p.between, j);
    hide Leads;
    forall i ensures i in q.out <==> j + 1 <= i < 5 {
      assert i in p.out <==> j <= i < 5;
    }
    forall i | j + 1 <= i < 5 ensures ErrorsOf(q, i) == 0 {
      assert ErrorsOf(p, i) == 0;
    }
  }

  lemma {:induction false} DiscardAll(p: Pool, j: nat) returns (es: seq<Event>, q: Pool)
    requires Discarding(p, j) && j <= 5
    ensures Leads(p, es, q, 5) && Discarding(q, 5)
    decreases 5 - j
  {
    if j == 5 {
      es, q := [], p;
      Nowhere(p, 5);
    } else {
      var a, p1 := DiscardOne(p, j);
      hide Discarding, Leads;
      var b;
      b, q := DiscardAll(p1, j + 1);
      es := a + b;
      ThenLeads(p, a, p1, b, q, 5);
    }
  }

  /** A refresh fills the gap the discards left, and then the first replacement comes on top. */
  lemma Overfill(p: Pool) returns (es: seq<Event>, q: Pool)
    requires Discarding(p, 5)
    ensures Leads(p, es, q, 5) && q.currentSize == MAX_SIZE + 1
  {
    var p1 := Step(p, Refresh);
    assert p1 == p.(loop := Growing(5, false, ForRefresh));
    OneStep(p, Refresh, 5);
    var b := GrowAll(p1, 5, ForRefresh, 5);
    var p2 := Grown(p1, 5, ForRefresh);
    ThenLeads(p, [Refresh], p1, b, p2, 5);
    var p3 := Step(p2, Finish);
    Extend(p, [Refresh] + b, p2, Finish, 5);
    var c, p4 := ReplaceOne(p3);
    ThenLeads(p, [Refresh] + b + [Finish], p3, c, p4, 5);
    es, q := [Refresh] + b + [Finish] + c, p4;
  }

  lemma ReplaceOne(p: Pool) returns (es: seq<Event>, q: Pool)
    requires p.loop == Idle && |p.channel| == MAX_SIZE && |p.between| == 5
    ensures Leads(p, es, q, 5) && q.currentSize == p.currentSize + 1
  {
    var p1 := Step(p, Take);
    OneStep(p, Take, 5);
    var i :| i in p1.between;
    RemoveOne(p1.between, i);
    var p2 := Step(p1, Add(i));
    Extend(p, [Take], p1, Add(i), 5);
    var b := GrowAll(p2, 1, ForAdd, 5);
    q := Grown(p2, 1, ForAdd);
    ThenLeads(p, [Take] + [Add(i)], p2, b, q, 5);
    es := [Take] + [Add(i)] + b;
  }

  /** A run from the initial pool, with five discards in flight, to 51 instances. */
  lemma FiveInFlightOverfill() returns (es: seq<Event>)
    ensures CanRun(INITIAL, es) && NoReset(es) && InFlight(INITIAL, es, 5)
    ensures Run(INITIAL, es).currentSize == MAX_SIZE + 1
  {
    var a, p1 := GetReady();
    var b, p2 := GrowToMaximum(p1, 5, 9);
    assert Discarding(p2, 0);
    var c, p3 := DiscardAll(p2, 0);
    var d, p4 := Overfill(p3);
    hide Discarding, Ready;
    ThenLeads(INITIAL, a, p1, b, p2, 5);
    ThenLeads(INITIAL, a + b, p2, c, p3, 5);
    ThenLeads(INITIAL, a + b + c, p3, d, p4, 5);
    es := a + b + c + d;
  }

  lemma {:induction false} InFlightMonotone(p: Pool, es: seq<Event>, k: nat, k': nat)
    requires CanRun(p, es) && InFlight(p, es, k) && k <= k'
    ensures InFlight(p, es, k')
    decreases |es|
  {
    hide Enabled, Step;
    if es != [] {
      InFlightMonotone(Step(p, es[0]), es[1..], k, k');
    }
  }

  /** Reset-free runs with at most k discards in flight keep the pool within its maximum exactly when k <= 4. */
  lemma BoundIff(k: nat)
    ensures (forall es :: CanRun(INITIAL, es) && NoReset(es) && InFlight(INITIAL, es, k) ==>
              Run(INITIAL, es).currentSize <= MAX_SIZE)
       <==> k <= 4
  {
    if k <= 4 {
      InitialConserved();
      forall es | CanRun(INITIAL, es) && NoReset(es) && InFlight(INITIAL, es, k)
        ensures Run(INITIAL, es).currentSize <= MAX_SIZE
      {
        InFlightMonotone(INITIAL, es, k, 4);
        RunBounded(INITIAL, es);
      }
    } else {
      var es := FiveInFlightOverfill();
      InFlightMonotone(INITIAL, es, 5, k);
    }
  }

  /** An instance that failed eleven times more is returned, its remove signal not received. */
  function Returned(p: Pool, i: Id): Pool {
    p.(errors := p.errors[i := ErrorsOf(p, i) + 11], out := p.out - {i}, awaiting := p.awaiting + {i})
  }

  lemma FailAndReturn(p: Pool, i: Id, k: nat) returns (es: seq<Event>)
    requires i in p.out && |p.between| <= k
    ensures Leads(p, es, Returned(p, i), k)
  {
    var a := Fails(p, i, 11, k);
    var p1 := p.(errors := p.errors[i := ErrorsOf(p, i) + 11]);
    assert Enabled(p1, Revert(i)) && Step(p1, Revert(i)) == Returned(p, i) && Returned(p, i).between == p.between;
    hide Leads, Step, Enabled;
    Extend(p, a, p1, Revert(i), k);
    es := a + [Revert(i)];
  }

  /** A new pool, one caller whose instance fails eleven times, and a close: a drain that never ends. */
  lemma CloseBlocksForever() returns (es: seq<Event>)
    ensures CanRun(INITIAL, es) && Run(INITIAL, es).loop == Draining(true, false)
    ensures forall more :: CanRun(INITIAL, es + more) ==> Run(INITIAL, es + more).loop.Draining?
  {
    var p1 := INITIAL.(channel := [1, 2, 3, 4], out := {0}, useCount := 1);
    assert Enabled(INITIAL, Take) && Step(INITIAL, Take) == p1;
    OneStep(INITIAL, Take, 0);
    var p2 := Returned(p1, 0);
    assert p2.loop == Idle && 0 in p2.awaiting && p2.between == {};
    hide Leads, Step, Enabled, Returned;
    var a := FailAndReturn(p1, 0, 0);
    ThenLeads(INITIAL, [Take], p1, a, p2, 0);
    var p3 := p2.(loop := Draining(true, false));
    ClosedAfter(INITIAL, [Take] + a, p2);
    es := [Take] + a + [Close];
    assert Lost(p3, 0);
    hide Lost;
    DrainsForever(es, p3, 0);
  }

  lemma ClosedAfter(p: Pool, es: seq<Event>, q: Pool)
    requires Leads(p, es, q, 0) && q.loop == Idle && q.between == {}
    ensures Leads(p, es + [Close], q.(loop := Draining(true, false)), 0)
  {
    assert Enabled(q, Close) && Step(q, Close) == q.(loop := Draining(true, false));
    hide Leads, Step, Enabled;
    Extend(p, es, q, Close, 0);
  }

  // ---------------------------------------------------------------- a shrink that finds too few

  /** A settled pool of ten that nobody waited for. */
  ghost predicate Settled(q: Pool, idle: nat) {
    && q.loop == Idle && q.currentSize == 10 && |q.channel| == idle && q.between == {}
    && q.applyGrowCount == 0 && q.totalDelay == 0
  }

  /** A growth that the timer starts, after which nothing is on record. */
  lemma GetSettled() returns (es: seq<Event>, q: Pool)
    ensures Leads(INITIAL, es, q, 5) && Settled(q, 5)
  {
    var a, p := GetReady();
    var p1 := Step(p, Refresh);
    assert p1.loop == Growing(5, false, ForRefresh);
    OneStep(p, Refresh, 5);
    var b := GrowAll(p1, 5, ForRefresh, 5);
    var p2 := Grown(p1, 5, ForRefresh);
    q := Step(p2, Finish);
    hide Leads;
    ThenLeads(INITIAL, a, p, [Refresh], p1, 5);
    ThenLeads(INITIAL, a + [Refresh], p1, b, p2, 5);
    Extend(INITIAL, a + [Refresh] + b, p2, Finish, 5);
    es := a + [Refresh] + b + [Finish];
  }

  lemma LoseOne(p: Pool, i: Id, idle: nat) returns (es: seq<Event>, q: Pool)
    requires Settled(p, idle) && i in p.out
    ensures Leads(p, es, q, 5) && Settled(q, idle) && q.out == p.out - {i}
  {
    es := FailAndReturn(p, i, 5);
    q := Returned(p, i);
    hide Leads;
  }

  lemma {:induction false} LoseAll(p: Pool, idle: nat) returns (es: seq<Event>, q: Pool)
    requires Settled(p, idle)
    ensures Leads(p, es, q, 5) && Settled(q, idle) && q.out == {}
    decreases |p.out|
  {
    if p.out == {} {
      es, q := [], p;
      Nowhere(p, 5);
    } else {
      var i :| i in p.out;
      RemoveOne(p.out, i);
      var a, p1 := LoseOne(p, i, idle);
      hide Settled, Leads;
      var b;
      b, q := LoseAll(p1, idle);
      ThenLeads(p, a, p1, b, q, 5);
      es := a + b;
    }
  }

  lemma LoseAnother(p: Pool) returns (es: seq<Event>, q: Pool)
    requires Settled(p, 5) && p.out == {}
    ensures Leads(p, es, q, 5) && Settled(q, 4) && q.out == {}
  {
    var p1 := Step(p, Take);
    OneStep(p, Take, 5);
    var b;
    b, q := LoseOne(p1, p.channel[0], 4);
    hide Leads;
    ThenLeads(p, [Take], p1, b, q, 5);
    es := [Take] + b;
  }

  /**
   * A new pool grown to ten, six of whose instances fail eleven times and are returned, and then the timer before
   * any of their signals: a shrink by five that finds four and never ends.
   */
  lemma TimerBlocksForever() returns (es: seq<Event>)
    ensures CanRun(INITIAL, es) && NoReset(es) && Run(INITIAL, es).loop == Shrinking(5, false)
    ensures forall more :: CanRun(INITIAL, es + more) ==> Run(INITIAL, es + more).loop.Shrinking?
  {
    var a, p1 := GetSettled();
    var b, p2 := LoseAll(p1, 5);
    var c, p3 := LoseAnother(p2);
    var p4 := Step(p3, Refresh);
    assert p4.loop == Shrinking(5, false) && Needed(p4) > Supply(p4) by {
      assert Returnable(p4) == {};
    }
    assert Enabled(p3, Refresh);
    ThenLeads(INITIAL, a, p1, b, p2, 5);
    ThenLeads(INITIAL, a + b, p2, c, p3, 5);
    assert p3.between == {} && p4.between == {};
    hide Settled, Step, Enabled, Supply, Needed;
    Extend(INITIAL, a + b + c, p3, Refresh, 5);
    es := a + b + c + [Refresh];
    ShrinksForever(es, p4);
  }

  lemma ShrinksForever(es: seq<Event>, p: Pool)
    requires Leads(INITIAL, es, p, 5) && p.loop.Shrinking? && Needed(p) > Supply(p)
    ensures CanRun(INITIAL, es) && NoReset(es) && Run(INITIAL, es) == p
    ensures forall more :: CanRun(INITIAL, es + more) ==> Run(INITIAL, es + more).loop.Shrinking?
  {
    InitialConserved();
    RunConserved(INITIAL, es);
    forall more | CanRun(INITIAL, es + more) ensures Run(INITIAL, es + more).loop.Shrinking? {
      RunAppend(INITIAL, es, more);
      LackForever(p, more);
    }
  }

  lemma DrainsForever(es: seq<Event>, p: Pool, i: Id)
    requires Leads(INITIAL, es, p, 0) && p.loop.Draining? && Lost(p, i)
    ensures CanRun(INITIAL, es) && Run(INITIAL, es) == p
    ensures forall more :: CanRun(INITIAL, es + more) ==> Run(INITIAL, es + more).loop.Draining?
  {
    InitialConserved();
    RunConserved(INITIAL, es);
    forall more | CanRun(INITIAL, es + more) ensures Run(INITIAL, es + more).loop.Draining? {
      RunAppend(INITIAL, es, more);
      LostForever(p, more, i);
    }
  }

  lemma {:induction false} RunAppend(p: Pool, a: seq<Event>, b: seq<Event>)
    ensures CanRun(p, a + b) <==> CanRun(p, a) && CanRun(Run(p, a), b)
    ensures CanRun(p, a + b) ==> Run(p, a + b) == Run(Run(p, a), b)
    decreases |a|
  {
    hide Enabled, Step;
    if a == [] {
      assert a + b == b;
    } else {
      assert (a + b)[0] == a[0] && (a + b)[1..] == a[1..] + b;
      if Enabled(p, a[0]) {
        RunAppend(Step(p, a[0]), a[1..], b);
      }
    }
  }
}
