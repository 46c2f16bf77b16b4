/**
 The pool of contract instances: callers take, revert and discard instances while one loop grows,
 shrinks, drains and refills it. Every step is one atomic action of a caller or of the loop.
 */
module Pools {

  const MAX_SIZE: nat := 50
  const MIN_SIZE: nat := 5
  const CHANGE_SIZE: nat := 5
  const DELAY_TOLERANCE: nat := 10
  const APPLY_THRESHOLD: nat := 100
  const DISCARD_COUNT: nat := 10

  type Id = nat

  /** What a finished growth was for. */
  datatype Cause = ForApply | ForRefresh | ForAdd | ForReset

  /**
   * Where the loop is. `counted` and `taken` tell apart the two halves of adding and of removing an
   * instance: the channel operation and the change of currentSize.
   */
  datatype Loop =
    | Idle
    | Growing(left: nat, sent: bool, cause: Cause)
    | Shrinking(left: nat, taken: bool)
    | Draining(closing: bool, taken: bool)
    | Stopped

  datatype Pool = Pool(
    channel: seq<Id>,        // instances ready to be taken
    currentSize: int,
    useCount: nat,
    totalDelay: nat,
    applyGrowCount: nat,
    waiting: nat,            // callers waiting for an instance
    applies: nat,            // apply signals not yet received
    out: set<Id>,            // checked out
    awaiting: set<Id>,       // discarded, remove signal not yet received
    between: set<Id>,        // discarded, remove signal received, add signal not yet
    closing: set<Id>,        // discarded, both signals received
    closed: set<Id>,
    errors: map<Id, nat>,
    next: Id,
    loop: Loop)

  datatype Event =
    | Take | Wait | Wake(elapsed: nat)
    | Fail(i: Id) | Revert(i: Id) | CloseDiscarded(i: Id)
    | Apply | Refresh | Remove(i: Id) | Add(i: Id) | Close | Reset
    | GrowSend | GrowCount | ShrinkTake | ShrinkCount | DrainTake | DrainCount | Finish

  // ---------------------------------------------------------------- decisions

  function AverageDelay(p: Pool): nat {
    if p.useCount == 0 then 0 else p.totalDelay / p.useCount
  }

  predicate ShouldGrow(p: Pool) {
    || p.currentSize < MIN_SIZE
    || (p.currentSize + CHANGE_SIZE <= MAX_SIZE
        && (p.applyGrowCount > APPLY_THRESHOLD || AverageDelay(p) > DELAY_TOLERANCE || p.currentSize < MIN_SIZE))
  }

  predicate ShouldShrink(p: Pool) {
    p.currentSize > MIN_SIZE && AverageDelay(p) <= DELAY_TOLERANCE && p.currentSize > CHANGE_SIZE
  }

  lemma DivisionBounds(a: nat, n: nat)
    requires n > 0
    ensures (a / n) * n <= a < (a / n + 1) * n
  {
    assert a == n * (a / n) + a % n;
  }

  lemma ScaledOrder(x: nat, y: nat, n: nat)
    requires x <= y
    ensures x * n <= y * n
  {
  }

  /** The pool counts as slow exactly when the delays come to eleven or more for every use. */
  lemma SlowWhen(p: Pool)
    ensures AverageDelay(p) > DELAY_TOLERANCE <==> p.useCount > 0 && p.totalDelay >= (DELAY_TOLERANCE + 1) * p.useCount
  {
    if p.useCount > 0 {
      var d, n := p.totalDelay / p.useCount, p.useCount;
      DivisionBounds(p.totalDelay, n);
      if d <= DELAY_TOLERANCE {
        ScaledOrder(d + 1, DELAY_TOLERANCE + 1, n);
      } else {
        ScaledOrder(DELAY_TOLERANCE + 1, d, n);
      }
    }
  }

  function ErrorsOf(p: Pool, i: Id): nat {
    if i in p.errors then p.errors[i] else 0
  }

  predicate ShouldDiscard(p: Pool, i: Id) {
    ErrorsOf(p, i) > DISCARD_COUNT
  }

  // ---------------------------------------------------------------- steps

  predicate Enabled(p: Pool, e: Event) {
    match e
    case Take => p.channel != []
    case Wait => p.channel == []
    case Wake(_) => p.waiting > 0 && p.channel != []
    case Fail(i) => i in p.out
    case Revert(i) => i in p.out && (ShouldDiscard(p, i) || |p.channel| < MAX_SIZE)
    case CloseDiscarded(i) => i in p.closing
    case Apply => p.loop == Idle && p.applies > 0
    case Refresh => p.loop == Idle
    case Remove(i) => p.loop == Idle && i in p.awaiting
    case Add(i) => p.loop == Idle && i in p.between
    case Close => p.loop == Idle
    case Reset => p.loop == Idle
    case GrowSend => p.loop.Growing? && p.loop.left > 0 && !p.loop.sent && |p.channel| < MAX_SIZE
    case GrowCount => p.loop.Growing? && p.loop.left > 0 && p.loop.sent
    case ShrinkTake => p.loop.Shrinking? && p.loop.left > 0 && !p.loop.taken && p.channel != []
    case ShrinkCount => p.loop.Shrinking? && p.loop.left > 0 && p.loop.taken
    case DrainTake => p.loop.Draining? && !p.loop.taken && p.currentSize > 0 && p.channel != []
    case DrainCount => p.loop.Draining? && p.loop.taken
    case Finish =>
      || (p.loop.Growing? && p.loop.left == 0)
      || (p.loop.Shrinking? && p.loop.left == 0)
      || (p.loop.Draining? && !p.loop.taken && p.currentSize <= 0)
  }

  function Step(p: Pool, e: Event): Pool
    requires Enabled(p, e)
  {
    match e
    case Take =>
      p.(channel := p.channel[1..], out := p.out + {p.channel[0]}, useCount := p.useCount + 1)
    case Wait =>
      p.(waiting := p.waiting + 1, applies := p.applies + 1)
    case Wake(elapsed) =>
      p.(channel := p.channel[1..], out := p.out + {p.channel[0]}, useCount := p.useCount + 1,
         waiting := p.waiting - 1, totalDelay := p.totalDelay + elapsed)
    case Fail(i) =>
      p.(errors := p.errors[i := ErrorsOf(p, i) + 1])
    case Revert(i) =>
      if ShouldDiscard(p, i) then p.(out := p.out - {i}, awaiting := p.awaiting + {i})
      else p.(out := p.out - {i}, channel := p.channel + [i])
    case CloseDiscarded(i) =>
      p.(closing := p.closing - {i}, closed := p.closed + {i})
    case Apply =>
      var p' := p.(applies := p.applies - 1, applyGrowCount := p.applyGrowCount + 1);
      if ShouldGrow(p') then p'.(loop := Growing(CHANGE_SIZE, false, ForApply)) else p'
    case Refresh =>
      if ShouldGrow(p) then p.(loop := Growing(CHANGE_SIZE, false, ForRefresh))
      else if ShouldShrink(p) then p.(loop := Shrinking(CHANGE_SIZE, false))
      else p.(useCount := 0, totalDelay := 0)
    case Remove(i) =>
      p.(awaiting := p.awaiting - {i}, between := p.between + {i}, currentSize := p.currentSize - 1)
    case Add(i) =>
      p.(between := p.between - {i}, closing := p.closing + {i}, loop := Growing(1, false, ForAdd))
    case Close => p.(loop := Draining(true, false))
    case Reset => p.(loop := Draining(false, false))
    case GrowSend =>
      p.(channel := p.channel + [p.next], next := p.next + 1, loop := Growing(p.loop.left, true, p.loop.cause))
    case GrowCount =>
      p.(currentSize := p.currentSize + 1, loop := Growing(p.loop.left - 1, false, p.loop.cause))
    case ShrinkTake =>
      p.(channel := p.channel[1..], closed := p.closed + {p.channel[0]}, loop := Shrinking(p.loop.left, true))
    case ShrinkCount =>
      p.(currentSize := p.currentSize - 1, loop := Shrinking(p.loop.left - 1, false))
    case DrainTake =>
      p.(channel := p.channel[1..], closed := p.closed + {p.channel[0]}, loop := Draining(p.loop.closing, true))
    case DrainCount =>
      p.(currentSize := p.currentSize - 1, loop := Draining(p.loop.closing, false))
    case Finish =>
      match p.loop
      case Growing(_, _, ForApply) => p.(applyGrowCount := 0, loop := Idle)
      case Growing(_, _, ForRefresh) => p.(applyGrowCount := 0, useCount := 0, totalDelay := 0, loop := Idle)
      case Growing(_, _, _) => p.(loop := Idle)
      case Shrinking(_, _) => p.(useCount := 0, totalDelay := 0, loop := Idle)
      case Draining(true, _) => p.(channel := [], loop := Stopped)
      case _ => p.(channel := [], loop := Growing(MIN_SIZE, false, ForReset))
  }

  /** A pool as its manager hands it out: grown to the minimum size. */
  const INITIAL: Pool :=
    Pool([0, 1, 2, 3, 4], 5, 0, 0, 0, 0, 0, {}, {}, {}, {}, {}, map[], 5, Idle)

  predicate CanRun(p: Pool, es: seq<Event>)
    decreases |es|
  {
    es == [] || (Enabled(p, es[0]) && CanRun(Step(p, es[0]), es[1..]))
  }

  function Run(p: Pool, es: seq<Event>): Pool
    requires CanRun(p, es)
    decreases |es|
  {
    if es == [] then p else Run(Step(p, es[0]), es[1..])
  }

  // ---------------------------------------------------------------- every instance is in one place

  function Places(p: Pool): multiset<Id> {
    multiset(p.channel) + multiset(p.out) + multiset(p.awaiting) + multiset(p.between) + multiset(p.closing)
      + multiset(p.closed)
  }

  /** Each instance made so far is in exactly one place, and only such instances are anywhere. */
  ghost predicate OnePlace(p: Pool) {
    forall i: Id :: Places(p)[i] == if i < p.next then 1 else 0
  }

  /** How far currentSize lags behind the channel in the middle of an addition or a removal. */
  function Lag(p: Pool): int {
    match p.loop
    case Growing(_, true, _) => 1
    case Shrinking(_, true) => -1
    case Draining(_, true) => -1
    case _ => 0
  }

  /**
   * currentSize is not negative and counts the instances in the channel, checked out, and discarded
   * awaiting their remove signal.
   */
  predicate Counted(p: Pool) {
    p.currentSize >= 0 && p.currentSize + Lag(p) == |p.channel| + |p.out| + |p.awaiting|
  }

  predicate LoopOk(p: Pool) {
    && |p.channel| <= MAX_SIZE
    && (p.loop.Growing? && p.loop.sent ==> p.loop.left > 0)
    && (p.loop.Shrinking? && p.loop.taken ==> p.loop.left > 0)
  }

  ghost predicate Conserved(p: Pool) {
    OnePlace(p) && Counted(p) && LoopOk(p)
  }

  lemma AddOne(s: set<Id>, i: Id)
    requires i !in s
    ensures multiset(s + {i}) == multiset(s) + multiset{i} && |s + {i}| == |s| + 1
  {
  }

  lemma RemoveOne(s: set<Id>, i: Id)
    requires i in s
    ensures multiset(s) == multiset(s - {i}) + multiset{i} && |s - {i}| == |s| - 1
  {
  }

  lemma TakeFirst(c: seq<Id>)
    requires c != []
    ensures multiset(c) == multiset(c[1..]) + multiset{c[0]}
  {
    assert c == [c[0]] + c[1..];
  }

  lemma NotElsewhere(p: Pool, i: Id)
    requires OnePlace(p)
    ensures i in p.channel ==> i !in p.out && i !in p.closed
    ensures i in p.out ==> i !in p.awaiting && i !in p.channel
    ensures i in p.awaiting ==> i !in p.between
    ensures i in p.between ==> i !in p.closing
    ensures i in p.closing ==> i !in p.closed
    ensures i in p.closed ==> i !in p.out && i !in p.channel
    ensures Places(p)[p.next] == 0
  {
    assert Places(p)[i] <= 1;
    assert i in p.channel <==> i in multiset(p.channel);
  }

  predicate SameSets(p: Pool, p': Pool) {
    && p'.channel == p.channel && p'.out == p.out && p'.awaiting == p.awaiting && p'.between == p.between
    && p'.closing == p.closing && p'.closed == p.closed
  }

  lemma SameSetsPlaces(p: Pool, p': Pool)
    requires SameSets(p, p')
    ensures Places(p') == Places(p)
  {
  }

  lemma SamePlaces(p: Pool, p': Pool)
    requires OnePlace(p) && Places(p') == Places(p) && p'.next == p.next
    ensures OnePlace(p')
  {
    hide Places;
  }

  lemma MoveFirstOut(p: Pool)
    requires OnePlace(p) && p.channel != []
    ensures var p' := p.(channel := p.channel[1..], out := p.out + {p.channel[0]});
      Places(p') == Places(p) && |p'.out| == |p.out| + 1
  {
    NotElsewhere(p, p.channel[0]);
    TakeFirst(p.channel);
    AddOne(p.out, p.channel[0]);
  }

  lemma MoveFirstToClosed(p: Pool)
    requires OnePlace(p) && p.channel != []
    ensures Places(FirstClosed(p)) == Places(p)
  {
    NotElsewhere(p, p.channel[0]);
    TakeFirst(p.channel);
    AddOne(p.closed, p.channel[0]);
  }

  lemma TakeConserved(p: Pool, elapsed: nat)
    requires Conserved(p) && p.channel != []
    ensures Conserved(Step(p, Take))
    ensures p.waiting > 0 ==> Conserved(Step(p, Wake(elapsed)))
  {
    MoveFirstOut(p);
    SamePlaces(p, Step(p, Take));
    if p.waiting > 0 {
      assert Places(Step(p, Wake(elapsed))) == Places(Step(p, Take));
      SamePlaces(p, Step(p, Wake(elapsed)));
    }
    hide OnePlace, Places;
  }

  lemma RevertPlaces(p: Pool, i: Id)
    requires OnePlace(p) && Enabled(p, Revert(i))
    ensures Places(Step(p, Revert(i))) == Places(p)
    ensures i !in p.awaiting && |p.out - {i}| == |p.out| - 1 && |p.awaiting + {i}| == |p.awaiting| + 1
  {
    NotElsewhere(p, i);
    RemoveOne(p.out, i);
    AddOne(p.awaiting, i);
    hide OnePlace;
  }

  lemma RevertConserved(p: Pool, i: Id)
    requires Conserved(p) && Enabled(p, Revert(i))
    ensures Conserved(Step(p, Revert(i)))
  {
    RevertPlaces(p, i);
    hide Places;
    SamePlaces(p, Step(p, Revert(i)));
    hide OnePlace;
  }

  lemma RemovePlaces(p: Pool, i: Id)
    requires OnePlace(p) && Enabled(p, Remove(i))
    ensures Places(Step(p, Remove(i))) == Places(p) && |p.awaiting - {i}| == |p.awaiting| - 1
  {
    NotElsewhere(p, i);
    RemoveOne(p.awaiting, i);
    AddOne(p.between, i);
    hide OnePlace;
  }

  lemma RemoveConserved(p: Pool, i: Id)
    requires Conserved(p) && Enabled(p, Remove(i))
    ensures Conserved(Step(p, Remove(i)))
  {
    RemovePlaces(p, i);
    hide Places;
    SamePlaces(p, Step(p, Remove(i)));
    hide OnePlace;
  }

  lemma AddPlaces(p: Pool, i: Id)
    requires OnePlace(p) && Enabled(p, Add(i))
    ensures Places(Step(p, Add(i))) == Places(p) && |p.between - {i}| == |p.between| - 1
  {
    NotElsewhere(p, i);
    RemoveOne(p.between, i);
    AddOne(p.closing, i);
    hide OnePlace;
  }

  lemma AddConserved(p: Pool, i: Id)
    requires Conserved(p) && Enabled(p, Add(i))
    ensures Conserved(Step(p, Add(i)))
  {
    AddPlaces(p, i);
    hide Places;
    SamePlaces(p, Step(p, Add(i)));
    hide OnePlace;
  }

  lemma CloseDiscardedPlaces(p: Pool, i: Id)
    requires OnePlace(p) && Enabled(p, CloseDiscarded(i))
    ensures Places(Step(p, CloseDiscarded(i))) == Places(p) && |p.closing - {i}| == |p.closing| - 1
  {
    NotElsewhere(p, i);
    RemoveOne(p.closing, i);
    AddOne(p.closed, i);
    hide OnePlace;
  }

  lemma CloseDiscardedConserved(p: Pool, i: Id)
    requires Conserved(p) && Enabled(p, CloseDiscarded(i))
    ensures Conserved(Step(p, CloseDiscarded(i)))
  {
    CloseDiscardedPlaces(p, i);
    hide Places;
    SamePlaces(p, Step(p, CloseDiscarded(i)));
    hide OnePlace;
  }

  lemma SendPlaces(p: Pool)
    ensures Places(p.(channel := p.channel + [p.next])) == Places(p) + multiset{p.next}
  {
  }

  lemma GrowSendConserved(p: Pool)
    requires Conserved(p) && Enabled(p, GrowSend)
    ensures Conserved(Step(p, GrowSend))
  {
    var p' := Step(p, GrowSend);
    SendPlaces(p);
    SameSetsPlaces(p.(channel := p.channel + [p.next]), p');
    hide Places;
    forall i: Id ensures Places(p')[i] == if i < p'.next then 1 else 0 {
      assert Places(p)[i] == if i < p.next then 1 else 0;
    }
  }

  /** The first instance of the channel closed by the loop. */
  function FirstClosed(p: Pool): Pool
    requires p.channel != []
  {
    p.(channel := p.channel[1..], closed := p.closed + {p.channel[0]})
  }

  lemma ShrinkTakeConserved(p: Pool)
    requires Conserved(p) && Enabled(p, ShrinkTake)
    ensures Conserved(Step(p, ShrinkTake))
  {
    MoveFirstToClosed(p);
    SameSetsPlaces(FirstClosed(p), Step(p, ShrinkTake));
    hide Places;
    SamePlaces(p, Step(p, ShrinkTake));
    hide OnePlace;
  }

  lemma DrainTakeConserved(p: Pool)
    requires Conserved(p) && Enabled(p, DrainTake)
    ensures Conserved(Step(p, DrainTake))
  {
    MoveFirstToClosed(p);
    SameSetsPlaces(FirstClosed(p), Step(p, DrainTake));
    hide Places;
    SamePlaces(p, Step(p, DrainTake));
    hide OnePlace;
  }

  /** The steps that move no instance. */
  predicate MovesNothing(e: Event) {
    e.Wait? || e.Fail? || e.Apply? || e.Refresh? || e.Close? || e.Reset? || e.GrowCount? || e.ShrinkCount?
    || e.DrainCount?
  }

  lemma FinishConserved(p: Pool)
    requires Conserved(p) && Enabled(p, Finish)
    ensures Conserved(Step(p, Finish))
  {
    hide OnePlace, Places;
    if p.loop.Draining? {
      assert p.channel == [];
    }
    SameSetsPlaces(p, Step(p, Finish));
    SamePlaces(p, Step(p, Finish));
  }

  lemma OtherConserved(p: Pool, e: Event)
    requires Conserved(p) && Enabled(p, e) && MovesNothing(e)
    ensures Conserved(Step(p, e))
  {
    if e.GrowCount? || e.ShrinkCount? || e.DrainCount? {
      CountKeeps(p, e);
    } else {
      SignalKeeps(p, e);
    }
    hide OnePlace, Places, Step, Enabled, Counted, LoopOk;
    SameSetsPlaces(p, Step(p, e));
    SamePlaces(p, Step(p, e));
  }

  lemma CountKeeps(p: Pool, e: Event)
    requires Counted(p) && LoopOk(p) && Enabled(p, e) && (e.GrowCount? || e.ShrinkCount? || e.DrainCount?)
    ensures SameSets(p, Step(p, e)) && Step(p, e).next == p.next && Counted(Step(p, e)) && LoopOk(Step(p, e))
  {
  }

  lemma SignalKeeps(p: Pool, e: Event)
    requires Counted(p) && LoopOk(p) && Enabled(p, e)
    requires e.Wait? || e.Fail? || e.Apply? || e.Refresh? || e.Close? || e.Reset?
    ensures SameSets(p, Step(p, e)) && Step(p, e).next == p.next && Counted(Step(p, e)) && LoopOk(Step(p, e))
  {
    hide ShouldGrow, ShouldShrink, ErrorsOf;
  }

  /** Every step conserves. */
  lemma StepConserved(p: Pool, e: Event)
    requires Conserved(p) && Enabled(p, e)
    ensures Conserved(Step(p, e))
  {
    hide Conserved, Step;
    match e
    case Take => TakeConserved(p, 0);
    case Wake(elapsed) => TakeConserved(p, elapsed);
    case Revert(i) => RevertConserved(p, i);
    case CloseDiscarded(i) => CloseDiscardedConserved(p, i);
    case Remove(i) => RemoveConserved(p, i);
    case Add(i) => AddConserved(p, i);
    case GrowSend => GrowSendConserved(p);
    case ShrinkTake => ShrinkTakeConserved(p);
    case DrainTake => DrainTakeConserved(p);
    case Finish => FinishConserved(p);
    case _ => OtherConserved(p, e);
  }

  /** Conservation over every interleaving. */
  lemma {:induction false} RunConserved(p: Pool, es: seq<Event>)
    requires Conserved(p) && CanRun(p, es)
    ensures Conserved(Run(p, es))
    decreases |es|
  {
    if es != [] {
      StepConserved(p, es[0]);
      RunConserved(Step(p, es[0]), es[1..]);
    }
  }

  lemma InitialConserved()
    ensures Conserved(INITIAL)
  {
    assert INITIAL.channel == FirstIds(5);
    assert Places(INITIAL) == multiset(FirstIds(5));
    forall i: Id ensures Places(INITIAL)[i] == if i < 5 then 1 else 0 {
      CountFirst(5, i);
    }
    hide Places, FirstIds;
  }

  function FirstIds(n: nat): seq<Id> {
    seq(n, i => i)
  }

  lemma {:induction false} CountFirst(n: nat, i: Id)
    ensures multiset(FirstIds(n))[i] == if i < n then 1 else 0
  {
    if n > 0 {
      CountFirst(n - 1, i);
      assert FirstIds(n) == FirstIds(n - 1) + [n - 1];
    }
  }

  // ---------------------------------------------------------------- who holds an instance

  lemma InMultiset(c: seq<Id>, i: Id)
    ensures i in c <==> i in multiset(c)
  {
  }

  lemma FirstIsFree(p: Pool)
    requires OnePlace(p) && p.channel != []
    ensures var i := p.channel[0];
      i !in p.out && i !in p.awaiting && i !in p.between && i !in p.closing && i !in p.closed && i !in p.channel[1..]
  {
    var i := p.channel[0];
    TakeFirst(p.channel);
    InMultiset(p.channel[1..], i);
    assert Places(p)[i] <= 1;
    assert multiset(p.channel)[i] >= 1;
    hide OnePlace;
  }

  /** What a caller is handed is held by nobody else and not closed. */
  lemma TakenIsFree(es: seq<Event>)
    requires CanRun(INITIAL, es) && Run(INITIAL, es).channel != []
    ensures var p := Run(INITIAL, es);
      var i := p.channel[0];
      i !in p.out && i !in p.awaiting && i !in p.between && i !in p.closing && i !in p.closed && i !in p.channel[1..]
  {
    InitialConserved();
    RunConserved(INITIAL, es);
    hide OnePlace, Run, CanRun;
    FirstIsFree(Run(INITIAL, es));
  }

  lemma {:induction false} ClosedStays(p: Pool, es: seq<Event>, i: Id)
    requires CanRun(p, es) && i in p.closed
    ensures i in Run(p, es).closed
    decreases |es|
  {
    if es != [] {
      ClosedStays(Step(p, es[0]), es[1..], i);
    }
  }

  /** An instance once closed is never in the channel or with a caller again. */
  lemma ClosedNeverHandedOut(p: Pool, es: seq<Event>, i: Id)
    requires Conserved(p) && CanRun(p, es) && i in p.closed
    ensures i !in Run(p, es).channel && i !in Run(p, es).out
  {
    ClosedStays(p, es, i);
    RunConserved(p, es);
    NotElsewhere(Run(p, es), i);
    hide *;
  }

  // ---------------------------------------------------------------- draining

  /** A drain that can finish has left nothing outstanding. */
  lemma DrainLeavesNothing(p: Pool)
    requires Conserved(p) && p.loop.Draining? && Enabled(p, Finish)
    ensures p.channel == [] && p.out == {} && p.awaiting == {}
  {
    hide OnePlace;
  }

  /** Some instance will not come back to the channel: it is discarded, or will be when it is reverted. */
  predicate Lost(p: Pool, i: Id) {
    i in p.awaiting || (i in p.out && ShouldDiscard(p, i))
  }

  /** While the loop drains, a lost instance stays lost, and the drain goes on. */
  lemma LostStays(p: Pool, e: Event, i: Id)
    requires Conserved(p) && Enabled(p, e) && p.loop.Draining? && Lost(p, i)
    ensures Step(p, e).loop.Draining? && Lost(Step(p, e), i)
  {
    hide OnePlace;
    assert |p.out| + |p.awaiting| > 0 by {
      assert p.out != {} || p.awaiting != {};
    }
  }

  lemma {:induction false} LostForever(p: Pool, es: seq<Event>, i: Id)
    requires Conserved(p) && CanRun(p, es) && p.loop.Draining? && Lost(p, i)
    ensures Run(p, es).loop.Draining?
    decreases |es|
  {
    hide Conserved, Step, Lost, Enabled;
    if es != [] {
      LostStays(p, es[0], i);
      StepConserved(p, es[0]);
      LostForever(Step(p, es[0]), es[1..], i);
    }
  }

  /** A way to the end of a drain from which every caller returns its instance. */
  lemma {:induction false} DrainOut(p: Pool) returns (es: seq<Event>)
    requires Conserved(p) && p.loop.Draining? && NoneLost(p)
    ensures CanRun(p, es) && !Run(p, es).loop.Draining?
    decreases p.currentSize, if p.loop.taken then 0 else 1, |p.out|
  {
    var e := DrainMove(p);
    StepConserved(p, e);
    assert p.currentSize >= 0;
    hide Conserved, NoneLost, Step, Enabled;
    if e == Finish {
      es := [Finish];
      assert CanRun(Step(p, e), []);
    } else {
      var rest := DrainOut(Step(p, e));
      es := [e] + rest;
    }
  }

  /** Every caller returns its instance, none of which is due to be discarded. */
  predicate NoneLost(p: Pool) {
    p.awaiting == {} && forall i :: i in p.out ==> !ShouldDiscard(p, i)
  }

  /** The next step of such a way. */
  lemma DrainMove(p: Pool) returns (e: Event)
    requires Conserved(p) && p.loop.Draining? && NoneLost(p)
    ensures Enabled(p, e)
    ensures e == Finish ==> !Step(p, e).loop.Draining?
    ensures e != Finish ==>
      && Step(p, e).loop.Draining? && NoneLost(Step(p, e))
      && (Step(p, e).currentSize < p.currentSize
          || (Step(p, e).currentSize == p.currentSize && !p.loop.taken && Step(p, e).loop.taken)
          || (Step(p, e).currentSize == p.currentSize && p.loop.taken == Step(p, e).loop.taken
              && |Step(p, e).out| < |p.out|))
  {
    hide OnePlace, AverageDelay;
    if p.loop.taken {
      e := DrainCount;
    } else if p.currentSize <= 0 {
      e := Finish;
    } else if p.channel != [] {
      e := DrainTake;
    } else {
      e := DrainReturn(p);
    }
  }

  lemma DrainReturn(p: Pool) returns (e: Event)
    requires p.loop.Draining? && p.channel == [] && p.out != {} && NoneLost(p)
    ensures Enabled(p, e) && e != Finish && |Step(p, e).out| < |p.out| && NoneLost(Step(p, e))
    ensures Step(p, e).loop == p.loop && Step(p, e).currentSize == p.currentSize
  {
    var i :| i in p.out;
    e := Revert(i);
    RemoveOne(p.out, i);
  }

  /**
   * A drain can finish if and only if no discarded instance awaits its remove signal and no instance
   * checked out is due to be discarded: the loop that would receive the signal is the one that drains.
   */
  lemma DrainFinishesIff(p: Pool)
    requires Conserved(p) && p.loop.Draining?
    ensures (exists es :: CanRun(p, es) && !Run(p, es).loop.Draining?) <==> NoneLost(p)
  {
    if NoneLost(p) {
      var es := DrainOut(p);
    } else {
      var i;
      if p.awaiting != {} {
        i :| i in p.awaiting;
      } else {
        i :| i in p.out && ShouldDiscard(p, i);
      }
      assert Lost(p, i);
      forall es | CanRun(p, es) ensures Run(p, es).loop.Draining? {
        LostForever(p, es, i);
      }
    }
  }

  // ---------------------------------------------------------------- shrinking

  /** The instances checked out that will come back to the channel when they are reverted now. */
  function Returnable(p: Pool): set<Id> {
    set i | i in p.out && !ShouldDiscard(p, i)
  }

  /** How many instances a shrink has still to take. */
  function Needed(p: Pool): int
    requires p.loop.Shrinking?
  {
    p.loop.left - if p.loop.taken then 1 else 0
  }

  function Supply(p: Pool): int {
    |p.channel| + |Returnable(p)|
  }

  lemma Fewer(a: set<Id>, b: set<Id>)
    requires a <= b
    ensures |a| <= |b|
  {
    assert b == a + (b - a);
  }

  lemma TakenSupply(p: Pool, elapsed: nat)
    requires p.channel != []
    ensures |Returnable(Step(p, Take))| <= |Returnable(p)| + 1
    ensures p.waiting > 0 ==> |Returnable(Step(p, Wake(elapsed)))| <= |Returnable(p)| + 1
  {
    var i := p.channel[0];
    Fewer(Returnable(Step(p, Take)), Returnable(p) + {i});
    if p.waiting > 0 {
      Fewer(Returnable(Step(p, Wake(elapsed))), Returnable(p) + {i});
    }
  }

  lemma RevertedSupply(p: Pool, i: Id)
    requires Enabled(p, Revert(i))
    ensures Supply(Step(p, Revert(i))) <= Supply(p)
  {
    if ShouldDiscard(p, i) {
      Fewer(Returnable(Step(p, Revert(i))), Returnable(p));
    } else {
      assert i in Returnable(p);
      Fewer(Returnable(Step(p, Revert(i))), Returnable(p) - {i});
    }
  }

  lemma SameReturnable(p: Pool, p': Pool)
    ensures p'.out == p.out && p'.errors == p.errors ==> Returnable(p') == Returnable(p)
  {
  }

  /** While a shrink goes on, what it lacks does not become less. */
  lemma StepLack(p: Pool, e: Event)
    requires Enabled(p, e) && p.loop.Shrinking? && Step(p, e).loop.Shrinking?
    ensures Supply(Step(p, e)) - Needed(Step(p, e)) <= Supply(p) - Needed(p)
  {
    SameReturnable(p, Step(p, e));
    match e
    case Take => TakenSupply(p, 0);
    case Wake(elapsed) => TakenSupply(p, elapsed);
    case Fail(i) => Fewer(Returnable(Step(p, e)), Returnable(p));
    case Revert(i) => RevertedSupply(p, i);
    case _ =>
  }

  lemma {:induction false} LackForever(p: Pool, es: seq<Event>)
    requires Conserved(p) && CanRun(p, es) && p.loop.Shrinking? && Needed(p) > Supply(p)
    ensures Run(p, es).loop.Shrinking?
    decreases |es|
  {
    if es != [] {
      LackStays(p, es[0]);
      StepConserved(p, es[0]);
      hide Conserved, Step, Enabled, Needed, Supply;
      LackForever(Step(p, es[0]), es[1..]);
    }
  }

  lemma LackStays(p: Pool, e: Event)
    requires Conserved(p) && Enabled(p, e) && p.loop.Shrinking? && Needed(p) > Supply(p)
    ensures Step(p, e).loop.Shrinking? && Needed(Step(p, e)) > Supply(Step(p, e))
  {
    assert e != Finish;
    assert Step(p, e).loop.Shrinking?;
    StepLack(p, e);
    hide *;
  }

  /** A way to the end of a shrink from which enough callers return their instances. */
  lemma {:induction false} ShrinkOut(p: Pool) returns (es: seq<Event>)
    requires Conserved(p) && p.loop.Shrinking? && Needed(p) <= Supply(p)
    ensures CanRun(p, es) && !Run(p, es).loop.Shrinking?
    decreases p.loop.left, if p.loop.taken then 0 else 1, |p.out|
  {
    var e := ShrinkMove(p);
    StepConserved(p, e);
    hide Conserved, Step, Enabled, Needed, Supply;
    if e == Finish {
      es := [Finish];
      assert CanRun(Step(p, e), []);
    } else {
      var rest := ShrinkOut(Step(p, e));
      es := [e] + rest;
    }
  }

  /** The next step of such a way. */
  lemma ShrinkMove(p: Pool) returns (e: Event)
    requires Conserved(p) && p.loop.Shrinking? && Needed(p) <= Supply(p)
    ensures Enabled(p, e)
    ensures e == Finish ==> !Step(p, e).loop.Shrinking?
    ensures e != Finish ==>
      && Step(p, e).loop.Shrinking? && Needed(Step(p, e)) <= Supply(Step(p, e))
      && (Step(p, e).loop.left < p.loop.left
          || (Step(p, e).loop.left == p.loop.left && !p.loop.taken && Step(p, e).loop.taken)
          || (Step(p, e).loop == p.loop && |Step(p, e).out| < |p.out|))
  {
    hide OnePlace;
    if p.loop.left == 0 {
      e := Finish;
    } else if p.loop.taken {
      e := ShrinkCount;
      SameReturnable(p, Step(p, e));
    } else if p.channel != [] {
      e := ShrinkTake;
      SameReturnable(p, Step(p, e));
    } else {
      e := ReturnMove(p);
    }
  }

  lemma ReturnMove(p: Pool) returns (e: Event)
    requires p.loop.Shrinking? && p.channel == [] && 0 < Needed(p) <= Supply(p)
    ensures Enabled(p, e) && e != Finish && Step(p, e).loop == p.loop && |Step(p, e).out| < |p.out|
    ensures Needed(Step(p, e)) <= Supply(Step(p, e))
  {
    assert Returnable(p) != {};
    var i :| i in Returnable(p);
    e := Revert(i);
    RemoveOne(p.out, i);
    RemoveOne(Returnable(p), i);
    assert Returnable(Step(p, e)) == Returnable(p) - {i};
  }

  /**
   * A shrink can finish if and only if the channel and the instances checked out and not due to be
   * discarded are together as many as it has still to take.
   */
  lemma ShrinkFinishesIff(p: Pool)
    requires Conserved(p) && p.loop.Shrinking?
    ensures (exists es :: CanRun(p, es) && !Run(p, es).loop.Shrinking?) <==> Needed(p) <= Supply(p)
  {
    if Needed(p) <= Supply(p) {
      var es := ShrinkOut(p);
    } else {
      forall es | CanRun(p, es) ensures Run(p, es).loop.Shrinking? {
        LackForever(p, es);
      }
    }
  }

  // ---------------------------------------------------------------- the size

  /** The size once what the loop has begun is done and every discarded instance is replaced. */
  function SettledSize(p: Pool): int {
    p.currentSize + |p.between| +
    match p.loop
    case Growing(left, _, _) => left
    case Shrinking(left, _) => -(left as int)
    case _ => 0
  }

  predicate Serving(p: Pool) {
    !p.loop.Draining? && p.loop != Stopped
  }

  /** The arithmetic of a pool that was never reset. */
  predicate Rounded(p: Pool) {
    && (p.loop.Draining? ==> p.loop.closing)
    && (Serving(p) ==> SettledSize(p) % 5 == 0)
    && (p.loop.Shrinking? && p.between == {} ==> p.currentSize - p.loop.left >= MIN_SIZE)
  }

  lemma RemoveSettled(p: Pool, i: Id)
    requires OnePlace(p) && Enabled(p, Remove(i))
    ensures SettledSize(Step(p, Remove(i))) == SettledSize(p)
  {
    NotElsewhere(p, i);
    AddOne(p.between, i);
    hide OnePlace, Places;
  }

  lemma AddSettled(p: Pool, i: Id)
    requires Enabled(p, Add(i))
    ensures SettledSize(Step(p, Add(i))) == SettledSize(p)
  {
    RemoveOne(p.between, i);
  }

  /** By how much a step of the loop's decisions changes the settled size. */
  function Decided(p: Pool, p': Pool, e: Event): int {
    if p'.loop.Growing? && !p.loop.Growing? && !e.Add? then 5
    else if p'.loop.Shrinking? && !p.loop.Shrinking? then -5
    else 0
  }

  lemma SignalSettled(p: Pool, e: Event)
    requires Enabled(p, e) && (e.Apply? || e.Refresh?)
    ensures SettledSize(Step(p, e)) - SettledSize(p) == Decided(p, Step(p, e), e)
  {
    hide ShouldGrow, ShouldShrink;
  }

  lemma CallerSettled(p: Pool, e: Event)
    requires Enabled(p, e) && (e.Take? || e.Wait? || e.Wake? || e.Fail? || e.Revert? || e.CloseDiscarded?)
    ensures SettledSize(Step(p, e)) == SettledSize(p) && Step(p, e).loop == p.loop
  {
    hide ShouldDiscard;
  }

  lemma LoopSettled(p: Pool, e: Event)
    requires Enabled(p, e) && Serving(p) && Serving(Step(p, e))
    requires e.GrowSend? || e.GrowCount? || e.ShrinkTake? || e.ShrinkCount? || e.Finish?
    ensures SettledSize(Step(p, e)) == SettledSize(p) && Decided(p, Step(p, e), e) == 0
  {
  }

  /** The steps change the settled size only where the loop decides to grow or to shrink. */
  lemma StepSettled(p: Pool, e: Event)
    requires Conserved(p) && Enabled(p, e) && Serving(p) && Serving(Step(p, e))
    ensures SettledSize(Step(p, e)) - SettledSize(p) == Decided(p, Step(p, e), e)
  {
    match e
    case Remove(i) => RemoveSettled(p, i);
    case Add(i) => AddSettled(p, i);
    case Apply => SignalSettled(p, e);
    case Refresh => SignalSettled(p, e);
    case Take => CallerSettled(p, e);
    case Wait => CallerSettled(p, e);
    case Wake(_) => CallerSettled(p, e);
    case Fail(_) => CallerSettled(p, e);
    case Revert(_) => CallerSettled(p, e);
    case CloseDiscarded(_) => CallerSettled(p, e);
    case Close =>
    case Reset =>
    case DrainTake =>
    case DrainCount =>
    case _ => LoopSettled(p, e);
  }

  lemma StepShrinkFloor(p: Pool, e: Event)
    requires Rounded(p) && Enabled(p, e) && e != Reset
    requires Step(p, e).loop.Shrinking? && Step(p, e).between == {}
    ensures Step(p, e).currentSize - Step(p, e).loop.left >= MIN_SIZE
  {
    hide ShouldGrow;
    if !p.loop.Shrinking? {
      assert e == Refresh && SettledSize(p) == p.currentSize;
    }
  }

  lemma StepRounded(p: Pool, e: Event)
    requires Conserved(p) && Rounded(p) && Enabled(p, e) && e != Reset
    ensures Rounded(Step(p, e))
  {
    hide Conserved;
    var p' := Step(p, e);
    if Serving(p) && Serving(p') {
      StepSettled(p, e);
    }
    if p'.loop.Shrinking? && p'.between == {} {
      StepShrinkFloor(p, e);
    }
    DrainingStays(p, e);
    hide Step, SettledSize;
  }

  lemma DrainingStays(p: Pool, e: Event)
    requires Enabled(p, e) && e != Reset && (p.loop.Draining? ==> p.loop.closing)
    ensures Step(p, e).loop.Draining? ==> Step(p, e).loop.closing
    ensures !Serving(p) ==> !Serving(Step(p, e))
  {
    hide ShouldGrow, ShouldShrink;
  }

  predicate NoReset(es: seq<Event>) {
    Reset !in es
  }

  /** On reset-free runs size and replacements under way are always a multiple of five. */
  lemma {:induction false} RunRounded(p: Pool, es: seq<Event>)
    requires Conserved(p) && Rounded(p) && CanRun(p, es) && NoReset(es)
    ensures Rounded(Run(p, es))
    decreases |es|
  {
    hide Conserved, Rounded, Step, Enabled;
    if es != [] {
      StepRounded(p, es[0]);
      StepConserved(p, es[0]);
      RunRounded(Step(p, es[0]), es[1..]);
    }
  }

  /** At the loop head the size plus the discards between their two signals is a multiple of five. */
  lemma SizeAtLoopHead(es: seq<Event>)
    requires CanRun(INITIAL, es) && NoReset(es) && Run(INITIAL, es).loop == Idle
    ensures (Run(INITIAL, es).currentSize + |Run(INITIAL, es).between|) % 5 == 0
  {
    InitialConserved();
    RunRounded(INITIAL, es);
  }

  /** A shrink with no discard in flight leaves at least the minimum size. */
  lemma ShrinkLeavesMinimum(es: seq<Event>)
    requires CanRun(INITIAL, es) && NoReset(es)
    requires var p := Run(INITIAL, es); p.loop.Shrinking? && p.between == {}
    ensures Run(INITIAL, es).currentSize - Run(INITIAL, es).loop.left >= MIN_SIZE
  {
    InitialConserved();
    RunRounded(INITIAL, es);
  }

  /** At most k discards are between their two signals in every state of the run. */
  predicate InFlight(p: Pool, es: seq<Event>, k: nat)
    requires CanRun(p, es)
    decreases |es|
  {
    |p.between| <= k && (es == [] || InFlight(Step(p, es[0]), es[1..], k))
  }

  lemma StepBounded(p: Pool, e: Event)
    requires Conserved(p) && Rounded(p) && Enabled(p, e) && e != Reset
    requires |p.between| <= 4 && Serving(p) && Serving(Step(p, e)) && SettledSize(p) <= MAX_SIZE
    ensures SettledSize(Step(p, e)) <= MAX_SIZE
  {
    StepSettled(p, e);
    StepRounded(p, e);
    hide Conserved;
  }

  /** With at most four discards in flight the size stays within the maximum. */
  lemma {:induction false} RunBounded(p: Pool, es: seq<Event>)
    requires Conserved(p) && Rounded(p) && CanRun(p, es) && NoReset(es) && InFlight(p, es, 4)
    requires p.currentSize <= MAX_SIZE && (Serving(p) ==> SettledSize(p) <= MAX_SIZE)
    ensures Run(p, es).currentSize <= MAX_SIZE
    decreases |es|
  {
    if es != [] {
      var p' := Step(p, es[0]);
      StepConserved(p, es[0]);
      StepRounded(p, es[0]);
      SizeWithinSettled(p, es[0]);
      RunBounded(p', es[1..]);
    }
  }

  /** Only counting a new instance makes the size grow. */
  lemma SizeGrows(p: Pool, e: Event)
    requires Enabled(p, e) && e != GrowCount
    ensures Step(p, e).currentSize <= p.currentSize
  {
    hide ShouldGrow, ShouldShrink, ShouldDiscard;
  }

  lemma SizeWithinSettled(p: Pool, e: Event)
    requires Conserved(p) && Rounded(p) && Enabled(p, e) && e != Reset && |p.between| <= 4
    requires p.currentSize <= MAX_SIZE && (Serving(p) ==> SettledSize(p) <= MAX_SIZE)
    ensures Step(p, e).currentSize <= MAX_SIZE && (Serving(Step(p, e)) ==> SettledSize(Step(p, e)) <= MAX_SIZE)
  {
    DrainingStays(p, e);
    if Serving(p) && Serving(Step(p, e)) {
      StepBounded(p, e);
    }
    if e == GrowCount {
      assert Step(p, e).currentSize <= SettledSize(Step(p, e));
    } else {
      SizeGrows(p, e);
    }
    hide Conserved, Rounded, SettledSize, Step, Enabled;
  }
}
