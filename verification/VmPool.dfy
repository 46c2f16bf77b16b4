/** The pool object: what callers do to its fields, and the turns of its loop with callers stepping in between. */
module VmPools {
  import opened ByteStrings
  import opened Pools
  import opened PoolBound

  /** The steps of callers. */
  predicate OfCaller(e: Event) {
    e.Take? || e.Wait? || e.Wake? || e.Fail? || e.Revert? || e.CloseDiscarded?
  }

  predicate CallersOnly(meanwhile: seq<seq<Event>>) {
    forall i, j :: 0 <= i < |meanwhile| && 0 <= j < |meanwhile[i]| ==> OfCaller(meanwhile[i][j])
  }

  /** The loop's steps a, b, n times over, each after the callers' steps that come in before it. */
  function Interleaved(n: nat, a: Event, b: Event, meanwhile: seq<seq<Event>>): seq<Event>
    requires |meanwhile| == 2 * n
  {
    if n == 0 then []
    else meanwhile[0] + [a] + meanwhile[1] + [b] + Interleaved(n - 1, a, b, meanwhile[2..])
  }

  /** The first round of an interleaved run, and the rest. */
  lemma FirstRound(p: Pool, n: nat, a: Event, b: Event, meanwhile: seq<seq<Event>>)
    requires n > 0 && |meanwhile| == 2 * n && CanRun(p, Interleaved(n, a, b, meanwhile))
    ensures CanRun(p, meanwhile[0]) && Enabled(Run(p, meanwhile[0]), a)
    ensures var p1 := Step(Run(p, meanwhile[0]), a);
      CanRun(p1, meanwhile[1]) && Enabled(Run(p1, meanwhile[1]), b)
    ensures var p2 := Step(Run(Step(Run(p, meanwhile[0]), a), meanwhile[1]), b);
      && CanRun(p2, Interleaved(n - 1, a, b, meanwhile[2..]))
      && Run(p2, Interleaved(n - 1, a, b, meanwhile[2..])) == Run(p, Interleaved(n, a, b, meanwhile))
  {
    var rest := Interleaved(n - 1, a, b, meanwhile[2..]);
    var tail := [b] + rest;
    assert Interleaved(n, a, b, meanwhile) == meanwhile[0] + ([a] + (meanwhile[1] + tail));
    RunAppend(p, meanwhile[0], [a] + (meanwhile[1] + tail));
    var p0 := Run(p, meanwhile[0]);
    assert ([a] + (meanwhile[1] + tail))[1..] == meanwhile[1] + tail;
    var p1 := Step(p0, a);
    RunAppend(p1, meanwhile[1], tail);
    assert tail[1..] == rest;
    hide Step, Enabled, Interleaved;
  }

  /** Callers change neither the size nor the loop's place. */
  lemma {:induction false} CallersKeep(p: Pool, es: seq<Event>)
    requires CanRun(p, es) && forall e :: e in es ==> OfCaller(e)
    ensures Run(p, es).loop == p.loop && Run(p, es).currentSize == p.currentSize
    decreases |es|
  {
    if es != [] {
      assert es[0] in es && forall e :: e in es[1..] ==> e in es;
      CallerKeeps(p, es[0]);
      CallersKeep(Step(p, es[0]), es[1..]);
    }
  }

  lemma CallerKeeps(p: Pool, e: Event)
    requires Enabled(p, e) && OfCaller(e)
    ensures Step(p, e).loop == p.loop && Step(p, e).currentSize == p.currentSize
  {
  }

  /** A round of the drain takes one off the size. */
  lemma DrainSize(p: Pool, n: nat, ms: seq<seq<Event>>)
    requires n > 0 && |ms| == 2 * n && CallersOnly(ms) && CanRun(p, Interleaved(n, DrainTake, DrainCount, ms))
    ensures CanRun(p, ms[0]) && Enabled(Run(p, ms[0]), DrainTake)
    ensures var p1 := Step(Run(p, ms[0]), DrainTake);
      && CanRun(p1, ms[1]) && Enabled(Run(p1, ms[1]), DrainCount)
      && Step(Run(p1, ms[1]), DrainCount).currentSize == p.currentSize - 1
  {
    hide Interleaved, Step, Enabled, Run, CanRun;
    FirstRound(p, n, DrainTake, DrainCount, ms);
    CallersKeep(p, ms[0]);
    LoopMoves(Run(p, ms[0]), DrainTake);
    var p1 := Step(Run(p, ms[0]), DrainTake);
    CallersKeep(p1, ms[1]);
    LoopMoves(Run(p1, ms[1]), DrainCount);
  }

  /** What a step of the loop does to its own place and to the size. */
  lemma LoopMoves(p: Pool, e: Event)
    requires Enabled(p, e)
    ensures e == GrowSend ==> Step(p, e).loop == Growing(p.loop.left, true, p.loop.cause)
    ensures e == GrowCount ==> Step(p, e).loop == Growing(p.loop.left - 1, false, p.loop.cause)
    ensures e == ShrinkTake ==> Step(p, e).loop == Shrinking(p.loop.left, true)
    ensures e == ShrinkCount ==> Step(p, e).loop == Shrinking(p.loop.left - 1, false)
    ensures e == DrainTake ==> Step(p, e).currentSize == p.currentSize
    ensures e == DrainCount ==> Step(p, e).currentSize == p.currentSize - 1
  {
  }

  /**
   * The parts of the pool's state that are not its fields (callers, signals in flight, where the loop is,
   * what was closed) are kept in `rest`.
   */
  class VmPool {
    var instances: seq<Id>
    var currentSize: int
    var useCount: nat
    var totalDelay: nat
    var applyGrowCount: nat
    var errCounts: map<Id, nat>
    var nextId: Id
    ghost var rest: Pool

    ghost function State(): Pool
      reads this
    {
      rest.(channel := instances, currentSize := currentSize, useCount := useCount, totalDelay := totalDelay,
            applyGrowCount := applyGrowCount, errors := errCounts, next := nextId)
    }

    /** A pool as its manager makes it: empty, then grown to the minimum size before anybody else sees it. */
    constructor ()
      ensures State() == INITIAL
    {
      instances, currentSize, useCount, totalDelay, applyGrowCount, errCounts, nextId := [], 0, 0, 0, 0, map[], 0;
      rest := Pool([], 0, 0, 0, 0, 0, 0, {}, {}, {}, {}, {}, map[], 0, Growing(MIN_SIZE, false, ForReset));
      new;
      for i := 0 to MIN_SIZE
        invariant State() == Grown(Pool([], 0, 0, 0, 0, 0, 0, {}, {}, {}, {}, {}, map[], 0, Idle), i, ForReset)
                               .(loop := Growing(MIN_SIZE - i, false, ForReset))
      {
        SendInstance();
        CountInstance();
        assert seq(i + 1, j => 0 + j) == seq(i, j => 0 + j) + [i];
      }
      rest := rest.(loop := Idle);
      assert seq(5, j => 0 + j) == [0, 1, 2, 3, 4];
    }

    // -------------------------------------------------------------- decisions

    method GetAverageDelay() returns (delay: nat)
      ensures delay == AverageDelay(State())
    {
      if useCount == 0 {
        return 0;
      }
      return totalDelay / useCount;
    }

    method ShouldGrowNow() returns (grow: bool)
      ensures grow <==> ShouldGrow(State())
    {
      if currentSize < MIN_SIZE {
        return true;
      }
      if currentSize + CHANGE_SIZE <= MAX_SIZE {
        if applyGrowCount > APPLY_THRESHOLD {
          return true;
        }
        var delay := GetAverageDelay();
        if delay > DELAY_TOLERANCE {
          return true;
        }
      }
      return false;
    }

    method ShouldShrinkNow() returns (shrink: bool)
      ensures shrink <==> ShouldShrink(State())
    {
      var delay := GetAverageDelay();
      shrink := currentSize > MIN_SIZE && delay <= DELAY_TOLERANCE && currentSize > CHANGE_SIZE;
    }

    // -------------------------------------------------------------- callers

    /** GetInstance up to its wait: an instance at hand is taken, otherwise the caller signals. */
    method TryGetInstance() returns (instance: Option<Id>)
      modifies this
      ensures instance == if old(instances) == [] then None else Some(old(instances)[0])
      ensures Enabled(old(State()), if old(instances) == [] then Wait else Take)
      ensures State() == Step(old(State()), if old(instances) == [] then Wait else Take)
    {
      if instances == [] {
        rest := rest.(waiting := rest.waiting + 1, applies := rest.applies + 1);
        return None;
      }
      instance := Some(instances[0]);
      instances, useCount := instances[1..], useCount + 1;
      rest := rest.(out := rest.out + {instance.value});
    }

    /** GetInstance after its wait: the instance arrives and the time waited is added up. */
    method AwaitedInstance(elapsed: nat) returns (instance: Id)
      requires Enabled(State(), Wake(elapsed))
      modifies this
      ensures old(instances) != [] && instance == old(instances)[0]
      ensures State() == Step(old(State()), Wake(elapsed))
    {
      instance := instances[0];
      instances, useCount, totalDelay := instances[1..], useCount + 1, totalDelay + elapsed;
      rest := rest.(out := rest.out + {instance}, waiting := rest.waiting - 1);
    }

    method RecordError(instance: Id)
      requires Enabled(State(), Fail(instance))
      modifies this
      ensures State() == Step(old(State()), Fail(instance))
    {
      errCounts := errCounts[instance := if instance in errCounts then errCounts[instance] + 1 else 1];
    }

    method RevertInstance(instance: Id)
      requires Enabled(State(), Revert(instance))
      modifies this
      ensures State() == Step(old(State()), Revert(instance))
    {
      rest := rest.(out := rest.out - {instance});
      if instance in errCounts && errCounts[instance] > DISCARD_COUNT {
        rest := rest.(awaiting := rest.awaiting + {instance});
      } else {
        instances := instances + [instance];
      }
    }

    /** The steps of callers, one after the other. */
    method Callers(es: seq<Event>)
      requires CanRun(State(), es) && forall e :: e in es ==> OfCaller(e)
      modifies this
      ensures CanRun(old(State()), es) && State() == Run(old(State()), es)
    {
      ghost var goal := Run(State(), es);
      assert es[0..] == es;
      for i := 0 to |es|
        invariant CanRun(State(), es[i..]) && Run(State(), es[i..]) == goal
      {
        assert es[i..][0] == es[i] && es[i..][1..] == es[i + 1..] && es[i] in es;
        CallerStep(es[i]);
      }
    }

    method CallerStep(e: Event)
      requires OfCaller(e) && Enabled(State(), e)
      modifies this
      ensures Enabled(old(State()), e) && State() == Step(old(State()), e)
    {
      match e {
        case Take => var _ := TryGetInstance();
        case Wait => var _ := TryGetInstance();
        case Wake(elapsed) => var _ := AwaitedInstance(elapsed);
        case Fail(i) => RecordError(i);
        case Revert(i) => RevertInstance(i);
        case CloseDiscarded(i) => rest := rest.(closing := rest.closing - {i}, closed := rest.closed + {i});
      }
    }

    // -------------------------------------------------------------- single steps of the loop

    /** Sending waits until the channel has room. */
    method SendInstance()
      requires Enabled(State(), GrowSend)
      modifies this
      ensures State() == Step(old(State()), GrowSend)
    {
      instances, nextId := instances + [nextId], nextId + 1;
      rest := rest.(loop := Growing(rest.loop.left, true, rest.loop.cause));
    }

    method CountInstance()
      requires Enabled(State(), GrowCount)
      modifies this
      ensures State() == Step(old(State()), GrowCount)
    {
      currentSize := currentSize + 1;
      rest := rest.(loop := Growing(rest.loop.left - 1, false, rest.loop.cause));
    }

    /** Receiving waits until the channel has an instance, which is closed. */
    method CloseFirst(ghost e: Event)
      requires (e == ShrinkTake || e == DrainTake) && Enabled(State(), e)
      modifies this
      ensures Enabled(old(State()), e) && State() == Step(old(State()), e)
    {
      ghost var first := instances[0];
      instances := instances[1..];
      rest := rest.(closed := rest.closed + {first}, loop := rest.loop.(taken := true));
    }

    method CountOut(ghost e: Event)
      requires (e == ShrinkCount || e == DrainCount) && Enabled(State(), e)
      modifies this
      ensures Enabled(old(State()), e) && State() == Step(old(State()), e)
    {
      currentSize := currentSize - 1;
      rest := rest.(loop := if rest.loop.Shrinking? then Shrinking(rest.loop.left - 1, false)
                            else Draining(rest.loop.closing, false));
    }

    // -------------------------------------------------------------- the loops, callers stepping in between

    method GrowRound(ghost left: nat, ms: seq<seq<Event>>)
      requires left > 0 && |ms| == 2 * left && CallersOnly(ms)
      requires CanRun(State(), Interleaved(left, GrowSend, GrowCount, ms))
      modifies this
      ensures CanRun(State(), Interleaved(left - 1, GrowSend, GrowCount, ms[2..]))
      ensures Run(State(), Interleaved(left - 1, GrowSend, GrowCount, ms[2..]))
           == old(Run(State(), Interleaved(left, GrowSend, GrowCount, ms)))
    {
      FirstRound(State(), left, GrowSend, GrowCount, ms);
      hide Interleaved, Step, Enabled, Run, CanRun;
      Callers(ms[0]);
      SendInstance();
      Callers(ms[1]);
      CountInstance();
    }

    method Grow(count: nat, meanwhile: seq<seq<Event>>)
      requires |meanwhile| == 2 * count && CallersOnly(meanwhile)
      requires CanRun(State(), Interleaved(count, GrowSend, GrowCount, meanwhile))
      modifies this
      ensures CanRun(old(State()), Interleaved(count, GrowSend, GrowCount, meanwhile))
      ensures State() == Run(old(State()), Interleaved(count, GrowSend, GrowCount, meanwhile))
    {
      ghost var goal := Run(State(), Interleaved(count, GrowSend, GrowCount, meanwhile));
      var left, ms := count, meanwhile;
      hide Interleaved;
      while left > 0
        invariant |ms| == 2 * left && CallersOnly(ms)
        invariant CanRun(State(), Interleaved(left, GrowSend, GrowCount, ms))
        invariant Run(State(), Interleaved(left, GrowSend, GrowCount, ms)) == goal
      {
        GrowRound(left, ms);
        left, ms := left - 1, ms[2..];
      }
      NoRounds(GrowSend, GrowCount, ms);
    }

    method ShrinkRound(ghost left: nat, ms: seq<seq<Event>>)
      requires left > 0 && |ms| == 2 * left && CallersOnly(ms)
      requires CanRun(State(), Interleaved(left, ShrinkTake, ShrinkCount, ms))
      modifies this
      ensures CanRun(State(), Interleaved(left - 1, ShrinkTake, ShrinkCount, ms[2..]))
      ensures Run(State(), Interleaved(left - 1, ShrinkTake, ShrinkCount, ms[2..]))
           == old(Run(State(), Interleaved(left, ShrinkTake, ShrinkCount, ms)))
    {
      FirstRound(State(), left, ShrinkTake, ShrinkCount, ms);
      hide Interleaved, Step, Enabled, Run, CanRun;
      Callers(ms[0]);
      CloseFirst(ShrinkTake);
      Callers(ms[1]);
      CountOut(ShrinkCount);
    }

    method Shrink(count: nat, meanwhile: seq<seq<Event>>)
      requires |meanwhile| == 2 * count && CallersOnly(meanwhile)
      requires CanRun(State(), Interleaved(count, ShrinkTake, ShrinkCount, meanwhile))
      modifies this
      ensures CanRun(old(State()), Interleaved(count, ShrinkTake, ShrinkCount, meanwhile))
      ensures State() == Run(old(State()), Interleaved(count, ShrinkTake, ShrinkCount, meanwhile))
    {
      ghost var goal := Run(State(), Interleaved(count, ShrinkTake, ShrinkCount, meanwhile));
      var left, ms := count, meanwhile;
      hide Interleaved;
      while left > 0
        invariant |ms| == 2 * left && CallersOnly(ms)
        invariant CanRun(State(), Interleaved(left, ShrinkTake, ShrinkCount, ms))
        invariant Run(State(), Interleaved(left, ShrinkTake, ShrinkCount, ms)) == goal
      {
        ShrinkRound(left, ms);
        left, ms := left - 1, ms[2..];
      }
      NoRounds(ShrinkTake, ShrinkCount, ms);
    }

    /** The drain of close and reset: as long as the size is above zero. */
    method Drain(meanwhile: seq<seq<Event>>)
      requires State().loop.Draining? && currentSize >= 0
      requires |meanwhile| == 2 * currentSize && CallersOnly(meanwhile)
      requires CanRun(State(), Interleaved(currentSize, DrainTake, DrainCount, meanwhile))
      modifies this
      ensures currentSize == 0 && CanRun(old(State()), Interleaved(old(currentSize), DrainTake, DrainCount, meanwhile))
      ensures State() == Run(old(State()), Interleaved(old(currentSize), DrainTake, DrainCount, meanwhile))
    {
      ghost var goal := Run(State(), Interleaved(currentSize, DrainTake, DrainCount, meanwhile));
      var ms := meanwhile;
      hide Interleaved;
      while currentSize > 0
        invariant currentSize >= 0 && |ms| == 2 * currentSize && CallersOnly(ms)
        invariant CanRun(State(), Interleaved(currentSize, DrainTake, DrainCount, ms))
        invariant Run(State(), Interleaved(currentSize, DrainTake, DrainCount, ms)) == goal
        decreases currentSize
      {
        DrainRound(ms);
        ms := ms[2..];
      }
      NoRounds(DrainTake, DrainCount, ms);
    }

    method DrainRound(ms: seq<seq<Event>>)
      requires currentSize > 0 && |ms| == 2 * currentSize && CallersOnly(ms)
      requires CanRun(State(), Interleaved(currentSize, DrainTake, DrainCount, ms))
      modifies this
      ensures currentSize == old(currentSize) - 1
      ensures CanRun(State(), Interleaved(currentSize, DrainTake, DrainCount, ms[2..]))
      ensures Run(State(), Interleaved(currentSize, DrainTake, DrainCount, ms[2..]))
           == old(Run(State(), Interleaved(currentSize, DrainTake, DrainCount, ms)))
    {
      FirstRound(State(), currentSize, DrainTake, DrainCount, ms);
      DrainSize(State(), currentSize, ms);
      hide Interleaved, Step, Enabled, Run, CanRun;
      Callers(ms[0]);
      CloseFirst(DrainTake);
      Callers(ms[1]);
      CountOut(DrainCount);
    }

    // -------------------------------------------------------------- turns of the loop

    method HandleApply(meanwhile: seq<seq<Event>>)
      requires IsTurn(State(), Apply, meanwhile)
      modifies this
      ensures IsTurn(old(State()), Apply, meanwhile)
      ensures State() == Run(old(State()), Turn(old(State()), Apply, meanwhile))
    {
      TurnUnfolds(State(), Apply, meanwhile);
      StartOfApply(State());
      hide Turn, Interleaved, IsTurn, CanRun, Run, Step, Enabled, ShouldGrow;
      applyGrowCount := applyGrowCount + 1;
      rest := rest.(applies := rest.applies - 1);
      var grow := ShouldGrowNow();
      if grow {
        rest := rest.(loop := Growing(CHANGE_SIZE, false, ForApply));
        Grow(CHANGE_SIZE, meanwhile);
        EndOfGrowth(State(), ForApply);
        applyGrowCount := 0;
        rest := rest.(loop := Idle);
      }
    }

    method HandleRefresh(meanwhile: seq<seq<Event>>)
      requires IsTurn(State(), Refresh, meanwhile)
      modifies this
      ensures IsTurn(old(State()), Refresh, meanwhile)
      ensures State() == Run(old(State()), Turn(old(State()), Refresh, meanwhile))
    {
      TurnUnfolds(State(), Refresh, meanwhile);
      StartOfRefresh(State());
      hide Turn, Interleaved, IsTurn, CanRun, Run, Step, Enabled, ShouldGrow, ShouldShrink;
      var grow := ShouldGrowNow();
      if grow {
        rest := rest.(loop := Growing(CHANGE_SIZE, false, ForRefresh));
        Grow(CHANGE_SIZE, meanwhile);
        EndOfGrowth(State(), ForRefresh);
        applyGrowCount := 0;
      } else {
        var shrink := ShouldShrinkNow();
        if shrink {
          rest := rest.(loop := Shrinking(CHANGE_SIZE, false));
          Shrink(CHANGE_SIZE, meanwhile);
          EndOfShrink(State());
        }
      }
      useCount, totalDelay := 0, 0;
      rest := rest.(loop := Idle);
    }

    /** The turn of a close signal, callers stepping in between; the loop ends with it. */
    method HandleClose(meanwhile: seq<seq<Event>>)
      requires currentSize >= 0 && |meanwhile| == 2 * currentSize && CallersOnly(meanwhile)
      requires CanRun(State(), Drained(true, currentSize, meanwhile))
      modifies this
      ensures old(CanRun(State(), Drained(true, currentSize, meanwhile)))
      ensures State() == old(Run(State(), Drained(true, currentSize, meanwhile)))
    {
      DrainAndFinish(true, meanwhile);
    }

    /** The turn of a reset signal: the drain, a new channel, and a growth to the minimum size. */
    method HandleReset(meanwhile: seq<seq<Event>>, after: seq<seq<Event>>)
      requires currentSize >= 0 && |meanwhile| == 2 * currentSize && |after| == 2 * MIN_SIZE
      requires CallersOnly(meanwhile) && CallersOnly(after)
      requires CanRun(State(), Drained(false, currentSize, meanwhile))
      requires CanRun(Run(State(), Drained(false, currentSize, meanwhile)), Refilled(after))
      modifies this
      ensures State() == old(Run(Run(State(), Drained(false, currentSize, meanwhile)), Refilled(after)))
    {
      hide Drained, Refilled, Run, CanRun;
      DrainAndFinish(false, meanwhile);
      RefilledUnfolds(State(), after);
      Grow(MIN_SIZE, after);
      rest := rest.(loop := Idle);
    }

    method DrainAndFinish(closing: bool, meanwhile: seq<seq<Event>>)
      requires currentSize >= 0 && |meanwhile| == 2 * currentSize && CallersOnly(meanwhile)
      requires CanRun(State(), Drained(closing, currentSize, meanwhile))
      modifies this
      ensures State() == old(Run(State(), Drained(closing, currentSize, meanwhile)))
      ensures State().loop == if closing then Stopped else Growing(MIN_SIZE, false, ForReset)
    {
      DrainedUnfolds(State(), closing, currentSize, meanwhile);
      hide Drained, Interleaved, Run, CanRun, Step, Enabled;
      rest := rest.(loop := Draining(closing, false));
      Drain(meanwhile);
      EndOfDrain(State(), closing);
      instances := [];
      rest := rest.(loop := if closing then Stopped else Growing(MIN_SIZE, false, ForReset));
    }

    method HandleRemove(ghost instance: Id)
      requires Enabled(State(), Remove(instance))
      modifies this
      ensures State() == Step(old(State()), Remove(instance))
    {
      currentSize := currentSize - 1;
      rest := rest.(awaiting := rest.awaiting - {instance}, between := rest.between + {instance});
    }

    method HandleAdd(ghost instance: Id, meanwhile: seq<seq<Event>>)
      requires IsTurn(State(), Add(instance), meanwhile)
      modifies this
      ensures IsTurn(old(State()), Add(instance), meanwhile)
      ensures State() == Run(old(State()), Turn(old(State()), Add(instance), meanwhile))
    {
      TurnUnfolds(State(), Add(instance), meanwhile);
      hide Turn, Interleaved, IsTurn, CanRun, Run;
      rest := rest.(between := rest.between - {instance}, closing := rest.closing + {instance},
                    loop := Growing(1, false, ForAdd));
      Grow(1, meanwhile);
      EndOfGrowth(State(), ForAdd);
      rest := rest.(loop := Idle);
    }
  }

  // ---------------------------------------------------------------- close and reset

  /** The signal of close or reset, the drain of n instances, and its end. */
  function Drained(closing: bool, n: nat, meanwhile: seq<seq<Event>>): seq<Event>
    requires |meanwhile| == 2 * n
  {
    [if closing then Close else Reset] + Interleaved(n, DrainTake, DrainCount, meanwhile) + [Finish]
  }

  /** The growth to the minimum size after a reset. */
  function Refilled(meanwhile: seq<seq<Event>>): seq<Event>
    requires |meanwhile| == 2 * MIN_SIZE
  {
    Interleaved(MIN_SIZE, GrowSend, GrowCount, meanwhile) + [Finish]
  }

  lemma StartOfDrain(p: Pool, closing: bool)
    requires Enabled(p, if closing then Close else Reset)
    ensures Step(p, if closing then Close else Reset) == p.(loop := Draining(closing, false))
  {
  }

  lemma EndOfDrain(p: Pool, closing: bool)
    requires p.loop == Draining(closing, false) && p.currentSize == 0
    ensures Enabled(p, Finish)
    ensures Step(p, Finish)
         == p.(channel := [], loop := if closing then Stopped else Growing(MIN_SIZE, false, ForReset))
  {
  }

  lemma DrainMoves(p: Pool, e: Event)
    requires Enabled(p, e) && p.loop.Draining?
    ensures e == DrainTake ==> Step(p, e).loop == Draining(p.loop.closing, true)
    ensures e == DrainCount ==> Step(p, e).loop == Draining(p.loop.closing, false)
  {
  }

  lemma {:induction false} DrainedLoop(p: Pool, n: nat, closing: bool, meanwhile: seq<seq<Event>>)
    requires p.loop == Draining(closing, false) && |meanwhile| == 2 * n && CallersOnly(meanwhile)
    requires CanRun(p, Interleaved(n, DrainTake, DrainCount, meanwhile))
    ensures Run(p, Interleaved(n, DrainTake, DrainCount, meanwhile)).loop == Draining(closing, false)
    decreases n
  {
    hide Step, Enabled;
    if n == 0 {
      NoRounds(DrainTake, DrainCount, meanwhile);
    } else {
      hide Interleaved, Run, CanRun;
      FirstRound(p, n, DrainTake, DrainCount, meanwhile);
      CallersKeep(p, meanwhile[0]);
      DrainMoves(Run(p, meanwhile[0]), DrainTake);
      var p1 := Step(Run(p, meanwhile[0]), DrainTake);
      CallersKeep(p1, meanwhile[1]);
      DrainMoves(Run(p1, meanwhile[1]), DrainCount);
      DrainedLoop(Step(Run(p1, meanwhile[1]), DrainCount), n - 1, closing, meanwhile[2..]);
    }
  }

  lemma DrainedUnfolds(p: Pool, closing: bool, n: nat, meanwhile: seq<seq<Event>>)
    requires |meanwhile| == 2 * n && CallersOnly(meanwhile) && CanRun(p, Drained(closing, n, meanwhile))
    ensures var mid, p1 := Interleaved(n, DrainTake, DrainCount, meanwhile), p.(loop := Draining(closing, false));
      && p.loop == Idle && CanRun(p1, mid) && Run(p1, mid).loop == Draining(closing, false)
      && Enabled(Run(p1, mid), Finish) && Run(p, Drained(closing, n, meanwhile)) == Step(Run(p1, mid), Finish)
  {
    var signal := if closing then Close else Reset;
    Sandwich(p, signal, Interleaved(n, DrainTake, DrainCount, meanwhile), Finish);
    StartOfDrain(p, closing);
    DrainedLoop(p.(loop := Draining(closing, false)), n, closing, meanwhile);
    assert p.loop == Idle;
    hide Step, Enabled, Interleaved, Run, CanRun;
  }

  lemma RefilledUnfolds(p: Pool, meanwhile: seq<seq<Event>>)
    requires |meanwhile| == 2 * MIN_SIZE && CallersOnly(meanwhile) && CanRun(p, Refilled(meanwhile))
    requires p.loop == Growing(MIN_SIZE, false, ForReset)
    ensures var mid := Interleaved(MIN_SIZE, GrowSend, GrowCount, meanwhile);
      && CanRun(p, mid) && Run(p, mid).loop == Growing(0, false, ForReset)
      && Run(p, Refilled(meanwhile)) == Run(p, mid).(loop := Idle)
  {
    var mid := Interleaved(MIN_SIZE, GrowSend, GrowCount, meanwhile);
    RunAppend(p, mid, [Finish]);
    GrownLoop(p, MIN_SIZE, ForReset, meanwhile);
    assert [Finish][1..] == [];
    EndOfGrowth(Run(p, mid), ForReset);
    assert Run(Run(p, mid), [Finish]) == Step(Run(p, mid), Finish);
    hide Step, Enabled, Interleaved;
  }

  // ---------------------------------------------------------------- turns as runs

  /** How many instances the loop is about to add or to remove. */
  function Rounds(p: Pool): nat {
    match p.loop
    case Growing(n, _, _) => n
    case Shrinking(n, _) => n
    case _ => 0
  }

  /** A signal received, what it makes the loop do, and what callers do meanwhile. */
  function Turn(p: Pool, signal: Event, meanwhile: seq<seq<Event>>): seq<Event>
    requires Enabled(p, signal) && |meanwhile| == 2 * Rounds(Step(p, signal))
  {
    match Step(p, signal).loop
    case Growing(n, _, _) => [signal] + Interleaved(n, GrowSend, GrowCount, meanwhile) + [Finish]
    case Shrinking(n, _) => [signal] + Interleaved(n, ShrinkTake, ShrinkCount, meanwhile) + [Finish]
    case _ => [signal]
  }

  /** In the end every wait of the loop in this turn is answered by what callers do meanwhile. */
  predicate IsTurn(p: Pool, signal: Event, meanwhile: seq<seq<Event>>) {
    && (signal.Apply? || signal.Refresh? || signal.Add?)
    && Enabled(p, signal) && |meanwhile| == 2 * Rounds(Step(p, signal)) && CallersOnly(meanwhile)
    && CanRun(p, Turn(p, signal, meanwhile))
  }

  lemma Sandwich(p: Pool, a: Event, mid: seq<Event>, b: Event)
    requires CanRun(p, [a] + mid + [b])
    ensures Enabled(p, a) && CanRun(Step(p, a), mid) && Enabled(Run(Step(p, a), mid), b)
    ensures Run(p, [a] + mid + [b]) == Step(Run(Step(p, a), mid), b)
  {
    assert ([a] + mid + [b])[1..] == mid + [b];
    RunAppend(Step(p, a), mid, [b]);
    assert [b][1..] == [];
    hide Step, Enabled;
  }

  lemma TurnUnfolds(p: Pool, signal: Event, meanwhile: seq<seq<Event>>)
    requires IsTurn(p, signal, meanwhile)
    ensures Enabled(p, signal) && CallersOnly(meanwhile)
    ensures var p1 := Step(p, signal);
      && (p1.loop.Growing? ==>
        && |meanwhile| == 2 * p1.loop.left && CanRun(p1, Interleaved(p1.loop.left, GrowSend, GrowCount, meanwhile))
        && Run(p1, Interleaved(p1.loop.left, GrowSend, GrowCount, meanwhile)).loop == Growing(0, false, p1.loop.cause)
        && Run(p, Turn(p, signal, meanwhile))
           == Step(Run(p1, Interleaved(p1.loop.left, GrowSend, GrowCount, meanwhile)), Finish))
      && (p1.loop.Shrinking? ==>
        && |meanwhile| == 2 * p1.loop.left && CanRun(p1, Interleaved(p1.loop.left, ShrinkTake, ShrinkCount, meanwhile))
        && Run(p1, Interleaved(p1.loop.left, ShrinkTake, ShrinkCount, meanwhile)).loop == Shrinking(0, false)
        && Run(p, Turn(p, signal, meanwhile))
           == Step(Run(p1, Interleaved(p1.loop.left, ShrinkTake, ShrinkCount, meanwhile)), Finish))
      && (!p1.loop.Growing? && !p1.loop.Shrinking? ==> Run(p, Turn(p, signal, meanwhile)) == p1)
  {
    var p1 := Step(p, signal);
    assert [signal][1..] == [];
    if p1.loop.Growing? {
      Sandwich(p, signal, Interleaved(p1.loop.left, GrowSend, GrowCount, meanwhile), Finish);
      GrownLoop(p1, p1.loop.left, p1.loop.cause, meanwhile);
    } else if p1.loop.Shrinking? {
      Sandwich(p, signal, Interleaved(p1.loop.left, ShrinkTake, ShrinkCount, meanwhile), Finish);
      ShrunkLoop(p1, p1.loop.left, meanwhile);
    }
  }

  lemma StartOfApply(p: Pool)
    requires Enabled(p, Apply)
    ensures p.loop == Idle && p.applies > 0
    ensures var p' := p.(applies := p.applies - 1, applyGrowCount := p.applyGrowCount + 1);
      Step(p, Apply) == if ShouldGrow(p') then p'.(loop := Growing(CHANGE_SIZE, false, ForApply)) else p'
  {
  }

  lemma StartOfRefresh(p: Pool)
    requires Enabled(p, Refresh)
    ensures p.loop == Idle
    ensures Step(p, Refresh)
         == if ShouldGrow(p) then p.(loop := Growing(CHANGE_SIZE, false, ForRefresh))
            else if ShouldShrink(p) then p.(loop := Shrinking(CHANGE_SIZE, false))
            else p.(useCount := 0, totalDelay := 0)
  {
  }

  lemma EndOfGrowth(p: Pool, cause: Cause)
    requires p.loop == Growing(0, false, cause)
    ensures Enabled(p, Finish)
    ensures cause == ForApply ==> Step(p, Finish) == p.(applyGrowCount := 0, loop := Idle)
    ensures cause == ForRefresh
        ==> Step(p, Finish) == p.(applyGrowCount := 0, useCount := 0, totalDelay := 0, loop := Idle)
    ensures cause == ForAdd || cause == ForReset ==> Step(p, Finish) == p.(loop := Idle)
  {
  }

  lemma EndOfShrink(p: Pool)
    requires p.loop == Shrinking(0, false)
    ensures Enabled(p, Finish) && Step(p, Finish) == p.(useCount := 0, totalDelay := 0, loop := Idle)
  {
  }

  lemma NoRounds(a: Event, b: Event, meanwhile: seq<seq<Event>>)
    requires |meanwhile| == 0
    ensures Interleaved(0, a, b, meanwhile) == []
  {
  }

  /** After its rounds a growth has nothing left to add. */
  lemma {:induction false} GrownLoop(p: Pool, n: nat, cause: Cause, meanwhile: seq<seq<Event>>)
    requires p.loop == Growing(n, false, cause) && |meanwhile| == 2 * n && CallersOnly(meanwhile)
    requires CanRun(p, Interleaved(n, GrowSend, GrowCount, meanwhile))
    ensures Run(p, Interleaved(n, GrowSend, GrowCount, meanwhile)).loop == Growing(0, false, cause)
    decreases n
  {
    hide Step, Enabled;
    if n == 0 {
      NoRounds(GrowSend, GrowCount, meanwhile);
    } else {
      hide Interleaved, Run, CanRun;
      FirstRound(p, n, GrowSend, GrowCount, meanwhile);
      CallersKeep(p, meanwhile[0]);
      LoopMoves(Run(p, meanwhile[0]), GrowSend);
      var p1 := Step(Run(p, meanwhile[0]), GrowSend);
      CallersKeep(p1, meanwhile[1]);
      LoopMoves(Run(p1, meanwhile[1]), GrowCount);
      var p2 := Step(Run(p1, meanwhile[1]), GrowCount);
      GrownLoop(p2, n - 1, cause, meanwhile[2..]);
    }
  }

  lemma {:induction false} ShrunkLoop(p: Pool, n: nat, meanwhile: seq<seq<Event>>)
    requires p.loop == Shrinking(n, false) && |meanwhile| == 2 * n && CallersOnly(meanwhile)
    requires CanRun(p, Interleaved(n, ShrinkTake, ShrinkCount, meanwhile))
    ensures Run(p, Interleaved(n, ShrinkTake, ShrinkCount, meanwhile)).loop == Shrinking(0, false)
    decreases n
  {
    hide Step, Enabled;
    if n == 0 {
      NoRounds(ShrinkTake, ShrinkCount, meanwhile);
    } else {
      hide Interleaved, Run, CanRun;
      FirstRound(p, n, ShrinkTake, ShrinkCount, meanwhile);
      CallersKeep(p, meanwhile[0]);
      LoopMoves(Run(p, meanwhile[0]), ShrinkTake);
      var p1 := Step(Run(p, meanwhile[0]), ShrinkTake);
      CallersKeep(p1, meanwhile[1]);
      LoopMoves(Run(p1, meanwhile[1]), ShrinkCount);
      var p2 := Step(Run(p1, meanwhile[1]), ShrinkCount);
      ShrunkLoop(p2, n - 1, meanwhile[2..]);
    }
  }

  // ---------------------------------------------------------------- turns in which no caller steps in

  function Quiet(n: nat): (meanwhile: seq<seq<Event>>)
    ensures |meanwhile| == 2 * n && CallersOnly(meanwhile)
  {
    seq(2 * n, _ => [])
  }

  lemma QuietRound(p: Pool, n: nat, a: Event, b: Event)
    requires n > 0
    ensures CanRun(p, Interleaved(n, a, b, Quiet(n)))
       <==> Enabled(p, a) && Enabled(Step(p, a), b)
            && CanRun(Step(Step(p, a), b), Interleaved(n - 1, a, b, Quiet(n - 1)))
  {
    assert Quiet(n)[2..] == Quiet(n - 1) && Quiet(n)[0] == [] && Quiet(n)[1] == [];
    var rest := Interleaved(n - 1, a, b, Quiet(n - 1));
    assert Interleaved(n, a, b, Quiet(n)) == [a] + ([b] + rest);
    assert ([a] + ([b] + rest))[1..] == [b] + rest && ([b] + rest)[1..] == rest;
    hide Step, Enabled, Interleaved, Quiet;
  }

  /** Alone, a growth goes through exactly when the channel has room for all of it. */
  lemma {:induction false} QuietGrowth(p: Pool, n: nat)
    requires p.loop.Growing? && !p.loop.sent && p.loop.left == n && |p.channel| <= MAX_SIZE
    ensures CanRun(p, Interleaved(n, GrowSend, GrowCount, Quiet(n))) <==> |p.channel| + n <= MAX_SIZE
    decreases n
  {
    if n > 0 {
      QuietRound(p, n, GrowSend, GrowCount);
      if Enabled(p, GrowSend) {
        QuietGrowth(Step(Step(p, GrowSend), GrowCount), n - 1);
      }
    }
  }

  /** Alone, a shrink goes through exactly when the channel holds all that it closes. */
  lemma {:induction false} QuietShrink(p: Pool, n: nat)
    requires p.loop == Shrinking(n, false)
    ensures CanRun(p, Interleaved(n, ShrinkTake, ShrinkCount, Quiet(n))) <==> n <= |p.channel|
    decreases n
  {
    if n > 0 {
      QuietRound(p, n, ShrinkTake, ShrinkCount);
      if Enabled(p, ShrinkTake) {
        QuietShrink(Step(Step(p, ShrinkTake), ShrinkCount), n - 1);
      }
    }
  }

  /**
   * With callers away, the loop never waits in a turn that an apply signal starts; it waits in a turn that
   * the timer starts exactly when it is to shrink and fewer than five instances are idle, and in the turn of an
   * add signal exactly when the channel is full.
   */
  lemma QuietTurns(p: Pool, i: Id)
    requires Conserved(p)
    ensures Enabled(p, Apply) ==> IsTurn(p, Apply, Quiet(Rounds(Step(p, Apply))))
    ensures Enabled(p, Refresh) ==>
      (IsTurn(p, Refresh, Quiet(Rounds(Step(p, Refresh))))
       <==> (ShouldGrow(p) || !ShouldShrink(p) || |p.channel| >= CHANGE_SIZE))
    ensures Enabled(p, Add(i)) ==> (IsTurn(p, Add(i), Quiet(1)) <==> |p.channel| < MAX_SIZE)
  {
    if Enabled(p, Apply) {
      QuietTurn(p, Apply);
    }
    if Enabled(p, Refresh) {
      QuietTurn(p, Refresh);
    }
    if Enabled(p, Add(i)) {
      QuietTurn(p, Add(i));
    }
    hide Turn, IsTurn, CanRun, Interleaved, OnePlace;
  }

  lemma QuietTurn(p: Pool, signal: Event)
    requires |p.channel| <= MAX_SIZE && Enabled(p, signal) && (signal.Apply? || signal.Refresh? || signal.Add?)
    ensures var p1 := Step(p, signal);
      IsTurn(p, signal, Quiet(Rounds(p1)))
      <==> ((p1.loop.Growing? ==> |p1.channel| + p1.loop.left <= MAX_SIZE)
            && (p1.loop.Shrinking? ==> p1.loop.left <= |p1.channel|))
  {
    var p1 := Step(p, signal);
    assert [signal][1..] == [];
    if p1.loop.Growing? {
      var n, mid := p1.loop.left, Interleaved(p1.loop.left, GrowSend, GrowCount, Quiet(p1.loop.left));
      QuietGrowth(p1, n);
      if CanRun(p1, mid) {
        GrownLoop(p1, n, p1.loop.cause, Quiet(n));
      }
      CanSandwich(p, signal, mid, Finish);
    } else if p1.loop.Shrinking? {
      var n, mid := p1.loop.left, Interleaved(p1.loop.left, ShrinkTake, ShrinkCount, Quiet(p1.loop.left));
      QuietShrink(p1, n);
      if CanRun(p1, mid) {
        ShrunkLoop(p1, n, Quiet(n));
      }
      CanSandwich(p, signal, mid, Finish);
    } else {
      assert Turn(p, signal, Quiet(0)) == [signal] && CanRun(p1, []);
    }
  }

  lemma CanSandwich(p: Pool, a: Event, mid: seq<Event>, b: Event)
    requires Enabled(p, a)
    ensures CanRun(p, [a] + mid + [b])
       <==> CanRun(Step(p, a), mid) && Enabled(Run(Step(p, a), mid), b)
  {
    assert ([a] + mid + [b])[1..] == mid + [b] && [b][1..] == [];
    RunAppend(Step(p, a), mid, [b]);
    hide Step, Enabled;
  }
}
