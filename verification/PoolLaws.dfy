/** The pool's decisions, in terms of what happened so far, and what its turns do. */
module PoolLaws {
  import opened Pools
  import opened PoolBound
  import opened VmPools

  // ---------------------------------------------------------------- counting events

  /** The end of a growth for an apply signal or the timer. */
  predicate EndsGrowth(p: Pool, e: Event) {
    e == Finish && p.loop.Growing? && (p.loop.cause == ForApply || p.loop.cause == ForRefresh)
  }

  /** The end of a turn of the timer. */
  predicate EndsTimer(p: Pool, e: Event)
    requires Enabled(p, e)
  {
    || (e == Refresh && Step(p, e).loop == Idle)
    || (e == Finish && (p.loop.Shrinking? || (p.loop.Growing? && p.loop.cause == ForRefresh)))
  }

  /** Apply signals received since the last growth for an apply signal or the timer, n before the run. */
  function Applies(p: Pool, es: seq<Event>, n: nat): nat
    requires CanRun(p, es)
    decreases |es|
  {
    if es == [] then n
    else
      Applies(Step(p, es[0]), es[1..], if es[0] == Apply then n + 1 else if EndsGrowth(p, es[0]) then 0 else n)
  }

  /** Instances handed to callers since the last turn of the timer. */
  function Uses(p: Pool, es: seq<Event>, n: nat): nat
    requires CanRun(p, es)
    decreases |es|
  {
    if es == [] then n
    else
      Uses(Step(p, es[0]), es[1..],
        if es[0] == Take || es[0].Wake? then n + 1 else if EndsTimer(p, es[0]) then 0 else n)
  }

  /** The time callers waited since then. */
  function Delays(p: Pool, es: seq<Event>, n: nat): nat
    requires CanRun(p, es)
    decreases |es|
  {
    if es == [] then n
    else
      Delays(Step(p, es[0]), es[1..],
        if es[0].Wake? then n + es[0].elapsed else if EndsTimer(p, es[0]) then 0 else n)
  }

  function Failures(es: seq<Event>, i: Id): nat {
    if es == [] then 0 else Failures(es[..|es| - 1], i) + if es[|es| - 1] == Fail(i) then 1 else 0
  }

  lemma StepCounts(p: Pool, e: Event)
    requires Enabled(p, e)
    ensures Step(p, e).applyGrowCount
         == if e == Apply then p.applyGrowCount + 1 else if EndsGrowth(p, e) then 0 else p.applyGrowCount
    ensures Step(p, e).useCount
         == if e == Take || e.Wake? then p.useCount + 1 else if EndsTimer(p, e) then 0 else p.useCount
    ensures Step(p, e).totalDelay
         == if e.Wake? then p.totalDelay + e.elapsed else if EndsTimer(p, e) then 0 else p.totalDelay
  {
    hide ShouldDiscard, AverageDelay;
  }

  /** The pool's three counters are these counts. */
  lemma {:induction false} Counters(p: Pool, es: seq<Event>)
    requires CanRun(p, es)
    ensures Run(p, es).applyGrowCount == Applies(p, es, p.applyGrowCount)
    ensures Run(p, es).useCount == Uses(p, es, p.useCount)
    ensures Run(p, es).totalDelay == Delays(p, es, p.totalDelay)
    decreases |es|
  {
    if es != [] {
      StepCounts(p, es[0]);
      Counters(Step(p, es[0]), es[1..]);
      hide Step, Enabled, EndsGrowth, EndsTimer;
    }
  }

  lemma {:induction false} ErrorCounter(es: seq<Event>, i: Id)
    requires CanRun(INITIAL, es)
    ensures ErrorsOf(Run(INITIAL, es), i) == Failures(es, i)
    decreases |es|
  {
    if es != [] {
      var init, e := es[..|es| - 1], es[|es| - 1];
      assert es == init + [e] && [e][1..] == [];
      RunAppend(INITIAL, init, [e]);
      ErrorCounter(init, i);
      var p := Run(INITIAL, init);
      assert Run(p, [e]) == Step(p, e) by {
        assert Run(Step(p, e), []) == Step(p, e);
      }
      ErrorStep(p, e, i);
      hide Step, Enabled, ErrorsOf;
    }
  }

  lemma ErrorStep(p: Pool, e: Event, i: Id)
    requires Enabled(p, e)
    ensures ErrorsOf(Step(p, e), i) == ErrorsOf(p, i) + if e == Fail(i) then 1 else 0
  {
    hide ShouldGrow, ShouldShrink;
  }

  // ---------------------------------------------------------------- decisions

  /** Callers waited eleven or more for each use. */
  predicate Slow(uses: nat, delays: nat) {
    uses > 0 && delays >= 11 * uses
  }

  /**
   * An apply signal starts a growth by five if and only if the size is below five, or it is at most 45 and this is
   * at least the 101st apply signal since the last growth for such a signal or the timer, or callers waited
   * eleven or more for each use since the timer's last turn.
   */
  lemma ApplyDecides(es: seq<Event>)
    requires CanRun(INITIAL, es) && Enabled(Run(INITIAL, es), Apply)
    ensures var p := Run(INITIAL, es);
      Step(p, Apply).loop
        == if p.currentSize < 5
              || (p.currentSize <= 45
                  && (Applies(INITIAL, es, 0) + 1 >= 101 || Slow(Uses(INITIAL, es, 0), Delays(INITIAL, es, 0))))
           then Growing(5, false, ForApply) else Idle
  {
    Counters(INITIAL, es);
    var p := Run(INITIAL, es);
    SlowWhen(p);
    StartOfApply(p);
    SlowWhen(p.(applies := p.applies - 1, applyGrowCount := p.applyGrowCount + 1));
    hide Run, CanRun, Step, Enabled, AverageDelay, Applies, Uses, Delays;
  }

  /**
   * The timer starts a growth under the same conditions, counting the signals received; otherwise a shrink by five
   * when there are more than five and callers did not wait long; otherwise it starts nothing.
   */
  lemma TimerDecides(es: seq<Event>)
    requires CanRun(INITIAL, es) && Enabled(Run(INITIAL, es), Refresh)
    ensures var p := Run(INITIAL, es);
      var slow := Slow(Uses(INITIAL, es, 0), Delays(INITIAL, es, 0));
      Step(p, Refresh).loop
        == if p.currentSize < 5 || (p.currentSize <= 45 && (Applies(INITIAL, es, 0) >= 101 || slow))
           then Growing(5, false, ForRefresh)
           else if p.currentSize > 5 && !slow then Shrinking(5, false)
           else Idle
  {
    Counters(INITIAL, es);
    SlowWhen(Run(INITIAL, es));
    StartOfRefresh(Run(INITIAL, es));
    hide Run, CanRun, Step, Enabled, AverageDelay, Applies, Uses, Delays;
  }

  /** A returned instance goes to the channel's end, or out of use if it failed eleven times or more. */
  lemma RevertDecides(es: seq<Event>, i: Id)
    requires CanRun(INITIAL, es) && Enabled(Run(INITIAL, es), Revert(i))
    ensures var p := Run(INITIAL, es);
      Step(p, Revert(i))
        == if Failures(es, i) >= 11 then p.(out := p.out - {i}, awaiting := p.awaiting + {i})
           else p.(out := p.out - {i}, channel := p.channel + [i])
  {
    ErrorCounter(es, i);
    hide Run, CanRun, ErrorsOf, Failures;
  }

  // ---------------------------------------------------------------- the channel is a queue

  /** What a step puts into the channel. */
  function Entering(p: Pool, e: Event): seq<Id> {
    if e == GrowSend then [p.next]
    else if e.Revert? && ErrorsOf(p, e.i) <= 10 then [e.i]
    else []
  }

  predicate TakesFirst(e: Event) {
    e == Take || e.Wake? || e == ShrinkTake || e == DrainTake
  }

  function Entered(p: Pool, es: seq<Event>): seq<Id>
    requires CanRun(p, es)
    decreases |es|
  {
    if es == [] then [] else Entering(p, es[0]) + Entered(Step(p, es[0]), es[1..])
  }

  /** What left it. */
  function Gone(p: Pool, es: seq<Event>): seq<Id>
    requires CanRun(p, es)
    decreases |es|
  {
    if es == [] then []
    else
      (if TakesFirst(es[0]) && p.channel != [] then [p.channel[0]] else []) + Gone(Step(p, es[0]), es[1..])
  }

  lemma QueueStep(p: Pool, e: Event)
    requires Conserved(p) && Enabled(p, e)
    ensures TakesFirst(e) ==> p.channel != []
    ensures p.channel + Entering(p, e) == (if TakesFirst(e) then [p.channel[0]] else []) + Step(p, e).channel
  {
    if TakesFirst(e) {
      assert p.channel == [p.channel[0]] + p.channel[1..];
    }
    if e == Finish && p.loop.Draining? {
      assert p.channel == [];
    }
    hide OnePlace, ShouldGrow, ShouldShrink;
  }

  /** Instances leave the channel, to callers or to be closed, in the order in which they came. */
  lemma {:induction false} FirstInFirstOut(p: Pool, es: seq<Event>)
    requires Conserved(p) && CanRun(p, es)
    ensures p.channel + Entered(p, es) == Gone(p, es) + Run(p, es).channel
    decreases |es|
  {
    if es == [] {
      assert p.channel + [] == [] + p.channel;
    } else {
      var e, p' := es[0], Step(p, es[0]);
      QueueStep(p, e);
      StepConserved(p, e);
      FirstInFirstOut(p', es[1..]);
      QueueAppend(p.channel, Entering(p, e), if TakesFirst(e) then [p.channel[0]] else [], p'.channel,
        Entered(p', es[1..]), Gone(p', es[1..]), Run(p', es[1..]).channel);
      hide Conserved, Step, Enabled, Entering;
    }
  }

  lemma QueueAppend(c: seq<Id>, a: seq<Id>, g: seq<Id>, c': seq<Id>, more: seq<Id>, gone: seq<Id>, end: seq<Id>)
    requires c + a == g + c' && c' + more == gone + end
    ensures c + (a + more) == (g + gone) + end
  {
    assert c + (a + more) == (c + a) + more;
    assert (g + c') + more == g + (c' + more);
    assert g + (gone + end) == (g + gone) + end;
  }

  /** The channel holds fifty: a return and a new instance wait for room, nothing else does. */
  lemma ChannelRoom(p: Pool, i: Id)
    requires i in p.out && ErrorsOf(p, i) <= 10
    ensures Enabled(p, Revert(i)) <==> |p.channel| < 50
    ensures p.loop.Growing? && p.loop.left > 0 && !p.loop.sent ==> (Enabled(p, GrowSend) <==> |p.channel| < 50)
    ensures ErrorsOf(p.(errors := p.errors[i := 11]), i) == 11 && Enabled(p.(errors := p.errors[i := 11]), Revert(i))
  {
  }

  // ---------------------------------------------------------------- signals

  function Count(es: seq<Event>, wake: bool, apply: bool): nat {
    if es == [] then 0
    else
      Count(es[1..], wake, apply)
        + if (if apply then es[0] == Apply else if wake then es[0].Wake? else es[0] == Wait) then 1 else 0
  }

  /** Each wait sends one apply signal and ends with one instance: those not received and not ended are pending. */
  lemma {:induction false} SignalsConserved(p: Pool, es: seq<Event>)
    requires CanRun(p, es)
    ensures p.applies + Count(es, false, false) == Run(p, es).applies + Count(es, false, true)
    ensures p.waiting + Count(es, false, false) == Run(p, es).waiting + Count(es, true, false)
    decreases |es|
  {
    if es != [] {
      SignalStep(p, es[0]);
      SignalsConserved(Step(p, es[0]), es[1..]);
      hide Step, Enabled;
    }
  }

  lemma SignalStep(p: Pool, e: Event)
    requires Enabled(p, e)
    ensures p.applies + (if e == Wait then 1 else 0) == Step(p, e).applies + (if e == Apply then 1 else 0)
    ensures p.waiting + (if e == Wait then 1 else 0) == Step(p, e).waiting + (if e.Wake? then 1 else 0)
  {
    hide ShouldGrow, ShouldShrink, ShouldDiscard;
  }

  // ---------------------------------------------------------------- whole turns with callers away

  lemma {:induction false} QuietGrowthEnds(p: Pool, n: nat, cause: Cause)
    requires p.loop == Growing(n, false, cause) && |p.channel| + n <= MAX_SIZE
    ensures CanRun(p, Interleaved(n, GrowSend, GrowCount, Quiet(n)))
    ensures Run(p, Interleaved(n, GrowSend, GrowCount, Quiet(n))) == Grown(p, n, cause)
    decreases n
  {
    if n == 0 {
      assert Grown(p, 0, cause) == p;
    } else {
      var p2 := Step(Step(p, GrowSend), GrowCount);
      assert p2 == GrownByOne(p, n, cause);
      QuietGrowthEnds(p2, n - 1, cause);
      QuietRoundEnds(p, n, GrowSend, GrowCount);
      GrownOneMore(p, n, cause);
      hide Step, Enabled, Interleaved, Quiet, Grown, GrownByOne;
    }
  }

  lemma QuietRoundEnds(p: Pool, n: nat, a: Event, b: Event)
    requires n > 0 && Enabled(p, a) && Enabled(Step(p, a), b)
    requires CanRun(Step(Step(p, a), b), Interleaved(n - 1, a, b, Quiet(n - 1)))
    ensures CanRun(p, Interleaved(n, a, b, Quiet(n)))
    ensures Run(p, Interleaved(n, a, b, Quiet(n))) == Run(Step(Step(p, a), b), Interleaved(n - 1, a, b, Quiet(n - 1)))
  {
    QuietRoundIs(n, a, b);
    var rest := Interleaved(n - 1, a, b, Quiet(n - 1));
    hide Step, Enabled, Interleaved, Quiet;
    FirstThen(p, a, [b] + rest);
    FirstThen(Step(p, a), b, rest);
  }

  lemma QuietRoundIs(n: nat, a: Event, b: Event)
    requires n > 0
    ensures Interleaved(n, a, b, Quiet(n)) == [a] + ([b] + Interleaved(n - 1, a, b, Quiet(n - 1)))
  {
    assert Quiet(n)[2..] == Quiet(n - 1) && Quiet(n)[0] == [] && Quiet(n)[1] == [];
  }

  lemma FirstThen(p: Pool, e: Event, es: seq<Event>)
    requires Enabled(p, e)
    ensures CanRun(p, [e] + es) <==> CanRun(Step(p, e), es)
    ensures CanRun(p, [e] + es) ==> Run(p, [e] + es) == Run(Step(p, e), es)
  {
    assert ([e] + es)[1..] == es;
    hide Step, Enabled;
  }

  lemma ThenLast(p: Pool, es: seq<Event>, e: Event)
    requires CanRun(p, es) && Enabled(Run(p, es), e)
    ensures CanRun(p, es + [e]) && Run(p, es + [e]) == Step(Run(p, es), e)
  {
    RunAppend(p, es, [e]);
    assert [e][1..] == [];
    hide Step, Enabled;
  }

  function IdsOf(ids: seq<Id>): set<Id> {
    set i | i in ids
  }

  /** The pool with n instances closed that were first in the channel. */
  function Shrunk(p: Pool, n: nat): Pool
    requires n <= |p.channel|
  {
    p.(channel := p.channel[n..], currentSize := p.currentSize - n, closed := p.closed + IdsOf(p.channel[..n]))
  }

  lemma {:induction false} QuietShrinkEnds(p: Pool, n: nat)
    requires p.loop == Shrinking(n, false) && n <= |p.channel|
    ensures CanRun(p, Interleaved(n, ShrinkTake, ShrinkCount, Quiet(n)))
    ensures Run(p, Interleaved(n, ShrinkTake, ShrinkCount, Quiet(n))) == Shrunk(p, n).(loop := Shrinking(0, false))
    decreases n
  {
    if n == 0 {
      assert Shrunk(p, 0) == p by {
        assert p.channel[..0] == [];
      }
    } else {
      var p2 := Step(Step(p, ShrinkTake), ShrinkCount);
      QuietShrinkEnds(p2, n - 1);
      QuietRoundEnds(p, n, ShrinkTake, ShrinkCount);
      assert Shrunk(p, n).loop == p.loop;
      ShrunkByOne(p, n);
      hide Step, Enabled, Interleaved, Quiet, Shrunk;
    }
  }

  lemma ShrunkByOne(p: Pool, n: nat)
    requires 0 < n <= |p.channel| && p.loop == Shrinking(n, false)
    ensures var p2 := Step(Step(p, ShrinkTake), ShrinkCount);
      && n - 1 <= |p2.channel|
      && Shrunk(p2, n - 1).(loop := Shrinking(0, false)) == Shrunk(p, n).(loop := Shrinking(0, false))
  {
    var p2 := Step(Step(p, ShrinkTake), ShrinkCount);
    assert p.channel[..n] == [p.channel[0]] + p.channel[1..][..n - 1];
    assert p2.closed + IdsOf(p2.channel[..n - 1]) == p.closed + IdsOf(p.channel[..n]);
  }

  /** Five fresh instances at the channel's end. */
  function FiveMore(p: Pool): Pool {
    p.(channel := p.channel + [p.next, p.next + 1, p.next + 2, p.next + 3, p.next + 4],
       currentSize := p.currentSize + 5, next := p.next + 5)
  }

  lemma GrownByFive(p: Pool, cause: Cause)
    ensures Grown(p, 5, cause) == FiveMore(p).(loop := Growing(0, false, cause))
  {
    assert seq(5, i => p.next + i) == [p.next, p.next + 1, p.next + 2, p.next + 3, p.next + 4];
  }

  /** A growth for an apply signal, callers away: five more, the signal gone, the signals counted from zero again. */
  lemma QuietApply(p: Pool)
    requires Conserved(p) && Enabled(p, Apply) && Step(p, Apply).loop.Growing?
    ensures var es := [Apply] + Interleaved(5, GrowSend, GrowCount, Quiet(5)) + [Finish];
      && CanRun(p, es)
      && Run(p, es) == FiveMore(p).(applies := p.applies - 1, applyGrowCount := 0, loop := Idle)
  {
    StartOfApply(p);
    RoomToGrow(p, Apply);
    hide Step, Enabled, Interleaved, Quiet, Grown, Conserved, CanRun, Run, ShouldGrow, FiveMore;
    var p1 :=
      p.(applies := p.applies - 1, applyGrowCount := p.applyGrowCount + 1, loop := Growing(5, false, ForApply));
    var mid := Interleaved(5, GrowSend, GrowCount, Quiet(5));
    assert Step(p, Apply) == p1;
    QuietGrowthEnds(p1, 5, ForApply);
    GrownByFive(p1, ForApply);
    var p2 := Grown(p1, 5, ForApply);
    FiveMoreKeeps(p, p1);
    EndOfGrowth(p2, ForApply);
    WholeTurn(p, Apply, mid);
  }

  lemma RoomToGrow(p: Pool, signal: Event)
    requires Conserved(p) && Enabled(p, signal) && (signal == Apply || signal == Refresh)
    requires Step(p, signal).loop.Growing?
    ensures |p.channel| + 5 <= MAX_SIZE
  {
    hide OnePlace, AverageDelay;
  }

  lemma FiveMoreKeeps(p: Pool, p1: Pool)
    requires p1.channel == p.channel && p1.currentSize == p.currentSize && p1.next == p.next
    ensures FiveMore(p1) == p1.(channel := FiveMore(p).channel, currentSize := FiveMore(p).currentSize,
                                next := FiveMore(p).next)
    ensures FiveMore(p) == p.(channel := FiveMore(p).channel, currentSize := FiveMore(p).currentSize,
                              next := FiveMore(p).next)
  {
  }

  lemma WholeTurn(p: Pool, signal: Event, mid: seq<Event>)
    requires Enabled(p, signal) && CanRun(Step(p, signal), mid) && Enabled(Run(Step(p, signal), mid), Finish)
    ensures CanRun(p, [signal] + mid + [Finish])
    ensures Run(p, [signal] + mid + [Finish]) == Step(Run(Step(p, signal), mid), Finish)
  {
    FirstThen(p, signal, mid);
    ThenLast(p, [signal] + mid, Finish);
    hide Step, Enabled;
  }

  /** The timer's growth, callers away: the same, and the uses and delays counted from zero again. */
  lemma QuietTimerGrows(p: Pool)
    requires Conserved(p) && Enabled(p, Refresh) && Step(p, Refresh).loop.Growing?
    ensures var es := [Refresh] + Interleaved(5, GrowSend, GrowCount, Quiet(5)) + [Finish];
      && CanRun(p, es)
      && Run(p, es) == FiveMore(p).(applyGrowCount := 0, useCount := 0, totalDelay := 0, loop := Idle)
  {
    StartOfRefresh(p);
    RoomToGrow(p, Refresh);
    hide Step, Enabled, Interleaved, Quiet, Grown, Conserved, CanRun, Run, ShouldGrow, FiveMore;
    var p1, mid := p.(loop := Growing(5, false, ForRefresh)), Interleaved(5, GrowSend, GrowCount, Quiet(5));
    assert Step(p, Refresh) == p1;
    QuietGrowthEnds(p1, 5, ForRefresh);
    GrownByFive(p1, ForRefresh);
    var p2 := Grown(p1, 5, ForRefresh);
    FiveMoreKeeps(p, p1);
    EndOfGrowth(p2, ForRefresh);
    WholeTurn(p, Refresh, mid);
  }

  /** The timer's shrink, callers away and five idle: the first five of the channel are closed. */
  lemma QuietTimerShrinks(p: Pool)
    requires Enabled(p, Refresh) && Step(p, Refresh).loop.Shrinking? && |p.channel| >= 5
    ensures var es := [Refresh] + Interleaved(5, ShrinkTake, ShrinkCount, Quiet(5)) + [Finish];
      && CanRun(p, es)
      && Run(p, es) == Shrunk(p, 5).(useCount := 0, totalDelay := 0, loop := Idle)
  {
    var p1, mid := Step(p, Refresh), Interleaved(5, ShrinkTake, ShrinkCount, Quiet(5));
    StartOfRefresh(p);
    assert p1 == p.(loop := Shrinking(5, false));
    QuietShrinkEnds(p1, 5);
    EndOfShrink(Shrunk(p1, 5).(loop := Shrinking(0, false)));
    assert Shrunk(p1, 5).(loop := Idle) == Shrunk(p, 5).(loop := Idle);
    hide Step, Enabled, Interleaved, Quiet, CanRun, Run, Shrunk;
    WholeTurn(p, Refresh, mid);
  }

  /** An add signal, callers away and room in the channel: one fresh instance for the discarded one. */
  lemma QuietAdd(p: Pool, i: Id)
    requires Enabled(p, Add(i)) && |p.channel| < MAX_SIZE
    ensures var es := [Add(i)] + Interleaved(1, GrowSend, GrowCount, Quiet(1)) + [Finish];
      && CanRun(p, es)
      && Run(p, es) == p.(between := p.between - {i}, closing := p.closing + {i}, channel := p.channel + [p.next],
                          currentSize := p.currentSize + 1, next := p.next + 1)
  {
    StartOfAdd(p, i);
    hide Step, Enabled, Interleaved, Quiet, CanRun, Run;
    var p1 := p.(between := p.between - {i}, closing := p.closing + {i}, loop := Growing(1, false, ForAdd));
    QuietGrowthEnds(p1, 1, ForAdd);
    assert seq(1, j => p.next + j) == [p.next];
    EndOfGrowth(Grown(p1, 1, ForAdd), ForAdd);
    WholeTurn(p, Add(i), Interleaved(1, GrowSend, GrowCount, Quiet(1)));
  }

  lemma StartOfAdd(p: Pool, i: Id)
    requires Enabled(p, Add(i))
    ensures p.loop == Idle
    ensures Step(p, Add(i))
         == p.(between := p.between - {i}, closing := p.closing + {i}, loop := Growing(1, false, ForAdd))
  {
  }

  // ---------------------------------------------------------------- close and reset with callers away

  lemma {:induction false} QuietDrainEnds(p: Pool, n: nat, closing: bool)
    requires p.loop == Draining(closing, false) && n == |p.channel| && p.currentSize == n
    ensures CanRun(p, Interleaved(n, DrainTake, DrainCount, Quiet(n)))
    ensures Run(p, Interleaved(n, DrainTake, DrainCount, Quiet(n)))
         == p.(channel := [], currentSize := 0, closed := p.closed + IdsOf(p.channel))
    decreases n
  {
    if n == 0 {
      assert p.closed + IdsOf(p.channel) == p.closed;
    } else {
      var p2 := Step(Step(p, DrainTake), DrainCount);
      QuietDrainEnds(p2, n - 1, closing);
      QuietRoundEnds(p, n, DrainTake, DrainCount);
      assert p.channel == [p.channel[0]] + p.channel[1..];
      assert p2.closed + IdsOf(p2.channel) == p.closed + IdsOf(p.channel);
      hide Interleaved, Quiet;
    }
  }

  /** The end of a drain with everything idle, after close and after reset. */
  lemma QuietDrain(p: Pool, closing: bool)
    requires p.loop == Idle && p.currentSize == |p.channel|
    ensures var n := |p.channel|;
      && CanRun(p, Drained(closing, n, Quiet(n)))
      && Run(p, Drained(closing, n, Quiet(n)))
           == p.(channel := [], currentSize := 0, closed := p.closed + IdsOf(p.channel),
                 loop := if closing then Stopped else Growing(5, false, ForReset))
  {
    var n, signal := |p.channel|, if closing then Close else Reset;
    assert Enabled(p, signal);
    StartOfDrain(p, closing);
    var p1 := p.(loop := Draining(closing, false));
    QuietDrainEnds(p1, n, closing);
    var p2 := p1.(channel := [], currentSize := 0, closed := p1.closed + IdsOf(p1.channel));
    EndOfDrain(p2, closing);
    hide Step, Enabled, Interleaved, Quiet, CanRun, Run;
    WholeTurn(p, signal, Interleaved(n, DrainTake, DrainCount, Quiet(n)));
  }

  /** After a reset with everything idle the pool has five fresh instances and all others are closed. */
  lemma QuietReset(p: Pool)
    requires p.loop == Idle && p.currentSize == |p.channel|
    ensures CanRun(p, Drained(false, |p.channel|, Quiet(|p.channel|)))
    ensures CanRun(Run(p, Drained(false, |p.channel|, Quiet(|p.channel|))), Refilled(Quiet(5)))
    ensures Run(Run(p, Drained(false, |p.channel|, Quiet(|p.channel|))), Refilled(Quiet(5)))
         == p.(channel := [p.next, p.next + 1, p.next + 2, p.next + 3, p.next + 4], currentSize := 5,
               next := p.next + 5, closed := p.closed + IdsOf(p.channel))
  {
    hide Step, Enabled, Interleaved, Quiet, CanRun, Run, Grown, Drained, Refilled;
    QuietDrain(p, false);
    QuietRefill(p.(channel := [], currentSize := 0, closed := p.closed + IdsOf(p.channel),
                   loop := Growing(5, false, ForReset)));
  }

  lemma QuietRefill(q: Pool)
    requires q.channel == [] && q.currentSize == 0 && q.loop == Growing(5, false, ForReset)
    ensures CanRun(q, Refilled(Quiet(5)))
    ensures Run(q, Refilled(Quiet(5)))
         == q.(channel := [q.next, q.next + 1, q.next + 2, q.next + 3, q.next + 4], currentSize := 5,
               next := q.next + 5, loop := Idle)
  {
    hide Step, Enabled, Interleaved, Quiet, CanRun, Run, Grown;
    assert Refilled(Quiet(5)) == Interleaved(5, GrowSend, GrowCount, Quiet(5)) + [Finish];
    hide Refilled;
    QuietGrowthEnds(q, 5, ForReset);
    GrownByFive(q, ForReset);
    var p2 := Grown(q, 5, ForReset);
    assert p2.loop == Growing(0, false, ForReset);
    EndOfGrowth(p2, ForReset);
    ThenLast(q, Interleaved(5, GrowSend, GrowCount, Quiet(5)), Finish);
    assert p2.channel == [] + [q.next, q.next + 1, q.next + 2, q.next + 3, q.next + 4];
  }
}
