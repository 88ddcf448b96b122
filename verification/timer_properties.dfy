/** Properties of the update timer across callbacks: the engine never holds
    more than one pending update message, and while neither teardown nor a
    lost engine intervenes, a message is pending exactly when the face is
    visible and interactive. */
module TimerProperties {
  import opened TickDelay
  import opened WatchEngine

  /** At most one update message is pending, and only while it should run. */
  predicate TimerSound(e: Engine)
  {
    |e.queue| <= 1 && (|e.queue| == 1 ==> ShouldTimerBeRunning(e))
  }

  /** The timer is running exactly when the face is visible and interactive. */
  predicate TimerExact(e: Engine)
  {
    |e.queue| == (if ShouldTimerBeRunning(e) then 1 else 0)
  }

  /** Callbacks after which the timer state still follows visibility and mode:
      every one except teardown and a delivery the dead engine cannot handle. */
  predicate KeepsTimerExact(c: Callback)
  {
    !c.Destroy? && !(c.UpdateDelivered? && !c.engineAlive)
  }

  /** Re-evaluating the timer twice in a row leaves the same state as once, so
      repeated evaluation never duplicates the timer. */
  lemma UpdateTimerIdempotent(e: Engine)
    ensures UpdateTimer(UpdateTimer(e)) == UpdateTimer(e)
    ensures TimerExact(UpdateTimer(e))
  {
  }

  /** A fresh engine starts with the timer stopped, consistently. */
  lemma CreateStartsStopped(store: Preferences.Store)
    ensures TimerExact(Create(store).engine) && |Create(store).engine.queue| == 0
  {
  }

  /** Every callback keeps the pending count at most one. */
  lemma ApplyKeepsTimerSound(e: Engine, c: Callback)
    requires TimerSound(e)
    ensures TimerSound(Apply(e, c).engine)
  {
    match c
    case UpdateDelivered(now, alive) =>
      if |e.queue| > 0 && alive {
        assert |e.queue| == 1;
      }
    case _ =>
  }

  lemma {:induction false} RunKeepsTimerSound(e: Engine, cs: seq<Callback>)
    requires TimerSound(e)
    ensures TimerSound(Run(e, cs).engine)
    decreases |cs|
  {
    if |cs| > 0 {
      ApplyKeepsTimerSound(e, cs[0]);
      if Apply(e, cs[0]).Ok? {
        RunKeepsTimerSound(Apply(e, cs[0]).engine, cs[1..]);
      }
    }
  }

  /** Every callback but teardown and a lost-engine delivery keeps the timer
      running exactly when visible and interactive. */
  lemma ApplyKeepsTimerExact(e: Engine, c: Callback)
    requires TimerExact(e) && KeepsTimerExact(c)
    ensures TimerExact(Apply(e, c).engine)
  {
  }

  /** For every sequence of callbacks without teardown or lost-engine delivery,
      the timer is running afterwards exactly when the latest state is visible
      and not ambient. */
  lemma {:induction false} TimerRunsIffVisibleAndInteractive(e: Engine, cs: seq<Callback>)
    requires TimerExact(e)
    requires forall i :: 0 <= i < |cs| ==> KeepsTimerExact(cs[i])
    ensures TimerExact(Run(e, cs).engine)
    decreases |cs|
  {
    if |cs| > 0 {
      ApplyKeepsTimerExact(e, cs[0]);
      if Apply(e, cs[0]).Ok? {
        assert forall i :: 0 <= i < |cs[1..]| ==> cs[1..][i] == cs[i + 1];
        TimerRunsIffVisibleAndInteractive(Apply(e, cs[0]).engine, cs[1..]);
      }
    }
  }

  /** Delivering the pending tick consumes it, redraws, and re-arms exactly when
      the timer should run, with the next tick due on a second boundary. */
  lemma TickReArmsOnSecondBoundary(e: Engine, now: int)
    requires TimerSound(e) && |e.queue| == 1 && now >= 0
    ensures DeliverUpdate(e, now, true).redraws == e.redraws + 1
    ensures ShouldTimerBeRunning(e) ==> DeliverUpdate(e, now, true).queue == [UpdateTime(NextTickDelay(now))]
    ensures !ShouldTimerBeRunning(e) ==> DeliverUpdate(e, now, true).queue == []
    ensures 1 <= NextTickDelay(now) <= UpdateRateMs && (now + NextTickDelay(now)) % UpdateRateMs == 0
  {
    DelayAlignsToSecond(now);
  }
}
