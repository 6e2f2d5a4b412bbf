// What the grind state machine and the tare policy guarantee: one-tick
// facts about Step and Sense, a transition table the ticks agree with, and
// facts about whole interleavings of the two tasks.

module ScaleProperties {
  import opened ScaleConfig
  import opened Scale

  // ---------------------------------------------------------------------
  // The transition table, as an independent reference for Step.
  // ---------------------------------------------------------------------

  /** Where a Grinding tick ends: the exits in priority order, the first that
      holds wins; a lost sensor fails the grind only when no exit fired. */
  function GrindingVerdict(g: Globals, now: nat): Status
    requires g.startedGrindingAt <= now
  {
    if now - g.startedGrindingAt > MAX_GRINDING_TIME then Failed
    else if Stalled(g, now) then Failed
    else if CupRemoved(g) then Failed
    else if DoseReached(g) then Finished
    else if !g.scaleReady then Failed
    else Grinding
  }

  /** The status after one tick, read off the transition table. */
  function NextStatus(g: Globals, now: nat): Status
    requires g.startedGrindingAt <= now
  {
    match g.scaleStatus
    case Empty => if CupDetected(g.scaleWeight) then Grinding else Empty
    case Grinding => GrindingVerdict(g, now)
    case Finished => if g.scaleWeight < FINISHED_RESET_WEIGHT then Empty else Finished
    case Failed => if g.scaleWeight >= GRINDING_FAILED_WEIGHT_TO_RESET then Empty else Failed
  }

  /** A tick moves to exactly the status the table names. */
  lemma StepFollowsTable(g: Globals, now: nat)
    requires ClockOk(g, now)
    ensures Step(g, now).scaleStatus == NextStatus(g, now)
  {
  }

  // ---------------------------------------------------------------------
  // One tick.
  // ---------------------------------------------------------------------

  /** A cup in the detection band starts a grind on that very tick, with the
      reading as empty-cup reference, the start time recorded and the
      actuator on; the checkpoint and finish time are not touched. */
  lemma CupStartsGrinding(g: Globals, now: nat)
    requires ClockOk(g, now) && g.scaleStatus == Empty && CupDetected(g.scaleWeight)
    ensures var r := Step(g, now);
      && r.scaleStatus == Grinding && r.grinderActive
      && r.cupWeightEmpty == g.scaleWeight && r.startedGrindingAt == now
      && r.weightAtStart == g.weightAtStart && r.finishedGrindingAt == g.finishedGrindingAt
      && r.lastTareAt == g.lastTareAt
  {
    CupBandClearOfTareBand(g.scaleWeight);
  }

  /** An Empty tick without a cup in the band stays Empty and leaves the session fields alone. */
  lemma NoCupStaysEmpty(g: Globals, now: nat)
    requires ClockOk(g, now) && g.scaleStatus == Empty && !CupDetected(g.scaleWeight)
    ensures var r := Step(g, now);
      && r.scaleStatus == Empty && r.grinderActive == g.grinderActive && r.cupWeightEmpty == g.cupWeightEmpty
      && r.startedGrindingAt == g.startedGrindingAt && r.finishedGrindingAt == g.finishedGrindingAt
  {
  }

  /** The status loop requests a tare (writes 0 to lastTareAt) exactly when
      the scale is Empty, the last tare is more than TARE_MIN_INTERVAL old and
      the reading sits in the drift band; otherwise lastTareAt is untouched. */
  lemma TareRequestedExactlyWhenDue(g: Globals, now: nat)
    requires ClockOk(g, now)
    ensures Step(g, now).lastTareAt == if TareDue(g, now) then 0 else g.lastTareAt
    ensures TareDue(g, now) <==>
              g.scaleStatus == Empty && now - g.lastTareAt > 10000
              && Abs(g.scaleWeight) > 0.2 && g.scaleWeight < 3.0
  {
  }

  /** No Empty tick both requests a tare and starts grinding. */
  lemma TareAndGrindExclusive(g: Globals, now: nat)
    requires ClockOk(g, now)
    ensures !(TareDue(g, now) && Step(g, now).scaleStatus == Grinding && g.scaleStatus == Empty)
  {
    CupBandClearOfTareBand(g.scaleWeight);
  }

  /** The cup band (15.2, 25.2) and the drift band (|w| > 0.2, w < 3) are disjoint. */
  lemma CupBandClearOfTareBand(w: real)
    ensures !(CupDetected(w) && InTareBand(w))
    ensures CupDetected(w) ==> CUP_WEIGHT - CUP_DETECTION_TOLERANCE < w < CUP_WEIGHT + CUP_DETECTION_TOLERANCE
  {
  }

  /** A timed-out grind fails whatever the weight, the readiness and the
      checkpoint say, and the tick changes nothing else of the session. */
  lemma TimeoutFails(g: Globals, now: nat)
    requires ClockOk(g, now) && g.scaleStatus == Grinding && now - g.startedGrindingAt > MAX_GRINDING_TIME
    ensures var r := Step(g, now);
      && r.scaleStatus == Failed && !r.grinderActive
      && r.cupWeightEmpty == g.cupWeightEmpty && r.startedGrindingAt == g.startedGrindingAt
      && r.finishedGrindingAt == g.finishedGrindingAt && r.weightAtStart == g.weightAtStart
  {
  }

  /** Once past the stall window, less than a gram over the checkpoint fails
      the grind, whatever else holds (past the time limit the timeout exit
      fails it first), and the tick changes nothing else of the session. */
  lemma StallFails(g: Globals, now: nat)
    requires ClockOk(g, now) && g.scaleStatus == Grinding && Stalled(g, now)
    ensures var r := Step(g, now);
      && r.scaleStatus == Failed && !r.grinderActive
      && r.cupWeightEmpty == g.cupWeightEmpty && r.startedGrindingAt == g.startedGrindingAt
      && r.finishedGrindingAt == g.finishedGrindingAt
  {
  }

  /** The sensor-lost check does not end the tick: if the dose is reached on
      the same tick and no earlier exit fires, the grind ends Finished, with
      the finish time recorded, and the actuator is off. */
  lemma NotReadyThenDoseFinishes(g: Globals, now: nat)
    requires ClockOk(g, now) && g.scaleStatus == Grinding && !g.scaleReady
    requires now - g.startedGrindingAt <= MAX_GRINDING_TIME && !Stalled(g, now) && !CupRemoved(g)
    requires DoseReached(g)
    ensures Step(g, now).scaleStatus == Finished
    ensures Step(g, now).finishedGrindingAt == now && !Step(g, now).grinderActive
  {
  }

  /** Without any exit firing, a lost sensor still fails the grind. */
  lemma NotReadyAloneFails(g: Globals, now: nat)
    requires ClockOk(g, now) && g.scaleStatus == Grinding && !g.scaleReady
    ensures Step(g, now).scaleStatus != Grinding && !Step(g, now).grinderActive
  {
  }

  /** Reaching the dose finishes the grind at `now`, which is no earlier than its start. */
  lemma DoseFinishes(g: Globals, now: nat)
    requires ClockOk(g, now) && g.scaleStatus == Grinding
    requires now - g.startedGrindingAt <= MAX_GRINDING_TIME && !Stalled(g, now) && !CupRemoved(g)
    requires DoseReached(g)
    ensures var r := Step(g, now);
      r.scaleStatus == Finished && !r.grinderActive && r.finishedGrindingAt == now && r.startedGrindingAt <= r.finishedGrindingAt
  {
  }

  /** The cup-removed floor lies strictly below the dose target, so at most
      one of those two exits can hold on a tick. */
  lemma RemovedAndDoseExclusive(g: Globals)
    ensures !(CupRemoved(g) && DoseReached(g))
    ensures g.cupWeightEmpty - CUP_DETECTION_TOLERANCE < g.cupWeightEmpty + COFFEE_DOSE_WEIGHT
  {
  }

  /** The checkpoint changes only on a Grinding tick exactly STALL_WINDOW
      after the start, and on that tick it takes the reading. Nothing else
      resets it: not starting a new session, not a sensor poll. */
  lemma CheckpointOnlyAtTwoSeconds(g: Globals, now: nat)
    requires ClockOk(g, now)
    ensures Step(g, now).weightAtStart != g.weightAtStart ==>
              g.scaleStatus == Grinding && now - g.startedGrindingAt == STALL_WINDOW
    ensures g.scaleStatus == Grinding && now - g.startedGrindingAt == STALL_WINDOW ==>
              Step(g, now).weightAtStart == g.scaleWeight
    ensures g.scaleStatus == Empty ==> Step(g, now).weightAtStart == g.weightAtStart
  {
  }

  /** The checkpoint tick falls inside the allowed grinding time (2000 ms is
      below the 20000 ms limit) and is not itself a stall, so neither exit
      pre-empts it: the reading is captured, and a grind with the sensor
      ready, the cup in place and the dose not yet reached goes on, with
      the actuator as it was. */
  lemma CheckpointWithinGrindWindow(g: Globals, now: nat)
    requires ClockOk(g, now) && g.scaleStatus == Grinding && now - g.startedGrindingAt == STALL_WINDOW
    ensures Step(g, now).weightAtStart == g.scaleWeight
    ensures g.scaleReady && !CupRemoved(g) && !DoseReached(g) ==>
              Step(g, now).scaleStatus == Grinding && Step(g, now).grinderActive == g.grinderActive
  {
  }

  /** A finished grind returns to Empty exactly when the reading drops below
      5 g; either way the session fields, the checkpoint and the actuator
      are as they were. */
  lemma FinishedReturn(g: Globals, now: nat)
    requires ClockOk(g, now) && g.scaleStatus == Finished
    ensures var r := Step(g, now);
      && (r.scaleStatus == Empty <==> g.scaleWeight < FINISHED_RESET_WEIGHT)
      && (r.scaleStatus == Empty || r.scaleStatus == Finished)
      && r.cupWeightEmpty == g.cupWeightEmpty && r.startedGrindingAt == g.startedGrindingAt
      && r.finishedGrindingAt == g.finishedGrindingAt && r.grinderActive == g.grinderActive
      && r.weightAtStart == g.weightAtStart && r.lastTareAt == g.lastTareAt
  {
  }

  /** A failed grind returns to Empty exactly when the reading reaches
      GRINDING_FAILED_WEIGHT_TO_RESET; either way the session fields, the
      checkpoint and the actuator are as they were. */
  lemma FailedReturn(g: Globals, now: nat)
    requires ClockOk(g, now) && g.scaleStatus == Failed
    ensures var r := Step(g, now);
      && (r.scaleStatus == Empty <==> g.scaleWeight >= GRINDING_FAILED_WEIGHT_TO_RESET)
      && (r.scaleStatus == Empty || r.scaleStatus == Failed)
      && r.cupWeightEmpty == g.cupWeightEmpty && r.startedGrindingAt == g.startedGrindingAt
      && r.finishedGrindingAt == g.finishedGrindingAt && r.grinderActive == g.grinderActive
      && r.weightAtStart == g.weightAtStart && r.lastTareAt == g.lastTareAt
  {
  }

  /** The reading that clears a finished grind (below 5 g) lies outside the
      cup band, so the next tick on the same reading does not start again. */
  lemma NoRestartAfterFinished(g: Globals, now: nat, later: nat)
    requires ClockOk(g, now) && now <= later && g.scaleStatus == Finished
    requires Step(g, now).scaleStatus == Empty
    ensures Step(Step(g, now), later).scaleStatus == Empty
  {
  }

  /** The press that clears a failed grind (500 g or more) neither starts a
      grind nor requests a tare on the next tick on the same reading. */
  lemma NoRestartAfterFailed(g: Globals, now: nat, later: nat)
    requires ClockOk(g, now) && now <= later && g.scaleStatus == Failed
    requires Step(g, now).scaleStatus == Empty
    ensures Step(Step(g, now), later).scaleStatus == Empty
    ensures !TareDue(Step(g, now), later)
  {
  }

  /** A sensor poll never touches what the status loop owns, so it keeps the invariant. */
  lemma SenseKeepsSafe(g: Globals, now: nat, sample: Option<real>, filter: real -> real)
    requires ClockOk(g, now) && Safe(g)
    ensures Safe(Sense(g, now, sample, filter))
  {
  }

  // ---------------------------------------------------------------------
  // Interleavings of the two tasks.
  // ---------------------------------------------------------------------

  /** Running one more event is applying it to the state so far. */
  lemma RunPrefix(g: Globals, events: seq<Event>, k: nat)
    requires Admits(g, events) && k < |events|
    ensures Admits(g, events[..k]) && Admits(g, events[..k + 1])
    ensures ClockOk(Run(g, events[..k]), events[k].now)
    ensures Run(g, events[..k + 1]) == Apply(Run(g, events[..k]), events[k])
  {
    assert events[..k + 1][..k] == events[..k];
  }

  /** Either task's step keeps the invariant. */
  lemma ApplyKeepsSafe(g: Globals, e: Event)
    requires ClockOk(g, e.now) && Safe(g)
    ensures Safe(Apply(g, e))
  {
    match e
    case StatusTick(now) => StepKeepsSafe(g, now);
    case SensorPoll(now, sample, filter) => SenseKeepsSafe(g, now, sample, filter);
  }

  /** From boot, along every interleaving of sensor polls and status ticks,
      the actuator is on exactly while the status is Grinding, and every
      non-Empty session started on a detected cup. */
  lemma {:induction false} RunKeepsSafe(g: Globals, events: seq<Event>)
    requires Admits(g, events) && Safe(g)
    ensures Safe(Run(g, events))
    decreases |events|
  {
    if events != [] {
      var n := |events| - 1;
      RunPrefix(g, events, n);
      RunKeepsSafe(g, events[..n]);
      ApplyKeepsSafe(Run(g, events[..n]), events[n]);
      assert events[..n + 1] == events;
    }
  }

  /** Boot is safe, so every reachable state is. */
  lemma BootRunsSafe(events: seq<Event>)
    requires Admits(Boot(), events)
    ensures Safe(Run(Boot(), events))
    ensures Run(Boot(), events).grinderActive <==> Run(Boot(), events).scaleStatus == Grinding
  {
    RunKeepsSafe(Boot(), events);
  }

  /** A tare request that is not already pending: a status tick that turns a
      recorded tare time into the "tare now" sentinel. */
  predicate TareFires(g: Globals, e: Event)
  {
    e.StatusTick? && g.lastTareAt != 0 && TareDue(g, e.now)
  }

  /** After a request at event i, the tare time is either still pending or
      was recorded no earlier than that request. */
  lemma {:induction false} PendingOrRecent(g: Globals, events: seq<Event>, i: nat, k: nat)
    requires Admits(g, events) && i < k <= |events|
    requires Admits(g, events[..i]) && TareFires(Run(g, events[..i]), events[i])
    ensures Admits(g, events[..k])
    ensures var t := Run(g, events[..k]).lastTareAt; t == 0 || t >= events[i].now
    decreases k
  {
    var m := k - 1;
    RunPrefix(g, events, m);
    assert events[..m + 1] == events[..k];
    var h := Run(g, events[..m]);
    assert Run(g, events[..k]) == Apply(h, events[m]);
    if m == i {
      FiringLeavesPending(h, events[m]);
    } else {
      PendingOrRecent(g, events, i, m);
      assert events[i].now <= events[m].now;
      TareTimeAfterEvent(h, events[m]);
    }
  }

  /** A request leaves the tare pending. */
  lemma FiringLeavesPending(h: Globals, e: Event)
    requires ClockOk(h, e.now) && TareFires(h, e)
    ensures Apply(h, e).lastTareAt == 0
  {
    TareRequestedExactlyWhenDue(h, e.now);
  }

  /** One event leaves the tare time as it was, requests a tare (0), or, for
      a poll that served a pending tare, records the poll's time. */
  lemma TareTimeAfterEvent(h: Globals, e: Event)
    requires ClockOk(h, e.now)
    ensures var t := Apply(h, e).lastTareAt;
      t == h.lastTareAt || t == 0 || (h.lastTareAt == 0 && t == e.now)
  {
  }

  /** Automatic tare requests are more than TARE_MIN_INTERVAL apart: between
      two requests a tare must have completed, no earlier than the first. */
  lemma TareRequestsSpaced(g: Globals, events: seq<Event>, i: nat, j: nat)
    requires Admits(g, events) && i < j < |events|
    requires Admits(g, events[..i]) && TareFires(Run(g, events[..i]), events[i])
    requires Admits(g, events[..j]) && TareFires(Run(g, events[..j]), events[j])
    ensures events[j].now > events[i].now + TARE_MIN_INTERVAL
  {
    PendingOrRecent(g, events, i, j);
  }

  // ---------------------------------------------------------------------
  // Significant-change detection compares tick with tick.
  // ---------------------------------------------------------------------

  /** The reading the most recent status tick of `events` saw, or the
      remembered reading of `g` when no tick ran. */
  function LastTickReading(g: Globals, events: seq<Event>): real
    requires Admits(g, events)
    decreases |events|
  {
    if events == [] then g.lastWeight
    else
      var n := |events| - 1;
      if events[n].StatusTick? then Run(g, events[..n]).scaleWeight
      else LastTickReading(g, events[..n])
  }

  /** The time of the most recent status tick whose reading moved more than
      SIGNIFICANT_WEIGHT_CHANGE from the reading of the tick before it, or
      the time `g` recorded when no tick did. */
  function LastSignificantTick(g: Globals, events: seq<Event>): nat
    requires Admits(g, events)
    decreases |events|
  {
    if events == [] then g.lastSignificantWeightChangeAt
    else
      var n := |events| - 1;
      var before := events[..n];
      if events[n].StatusTick?
         && Abs(Run(g, before).scaleWeight - LastTickReading(g, before)) > SIGNIFICANT_WEIGHT_CHANGE
      then events[n].now
      else LastSignificantTick(g, before)
  }

  /** Along any interleaving, lastWeight is the reading of the latest status
      tick, whatever polls came after it, and lastSignificantWeightChangeAt is the
      time of the latest tick whose reading jumped from the previous tick's:
      the comparison is tick to tick, not poll to poll. */
  lemma {:induction false} TickToTickComparison(g: Globals, events: seq<Event>)
    requires Admits(g, events)
    ensures Run(g, events).lastWeight == LastTickReading(g, events)
    ensures Run(g, events).lastSignificantWeightChangeAt == LastSignificantTick(g, events)
    decreases |events|
  {
    if events != [] {
      var n := |events| - 1;
      RunPrefix(g, events, n);
      assert events[..n + 1] == events;
      var before := events[..n];
      TickToTickComparison(g, before);
      ObservationAfterEvent(Run(g, before), events[n]);
    }
  }

  /** A status tick remembers its reading and stamps a jump from the
      remembered one; a poll leaves both alone. */
  lemma ObservationAfterEvent(h: Globals, e: Event)
    requires ClockOk(h, e.now)
    ensures Apply(h, e).lastWeight == if e.StatusTick? then h.scaleWeight else h.lastWeight
    ensures Apply(h, e).lastSignificantWeightChangeAt ==
              if e.StatusTick? && Abs(h.scaleWeight - h.lastWeight) > SIGNIFICANT_WEIGHT_CHANGE then e.now
              else h.lastSignificantWeightChangeAt
  {
  }

  /** The tick at index k is the last one: only polls follow it. Then the
      remembered reading is the one that tick saw. */
  lemma {:induction false} LastWeightAfterPolls(g: Globals, events: seq<Event>, k: nat)
    requires Admits(g, events) && k < |events| && events[k].StatusTick?
    requires forall j :: k < j < |events| ==> events[j].SensorPoll?
    ensures Admits(g, events[..k])
    ensures Run(g, events).lastWeight == Run(g, events[..k]).scaleWeight
    decreases |events|
  {
    var n := |events| - 1;
    RunPrefix(g, events, n);
    assert events[..n + 1] == events;
    if k < n {
      assert events[..n][..k] == events[..k];
      LastWeightAfterPolls(g, events[..n], k);
    }
  }

  // ---------------------------------------------------------------------
  // The stall checkpoint, within a grind and across sessions.
  // ---------------------------------------------------------------------

  /** `states` lists the state before and after each event of a run from `g`. */
  predicate Traces(g: Globals, events: seq<Event>, states: seq<Globals>)
  {
    && |states| == |events| + 1 && states[0] == g
    && forall k :: 0 <= k < |events| ==>
         ClockOk(states[k], events[k].now) && Apply(states[k], events[k]) == states[k + 1]
  }

  /** A run passes through the states a trace lists, one event at a time. */
  lemma {:induction false} RunFollowsTrace(g: Globals, events: seq<Event>, states: seq<Globals>, k: nat)
    requires Admits(g, events) && Traces(g, events, states) && k <= |events|
    ensures Admits(g, events[..k]) && Run(g, events[..k]) == states[k]
    decreases k
  {
    if k > 0 {
      RunFollowsTrace(g, events, states, k - 1);
      RunPrefix(g, events, k - 1);
    }
  }

  /** Once the checkpoint is taken on the tick exactly 2 s into a grind, every
      later tick compares the reading with it, not with the reading 2 s
      earlier: the very next tick, one poll later, fails a grind that gained
      less than a gram since the checkpoint tick, however short the gap. */
  lemma CheckpointThenSlowTickFails(g: Globals, now: nat, later: nat, raw: real, filter: real -> real)
    requires ClockOk(g, now) && g.scaleStatus == Grinding && now - g.startedGrindingAt == STALL_WINDOW
    requires g.scaleReady && !CupRemoved(g) && !DoseReached(g)
    requires now < later && filter(raw) < g.scaleWeight + MIN_STALL_PROGRESS
    ensures var c := Step(g, now);
      c.scaleStatus == Grinding && c.grinderActive == g.grinderActive && c.weightAtStart == g.scaleWeight
    ensures var r := Step(Sense(Step(g, now), later, Some(raw), filter), later);
      r.scaleStatus == Failed && !r.grinderActive
  {
    CheckpointWithinGrindWindow(g, now);
  }

  /** A grind from boot at a steady 3.6 g/s, the sensor publishing each sample
      as read: the cup at 100 ms, 27.4 g on the tick at 2100 ms (the
      checkpoint), and 27.58 g on the next tick, 50 ms later. */
  function SteadyGrind(): (events: seq<Event>)
    ensures |events| == 6
  {
    var asRead := (x: real) => x;
    [ SensorPoll(100, Some(20.2), asRead), StatusTick(100),
      SensorPoll(2100, Some(27.4), asRead), StatusTick(2100),
      SensorPoll(2150, Some(27.58), asRead), StatusTick(2150) ]
  }

  /** The state after each prefix of SteadyGrind: a tare at the first poll,
      the grind at 100 ms, the checkpoint at 2100 ms and the failure at 2150 ms. */
  function SteadyGrindStates(): (states: seq<Globals>)
    ensures |states| == 7
  {
    [ Boot(),
      Globals(20.2, 100, 0, 100, true, Empty, 0.0, 0, 0, false, 0.0, 0.0),
      Globals(20.2, 100, 100, 100, true, Grinding, 20.2, 100, 0, true, 20.2, 0.0),
      Globals(27.4, 2100, 100, 100, true, Grinding, 20.2, 100, 0, true, 20.2, 0.0),
      Globals(27.4, 2100, 2100, 100, true, Grinding, 20.2, 100, 0, true, 27.4, 27.4),
      Globals(27.58, 2150, 2100, 100, true, Grinding, 20.2, 100, 0, true, 27.4, 27.4),
      Globals(27.58, 2150, 2100, 100, true, Failed, 20.2, 100, 0, false, 27.58, 27.4) ]
  }

  /** Each event of SteadyGrind takes one listed state to the next. */
  lemma SteadyGrindStep(k: nat)
    requires k < 6
    ensures ClockOk(SteadyGrindStates()[k], SteadyGrind()[k].now)
    ensures Apply(SteadyGrindStates()[k], SteadyGrind()[k]) == SteadyGrindStates()[k + 1]
  {
    var events, states := SteadyGrind(), SteadyGrindStates();
    if k < 3 {
      if k == 0 {} else if k == 1 {} else {}
    } else {
      if k == 3 {} else if k == 4 {} else {}
    }
  }

  /** A grind that would reach the 18 g dose in about 5 s fails 50 ms after
      its checkpoint, because it gained only 0.18 g since the checkpoint tick. */
  lemma CheckpointFailsSteadyGrind()
    ensures Admits(Boot(), SteadyGrind())
    ensures var r := Run(Boot(), SteadyGrind());
      && r.scaleStatus == Failed && !r.grinderActive
      && r.startedGrindingAt == 100 && r.weightAtStart == 27.4 && r.scaleWeight == 27.58
  {
    var events, states := SteadyGrind(), SteadyGrindStates();
    assert Admits(Boot(), events);
    forall k | 0 <= k < 6
      ensures ClockOk(states[k], events[k].now) && Apply(states[k], events[k]) == states[k + 1]
    {
      SteadyGrindStep(k);
    }
    RunFollowsTrace(Boot(), events, states, 6);
    assert events[..6] == events;
  }

  /** Two grinds from boot, the sensor publishing each sample as read. The
      first grind starts at 100 ms, takes its checkpoint (30 g) on the tick at
      2100 ms, finishes at 3000 ms and is cleared at 4000 ms. The second starts
      at 5000 ms; no tick falls at 7000 ms, and the tick at 7050 ms sees 23.2 g,
      3 g into the dose. */
  function TwoSessions(): (events: seq<Event>)
    ensures |events| == 12
  {
    var asRead := (x: real) => x;
    [ SensorPoll(100, Some(20.2), asRead), StatusTick(100),
      SensorPoll(2100, Some(30.0), asRead), StatusTick(2100),
      SensorPoll(3000, Some(38.5), asRead), StatusTick(3000),
      SensorPoll(4000, Some(0.0), asRead), StatusTick(4000),
      SensorPoll(5000, Some(20.2), asRead), StatusTick(5000),
      SensorPoll(7050, Some(23.2), asRead), StatusTick(7050) ]
  }

  /** The state after each prefix of TwoSessions: a tare at the first poll,
      the first checkpoint at 2100 ms, Finished at 3000 ms, Empty at 4000 ms,
      the second grind at 5000 ms and its failure at 7050 ms. */
  function TwoSessionStates(): (states: seq<Globals>)
    ensures |states| == 13
  {
    [ Boot(),
      Globals(20.2, 100, 0, 100, true, Empty, 0.0, 0, 0, false, 0.0, 0.0),
      Globals(20.2, 100, 100, 100, true, Grinding, 20.2, 100, 0, true, 20.2, 0.0),
      Globals(30.0, 2100, 100, 100, true, Grinding, 20.2, 100, 0, true, 20.2, 0.0),
      Globals(30.0, 2100, 2100, 100, true, Grinding, 20.2, 100, 0, true, 30.0, 30.0),
      Globals(38.5, 3000, 2100, 100, true, Grinding, 20.2, 100, 0, true, 30.0, 30.0),
      Globals(38.5, 3000, 3000, 100, true, Finished, 20.2, 100, 3000, false, 38.5, 30.0),
      Globals(0.0, 4000, 3000, 100, true, Finished, 20.2, 100, 3000, false, 38.5, 30.0),
      Globals(0.0, 4000, 4000, 100, true, Empty, 20.2, 100, 3000, false, 0.0, 30.0),
      Globals(20.2, 5000, 4000, 100, true, Empty, 20.2, 100, 3000, false, 0.0, 30.0),
      Globals(20.2, 5000, 5000, 100, true, Grinding, 20.2, 5000, 3000, true, 20.2, 30.0),
      Globals(23.2, 7050, 5000, 100, true, Grinding, 20.2, 5000, 3000, true, 20.2, 30.0),
      Globals(23.2, 7050, 5000, 100, true, Failed, 20.2, 5000, 3000, false, 23.2, 30.0) ]
  }

  /** Each event of TwoSessions takes one listed state to the next. */
  lemma TwoSessionsStep(k: nat)
    requires k < 12
    ensures ClockOk(TwoSessionStates()[k], TwoSessions()[k].now)
    ensures Apply(TwoSessionStates()[k], TwoSessions()[k]) == TwoSessionStates()[k + 1]
  {
    var events, states := TwoSessions(), TwoSessionStates();
    if k < 4 {
      if k == 0 {} else if k == 1 {} else if k == 2 {} else {}
    } else if k < 8 {
      if k == 4 {} else if k == 5 {} else if k == 6 {} else {}
    } else {
      if k == 8 {} else if k == 9 {} else if k == 10 {} else {}
    }
  }

  /** The checkpoint is a function static that only the tick exactly 2 s into
      a grind writes, and no session resets it. When the second grind's 2 s
      tick is skipped, its stall test uses the first grind's 30 g checkpoint
      and fails a grind that is making progress. */
  lemma StaleCheckpointFailsSecondSession()
    ensures Admits(Boot(), TwoSessions())
    ensures var r := Run(Boot(), TwoSessions());
      && r.scaleStatus == Failed && !r.grinderActive
      && r.startedGrindingAt == 5000 && r.cupWeightEmpty == 20.2
      && r.weightAtStart == 30.0 && r.scaleWeight == 23.2
  {
    var events, states := TwoSessions(), TwoSessionStates();
    assert Admits(Boot(), events);
    forall k | 0 <= k < 12
      ensures ClockOk(states[k], events[k].now) && Apply(states[k], events[k]) == states[k + 1]
    {
      TwoSessionsStep(k);
    }
    RunFollowsTrace(Boot(), events, states, 12);
    assert events[..12] == events;
  }
}
