// The weight-sensing and grinding state machine of the grinder scale.
//
// The firmware keeps its state in file-level globals and two function-local
// statics, shared by two polling tasks: the sensor task (one poll: serve a
// pending tare, then read and filter one sample) and the status task (one
// decision tick). Each loop iteration is modelled as one atomic step. The
// pure functions Step and Sense say what one iteration does to the whole
// state; the class ScaleController holds the globals as fields and its
// methods Tick and SensorStep are proved against those functions.

module Scale {
  import opened ScaleConfig

  datatype Option<T> = None | Some(value: T)

  // Literals that appear in the decision loop itself rather than in the
  // configuration header.

  /** The stall checkpoint is taken this long after grinding starts. */
  const STALL_WINDOW: nat := 2000
  /** Less growth than this since the checkpoint means the grinder stalled. */
  const MIN_STALL_PROGRESS: real := 1.0
  /** A finished grind is cleared once the cup is lifted below this weight. */
  const FINISHED_RESET_WEIGHT: real := 5.0
  /** Automatic tare band: the reading is more than this away from zero ... */
  const TARE_BAND_LOW: real := 0.2
  /** ... and below this. */
  const TARE_BAND_HIGH: real := 3.0

  /** Every global of the scale, as one value. */
  datatype Globals = Globals(
    scaleWeight: real,                  // latest filtered estimate
    scaleLastUpdatedAt: nat,
    lastSignificantWeightChangeAt: nat,
    lastTareAt: nat,                    // 0 means a tare is pending
    scaleReady: bool,                   // the last poll got a sample
    scaleStatus: Status,
    cupWeightEmpty: real,
    startedGrindingAt: nat,
    finishedGrindingAt: nat,
    grinderActive: bool,                // level of the grinder output pin
    lastWeight: real,                   // static of the status loop
    weightAtStart: real                 // static of the status loop: stall checkpoint
  )

  /** The state after the static initialisers and setupScale (pin driven low). */
  function Boot(): (g: Globals)
    ensures g.scaleStatus == Empty && !g.grinderActive && g.lastTareAt == 0 && !g.scaleReady
  {
    Globals(0.0, 0, 0, 0, false, Empty, 0.0, 0, 0, false, 0.0, 0.0)
  }

  /** The ABS macro: the argument if positive, else its negation. */
  function Abs(x: real): (r: real)
    ensures r >= 0.0
    ensures r == x || r == -x
    ensures r >= x && r >= -x
  {
    if x > 0.0 then x else x * -1.0
  }

  /** No timestamp the state records lies after `now`: the clock never runs backwards. */
  predicate ClockOk(g: Globals, now: nat)
  {
    g.scaleLastUpdatedAt <= now && g.lastSignificantWeightChangeAt <= now && g.lastTareAt <= now
    && g.startedGrindingAt <= now && g.finishedGrindingAt <= now
  }

  /** The reading is within tolerance of the expected empty cup. */
  predicate CupDetected(w: real)
  {
    Abs(w - CUP_WEIGHT) < CUP_DETECTION_TOLERANCE
  }

  /** The reading is close to, but not at, zero: sensor drift worth a tare. */
  predicate InTareBand(w: real)
  {
    Abs(w) > TARE_BAND_LOW && w < TARE_BAND_HIGH
  }

  /** An Empty tick asks for a tare: none for a while and the reading drifted. */
  predicate TareDue(g: Globals, now: nat)
  {
    g.scaleStatus == Empty && now - g.lastTareAt > TARE_MIN_INTERVAL && InTareBand(g.scaleWeight)
  }

  /** The stall test of a Grinding tick (the checkpoint of this very tick never takes part). */
  predicate Stalled(g: Globals, now: nat)
  {
    now - g.startedGrindingAt > STALL_WINDOW && g.scaleWeight - g.weightAtStart < MIN_STALL_PROGRESS
  }

  /** The reading fell well below the empty cup. */
  predicate CupRemoved(g: Globals)
  {
    g.scaleWeight < g.cupWeightEmpty - CUP_DETECTION_TOLERANCE
  }

  /** The dose is in the cup. */
  predicate DoseReached(g: Globals)
  {
    g.scaleWeight >= g.cupWeightEmpty + COFFEE_DOSE_WEIGHT
  }

  /** The transitions of the grind state machine. */
  predicate CanMove(from: Status, to: Status)
  {
    match from
    case Empty => to == Grinding
    case Grinding => to == Finished || to == Failed
    case Finished => to == Empty
    case Failed => to == Empty
  }

  /** The actuator is on exactly while grinding; a session that left Empty
      started on a detected cup; a finished grind ended after it started. */
  predicate Safe(g: Globals)
  {
    && g.grinderActive == (g.scaleStatus == Grinding)
    && (g.scaleStatus != Empty ==> CupDetected(g.cupWeightEmpty))
    && (g.scaleStatus == Finished ==> g.startedGrindingAt <= g.finishedGrindingAt)
  }

  /** The fields only the status loop writes agree. */
  predicate SameDecisionState(a: Globals, b: Globals)
  {
    a.scaleStatus == b.scaleStatus && a.cupWeightEmpty == b.cupWeightEmpty && a.startedGrindingAt == b.startedGrindingAt
    && a.finishedGrindingAt == b.finishedGrindingAt && a.grinderActive == b.grinderActive && a.lastWeight == b.lastWeight
    && a.weightAtStart == b.weightAtStart && a.lastSignificantWeightChangeAt == b.lastSignificantWeightChangeAt
  }

  /** The fields only the sensor loop writes agree. */
  predicate SameReading(a: Globals, b: Globals)
  {
    a.scaleWeight == b.scaleWeight && a.scaleLastUpdatedAt == b.scaleLastUpdatedAt && a.scaleReady == b.scaleReady
  }

  /** The first lines of a status tick: note a significant change since the
      previous tick and remember this tick's reading. */
  function Observe(g: Globals, now: nat): (r: Globals)
    requires ClockOk(g, now)
    ensures ClockOk(r, now)
    ensures r.lastWeight == g.scaleWeight
    ensures r.lastSignificantWeightChangeAt ==
              (if Abs(g.scaleWeight - g.lastWeight) > SIGNIFICANT_WEIGHT_CHANGE then now
               else g.lastSignificantWeightChangeAt)
    ensures r == g.(lastSignificantWeightChangeAt := r.lastSignificantWeightChangeAt, lastWeight := r.lastWeight)
  {
    g.(lastSignificantWeightChangeAt :=
         if Abs(g.scaleWeight - g.lastWeight) > SIGNIFICANT_WEIGHT_CHANGE then now
         else g.lastSignificantWeightChangeAt,
       lastWeight := g.scaleWeight)
  }

  /** The Empty branch: maybe request a tare, then maybe start grinding. */
  function DecideEmpty(g: Globals, now: nat): Globals
    requires g.scaleStatus == Empty
  {
    var g1 := if TareDue(g, now) then g.(lastTareAt := 0) else g;
    if CupDetected(g.scaleWeight) then
      g1.(cupWeightEmpty := g.scaleWeight, scaleStatus := Grinding, startedGrindingAt := now, grinderActive := true)
    else g1
  }

  /** The Grinding branch. The not-ready check does not end the tick; each
      later check that fires ends it. */
  function DecideGrinding(g: Globals, now: nat): Globals
    requires g.scaleStatus == Grinding && g.startedGrindingAt <= now
  {
    var elapsed := now - g.startedGrindingAt;
    var g1 := if !g.scaleReady then g.(grinderActive := false, scaleStatus := Failed) else g;
    if elapsed > MAX_GRINDING_TIME then
      g1.(grinderActive := false, scaleStatus := Failed)
    else
      var g2 := if elapsed == STALL_WINDOW then g1.(weightAtStart := g.scaleWeight) else g1;
      if elapsed > STALL_WINDOW && g.scaleWeight - g2.weightAtStart < MIN_STALL_PROGRESS then
        g2.(grinderActive := false, scaleStatus := Failed)
      else if CupRemoved(g) then
        g2.(grinderActive := false, scaleStatus := Failed)
      else if DoseReached(g) then
        g2.(finishedGrindingAt := now, grinderActive := false, scaleStatus := Finished)
      else g2
  }

  /** The Finished branch: wait for the cup to be lifted. */
  function DecideFinished(g: Globals): Globals
  {
    if g.scaleWeight < FINISHED_RESET_WEIGHT then g.(scaleStatus := Empty) else g
  }

  /** The Failed branch: wait for the operator to press on the scale. */
  function DecideFailed(g: Globals): Globals
  {
    if g.scaleWeight >= GRINDING_FAILED_WEIGHT_TO_RESET then g.(scaleStatus := Empty) else g
  }

  /** One iteration of the status loop, as the code runs it: a `continue`
      ends the iteration, and the not-ready check in Grinding does not. */
  function Step(g: Globals, now: nat): (r: Globals)
    requires ClockOk(g, now)
    ensures ClockOk(r, now)
    ensures SameReading(g, r)
    ensures r.scaleStatus == g.scaleStatus || CanMove(g.scaleStatus, r.scaleStatus)
    ensures r.lastWeight == g.scaleWeight
    ensures r.lastTareAt == g.lastTareAt || r.lastTareAt == 0
  {
    var g1 := Observe(g, now);
    match g.scaleStatus
    case Empty => DecideEmpty(g1, now)
    case Grinding => DecideGrinding(g1, now)
    case Finished => DecideFinished(g1)
    case Failed => DecideFailed(g1)
  }

  /** One iteration of the sensor loop: a pending tare is served first; then
      either a sample arrives in time and its filtered value is published, or
      the read times out and only the ready flag drops. The estimator is the
      parameter `filter`; a caller passes, per poll, whatever the filter's own
      history makes it compute. */
  function Sense(g: Globals, now: nat, sample: Option<real>, filter: real -> real): (r: Globals)
    requires ClockOk(g, now)
    ensures ClockOk(r, now)
    ensures SameDecisionState(g, r)
    ensures r.lastTareAt == (if g.lastTareAt == 0 then now else g.lastTareAt)
    ensures r.scaleReady <==> sample.Some?
    ensures sample.Some? ==> r.scaleWeight == filter(sample.value) && r.scaleLastUpdatedAt == now
    ensures sample.None? ==> r.scaleWeight == g.scaleWeight && r.scaleLastUpdatedAt == g.scaleLastUpdatedAt
  {
    var tared := if g.lastTareAt == 0 then g.(lastTareAt := now) else g;
    match sample
    case Some(raw) => tared.(scaleWeight := filter(raw), scaleLastUpdatedAt := now, scaleReady := true)
    case None => tared.(scaleReady := false)
  }

  /** One scheduling step of either task. */
  datatype Event =
    | StatusTick(now: nat)
    | SensorPoll(now: nat, sample: Option<real>, filter: real -> real)

  function Apply(g: Globals, e: Event): (r: Globals)
    requires ClockOk(g, e.now)
    ensures ClockOk(r, e.now)
  {
    match e
    case StatusTick(now) => Step(g, now)
    case SensorPoll(now, sample, filter) => Sense(g, now, sample, filter)
  }

  /** Events are in time order. */
  predicate Chronological(events: seq<Event>)
  {
    forall i, j :: 0 <= i <= j < |events| ==> events[i].now <= events[j].now
  }

  /** The events can be run from `g`: in time order, and none before a recorded timestamp. */
  predicate Admits(g: Globals, events: seq<Event>)
  {
    Chronological(events) && (events == [] || ClockOk(g, events[0].now))
  }

  /** The state after an interleaving of the two tasks' iterations. */
  function Run(g: Globals, events: seq<Event>): (r: Globals)
    requires Admits(g, events)
    ensures events == [] ==> r == g
    ensures events != [] ==> ClockOk(r, events[|events| - 1].now)
    decreases |events|
  {
    if events == [] then g
    else
      var n := |events| - 1;
      var before := Run(g, events[..n]);
      Apply(before, events[n])
  }

  /** The globals of the scale, updated in place by the two tasks. */
  class ScaleController {
    var scaleWeight: real
    var scaleLastUpdatedAt: nat
    var lastSignificantWeightChangeAt: nat
    var lastTareAt: nat
    var scaleReady: bool
    var scaleStatus: Status
    var cupWeightEmpty: real
    var startedGrindingAt: nat
    var finishedGrindingAt: nat
    var grinderActive: bool
    var lastWeight: real
    var weightAtStart: real

    function Snapshot(): Globals
      reads this
    {
      Globals(scaleWeight, scaleLastUpdatedAt, lastSignificantWeightChangeAt, lastTareAt,
              scaleReady, scaleStatus, cupWeightEmpty, startedGrindingAt, finishedGrindingAt,
              grinderActive, lastWeight, weightAtStart)
    }

    ghost predicate Valid()
      reads this
    {
      Safe(Snapshot())
    }

    /** Static initialisation followed by setupScale driving the pin low. */
    constructor ()
      ensures Snapshot() == Boot()
      ensures Valid()
    {
      scaleWeight := 0.0;
      scaleLastUpdatedAt := 0;
      lastSignificantWeightChangeAt := 0;
      lastTareAt := 0;
      scaleReady := false;
      scaleStatus := Empty;
      cupWeightEmpty := 0.0;
      startedGrindingAt := 0;
      finishedGrindingAt := 0;
      grinderActive := false;
      lastWeight := 0.0;
      weightAtStart := 0.0;
    }

    /** tareScale: the driver zeroes the load cell and the time is recorded. */
    method TareScale(now: nat)
      modifies this`lastTareAt
      ensures lastTareAt == now
    {
      lastTareAt := now;
    }

    /** One iteration of updateScale. `sample` is None when the driver timed out. */
    method SensorStep(now: nat, sample: Option<real>, filter: real -> real)
      requires ClockOk(Snapshot(), now)
      modifies this
      ensures Snapshot() == Sense(old(Snapshot()), now, sample, filter)
      ensures old(Valid()) ==> Valid()
    {
      if lastTareAt == 0 {
        TareScale(now);
      }
      if sample.Some? {
        var lastEstimate := filter(sample.value);
        scaleWeight := lastEstimate;
        scaleLastUpdatedAt := now;
        scaleReady := true;
      } else {
        scaleReady := false;
      }
    }

    /** One iteration of scaleStatusLoop. */
    method Tick(now: nat)
      requires ClockOk(Snapshot(), now)
      modifies this
      ensures Snapshot() == Step(old(Snapshot()), now)
      ensures old(Valid()) ==> Valid()
    {
      ghost var g := Snapshot();
      if Abs(scaleWeight - lastWeight) > SIGNIFICANT_WEIGHT_CHANGE {
        lastSignificantWeightChangeAt := now;
      }
      lastWeight := scaleWeight;
      assert Snapshot() == Observe(g, now);

      if scaleStatus == Empty {
        TickEmpty(now);
      } else if scaleStatus == Grinding {
        TickGrinding(now);
      } else if scaleStatus == Finished {
        if scaleWeight < FINISHED_RESET_WEIGHT {
          scaleStatus := Empty;
        }
      } else if scaleStatus == Failed {
        if scaleWeight >= GRINDING_FAILED_WEIGHT_TO_RESET {
          scaleStatus := Empty;
        }
      }
      StepKeepsSafe(g, now);
    }

    /** The Empty branch of a tick; the `return` is the loop's `continue`. */
    method TickEmpty(now: nat)
      requires scaleStatus == Empty && lastTareAt <= now
      modifies this
      ensures Snapshot() == DecideEmpty(old(Snapshot()), now)
    {
      if now - lastTareAt > TARE_MIN_INTERVAL && Abs(scaleWeight) > TARE_BAND_LOW
         && scaleWeight < TARE_BAND_HIGH {
        lastTareAt := 0;
      }
      if Abs(scaleWeight - CUP_WEIGHT) < CUP_DETECTION_TOLERANCE {
        cupWeightEmpty := scaleWeight;
        scaleStatus := Grinding;
        startedGrindingAt := now;
        grinderActive := true;
        return;
      }
    }

    /** The Grinding branch of a tick; each `return` is the loop's `continue`. */
    method TickGrinding(now: nat)
      requires scaleStatus == Grinding && startedGrindingAt <= now
      modifies this
      ensures Snapshot() == DecideGrinding(old(Snapshot()), now)
    {
      if !scaleReady {
        grinderActive := false;
        scaleStatus := Failed;
      }
      if now - startedGrindingAt > MAX_GRINDING_TIME {
        grinderActive := false;
        scaleStatus := Failed;
        return;
      }
      if now - startedGrindingAt == STALL_WINDOW {
        weightAtStart := scaleWeight;
      }
      if now - startedGrindingAt > STALL_WINDOW && scaleWeight - weightAtStart < MIN_STALL_PROGRESS {
        grinderActive := false;
        scaleStatus := Failed;
        return;
      }
      if scaleWeight < cupWeightEmpty - CUP_DETECTION_TOLERANCE {
        grinderActive := false;
        scaleStatus := Failed;
        return;
      }
      if scaleWeight >= cupWeightEmpty + COFFEE_DOSE_WEIGHT {
        finishedGrindingAt := now;
        grinderActive := false;
        scaleStatus := Finished;
        return;
      }
    }
  }

  /** A status tick keeps the safety invariant: in particular the actuator
      stays on exactly while the status is Grinding. */
  lemma StepKeepsSafe(g: Globals, now: nat)
    requires ClockOk(g, now)
    ensures Safe(g) ==> Safe(Step(g, now))
  {
  }
}
