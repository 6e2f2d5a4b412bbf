// Build-time configuration of the grinder scale: the published status codes
// and the weight and time thresholds the decision loop compares against.

module ScaleConfig {

  /** The grind state machine's discriminant. */
  datatype Status = Empty | Grinding | Finished | Failed

  const STATUS_EMPTY: int := 0
  const STATUS_GRINDING_IN_PROGRESS: int := 1
  const STATUS_GRINDING_FINISHED: int := 2
  const STATUS_GRINDING_FAILED: int := 3

  /** The integer a status is published as (what the display compares against). */
  function Code(s: Status): (c: int)
    ensures STATUS_EMPTY <= c <= STATUS_GRINDING_FAILED
    ensures c == STATUS_EMPTY <==> s == Empty
    ensures c == STATUS_GRINDING_IN_PROGRESS <==> s == Grinding
    ensures c == STATUS_GRINDING_FINISHED <==> s == Finished
    ensures c == STATUS_GRINDING_FAILED <==> s == Failed
  {
    match s
    case Empty => STATUS_EMPTY
    case Grinding => STATUS_GRINDING_IN_PROGRESS
    case Finished => STATUS_GRINDING_FINISHED
    case Failed => STATUS_GRINDING_FAILED
  }

  /** The status an integer code stands for, if it is one of the four codes. */
  function FromCode(c: int): (r: Status)
    requires STATUS_EMPTY <= c <= STATUS_GRINDING_FAILED
    ensures Code(r) == c
  {
    if c == STATUS_EMPTY then Empty
    else if c == STATUS_GRINDING_IN_PROGRESS then Grinding
    else if c == STATUS_GRINDING_FINISHED then Finished
    else Failed
  }

  /** Distinct statuses are published as distinct codes, and decoding inverts encoding. */
  lemma CodesDistinct(a: Status, b: Status)
    ensures Code(a) == Code(b) <==> a == b
    ensures FromCode(Code(a)) == a
  {
  }

  // Weights are in grams, times in milliseconds.

  /** Weight of the empty cup the scale looks for. */
  const CUP_WEIGHT: real := 20.2
  /** How far from CUP_WEIGHT a reading may be and still count as the cup;
      also the drop below the empty cup that counts as "cup removed". */
  const CUP_DETECTION_TOLERANCE: real := 5.0
  /** Number of samples the sensor driver averages when taring. */
  const TARE_MEASURES: nat := 20
  /** A change of more than this between two decision ticks is "significant". */
  const SIGNIFICANT_WEIGHT_CHANGE: real := 5.0
  /** Coffee to grind into the cup, on top of the empty cup's weight. */
  const COFFEE_DOSE_WEIGHT: real := 18.0
  /** Longest a grind may run before it is declared failed. */
  const MAX_GRINDING_TIME: nat := 20000
  /** Weight (pressing on the scale) that clears a failed grind. */
  const GRINDING_FAILED_WEIGHT_TO_RESET: real := 500.0
  /** Shortest time between a tare and the next automatic tare request. */
  const TARE_MIN_INTERVAL: nat := 10 * 1000
}
