/**
 * The single, process-wide test session of gpro/backend/app.py (the
 * `status_data` record) and the four handlers that update it: start,
 * sensor ingestion, stop, and the status poll that drives the clock.
 */
module Controller {
  import opened Wrappers
  import opened Ingest
  import opened Aggregate
  import opened PhaseClock
  import opened Classifier

  /** The parameters installed by start, after the handler's integer parsing. */
  datatype Params = Params(kind: string, softThreshold: int, freshThreshold: int, cycles: int, duration: int)

  /** The status text, without its display formatting. */
  datatype Status =
    | Waiting                              // "Waiting...", before any start
    | Started(kind: string)                // "Running <type> Test...", set by start
    | Running(phase: Phase, kind: string)  // "<phase> Phase | Running <type> Test...", set by a poll
    | Completed                            // "Test Completed"
    | NoData                               // "No sensor data received. Test could not be completed."
    | Stopped                              // "Stopped by user"

  /** What a poll reports. */
  datatype Snapshot = Snapshot(status: Status, elapsed: nat, average: real, finished: bool, result: string)

  /**
   * A poll that raises part-way: before any start the parameters have no
   * type (a KeyError), and a zero duration makes the modulo divide by zero.
   */
  datatype Fault = NoTestType | ZeroDuration

  /** The phase duration a poll falls back on when no start has installed one. */
  const DEFAULT_DURATION := 5

  predicate IsVerdict(s: string) {
    s == ROTTEN || s == FRESH || s == HARD || s == SOFT || s == UNKNOWN_TYPE
  }

  class Session {
    var status: Status
    var elapsed: nat
    var average: real
    var finished: bool
    var result: string
    var params: Option<Params>
    var data: seq<Scan>

    /** How the status, the flags and the parameters hang together between handler calls. */
    ghost predicate Valid()
      reads this
    {
      && (params.None? ==> status == Waiting || status == Stopped)
      && (status == Waiting ==> params.None? && !finished)
      && (status.Started? ==> !finished && params.Some? && params.value.kind == status.kind)
      && (status.Running? ==>
            && !finished && params.Some? && params.value.kind == status.kind
            && params.value.duration != 0
            && status.phase == PhaseAt(elapsed, params.value.duration)
            && elapsed < TotalTicks(params.value.cycles, params.value.duration))
      && (status == Completed ==> finished && data != [] && IsVerdict(result))
      && (status == NoData ==> finished && result == NO_RESULT)
      && (status == Completed || status == NoData ==>
            params.Some? && elapsed >= TotalTicks(params.value.cycles, params.value.duration))
      && (!finished ==> result == "")
      && (elapsed == 0 ==> average == 0.0)
    }

    function Snap(): Snapshot
      reads this
    {
      Snapshot(status, elapsed, average, finished, result)
    }

    /** The record as the process starts. */
    constructor ()
      ensures Valid()
      ensures status == Waiting && elapsed == 0 && average == 0.0 && !finished
      ensures result == "" && params == None && data == []
    {
      status := Waiting;
      elapsed := 0;
      average := 0.0;
      finished := false;
      result := "";
      params := None;
      data := [];
    }

    /**
     * Sensor ingestion: a valid payload appends exactly one scan at the end;
     * a refused one changes nothing.
     */
    method Ingest(body: Option<map<string, Json>>) returns (r: Result<Scan, IngestError>)
      requires Valid()
      modifies this
      ensures Valid()
      ensures r == Check(body)
      ensures r.Ok? ==> data == old(data) + [r.value]
      ensures r.Err? ==> data == old(data)
      ensures Snap() == old(Snap()) && params == old(params)
    {
      r := Check(body);
      if r.Ok? {
        data := data + [r.value];
      }
    }

    /**
     * Start a test: wipe the previous one and install the parameters. A
     * missing classification type raises before anything is written.
     */
    method Start(kind: Option<string>, cycles: int, duration: int, softThreshold: int, freshThreshold: int)
      returns (ok: bool)
      requires Valid()
      modifies this
      ensures Valid()
      ensures ok <==> kind.Some?
      ensures ok ==>
        && status == Started(kind.value) && elapsed == 0 && average == 0.0 && !finished
        && result == "" && data == []
        && params == Some(Params(kind.value, softThreshold, freshThreshold, cycles, duration))
      ensures !ok ==> Snap() == old(Snap()) && params == old(params) && data == old(data)
    {
      if kind.None? {
        return false;
      }
      status := Started(kind.value);
      elapsed := 0;
      average := 0.0;
      finished := false;
      result := "";
      data := [];
      params := Some(Params(kind.value, softThreshold, freshThreshold, cycles, duration));
      ok := true;
    }

    /** Stop by the user: finished, with no verdict computed and nothing else touched. */
    method Stop()
      requires Valid()
      modifies this
      ensures Valid()
      ensures status == Stopped && finished
      ensures elapsed == old(elapsed) && average == old(average) && result == old(result)
      ensures params == old(params) && data == old(data)
    {
      status := Stopped;
      finished := true;
    }

    /**
     * The status poll. On an unfinished session it ticks once, recomputes
     * the average over all readings, sets the phase, and on reaching the
     * total ticks finishes with a verdict. On a finished session it only
     * reads. A fault leaves the tick and average it had already written.
     */
    method Poll() returns (r: Result<Snapshot, Fault>)
      requires Valid()
      modifies this
      ensures Valid()
      ensures data == old(data) && params == old(params)
      ensures r.Ok? ==> r.value == Snap()
      ensures old(finished) ==> r.Ok? && Snap() == old(Snap())
      ensures !old(finished) ==> elapsed == old(elapsed) + 1 && average == Average(data)
      ensures !old(finished) ==> (r.Ok? <==> params.Some? && params.value.duration != 0)
      ensures !old(finished) ==> (r == Err(NoTestType) <==> params.None?)
      ensures !old(finished) ==> (r == Err(ZeroDuration) <==> params.Some? && params.value.duration == 0)
      ensures !old(finished) && r.Err? ==> !finished && status == old(status) && result == old(result)
      ensures !old(finished) && r.Ok? ==>
        && params.Some? && params.value.duration != 0
        && (elapsed, finished) == Step(old(elapsed), false, TotalTicks(params.value.cycles, params.value.duration))
        && (!finished ==> status == Running(PhaseAt(elapsed, params.value.duration), params.value.kind) && result == "")
        && (finished && data != [] ==>
              status == Completed
              && result == Classify(params.value.kind, params.value.softThreshold, params.value.freshThreshold, average))
        && (finished && data == [] ==> status == NoData && result == NO_RESULT)
    {
      if finished {
        return Ok(Snap());
      }
      elapsed := elapsed + 1;
      average := Average(data);
      var duration := if params.Some? then params.value.duration else DEFAULT_DURATION;
      if duration * 2 == 0 {
        return Err(ZeroDuration);
      }
      var phase := PhaseAt(elapsed, duration);
      if params.None? {
        return Err(NoTestType);
      }
      var p := params.value;
      status := Running(phase, p.kind);
      if elapsed >= TotalTicks(p.cycles, p.duration) {
        finished := true;
        if data != [] {
          status := Completed;
          result := Classify(p.kind, p.softThreshold, p.freshThreshold, average);
        } else {
          status := NoData;
          result := NO_RESULT;
        }
      }
      r := Ok(Snap());
    }
  }
}
