/**
 * Runs of the session written as clients of its handlers: what a caller can
 * conclude from the handlers' contracts alone.
 */
module Scenarios {
  import opened Wrappers
  import opened Ingest
  import opened Aggregate
  import opened PhaseClock
  import opened Classifier
  import opened Controller

  /**
   * A hardness test of one cycle of two-tick phases with threshold 100:
   * four scans averaging 150, four polls, and the fourth finishes as Hard.
   */
  method HardnessTest() returns (last: Result<Snapshot, Fault>)
    ensures last == Ok(Snapshot(Completed, 4, 150.0, true, HARD))
  {
    var s := new Session();
    var ok := s.Start(Some(SOFT_HARD), 1, 2, 100, 750);
    var scan := Scan(JNum(0.0), JNum(0.0), [100.0, 200.0]);
    var r := s.Ingest(Some(Encode(scan)));
    CheckEncode(scan);
    r := s.Ingest(Some(Encode(scan)));
    r := s.Ingest(Some(Encode(scan)));
    r := s.Ingest(Some(Encode(scan)));
    assert s.data == [scan, scan, scan, scan];
    AverageOfCopies(scan, s.data);
    var p := s.Poll();
    assert p.Ok? && p.value.status == Running(Touch, SOFT_HARD);
    p := s.Poll();
    assert p.Ok? && p.value.status == Running(Untouch, SOFT_HARD);
    p := s.Poll();
    assert p.Ok? && p.value.status == Running(Untouch, SOFT_HARD);
    last := s.Poll();
  }

  /** Four copies of the scan [100, 200] average to 150. */
  lemma AverageOfCopies(scan: Scan, scans: seq<Scan>)
    requires scan.rx == [100.0, 200.0] && scans == [scan, scan, scan, scan]
    ensures Average(scans) == 150.0
  {
    var rx := scan.rx;
    ReadingsSnoc([], scan);
    ReadingsSnoc([scan], scan);
    ReadingsSnoc([scan, scan], scan);
    ReadingsSnoc([scan, scan, scan], scan);
    assert [scan] == [] + [scan];
    assert [scan, scan] == [scan] + [scan];
    assert [scan, scan, scan] == [scan, scan] + [scan];
    assert scans == [scan, scan, scan] + [scan];
    assert Readings(scans) == rx + rx + rx + rx;
    SumAppend(rx + rx + rx, rx);
    SumAppend(rx + rx, rx);
    SumAppend(rx, rx);
    assert Sum(rx) == 300.0;
  }

  /** Stopping right after start finishes the test without a verdict, and polls then report the same. */
  method StopRightAway() returns (first: Result<Snapshot, Fault>, second: Result<Snapshot, Fault>)
    ensures first == second == Ok(Snapshot(Stopped, 0, 0.0, true, ""))
  {
    var s := new Session();
    var ok := s.Start(Some(FRESH_ROTTEN), 3, 5, 350, 750);
    s.Stop();
    first := s.Poll();
    second := s.Poll();
  }

  /** A test that receives no scan ends with the no-data status and "No Result". */
  method NoScans() returns (last: Result<Snapshot, Fault>)
    ensures last == Ok(Snapshot(NoData, 2, 0.0, true, NO_RESULT))
  {
    var s := new Session();
    var ok := s.Start(Some(FRESH_ROTTEN), 1, 1, 350, 750);
    var p := s.Poll();
    last := s.Poll();
  }

  /** A malformed payload is refused and the stored scans stay as they were. */
  method RefusedPayload() returns (r: Result<Scan, IngestError>, stored: seq<Scan>)
    ensures r == Err(BadReadings) && stored == [Scan(JNum(1.0), JNum(0.0), [5.0])]
  {
    var s := new Session();
    var ok := s.Start(Some(SOFT_HARD), 3, 5, 350, 750);
    var good := Encode(Scan(JNum(1.0), JNum(0.0), [5.0]));
    r := s.Ingest(Some(good));
    assert r.Ok? && |r.value.rx| == 1 && r.value.rx[0] == 5.0;
    assert r.value.rx == [5.0] && r.value.time == JNum(1.0) && r.value.tx == JNum(0.0);
    assert s.data == [Scan(JNum(1.0), JNum(0.0), [5.0])];
    var bad := JArray([JNum(1.0), JStr("x")]);
    assert !IsNumber(bad.items[1]);
    r := s.Ingest(Some(good[RX_KEY := bad]));
    stored := s.data;
  }

  /** Polling before any start raises, yet the tick it had taken stays counted. */
  method PollBeforeStart() returns (r: Result<Snapshot, Fault>, elapsed: nat)
    ensures r == Err(NoTestType) && elapsed == 1
  {
    var s := new Session();
    r := s.Poll();
    elapsed := s.elapsed;
  }

  /**
   * n polls after a start: the session's tick and flag are those of `Steps`,
   * so the tick is n capped at the total and the test finishes exactly from
   * the poll that reaches it. With a zero duration every poll faults, ticks,
   * and never finishes.
   */
  method PollTimes(cycles: int, duration: int, n: nat) returns (elapsed: nat, finished: bool)
    ensures duration != 0 ==>
      && elapsed == (if n == 0 then 0 else Min(n, Max(TotalTicks(cycles, duration), 1)))
      && (finished <==> n > 0 && n >= TotalTicks(cycles, duration))
    ensures duration == 0 ==> elapsed == n && !finished
  {
    var s := new Session();
    var ok := s.Start(Some(FRESH_ROTTEN), cycles, duration, 350, 750);
    var total := TotalTicks(cycles, duration);
    var i := 0;
    while i < n
      invariant 0 <= i <= n
      invariant s.Valid()
      invariant s.params == Some(Params(FRESH_ROTTEN, 350, 750, cycles, duration))
      invariant duration != 0 ==> (s.elapsed, s.finished) == Steps(i, total)
      invariant duration == 0 ==> s.elapsed == i && !s.finished
    {
      var r := s.Poll();
      i := i + 1;
    }
    StepsFromStart(n, total);
    elapsed, finished := s.elapsed, s.finished;
  }
}
