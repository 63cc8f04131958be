# Test controller of the Digital Touch backend, in Dafny

The backend (`gpro/backend/app.py`) runs one timed classification test at a
time. A single in-memory record holds the test's status text, a tick counter,
the running average of the sensor readings, a finished flag, the verdict, the
test parameters and the list of received scans. Four handlers read and update
it:

- **start** wipes the record and installs the classification type
  (`soft_hard` or `fresh_rotten`), the two thresholds, the number of cycles
  and the phase duration;
- **ingest** checks one posted reading (`time`, `tx` and a list of numbers
  `rx`) and appends it to the scans;
- **stop** forces the finished state;
- **poll** (the status read) is the clock. While the test is unfinished, each
  poll takes one tick, recomputes the mean of every individual rx value, works
  out the Touch/Untouch phase, and once `cycles * 2 * duration` ticks have
  passed marks the test finished and computes the verdict.

The model has one module per component:

- `Wrappers` (wrappers.dfy): `Option` and `Result`.
- `Ingest` (ingest.dfy): decoded JSON values, the `Scan` record, and the
  ingest handler's checks as the function `Check`.
- `Aggregate` (aggregate.dfy): the flattened readings, their sum and the
  average.
- `PhaseClock` (phase_clock.dfy): Python's floor modulo, the phase of a tick,
  the total tick count and the one-poll step of the tick counter.
- `Classifier` (classifier.dfy): the strict-threshold verdict.
- `Controller` (controller.dfy): the record as a class `Session`, whose
  handlers are methods that update its fields in place. `Valid()` states how
  status, flags and parameters hang together. Every handler keeps it.
- `Scenarios` (scenarios.dfy): whole runs written as clients of the handlers,
  proved from the handlers' contracts.

The status text is a datatype (`Waiting`, `Started`, `Running(phase, type)`,
`Completed`, `NoData`, `Stopped`) rather than a formatted string. The verdict
strings and the type names are the source's own constants.

Where the code crashes, the model follows the code. A crashing poll is a
`Fault` result, not a precondition, because Flask answers 500 and the process
goes on with whatever the handler had already written:

- A poll before any start raises a KeyError at line 106. By then it has
  already taken its tick and recomputed the average.
- A poll with duration 0 raises ZeroDivisionError at line 99, after the same
  two writes.
- A start without a classification type raises at line 60, before any write.

Some behaviour of the handlers worth knowing:

- Nothing rejects a duration or cycle count below 1. A negative duration goes
  through Python's floor modulo, which is modelled explicitly (`FloorMod`).
  With a non-zero duration, a total of zero or fewer ticks finishes the test
  on the first poll; with duration 0 every poll faults and the test never
  finishes.
- An empty `rx` list is accepted.
- A boolean inside `rx` passes the number check, because Python's `bool` is
  an `int`. It counts as 1 or 0 in the sum.
- Stop works in any state, also before a start.
- Ingest takes exactly one scan per request, as a JSON object with `time`,
  `tx` and `rx`.
- Scans whose `rx` lists are all empty still lead to a verdict, computed from
  an average of 0. "No Result" comes only when no scan at all was stored.

## Model

| member | source | states |
|---|---|---|
| `Controller.Session.constructor` | gpro/backend/app.py:13-21 | the process starts Waiting, with tick 0, average 0, not finished, empty result, no parameters and no scans |
| `Controller.Session.Ingest` | gpro/backend/app.py:35-49 | an accepted payload appends exactly the checked scan at the end of the scans; a refused one leaves the scans unchanged; status, tick, average, finished, result and parameters are never touched |
| `Controller.Session.Start` | gpro/backend/app.py:52-73 | with a type: status Started, tick 0, average 0, not finished, result "", no scans, and exactly the given type, thresholds, cycles and duration installed; without a type (the crash at line 60) nothing changes |
| `Controller.Session.Stop` | gpro/backend/app.py:76-79 | finished with status Stopped; tick, average, result, parameters and scans unchanged, so no verdict is computed |
| `Controller.Session.Poll` | gpro/backend/app.py:82-146 | on a finished session it changes nothing and reports the same snapshot; otherwise it ticks exactly once and sets the average of all readings; it faults exactly when no start installed parameters (KeyError) or the duration is 0 (division by zero), keeping the tick and average but changing nothing else; on success, tick and finished follow `Step` for the test's total ticks; an unfinished test shows the phase of the new tick; a finished one carries the classifier's verdict with status Completed when scans exist, else "No Result" with the no-data status |
| `Ingest.Check` | gpro/backend/app.py:37-48 | refused as missing exactly when the body is absent or lacks one of time, tx, rx; accepted exactly when, besides, rx is a list whose every element is a number; the accepted scan keeps time and tx as sent and the rx values in order |
| `Ingest.Numbers` | gpro/backend/app.py:41 | succeeds exactly when every element is an int, float or bool, and then gives their numeric values element by element |
| `Ingest.CheckEncode` | gpro/backend/app.py:37-48 | every scan a device can send as time, tx and a list of numbers is accepted and stored exactly as sent |
| `Ingest.RejectNonNumber` | gpro/backend/app.py:41-42 | when time, tx and rx are present and rx is a list, a non-numeric element at any position of rx makes the payload refused for bad readings |
| `Aggregate.Readings` | gpro/backend/app.py:91 | every flattened reading comes from the rx list of one of the scans |
| `Aggregate.ReadingsContain` | gpro/backend/app.py:91 | every reading of every scan appears in the flattened readings, as often as it appears in that scan's rx |
| `Aggregate.SumAppend` | gpro/backend/app.py:92 | the sum of two lists of readings joined is the sum of their sums |
| `Aggregate.Average` | gpro/backend/app.py:88-94 | the average is 0 when no reading exists, else average times the reading count equals the sum of all readings of all scans |
| `Aggregate.ReadingsSnoc` | gpro/backend/app.py:44-48 | storing a scan appends its readings at the end of the flattened readings |
| `Aggregate.EmptyReadingsAverageZero` | gpro/backend/app.py:89-94 | scans whose rx lists are all empty contribute no reading and average to 0 |
| `Aggregate.SumPermutation` | gpro/backend/app.py:92 | the sum of the readings depends only on their multiset |
| `Aggregate.ReadingsPermutation` | gpro/backend/app.py:91 | reordering the scans does not change the multiset of flattened readings |
| `Aggregate.AverageOrderIndependent` | gpro/backend/app.py:91-92 | the average does not depend on the order in which the scans arrived |
| `Aggregate.AverageBounds` | gpro/backend/app.py:92 | if there is a reading and every reading lies in [lo, hi], the average lies in [lo, hi] |
| `PhaseClock.FloorMod` | gpro/backend/app.py:99 | Python's modulo: the remainder lies between 0 and the divisor, on the divisor's side, and the value equals floor quotient times divisor plus remainder |
| `PhaseClock.PhaseAt` | gpro/backend/app.py:98-103 | for a positive duration, the phase is Touch exactly when the tick's position within a touch-plus-untouch cycle is below the duration |
| `PhaseClock.TotalTicks` | gpro/backend/app.py:110-111 | the total is positive exactly when cycles and duration are both positive or both negative, and it is a whole number of cycles (remainder 0 modulo twice the duration) |
| `PhaseClock.Step` | gpro/backend/app.py:83-114 | one poll: a finished test keeps its tick and stays finished; an unfinished one always takes its tick, also on the poll that finishes it, and becomes finished exactly when the new tick reaches the total |
| `PhaseClock.Steps` | gpro/backend/app.py:83-114 | after n polls from start the tick is at most n; a finished test has reached the total and taken at least one tick; an unfinished one has taken exactly n ticks |
| `PhaseClock.FloorModShift` | gpro/backend/app.py:99 | adding whole multiples of the divisor leaves the remainder unchanged |
| `PhaseClock.PhasePeriodic` | gpro/backend/app.py:98-103 | the phase repeats with period twice the duration, for every non-zero duration |
| `PhaseClock.PhaseWithinCycle` | gpro/backend/app.py:98-103 | for a positive duration, in every cycle the first `duration` ticks are Touch and the next `duration` are Untouch |
| `PhaseClock.StepsFromStart` | gpro/backend/app.py:83-114 | after n polls from start, the tick is n capped at the total ticks (at least 1 once polled), and the test is finished exactly when n is positive and at least the total |
| `PhaseClock.StepsStayFinished` | gpro/backend/app.py:83-114 | once finished, later polls change neither the flag nor the tick |
| `Classifier.Classify` | gpro/backend/app.py:115-132 | fresh_rotten gives Rotten exactly when the average is strictly above the fresh threshold, else Fresh; soft_hard gives Hard exactly when it is strictly above the soft threshold, else Soft; any other type gives the unknown-type label |
| `Classifier.MeanAbove` | gpro/backend/app.py:122-127 | with a positive count, the mean exceeds an integer threshold exactly when the sum exceeds threshold times count |
| `Classifier.ClassifyMeanByTotals` | gpro/backend/app.py:116-132 | classifying the mean equals classifying by comparing the reading sum with threshold times count, for every type |
| `Classifier.TiesGoLow` | gpro/backend/app.py:121-130 | an average equal to the threshold gives Fresh and Soft |
| `Classifier.ClassifyMonotone` | gpro/backend/app.py:121-130 | raising the average never turns Rotten into Fresh or Hard into Soft |
| `Scenarios.HardnessTest` | gpro/backend/app.py:52-146 | a soft_hard test of one cycle of two-tick phases, threshold 100 and four scans averaging 150 finishes on the fourth poll as Hard with average 150 |
| `Scenarios.StopRightAway` | gpro/backend/app.py:76-83 | stopping right after start finishes with status Stopped, tick 0 and no verdict, and two polls then report the same snapshot |
| `Scenarios.NoScans` | gpro/backend/app.py:113-138 | a one-cycle test of one-tick phases with no scan ends on the second poll with the no-data status and "No Result" |
| `Scenarios.RefusedPayload` | gpro/backend/app.py:40-44 | a payload whose rx holds a string is refused and the stored scan stays the only one |
| `Scenarios.PollTimes` | gpro/backend/app.py:52-114 | starting a test and polling it n times leaves the tick at n capped at the total ticks (at least 1 once polled) and finished exactly when n is positive and reaches the total; with duration 0, where each poll faults after taking its tick, the tick is n and the test never finishes |
| `Scenarios.PollBeforeStart` | gpro/backend/app.py:83-106 | a poll before any start faults on the missing type yet leaves its tick counted |

## Left out

- HTTP routing, JSON request and response marshalling, static page serving and CORS (lines 1-32, 214-228): transport with no logic. Handler inputs are the decoded request values and outputs are datatypes.
- `plot_img` and `download_csv` (lines 148-212): chart and CSV rendering through pandas and matplotlib, foreign libraries. Both answer 404 on an empty scan list; that refusal is not modelled either.
- Controller.Session.Poll: the snapshot carries the exact average, not `round(average, 2)` (line 143), because floating-point rounding is not modelled.
- Floating point in general: readings and the average are exact reals, so float rounding, NaN and infinities are not modelled.
- The `int(...)` parsing of the start options and their defaults 3, 5, 350 and 750 (lines 55-58): Start takes the parsed integers. A value `int()` rejects raises before any write, just as a missing type does, but the model has no input for it.
- Controller.Session.Start: a missing type and a type that is not a string both appear as `None`; both raise at line 60 before any write.
- The title-case display of the type in the status text (lines 60 and 106): the status is a datatype that keeps the raw type string.
- Ingest bodies that are JSON but not objects (a list or a string, where Python's `in` checks elements or substrings): Ingest takes an object or nothing.
- A boolean in `rx` is stored as its numeric value 1 or 0; the source stores the boolean itself, which sums the same way.
- Concurrency between the ingest and poll handlers: each handler is one atomic method on one session.
- gpro/frontend/script.js: the browser UI that polls once a second. Each poll is one tick whatever the real time between polls.
