# Sliding-window aggregator of opendlv-test-actuation

This is a Dafny model of the telemetry core of the `opendlv-test-actuation` microservice.
The service listens to two signals: ground steering requests and pedal position requests.
Each message carries a sender stamp. Stamp 0 is the recorded (ground-truth) stream, stamp 1
is the test (model) stream, and any other stamp is ignored. For each (signal, stamp) pair the
service keeps a window of the ten most recent samples. Every window starts as ten zeros. A new
sample is pushed at the back of its window, and the front is popped once the window holds more
than ten samples. A periodic callback copies all four windows and averages each copy with a
running sum divided by the copy's size. It then writes the four means in the order recorded
steering, test steering, recorded pedal, test pedal.

Files:

- `window.dfy` (module `SlidingWindow`): the capacity, the update step `Pushed`, the reference
  meaning `Newest` (the newest ten samples of everything a window has received), the `Window`
  class (one list, updated in place by `Append`), and the lemmas tying the step to the
  reference meaning.
- `mean.dfy` (module `Stats`): `Sum` (accumulated first element first, as in the source's
  loop), `Mean`, the averaging loop `Average`, and lemmas about means.
- `actuation.dfy` (modules `Actuation` and `Scenario`): the `Aggregator` class, which holds the
  four windows and has the two message handlers, the snapshot and the periodic report, plus an
  end-to-end client scenario.

Floats are modelled as `real`. The sender stamp is an unsigned 32-bit integer (`uint32`).

The update step, `push_back` followed by `if (size() > 10) pop_front()` (lines 46-49), pops at
most one element. A window that already held more than ten samples would therefore keep its
length and not shrink back to ten. Every window starts at exactly ten samples (lines 26-29), so
this cannot arise. `Pushed` models the code as written. `Aggregator.Valid`, which every handler
preserves, and `WindowAfter` prove that the length stays exactly 10.

## Model

| member | source | states |
|---|---|---|
| SlidingWindow.Repeat | src/opendlv-test-actuation.cpp:26-29 | a list built from (count, value) has exactly `count` elements, each equal to `value` |
| SlidingWindow.Pushed | src/opendlv-test-actuation.cpp:46-49 | push then conditional pop: below capacity the sample is simply appended; at or above capacity the oldest element is dropped and the sample appended (FIFO, `[a1..a10] -> [a2..a10, v]`); a window of at most 10 stays at most 10, and one of exactly 10 stays at exactly 10 |
| SlidingWindow.PushedKeepsNewest | src/opendlv-test-actuation.cpp:46-49 | one step applied to the newest 10 samples of a history gives the newest 10 samples of that history extended by the new sample |
| SlidingWindow.AppendAllKeepsNewest | src/opendlv-test-actuation.cpp:46-49 | any run of steps keeps a window equal to the newest 10 samples of its whole history, so the steps never lose or reorder a sample that is still in range |
| SlidingWindow.AppendAllSnoc | src/opendlv-test-actuation.cpp:46-49 | receiving one more sample after a run amounts to one more push/pop step |
| SlidingWindow.WindowAfter | src/opendlv-test-actuation.cpp:26-49 | starting from ten zeros, after any sequence of samples the window has exactly 10 elements: the newest 10 of the zeros followed by the samples |
| SlidingWindow.FilledWith | src/opendlv-test-actuation.cpp:46-49 | ten appends of `v` to any window of at most 10 elements leave it holding ten copies of `v` |
| SlidingWindow.Window.Filled | src/opendlv-test-actuation.cpp:26-29 | a new list holds `count` copies of `value` |
| SlidingWindow.Window.Append | src/opendlv-test-actuation.cpp:46-49 | the list's new contents are one push/pop step applied to its old contents |
| Stats.Mean | src/opendlv-test-actuation.cpp:106 | the mean of a non-empty copy, multiplied by the copy's size, is the copy's sum |
| Stats.Average | src/opendlv-test-actuation.cpp:102-106 | the accumulation loop followed by the division yields exactly the mean of the copy |
| Stats.SumFront | src/opendlv-test-actuation.cpp:103-105 | splitting off the first element gives the same total as the running sum, which splits off the last: `Sum(s) == s[0] + Sum(s[1..])` for every non-empty `s` |
| Stats.SumOrderIrrelevant | src/opendlv-test-actuation.cpp:103-105 | the sum accumulated last element first equals the source's first-to-last running sum, for every sequence, so the accumulation order does not change the total over the reals |
| Stats.SumConcat | src/opendlv-test-actuation.cpp:103-105 | the running sum of a concatenation is the sum of the parts' running sums |
| Stats.SumRepeat | src/opendlv-test-actuation.cpp:103-105 | the running sum of `n` copies of `v` is `n * v` |
| Stats.MeanRepeat | src/opendlv-test-actuation.cpp:102-106 | a non-empty copy whose samples all equal `v` has mean `v` |
| Stats.SumBounds | src/opendlv-test-actuation.cpp:103-105 | if every sample lies in `[lo, hi]`, the sum lies in `[n*lo, n*hi]` |
| Stats.MeanBounds | src/opendlv-test-actuation.cpp:102-106 | if every sample lies in `[lo, hi]`, the mean also lies in `[lo, hi]` |
| Stats.MeanExample | src/opendlv-test-actuation.cpp:102-106 | the window `[1,2,3,4,5,0,0,0,0,0]` has mean 1.5 |
| Stats.FilledMean | src/opendlv-test-actuation.cpp:46-124 | after ten appends of `v`, a window of at most 10 elements is all `v` and its mean is `v` |
| Actuation.Aggregator.constructor | src/opendlv-test-actuation.cpp:26-29 | the four windows are distinct new lists, each holding exactly ten zeros |
| Actuation.Aggregator.OnGroundSteeringRequest | src/opendlv-test-actuation.cpp:36-57 | stamp 0 applies one step to the recorded steering window only; stamp 1 applies it to the test steering window only; any other stamp changes nothing; the pedal windows are never changed; every window still holds exactly 10 samples |
| Actuation.Aggregator.OnPedalPositionRequest | src/opendlv-test-actuation.cpp:59-80 | stamp 0 applies one step to the recorded pedal window only; stamp 1 applies it to the test pedal window only; any other stamp changes nothing; the steering windows are never changed; every window still holds exactly 10 samples |
| Actuation.Aggregator.Snapshot | src/opendlv-test-actuation.cpp:96-99 | each copy equals its window's contents, oldest first, and has exactly 10 elements, so no later division is by zero |
| Actuation.Aggregator.OnFrequency | src/opendlv-test-actuation.cpp:89-130 | the report holds the means of recorded steering, test steering, recorded pedal and test pedal, in that order, and the callback asks to stay scheduled |
| Scenario.TenSamplesEach | src/opendlv-test-actuation.cpp:26-129 | from fresh windows, ten samples of 0.5/0.2 steering (stamps 0/1) and 0.8/0.1 pedal (stamps 0/1) make the next report read 0.5, 0.2, 0.8, 0.1 |

## Left out

- Mutexes and lock ordering (lines 31-34, 45, 51, 68, 74, 91-94): each handler and the copy
  step of the report are modelled as one atomic step. The copy holds all four locks at once
  (taken at lines 91-94, released at line 100), so this matches the source: the four copies
  belong to one single moment. Interleavings of handlers and deadlock freedom are not modelled.
- Transport and decoding: the `cluon::OD4Session`, trigger registration (lines 24, 133-135) and
  `cluon::extractMessage` (lines 41, 64) are foreign library calls. The handlers take the sender
  stamp and the decoded value as parameters.
- Command-line parsing of `cid` and `freq` (lines 17-24), including the "Bad arguments" exit
  path: this is process plumbing outside the aggregator.
- The clock and the elapsed-time column (lines 82, 126-127): they read an external time source.
  The `Report` holds the four means and no time column.
- The CSV header and line formatting on standard output (lines 83, 129): this is output I/O.
  The report is modelled as an ordered record of four means.
- Floating-point rounding in the sums and the division (lines 102-124): all arithmetic is
  over `real`, and no IEEE-754 behaviour is claimed.
- Stats.Mean: requires a non-empty sequence. The source divides by the copy's size without a
  guard, which would be 0/0 on an empty copy. `Snapshot` proves that every copy has 10 elements,
  so that input never reaches the division.
- Stats.Average: requires a non-empty copy, for the same reason as `Mean`. The 32-bit loop
  counter cannot overflow at size 10, so it is modelled as a plain integer.
