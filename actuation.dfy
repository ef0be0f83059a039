/** The actuation tester's aggregator: four windows keyed by signal
    (ground steering, pedal position) and sender stamp (0 for the recorded
    stream, 1 for the test/model stream), two message handlers that route a
    sample into one of them, and the periodic callback that copies all four
    and reports their means. */
module Actuation {
  import opened SlidingWindow
  import opened Stats

  /** The unsigned 32-bit sender stamp carried by every envelope. */
  newtype uint32 = x: int | 0 <= x < 0x1_0000_0000

  /** Stamp of the recorded (ground-truth) producer. */
  const RecordedStamp: uint32 := 0
  /** Stamp of the test (model) producer. */
  const TestStamp: uint32 := 1

  /** The four copies taken by one report, in the order they are taken. */
  datatype Copies = Copies(
    recSteering: seq<real>,
    recPedal: seq<real>,
    testSteering: seq<real>,
    testPedal: seq<real>)

  /** One report line without its time column, in the order it is written. */
  datatype Report = Report(
    recSteeringAvg: real,
    testSteeringAvg: real,
    recPedalAvg: real,
    testPedalAvg: real)

  class Aggregator {
    const recSteering: Window
    const recPedal: Window
    const testSteering: Window
    const testPedal: Window

    /** The four windows are distinct lists, and each holds exactly `Capacity` samples. */
    ghost predicate Valid()
      reads recSteering, recPedal, testSteering, testPedal
    {
      recSteering != recPedal && recSteering != testSteering && recSteering != testPedal &&
      recPedal != testSteering && recPedal != testPedal &&
      testSteering != testPedal &&
      |recSteering.samples| == Capacity && |recPedal.samples| == Capacity &&
      |testSteering.samples| == Capacity && |testPedal.samples| == Capacity
    }

    /** Every window starts as `Capacity` zeros. */
    constructor ()
      ensures Valid()
      ensures fresh(recSteering) && fresh(recPedal) && fresh(testSteering) && fresh(testPedal)
      ensures recSteering.samples == Repeat(0.0, Capacity)
      ensures recPedal.samples == Repeat(0.0, Capacity)
      ensures testSteering.samples == Repeat(0.0, Capacity)
      ensures testPedal.samples == Repeat(0.0, Capacity)
    {
      recSteering := new Window.Filled(Capacity, 0.0);
      recPedal := new Window.Filled(Capacity, 0.0);
      testSteering := new Window.Filled(Capacity, 0.0);
      testPedal := new Window.Filled(Capacity, 0.0);
    }

    /** A ground steering request: stamp 0 appends to the recorded steering
        window, stamp 1 to the test steering window, any other stamp is dropped.
        The pedal windows are never touched. */
    method OnGroundSteeringRequest(senderStamp: uint32, groundSteering: real)
      requires Valid()
      modifies recSteering, testSteering
      ensures Valid()
      ensures recSteering.samples ==
        if senderStamp == RecordedStamp then Pushed(old(recSteering.samples), groundSteering)
        else old(recSteering.samples)
      ensures testSteering.samples ==
        if senderStamp == TestStamp then Pushed(old(testSteering.samples), groundSteering)
        else old(testSteering.samples)
      ensures unchanged(recPedal) && unchanged(testPedal)
    {
      if senderStamp == RecordedStamp {
        recSteering.Append(groundSteering);
      } else if senderStamp == TestStamp {
        testSteering.Append(groundSteering);
      }
    }

    /** A pedal position request: stamp 0 appends to the recorded pedal
        window, stamp 1 to the test pedal window, any other stamp is dropped.
        The steering windows are never touched. */
    method OnPedalPositionRequest(senderStamp: uint32, position: real)
      requires Valid()
      modifies recPedal, testPedal
      ensures Valid()
      ensures recPedal.samples ==
        if senderStamp == RecordedStamp then Pushed(old(recPedal.samples), position)
        else old(recPedal.samples)
      ensures testPedal.samples ==
        if senderStamp == TestStamp then Pushed(old(testPedal.samples), position)
        else old(testPedal.samples)
      ensures unchanged(recSteering) && unchanged(testSteering)
    {
      if senderStamp == RecordedStamp {
        recPedal.Append(position);
      } else if senderStamp == TestStamp {
        testPedal.Append(position);
      }
    }

    /** Copy all four windows, oldest sample first; every copy has
        `Capacity` elements, so none is empty. */
    method Snapshot() returns (copies: Copies)
      requires Valid()
      ensures copies.recSteering == recSteering.samples
      ensures copies.recPedal == recPedal.samples
      ensures copies.testSteering == testSteering.samples
      ensures copies.testPedal == testPedal.samples
      ensures |copies.recSteering| == |copies.recPedal| == Capacity
      ensures |copies.testSteering| == |copies.testPedal| == Capacity
    {
      copies := Copies(recSteering.samples, recPedal.samples, testSteering.samples, testPedal.samples);
    }

    /** The periodic callback: snapshot, average each copy, report the means
        as recorded steering, test steering, recorded pedal, test pedal, and
        ask to stay scheduled. */
    method OnFrequency() returns (report: Report, keepScheduling: bool)
      requires Valid()
      ensures report.recSteeringAvg == Mean(recSteering.samples)
      ensures report.testSteeringAvg == Mean(testSteering.samples)
      ensures report.recPedalAvg == Mean(recPedal.samples)
      ensures report.testPedalAvg == Mean(testPedal.samples)
      ensures keepScheduling
    {
      var copies := Snapshot();
      var recSteeringAvg := Average(copies.recSteering);
      var testSteeringAvg := Average(copies.testSteering);
      var recPedalAvg := Average(copies.recPedal);
      var testPedalAvg := Average(copies.testPedal);
      report := Report(recSteeringAvg, testSteeringAvg, recPedalAvg, testPedalAvg);
      keepScheduling := true;
    }
  }
}

/** The end-to-end scenario of the aggregator, written as a client of it. */
module Scenario {
  import opened SlidingWindow
  import opened Stats
  import opened Actuation

  /** From four zeroed windows, ten samples on every (signal, stamp) pair
      (steering 0.5 recorded and 0.2 test, pedal 0.8 recorded and 0.1 test)
      make the next report read 0.5, 0.2, 0.8, 0.1. */
  method TenSamplesEach() returns (report: Report)
    ensures report == Report(0.5, 0.2, 0.8, 0.1)
  {
    var agg := new Aggregator();
    var zeros := Repeat(0.0, Capacity);
    for i := 0 to Capacity
      invariant agg.Valid()
      invariant fresh(agg.recSteering) && fresh(agg.recPedal)
      invariant fresh(agg.testSteering) && fresh(agg.testPedal)
      invariant agg.recSteering.samples == AppendAll(zeros, Repeat(0.5, i))
      invariant agg.testSteering.samples == AppendAll(zeros, Repeat(0.2, i))
      invariant agg.recPedal.samples == AppendAll(zeros, Repeat(0.8, i))
      invariant agg.testPedal.samples == AppendAll(zeros, Repeat(0.1, i))
    {
      AppendAllSnoc(zeros, Repeat(0.5, i), 0.5);
      AppendAllSnoc(zeros, Repeat(0.2, i), 0.2);
      AppendAllSnoc(zeros, Repeat(0.8, i), 0.8);
      AppendAllSnoc(zeros, Repeat(0.1, i), 0.1);
      agg.OnGroundSteeringRequest(RecordedStamp, 0.5);
      agg.OnGroundSteeringRequest(TestStamp, 0.2);
      agg.OnPedalPositionRequest(RecordedStamp, 0.8);
      agg.OnPedalPositionRequest(TestStamp, 0.1);
    }
    FilledMean(zeros, 0.5);
    FilledMean(zeros, 0.2);
    FilledMean(zeros, 0.8);
    FilledMean(zeros, 0.1);
    var keepScheduling;
    report, keepScheduling := agg.OnFrequency();
  }
}
