/** The array section of javascript/module6/data_collections.js: the proximity
    check over a row of distance readings, the ADC accumulator, and `push` on
    an array that one or two names share. */
module DataCollections {
  import opened SeqUtil
  import opened Results
  import opened Bindings

  /** The status printed for one proximity reading. */
  datatype Proximity = Warning | Clear

  /** The status of one reading against the danger threshold. */
  function Classify(readingCm: int, dangerThresholdCm: int): Proximity {
    if readingCm < dangerThresholdCm then Warning else Clear
  }

  /** The comparison is strict: a reading equal to the threshold is fine, one
      centimetre less is a warning, and a smaller reading is never judged safer
      than a larger one. */
  lemma ClassifyBoundary(closer: int, farther: int, dangerThresholdCm: int)
    requires closer <= farther
    ensures Classify(dangerThresholdCm, dangerThresholdCm) == Clear
    ensures Classify(dangerThresholdCm - 1, dangerThresholdCm) == Warning
    ensures Classify(farther, dangerThresholdCm) == Warning ==> Classify(closer, dangerThresholdCm) == Warning
    ensures Classify(closer, dangerThresholdCm) == Clear ==> Classify(farther, dangerThresholdCm) == Clear
  {
  }

  /** One line of the proximity loop's output: sensor index, its reading, the status. */
  datatype SensorReport = SensorReport(index: nat, readingCm: int, status: Proximity)

  /** `for (let i = 0; i < readings.length; ++i)`: one report per sensor, in
      index order, each index visited exactly once. */
  method ProximityCheck(readingsCm: seq<int>, dangerThresholdCm: int) returns (reports: seq<SensorReport>)
    ensures |reports| == |readingsCm|
    ensures forall i :: 0 <= i < |reports| ==> reports[i].index == i && reports[i].readingCm == readingsCm[i]
    ensures forall i :: 0 <= i < |reports| ==>
      (reports[i].status == Warning <==> readingsCm[i] < dangerThresholdCm)
  {
    reports := [];
    var i := 0;
    while i < |readingsCm|
      invariant 0 <= i <= |readingsCm|
      invariant |reports| == i
      invariant forall j :: 0 <= j < i ==>
        reports[j] == SensorReport(j, readingsCm[j], Classify(readingsCm[j], dangerThresholdCm))
    {
      var reading := readingsCm[i];
      reports := reports + [SensorReport(i, reading, Classify(reading, dangerThresholdCm))];
      i := i + 1;
    }
  }

  /** `adc_sum = adc_sum + adc_samples[i]` over the whole buffer. */
  method AdcSum(samples: seq<int>) returns (total: int)
    ensures total == Sum(samples)
  {
    total := 0;
    var i := 0;
    while i < |samples|
      invariant 0 <= i <= |samples|
      invariant total == Sum(samples[..i])
    {
      assert samples[..i + 1] == samples[..i] + [samples[i]];
      SumSnoc(samples[..i], samples[i]);
      total := total + samples[i];
      i := i + 1;
    }
    assert samples[..|samples|] == samples;
  }

  /** The script's buffer `[512, 508, 515, 510, 513, 507, 511, 514]`. */
  method AdcScenario() returns (total: int)
    ensures total == 4090
  {
    total := AdcSum([512, 508, 515, 510, 513, 507, 511, 514]);
  }

  /** The script's readings `[42, 31, 18, 55, 60, 27]` against 30 cm: only
      sensors 2 and 5 warn. */
  method ProximityScenario() returns (reports: seq<SensorReport>)
    ensures |reports| == 6
    ensures reports[2].status == Warning && reports[5].status == Warning
    ensures forall i :: 0 <= i < 6 && i != 2 && i != 5 ==> reports[i].status == Clear
  {
    reports := ProximityCheck([42, 31, 18, 55, 60, 27], 30);
  }

  /** Integers as script values, for arrays that live in the binding store. */
  function Nums(xs: seq<int>): (vs: seq<Value>)
    ensures |vs| == |xs|
    ensures forall i :: 0 <= i < |xs| ==> vs[i] == Num(xs[i])
  {
    if |xs| == 0 then [] else [Num(xs[0])] + Nums(xs[1..])
  }

  /** `let angle_history_deg = [0, 15, 30];` followed by `push(45)` and `push(60)`:
      each push returns the new length and extends the array by one element. */
  method PushScenario() returns (afterFirst: seq<Value>, firstLength: nat, afterSecond: seq<Value>, secondLength: nat)
    ensures afterFirst == Nums([0, 15, 30, 45]) && firstLength == 4
    ensures afterSecond == Nums([0, 15, 30, 45, 60]) && secondLength == 5
  {
    var (st, arr) := Alloc(EmptyStore, Array(Nums([0, 15, 30])));
    st := Declare(st, "angle_history_deg", arr);
    var r := Push(st, arr, [Num(45)]);
    st, firstLength := r.value.0, r.value.1;
    afterFirst := st.heap[arr.handle].elems;
    r := Push(st, arr, [Num(60)]);
    st, secondLength := r.value.0, r.value.1;
    afterSecond := st.heap[arr.handle].elems;
    assert Nums([0, 15, 30]) + [Num(45)] == Nums([0, 15, 30, 45]);
    assert Nums([0, 15, 30, 45]) + [Num(60)] == Nums([0, 15, 30, 45, 60]);
  }

  /** `let logger_view = command_buffer;` then `command_buffer.push(40)` and
      `logger_view.push(50)`: both names see every push. */
  method SharedBufferScenario() returns (same: bool, bufferView: View, loggerView: View)
    ensures same
    ensures bufferView == loggerView == ArrayView(Nums([10, 20, 30, 40, 50]))
  {
    var (st, arr) := Alloc(EmptyStore, Array(Nums([10, 20, 30])));
    st := Declare(st, "command_buffer", arr);
    st := CopyBinding(st, "logger_view", "command_buffer").value;
    same := StrictEquals(st.env["command_buffer"], st.env["logger_view"]);

    PushVisibleThroughAlias(st, "command_buffer", "logger_view", [Num(40)]);
    st := Push(st, st.env["command_buffer"], [Num(40)]).value.0;
    assert ViewOf(st, "logger_view") == Ok(ArrayView(Nums([10, 20, 30]) + [Num(40)]));

    PushVisibleThroughAlias(st, "logger_view", "command_buffer", [Num(50)]);
    st := Push(st, st.env["logger_view"], [Num(50)]).value.0;
    assert Nums([10, 20, 30]) + [Num(40)] + [Num(50)] == Nums([10, 20, 30, 40, 50]);
    bufferView := ViewOf(st, "command_buffer").value;
    loggerView := ViewOf(st, "logger_view").value;
  }
}
