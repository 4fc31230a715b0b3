/**
 * `MatMulTester`: an input monitor on `start` capturing `mtx_in` and
 * `vec_in`, an output monitor on `done` capturing `vec_out`, and the
 * `_check` scoreboard that pairs the oldest output with the oldest input,
 * evaluates the golden model on the input and compares.  The suspending
 * `Queue.get` is replaced by a precondition that both queues are non-empty.
 */
module Scoreboard {
  import opened Common
  import opened Golden
  import opened Monitor

  const InputFields: map<string, string> := map["mtx_in" := "mtx_in", "vec_in" := "vec_in"]
  const OutputFields: map<string, string> := map["vec_out" := "vec_out"]

  /**
   * The input monitor's snapshots hold exactly `mtx_in` and `vec_in`, the
   * output monitor's exactly `vec_out`, each the settled value of the port
   * of the same name.
   */
  lemma MonitorShapes(signals: Signals)
    ensures Sample(InputFields, signals) == map["mtx_in" := signals("mtx_in"), "vec_in" := signals("vec_in")]
    ensures Sample(OutputFields, signals) == map["vec_out" := signals("vec_out")]
  {
  }

  /** The outcome of one check round. */
  datatype Verdict =
    | Pass
      /** `assert vec_out_expected == vec_out_actual` fails */
    | Mismatch(expected: seq<int>, actual: seq<nat>)
      /** `matmul_golden` raises: the input does not reshape to 2x2 and 2x1 */
    | GoldenFailed
      /** a snapshot lacks a field the round reads (a KeyError) */
    | MissingField

  /** Both snapshots carry the fields a round reads. */
  predicate Keyed(actual: Snapshot, inputs: Snapshot)
  {
    "vec_out" in actual && "mtx_in" in inputs && "vec_in" in inputs
  }

  /** One round of `_check` on an output snapshot and its paired input snapshot. */
  function RoundVerdict(actual: Snapshot, inputs: Snapshot): (v: Verdict)
    ensures v == MissingField <==> !Keyed(actual, inputs)
    ensures v == Pass ==>
      Keyed(actual, inputs) && MatMulGolden(inputs["mtx_in"], inputs["vec_in"]).Some? &&
      MatMulGolden(inputs["mtx_in"], inputs["vec_in"]).value == actual["vec_out"]
  {
    if !Keyed(actual, inputs) then MissingField
    else
      match MatMulGolden(inputs["mtx_in"], inputs["vec_in"])
      case None => GoldenFailed
      case Some(expected) =>
        if expected == actual["vec_out"] then Pass else Mismatch(expected, actual["vec_out"])
  }

  /**
   * A round on well-formed snapshots fails exactly when the golden model
   * raises, or its vector differs from `vec_out` in length or at some
   * position; a failing comparison reports both vectors.
   */
  lemma RoundFailsIff(actual: Snapshot, inputs: Snapshot)
    requires Keyed(actual, inputs)
    ensures var golden, out := MatMulGolden(inputs["mtx_in"], inputs["vec_in"]), actual["vec_out"];
      (RoundVerdict(actual, inputs) != Pass <==>
        golden.None? || |golden.value| != |out| || exists k :: 0 <= k < |out| && golden.value[k] != out[k])
      && (RoundVerdict(actual, inputs) == GoldenFailed <==> golden.None?)
      && (RoundVerdict(actual, inputs).Mismatch? ==>
            RoundVerdict(actual, inputs) == Mismatch(golden.value, out))
  {
    var golden, out := MatMulGolden(inputs["mtx_in"], inputs["vec_in"]), actual["vec_out"];
    if golden.Some? && |golden.value| == |out| && forall k :: 0 <= k < |out| ==> golden.value[k] == out[k] {
      assert golden.value == out;
    }
  }

  /** The unit under test computed the true product of an 8-bit input. */
  predicate CorrectRound(actual: Snapshot, inputs: Snapshot)
  {
    Keyed(actual, inputs) &&
    |inputs["mtx_in"]| == 4 && |inputs["vec_in"]| == 2 &&
    (forall k :: 0 <= k < 4 ==> inputs["mtx_in"][k] <= 255) &&
    (forall k :: 0 <= k < 2 ==> inputs["vec_in"][k] <= 255) &&
    actual["vec_out"] == MatVec(inputs["mtx_in"], inputs["vec_in"], 2)
  }

  /** A correct unit never makes a round fail. */
  lemma CorrectRoundPasses(actual: Snapshot, inputs: Snapshot)
    requires CorrectRound(actual, inputs)
    ensures RoundVerdict(actual, inputs) == Pass
  {
    GoldenExact(inputs["mtx_in"], inputs["vec_in"]);
  }

  /**
   * Pairing correctness: if the k-th output is the correct result of the
   * k-th input for every k, no round reports a failure.
   */
  lemma CorrectUnitNeverFails(outs: seq<Snapshot>, ins: seq<Snapshot>)
    requires forall k :: 0 <= k < |outs| && k < |ins| ==> CorrectRound(outs[k], ins[k])
    ensures forall k :: 0 <= k < |outs| && k < |ins| ==> RoundVerdict(outs[k], ins[k]) == Pass
  {
    forall k | 0 <= k < |outs| && k < |ins|
      ensures RoundVerdict(outs[k], ins[k]) == Pass
    {
      CorrectRoundPasses(outs[k], ins[k]);
    }
  }

  /** Two end-to-end rounds: the identity matrix, and a wrong second entry. */
  lemma Scenarios()
    ensures RoundVerdict(map["vec_out" := [5, 9]], map["mtx_in" := [1, 0, 0, 1], "vec_in" := [5, 9]]) == Pass
    ensures RoundVerdict(map["vec_out" := [3, 7]], map["mtx_in" := [1, 2, 3, 4], "vec_in" := [1, 1]]) == Pass
    ensures RoundVerdict(map["vec_out" := [3, 8]], map["mtx_in" := [1, 2, 3, 4], "vec_in" := [1, 1]])
         == Mismatch([3, 7], [3, 8])
  {
  }

  /** Taking the front of the rest of a queue after `used` rounds leaves it after `used + 1`. */
  lemma DropFront(q: seq<Snapshot>, used: nat)
    requires used < |q|
    ensures q[used..][0] == q[used] && q[used..][1..] == q[used + 1..]
  {
  }

  class MatMulTester {
    const inputMonitor: DataMonitor
    const outputMonitor: DataMonitor

    /**
     * Both monitors are configured as `__init__` wires them, and the
     * scoreboard has taken equally many snapshots from each.
     */
    ghost predicate Valid()
      reads this, inputMonitor, outputMonitor
    {
      inputMonitor != outputMonitor &&
      inputMonitor.Valid() && outputMonitor.Valid() &&
      inputMonitor.clk == "clk" && inputMonitor.valid == "start" && inputMonitor.fields == InputFields &&
      outputMonitor.clk == "clk" && outputMonitor.valid == "done" && outputMonitor.fields == OutputFields &&
      inputMonitor.taken == outputMonitor.taken
    }

    /** `__init__`: two idle monitors with empty queues. */
    constructor ()
      ensures Valid() && fresh(inputMonitor) && fresh(outputMonitor)
      ensures inputMonitor.values == [] && inputMonitor.tasks == 0 && !inputMonitor.handle
      ensures outputMonitor.values == [] && outputMonitor.tasks == 0 && !outputMonitor.handle
      ensures inputMonitor.taken == 0
    {
      inputMonitor := new DataMonitor("clk", InputFields, "start");
      outputMonitor := new DataMonitor("clk", OutputFields, "done");
    }

    /**
     * `start`: starts the input monitor, then the output monitor.  The check
     * task it also spawns is `Check`, which the caller runs.
     */
    method Start()
      requires Valid()
      modifies inputMonitor, outputMonitor
      ensures Valid()
      ensures inputMonitor.handle && inputMonitor.tasks == old(inputMonitor.tasks) + 1
      ensures outputMonitor.handle && outputMonitor.tasks == old(outputMonitor.tasks) + 1
      ensures inputMonitor.values == old(inputMonitor.values) && inputMonitor.log == old(inputMonitor.log)
      ensures outputMonitor.values == old(outputMonitor.values) && outputMonitor.log == old(outputMonitor.log)
      ensures inputMonitor.taken == old(inputMonitor.taken)
    {
      inputMonitor.Start();
      outputMonitor.Start();
    }

    /**
     * The device runs: the input monitor sees the settled rising edges `ins`
     * of `start`, the output monitor those `outs` of `done`.
     */
    method Observe(ins: seq<Signals>, outs: seq<Signals>)
      requires Valid()
      modifies inputMonitor, outputMonitor
      ensures Valid()
      ensures inputMonitor.values == old(inputMonitor.values) + Captures(InputFields, ins, inputMonitor.tasks)
      ensures outputMonitor.values == old(outputMonitor.values) + Captures(OutputFields, outs, outputMonitor.tasks)
      ensures inputMonitor.tasks == old(inputMonitor.tasks) && outputMonitor.tasks == old(outputMonitor.tasks)
      ensures inputMonitor.handle == old(inputMonitor.handle) && outputMonitor.handle == old(outputMonitor.handle)
      ensures inputMonitor.log == old(inputMonitor.log) + Captures(InputFields, ins, inputMonitor.tasks)
      ensures outputMonitor.log == old(outputMonitor.log) + Captures(OutputFields, outs, outputMonitor.tasks)
      ensures inputMonitor.taken == old(inputMonitor.taken) && outputMonitor.taken == old(outputMonitor.taken)
    {
      inputMonitor.Run(ins);
      outputMonitor.Run(outs);
    }

    /**
     * One round of `_check`: takes the oldest output, then the oldest input,
     * and judges them.  Round k pairs the k-th output ever captured with the
     * k-th input ever captured.
     */
    method CheckStep() returns (v: Verdict)
      requires Valid()
      requires outputMonitor.values != [] && inputMonitor.values != []
      modifies inputMonitor, outputMonitor
      ensures Valid()
      ensures outputMonitor.values == old(outputMonitor.values[1..])
      ensures inputMonitor.values == old(inputMonitor.values[1..])
      ensures outputMonitor.taken == old(outputMonitor.taken) + 1
      ensures inputMonitor.log == old(inputMonitor.log) && outputMonitor.log == old(outputMonitor.log)
      ensures inputMonitor.tasks == old(inputMonitor.tasks) && inputMonitor.handle == old(inputMonitor.handle)
      ensures outputMonitor.tasks == old(outputMonitor.tasks) && outputMonitor.handle == old(outputMonitor.handle)
      ensures v == RoundVerdict(old(outputMonitor.values[0]), old(inputMonitor.values[0]))
      ensures v == RoundVerdict(outputMonitor.log[old(outputMonitor.taken)], inputMonitor.log[old(outputMonitor.taken)])
      ensures Keyed(old(outputMonitor.values[0]), old(inputMonitor.values[0])) && v != MissingField
    {
      var actual := outputMonitor.Get();
      var inputs := inputMonitor.Get();
      v := RoundVerdict(actual, inputs);
    }

    /**
     * The `_check` loop, run while both queues hold snapshots: `passed`
     * rounds pass, then either a queue runs dry (`failure` is None) or the
     * next round fails and ends the check.
     */
    method Check() returns (passed: nat, failure: Option<Verdict>)
      requires Valid()
      modifies inputMonitor, outputMonitor
      ensures Valid()
      ensures var used := passed + if failure.Some? then 1 else 0;
        used <= |old(outputMonitor.values)| && used <= |old(inputMonitor.values)| &&
        outputMonitor.values == old(outputMonitor.values)[used..] &&
        inputMonitor.values == old(inputMonitor.values)[used..]
      ensures forall j :: 0 <= j < passed ==>
        RoundVerdict(old(outputMonitor.values)[j], old(inputMonitor.values)[j]) == Pass
      ensures failure.Some? ==>
        (failure.value != Pass &&
         failure.value == RoundVerdict(old(outputMonitor.values)[passed], old(inputMonitor.values)[passed]))
      ensures failure.None? ==> outputMonitor.values == [] || inputMonitor.values == []
      ensures (forall j :: 0 <= j < |old(outputMonitor.values)| && j < |old(inputMonitor.values)| ==>
                 RoundVerdict(old(outputMonitor.values)[j], old(inputMonitor.values)[j]) == Pass)
              ==> failure.None?
      ensures inputMonitor.log == old(inputMonitor.log) && outputMonitor.log == old(outputMonitor.log)
      ensures inputMonitor.tasks == old(inputMonitor.tasks) && inputMonitor.handle == old(inputMonitor.handle)
      ensures outputMonitor.tasks == old(outputMonitor.tasks) && outputMonitor.handle == old(outputMonitor.handle)
    {
      ghost var outs, ins := outputMonitor.values, inputMonitor.values;
      passed, failure := 0, None;
      while outputMonitor.values != [] && inputMonitor.values != []
        invariant Valid()
        invariant passed <= |outs| && passed <= |ins|
        invariant outputMonitor.values == outs[passed..] && inputMonitor.values == ins[passed..]
        invariant forall j :: 0 <= j < passed ==> RoundVerdict(outs[j], ins[j]) == Pass
        invariant inputMonitor.log == old(inputMonitor.log) && outputMonitor.log == old(outputMonitor.log)
        invariant inputMonitor.tasks == old(inputMonitor.tasks) && inputMonitor.handle == old(inputMonitor.handle)
        invariant outputMonitor.tasks == old(outputMonitor.tasks) && outputMonitor.handle == old(outputMonitor.handle)
        decreases |outputMonitor.values|
      {
        var v := CheckStep();
        DropFront(outs, passed);
        DropFront(ins, passed);
        if v != Pass {
          failure := Some(v);
          return;
        }
        passed := passed + 1;
      }
    }
  }

  /** Round k of a matched run pairs the k-th `done` edge with the k-th `start` edge, and passes. */
  lemma MatchedCapturesPass(ins: seq<Signals>, outs: seq<Signals>)
    requires |outs| == |ins|
    requires forall k :: 0 <= k < |ins| ==> CorrectRound(Sample(OutputFields, outs[k]), Sample(InputFields, ins[k]))
    ensures |Captures(InputFields, ins, 1)| == |ins| && |Captures(OutputFields, outs, 1)| == |ins|
    ensures forall k :: 0 <= k < |ins| ==>
      RoundVerdict(Captures(OutputFields, outs, 1)[k], Captures(InputFields, ins, 1)[k]) == Pass
  {
    CapturesInOrder(InputFields, ins);
    CapturesInOrder(OutputFields, outs);
    var capturedIns, capturedOuts := Captures(InputFields, ins, 1), Captures(OutputFields, outs, 1);
    forall k | 0 <= k < |ins|
      ensures RoundVerdict(capturedOuts[k], capturedIns[k]) == Pass
    {
      CorrectRoundPasses(capturedOuts[k], capturedIns[k]);
    }
  }

  /** `MatMulTester(dut)`, `tester.start()`, then the device runs through the given edges. */
  method StartedAndObserved(ins: seq<Signals>, outs: seq<Signals>) returns (tester: MatMulTester)
    ensures fresh(tester.inputMonitor) && fresh(tester.outputMonitor)
    ensures tester.Valid()
    ensures tester.inputMonitor.values == Captures(InputFields, ins, 1)
    ensures tester.outputMonitor.values == Captures(OutputFields, outs, 1)
  {
    tester := new MatMulTester();
    tester.Start();
    tester.Observe(ins, outs);
  }

  /**
   * A correct unit, end to end: the tester is built and started, the k-th
   * `start` edge and the k-th `done` edge carry an 8-bit input and its true
   * product, and the check then passes exactly one round per pair and
   * reports no failure.
   */
  method MatchedRun(ins: seq<Signals>, outs: seq<Signals>) returns (passed: nat, failure: Option<Verdict>)
    requires |outs| == |ins|
    requires forall k :: 0 <= k < |ins| ==> CorrectRound(Sample(OutputFields, outs[k]), Sample(InputFields, ins[k]))
    ensures failure.None? && passed == |ins|
  {
    var tester := StartedAndObserved(ins, outs);
    MatchedCapturesPass(ins, outs);
    passed, failure := tester.Check();
  }
}
