/**
 * `DataMonitor`: watches one valid (strobe) signal and, at every rising
 * edge, once the simulator has settled, enqueues a snapshot of its
 * configured fields.  The cooperative scheduler is replaced by explicit
 * steps: `OnStrobe` is one settled rising edge, `Run` a finite run of them.
 */
module Monitor {

  /** The settled value of every simulator handle, by handle name. */
  type Signals = string -> seq<nat>

  /** One captured bundle: field name to the value its handle read. */
  type Snapshot = map<string, seq<nat>>

  /** `_sample`: reads every configured field's handle. */
  function Sample(fields: map<string, string>, signals: Signals): (s: Snapshot)
    ensures s.Keys == fields.Keys
    ensures forall name :: name in fields ==> s[name] == signals(fields[name])
  {
    map name | name in fields :: signals(fields[name])
  }

  /** `n` copies of one snapshot, in a row. */
  function Repeat(s: Snapshot, n: nat): (r: seq<Snapshot>)
    ensures |r| == n
    ensures forall k :: 0 <= k < n ==> r[k] == s
  {
    seq(n, _ => s)
  }

  /**
   * What `tasks` live sampling tasks enqueue over a run of settled rising
   * edges: the captures of all edges but the last, then the last edge's
   * sample once per task.  A stopped monitor captures nothing.
   */
  function Captures(fields: map<string, string>, edges: seq<Signals>, tasks: nat): (r: seq<Snapshot>)
    ensures tasks == 0 ==> r == []
  {
    if edges == [] then []
    else Captures(fields, edges[..|edges| - 1], tasks) + Repeat(Sample(fields, edges[|edges| - 1]), tasks)
  }

  /** Every edge contributes exactly `tasks` snapshots: nothing is lost or invented. */
  lemma {:induction false} CapturesLength(fields: map<string, string>, edges: seq<Signals>, tasks: nat)
    ensures |Captures(fields, edges, tasks)| == |edges| * tasks
  {
    if edges != [] {
      CapturesLength(fields, edges[..|edges| - 1], tasks);
      assert (|edges| - 1) * tasks + tasks == |edges| * tasks;
    }
  }

  /**
   * With a single sampling task the queue receives exactly one snapshot per
   * edge, the k-th snapshot being the k-th edge's sample: FIFO in strobe order.
   */
  lemma {:induction false} CapturesInOrder(fields: map<string, string>, edges: seq<Signals>)
    ensures |Captures(fields, edges, 1)| == |edges|
    ensures forall k :: 0 <= k < |edges| ==> Captures(fields, edges, 1)[k] == Sample(fields, edges[k])
  {
    if edges != [] {
      var init := edges[..|edges| - 1];
      CapturesInOrder(fields, init);
      assert forall k :: 0 <= k < |init| ==> init[k] == edges[k];
    }
  }

  /** Every snapshot a monitor captures has exactly its configured field names. */
  lemma {:induction false} CapturesKeys(fields: map<string, string>, edges: seq<Signals>, tasks: nat)
    ensures forall s :: s in Captures(fields, edges, tasks) ==> s.Keys == fields.Keys
  {
    if edges != [] {
      CapturesKeys(fields, edges[..|edges| - 1], tasks);
    }
  }

  class DataMonitor {
    const clk: string
    const fields: map<string, string>
    const valid: string
    /** The `values` queue, oldest snapshot first. */
    var values: seq<Snapshot>
    /** Sampling tasks spawned by `start` and not yet killed. */
    var tasks: nat
    /** Whether `_coro` holds a task handle (is not None). */
    var handle: bool
    /** Every snapshot ever enqueued, and how many of them were taken out. */
    ghost var log: seq<Snapshot>
    ghost var taken: nat

    ghost predicate Valid()
      reads this
    {
      taken <= |log| && values == log[taken..] &&
      (handle ==> tasks > 0) &&
      forall s :: s in log ==> s.Keys == fields.Keys
    }

    /** The intended use: at most one sampling task, and it is the one `_coro` refers to. */
    predicate Exclusive()
      reads this
    {
      tasks == if handle then 1 else 0
    }

    /** `__init__`: an empty queue and no task. */
    constructor (clk: string, fields: map<string, string>, valid: string)
      ensures Valid() && Exclusive()
      ensures this.clk == clk && this.fields == fields && this.valid == valid
      ensures values == [] && tasks == 0 && !handle
      ensures log == [] && taken == 0
    {
      this.clk := clk;
      this.fields := fields;
      this.valid := valid;
      values := [];
      tasks := 0;
      handle := false;
      log := [];
      taken := 0;
    }

    /**
     * `start`: spawns a sampling task and keeps its handle.  A task left by
     * an earlier `start` without `stop` keeps running as well.
     */
    method Start()
      requires Valid()
      modifies this
      ensures Valid()
      ensures handle && tasks == old(tasks) + 1
      ensures values == old(values) && log == old(log) && taken == old(taken)
      ensures !old(handle) && old(Exclusive()) ==> Exclusive()
    {
      tasks := tasks + 1;
      handle := true;
    }

    /**
     * `stop`: kills the task `_coro` refers to and clears the handle; queued
     * snapshots stay.  Without a handle, `_coro.kill()` raises (`ok` false)
     * before anything changes.
     */
    method Stop() returns (ok: bool)
      requires Valid()
      modifies this
      ensures Valid()
      ensures ok == old(handle) && !handle
      ensures tasks == if ok then old(tasks) - 1 else old(tasks)
      ensures values == old(values) && log == old(log) && taken == old(taken)
      ensures old(Exclusive()) ==> Exclusive() && tasks == 0
    {
      ok := handle;
      if ok {
        tasks := tasks - 1;
        handle := false;
      }
    }

    /**
     * One settled rising edge of the valid signal: each live task wakes and
     * enqueues the current sample at the back.  A stopped monitor captures
     * nothing.
     */
    method OnStrobe(signals: Signals)
      requires Valid()
      modifies this`values, this`log
      ensures Valid()
      ensures values == old(values) + Repeat(Sample(fields, signals), tasks)
      ensures log == old(log) + Repeat(Sample(fields, signals), tasks)
    {
      var batch := Repeat(Sample(fields, signals), tasks);
      values := values + batch;
      log := log + batch;
      assert values == log[taken..];
    }

    /** `_run`: the sampling loop over a finite run of settled rising edges. */
    method Run(edges: seq<Signals>)
      requires Valid()
      modifies this`values, this`log
      ensures Valid()
      ensures values == old(values) + Captures(fields, edges, tasks)
      ensures log == old(log) + Captures(fields, edges, tasks)
      ensures tasks == 1 ==>
        |values| == |old(values)| + |edges| &&
        forall k :: 0 <= k < |edges| ==> values[|old(values)| + k] == Sample(fields, edges[k])
    {
      var i := 0;
      while i < |edges|
        invariant 0 <= i <= |edges|
        invariant Valid()
        invariant values == old(values) + Captures(fields, edges[..i], tasks)
        invariant log == old(log) + Captures(fields, edges[..i], tasks)
      {
        OnStrobe(edges[i]);
        assert edges[..i + 1][..i] == edges[..i];
        i := i + 1;
      }
      assert edges[..i] == edges;
      CapturesInOrder(fields, edges);
    }

    /** `values.get()` once the queue is non-empty: removes the oldest snapshot. */
    method Get() returns (s: Snapshot)
      requires Valid() && values != []
      modifies this`values, this`taken
      ensures Valid()
      ensures s == old(values[0]) && values == old(values[1..])
      ensures s == log[old(taken)] && taken == old(taken) + 1
      ensures s.Keys == fields.Keys
    {
      s := values[0];
      values := values[1..];
      taken := taken + 1;
    }
  }
}
