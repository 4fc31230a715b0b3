# Matrix-vector unit verification harness, modelled in Dafny

The repository drives a simulated matrix-vector multiplier (`VMatMul`) from
three cocotb testbenches and a Verilator C++ driver. The cocotb benches size
their stimulus by the design parameter `SIZE`; the C++ driver and the golden
model `matmul_golden` are fixed to a 2x2 matrix. This project models the parts
that hold the checking logic:

- **The monitor/scoreboard harness** of `simulation-demos/MatMulTester3.py`.
  A `DataMonitor` watches one valid signal. At every rising edge, once the
  simulator has settled, it enqueues a snapshot: a map from each configured
  field name to the value of that field's handle. `MatMulTester` wires an input
  monitor on `start` (fields `mtx_in`, `vec_in`) and an output monitor on
  `done` (field `vec_out`). Its `_check` loop pairs the oldest output with the
  oldest input, evaluates the golden model `matmul_golden` on the input and
  asserts that the two vectors are equal.
- **The Verilator driver helpers** of `simulation-demos/MatMulDemo.cpp`:
  `load_mtx`, `load_vec`, `assert_result`, and the two expected results of
  its `main`.
- **The test-vector reader** `read_testcases` of
  `simulation-demos/MatMulTester1.py`. Each line holds
  `matrix;vector;expected`. It is stripped, split on `;` into exactly three
  Python literals, and their lengths are checked against `SIZE`.

Modules, one per component:

| file | module | models |
|---|---|---|
| `common.dfy` | `Common` | `Option` / `Result` for raised exceptions |
| `golden.dfy` | `Golden` | `matmul_golden` and a reference product for any square size |
| `monitor.dfy` | `Monitor` | `DataMonitor` as a class with its queue |
| `scoreboard.dfy` | `Scoreboard` | `MatMulTester` as a class owning two monitors, and the check round |
| `demo.dfy` | `Demo` | the C++ port loaders and result check on a `Dut` class with arrays |
| `testvectors.dfy` | `TestVectors` | `read_testcases` over the lines of the file |

How the cooperative scheduling is replaced:

- A settled rising edge of the valid signal is an explicit call,
  `DataMonitor.OnStrobe(signals)`. A finite run of edges is `DataMonitor.Run`.
- The blocking `Queue.get` is `DataMonitor.Get`, which requires a non-empty
  queue.
- One iteration of `_check` is `MatMulTester.CheckStep`, which requires both
  queues to be non-empty. `MatMulTester.Check` runs rounds until a queue is
  empty or a round fails.
- The simulator's settled signal values are a parameter `signals`, a function
  from handle name to value.
- Each monitor also keeps two ghost fields: a log of every snapshot it ever
  enqueued, and how many were taken out. These let the model state that round
  k pairs the k-th captured output with the k-th captured input.

A monitor counts its live sampling tasks (`tasks`) separately from whether
`_coro` holds a handle (`handle`). The code allows `start` twice without a
`stop`; the first task then keeps running and every edge enqueues one
snapshot per live task. `OnStrobe` states this. The predicate `Exclusive`
describes the intended use: exactly one task while started, none otherwise.
`Start` from an idle state and `Stop` preserve it. `Stop` without a handle
models the `AttributeError` of `None.kill()`: it reports failure and changes
nothing.

Two facts about the code shape the model:

- The golden model is fixed to 2x2 by its `reshape((2, 2))`. It does not follow
  `SIZE`: `Golden.GoldenRejectsOtherSizes` shows that for any other size
  `matmul_golden` raises. The first round on such stimulus therefore fails
  (`GoldenFailed`) and ends the check task.
- On 64-bit Linux and macOS, numpy computes the product in 64-bit signed
  integers, not in unbounded precision. `Golden.Wrap64` models this.
  `Golden.GoldenExact` shows that the result is the exact product for operands
  below 2^31, which covers the 8-bit stimulus.

## Model

| member | source | states |
|---|---|---|
| `Monitor.Sample` | simulation-demos/MatMulTester3.py:44-45 | a snapshot's keys are exactly the configured field names, each mapped to the settled value of its handle |
| `Monitor.DataMonitor.constructor` | simulation-demos/MatMulTester3.py:24-29 | a fresh monitor keeps its clock, fields and valid signal, has an empty queue, no running task and no handle |
| `Monitor.DataMonitor.Start` | simulation-demos/MatMulTester3.py:31-32 | spawns one more sampling task and sets the handle; the queue is unchanged; from an idle monitor exactly one task runs afterwards |
| `Monitor.DataMonitor.Stop` | simulation-demos/MatMulTester3.py:34-36 | with a handle: kills that one task and clears the handle; without one: fails and changes nothing; queued snapshots stay in both cases |
| `Monitor.DataMonitor.OnStrobe` | simulation-demos/MatMulTester3.py:38-42 | one settled rising edge appends the current sample at the back of the queue once per live task; earlier entries are unchanged; a stopped monitor captures nothing |
| `Monitor.DataMonitor.Run` | simulation-demos/MatMulTester3.py:38-42 | the sampling loop over a run of edges appends exactly the captures of those edges; with one task, snapshot k of the new part is edge k's sample |
| `Monitor.DataMonitor.Get` | simulation-demos/MatMulTester3.py:79-80 | `values.get()` removes and returns the oldest snapshot, which is the next one in the log of everything captured |
| `Monitor.Captures` | simulation-demos/MatMulTester3.py:38-42 | what the sampling tasks enqueue over a run of edges: the captures of the earlier edges, then the last edge's sample once per live task; a monitor with no live task captures nothing |
| `Monitor.CapturesLength` | simulation-demos/MatMulTester3.py:38-42 | every edge contributes exactly `tasks` snapshots: nothing lost, nothing invented |
| `Monitor.CapturesInOrder` | simulation-demos/MatMulTester3.py:38-42 | with one task the queue receives one snapshot per edge, in strobe order |
| `Monitor.CapturesKeys` | simulation-demos/MatMulTester3.py:38-45 | every captured snapshot has exactly the monitor's configured field names |
| `Scoreboard.MonitorShapes` | simulation-demos/MatMulTester3.py:52-62 | the input monitor yields `{mtx_in, vec_in}` and the output monitor `{vec_out}`, each with its port's value |
| `Scoreboard.MatMulTester.constructor` | simulation-demos/MatMulTester3.py:49-62 | builds two distinct idle monitors with empty queues: one on `start` over `mtx_in` and `vec_in`, one on `done` over `vec_out` |
| `Scoreboard.MatMulTester.Start` | simulation-demos/MatMulTester3.py:66-68 | `start` starts both monitors: each gains one live task and a handle; queues and logs are unchanged |
| `Scoreboard.MatMulTester.Observe` | simulation-demos/MatMulTester3.py:38-42 | while the device runs, the input monitor appends the captures of the `start` edges and the output monitor those of the `done` edges, to both queue and log; tasks, handles and the rounds already taken are unchanged |
| `Scoreboard.MatMulTester.CheckStep` | simulation-demos/MatMulTester3.py:78-86 | one round removes exactly the front snapshot of each queue; round k judges the k-th captured output against the k-th captured input; a field is never missing |
| `Scoreboard.MatMulTester.Check` | simulation-demos/MatMulTester3.py:77-86 | the check loop passes a prefix of rounds in queue order, then stops at the first failing round or when a queue is empty; if every available pair is correct, no round fails; the monitors' tasks, handles and logs are unchanged |
| `Scoreboard.RoundVerdict` | simulation-demos/MatMulTester3.py:81-86 | one `_check` round: a missing key is the `KeyError` (`MissingField`), and exactly then; a round passes only when the golden model is defined and equals `vec_out`; otherwise `reshape` raising is `GoldenFailed` and the failed `assert` is `Mismatch` |
| `Scoreboard.RoundFailsIff` | simulation-demos/MatMulTester3.py:81-86 | a round fails iff the golden model raises or its vector differs from `vec_out` in length or at some position; a mismatch reports both vectors |
| `Scoreboard.CorrectRoundPasses` | simulation-demos/MatMulTester3.py:81-86 | an output equal to the true product of its 8-bit input always passes |
| `Scoreboard.CorrectUnitNeverFails` | simulation-demos/MatMulTester3.py:77-86 | if every k-th output is the true product of the k-th input, no paired round fails |
| `Scoreboard.Scenarios` | simulation-demos/MatMulTester3.py:81-93 | the identity matrix with [5,9] passes on [5,9]; [1,2,3,4] with [1,1] passes on [3,7] and fails on [3,8] with expected [3,7] and actual [3,8] |
| `Scoreboard.MatchedCapturesPass` | simulation-demos/MatMulTester3.py:38-45 | with one task per monitor, capture k of each monitor is edge k's sample, so matched correct edges give passing rounds |
| `Scoreboard.StartedAndObserved` | simulation-demos/MatMulTester3.py:49-68 | a freshly built and started tester, after the given edges, holds exactly one snapshot per edge in each queue, in edge order |
| `Scoreboard.MatchedRun` | simulation-demos/MatMulTester3.py:49-86 | end to end: build, start, N matched correct edges, check; exactly N rounds pass and none fails |
| `Golden.MatMulGolden` | simulation-demos/MatMulTester3.py:88-93 | defined iff there are 4 matrix and 2 vector entries; then it is the reference row-major product reduced to int64 |
| `Golden.Wrap64` | simulation-demos/MatMulTester3.py:92 | numpy's int64 result lies in [-2^63, 2^63), is congruent to the exact value modulo 2^64, and equals the exact value when that value is in range |
| `Golden.GoldenExact` | simulation-demos/MatMulTester3.py:88-93 | for entries below 2^31 the golden model is the exact product |
| `Golden.GoldenByteBound` | simulation-demos/MatMulTester3.py:110-111 | for the stimulus range [0,255] every golden entry lies in [0, 130050] |
| `Golden.GoldenRejectsOtherSizes` | simulation-demos/MatMulTester3.py:89-90 | stimulus sized by any SIZE other than 2 is rejected by the golden model |
| `Demo.Dut.constructor` | simulation-demos/MatMulDemo.cpp:58 | a new device has a 2x2 matrix port and two distinct 2-entry vector ports |
| `Demo.LoadMtx` | simulation-demos/MatMulDemo.cpp:20-26 | afterwards `mtx_in[i][j] == mtx[i][j]` for all i, j in {0,1}; the vector ports are unchanged |
| `Demo.LoadVec` | simulation-demos/MatMulDemo.cpp:28-32 | afterwards `vec_in[i] == vec[i]` for i in {0,1}; the matrix and output ports are unchanged |
| `Demo.AssertResult` | simulation-demos/MatMulDemo.cpp:49-53 | passes iff `vec_out[i] == vec[i]` for both i |
| `Demo.MainCases` | simulation-demos/MatMulDemo.cpp:68-98 | the golden product of [[1,2],[3,4]] with [1,2] is [5,11], and of [[5,6],[7,8]] with [3,4] is [39,53] |
| `TestVectors.IsSpace` | simulation-demos/MatMulTester1.py:11 | the characters `str.strip()` removes (those of `str.isspace`); neither the separator `;` nor a digit is among them |
| `TestVectors.FirstNonSpace` | simulation-demos/MatMulTester1.py:11 | the scan for the start of the stripped line stops at the first non-space character, with only whitespace before it |
| `TestVectors.AfterLastNonSpace` | simulation-demos/MatMulTester1.py:11 | the scan for the end of the stripped line stops just after the last non-space character, with only whitespace after it |
| `TestVectors.Strip` | simulation-demos/MatMulTester1.py:11 | `line.strip()` is the slice left after removing whitespace at both ends, and it neither starts nor ends with whitespace |
| `TestVectors.StripIdempotent` | simulation-demos/MatMulTester1.py:11 | stripping twice is stripping once |
| `TestVectors.Split` | simulation-demos/MatMulTester1.py:11 | `split(";")` always yields at least one field |
| `TestVectors.SplitCount` | simulation-demos/MatMulTester1.py:11 | `split(';')` yields one more field than there are separators |
| `TestVectors.SplitFieldsFree` | simulation-demos/MatMulTester1.py:11 | no field of `split(';')` holds the separator |
| `TestVectors.SplitJoin` | simulation-demos/MatMulTester1.py:11 | joining the fields of `split(';')` with `;` gives the line back |
| `TestVectors.SplitUnique` | simulation-demos/MatMulTester1.py:11 | any separator-free fields that join to the line are exactly the split |
| `TestVectors.EvalAll` | simulation-demos/MatMulTester1.py:11 | the comprehension succeeds iff every field evaluates, and then holds each field's value in order |
| `TestVectors.LengthIs` | simulation-demos/MatMulTester1.py:12-14 | a length assertion passes iff the literal has a length equal to the wanted one; otherwise it is a TypeError or that assertion's failure |
| `TestVectors.CheckFields` | simulation-demos/MatMulTester1.py:11-15 | not exactly three values is an unpacking error; otherwise a case is accepted iff the lengths are SIZE*SIZE, SIZE and SIZE, and it holds the three values in order |
| `TestVectors.ParseLine` | simulation-demos/MatMulTester1.py:11-15 | one iteration of the loop: strip, split on `;`, evaluate every field, unpack into three and check the lengths; the unpacking error only ever reports a field count other than three |
| `TestVectors.ParseLineNeedsThreeFields` | simulation-demos/MatMulTester1.py:11 | a stripped line without exactly two ';' is rejected, by an eval error or by the unpacking |
| `TestVectors.ParseLineOfThree` | simulation-demos/MatMulTester1.py:11-15 | a stripped line `m;v;o` is accepted iff the three fields evaluate to literals of SIZE*SIZE, SIZE and SIZE entries, and the case holds them in that order |
| `TestVectors.AcceptedLineSized` | simulation-demos/MatMulTester1.py:12-15 | a line that passes is appended only with a matrix of SIZE*SIZE entries and two vectors of SIZE entries |
| `TestVectors.ReadTestcases` | simulation-demos/MatMulTester1.py:7-17 | one case per line in file order, each of the checked lengths; any failing line aborts the read with no result, naming the first such line and its error |

## Left out

- cocotb scheduling (`start_soon`, `RisingEdge`, `ReadOnly`, `kill`, the suspending `Queue.get`) is replaced by the explicit steps described above. The settle-before-sampling order is assumed by passing settled values to `OnStrobe`.
- `MatMulTester.stop` (simulation-demos/MatMulTester3.py:71-75) and the `_checker` handle are not modelled. `stop` only stops the two monitors (`DataMonitor.Stop`) and kills the check task, which the model runs directly as `Check`; `Scoreboard.MatMulTester.Start` likewise leaves spawning the check task to the caller.
- `Scoreboard.MatMulTester.Check`: a failed Python `assert` raises and ends the check task. The model returns the failing verdict and stops there instead.
- `Golden.MatMulGolden`: numpy picks a different element type for operands of 2^63 or more, and on platforms whose default integer is 32 bits (Windows under NumPy 1.x) the product wraps at 2^32; the model treats every operand and result as int64.
- `BinaryValue.integer` is taken to be the unsigned value. Signal values are naturals, so values with X or Z bits are not modelled.
- `Demo.LoadMtx`, `Demo.LoadVec`: ports hold `int`. Truncation to the device's port width is not modelled, because `VMatMul` is not part of this model.
- The stimulus and reset drivers are not modelled: `test_matmul`, `test_trivial`, `reset`, `Clock`, the random stimulus, and `step`, `run_matmul`, `print_result` and the `main` sequencing in MatMulDemo.cpp. They drive a device whose behaviour is not available. This also covers the after-reset `done` check.
- Reading `MatMulTestVectors.txt` and cutting it into lines is not modelled; `read_testcases` receives the lines.
- Python's `eval` is the parameter `eval`. It yields a literal with integer items, a value without a length, or nothing when it raises. Items that are not integers are not modelled.
- simulation-demos/MatMulTester2.py is not part of this model. Its monitor and scoreboard subclass library classes whose code is not available, and its reader repeats `read_testcases` without the length checks.
