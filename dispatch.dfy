/** The DISPATCH rule shared by `_controller` in tinyg_tc.c and `_controller_HSM` in
    controller.cpp: the tasks of one pass run in list order, each on the state the
    previous one left, and a task returning EAGAIN ends the pass. A task is a descriptor
    `T` that `run` executes on a state `W`. */
module Dispatch {
  import opened Status

  /** The statuses of the tasks that ran, in order, and the state the pass ends in. */
  datatype PassResult<W> = PassResult(trace: seq<Stat>, world: W)

  /** One pass over `tasks`. */
  function Pass<T, W>(run: (T, W) -> (Stat, W), tasks: seq<T>, w: W): (r: PassResult<W>)
    ensures |r.trace| <= |tasks|
    ensures tasks != [] ==> r.trace != []
    ensures forall i :: 0 <= i < |r.trace| - 1 ==> r.trace[i] != Eagain
    ensures |r.trace| < |tasks| ==> r.trace[|r.trace| - 1] == Eagain
    decreases |tasks|
  {
    if tasks == [] then PassResult([], w)
    else
      var step := run(tasks[0], w);
      if step.0 == Eagain then PassResult([Eagain], step.1)
      else
        var rest := Pass(run, tasks[1..], step.1);
        PassResult([step.0] + rest.trace, rest.world)
  }

  /** The state after running the first n tasks one after the other, whatever they return. */
  function RunFirst<T, W>(run: (T, W) -> (Stat, W), tasks: seq<T>, w: W, n: nat): W
    requires n <= |tasks|
    decreases n
  {
    if n == 0 then w else run(tasks[n - 1], RunFirst(run, tasks, w, n - 1)).1
  }

  /** The status task i returns when it is reached. */
  function StatusAt<T, W>(run: (T, W) -> (Stat, W), tasks: seq<T>, w: W, i: nat): Stat
    requires i < |tasks|
  {
    run(tasks[i], RunFirst(run, tasks, w, i)).0
  }

  /** Running n tasks is running the first, then n - 1 of the rest. */
  lemma {:induction false} RunFirstShift<T, W>(run: (T, W) -> (Stat, W), tasks: seq<T>, w: W, n: nat)
    requires 1 <= n <= |tasks|
    ensures RunFirst(run, tasks, w, n) == RunFirst(run, tasks[1..], run(tasks[0], w).1, n - 1)
    decreases n
  {
    if n > 1 {
      RunFirstShift(run, tasks, w, n - 1);
      assert tasks[1..][n - 2] == tasks[n - 1];
    }
  }

  /** The trace of a pass is the statuses of the tasks in list order, each run on what
      the tasks before it left, and the pass ends in the state the last task that ran
      left. */
  lemma {:induction false} PassPrefix<T, W>(run: (T, W) -> (Stat, W), tasks: seq<T>, w: W)
    ensures var r := Pass(run, tasks, w);
      (forall i :: 0 <= i < |r.trace| ==> r.trace[i] == StatusAt(run, tasks, w, i)) &&
      r.world == RunFirst(run, tasks, w, |r.trace|)
    decreases |tasks|
  {
    if tasks != [] {
      var step := run(tasks[0], w);
      assert RunFirst(run, tasks, w, 1) == step.1;
      if step.0 != Eagain {
        var rest := Pass(run, tasks[1..], step.1);
        PassPrefix(run, tasks[1..], step.1);
        forall n | 1 <= n <= |tasks|
          ensures RunFirst(run, tasks, w, n) == RunFirst(run, tasks[1..], step.1, n - 1)
        {
          RunFirstShift(run, tasks, w, n);
        }
        var r := Pass(run, tasks, w);
        assert r.trace == [step.0] + rest.trace;
        forall i | 1 <= i < |r.trace|
          ensures r.trace[i] == StatusAt(run, tasks, w, i)
        {
          assert r.trace[i] == rest.trace[i - 1];
          assert tasks[1..][i - 1] == tasks[i];
        }
      }
    }
  }

  /** Short circuit: when the task at position k is the first to return EAGAIN, exactly
      the tasks up to k run and none after it. */
  lemma ShortCircuit<T, W>(run: (T, W) -> (Stat, W), tasks: seq<T>, w: W, k: nat)
    requires k < |tasks|
    requires forall i :: 0 <= i < k ==> StatusAt(run, tasks, w, i) != Eagain
    requires StatusAt(run, tasks, w, k) == Eagain
    ensures var r := Pass(run, tasks, w);
      |r.trace| == k + 1 && r.trace[k] == Eagain && r.world == RunFirst(run, tasks, w, k + 1)
  {
    PassPrefix(run, tasks, w);
  }

  /** Fall-through: when no task returns EAGAIN, every task runs exactly once, in list
      order. */
  lemma FallThrough<T, W>(run: (T, W) -> (Stat, W), tasks: seq<T>, w: W)
    requires forall i :: 0 <= i < |tasks| ==> StatusAt(run, tasks, w, i) != Eagain
    ensures var r := Pass(run, tasks, w);
      |r.trace| == |tasks| && r.world == RunFirst(run, tasks, w, |tasks|) &&
      forall i :: 0 <= i < |tasks| ==> r.trace[i] == StatusAt(run, tasks, w, i)
  {
    PassPrefix(run, tasks, w);
  }

  /** One step of a pass from position i. */
  lemma PassStep<T, W>(run: (T, W) -> (Stat, W), tasks: seq<T>, i: nat, w: W)
    requires i < |tasks|
    ensures var step := run(tasks[i], w);
      Pass(run, tasks[i..], w) ==
        if step.0 == Eagain then PassResult([Eagain], step.1)
        else var rest := Pass(run, tasks[i + 1..], step.1);
             PassResult([step.0] + rest.trace, rest.world)
  {
    assert tasks[i..][0] == tasks[i];
    assert tasks[i..][1..] == tasks[i + 1..];
  }

  /** The driver: the DISPATCH macro applied down the list. */
  method RunPass<T, W>(run: (T, W) -> (Stat, W), tasks: seq<T>, w0: W) returns (trace: seq<Stat>, w: W)
    ensures PassResult(trace, w) == Pass(run, tasks, w0)
  {
    trace, w := [], w0;
    var i := 0;
    while i < |tasks|
      invariant 0 <= i <= |tasks|
      invariant var rest := Pass(run, tasks[i..], w);
        Pass(run, tasks, w0) == PassResult(trace + rest.trace, rest.world)
    {
      var step := run(tasks[i], w);
      PassStep(run, tasks, i, w);
      assert trace + ([step.0] + Pass(run, tasks[i + 1..], step.1).trace) ==
             (trace + [step.0]) + Pass(run, tasks[i + 1..], step.1).trace;
      trace, w := trace + [step.0], step.1;
      if step.0 == Eagain {
        return;
      }
      i := i + 1;
    }
    assert tasks[i..] == [];
  }
}
