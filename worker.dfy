/**
 * The sample worker's job processor: steps 0 to 100, each setting the job's
 * progress to the step and appending one log line, with a failure that may
 * strike after any step's log line. Which steps fail is given by an oracle.
 */
module SampleWorker {
  import opened Wrappers
  import opened Decimal

  const LastStep := 100

  /** One write the processor makes on its job, in the order made. */
  datatype JobWrite = ProgressSet(value: nat) | LogAppended(line: string)

  /** The part of a job the processor reads and writes. */
  class Job {
    const id: string
    var progress: nat
    var logs: seq<string>
    var writes: seq<JobWrite>

    constructor (id: string)
      ensures this.id == id && progress == 0 && logs == [] && writes == []
    {
      this.id := id;
      progress := 0;
      logs := [];
      writes := [];
    }

    method UpdateProgress(value: nat)
      modifies this
      ensures progress == value && logs == old(logs)
      ensures writes == old(writes) + [ProgressSet(value)]
    {
      progress := value;
      writes := writes + [ProgressSet(value)];
    }

    method Log(line: string)
      modifies this
      ensures progress == old(progress) && logs == old(logs) + [line]
      ensures writes == old(writes) + [LogAppended(line)]
    {
      logs := logs + [line];
      writes := writes + [LogAppended(line)];
    }
  }

  /** What the processor gives back: the return value, or the error it throws. */
  datatype Outcome = Completed(jobId: string) | Failed(error: string)

  function LogLine(step: nat): string {
    "Processing job at interval " + Show(step)
  }

  function ErrorMessage(step: nat): string {
    "Random error " + Show(step)
  }

  function ReturnValue(id: string): string {
    "This is the return value of job (" + id + ")"
  }

  /** Distinct steps write distinct log lines. */
  lemma LogLinesDistinct(i: nat, j: nat)
    ensures LogLine(i) == LogLine(j) ==> i == j
  {
    var head := "Processing job at interval ";
    if LogLine(i) == LogLine(j) {
      assert Show(i) == LogLine(i)[|head|..];
      assert Show(j) == LogLine(j)[|head|..];
      ShowInjective(i, j);
    }
  }

  /** The first step from `from` on at which the oracle says the job fails. */
  function FirstFailure(fails: nat -> bool, from: nat): (k: Option<nat>)
    requires from <= LastStep + 1
    ensures k.Some? ==> from <= k.value <= LastStep && fails(k.value)
    ensures k.Some? ==> forall j :: from <= j < k.value ==> !fails(j)
    ensures k.None? ==> forall j :: from <= j <= LastStep ==> !fails(j)
    decreases LastStep + 1 - from
  {
    if from > LastStep then None
    else if fails(from) then Some(from)
    else FirstFailure(fails, from + 1)
  }

  /** How many steps run: up to and including the first failing one, or all 101. */
  function StepsRun(fails: nat -> bool): (n: nat)
    ensures 1 <= n <= LastStep + 1
    ensures FirstFailure(fails, 0).Some? ==> n == FirstFailure(fails, 0).value + 1
    ensures FirstFailure(fails, 0).None? ==> n == LastStep + 1
  {
    match FirstFailure(fails, 0)
    case Some(k) => k + 1
    case None => LastStep + 1
  }

  /** The writes of the first `n` steps: step i sets progress i, then logs its line. */
  function Writes(n: nat): (ws: seq<JobWrite>)
    ensures |ws| == 2 * n
  {
    if n == 0 then [] else Writes(n - 1) + [ProgressSet(n - 1), LogAppended(LogLine(n - 1))]
  }

  /** The log lines of the first `n` steps. */
  function LogLines(n: nat): (lines: seq<string>)
    ensures |lines| == n
    ensures forall i :: 0 <= i < n ==> lines[i] == LogLine(i)
  {
    if n == 0 then [] else LogLines(n - 1) + [LogLine(n - 1)]
  }

  /** Step i's writes sit at positions 2i and 2i + 1: its progress, then its log line. */
  lemma {:induction false} WritesOfStep(n: nat, i: nat)
    requires i < n
    ensures Writes(n)[2 * i] == ProgressSet(i)
    ensures Writes(n)[2 * i + 1] == LogAppended(LogLine(i))
  {
    if i < n - 1 {
      WritesOfStep(n - 1, i);
    }
  }

  function Reported(w: JobWrite): seq<nat> {
    if w.ProgressSet? then [w.value] else []
  }

  /** The progress values among some writes, in order. */
  function ProgressReports(ws: seq<JobWrite>): seq<nat> {
    if ws == [] then [] else Reported(ws[0]) + ProgressReports(ws[1..])
  }

  lemma {:induction false} ProgressReportsAppend(a: seq<JobWrite>, b: seq<JobWrite>)
    ensures ProgressReports(a + b) == ProgressReports(a) + ProgressReports(b)
  {
    if a == [] {
      assert a + b == b;
    } else {
      assert (a + b)[0] == a[0];
      assert (a + b)[1..] == a[1..] + b;
      ProgressReportsAppend(a[1..], b);
      assert ProgressReports(a + b) == Reported(a[0]) + (ProgressReports(a[1..]) + ProgressReports(b));
    }
  }

  /** After `n` steps the progress reports are exactly 0, 1, ..., n - 1, so they strictly increase. */
  lemma {:induction false} ProgressReportsAscend(n: nat)
    ensures |ProgressReports(Writes(n))| == n
    ensures forall i :: 0 <= i < n ==> ProgressReports(Writes(n))[i] == i
  {
    if n > 0 {
      var step := [ProgressSet(n - 1), LogAppended(LogLine(n - 1))];
      ProgressReportsAppend(Writes(n - 1), step);
      assert ProgressReports(step) == [n - 1] by {
        assert step[1..][1..] == [];
        assert ProgressReports(step[1..]) == [];
      }
      ProgressReportsAscend(n - 1);
    }
  }

  /** Running step n after the first n steps gives the first n + 1 steps. */
  lemma StepAppends(logs0: seq<string>, writes0: seq<JobWrite>, n: nat)
    ensures logs0 + LogLines(n) + [LogLine(n)] == logs0 + LogLines(n + 1)
    ensures writes0 + Writes(n) + [ProgressSet(n)] + [LogAppended(LogLine(n))] == writes0 + Writes(n + 1)
  {
  }

  /** The job holds what the first `n` steps wrote on top of what it held before. */
  ghost predicate AfterSteps(job: Job, logs0: seq<string>, writes0: seq<JobWrite>, n: nat)
    reads job
  {
    && job.logs == logs0 + LogLines(n)
    && job.writes == writes0 + Writes(n)
    && (n > 0 ==> job.progress == n - 1)
  }

  /** One step of the loop: set the progress to the step, then log the step's line. */
  method RunStep(job: Job, i: nat, ghost logs0: seq<string>, ghost writes0: seq<JobWrite>)
    requires AfterSteps(job, logs0, writes0, i)
    modifies job
    ensures AfterSteps(job, logs0, writes0, i + 1)
  {
    job.UpdateProgress(i);
    job.Log(LogLine(i));
    StepAppends(logs0, writes0, i);
  }

  /**
   * The processor body: for each step from 0 to 100 it sets the progress,
   * appends the step's log line and then fails if the oracle says so. A
   * failure at step k leaves progress k and k + 1 new log lines and returns
   * no value; without one it returns the job's fixed return value after
   * 101 steps.
   */
  method Process(job: Job, fails: nat -> bool) returns (outcome: Outcome)
    modifies job
    ensures job.progress == StepsRun(fails) - 1
    ensures job.logs == old(job.logs) + LogLines(StepsRun(fails))
    ensures job.writes == old(job.writes) + Writes(StepsRun(fails))
    ensures outcome == match FirstFailure(fails, 0)
      case Some(k) => Failed(ErrorMessage(k))
      case None => Completed(ReturnValue(job.id))
  {
    ghost var logs0, writes0 := job.logs, job.writes;
    var i := 0;
    while i <= LastStep
      invariant 0 <= i <= LastStep + 1
      invariant FirstFailure(fails, i) == FirstFailure(fails, 0)
      invariant AfterSteps(job, logs0, writes0, i)
    {
      RunStep(job, i, logs0, writes0);
      if fails(i) {
        outcome := Failed(ErrorMessage(i));
        return;
      }
      i := i + 1;
    }
    outcome := Completed(ReturnValue(job.id));
  }
}
