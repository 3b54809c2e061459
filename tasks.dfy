/** The task registry's entries (main.py:5, 81) and what the background worker does to one
    entry (main.py:13-40). */
module Tasks {
  import opened Wrappers

  /** The value of an entry's `status` key. */
  datatype Status = Pending | Processing | Complete | Failed

  /** The text stored under `status`. */
  function StatusName(s: Status): string
  {
    match s
    case Pending => "pending"
    case Processing => "processing"
    case Complete => "complete"
    case Failed => "failed"
  }

  /** One registry entry: the dictionary `{status, output_path?, error?}`. */
  datatype Task = Task(status: Status, outputPath: Option<string>, error: Option<string>)

  /** The entry a submission creates: `{'status': 'pending'}`. */
  const NewTask: Task := Task(Pending, None, None)

  /** What `subprocess.run` gave the worker: the process ran and exited with `returncode`
      after printing `stderr` and creating the files in `written`; or the call itself
      raised (the executable could not be started) with `message`. */
  datatype ProcessResult =
    | Exited(returncode: int, stderr: string, written: set<string>)
    | LaunchFailed(message: string)

  /** The encoder ran and exited with status 0. */
  predicate Succeeded(result: ProcessResult)
  {
    result.Exited? && result.returncode == 0
  }

  /** The text of the exception the worker records: the captured standard error of a
      non-zero exit, or the message of the exception `subprocess.run` raised. */
  function FailureText(result: ProcessResult): string
  {
    match result
    case Exited(_, stderr, _) => stderr
    case LaunchFailed(message) => message
  }

  /** The files the external process created. */
  function Written(result: ProcessResult): set<string>
  {
    match result
    case Exited(_, _, written) => written
    case LaunchFailed(_) => {}
  }

  /** An entry is well formed when a completed task names its output and a failed task
      carries an error. */
  predicate WellFormed(t: Task)
  {
    (t.status == Complete ==> t.outputPath.Some?) &&
    (t.status == Failed ==> t.error.Some?)
  }

  /** The entry after the worker ran: `complete` with `output_path` set to the output
      video on exit 0, `failed` with the recorded error text otherwise; the keys the
      worker does not write keep their values. */
  function Finished(t: Task, result: ProcessResult, outputPath: string): (r: Task)
    ensures r.status == Complete <==> Succeeded(result)
    ensures r.status == Failed <==> !Succeeded(result)
    ensures Succeeded(result) ==> r.outputPath == Some(outputPath) && r.error == t.error
    ensures !Succeeded(result) ==> r.error == Some(FailureText(result)) && r.outputPath == t.outputPath
    ensures WellFormed(r)
  {
    if Succeeded(result) then t.(status := Complete, outputPath := Some(outputPath))
    else t.(status := Failed, error := Some(FailureText(result)))
  }

  /** The registry after the worker ran for `taskId`. An unknown id makes the worker
      raise KeyError before it changes anything. */
  function AfterWorker(tasks: map<string, Task>, taskId: string, result: ProcessResult,
                       outputPath: string): (r: map<string, Task>)
    ensures r.Keys == tasks.Keys
    ensures forall id :: id in tasks && id != taskId ==> r[id] == tasks[id]
    ensures taskId in tasks ==> r[taskId].status in {Complete, Failed}
    ensures taskId in tasks ==> r[taskId] == Finished(tasks[taskId], result, outputPath)
    ensures taskId !in tasks ==> r == tasks
  {
    if taskId in tasks then tasks[taskId := Finished(tasks[taskId], result, outputPath)] else tasks
  }

  /** A well-formed registry stays well formed through the worker. */
  lemma WorkerKeepsWellFormed(tasks: map<string, Task>, taskId: string, result: ProcessResult,
                              outputPath: string)
    requires forall id :: id in tasks ==> WellFormed(tasks[id])
    ensures forall id :: id in AfterWorker(tasks, taskId, result, outputPath) ==>
              WellFormed(AfterWorker(tasks, taskId, result, outputPath)[id])
  {
  }
}
