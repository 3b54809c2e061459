/** The answer to a status poll (main.py:94-112): it only reads the registry and asks
    whether the output file exists. */
module StatusQuery {
  import opened Wrappers
  import opened Tasks
  import opened Artifacts

  /** What the status endpoint answers. */
  datatype Response =
    | HttpError(statusCode: int, detail: string)
      /** The output video, sent as `stitched_video.mp4`, with the files to remove once sent. */
    | VideoFile(path: string, mediaType: string, filename: string, cleanup: seq<string>)
      /** `{"status": status}` */
    | StatusBody(status: string)
      /** `{"status": status, "error": error}` */
    | ErrorBody(status: string, error: string)

  const NotFoundDetail: string := "Task ID not found."
  const MissingOutputError: string := "Output file not found."
  const UnknownError: string := "An unknown error occurred."

  /** The files a response schedules for removal after it is sent. */
  function Scheduled(r: Response): seq<string>
  {
    if r.VideoFile? then r.cleanup else []
  }

  /** The response to a poll for `taskId`, given the registry and the existing files. */
  function StatusOf(tasks: map<string, Task>, files: set<string>, taskId: string): (r: Response)
    ensures r.HttpError? <==> taskId !in tasks
    ensures r.HttpError? ==> r.statusCode == 404
    ensures r.VideoFile? <==> taskId in tasks && tasks[taskId].status == Complete
                              && tasks[taskId].outputPath.Some? && tasks[taskId].outputPath.value != ""
                              && tasks[taskId].outputPath.value in files
    ensures r.VideoFile? ==> Some(r.path) == tasks[taskId].outputPath && r.path in files
                             && r.cleanup == [r.path]
    ensures r.StatusBody? <==> taskId in tasks && tasks[taskId].status in {Pending, Processing}
    ensures r.StatusBody? ==> r.status == StatusName(tasks[taskId].status)
    ensures r.ErrorBody? ==> r.status == "failed"
  {
    if taskId !in tasks then HttpError(404, NotFoundDetail)
    else
      var t := tasks[taskId];
      match t.status
      case Complete =>
        if t.outputPath.Some? && t.outputPath.value != "" && t.outputPath.value in files then
          VideoFile(t.outputPath.value, "video/mp4", "stitched_video.mp4", [t.outputPath.value])
        else ErrorBody("failed", MissingOutputError)
      case Failed =>
        ErrorBody("failed", if t.error.Some? then t.error.value else UnknownError)
      case _ => StatusBody(StatusName(t.status))
  }

  /** A completed task whose output no longer exists (or was never recorded) is reported
      as failed with "Output file not found.". */
  lemma CompleteWithoutOutput(tasks: map<string, Task>, files: set<string>, taskId: string)
    requires taskId in tasks && tasks[taskId].status == Complete
    requires tasks[taskId].outputPath.None? || tasks[taskId].outputPath.value !in files
    ensures StatusOf(tasks, files, taskId) == ErrorBody("failed", MissingOutputError)
  {
  }

  /** For a well-formed failed entry the recorded error is reported; the fallback text is
      never used. */
  lemma FailedReportsRecordedError(tasks: map<string, Task>, files: set<string>, taskId: string)
    requires taskId in tasks && tasks[taskId].status == Failed && WellFormed(tasks[taskId])
    ensures StatusOf(tasks, files, taskId) == ErrorBody("failed", tasks[taskId].error.value)
  {
  }

  /** A failed entry without a recorded error is answered with the fallback text. */
  lemma FailedWithoutErrorReportsUnknown(tasks: map<string, Task>, files: set<string>, taskId: string)
    requires taskId in tasks && tasks[taskId].status == Failed && tasks[taskId].error.None?
    ensures StatusOf(tasks, files, taskId) == ErrorBody("failed", UnknownError)
  {
  }

  /** The video can be fetched once: the removal scheduled by the first successful poll
      makes the next poll report the output as missing (unless that removal is refused). */
  lemma RetrievalIsOneShot(tasks: map<string, Task>, files: set<string>, taskId: string,
                           denied: set<string>)
    requires StatusOf(tasks, files, taskId).VideoFile?
    requires StatusOf(tasks, files, taskId).path !in denied
    ensures StatusOf(tasks, Cleaned(files, Scheduled(StatusOf(tasks, files, taskId)), denied), taskId)
         == ErrorBody("failed", MissingOutputError)
  {
    var p := StatusOf(tasks, files, taskId).path;
    assert p !in Cleaned(files, [p], denied);
  }
}
