/** The stitching service: the module-level task registry (main.py:5), job submission
    (main.py:47-90), the background worker (main.py:8-43) and the status endpoint
    (main.py:94-112). The registry is a field of a `Service`; the filesystem is a
    `FileSystem` the service shares with the operating system. */
module Stitching {
  import opened Wrappers
  import opened Quality
  import opened FfmpegCommand
  import opened Artifacts
  import opened Tasks
  import opened StatusQuery

  /** The arguments a submission hands to the background worker. */
  datatype Job = Job(taskId: string, imagePath: string, audioPath: string, outputPath: string,
                     videoBitrate: string, audioBitrate: string)

  const DefaultImageExt: string := ".jpg"
  const DefaultAudioExt: string := ".mp3"
  const OutputExt: string := ".mp4"

  /** The job a submission prepares: the bitrates chosen by `quality`, and the three paths
      derived from the task id and the uploads' extensions. */
  function JobFor(taskId: string, quality: string, imageExt: Option<string>,
                  audioExt: Option<string>): (job: Job)
    ensures job.taskId == taskId
    ensures Bitrates(job.videoBitrate, job.audioBitrate) == BitratesFor(quality)
    ensures quality !in BitrateTable ==> Bitrates(job.videoBitrate, job.audioBitrate) == BitrateTable["low"]
    ensures |job.outputPath| >= |OutputExt| && job.outputPath[|job.outputPath| - |OutputExt|..] == OutputExt
    ensures imageExt.None? ==> |job.imagePath| >= |DefaultImageExt|
                               && job.imagePath[|job.imagePath| - |DefaultImageExt|..] == DefaultImageExt
    ensures audioExt.None? ==> |job.audioPath| >= |DefaultAudioExt|
                               && job.audioPath[|job.audioPath| - |DefaultAudioExt|..] == DefaultAudioExt
  {
    var bitrates := BitratesFor(quality);
    Job(taskId,
        TaskPath(taskId, ExtOrDefault(imageExt, DefaultImageExt)),
        TaskPath(taskId, ExtOrDefault(audioExt, DefaultAudioExt)),
        TaskPath(taskId, OutputExt),
        bitrates.video, bitrates.audio)
  }

  /** The encoder command of a job. */
  function CommandFor(job: Job): seq<string>
  {
    StitchCommand(job.imagePath, job.audioPath, job.outputPath, job.videoBitrate, job.audioBitrate)
  }

  /** The files the worker removes when it ends. */
  function InputPaths(job: Job): (paths: seq<string>)
    ensures |paths| == 2
    ensures forall p :: p in paths <==> p == job.imagePath || p == job.audioPath
    ensures job.outputPath in paths <==> job.outputPath == job.imagePath || job.outputPath == job.audioPath
  {
    [job.imagePath, job.audioPath]
  }

  /** The submission's reply. */
  datatype Submission =
    | Accepted(message: string, taskId: string, job: Job)
    | Rejected(statusCode: int, detail: string)

  const AcceptedMessage: string := "Stitching job accepted."
  const SaveFailedPrefix: string := "Failed to save uploaded files: "

  /** The reply to a submission: 500 with the message of the first failed save, or the
      accepted job. */
  function SubmitResponse(taskId: string, quality: string, imageExt: Option<string>,
                          audioExt: Option<string>, imageSave: SaveOutcome,
                          audioSave: SaveOutcome): (r: Submission)
    ensures r.Accepted? <==> imageSave.Saved? && audioSave.Saved?
    ensures r.Accepted? ==> r.taskId == taskId && r.job == JobFor(taskId, quality, imageExt, audioExt)
    ensures r.Accepted? ==> r.message == AcceptedMessage
    ensures r.Rejected? ==> r.statusCode == 500
    ensures r.Rejected? ==>
              r.detail == SaveFailedPrefix + (if imageSave.Saved? then audioSave.Message()
                                              else imageSave.Message())
  {
    if !imageSave.Saved? then Rejected(500, SaveFailedPrefix + imageSave.Message())
    else if !audioSave.Saved? then Rejected(500, SaveFailedPrefix + audioSave.Message())
    else Accepted(AcceptedMessage, taskId, JobFor(taskId, quality, imageExt, audioExt))
  }

  /** The path a save leaves on disk. */
  function SavedPath(path: string, outcome: SaveOutcome): set<string>
  {
    if outcome.OpenFailed? then {} else {path}
  }

  /** The files after the uploads were saved; the audio is not attempted once the image
      failed, and a file left by a failed save is not removed. */
  function FilesAfterSubmit(files: set<string>, job: Job, imageSave: SaveOutcome,
                            audioSave: SaveOutcome): (r: set<string>)
    ensures forall p :: p in r <==>
                          || p in files
                          || (p == job.imagePath && !imageSave.OpenFailed?)
                          || (p == job.audioPath && imageSave.Saved? && !audioSave.OpenFailed?)
    ensures files <= r && r - files <= {job.imagePath, job.audioPath}
    ensures imageSave.OpenFailed? ==> r == files
    ensures imageSave.Saved? && audioSave.Saved? ==> job.imagePath in r && job.audioPath in r
    ensures !imageSave.Saved? ==> job.audioPath !in r - files || job.audioPath == job.imagePath
  {
    files + SavedPath(job.imagePath, imageSave)
          + (if imageSave.Saved? then SavedPath(job.audioPath, audioSave) else {})
  }

  /** How the background call ended: it returned, or it raised KeyError because the
      registry has no entry for the task. */
  datatype WorkerOutcome = Returned | RaisedKeyError

  class Service {
    var tasks: map<string, Task>
    const fs: FileSystem

    /** Every entry is well formed. */
    ghost predicate Valid()
      reads this
    {
      forall id :: id in tasks ==> WellFormed(tasks[id])
    }

    constructor (fs: FileSystem)
      ensures Valid() && tasks == map[] && this.fs == fs
    {
      tasks := map[];
      this.fs := fs;
    }

    /** `submit_stitching_job`, with the fresh uuid given as `taskId` and the extensions
        taken from the uploads' filenames (`None` when an upload has no filename). */
    method Submit(taskId: string, quality: string, imageExt: Option<string>,
                  audioExt: Option<string>, imageSave: SaveOutcome, audioSave: SaveOutcome)
      returns (r: Submission)
      requires Valid() && taskId !in tasks
      modifies this, fs
      ensures Valid()
      ensures r == SubmitResponse(taskId, quality, imageExt, audioExt, imageSave, audioSave)
      ensures tasks == if r.Accepted? then old(tasks)[taskId := NewTask] else old(tasks)
      ensures fs.files == FilesAfterSubmit(old(fs.files), JobFor(taskId, quality, imageExt, audioExt),
                                           imageSave, audioSave)
    {
      var bitrates := BitratesFor(quality);
      var imagePath := TaskPath(taskId, ExtOrDefault(imageExt, DefaultImageExt));
      var audioPath := TaskPath(taskId, ExtOrDefault(audioExt, DefaultAudioExt));
      var outputPath := TaskPath(taskId, OutputExt);
      var job := Job(taskId, imagePath, audioPath, outputPath, bitrates.video, bitrates.audio);

      var saved := fs.Save(imagePath, imageSave);
      if !saved {
        return Rejected(500, SaveFailedPrefix + imageSave.Message());
      }
      saved := fs.Save(audioPath, audioSave);
      if !saved {
        return Rejected(500, SaveFailedPrefix + audioSave.Message());
      }
      tasks := tasks[taskId := NewTask];
      r := Accepted(AcceptedMessage, taskId, job);
    }

    /** `process_stitching_task`, with the process runner given as `run`. `trace` records
        the entry after each status write, in order. */
    method ProcessTask(job: Job, run: seq<string> -> ProcessResult, denied: set<string>)
      returns (outcome: WorkerOutcome, ghost trace: seq<Task>)
      requires Valid()
      modifies this, fs
      ensures Valid()
      ensures outcome == if job.taskId in old(tasks) then Returned else RaisedKeyError
      ensures tasks == AfterWorker(old(tasks), job.taskId, run(CommandFor(job)), job.outputPath)
      ensures job.taskId in old(tasks) ==>
                |trace| == 2 && trace[0] == old(tasks)[job.taskId].(status := Processing)
                && trace[1].status == tasks[job.taskId].status
      ensures fs.files == Cleaned(old(fs.files) + (if job.taskId in old(tasks)
                                                   then Written(run(CommandFor(job))) else {}),
                                  InputPaths(job), denied)
    {
      trace := [];
      var id := job.taskId;
      if id !in tasks {
        // The first write raises KeyError, and so does the handler's; only `finally` runs.
        fs.CleanupFiles(InputPaths(job), denied);
        return RaisedKeyError, trace;
      }
      tasks := tasks[id := tasks[id].(status := Processing)];
      trace := trace + [tasks[id]];

      var cmd := CommandFor(job);
      var result := run(cmd);
      // The files the encoder itself wrote (normally the output video).
      fs.files := fs.files + Written(result);

      if result.Exited? && result.returncode == 0 {
        tasks := tasks[id := tasks[id].(status := Complete)];
        tasks := tasks[id := tasks[id].(outputPath := Some(job.outputPath))];
      } else {
        tasks := tasks[id := tasks[id].(status := Failed)];
        tasks := tasks[id := tasks[id].(error := Some(FailureText(result)))];
      }
      trace := trace + [tasks[id]];

      fs.CleanupFiles(InputPaths(job), denied);
      outcome := Returned;
    }

    /** `get_stitching_status`: the response, and the scheduled removal of a video once it
        has been sent. The registry is only read. */
    method GetStatus(taskId: string, denied: set<string>) returns (r: Response)
      modifies fs
      ensures r == StatusOf(tasks, old(fs.files), taskId)
      ensures tasks == old(tasks)
      ensures fs.files == Cleaned(old(fs.files), Scheduled(r), denied)
    {
      r := StatusOf(tasks, fs.files, taskId);
      if r.VideoFile? {
        fs.CleanupFiles(r.cleanup, denied);
      } else {
        assert Cleaned(fs.files, [], denied) == fs.files;
      }
    }
  }

  /** The derived paths: all in the temp directory under the task id, the output always
      `.mp4`, the defaults for uploads without a filename. */
  lemma JobPaths(taskId: string, quality: string, imageExt: Option<string>, audioExt: Option<string>)
    ensures JobFor(taskId, quality, imageExt, audioExt).outputPath == TempDir + "/" + taskId + ".mp4"
    ensures imageExt.None? ==> JobFor(taskId, quality, imageExt, audioExt).imagePath == TempDir + "/" + taskId + ".jpg"
    ensures audioExt.None? ==> JobFor(taskId, quality, imageExt, audioExt).audioPath == TempDir + "/" + taskId + ".mp3"
    ensures imageExt.Some? ==> JobFor(taskId, quality, imageExt, audioExt).imagePath == TempDir + "/" + taskId + imageExt.value
    ensures audioExt.Some? ==> JobFor(taskId, quality, imageExt, audioExt).audioPath == TempDir + "/" + taskId + audioExt.value
  {
  }

  /** The three paths of a job are pairwise distinct exactly when the two upload
      extensions differ and neither is `.mp4`. */
  lemma JobPathsDistinct(taskId: string, quality: string, imageExt: Option<string>, audioExt: Option<string>)
    ensures var job := JobFor(taskId, quality, imageExt, audioExt);
            var ie := ExtOrDefault(imageExt, DefaultImageExt);
            var ae := ExtOrDefault(audioExt, DefaultAudioExt);
            (job.imagePath != job.audioPath <==> ie != ae) &&
            (job.imagePath != job.outputPath <==> ie != OutputExt) &&
            (job.audioPath != job.outputPath <==> ae != OutputExt)
  {
    var ie := ExtOrDefault(imageExt, DefaultImageExt);
    var ae := ExtOrDefault(audioExt, DefaultAudioExt);
    SameTaskPaths(taskId, ie, ae);
    SameTaskPaths(taskId, ie, OutputExt);
    SameTaskPaths(taskId, ae, OutputExt);
  }

  /** Two jobs with distinct ids of one length (uuid4 strings) share no file. */
  lemma DistinctJobsShareNoFile(id1: string, id2: string, quality1: string, quality2: string,
                                imageExt1: Option<string>, audioExt1: Option<string>,
                                imageExt2: Option<string>, audioExt2: Option<string>)
    requires |id1| == |id2| && id1 != id2
    ensures var j1 := JobFor(id1, quality1, imageExt1, audioExt1);
            var j2 := JobFor(id2, quality2, imageExt2, audioExt2);
            {j1.imagePath, j1.audioPath, j1.outputPath} !! {j2.imagePath, j2.audioPath, j2.outputPath}
  {
    DistinctTaskFiles(id1, id2, ExtOrDefault(imageExt1, DefaultImageExt), ExtOrDefault(audioExt1, DefaultAudioExt),
                      ExtOrDefault(imageExt2, DefaultImageExt), ExtOrDefault(audioExt2, DefaultAudioExt));
  }

  /** The three files of one task and the three files of another are disjoint. */
  lemma DistinctTaskFiles(id1: string, id2: string, image1: string, audio1: string,
                          image2: string, audio2: string)
    requires |id1| == |id2| && id1 != id2
    ensures {TaskPath(id1, image1), TaskPath(id1, audio1), TaskPath(id1, OutputExt)}
         !! {TaskPath(id2, image2), TaskPath(id2, audio2), TaskPath(id2, OutputExt)}
  {
    DistinctTaskPaths(id1, id2, image1, image2);
    DistinctTaskPaths(id1, id2, image1, audio2);
    DistinctTaskPaths(id1, id2, image1, OutputExt);
    DistinctTaskPaths(id1, id2, audio1, image2);
    DistinctTaskPaths(id1, id2, audio1, audio2);
    DistinctTaskPaths(id1, id2, audio1, OutputExt);
    DistinctTaskPaths(id1, id2, OutputExt, image2);
    DistinctTaskPaths(id1, id2, OutputExt, audio2);
    DistinctTaskPaths(id1, id2, OutputExt, OutputExt);
  }

  /** A just-submitted task is reported as pending. */
  lemma SubmittedTaskIsPending(tasks: map<string, Task>, files: set<string>, taskId: string)
    ensures StatusOf(tasks[taskId := NewTask], files, taskId) == StatusBody("pending")
  {
  }

  /** Once the worker has run for a known task, a poll never reports it pending or
      processing. */
  lemma WorkerEndsInFlight(tasks: map<string, Task>, files: set<string>, taskId: string,
                           result: ProcessResult, outputPath: string)
    requires taskId in tasks
    ensures !StatusOf(AfterWorker(tasks, taskId, result, outputPath), files, taskId).StatusBody?
    ensures !StatusOf(AfterWorker(tasks, taskId, result, outputPath), files, taskId).HttpError?
  {
  }

  /** A failed run is reported with exactly the text the worker captured. */
  lemma FailedRunReportsDiagnostic(tasks: map<string, Task>, files: set<string>, taskId: string,
                                   result: ProcessResult, outputPath: string)
    requires taskId in tasks && !Succeeded(result)
    ensures StatusOf(AfterWorker(tasks, taskId, result, outputPath), files, taskId)
         == ErrorBody("failed", FailureText(result))
  {
  }

  /** End to end: a job whose encoder exits 0 after writing the output, and whose uploads
      are not `.mp4` files, is served as the video once the worker has cleaned up. */
  lemma SuccessfulJobServesVideo(tasks: map<string, Task>, files: set<string>, taskId: string,
                                 quality: string, imageExt: Option<string>, audioExt: Option<string>,
                                 result: ProcessResult, denied: set<string>)
    requires taskId in tasks && Succeeded(result)
    requires ExtOrDefault(imageExt, DefaultImageExt) != OutputExt
    requires ExtOrDefault(audioExt, DefaultAudioExt) != OutputExt
    requires JobFor(taskId, quality, imageExt, audioExt).outputPath in Written(result)
    ensures var job := JobFor(taskId, quality, imageExt, audioExt);
            StatusOf(AfterWorker(tasks, taskId, result, job.outputPath),
                     Cleaned(files + Written(result), InputPaths(job), denied), taskId)
            == VideoFile(job.outputPath, "video/mp4", "stitched_video.mp4", [job.outputPath])
  {
    var job := JobFor(taskId, quality, imageExt, audioExt);
    JobPathsDistinct(taskId, quality, imageExt, audioExt);
    assert job.outputPath !in InputPaths(job);
    assert job.outputPath in Cleaned(files + Written(result), InputPaths(job), denied);
  }

  /** An upload with the `.mp4` extension shares its path with the output, so the output
      path is on the worker's cleanup list: whatever the encoder did, the path is gone after
      the worker (unless its removal is refused) and a poll never serves a video. */
  lemma Mp4UploadLosesOutput(tasks: map<string, Task>, files: set<string>, taskId: string,
                             quality: string, imageExt: Option<string>, audioExt: Option<string>,
                             result: ProcessResult, denied: set<string>)
    requires ExtOrDefault(imageExt, DefaultImageExt) == OutputExt
          || ExtOrDefault(audioExt, DefaultAudioExt) == OutputExt
    requires JobFor(taskId, quality, imageExt, audioExt).outputPath !in denied
    ensures var job := JobFor(taskId, quality, imageExt, audioExt);
            job.outputPath in InputPaths(job)
            && job.outputPath !in Cleaned(files + Written(result), InputPaths(job), denied)
            && !StatusOf(AfterWorker(tasks, taskId, result, job.outputPath),
                         Cleaned(files + Written(result), InputPaths(job), denied), taskId).VideoFile?
  {
    JobPathsDistinct(taskId, quality, imageExt, audioExt);
  }

  /** The worker's command is the one the job describes: two inputs, the looped image
      first and the audio second, the job's bitrates, the job's output last. */
  lemma JobCommand(job: Job)
    ensures Decode(CommandFor(job))
         == Some(Invocation("ffmpeg",
                            [Input([Valued("-loop", "1")], job.imagePath), Input([], job.audioPath)],
                            StitchOutputOptions(job.videoBitrate, job.audioBitrate),
                            job.outputPath))
    ensures ValuesOf(Decode(CommandFor(job)).value.outputOptions, "-b:v") == [job.videoBitrate]
    ensures ValuesOf(Decode(CommandFor(job)).value.outputOptions, "-b:a") == [job.audioBitrate]
  {
    StitchCommandDecodes(job.imagePath, job.audioPath, job.outputPath, job.videoBitrate, job.audioBitrate);
    StitchBitrates(job.videoBitrate, job.audioBitrate);
  }
}
