# Image + audio stitching tasks

A model of the asynchronous stitching service in `main.py`. A client submits one still
image, one audio track and a quality name. The service saves both uploads in a temp
directory and records the task as `pending` in an in-memory registry. A background worker
later runs ffmpeg to loop the image over the audio. It marks the task `complete` or
`failed` and removes the two uploads. A status poll answers from the registry and sends the
video once. After it is sent, the video is removed.

Modules:

- `Quality` (`quality.dfy`): the quality-to-bitrate table and its fallback to `low`.
- `FfmpegCommand` (`ffmpeg_command.dfy`): the encoder's argument list. It also has a
  positional reading of an ffmpeg command line (`Decode`): options before an `-i` belong to
  that input, options after the last input belong to the output, and the last element is
  the output file. The argument list is proved against this reading.
- `Artifacts` (`artifacts.dfy`): the temp paths derived from a task id, the outcome of saving an
  upload, and `cleanup_files` as a `FileSystem` class whose `files` field is the set of
  paths that exist.
- `Tasks` (`tasks.dfy`): a registry entry `{status, output_path?, error?}` and what the worker
  does to it.
- `StatusQuery` (`status_query.dfy`): the response to a poll, as a function of the registry
  and the existing files.
- `Stitching` (`stitching.dfy`): the `Service` class that holds the registry, with `Submit`,
  `ProcessTask` and `GetStatus`. It also holds the lemmas about a task's whole lifecycle.

The model treats several things as parameters:

- the fresh uuid is the caller-supplied `taskId`, with `taskId !in tasks`;
- each extension is what `os.path.splitext` gave, or `None` when the upload has no filename;
- each save is a `SaveOutcome`;
- the process runner is a total function from the argument list to a `ProcessResult`;
- the paths whose `os.remove` raises `OSError` are the set `denied`.

The background hand-off is an explicit later call to `ProcessTask` with the `Job` that
`Submit` returned.

Some facts about `main.py` that shape the model:

- There is no retention sweeper. The output is removed after its first successful
  retrieval (`RetrievalIsOneShot`).
- A `complete` task whose output is gone is answered
  `{"status": "failed", "error": "Output file not found."}`.
- The worker marks a task `complete` on exit status 0 without checking that the output file
  exists.
- When the audio save fails, the image already saved stays on disk (`FilesAfterSubmit`).
- A job has exactly one image upload and one audio upload. There are no URL inputs and no
  joining of several audio tracks.

## Model

| member | source | states |
|---|---|---|
| `Quality.BitratesFor` | main.py:54-59 | the chosen pair is always one of the table's pairs; an unknown quality name gets the pair of `low` |
| `Quality.QualityLookup` | main.py:54-59 | `high`→(2000k,192k), `medium`→(1000k,128k), `low`→(500k,96k), any other string→(500k,96k) |
| `FfmpegCommand.StitchCommand` | main.py:18-23 | the `cmd` list: 21 elements, the program `ffmpeg` first and the output path last |
| `FfmpegCommand.StitchCommandDecodes` | main.py:18-23 | for all paths and bitrates, the argv reads back as program `ffmpeg` with exactly two inputs: the image with `-loop 1`, then the audio with no input options. The output options carry the given bitrates, and the output path is the last element |
| `FfmpegCommand.StitchBitrates` | main.py:20-21 | `-b:v` is given exactly once, with the video bitrate; `-b:a` is given exactly once, with the audio bitrate |
| `Stitching.JobCommand` | main.py:18-25 | the command the worker runs for a job decodes to that job's image, audio, bitrates and output path |
| `Artifacts.TaskPath` | main.py:67-69 | a path is the temp directory, `/`, the task id and the extension, in that order |
| `Artifacts.ExtOrDefault` | main.py:65-66 | the extension taken from the filename, or the default when the upload has no filename |
| `Artifacts.SameTaskPaths` | main.py:67-69 | two artifact paths of one task are equal if and only if their extensions are equal |
| `Artifacts.DistinctTaskPaths` | main.py:62-69 | distinct task ids of equal length (uuid4 strings) never produce the same artifact path |
| `Artifacts.FileSystem.Save` | main.py:72-78 | a save succeeds exactly when the outcome is `Saved`; the file exists afterwards unless `open` itself failed |
| `Artifacts.Cleaned` | main.py:114-121 | afterwards a path exists exactly when it existed before and was either not listed or its removal was refused |
| `Artifacts.FileSystem.CleanupFiles` | main.py:114-121 | the loop leaves exactly the files `Cleaned` describes and never fails |
| `Artifacts.CleanupIdempotent` | main.py:114-121 | cleaning up the same list twice has the same effect as cleaning it up once |
| `Tasks.Finished` | main.py:27-40 | after the worker an entry is `complete` if and only if the exit status was 0, and then `output_path` is the output video; otherwise it is `failed`, and `error` is the captured stderr or the message of the raised exception; the entry is well formed |
| `Tasks.AfterWorker` | main.py:13-40 | the worker keeps the registry's keys and every other entry, and leaves its own entry `complete` or `failed`; an unknown id leaves the registry unchanged |
| `Tasks.WorkerKeepsWellFormed` | main.py:32-40 | a registry where every `complete` entry has an output path and every `failed` entry has an error keeps that property through the worker |
| `StatusQuery.StatusOf` | main.py:94-112 | the answer is 404 if and only if the id is unknown. It is the video file if and only if the entry is `complete` and its recorded output exists, and then the video is scheduled for removal. It echoes the status if and only if the entry is `pending` or `processing`. Every error body says `failed` |
| `StatusQuery.CompleteWithoutOutput` | main.py:99-106 | a `complete` entry without an existing output gets `{"status": "failed", "error": "Output file not found."}` |
| `StatusQuery.FailedReportsRecordedError` | main.py:108-109 | a well-formed `failed` entry gets its own recorded error, never the fallback text |
| `StatusQuery.FailedWithoutErrorReportsUnknown` | main.py:108-109 | a `failed` entry without an `error` key is answered with "An unknown error occurred." |
| `StatusQuery.RetrievalIsOneShot` | main.py:101-106 | after the video is sent and its scheduled removal succeeds, the next poll reports the output as not found |
| `Stitching.JobFor` | main.py:54-69 | the job carries the task id and exactly the bitrate pair `BitratesFor` gives the requested quality (the `low` pair for an unknown quality). The output path ends in `.mp4`, and a missing filename gives an image path ending in `.jpg` and an audio path ending in `.mp3` |
| `Stitching.InputPaths` | main.py:43 | the worker's cleanup list has two entries and holds exactly the image and the audio path. It contains the output path if and only if the output path equals one of them |
| `Stitching.FilesAfterSubmit` | main.py:72-78 | the files afterwards are exactly the old files, plus the image path unless opening it failed, plus the audio path when the image was saved and opening the audio did not fail. So an image saved before a failed audio save stays, and a failed copy leaves the file it opened |
| `Stitching.SubmitResponse` | main.py:72-90 | the submission is accepted if and only if both saves succeeded, and then it carries the message "Stitching job accepted.", the given task id and the derived job; otherwise it is a 500 whose detail is the prefix followed by the first failure's message |
| `Stitching.Service.constructor` | main.py:5 | the registry starts empty |
| `Stitching.Service.Submit` | main.py:47-90 | the reply is `SubmitResponse`. The registry gains exactly the entry `{'status': 'pending'}` under the fresh id if accepted, and is unchanged otherwise. The files are the ones the saves left |
| `Stitching.Service.ProcessTask` | main.py:8-43 | the entry is first the old entry with status `processing` (the first element of `trace`), then takes its final status. The registry becomes `AfterWorker` of the runner's result on the job's command. The inputs are removed on every path, including the KeyError for an unknown id |
| `Stitching.Service.GetStatus` | main.py:94-112 | the reply is `StatusOf` of the registry and the files. The registry is unchanged, and the only removal is the video that was sent |
| `Stitching.JobPaths` | main.py:63-69 | the image, audio and output paths are `/app/media/temp/<id><ext>`. The output extension is `.mp4`, and the defaults are `.jpg` and `.mp3` |
| `Stitching.JobPathsDistinct` | main.py:65-69 | the three paths are pairwise distinct exactly when the upload extensions differ and neither is `.mp4` (each pair as an if-and-only-if) |
| `Stitching.DistinctJobsShareNoFile` | main.py:62-69 | two tasks with distinct uuid-length ids share no image, audio or output path |
| `Stitching.DistinctTaskFiles` | main.py:67-69 | the three paths of one id and the three paths of another id of the same length are disjoint |
| `Stitching.SubmittedTaskIsPending` | main.py:81 | right after submission, a poll answers `{"status": "pending"}` |
| `Stitching.WorkerEndsInFlight` | main.py:13-40 | after the worker, a poll for a known task is neither `pending`/`processing` nor 404 |
| `Stitching.FailedRunReportsDiagnostic` | main.py:36-40 | after a failed run, a poll answers `failed` with exactly the text the worker captured |
| `Stitching.SuccessfulJobServesVideo` | main.py:32-43 | say the encoder exits 0 after writing the output, and neither upload has the `.mp4` extension. Then after the worker's cleanup, the poll serves the video |
| `Stitching.Mp4UploadLosesOutput` | main.py:41-43 | if either upload has the `.mp4` extension, the output path is on the worker's cleanup list. Whatever the encoder did, that path is gone afterwards unless its removal is refused, so no poll serves a video |

## Left out

- FastAPI wiring (routing, `UploadFile`, `HTTPException`, `FileResponse`, `BackgroundTasks`): responses are datatypes, and the background task is a later explicit call.
- `subprocess.run` and ffmpeg itself: the runner is a function parameter, and its effect on the filesystem is the `written` set of its result.
- `uuid.uuid4()`: the id is a parameter that is required to be fresh.
- `os.path.splitext`: the extension is a parameter.
- `os.path.join`: modelled as concatenation with `/`, which is what it does for a name without a leading `/`.
- `os.makedirs` of the temp directory: not modelled; it is assumed to succeed.
- The byte contents of files: a save only makes its path exist or not exist.
- The `print` logging, including the error messages `cleanup_files` prints for refused removals.
- Interleaving of background workers with status polls: the operations are modelled one at a time. The intermediate `processing` entry appears only in `ProcessTask`'s ghost `trace`.
- app.py: a Flask hello route and an `/add` route that adds two JSON values. It has no logic to model.
- The `if not task` test in the status endpoint: it is modelled as "id not in the registry". Every entry holds a `status` key, so an entry is never an empty dictionary.
