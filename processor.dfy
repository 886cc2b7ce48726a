/** API_file_processor: for every configured folder, every file goes through job/add,
    job/upload, a bounded job/status poll, the download of the result and the move of the
    original. The outside world (HTTP replies, the file system, the clock) is an input;
    what the processor sends and changes is recorded as a sequence of effects. */
module Processor {
  import opened Wrappers
  import opened Json
  import opened Responses
  import opened Builders

  const ProcessedFolderName := "api_processed_files"

  /** `Path(dir) / name`. */
  function JoinPath(dir: string, name: string): string {
    dir + "/" + name
  }

  // ------------------------------------------------------------ the world

  /** A path as os.path.exists, os.path.isdir and os.makedirs see it. */
  datatype PathState = Missing(creatable: bool) | Directory | NotDirectory

  /** check_folder_path_exists (lines 239-247). */
  predicate FolderPathExists(p: PathState) {
    p.Directory?
  }

  /** check_and_create_processed_files_folder and check_and_create_output_folder
      (lines 251-285): an existing directory, or a missing path makedirs can create. */
  predicate EnsureFolder(p: PathState) {
    p.Directory? || (p.Missing? && p.creatable)
  }

  /** The answer to the download GET: it raised, or a status code, the
      Content-Disposition header, and whether writing the file succeeded. */
  datatype DownloadReply =
    | DownloadRaised
    | DownloadAnswer(statusCode: int, disposition: Option<string>, written: bool)

  /** What the world answers while one file is processed: its name in the folder, the
      job/add and job/upload replies, whether open(file, 'rb') succeeds, the successive
      job/status replies (missing ones read as failed requests), the download, the two
      clock readings and whether shutil.move succeeds. */
  datatype FileEnv = FileEnv(
    name: string,
    add: Reply,
    readable: bool,
    upload: Reply,
    polls: seq<Reply>,
    download: DownloadReply,
    downloadClock: DateTime,
    moveClock: DateTime,
    moveOk: bool)

  /** What the world answers for one folder: its input, processed-files and output paths,
      and os.listdir of the input folder (None when listing raises). */
  datatype FolderEnv = FolderEnv(input: PathState, processed: PathState, output: PathState,
                                 listing: Option<seq<FileEnv>>)

  datatype Endpoint = Endpoint(url: string, payload: Json)

  /** One entry of "folders", as process_all_folders hands it to process_folder. */
  datatype FolderConfig = FolderConfig(folderPath: string, outputFolder: string, endpoint: Endpoint)

  /** What the processor does to the world, in order. */
  datatype Effect =
    | AddPost(url: string, data: map<string, Json>, headers: map<string, string>)
    | UploadPost(url: string, path: string, headers: map<string, string>)
    | StatusGet(url: string)
    | DownloadGet(link: Json)
    | Saved(path: string)
    | Moved(source: string, destination: string)

  function Repeat(e: Effect, n: nat): (r: seq<Effect>)
    ensures |r| == n && forall k :: 0 <= k < n ==> r[k] == e
  {
    if n == 0 then [] else Repeat(e, n - 1) + [e]
  }

  /** The endpoint after one job/add: the marker persisted into a non-empty payload dict. */
  function MarkEndpoint(ep: Endpoint): Endpoint {
    ep.(payload := JobAddPayload(ep.payload).persisted)
  }

  // ------------------------------------------------------------ one file

  /** How the handling of one file ends: on to the next file (`continue`, or the end of
      the body), out of the folder (`break`), or out of the process (sys_exit()). */
  datatype FileExit = NextFile | EndFolder | Terminate

  /** Either go on with a value, or leave the file with an exit. */
  datatype Stage<T> = Proceed(value: T) | Stop(exit: FileExit)

  /** The three tests process_files applies to a job/add or job/upload reply
      (lines 586-594, 609-617): no status code skips the file, a code the check rejects
      ends the folder, 401 ends the run, and an empty body skips the file. */
  function ReplyGate(r: Reply): (s: Stage<Json>)
    ensures s == Stop(NextFile) <==>
      r.NoReply? || r.statusCode == 0 || (r.statusCode != 401 && r.statusCode != 429 && !Truthy(r.body))
    ensures s == Stop(EndFolder) <==> r.Reply? && r.statusCode == 429
    ensures s == Stop(Terminate) <==> r.Reply? && r.statusCode == 401
    ensures s.Proceed? ==> r.Reply? && s.value == r.body && Truthy(r.body)
  {
    if r.NoReply? || r.statusCode == 0 then Stop(NextFile)
    else match CheckResponseStatusCode(Some(r.statusCode))
      case Fatal => Stop(Terminate)
      case Reject => Stop(EndFolder)
      case Accept => if Truthy(r.body) then Proceed(r.body) else Stop(NextFile)
  }

  /** Lines 584-605: the job/add reply yields the assigned host and the job id, read
      outside any try (a missing one ends the run). */
  function AddStage(r: Reply): Stage<(Json, Json)> {
    match ReplyGate(r)
    case Stop(exit) => Stop(exit)
    case Proceed(body) =>
      match CheckJobAddResponseStatusKey(body)
      case Fatal => Stop(Terminate)
      case Reject => Stop(NextFile)
      case Accept =>
        match (Get(body, "job_assigned_api_endpoint"), Get(body, "job_id"))
        case (Some(host), Some(jobId)) => Proceed((host, jobId))
        case _ => Stop(Terminate)
  }

  /** Lines 609-622. */
  function UploadStage(r: Reply): Stage<Json> {
    match ReplyGate(r)
    case Stop(exit) => Stop(exit)
    case Proceed(body) =>
      match CheckJobUploadResponseStatusKey(body)
      case Fatal => Stop(Terminate)
      case Reject => Stop(NextFile)
      case Accept => Proceed(body)
  }

  /** How the poll loop ends: the flags skip_file / skip_folder, sys_exit(), or a break
      with the value downloadlink then holds (None, here JNull, if the loop ran out). */
  datatype PollEnd = PollSkipFile | PollSkipFolder | PollExit | PollDone(downloadlink: Json)

  datatype PollStep = KeepPolling | StopPolling(end: PollEnd)

  /** `range(next_call_in_seconds, -1, -1)` needs an int (a bool is one in Python);
      anything else, or a missing key, raises to the top-level handler. */
  predicate CanWait(body: Json) {
    match Get(body, "next_call_in_seconds")
    case Some(JInt(_)) => true
    case Some(JBool(_)) => true
    case _ => false
  }

  /** The i-th status reply; replies past the end read as failed requests. */
  function PollReply(polls: seq<Reply>, i: nat): Reply {
    if i < |polls| then polls[i] else NoReply
  }

  /** One pass of the body of `for i in range(100)` (lines 635-676) on a reply as
      send_request_job_status returns it. */
  function PollStepAt(i: nat, r: Reply): PollStep {
    if r.NoReply? || r.statusCode == 0 then StopPolling(PollSkipFile)
    else match CheckResponseStatusCode(Some(r.statusCode))
      case Fatal => StopPolling(PollExit)
      case Reject => StopPolling(PollSkipFolder)
      case Accept =>
        if !Truthy(r.body) then StopPolling(PollSkipFile)
        else match CheckJobStatusResponseStatusKey(r.body)
          case StatusFatal => StopPolling(PollExit)
          case StatusReject => StopPolling(PollSkipFile)
          case Status(Failed) => StopPolling(PollSkipFile)
          case Status(Completed) =>
            (match Get(r.body, "downloadlink")
             case None => StopPolling(PollExit)
             case Some(link) => StopPolling(PollDone(link)))
          case Status(_) =>
            if i >= 30 then StopPolling(PollSkipFile)
            else if CanWait(r.body) then KeepPolling
            else StopPolling(PollExit)
  }

  /** How the poll loop ends and how many status requests it sends from pass i on. */
  datatype PollResult = PollResult(end: PollEnd, requests: nat)

  function PollFrom(polls: seq<Reply>, i: nat): PollResult
    decreases 100 - i
  {
    if i >= 100 then PollResult(PollDone(JNull), 0)
    else match PollStepAt(i, StatusReply(PollReply(polls, i)))
      case StopPolling(end) => PollResult(end, 1)
      case KeepPolling =>
        var rest := PollFrom(polls, i + 1);
        PollResult(rest.end, rest.requests + 1)
  }

  /** PollFrom unfolded once at a pass the loop reaches. */
  lemma PollFromAt(polls: seq<Reply>, i: nat)
    requires i < 100
    ensures var s := PollStepAt(i, StatusReply(PollReply(polls, i)));
      PollFrom(polls, i) ==
        if s.StopPolling? then PollResult(s.end, 1)
        else PollResult(PollFrom(polls, i + 1).end, PollFrom(polls, i + 1).requests + 1)
  {
  }

  /** download_processed_job_files (lines 522-555): the path the result is written to, or
      None where it returns False. */
  function SavedPath(reply: DownloadReply, outputFolder: string, originalName: string,
                     clock: DateTime, utf8: seq<Byte> -> Option<string>): (r: Option<string>)
    ensures r.Some? ==> reply.DownloadAnswer? && reply.statusCode == 200 && reply.written
    ensures reply.DownloadAnswer? && reply.statusCode == 200 && reply.written &&
            reply.disposition.None? ==>
      r == Some(JoinPath(outputFolder, StampedName(clock, originalName)))
    ensures reply.DownloadAnswer? && reply.statusCode == 200 && reply.written ==>
      (r.Some? <==> DownloadFileName(reply.disposition, originalName, utf8).Some?)
    ensures reply.DownloadAnswer? && reply.statusCode == 200 && reply.written &&
            DownloadFileName(reply.disposition, originalName, utf8).Some? ==>
      r == Some(JoinPath(outputFolder, StampedName(clock, DownloadFileName(reply.disposition, originalName, utf8).value)))
  {
    if reply.DownloadRaised? || reply.statusCode != 200 then None
    else match DownloadFileName(reply.disposition, originalName, utf8)
      case None => None
      case Some(name) =>
        if reply.written then Some(JoinPath(outputFolder, StampedName(clock, name))) else None
  }

  /** The handling of one file: its exit, its effects, and whether total_files rises. */
  datatype FileRun = FileRun(exit: FileExit, effects: seq<Effect>, counted: bool)

  /** What stays fixed while the files of one folder are handled. */
  datatype Context = Context(apiKey: string, folderPath: string, processedFolder: string,
                             outputFolder: string, utf8: seq<Byte> -> Option<string>)

  /** Where the handling of a file stands: taken from the folder listing, before job/add,
      before job/upload and before job/status (with the host and job id job/add assigned),
      and before the download. */
  datatype Phase =
    | Listed(ep: Endpoint)
    | Adding(ep: Endpoint)
    | Uploading(host: string, jobId: string)
    | Polling(host: string, jobId: string)
    | Downloading(link: Json)

  function PhaseRank(phase: Phase): nat {
    match phase
    case Listed(_) => 4
    case Adding(_) => 3
    case Uploading(_, _) => 2
    case Polling(_, _) => 1
    case Downloading(_) => 0
  }

  function Done(exit: FileExit): FileRun {
    FileRun(exit, [], false)
  }

  /** r, preceded by the effects pre. */
  function Then(pre: seq<Effect>, r: FileRun): FileRun {
    r.(effects := pre + r.effects)
  }

  lemma AppendAssoc<T>(a: seq<T>, b: seq<T>, c: seq<T>)
    ensures a + b + c == a + (b + c)
  {
  }

  /** A trace extended by pre and then by r's effects is the trace extended by Then(pre, r). */
  lemma ThenTrace(t: seq<Effect>, pre: seq<Effect>, r: FileRun)
    ensures t + pre + r.effects == t + Then(pre, r).effects
  {
  }

  /** The body of the `for file in folder_files_list` loop of process_files (lines 580-704),
      from the given phase on. */
  function RunPhase(c: Context, f: FileEnv, phase: Phase): FileRun
    decreases PhaseRank(phase)
  {
    var path := JoinPath(c.folderPath, f.name);
    match phase
    case Listed(ep) => RunPhase(c, f, Adding(ep))
    case Adding(ep) =>
      Then([AddPost(ep.url, JobAddPayload(ep.payload).sent, AuthHeaders(c.apiKey))],
           match AddStage(f.add)
           case Stop(exit) => Done(exit)
           case Proceed((host, jobId)) => RunPhase(c, f, Uploading(Display(host), Display(jobId))))
    case Uploading(host, jobId) =>
      if !f.readable then Done(Terminate)
      else Then([UploadPost(UploadUrl(host, jobId), path, AuthHeaders(c.apiKey))],
                match UploadStage(f.upload)
                case Stop(exit) => Done(exit)
                case Proceed(_) => RunPhase(c, f, Polling(host, jobId)))
    case Polling(host, jobId) =>
      var poll := PollFrom(f.polls, 0);
      Then(Repeat(StatusGet(StatusUrl(host, jobId)), poll.requests),
           match poll.end
           case PollExit => Done(Terminate)
           case PollSkipFolder => Done(EndFolder)
           case PollSkipFile => Done(NextFile)
           case PollDone(link) => if Truthy(link) then RunPhase(c, f, Downloading(link)) else Done(NextFile))
    case Downloading(link) =>
      match SavedPath(f.download, c.outputFolder, f.name, f.downloadClock, c.utf8)
      case None => FileRun(NextFile, [DownloadGet(link)], true)
      case Some(saved) =>
        if f.moveOk then
          FileRun(NextFile, [DownloadGet(link), Saved(saved),
                             Moved(path, JoinPath(c.processedFolder, StampedName(f.moveClock, f.name)))], true)
        else FileRun(Terminate, [DownloadGet(link), Saved(saved)], false)
  }

  /** One file, from job/add on, with the endpoint as it stands. */
  function RunFile(c: Context, ep: Endpoint, f: FileEnv): FileRun {
    RunPhase(c, f, Listed(ep))
  }

  // ------------------------------------------------------------ folders

  /** The handling of a list of files: how it ends, the effects, the number of files
      counted, and the endpoint (its payload) afterwards. */
  datatype FilesRun = FilesRun(exit: FileExit, effects: seq<Effect>, count: nat, endpoint: Endpoint)

  /** process_files (lines 576-706) after the first n files, or up to the one that left the
      folder: each file runs with the endpoint as the previous job/add left it. */
  function FilesUpTo(c: Context, ep: Endpoint, files: seq<FileEnv>, n: nat): FilesRun
    requires n <= |files|
  {
    if n == 0 then FilesRun(NextFile, [], 0, ep)
    else
      var before := FilesUpTo(c, ep, files, n - 1);
      if before.exit != NextFile then before
      else
        var r := RunFile(c, before.endpoint, files[n - 1]);
        FilesRun(r.exit, before.effects + r.effects, before.count + (if r.counted then 1 else 0),
                 MarkEndpoint(before.endpoint))
  }

  /** process_files on the whole listing. */
  function RunFiles(c: Context, ep: Endpoint, files: seq<FileEnv>): FilesRun {
    FilesUpTo(c, ep, files, |files|)
  }

  /** Once a file has left the folder, the files after it are not touched. */
  lemma {:induction false} LeftFolderIsFinal(c: Context, ep: Endpoint, files: seq<FileEnv>, m: nat, n: nat)
    requires m <= n <= |files|
    requires FilesUpTo(c, ep, files, m).exit != NextFile
    ensures FilesUpTo(c, ep, files, n) == FilesUpTo(c, ep, files, m)
    decreases n
  {
    if n > m {
      LeftFolderIsFinal(c, ep, files, m, n - 1);
    }
  }

  /** The handling of one folder: whether it ends the run, whether total_folders rises,
      the effects, the files counted, and the folder's configuration afterwards. */
  datatype FolderRun = FolderRun(fatal: bool, entered: bool, effects: seq<Effect>, count: nat,
                                 config: FolderConfig)

  /** process_folder (lines 710-736). */
  function RunFolder(cfg: FolderConfig, apiKey: string, env: FolderEnv,
                     utf8: seq<Byte> -> Option<string>): FolderRun
  {
    if !FolderPathExists(env.input) || !EnsureFolder(env.processed) || !EnsureFolder(env.output) then
      FolderRun(false, false, [], 0, cfg)
    else
      var files := if env.listing.Some? then env.listing.value else [];
      var c := Context(apiKey, cfg.folderPath, JoinPath(cfg.folderPath, ProcessedFolderName),
                       cfg.outputFolder, utf8);
      var r := RunFiles(c, cfg.endpoint, files);
      FolderRun(r.exit == Terminate, true, r.effects, r.count, cfg.(endpoint := r.endpoint))
  }

  /** The state of the run: whether it ended in sys_exit(), the folders and files counted,
      the effects, and the folder configurations. */
  datatype AllRun = AllRun(fatal: bool, folders: nat, files: nat, effects: seq<Effect>,
                           configs: seq<FolderConfig>)

  /** process_all_folders (lines 226-235) after the first n folders, or up to the one that
      ended the run; the folders not reached keep their configuration. */
  function RunFolders(configs: seq<FolderConfig>, apiKey: string, envs: seq<FolderEnv>, n: nat,
                      utf8: seq<Byte> -> Option<string>): (r: AllRun)
    requires |envs| == |configs| && n <= |configs|
    ensures |r.configs| == |configs|
    ensures forall j :: n <= j < |configs| ==> r.configs[j] == configs[j]
  {
    if n == 0 then AllRun(false, 0, 0, [], configs)
    else
      var before := RunFolders(configs, apiKey, envs, n - 1, utf8);
      if before.fatal then before
      else
        var r := RunFolder(configs[n - 1], apiKey, envs[n - 1], utf8);
        AllRun(r.fatal, before.folders + (if r.entered then 1 else 0), before.files + r.count,
               before.effects + r.effects, before.configs[n - 1 := r.config])
  }

  /** The whole run. */
  function RunAll(configs: seq<FolderConfig>, apiKey: string, envs: seq<FolderEnv>,
                  utf8: seq<Byte> -> Option<string>): AllRun
    requires |envs| == |configs|
  {
    RunFolders(configs, apiKey, envs, |configs|, utf8)
  }

  /** Once a folder has ended the run, the folders after it change nothing. */
  lemma {:induction false} FatalIsFinal(configs: seq<FolderConfig>, apiKey: string, envs: seq<FolderEnv>,
                                        m: nat, n: nat, utf8: seq<Byte> -> Option<string>)
    requires |envs| == |configs| && m <= n <= |configs|
    requires RunFolders(configs, apiKey, envs, m, utf8).fatal
    ensures RunFolders(configs, apiKey, envs, n, utf8) == RunFolders(configs, apiKey, envs, m, utf8)
    decreases n
  {
    if n > m {
      FatalIsFinal(configs, apiKey, envs, m, n - 1, utf8);
    }
  }

  // ------------------------------------------------------------ the processor

  class FileProcessor {
    const apiKey: string
    /** `bytes.decode('utf-8')`, None where it raises. */
    const utf8: seq<Byte> -> Option<string>
    var folders: seq<FolderConfig>
    var totalFolders: nat
    var totalFiles: nat
    ghost var trace: seq<Effect>

    constructor (folders: seq<FolderConfig>, apiKey: string, utf8: seq<Byte> -> Option<string>)
      ensures this.folders == folders && this.apiKey == apiKey && this.utf8 == utf8
      ensures totalFolders == 0 && totalFiles == 0 && trace == []
    {
      this.folders := folders;
      this.apiKey := apiKey;
      this.utf8 := utf8;
      totalFolders := 0;
      totalFiles := 0;
      trace := [];
    }

    /** send_request_job_add: posts the payload with the marker, and returns what the server
      answered and the payload as it stands afterwards (the marker written into it in place
      when it is a non-empty dict). */
    method SendRequestJobAdd(url: string, payload: Json, answer: Reply)
      returns (r: Reply, payloadAfter: Json)
      modifies this`trace
      ensures trace == old(trace) + [AddPost(url, JobAddPayload(payload).sent, AuthHeaders(apiKey))]
      ensures r == answer && payloadAfter == JobAddPayload(payload).persisted
    {
      var use := JobAddPayload(payload);
      trace := trace + [AddPost(url, use.sent, AuthHeaders(apiKey))];
      r := answer;
      payloadAfter := use.persisted;
    }

    /** send_request_job_upload: open() happens outside the try, so an unreadable file
      raises (opened is false) before anything is posted. */
    method SendRequestJobUpload(url: string, file: string, readable: bool, answer: Reply)
      returns (fileOpened: bool, r: Reply)
      modifies this`trace
      ensures fileOpened == readable && r == answer
      ensures trace == old(trace) + (if readable then [UploadPost(url, file, AuthHeaders(apiKey))] else [])
    {
      fileOpened := readable;
      r := answer;
      if fileOpened {
        trace := trace + [UploadPost(url, file, AuthHeaders(apiKey))];
      }
    }

    /** send_request_job_status: a GET without headers; a body without "status" makes the
      log line inside the try raise, and the reply becomes (None, None). */
    method SendRequestJobStatus(url: string, answer: Reply) returns (r: Reply)
      modifies this`trace
      ensures r == StatusReply(answer)
      ensures trace == old(trace) + [StatusGet(url)]
    {
      trace := trace + [StatusGet(url)];
      if answer.Reply? && Get(answer.body, "status").Some? {
        r := answer;
      } else {
        r := NoReply;
      }
    }

    /** The poll loop of process_files (lines 629-682), with its three flags; each pass
      sends one status request and decides by PollStepAt. */
    method PollJobStatus(url: string, polls: seq<Reply>)
      returns (skipFolder: bool, skipFile: bool, downloadlink: Json, fatal: bool)
      modifies this`trace
      ensures var p := PollFrom(polls, 0);
        && (fatal <==> p.end == PollExit)
        && (skipFolder <==> p.end == PollSkipFolder)
        && (skipFile <==> p.end == PollSkipFile)
        && downloadlink == (if p.end.PollDone? then p.end.downloadlink else JNull)
        && trace == old(trace) + Repeat(StatusGet(url), p.requests)
    {
      skipFolder, skipFile, downloadlink, fatal := false, false, JNull, false;
      var i := 0;
      while i < 100
        invariant 0 <= i <= 100
        invariant PollFrom(polls, 0) == PollResult(PollFrom(polls, i).end, i + PollFrom(polls, i).requests)
        invariant trace == old(trace) + Repeat(StatusGet(url), i)
      {
        var r := SendRequestJobStatus(url, PollReply(polls, i));
        PollFromAt(polls, i);
        assert trace == old(trace) + Repeat(StatusGet(url), i + 1);
        match PollStepAt(i, r) {
          case StopPolling(end) =>
            match end {
              case PollSkipFile => skipFile := true;
              case PollSkipFolder => skipFolder := true;
              case PollExit => fatal := true;
              case PollDone(link) => downloadlink := link;
            }
            return;
          case KeepPolling =>
        }
        i := i + 1;
      }
    }

    /** download_processed_job_files: GETs the link and writes the result. */
    method DownloadProcessedJobFiles(downloadlink: Json, outputFolder: string,
                                     originalFileName: string, answer: DownloadReply, clock: DateTime)
      returns (ok: bool)
      modifies this`trace
      ensures var p := SavedPath(answer, outputFolder, originalFileName, clock, utf8);
        ok == p.Some? && trace == old(trace) + [DownloadGet(downloadlink)] + (if ok then [Saved(p.value)] else [])
    {
      trace := trace + [DownloadGet(downloadlink)];
      if answer.DownloadRaised? || answer.statusCode != 200 {
        return false;
      }
      var fileName := DownloadFileName(answer.disposition, originalFileName, utf8);
      if fileName.None? {
        return false;
      }
      var fullPath := JoinPath(outputFolder, StampedName(clock, fileName.value));
      if !answer.written {
        return false;
      }
      trace := trace + [Saved(fullPath)];
      return true;
    }

    /** move_file_with_timestamp: shutil.move is not guarded, so a failed move raises
      (raised is true); otherwise the new name is returned. */
    method MoveFileWithTimestamp(file: string, fileName: string, processedFolder: string,
                                 clock: DateTime, moveOk: bool)
      returns (raised: bool, newFilename: string)
      modifies this`trace
      ensures raised == !moveOk && newFilename == StampedName(clock, fileName)
      ensures trace == old(trace) + (if moveOk then [Moved(file, JoinPath(processedFolder, newFilename))] else [])
    {
      newFilename := StampedName(clock, fileName);
      raised := !moveOk;
      if moveOk {
        trace := trace + [Moved(file, JoinPath(processedFolder, newFilename))];
      }
    }

    /** The context the file loop of a folder runs in. */
    function FolderContext(folderPath: string, processedFolder: string, outputFolder: string): Context {
      Context(apiKey, folderPath, processedFolder, outputFolder, utf8)
    }

    /** One pass of the file loop of process_files: job/add and its checks, then the
      later phases; the endpoint comes back as job/add left it. */
    method ProcessFile(folderPath: string, processedFolder: string, outputFolder: string,
                       endpoint: Endpoint, f: FileEnv)
      returns (exit: FileExit, endpointAfter: Endpoint)
      modifies this`trace, this`totalFiles
      ensures var r := RunFile(FolderContext(folderPath, processedFolder, outputFolder), endpoint, f);
        exit == r.exit && trace == old(trace) + r.effects &&
        totalFiles == old(totalFiles) + (if r.counted then 1 else 0)
      ensures endpointAfter == MarkEndpoint(endpoint)
    {
      ghost var c := FolderContext(folderPath, processedFolder, outputFolder);
      assert RunFile(c, endpoint, f) == RunPhase(c, f, Adding(endpoint));
      var reply, payload := SendRequestJobAdd(endpoint.url, endpoint.payload, f.add);
      endpointAfter := endpoint.(payload := payload);
      match AddStage(reply) {
        case Stop(stageExit) =>
          return stageExit, endpointAfter;
        case Proceed((host, jobId)) =>
          ghost var added := trace;
          exit := UploadJob(folderPath, processedFolder, outputFolder, f, Display(host), Display(jobId));
          ThenTrace(old(trace), added[|old(trace)|..],
                    RunPhase(FolderContext(folderPath, processedFolder, outputFolder), f, Uploading(Display(host), Display(jobId))));
      }
    }

    /** Lines 607-622 of the file loop: job/upload and its checks, then polling. */
    method UploadJob(folderPath: string, processedFolder: string, outputFolder: string, f: FileEnv,
                     host: string, jobId: string)
      returns (exit: FileExit)
      modifies this`trace, this`totalFiles
      ensures var r := RunPhase(FolderContext(folderPath, processedFolder, outputFolder), f, Uploading(host, jobId));
        exit == r.exit && trace == old(trace) + r.effects &&
        totalFiles == old(totalFiles) + (if r.counted then 1 else 0)
    {
      var file := JoinPath(folderPath, f.name);
      var fileOpened, reply := SendRequestJobUpload(UploadUrl(host, jobId), file, f.readable, f.upload);
      if !fileOpened {
        return Terminate;
      }
      match UploadStage(reply) {
        case Stop(stageExit) =>
          return stageExit;
        case Proceed(_) =>
      }
      ghost var uploaded := trace;
      exit := PollJob(folderPath, processedFolder, outputFolder, f, host, jobId);
      ThenTrace(old(trace), uploaded[|old(trace)|..],
                RunPhase(FolderContext(folderPath, processedFolder, outputFolder), f, Polling(host, jobId)));
    }

    /** Lines 624-690 of the file loop: the status poll and what its flags decide. */
    method PollJob(folderPath: string, processedFolder: string, outputFolder: string, f: FileEnv,
                   host: string, jobId: string)
      returns (exit: FileExit)
      modifies this`trace, this`totalFiles
      ensures var r := RunPhase(FolderContext(folderPath, processedFolder, outputFolder), f, Polling(host, jobId));
        exit == r.exit && trace == old(trace) + r.effects &&
        totalFiles == old(totalFiles) + (if r.counted then 1 else 0)
    {
      var skipFolder, skipFile, downloadlink, fatal := PollJobStatus(StatusUrl(host, jobId), f.polls);
      if fatal {
        return Terminate;
      }
      if skipFolder {
        return EndFolder;
      }
      if skipFile {
        return NextFile;
      }
      if !Truthy(downloadlink) {
        return NextFile;
      }
      ghost var polled := trace;
      exit := FetchResult(folderPath, processedFolder, outputFolder, f, downloadlink);
      ThenTrace(old(trace), polled[|old(trace)|..],
                RunPhase(FolderContext(folderPath, processedFolder, outputFolder), f, Downloading(downloadlink)));
    }

    /** Lines 692-704 of the file loop: download the result, move the original when the
      download succeeded, and count the file. */
    method FetchResult(folderPath: string, processedFolder: string, outputFolder: string, f: FileEnv,
                       downloadlink: Json)
      returns (exit: FileExit)
      modifies this`trace, this`totalFiles
      ensures var r := RunPhase(FolderContext(folderPath, processedFolder, outputFolder), f, Downloading(downloadlink));
        exit == r.exit && trace == old(trace) + r.effects &&
        totalFiles == old(totalFiles) + (if r.counted then 1 else 0)
    {
      var moveProcessedFile := DownloadProcessedJobFiles(downloadlink, outputFolder, f.name,
                                                         f.download, f.downloadClock);
      if moveProcessedFile {
        var raised, _ := MoveFileWithTimestamp(JoinPath(folderPath, f.name), f.name, processedFolder,
                                               f.moveClock, f.moveOk);
        if raised {
          return Terminate;
        }
      }
      totalFiles := totalFiles + 1;
      return NextFile;
    }

    /** process_files: the files in order, until one ends the folder or the run; the
      endpoint comes back with the payload as the requests left it. */
    method ProcessFiles(folderPath: string, processedFolder: string, outputFolder: string,
                        endpoint: Endpoint, files: seq<FileEnv>)
      returns (exit: FileExit, endpointAfter: Endpoint)
      modifies this`trace, this`totalFiles
      ensures var r := RunFiles(FolderContext(folderPath, processedFolder, outputFolder), endpoint, files);
        && exit == r.exit && endpointAfter == r.endpoint
        && trace == old(trace) + r.effects && totalFiles == old(totalFiles) + r.count
    {
      ghost var c := FolderContext(folderPath, processedFolder, outputFolder);
      exit, endpointAfter := NextFile, endpoint;
      var i := 0;
      while i < |files| && exit == NextFile
        invariant 0 <= i <= |files|
        invariant var s := FilesUpTo(c, endpoint, files, i);
          && exit == s.exit && endpointAfter == s.endpoint
          && trace == old(trace) + s.effects && totalFiles == old(totalFiles) + s.count
      {
        exit, endpointAfter := ProcessFile(folderPath, processedFolder, outputFolder, endpointAfter, files[i]);
        AppendAssoc(old(trace), FilesUpTo(c, endpoint, files, i).effects,
                    RunFile(c, FilesUpTo(c, endpoint, files, i).endpoint, files[i]).effects);
        i := i + 1;
      }
      if exit != NextFile {
        LeftFolderIsFinal(c, endpoint, files, i, |files|);
      }
    }

    /** process_folder for the k-th folder: the three folder checks gate the
      total_folders increment; the originals go to the api_processed_files subfolder. */
    method ProcessFolder(k: nat, env: FolderEnv) returns (fatal: bool)
      requires k < |folders|
      modifies this`folders, this`trace, this`totalFiles, this`totalFolders
      ensures var r := RunFolder(old(folders[k]), apiKey, env, utf8);
        && fatal == r.fatal
        && totalFolders == old(totalFolders) + (if r.entered then 1 else 0)
        && totalFiles == old(totalFiles) + r.count
        && trace == old(trace) + r.effects
        && folders == old(folders)[k := r.config]
      ensures totalFolders == old(totalFolders) + 1 <==>
        FolderPathExists(env.input) && EnsureFolder(env.processed) && EnsureFolder(env.output)
    {
      var config := folders[k];
      if !FolderPathExists(env.input) {
        return false;
      }
      var processedFilesFolder := JoinPath(config.folderPath, ProcessedFolderName);
      if !EnsureFolder(env.processed) {
        return false;
      }
      if !EnsureFolder(env.output) {
        return false;
      }
      var folderFilesList := if env.listing.Some? then env.listing.value else [];
      totalFolders := totalFolders + 1;
      var exit, endpoint := ProcessFiles(config.folderPath, processedFilesFolder, config.outputFolder,
                                         config.endpoint, folderFilesList);
      folders := folders[k := config.(endpoint := endpoint)];
      fatal := exit == Terminate;
    }

    /** process_all_folders: the folders in order, until one ends the run. */
    method ProcessAllFolders(envs: seq<FolderEnv>) returns (fatal: bool)
      requires |envs| == |folders|
      modifies this`folders, this`trace, this`totalFiles, this`totalFolders
      ensures var r := RunAll(old(folders), apiKey, envs, utf8);
        && fatal == r.fatal
        && totalFolders == old(totalFolders) + r.folders
        && totalFiles == old(totalFiles) + r.files
        && trace == old(trace) + r.effects
        && folders == r.configs
    {
      fatal := false;
      var i := 0;
      while i < |folders| && !fatal
        invariant |folders| == |old(folders)| && 0 <= i <= |folders|
        invariant var s := RunFolders(old(folders), apiKey, envs, i, utf8);
          && fatal == s.fatal && folders == s.configs && trace == old(trace) + s.effects
          && totalFolders == old(totalFolders) + s.folders && totalFiles == old(totalFiles) + s.files
      {
        fatal := ProcessFolder(i, envs[i]);
        AppendAssoc(old(trace), RunFolders(old(folders), apiKey, envs, i, utf8).effects,
                    RunFolder(old(folders)[i], apiKey, envs[i], utf8).effects);
        i := i + 1;
      }
      if fatal {
        FatalIsFinal(old(folders), apiKey, envs, i, |folders|, utf8);
      }
    }
  }
}
