/** What the processing loop of API_file_processor promises: how long a job is polled,
    when a file counts, and how one file's outcome decides what happens to the rest. */
module Properties {
  import opened Wrappers
  import opened Json
  import opened Responses
  import opened Builders
  import opened Processor

  // ------------------------------------------------------------ the status poll

  /** An accepted status reply saying the job is still queued or processing (a
      rate-limited error reads as processing). */
  predicate Pending(r: Reply) {
    && r.Reply?
    && CheckResponseStatusCode(Some(r.statusCode)) == Accept
    && CheckJobStatusResponseStatusKey(r.body) in {Status(Queued), Status(Processing)}
  }

  /** A status reply on which the poll loop waits and asks again: pending, with a wait it
      can count down. */
  predicate StillRunning(r: Reply) {
    Pending(r) && CanWait(r.body)
  }

  /** A dict that has a key is truthy. */
  lemma KeyMakesTruthy(j: Json, key: string)
    requires Get(j, key).Some?
    ensures Truthy(j)
  {
    assert key in j.fields;
  }

  /** The poll loop goes round again exactly on a still-running reply before pass 30. */
  lemma PollKeepsIff(i: nat, r: Reply)
    ensures PollStepAt(i, StatusReply(r)) == KeepPolling <==> i < 30 && StillRunning(r)
  {
    if StillRunning(r) {
      KeyMakesTruthy(r.body, "status");
    }
  }

  /** However the server answers, the loop sends at most 31 - i status requests from pass i
      on: a still-running job is given up on at pass 30, not at pass 100. */
  lemma {:induction false} PollRequestsBound(polls: seq<Reply>, i: nat)
    requires i <= 30
    ensures 1 <= PollFrom(polls, i).requests <= 31 - i
    decreases 30 - i
  {
    PollKeepsIff(i, PollReply(polls, i));
    if PollStepAt(i, StatusReply(PollReply(polls, i))) == KeepPolling {
      PollRequestsBound(polls, i + 1);
    }
  }

  /** After still-running replies from pass i, the loop ends at the first pass k whose
      reply stops it, with that reply's outcome, after k - i + 1 requests. */
  lemma {:induction false} PollStopsAt(polls: seq<Reply>, i: nat, k: nat)
    requires i <= k <= 30 && k < |polls|
    requires forall j :: i <= j < k ==> StillRunning(polls[j])
    requires PollStepAt(k, StatusReply(polls[k])).StopPolling?
    ensures PollFrom(polls, i) == PollResult(PollStepAt(k, StatusReply(polls[k])).end, k - i + 1)
    decreases k - i
  {
    if i < k {
      PollKeepsIff(i, polls[i]);
      PollStopsAt(polls, i + 1, k);
    }
  }

  /** A job still running before pass 30 and still queued or processing at pass 30 makes
      the loop skip the file after exactly 31 - i requests; the wait of the last reply is
      never read. */
  lemma PollTimesOut(polls: seq<Reply>, i: nat)
    requires i <= 30
    requires 30 < |polls|
    requires forall j :: i <= j < 30 ==> StillRunning(polls[j])
    requires Pending(polls[30])
    ensures PollFrom(polls, i) == PollResult(PollSkipFile, 31 - i)
  {
    KeyMakesTruthy(polls[30].body, "status");
    PollStopsAt(polls, i, 30);
  }

  /** A completed reply at pass k, after still-running ones, ends the loop with its
      download link after k - i + 1 requests. */
  lemma CompletedGivesLink(polls: seq<Reply>, i: nat, k: nat, link: Json)
    requires i <= k <= 30 && k < |polls|
    requires forall j :: i <= j < k ==> StillRunning(polls[j])
    requires polls[k].Reply? && CheckResponseStatusCode(Some(polls[k].statusCode)) == Accept
    requires Get(polls[k].body, "status") == Some(JStr("completed"))
    requires Get(polls[k].body, "downloadlink") == Some(link)
    ensures PollFrom(polls, i) == PollResult(PollDone(link), k - i + 1)
  {
    KeyMakesTruthy(polls[k].body, "status");
    PollStopsAt(polls, i, k);
  }

  /** A failed status request at pass k, after still-running replies, skips only the file;
      a 429 ends the folder and a 401 ends the run. A reply whose body lacks `status`
      fails inside send_request_job_status and so skips only the file, whatever its code.
      None of these counts the file. */
  lemma PollFailureOutcomes(c: Context, f: FileEnv, host: string, jobId: string, k: nat)
    requires k <= 30 && k < |f.polls|
    requires forall j :: 0 <= j < k ==> StillRunning(f.polls[j])
    ensures var r := RunPhase(c, f, Polling(host, jobId));
      var gets := Repeat(StatusGet(StatusUrl(host, jobId)), k + 1);
      var p := f.polls[k];
      && (p.NoReply? || (p.Reply? && p.statusCode == 0) ==> r == FileRun(NextFile, gets, false))
      && (p.Reply? && Get(p.body, "status").None? ==> r == FileRun(NextFile, gets, false))
      && (p.Reply? && Get(p.body, "status").Some? && p.statusCode == 429 ==>
            r == FileRun(EndFolder, gets, false))
      && (p.Reply? && Get(p.body, "status").Some? && p.statusCode == 401 ==>
            r == FileRun(Terminate, gets, false))
  {
    var p := f.polls[k];
    var st := PollStepAt(k, StatusReply(p));
    PollStepFailures(k, p);
    if st.StopPolling? {
      PollStopsAt(f.polls, 0, k);
      assert PollFrom(f.polls, 0) == PollResult(st.end, k + 1);
    }
  }

  /** The pass-level outcomes behind PollFailureOutcomes. */
  lemma PollStepFailures(k: nat, p: Reply)
    ensures var st := PollStepAt(k, StatusReply(p));
      && (p.NoReply? || (p.Reply? && p.statusCode == 0) ==> st == StopPolling(PollSkipFile))
      && (p.Reply? && Get(p.body, "status").None? ==> st == StopPolling(PollSkipFile))
      && (p.Reply? && Get(p.body, "status").Some? && p.statusCode == 429 ==>
            st == StopPolling(PollSkipFolder))
      && (p.Reply? && Get(p.body, "status").Some? && p.statusCode == 401 ==>
            st == StopPolling(PollExit))
  {
  }

  /** A download link comes only from a completed reply, the last one asked for, and every
      reply before it kept the job running. */
  lemma {:induction false} PollDoneOnCompleted(polls: seq<Reply>, i: nat)
    requires i <= 30
    requires PollFrom(polls, i).end.PollDone?
    ensures var p := PollFrom(polls, i);
      var k := i + p.requests - 1;
      && k < |polls| && polls[k].Reply?
      && CheckResponseStatusCode(Some(polls[k].statusCode)) == Accept
      && Get(polls[k].body, "status") == Some(JStr("completed"))
      && Get(polls[k].body, "downloadlink") == Some(p.end.downloadlink)
      && forall j :: i <= j < k ==> StillRunning(polls[j])
    decreases 30 - i
  {
    PollKeepsIff(i, PollReply(polls, i));
    PollRequestsBound(polls, i);
    if PollStepAt(i, StatusReply(PollReply(polls, i))) == KeepPolling {
      PollDoneOnCompleted(polls, i + 1);
    }
  }

  // ------------------------------------------------------------ one file

  predicate Downloaded(effects: seq<Effect>) {
    exists k :: 0 <= k < |effects| && effects[k].DownloadGet?
  }

  predicate SavedAny(effects: seq<Effect>) {
    exists k :: 0 <= k < |effects| && effects[k].Saved?
  }

  predicate MovedAny(effects: seq<Effect>) {
    exists k :: 0 <= k < |effects| && effects[k].Moved?
  }

  /** path names an entry of the directory dir. */
  predicate InDir(path: string, dir: string) {
    |dir| < |path| && path[..|dir| + 1] == dir + "/"
  }

  /** Every move in effects puts a file into dir. */
  predicate MovesInto(effects: seq<Effect>, dir: string) {
    forall k :: 0 <= k < |effects| && effects[k].Moved? ==> InDir(effects[k].destination, dir)
  }

  lemma JoinPathInDir(dir: string, name: string)
    ensures InDir(JoinPath(dir, name), dir)
  {
    assert JoinPath(dir, name)[..|dir| + 1] == dir + "/";
  }

  lemma MovesIntoAppend(a: seq<Effect>, b: seq<Effect>, dir: string)
    requires MovesInto(a, dir) && MovesInto(b, dir)
    ensures MovesInto(a + b, dir)
  {
    forall k | 0 <= k < |a + b| && (a + b)[k].Moved?
      ensures InDir((a + b)[k].destination, dir)
    {
      if k >= |a| {
        assert (a + b)[k] == b[k - |a|];
      }
    }
  }

  /** The effects of a request phase put in front of a later phase's effects. */
  lemma ThenKeeps(pre: seq<Effect>, r: FileRun)
    requires forall k :: 0 <= k < |pre| ==> pre[k].AddPost? || pre[k].UploadPost? || pre[k].StatusGet?
    ensures Downloaded(Then(pre, r).effects) == Downloaded(r.effects)
    ensures SavedAny(Then(pre, r).effects) == SavedAny(r.effects)
    ensures MovedAny(Then(pre, r).effects) == MovedAny(r.effects)
    ensures forall dir :: MovesInto(r.effects, dir) ==> MovesInto(Then(pre, r).effects, dir)
  {
    forall dir | MovesInto(r.effects, dir)
      ensures MovesInto(Then(pre, r).effects, dir)
    {
      MovesIntoAppend(pre, r.effects, dir);
    }
    var e := Then(pre, r).effects;
    assert forall k :: 0 <= k < |r.effects| ==> e[|pre| + k] == r.effects[k];
    if Downloaded(e) {
      var k :| 0 <= k < |e| && e[k].DownloadGet?;
      assert e[k] == r.effects[k - |pre|];
    }
    if SavedAny(e) {
      var k :| 0 <= k < |e| && e[k].Saved?;
      assert e[k] == r.effects[k - |pre|];
    }
    if MovedAny(e) {
      var k :| 0 <= k < |e| && e[k].Moved?;
      assert e[k] == r.effects[k - |pre|];
    }
  }

  /** total_files counts a file exactly when the loop reached the download and did not end
      the run after it; a counted file had its original moved exactly when its result was
      saved. A file whose download failed is counted too. */
  predicate CountRule(r: FileRun) {
    && (r.counted <==> r.exit == NextFile && Downloaded(r.effects))
    && (r.counted ==> (SavedAny(r.effects) <==> MovedAny(r.effects)))
    && (MovedAny(r.effects) ==> r.counted)
  }

  lemma CountRuleDownloading(c: Context, f: FileEnv, link: Json)
    ensures CountRule(RunPhase(c, f, Downloading(link)))
    ensures MovesInto(RunPhase(c, f, Downloading(link)).effects, c.processedFolder)
  {
    var r := RunPhase(c, f, Downloading(link));
    assert r.effects[0].DownloadGet?;
    if |r.effects| == 3 {
      assert r.effects[1].Saved? && r.effects[2].Moved?;
      JoinPathInDir(c.processedFolder, StampedName(f.moveClock, f.name));
    } else if |r.effects| == 2 {
      assert r.effects[1].Saved?;
    }
  }

  lemma CountRulePolling(c: Context, f: FileEnv, host: string, jobId: string)
    ensures CountRule(RunPhase(c, f, Polling(host, jobId)))
    ensures MovesInto(RunPhase(c, f, Polling(host, jobId)).effects, c.processedFolder)
  {
    var poll := PollFrom(f.polls, 0);
    var pre := Repeat(StatusGet(StatusUrl(host, jobId)), poll.requests);
    if poll.end.PollDone? && Truthy(poll.end.downloadlink) {
      CountRuleDownloading(c, f, poll.end.downloadlink);
      ThenKeeps(pre, RunPhase(c, f, Downloading(poll.end.downloadlink)));
    } else {
      ThenKeeps(pre, Done(RunPhase(c, f, Polling(host, jobId)).exit));
    }
  }

  lemma CountRuleUploading(c: Context, f: FileEnv, host: string, jobId: string)
    ensures CountRule(RunPhase(c, f, Uploading(host, jobId)))
    ensures MovesInto(RunPhase(c, f, Uploading(host, jobId)).effects, c.processedFolder)
  {
    var pre := [UploadPost(UploadUrl(host, jobId), JoinPath(c.folderPath, f.name), AuthHeaders(c.apiKey))];
    if f.readable {
      match UploadStage(f.upload) {
        case Stop(exit) =>
          ThenKeeps(pre, Done(exit));
        case Proceed(_) =>
          CountRulePolling(c, f, host, jobId);
          ThenKeeps(pre, RunPhase(c, f, Polling(host, jobId)));
      }
    }
  }

  lemma CountRuleFile(c: Context, ep: Endpoint, f: FileEnv)
    ensures CountRule(RunFile(c, ep, f))
    ensures MovesInto(RunFile(c, ep, f).effects, c.processedFolder)
  {
    assert RunFile(c, ep, f) == RunPhase(c, f, Adding(ep));
    var pre := [AddPost(ep.url, JobAddPayload(ep.payload).sent, AuthHeaders(c.apiKey))];
    match AddStage(f.add) {
      case Stop(exit) =>
        ThenKeeps(pre, Done(exit));
      case Proceed((host, jobId)) =>
        CountRuleUploading(c, f, Display(host), Display(jobId));
        ThenKeeps(pre, RunPhase(c, f, Uploading(Display(host), Display(jobId))));
    }
  }

  /** Transport failure of job/add (no status code) skips only this file; a 429 ends the
      folder and a 401 ends the run, each after the one job/add request. */
  lemma AddFailureOutcomes(c: Context, ep: Endpoint, f: FileEnv)
    ensures var r := RunFile(c, ep, f);
      var post := [AddPost(ep.url, JobAddPayload(ep.payload).sent, AuthHeaders(c.apiKey))];
      && (f.add.NoReply? ==> r == FileRun(NextFile, post, false))
      && (f.add.Reply? && f.add.statusCode == 429 ==> r == FileRun(EndFolder, post, false))
      && (f.add.Reply? && f.add.statusCode == 401 ==> r == FileRun(Terminate, post, false))
  {
    assert RunFile(c, ep, f) == RunPhase(c, f, Adding(ep));
  }

  /** After an accepted job/add, a job/upload without a status code skips only the file, a
      429 ends the folder and a 401 ends the run, after the two requests and without
      counting; a file that cannot be opened ends the run before the upload. */
  lemma UploadFailureOutcomes(c: Context, ep: Endpoint, f: FileEnv)
    requires AddStage(f.add).Proceed?
    ensures var r := RunFile(c, ep, f);
      var (host, jobId) := AddStage(f.add).value;
      var add := AddPost(ep.url, JobAddPayload(ep.payload).sent, AuthHeaders(c.apiKey));
      var up := UploadPost(UploadUrl(Display(host), Display(jobId)), JoinPath(c.folderPath, f.name),
                           AuthHeaders(c.apiKey));
      && (!f.readable ==> r == FileRun(Terminate, [add], false))
      && (f.readable && f.upload.NoReply? ==> r == FileRun(NextFile, [add, up], false))
      && (f.readable && f.upload.Reply? && f.upload.statusCode == 429 ==>
            r == FileRun(EndFolder, [add, up], false))
      && (f.readable && f.upload.Reply? && f.upload.statusCode == 401 ==>
            r == FileRun(Terminate, [add, up], false))
  {
    var (host, jobId) := AddStage(f.add).value;
    var add := AddPost(ep.url, JobAddPayload(ep.payload).sent, AuthHeaders(c.apiKey));
    assert RunFile(c, ep, f) == RunPhase(c, f, Adding(ep));
    assert RunPhase(c, f, Adding(ep)) == Then([add], RunPhase(c, f, Uploading(Display(host), Display(jobId))));
  }

  // ------------------------------------------------------------ the files of one folder

  /** total_files rises by at most one per file of the folder. */
  lemma {:induction false} CountAtMostFiles(c: Context, ep: Endpoint, files: seq<FileEnv>, n: nat)
    requires n <= |files|
    ensures FilesUpTo(c, ep, files, n).count <= n
  {
    if n > 0 {
      CountAtMostFiles(c, ep, files, n - 1);
    }
  }

  /** Writing the marker into the payload a second time changes nothing. */
  lemma MarkEndpointIdempotent(ep: Endpoint)
    ensures MarkEndpoint(MarkEndpoint(ep)) == MarkEndpoint(ep)
    ensures JobAddPayload(MarkEndpoint(ep).payload).sent == JobAddPayload(ep.payload).sent
  {
    JobAddPayloadIdempotent(ep.payload);
  }

  /** Once one file has gone through job/add, the folder's endpoint stays as that request
      left it, however many files follow. */
  lemma {:induction false} EndpointAfterFiles(c: Context, ep: Endpoint, files: seq<FileEnv>, n: nat)
    requires 1 <= n <= |files|
    ensures FilesUpTo(c, ep, files, n).endpoint == MarkEndpoint(ep)
  {
    if n > 1 {
      EndpointAfterFiles(c, ep, files, n - 1);
      MarkEndpointIdempotent(ep);
    }
  }

  /** The loop over f followed by rest, when f lets the loop go on, is f's handling followed
      by the loop over rest with the endpoint f's job/add left. */
  lemma {:induction false} FirstFileContinues(c: Context, ep: Endpoint, f: FileEnv, rest: seq<FileEnv>, n: nat)
    requires n <= |rest|
    requires RunFile(c, ep, f).exit == NextFile
    ensures var r := RunFile(c, ep, f);
      var s := FilesUpTo(c, MarkEndpoint(ep), rest, n);
      FilesUpTo(c, ep, [f] + rest, n + 1) ==
        FilesRun(s.exit, r.effects + s.effects, (if r.counted then 1 else 0) + s.count, s.endpoint)
  {
    if n > 0 {
      FirstFileContinues(c, ep, f, rest, n - 1);
      assert ([f] + rest)[n] == rest[n - 1];
      var r := RunFile(c, ep, f);
      var s := FilesUpTo(c, MarkEndpoint(ep), rest, n - 1);
      if s.exit == NextFile {
        AppendAssoc(r.effects, s.effects, RunFile(c, s.endpoint, rest[n - 1]).effects);
      }
    }
  }

  /** When f ends the folder or the run, nothing of rest is touched. */
  lemma FirstFileLeaves(c: Context, ep: Endpoint, f: FileEnv, rest: seq<FileEnv>)
    requires RunFile(c, ep, f).exit != NextFile
    ensures var r := RunFile(c, ep, f);
      RunFiles(c, ep, [f] + rest) ==
        FilesRun(r.exit, r.effects, if r.counted then 1 else 0, MarkEndpoint(ep))
  {
    LeftFolderIsFinal(c, ep, [f] + rest, 1, |[f] + rest|);
  }

  /** A job/add without a status code skips only that file; a 429 on job/add leaves the
      folder with the rest of its files untouched. */
  lemma AddFailureInFolder(c: Context, ep: Endpoint, f: FileEnv, rest: seq<FileEnv>)
    ensures var post := [AddPost(ep.url, JobAddPayload(ep.payload).sent, AuthHeaders(c.apiKey))];
      var s := RunFiles(c, MarkEndpoint(ep), rest);
      && (f.add.NoReply? ==> RunFiles(c, ep, [f] + rest) == FilesRun(s.exit, post + s.effects, s.count, s.endpoint))
      && (f.add.Reply? && f.add.statusCode == 429 ==>
            RunFiles(c, ep, [f] + rest) == FilesRun(EndFolder, post, 0, MarkEndpoint(ep)))
  {
    AddFailureOutcomes(c, ep, f);
    if f.add.NoReply? {
      FirstFileContinues(c, ep, f, rest, |rest|);
    } else if f.add.statusCode == 429 {
      FirstFileLeaves(c, ep, f, rest);
    }
  }

  /** Every original the folder loop moves goes into the processed-files folder. */
  lemma {:induction false} FilesMoveInto(c: Context, ep: Endpoint, files: seq<FileEnv>, n: nat)
    requires n <= |files|
    ensures MovesInto(FilesUpTo(c, ep, files, n).effects, c.processedFolder)
  {
    if n > 0 {
      FilesMoveInto(c, ep, files, n - 1);
      var before := FilesUpTo(c, ep, files, n - 1);
      if before.exit == NextFile {
        CountRuleFile(c, before.endpoint, files[n - 1]);
        MovesIntoAppend(before.effects, RunFile(c, before.endpoint, files[n - 1]).effects, c.processedFolder);
      }
    }
  }

  /** process_folder moves originals only into the api_processed_files subfolder of the
      folder they came from. */
  lemma FolderMovesInto(cfg: FolderConfig, apiKey: string, env: FolderEnv, utf8: seq<Byte> -> Option<string>)
    ensures MovesInto(RunFolder(cfg, apiKey, env, utf8).effects, JoinPath(cfg.folderPath, ProcessedFolderName))
  {
    if FolderPathExists(env.input) && EnsureFolder(env.processed) && EnsureFolder(env.output) {
      var files := if env.listing.Some? then env.listing.value else [];
      var c := Context(apiKey, cfg.folderPath, JoinPath(cfg.folderPath, ProcessedFolderName),
                       cfg.outputFolder, utf8);
      FilesMoveInto(c, cfg.endpoint, files, |files|);
    }
  }

  // ------------------------------------------------------------ all folders

  /** total_folders rises by at most one per configured folder. */
  lemma {:induction false} FoldersAtMostConfigs(configs: seq<FolderConfig>, apiKey: string, envs: seq<FolderEnv>,
                                                n: nat, utf8: seq<Byte> -> Option<string>)
    requires |envs| == |configs| && n <= |configs|
    ensures RunFolders(configs, apiKey, envs, n, utf8).folders <= n
  {
    if n > 0 {
      FoldersAtMostConfigs(configs, apiKey, envs, n - 1, utf8);
    }
  }
}
