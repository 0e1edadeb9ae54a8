/** What one call of the video-analysis handler does, stated over its
    specification `Analysis.AnalyzeRun`: the order of the checks, the shape of
    an answered call, the fate of the temporary file, the timeout and failure
    outcomes, and the indifference of the reply to a failed clean-up. */
module AnalysisFacts {
  import opened Wrappers
  import opened Web
  import opened Remote
  import opened Polling
  import opened Analysis
  import Catalog

  /** The three checks come first, in source order, and a call that fails one
      of them uploads nothing, polls nothing, sleeps never and creates no file:
      a missing client wins over everything, an unknown sport over the
      reference video's presence. */
  lemma ChecksComeFirst(configured: bool, s: Script, disk: Disk, files: set<string>, n: nat, t: nat,
                        sport: string, userId: nat, filename: string)
    ensures var run := AnalyzeRun(configured, s, disk, files, n, t, sport, userId, filename);
      && (!configured ==> run == Run(Raised(HttpException(500, KeyMissing)), [], [], 0, [], files))
      && (configured && sport !in Catalog.Keys(Catalog.SportPrompts) ==>
            run == Run(Raised(HttpException(400, UnsupportedSport)), [], [], 0, [], files))
      && (configured && sport in Catalog.Keys(Catalog.SportPrompts) && Catalog.ReferenceVideo(sport) !in files ==>
            run == Run(Raised(HttpException(500, "Reference video for " + sport + " not found")), [], [], 0, [], files))
  {
  }

  /** Once the checks pass, the call is the staged run from the reference upload on. */
  lemma PastTheChecks(configured: bool, s: Script, disk: Disk, files: set<string>, n: nat, t: nat,
                      sport: string, userId: nat, filename: string)
    requires configured && sport in Catalog.Keys(Catalog.SportPrompts) && Catalog.ReferenceVideo(sport) in files
    ensures AttemptRun(configured, s, disk, files, n, t, sport, userId, filename)
         == TransferRun(s, disk, files, n, t, sport, Catalog.PromptOf(sport), Catalog.ReferenceVideo(sport), TempPath(userId, filename))
  {
  }

  /** Whatever happens, the caller sees a JSON answer or an HTTPException:
      an HTTPException raised inside passes unchanged, anything else becomes a
      500 "Analysis error: ..." with its text. */
  lemma OnlyHttpExceptionsEscape(configured: bool, s: Script, disk: Disk, files: set<string>, n: nat, t: nat,
                                 sport: string, userId: nat, filename: string)
    ensures var inner := AttemptRun(configured, s, disk, files, n, t, sport, userId, filename).reply;
      var reply := AnalyzeRun(configured, s, disk, files, n, t, sport, userId, filename).reply;
      && (reply.Json? || reply.exception.HttpException?)
      && (inner.Json? || inner.exception.HttpException? ==> reply == inner)
      && (inner.Raised? && inner.exception.Foreign? ==>
            reply == Raised(HttpException(500, AnalysisErrorPrefix + inner.exception.message)))
  {
  }

  /** One stage run from the polling loop on answers exactly when polling ends
      Ready and the inference request succeeds; then it made that one request,
      read each file one round more than it slept, and answered with the
      sport and the response text. */
  lemma ProcessAnswers(s: Script, disk: Disk, files: set<string>, t: nat, sport: string, prompt: string,
                       userPath: string, user: RemoteFile, reference: RemoteFile)
    ensures var run := ProcessRun(s, disk, files, t, sport, prompt, userPath, user, reference);
      var v := Bounded(s, Watch(user.name, reference.name, t), 0);
      var request := AnalysisRequest(prompt, user, reference);
      && (run.reply.Json? <==> v.Ready? && s.GenerateAnswer(request).Success?)
      && (run.reply.Json? ==>
            && run.requests == [request]
            && v == Ready(run.sleeps) && run.queried == Rounds(user.name, reference.name, run.sleeps + 1)
            && run.reply == Json([("sport", sport), ("analysis", s.GenerateAnswer(request).value)]))
  {
  }

  /** An answered call did all of its work, in source order: the reference
      video was there and uploaded first as file `n`, the user's video was
      saved and uploaded as file `n + 1`, both became ACTIVE in the same round
      after one sleep fewer than rounds, exactly one request went out (the
      prompt, then the user's video, then the reference video), and its
      text is the answer. */
  lemma AnsweredRun(configured: bool, s: Script, disk: Disk, files: set<string>, n: nat, t: nat,
                    sport: string, userId: nat, filename: string)
    ensures var run := AnalyzeRun(configured, s, disk, files, n, t, sport, userId, filename);
      run.reply.Json? ==>
        && configured && sport in Catalog.Keys(Catalog.SportPrompts)
        && var referencePath, userPath := Catalog.ReferenceVideo(sport), TempPath(userId, filename);
        && referencePath in files
        && disk.WriteAnswer(userPath).None?
        && s.UploadAnswer(n).Success? && s.UploadAnswer(n + 1).Success?
        && var rm, um := s.UploadAnswer(n).value, s.UploadAnswer(n + 1).value;
        && run.uploads == [referencePath, userPath]
        && Bounded(s, Watch(n + 1, n, t), 0) == Ready(run.sleeps)
        && run.queried == Rounds(n + 1, n, run.sleeps + 1)
        && run.requests == [Request(InferenceModel, [Text(Catalog.PromptOf(sport)), Uri(um.uri, um.mimeType), Uri(rm.uri, rm.mimeType)])]
        && s.GenerateAnswer(run.requests[0]).Success?
        && run.reply == Json([("sport", sport), ("analysis", s.GenerateAnswer(run.requests[0]).value)])
  {
    var run := AnalyzeRun(configured, s, disk, files, n, t, sport, userId, filename);
    if run.reply.Json? {
      var referencePath, userPath := Catalog.ReferenceVideo(sport), TempPath(userId, filename);
      var rm := s.UploadAnswer(n).value;
      var um := s.UploadAnswer(n + 1).value;
      ProcessAnswers(s, disk, files + {userPath}, t, sport, Catalog.PromptOf(sport), userPath,
                     RemoteFile(n + 1, um.uri, um.mimeType), RemoteFile(n, rm.uri, rm.mimeType));
    }
  }

  /** Conversely, a call answers whenever every collaborator cooperates:
      the client is configured, the sport known, the reference video present,
      both uploads and the save accepted, both files ACTIVE together in some
      round below the ceiling, and the inference request answered. */
  lemma AnswersWhenAllSucceed(configured: bool, s: Script, disk: Disk, files: set<string>, n: nat, t: nat,
                              sport: string, userId: nat, filename: string, k: nat)
    requires configured && sport in Catalog.Keys(Catalog.SportPrompts)
    requires Catalog.ReferenceVideo(sport) in files
    requires s.UploadAnswer(n).Success?
    requires disk.WriteAnswer(TempPath(userId, filename)).None?
    requires s.UploadAnswer(n + 1).Success?
    requires Bounded(s, Watch(n + 1, n, t), 0) == Ready(k)
    requires var rm, um := s.UploadAnswer(n).value, s.UploadAnswer(n + 1).value;
      s.GenerateAnswer(Request(InferenceModel, [Text(Catalog.PromptOf(sport)), Uri(um.uri, um.mimeType), Uri(rm.uri, rm.mimeType)])).Success?
    ensures AnalyzeRun(configured, s, disk, files, n, t, sport, userId, filename).reply.Json?
  {
    var referencePath, userPath := Catalog.ReferenceVideo(sport), TempPath(userId, filename);
    var rm := s.UploadAnswer(n).value;
    var um := s.UploadAnswer(n + 1).value;
    PastTheChecks(configured, s, disk, files, n, t, sport, userId, filename);
    ProcessAnswers(s, disk, files + {userPath}, t, sport, Catalog.PromptOf(sport), userPath,
                   RemoteFile(n + 1, um.uri, um.mimeType), RemoteFile(n, rm.uri, rm.mimeType));
  }

  /** The temporary file is removed only on the answered path. An answered
      call leaves it removed, unless the removal failed; any other call leaves
      it on the disk exactly when the call got as far as the save (past the
      checks and the reference upload) and the save created the file, which
      it does unless the open itself failed. */
  lemma TempFileLifecycle(configured: bool, s: Script, disk: Disk, files: set<string>, n: nat, t: nat,
                          sport: string, userId: nat, filename: string)
    ensures var run := AnalyzeRun(configured, s, disk, files, n, t, sport, userId, filename);
      var userPath := TempPath(userId, filename);
      && (run.reply.Json? ==> run.files == if disk.RemoveAnswer(userPath).None? then files - {userPath} else files + {userPath})
      && (!run.reply.Json? ==>
            run.files == if |run.uploads| > 0 && s.UploadAnswer(n).Success? && disk.Creates(userPath) then files + {userPath} else files)
  {
    if configured && sport in Catalog.Keys(Catalog.SportPrompts) && Catalog.ReferenceVideo(sport) in files {
      PastTheChecks(configured, s, disk, files, n, t, sport, userId, filename);
      TransferFiles(s, disk, files, n, t, sport, Catalog.PromptOf(sport), Catalog.ReferenceVideo(sport), TempPath(userId, filename));
    }
  }

  /** `TempFileLifecycle` for the stages from the reference upload on. */
  lemma TransferFiles(s: Script, disk: Disk, files: set<string>, n: nat, t: nat,
                      sport: string, prompt: string, referencePath: string, userPath: string)
    ensures var run := TransferRun(s, disk, files, n, t, sport, prompt, referencePath, userPath);
      && (run.reply.Json? ==> run.files == if disk.RemoveAnswer(userPath).None? then files - {userPath} else files + {userPath})
      && (!run.reply.Json? ==>
            run.files == if |run.uploads| > 0 && s.UploadAnswer(n).Success? && disk.Creates(userPath) then files + {userPath} else files)
  {
  }

  /** Once both uploads and the save succeeded, the stages from the reference
      upload on poll and sleep as the verdict of the bounded loop says, and a
      verdict that aborts the call raises its exception before any request,
      with the temporary file left behind. */
  lemma TransferFollowsVerdict(s: Script, disk: Disk, files: set<string>, n: nat, t: nat,
                               sport: string, prompt: string, referencePath: string, userPath: string)
    requires s.UploadAnswer(n).Success? && disk.WriteAnswer(userPath).None? && s.UploadAnswer(n + 1).Success?
    ensures var run := TransferRun(s, disk, files, n, t, sport, prompt, referencePath, userPath);
      var v := Bounded(s, Watch(n + 1, n, t), 0);
      && run.queried == ReadsOf(Watch(n + 1, n, t), v) && run.sleeps == SleepsOf(v)
      && (VerdictError(v).Some? ==>
            run.reply == Raised(VerdictError(v).value) && run.requests == [] && userPath in run.files)
  {
  }

  /** When no round below the ceiling settles both files, the call sleeps 60
      times, reads each file 60 times, raises the 500 timeout, sends no
      request and leaves the temporary file behind. */
  lemma TimeoutLeavesTempFile(configured: bool, s: Script, disk: Disk, files: set<string>, n: nat, t: nat,
                              sport: string, userId: nat, filename: string, w: Watch)
    requires configured && sport in Catalog.Keys(Catalog.SportPrompts)
    requires Catalog.ReferenceVideo(sport) in files
    requires s.UploadAnswer(n).Success?
    requires disk.WriteAnswer(TempPath(userId, filename)).None?
    requires s.UploadAnswer(n + 1).Success?
    requires w == Watch(n + 1, n, t) && forall j :: 0 <= j < MaxWait ==> !Terminal(s, w, j)
    ensures var run := AnalyzeRun(configured, s, disk, files, n, t, sport, userId, filename);
      && run.reply == Raised(HttpException(500, ProcessingTimeout))
      && run.queried == Rounds(n + 1, n, MaxWait) && run.sleeps == MaxWait
      && run.requests == []
      && TempPath(userId, filename) in run.files
  {
    BoundedTimesOut(s, w, 0);
    assert VerdictError(Bounded(s, w, 0)) == Some(HttpException(500, ProcessingTimeout));
    PastTheChecks(configured, s, disk, files, n, t, sport, userId, filename);
    TransferFollowsVerdict(s, disk, files, n, t, sport, Catalog.PromptOf(sport), Catalog.ReferenceVideo(sport), TempPath(userId, filename));
  }

  /** When both reads of round k answered and a file FAILED, no earlier
      round having ended the loop, the call raises the 500 whose detail names the failure of that round,
      after k sleeps and k + 1 reads of each file, sends no request and
      leaves the temporary file behind. */
  lemma FailureReported(configured: bool, s: Script, disk: Disk, files: set<string>, n: nat, t: nat,
                        sport: string, userId: nat, filename: string, w: Watch, k: nat)
    requires configured && sport in Catalog.Keys(Catalog.SportPrompts)
    requires Catalog.ReferenceVideo(sport) in files
    requires s.UploadAnswer(n).Success?
    requires disk.WriteAnswer(TempPath(userId, filename)).None?
    requires s.UploadAnswer(n + 1).Success?
    requires w == Watch(n + 1, n, t)
    requires k < MaxWait && forall j :: 0 <= j < k ==> !Terminal(s, w, j)
    requires FailedAt(s, w, k)
    ensures var run := AnalyzeRun(configured, s, disk, files, n, t, sport, userId, filename);
      && run.reply == Raised(HttpException(500, FailureDetail(UserAt(s, w, k).value, ReferenceAt(s, w, k).value)))
      && run.queried == Rounds(n + 1, n, k + 1) && run.sleeps == k
      && run.requests == []
      && TempPath(userId, filename) in run.files
  {
    BoundedEndsAtFirstTerminal(s, w, 0, k);
    PastTheChecks(configured, s, disk, files, n, t, sport, userId, filename);
    TransferFollowsVerdict(s, disk, files, n, t, sport, Catalog.PromptOf(sport), Catalog.ReferenceVideo(sport), TempPath(userId, filename));
  }

  /** When a `files.get` call raises in round k, no earlier round having
      ended the loop, the `except` clause turns its text into the 500
      "Analysis error: ...". The user file's read comes first, so when it
      raises the reference file is not read in that round. The call slept k
      times, sent no request and left the temporary file behind. */
  lemma GetErrorReported(configured: bool, s: Script, disk: Disk, files: set<string>, n: nat, t: nat,
                         sport: string, userId: nat, filename: string, w: Watch, k: nat)
    requires configured && sport in Catalog.Keys(Catalog.SportPrompts)
    requires Catalog.ReferenceVideo(sport) in files
    requires s.UploadAnswer(n).Success?
    requires disk.WriteAnswer(TempPath(userId, filename)).None?
    requires s.UploadAnswer(n + 1).Success?
    requires w == Watch(n + 1, n, t)
    requires k < MaxWait && forall j :: 0 <= j < k ==> !Terminal(s, w, j)
    requires !Answered(s, w, k)
    ensures var run := AnalyzeRun(configured, s, disk, files, n, t, sport, userId, filename);
      var u, r := UserAt(s, w, k), ReferenceAt(s, w, k);
      && run.reply == Raised(HttpException(500, AnalysisErrorPrefix + (if u.Failure? then u.error else r.error)))
      && run.queried == Rounds(n + 1, n, k) + (if u.Failure? then [n + 1] else [n + 1, n])
      && run.sleeps == k
      && run.requests == []
      && TempPath(userId, filename) in run.files
  {
    BoundedEndsAtFirstTerminal(s, w, 0, k);
    PastTheChecks(configured, s, disk, files, n, t, sport, userId, filename);
    TransferFollowsVerdict(s, disk, files, n, t, sport, Catalog.PromptOf(sport), Catalog.ReferenceVideo(sport), TempPath(userId, filename));
  }

  /** When the save of the user's video raises, the call answers the 500
      "Analysis error: ..." with its text, after uploading only the reference
      video and without polling; the file stays on the disk exactly when the
      failure came after the open had created it. */
  lemma SaveErrorReported(configured: bool, s: Script, disk: Disk, files: set<string>, n: nat, t: nat,
                          sport: string, userId: nat, filename: string)
    requires configured && sport in Catalog.Keys(Catalog.SportPrompts)
    requires Catalog.ReferenceVideo(sport) in files
    requires s.UploadAnswer(n).Success?
    requires disk.WriteAnswer(TempPath(userId, filename)).Some?
    ensures var run := AnalyzeRun(configured, s, disk, files, n, t, sport, userId, filename);
      var userPath, fault := TempPath(userId, filename), disk.WriteAnswer(TempPath(userId, filename)).value;
      && run.reply == Raised(HttpException(500, AnalysisErrorPrefix + fault.message))
      && run.uploads == [Catalog.ReferenceVideo(sport)] && run.queried == [] && run.requests == []
      && run.files == if fault.WriteFailed? then files + {userPath} else files
  {
    PastTheChecks(configured, s, disk, files, n, t, sport, userId, filename);
  }

  /** A failed removal of the temporary file is swallowed: two disks that
      differ only in how removal goes give the same reply and the same
      effects on the service and the clock. */
  lemma RemovalErrorSwallowed(configured: bool, s: Script, disk: Disk, other: Disk, files: set<string>, n: nat, t: nat,
                              sport: string, userId: nat, filename: string)
    requires other.writeErrors == disk.writeErrors
    ensures var run := AnalyzeRun(configured, s, disk, files, n, t, sport, userId, filename);
      var alt := AnalyzeRun(configured, s, other, files, n, t, sport, userId, filename);
      run.reply == alt.reply && run.uploads == alt.uploads && run.queried == alt.queried
        && run.sleeps == alt.sleeps && run.requests == alt.requests
  {
    if configured && sport in Catalog.Keys(Catalog.SportPrompts) && Catalog.ReferenceVideo(sport) in files {
      PastTheChecks(configured, s, disk, files, n, t, sport, userId, filename);
      PastTheChecks(configured, s, other, files, n, t, sport, userId, filename);
      TransferIgnoresRemoval(s, disk, other, files, n, t, sport, Catalog.PromptOf(sport), Catalog.ReferenceVideo(sport), TempPath(userId, filename));
    }
  }

  /** `RemovalErrorSwallowed` for the stages from the reference upload on. */
  lemma TransferIgnoresRemoval(s: Script, disk: Disk, other: Disk, files: set<string>, n: nat, t: nat,
                               sport: string, prompt: string, referencePath: string, userPath: string)
    requires other.writeErrors == disk.writeErrors
    ensures var run := TransferRun(s, disk, files, n, t, sport, prompt, referencePath, userPath);
      var alt := TransferRun(s, other, files, n, t, sport, prompt, referencePath, userPath);
      run.reply == alt.reply && run.uploads == alt.uploads && run.queried == alt.queried
        && run.sleeps == alt.sleeps && run.requests == alt.requests
  {
    assert other.WriteAnswer(userPath) == disk.WriteAnswer(userPath);
  }
}
