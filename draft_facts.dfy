/** What one call of the draft handler does, stated over its specification
    `Draft.HandleRun`: the checks, the order of the uploads, the ways out of
    the unbounded loop and its divergence, the shape of an answered call, the
    fate of the temporary file, and how the draft and the current handler
    differ once both videos are uploaded. */
module DraftFacts {
  import opened Wrappers
  import opened Web
  import opened Remote
  import opened Polling
  import opened Draft
  import Catalog
  import Analysis

  /** An unknown sport is refused with a 400 before anything else; a missing
      reference video with a 500 naming it; neither uploads, polls, sleeps or
      writes anything. */
  lemma ChecksComeFirst(s: Script, disk: Disk, files: set<string>, n: nat, t: nat, fuel: nat, sport: string, filename: string)
    ensures var run := HandleRun(s, disk, files, n, t, fuel, sport, filename);
      && (sport !in Catalog.Keys(SportPrompts) ==>
            run == Run(Replied(Raised(HttpException(400, UnsupportedSport))), [], [], 0, [], files))
      && (sport in Catalog.Keys(SportPrompts) && ReferenceVideo(sport) !in files ==>
            run == Run(Replied(Raised(HttpException(500, MissingReference(sport, ReferenceVideo(sport))))), [], [], 0, [], files))
  {
  }

  /** Once the checks pass, the call is the staged run from the reference upload on. */
  lemma PastTheChecks(s: Script, disk: Disk, files: set<string>, n: nat, t: nat, fuel: nat, sport: string, filename: string)
    requires sport in Catalog.Keys(SportPrompts) && ReferenceVideo(sport) in files
    ensures HandleRun(s, disk, files, n, t, fuel, sport, filename)
         == TransferRun(s, disk, files, n, t, fuel, sport, PromptOf(sport), ReferenceVideo(sport), TempPath(filename))
  {
  }

  /** The reference video is uploaded first. If that upload fails, nothing is
      saved and nothing polled; the user's video is uploaded second, and only
      once it was saved. */
  lemma ReferenceUploadedFirst(s: Script, disk: Disk, files: set<string>, n: nat, t: nat, fuel: nat,
                               sport: string, prompt: string, referencePath: string, userPath: string)
    ensures var run := TransferRun(s, disk, files, n, t, fuel, sport, prompt, referencePath, userPath);
      && 0 < |run.uploads| <= 2 && run.uploads[0] == referencePath
      && (s.UploadAnswer(n).Failure? ==> run.uploads == [referencePath] && run.files == files && run.queried == [] && run.requests == [])
      && (|run.uploads| == 2 ==> run.uploads[1] == userPath && disk.WriteAnswer(userPath).None? && s.UploadAnswer(n).Success?)
  {
  }

  /** From the loop on, the loop decides the outcome: still polling exactly
      when no round so far was terminal, after a read of each file and a
      sleep per round; both files ACTIVE sends the one request; a FAILED file
      raises the exception of the FAILED branch, and a `files.get` that
      raises lets its exception escape, both sending nothing. */
  lemma ProcessFollowsLoop(s: Script, disk: Disk, files: set<string>, t: nat, fuel: nat, sport: string, prompt: string,
                           userPath: string, user: RemoteFile, reference: RemoteFile)
    ensures var run := ProcessRun(s, disk, files, t, fuel, sport, prompt, userPath, user, reference);
      var v := Unbounded(s, Watch(user.name, reference.name, t), 0, fuel);
      && (run.outcome.StillPolling? <==> v.None?)
      && (v.None? ==> run == Run(StillPolling, [], Rounds(user.name, reference.name, fuel), fuel, [], files))
      && (v.Some? ==> run.queried == ReadsOf(Watch(user.name, reference.name, t), v.value) && run.sleeps == SleepsOf(v.value))
      && (v.Some? && v.value.Ready? ==> run.requests == [AnalysisRequest(prompt, user, reference)])
      && (v.Some? && v.value.FailedIn? ==>
            run.outcome == Replied(Raised(FailureError(v.value.user, v.value.reference))) && run.requests == [])
      && (v.Some? && v.value.GetRaised? ==>
            run.outcome == Replied(Raised(Foreign(v.value.message))) && run.requests == [])
  {
  }

  /** The same for the stages from the reference upload on, once both videos
      are uploaded: both uploads are in the log, and a call still polling
      has the temporary file on the disk. A call that is still polling got
      that far. */
  lemma TransferFollowsLoop(s: Script, disk: Disk, files: set<string>, n: nat, t: nat, fuel: nat,
                            sport: string, prompt: string, referencePath: string, userPath: string)
    ensures var run := TransferRun(s, disk, files, n, t, fuel, sport, prompt, referencePath, userPath);
      var v := Unbounded(s, Watch(n + 1, n, t), 0, fuel);
      var uploaded := s.UploadAnswer(n).Success? && disk.WriteAnswer(userPath).None? && s.UploadAnswer(n + 1).Success?;
      && (run.outcome.StillPolling? ==> uploaded)
      && (uploaded ==>
            && run.uploads == [referencePath, userPath]
            && (run.outcome.StillPolling? <==> v.None?)
            && (v.None? ==> run == Run(StillPolling, [referencePath, userPath], Rounds(n + 1, n, fuel), fuel, [], files + {userPath}))
            && (v.Some? ==> run.queried == ReadsOf(Watch(n + 1, n, t), v.value) && run.sleeps == SleepsOf(v.value))
            && (v.Some? && v.value.Ready? ==> |run.requests| == 1)
            && (v.Some? && v.value.FailedIn? ==>
                  run.outcome == Replied(Raised(FailureError(v.value.user, v.value.reference))) && run.requests == [])
            && (v.Some? && v.value.GetRaised? ==>
                  run.outcome == Replied(Raised(Foreign(v.value.message))) && run.requests == []))
  {
    if s.UploadAnswer(n).Success? && disk.WriteAnswer(userPath).None? && s.UploadAnswer(n + 1).Success? {
      var rm, um := s.UploadAnswer(n).value, s.UploadAnswer(n + 1).value;
      ProcessFollowsLoop(s, disk, files + {userPath}, t, fuel, sport, prompt, userPath,
                         RemoteFile(n + 1, um.uri, um.mimeType), RemoteFile(n, rm.uri, rm.mimeType));
    }
  }

  /** A service that never settles either file keeps the draft polling,
      however long it is watched: it reads each file and sleeps once per
      round, sends nothing and never replies. */
  lemma NeverSettlingDiverges(s: Script, disk: Disk, files: set<string>, n: nat, t: nat, fuel: nat,
                              sport: string, filename: string, w: Watch)
    requires sport in Catalog.Keys(SportPrompts) && ReferenceVideo(sport) in files
    requires s.UploadAnswer(n).Success? && disk.WriteAnswer(TempPath(filename)).None? && s.UploadAnswer(n + 1).Success?
    requires w == Watch(n + 1, n, t) && forall j :: 0 <= j ==> !Terminal(s, w, j)
    ensures HandleRun(s, disk, files, n, t, fuel, sport, filename)
         == Run(StillPolling, [ReferenceVideo(sport), TempPath(filename)], Rounds(n + 1, n, fuel), fuel, [], files + {TempPath(filename)})
  {
    UnboundedDiverges(s, w, 0, fuel);
    PastTheChecks(s, disk, files, n, t, fuel, sport, filename);
    TransferFollowsLoop(s, disk, files, n, t, fuel, sport, PromptOf(sport), ReferenceVideo(sport), TempPath(filename));
  }

  /** An answered call did all of its work, in source order: the reference
      video uploaded as file `n`, the user's video saved at `temp_{filename}`
      and uploaded as file `n + 1`, both ACTIVE in the same round, one request
      with the prompt, then the user's file, then the reference file, whose
      text is the answer under the key "response". */
  lemma AnsweredRun(s: Script, disk: Disk, files: set<string>, n: nat, t: nat, fuel: nat, sport: string, filename: string)
    ensures var run := HandleRun(s, disk, files, n, t, fuel, sport, filename);
      run.outcome.Replied? && run.outcome.reply.Json? ==>
        && sport in Catalog.Keys(SportPrompts)
        && var referencePath, userPath := ReferenceVideo(sport), TempPath(filename);
        && referencePath in files
        && disk.WriteAnswer(userPath).None?
        && s.UploadAnswer(n).Success? && s.UploadAnswer(n + 1).Success?
        && var rm, um := s.UploadAnswer(n).value, s.UploadAnswer(n + 1).value;
        && run.uploads == [referencePath, userPath]
        && Unbounded(s, Watch(n + 1, n, t), 0, fuel) == Some(Ready(run.sleeps))
        && run.queried == Rounds(n + 1, n, run.sleeps + 1)
        && run.requests == [Request(InferenceModel, [Text(PromptOf(sport)), File(RemoteFile(n + 1, um.uri, um.mimeType)), File(RemoteFile(n, rm.uri, rm.mimeType))])]
        && s.GenerateAnswer(run.requests[0]).Success?
        && run.outcome.reply == Json([("sport", sport), ("response", s.GenerateAnswer(run.requests[0]).value)])
  {
    var run := HandleRun(s, disk, files, n, t, fuel, sport, filename);
    if run.outcome.Replied? && run.outcome.reply.Json? {
      PastTheChecks(s, disk, files, n, t, fuel, sport, filename);
      var rm, um := s.UploadAnswer(n).value, s.UploadAnswer(n + 1).value;
      ProcessFollowsLoop(s, disk, files + {TempPath(filename)}, t, fuel, sport, PromptOf(sport), TempPath(filename),
                         RemoteFile(n + 1, um.uri, um.mimeType), RemoteFile(n, rm.uri, rm.mimeType));
    }
  }

  /** The temporary file is removed only on the answered path, and a removal
      that fails leaves it; every other call leaves it behind exactly when
      the reference upload went through and the save created the file, which
      it does unless the open itself failed. */
  lemma TempFileLifecycle(s: Script, disk: Disk, files: set<string>, n: nat, t: nat, fuel: nat,
                          sport: string, prompt: string, referencePath: string, userPath: string)
    ensures var run := TransferRun(s, disk, files, n, t, fuel, sport, prompt, referencePath, userPath);
      && (run.outcome.Replied? && run.outcome.reply.Json? ==>
            run.files == if disk.RemoveAnswer(userPath).None? then files - {userPath} else files + {userPath})
      && (!(run.outcome.Replied? && run.outcome.reply.Json?) ==>
            run.files == if s.UploadAnswer(n).Success? && disk.Creates(userPath) then files + {userPath} else files)
  {
  }

  /** A failed removal of the temporary file is swallowed: two disks that
      differ only in how removal goes give the same outcome and the same
      effects on the service and the clock. */
  lemma RemovalErrorSwallowed(s: Script, disk: Disk, other: Disk, files: set<string>, n: nat, t: nat, fuel: nat,
                              sport: string, prompt: string, referencePath: string, userPath: string)
    requires other.writeErrors == disk.writeErrors
    ensures var run := TransferRun(s, disk, files, n, t, fuel, sport, prompt, referencePath, userPath);
      var alt := TransferRun(s, other, files, n, t, fuel, sport, prompt, referencePath, userPath);
      run.outcome == alt.outcome && run.uploads == alt.uploads && run.queried == alt.queried
        && run.sleeps == alt.sleeps && run.requests == alt.requests
  {
    assert other.WriteAnswer(userPath) == disk.WriteAnswer(userPath);
  }

  /** The current handler from the polling loop on, in the terms used here:
      it polls and sleeps as the bounded loop's verdict says, and sends its
      one request exactly when that verdict is Ready. */
  lemma CurrentProcessFollowsLoop(s: Script, disk: Disk, files: set<string>, t: nat, sport: string, prompt: string,
                                  userPath: string, user: RemoteFile, reference: RemoteFile)
    ensures var run := Analysis.ProcessRun(s, disk, files, t, sport, prompt, userPath, user, reference);
      var v := Bounded(s, Watch(user.name, reference.name, t), 0);
      && run.queried == ReadsOf(Watch(user.name, reference.name, t), v) && run.sleeps == SleepsOf(v)
      && (v.Ready? ==> |run.requests| == 1)
      && (!v.Ready? ==> run.requests == [] && run.reply == Raised(Analysis.VerdictError(v).value))
  {
  }

  /** With both videos uploaded and the first terminal round k below the
      ceiling, the current handler and the draft (watched beyond round k)
      make the same `files.get` calls, sleep the same number of times, and
      send a request in the same case, both files ACTIVE in round k. */
  lemma HandlersAgreeBelowCeiling(s: Script, disk: Disk, files: set<string>, t: nat, fuel: nat, sport: string,
                                  prompt: string, userPath: string, user: RemoteFile, reference: RemoteFile, k: nat, w: Watch)
    requires w == Watch(user.name, reference.name, t)
    requires k < MaxWait && k < fuel
    requires Terminal(s, w, k) && forall j :: 0 <= j < k ==> !Terminal(s, w, j)
    ensures var current := Analysis.ProcessRun(s, disk, files, t, sport, prompt, userPath, user, reference);
      var draft := ProcessRun(s, disk, files, t, fuel, sport, prompt, userPath, user, reference);
      && draft.outcome.Replied?
      && current.queried == draft.queried == ReadsOf(w, VerdictAt(s, w, k))
      && current.sleeps == draft.sleeps == k
      && (|current.requests| == 1 <==> ActiveIn(s, w, k))
      && (|draft.requests| == 1 <==> ActiveIn(s, w, k))
  {
    LoopsAgreeBelowCeiling(s, w, k, fuel);
    BoundedEndsAtFirstTerminal(s, w, 0, k);
    CurrentProcessFollowsLoop(s, disk, files, t, sport, prompt, userPath, user, reference);
    ProcessFollowsLoop(s, disk, files, t, fuel, sport, prompt, userPath, user, reference);
  }

  /** When no file settles before round 60 but both are ACTIVE in a later
      round k, the current handler gives up with the 500 timeout after 60
      rounds and sends nothing, while the draft, watched beyond round k,
      polls on and sends its request. */
  lemma CeilingSeparatesTheHandlers(s: Script, disk: Disk, files: set<string>, t: nat, fuel: nat, sport: string,
                                    prompt: string, userPath: string, user: RemoteFile, reference: RemoteFile, k: nat, w: Watch)
    requires w == Watch(user.name, reference.name, t)
    requires MaxWait <= k < fuel
    requires ActiveIn(s, w, k) && forall j :: 0 <= j < k ==> !Terminal(s, w, j)
    ensures var current := Analysis.ProcessRun(s, disk, files, t, sport, prompt, userPath, user, reference);
      var draft := ProcessRun(s, disk, files, t, fuel, sport, prompt, userPath, user, reference);
      && current.reply == Raised(HttpException(500, Analysis.ProcessingTimeout))
      && current.queried == Rounds(user.name, reference.name, MaxWait) && current.requests == []
      && draft.queried == Rounds(user.name, reference.name, k + 1) && draft.requests == [AnalysisRequest(prompt, user, reference)]
  {
    LoopsDifferBeyondCeiling(s, w, k);
    UnboundedExitsAtFirstTerminal(s, w, 0, k, fuel);
    CurrentProcessFollowsLoop(s, disk, files, t, sport, prompt, userPath, user, reference);
    ProcessFollowsLoop(s, disk, files, t, fuel, sport, prompt, userPath, user, reference);
  }
}
