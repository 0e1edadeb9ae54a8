/** The earlier draft of the video-analysis handler (`POST
    /analyze-video/{sport}` of the comparison prototype): the same workflow as
    the current handler, without the client check, the user id in the
    temporary path or the `except` clauses, and with a polling loop that has
    no ceiling. Exceptions escape to the framework as they are raised.

    The `while True` loop is observed for at most `fuel` rounds: a run whose
    loop is still going when the fuel runs out ends `StillPolling`, which
    says only that the handler has not returned yet. `HandleRun` is the
    specification of one call so observed; `AnalyzeVideo` is the handler,
    step by step, proved to follow it. */
module Draft {
  import opened Wrappers
  import opened Text
  import opened Web
  import opened Remote
  import opened Polling
  import Catalog

  const InferenceModel := "gemini-2.5-flash"
  const TempDir := "temp_uploads/"
  const UnsupportedSport := "Unsupported sport."
  const FailurePrefix := "File processing failed: User="
  const ReferenceLabel := ", Reference="
  /** The text of the AttributeError raised when a polled file has no `error` attribute. */
  const NoErrorAttribute := "'File' object has no attribute 'error'"

  /** The draft's boxing prompt: the current one without its closing request
      to reject a video that shows no boxing. */
  const BoxingPrompt := "compare the boxing technique with a professional boxer's; give a similarity score (percentage)"

  /** The draft's prompt dict: the current prompts, except for boxing. */
  const SportPrompts: Catalog.Dict<string> := [
    ("basketball", Catalog.BasketballPrompt),
    ("soccer", Catalog.SoccerPrompt),
    ("boxing", BoxingPrompt),
    ("golf", Catalog.GolfPrompt)
  ]

  /** The draft's reference videos, file names in the draft's base directory. */
  const SportVideos: Catalog.Dict<string> := [
    ("basketball", "stephShot.mp4"),
    ("soccer", "ronaldoKick.mp4"),
    ("boxing", "tysonUppercut.mp4"),
    ("golf", "tigerSwing.mp4")
  ]

  /** The two dicts have the same four keys, in the same order. */
  lemma CatalogsAgree()
    ensures Catalog.Keys(SportPrompts) == Catalog.Keys(SportVideos) == ["basketball", "soccer", "boxing", "golf"]
  {
  }

  /** The draft's dicts against the current ones: the same videos, and the
      same prompts but for the boxing entry, whose prompt differs. */
  lemma CatalogsAsInCurrentHandler()
    ensures SportVideos == Catalog.SportVideos
    ensures SportPrompts == Catalog.SportPrompts[2 := ("boxing", BoxingPrompt)]
    ensures BoxingPrompt != Catalog.BoxingPrompt && Catalog.SportPrompts[2] == ("boxing", Catalog.BoxingPrompt)
  {
    assert |BoxingPrompt| < |Catalog.BoxingPrompt|;
  }

  /** `SPORT_PROMPTS[sport]`, for a sport the handler has admitted. */
  function PromptOf(sport: string): string
    requires sport in Catalog.Keys(SportPrompts)
  {
    Catalog.Lookup(SportPrompts, sport).value
  }

  /** `SPORT_VIDEOS[sport]` after the membership test on `SPORT_PROMPTS`: it never misses. */
  function ReferenceVideo(sport: string): (path: string)
    requires sport in Catalog.Keys(SportPrompts)
    ensures (sport, path) in SportVideos
  {
    CatalogsAgree();
    Catalog.Lookup(SportVideos, sport).value
  }

  /** The 500 detail for a missing reference video, naming the sport and the file. */
  function MissingReference(sport: string, path: string): string
  {
    "Reference video for " + sport + " not found. Please ensure " + path + " is in the reference_videos directory."
  }

  /** Where the upload is saved: `temp_{filename}` in the temporary directory. */
  function TempPath(filename: string): string
  {
    TempDir + "temp_" + filename
  }

  /** With no user id in it, the temporary path is decided by the file name
      alone: two uploads share a path exactly when their names agree. */
  lemma TempPathsCollideExactlyOnSameName(f: string, g: string)
    ensures TempPath(f) == TempPath(g) <==> f == g
  {
    var p := TempDir + "temp_";
    if TempPath(f) == TempPath(g) {
      assert f == TempPath(f)[|p|..];
      assert g == TempPath(g)[|p|..];
    }
  }

  /** `str()` of a present `error` attribute: `None`, or its rendering. */
  function Render(e: ErrorField): string
    requires !e.Missing?
  {
    match e
    case NoneValue => "None"
    case Value(text) => text
  }

  /** The exception of the FAILED branch. The f-string reads the user file's
      `error` first, then the reference file's; a missing attribute raises
      AttributeError instead of the RuntimeError that names both errors. */
  function FailureError(user: Poll, reference: Poll): (e: Exception)
    ensures e.RuntimeError? || e == AttributeError(NoErrorAttribute)
    ensures e.RuntimeError? <==> !user.error.Missing? && !reference.error.Missing?
    ensures e.RuntimeError? ==>
      StartsWith(e.message, FailurePrefix + Render(user.error) + ReferenceLabel) && EndsWith(e.message, Render(reference.error))
  {
    if user.error.Missing? || reference.error.Missing? then AttributeError(NoErrorAttribute)
    else
      var head := FailurePrefix + Render(user.error) + ReferenceLabel;
      var m := head + Render(reference.error);
      assert m[..|head|] == head;
      assert m[|m| - |Render(reference.error)|..] == Render(reference.error);
      RuntimeError(m)
  }

  /** How a call observed for `fuel` polling rounds ends: with a reply, or
      still polling. */
  datatype Outcome = Replied(reply: Reply) | StillPolling

  /** What one observed call does: its outcome, the paths it uploads, the
      names it passes to `files.get`, its sleeps, the inference requests, and
      the files on the host afterwards. */
  datatype Run = Run(outcome: Outcome, uploads: seq<string>, queried: seq<nat>, sleeps: nat, requests: seq<Request>, files: set<string>)

  /** The exception with which a verdict of the `while True` loop aborts the
      request, if any: the FAILED branch's, or the one a `files.get` raised.
      The loop has no ceiling, so it never ends in a timeout. */
  function LoopError(v: Verdict): Option<Exception>
  {
    match v
    case Ready(_) => None
    case FailedIn(_, user, reference) => Some(FailureError(user, reference))
    case GetRaised(_, _, message) => Some(Foreign(message))
    case Timeout => None
  }

  /** The inference request: the prompt, then the user's file handle, then the reference's. */
  function AnalysisRequest(prompt: string, user: RemoteFile, reference: RemoteFile): Request
  {
    Request(InferenceModel, [Text(prompt), File(user), File(reference)])
  }

  /** One call, observed for `fuel` polling rounds. `files` are the host's
      files; `n` is the number of uploads and `t` the number of `files.get`
      calls made before the call. */
  function HandleRun(s: Script, disk: Disk, files: set<string>, n: nat, t: nat, fuel: nat,
                     sport: string, filename: string): Run
  {
    if sport !in Catalog.Keys(SportPrompts) then
      Run(Replied(Raised(HttpException(400, UnsupportedSport))), [], [], 0, [], files)
    else
      var referencePath := ReferenceVideo(sport);
      if referencePath !in files then
        Run(Replied(Raised(HttpException(500, MissingReference(sport, referencePath)))), [], [], 0, [], files)
      else TransferRun(s, disk, files, n, t, fuel, sport, PromptOf(sport), referencePath, TempPath(filename))
  }

  /** From the upload of the reference video on. */
  function TransferRun(s: Script, disk: Disk, files: set<string>, n: nat, t: nat, fuel: nat,
                       sport: string, prompt: string, referencePath: string, userPath: string): Run
  {
    match s.UploadAnswer(n)
    case Failure(e) => Run(Replied(Raised(Foreign(e))), [referencePath], [], 0, [], files)
    case Success(rm) =>
      var rest := SaveRun(s, disk, files, n + 1, t, fuel, sport, prompt, userPath, RemoteFile(n, rm.uri, rm.mimeType));
      rest.(uploads := [referencePath] + rest.uploads)
  }

  /** From the saving of the user's video on, the reference video being
      uploaded as `reference`. A save that fails after the open leaves the
      file behind. */
  function SaveRun(s: Script, disk: Disk, files: set<string>, n: nat, t: nat, fuel: nat, sport: string, prompt: string,
                   userPath: string, reference: RemoteFile): Run
  {
    match disk.WriteAnswer(userPath)
    case Some(e) => Run(Replied(Raised(Foreign(e.message))), [], [], 0, [], if e.WriteFailed? then files + {userPath} else files)
    case None =>
      var written := files + {userPath};
      match s.UploadAnswer(n)
      case Failure(e) => Run(Replied(Raised(Foreign(e))), [userPath], [], 0, [], written)
      case Success(um) =>
        var rest := ProcessRun(s, disk, written, t, fuel, sport, prompt, userPath, RemoteFile(n, um.uri, um.mimeType), reference);
        rest.(uploads := [userPath])
  }

  /** From the polling loop on, with both videos uploaded. */
  function ProcessRun(s: Script, disk: Disk, files: set<string>, t: nat, fuel: nat, sport: string, prompt: string,
                      userPath: string, user: RemoteFile, reference: RemoteFile): Run
  {
    var w := Watch(user.name, reference.name, t);
    match Unbounded(s, w, 0, fuel)
    case None => Run(StillPolling, [], Rounds(user.name, reference.name, fuel), fuel, [], files)
    case Some(v) =>
      match LoopError(v)
      case Some(e) => Run(Replied(Raised(e)), [], ReadsOf(w, v), SleepsOf(v), [], files)
      case None =>
        var request := AnalysisRequest(prompt, user, reference);
        match s.GenerateAnswer(request)
        case Failure(e) => Run(Replied(Raised(Foreign(e))), [], ReadsOf(w, v), SleepsOf(v), [request], files)
        case Success(text) =>
          var kept := if userPath in files && disk.RemoveAnswer(userPath).None? then files - {userPath} else files;
          Run(Replied(Json([("sport", sport), ("response", text)])), [], ReadsOf(w, v), SleepsOf(v), [request], kept)
  }

  /** The handler from the polling loop on: the loop, watched for `fuel`
      rounds, the exception with which its verdict aborts the request, the
      inference request, the removal of the temporary file and the reply. */
  method Process(gw: Gateway, host: Host, fuel: nat, sport: string, prompt: string, userPath: string,
                 user: RemoteFile, reference: RemoteFile) returns (outcome: Outcome)
    requires user.name < |gw.uploads| && reference.name < |gw.uploads|
    modifies gw`queried, gw`requests, host`files, host`ticks
    ensures var run := ProcessRun(gw.script, host.disk, old(host.files), |old(gw.queried)|, fuel, sport, prompt, userPath, user, reference);
      && outcome == run.outcome
      && gw.queried == old(gw.queried) + run.queried
      && gw.requests == old(gw.requests) + run.requests
      && host.files == run.files
      && host.ticks == old(host.ticks) + run.sleeps
  {
    var verdict := PollUnbounded(gw, host, user.name, reference.name, fuel);
    if verdict.None? {
      return StillPolling;
    }
    var failure := LoopError(verdict.value);
    if failure.Some? {
      return Replied(Raised(failure.value));
    }
    var response := gw.Generate(AnalysisRequest(prompt, user, reference));
    if response.Failure? {
      return Replied(Raised(Foreign(response.error)));
    }
    var removeError := host.Remove(userPath);
    outcome := Replied(Json([("sport", sport), ("response", response.value)]));
  }

  /** The handler from the saving of the user's video on. */
  method Save(gw: Gateway, host: Host, fuel: nat, sport: string, prompt: string, userPath: string, reference: RemoteFile)
    returns (outcome: Outcome)
    requires reference.name < |gw.uploads|
    modifies gw, host
    ensures var n := old(|gw.uploads|);
      var run := SaveRun(gw.script, host.disk, old(host.files), n, |old(gw.queried)|, fuel, sport, prompt, userPath, reference);
      && outcome == run.outcome
      && gw.uploads == old(gw.uploads) + run.uploads
      && gw.queried == old(gw.queried) + run.queried
      && gw.requests == old(gw.requests) + run.requests
      && host.files == run.files
      && host.ticks == old(host.ticks) + run.sleeps
  {
    var writeError := host.Write(userPath);
    if writeError.Some? {
      return Replied(Raised(Foreign(writeError.value.message)));
    }
    var uploaded := gw.Upload(userPath);
    if uploaded.Failure? {
      return Replied(Raised(Foreign(uploaded.error)));
    }
    outcome := Process(gw, host, fuel, sport, prompt, userPath, uploaded.value, reference);
  }

  /** The handler from the upload of the reference video on. */
  method Transfer(gw: Gateway, host: Host, fuel: nat, sport: string, prompt: string, referencePath: string, userPath: string)
    returns (outcome: Outcome)
    modifies gw, host
    ensures var n := old(|gw.uploads|);
      var run := TransferRun(gw.script, host.disk, old(host.files), n, |old(gw.queried)|, fuel, sport, prompt, referencePath, userPath);
      && outcome == run.outcome
      && gw.uploads == old(gw.uploads) + run.uploads
      && gw.queried == old(gw.queried) + run.queried
      && gw.requests == old(gw.requests) + run.requests
      && host.files == run.files
      && host.ticks == old(host.ticks) + run.sleeps
  {
    var uploaded := gw.Upload(referencePath);
    if uploaded.Failure? {
      return Replied(Raised(Foreign(uploaded.error)));
    }
    outcome := Save(gw, host, fuel, sport, prompt, userPath, uploaded.value);
  }

  /** `analyze_video` of the draft, observed for `fuel` polling rounds. */
  method AnalyzeVideo(gw: Gateway, host: Host, fuel: nat, sport: string, filename: string)
    returns (outcome: Outcome)
    modifies gw, host
    ensures var n, t := old(|gw.uploads|), old(|gw.queried|);
      var run := HandleRun(gw.script, host.disk, old(host.files), n, t, fuel, sport, filename);
      && outcome == run.outcome
      && gw.uploads == old(gw.uploads) + run.uploads
      && gw.queried == old(gw.queried) + run.queried
      && gw.requests == old(gw.requests) + run.requests
      && host.files == run.files
      && host.ticks == old(host.ticks) + run.sleeps
  {
    if sport !in Catalog.Keys(SportPrompts) {
      return Replied(Raised(HttpException(400, UnsupportedSport)));
    }
    var referencePath := ReferenceVideo(sport);
    var present := host.Exists(referencePath);
    if !present {
      return Replied(Raised(HttpException(500, MissingReference(sport, referencePath))));
    }
    outcome := Transfer(gw, host, fuel, sport, PromptOf(sport), referencePath, TempPath(filename));
  }
}
