/** The video-analysis handler of the current back end (`POST
    /api/analyze-video/{sport}`): check the client, the sport and the
    reference video; upload the reference video; save and upload the user's
    video; poll both until they are ready (at most 60 rounds); send one
    inference request; remove the temporary file; answer `{sport, analysis}`.

    `AnalyzeRun` is the specification: what one call replies and does to the
    service and the host, as a function of the scripts and the state before.
    `AnalyzeVideo` is the handler, step by step, proved to follow it. */
module Analysis {
  import opened Wrappers
  import opened Text
  import opened Web
  import opened Remote
  import opened Polling
  import Catalog

  const InferenceModel := "gemini-2.0-flash-exp"
  const TempDir := "temp_uploads/"
  const KeyMissing := "Gemini API key not configured"
  const UnsupportedSport := "Unsupported sport"
  const ProcessingTimeout := "File processing timeout"
  const ProcessingFailed := "File processing failed"
  const UserFailedPrefix := "Your video failed: "
  const ReferenceFailedPrefix := "Reference video failed: "
  const Separator := " | "
  const ConvertHint := ". Try converting your video to MP4 format or reducing its size/length."
  const AnalysisErrorPrefix := "Analysis error: "

  /** Where the user's upload is saved: `temp_{user.id}_{filename}` in the temporary directory. */
  function TempPath(userId: nat, filename: string): string
  {
    TempDir + "temp_" + NatToString(userId) + "_" + filename
  }

  /** Two different users never share a temporary path, whatever their file names. */
  lemma TempPathsOfDistinctUsersDiffer(a: nat, fa: string, b: nat, fb: string)
    requires a != b
    ensures TempPath(a, fa) != TempPath(b, fb)
  {
    var p, sa, sb := TempDir + "temp_", NatToString(a), NatToString(b);
    assert TempPath(a, fa) == p + sa + "_" + fa;
    assert TempPath(b, fb) == p + sb + "_" + fb;
    if |sa| < |sb| {
      ShorterKeyDiffers(p, sa, fa, sb, fb);
    } else if |sb| < |sa| {
      ShorterKeyDiffers(p, sb, fb, sa, fa);
    } else if p + sa + "_" + fa == p + sb + "_" + fb {
      assert (p + sa + "_" + fa)[|p|..|p| + |sa|] == sa;
      assert (p + sb + "_" + fb)[|p|..|p| + |sb|] == sb;
      NatToStringInjective(a, b);
    }
  }

  /** A digit key followed by `_` cannot be mistaken for a longer digit key. */
  lemma ShorterKeyDiffers(p: string, short: string, f: string, long: string, g: string)
    requires AllDigits(long) && |short| < |long|
    ensures p + short + "_" + f != p + long + "_" + g
  {
    assert (p + short + "_" + f)[|p| + |short|] == '_';
    assert (p + long + "_" + g)[|p| + |short|] == long[|short|];
  }

  /** The error text of a polled file as the handler reads it: `None` unless
      the state is FAILED; then `getattr(f, 'error', 'Unknown error')`. */
  function ErrorOf(p: Poll): Option<string>
  {
    if p.state != Failed then None
    else match p.error
      case Missing => Some("Unknown error")
      case NoneValue => None
      case Value(t) => Some(t)
  }

  /** Python truthiness of an optional text: neither `None` nor empty. */
  predicate Reported(e: Option<string>)
  {
    e.Some? && e.value != ""
  }

  /** The detail of the 500 raised when a polled file FAILED. The user's part
      comes before the reference's; with neither part the text falls back to a
      generic one; the conversion hint is appended exactly when the user's
      file FAILED. */
  function FailureDetail(user: Poll, reference: Poll): (detail: string)
    ensures Reported(ErrorOf(user)) && Reported(ErrorOf(reference)) ==>
      detail == UserFailedPrefix + ErrorOf(user).value + Separator + ReferenceFailedPrefix + ErrorOf(reference).value + ConvertHint
    ensures Reported(ErrorOf(user)) && !Reported(ErrorOf(reference)) ==>
      detail == UserFailedPrefix + ErrorOf(user).value + ConvertHint
    ensures !Reported(ErrorOf(user)) && Reported(ErrorOf(reference)) ==>
      detail == ReferenceFailedPrefix + ErrorOf(reference).value + (if user.state == Failed then ConvertHint else "")
    ensures !Reported(ErrorOf(user)) && !Reported(ErrorOf(reference)) ==>
      detail == ProcessingFailed + (if user.state == Failed then ConvertHint else "")
  {
    var details :=
      (if Reported(ErrorOf(user)) then [UserFailedPrefix + ErrorOf(user).value] else [])
      + (if Reported(ErrorOf(reference)) then [ReferenceFailedPrefix + ErrorOf(reference).value] else []);
    assert |details| == 2 ==> Join(details, Separator) == details[0] + Separator + details[1] by {
      if |details| == 2 {
        assert Join(details[1..], Separator) == details[1];
      }
    }
    var message := if |details| > 0 then Join(details, Separator) else ProcessingFailed;
    if user.state == Failed then message + ConvertHint else message
  }

  /** The exception with which a polling verdict aborts the request, if any:
      the 500 naming a FAILED file's errors, the exception a `files.get`
      raised, or the 500 of the timeout check after the loop. */
  function VerdictError(v: Verdict): Option<Exception>
  {
    match v
    case Ready(_) => None
    case FailedIn(_, user, reference) => Some(HttpException(500, FailureDetail(user, reference)))
    case GetRaised(_, _, message) => Some(Foreign(message))
    case Timeout => Some(HttpException(500, ProcessingTimeout))
  }

  /** The handler's `except` clauses: an HTTPException passes unchanged, any
      other exception becomes a 500 "Analysis error: ..." carrying its text, so
      the handler never lets anything but an HTTPException escape. */
  function Shield(r: Reply): (s: Reply)
    ensures s.Json? || s.exception.HttpException?
    ensures r.Json? || r.exception.HttpException? ==> s == r
    ensures r.Raised? && r.exception.Foreign? ==> s == Raised(HttpException(500, AnalysisErrorPrefix + r.exception.message))
  {
    match r
    case Json(_) => r
    case Raised(HttpException(_, _)) => r
    case Raised(e) => Raised(HttpException(500, AnalysisErrorPrefix + e.message))
  }

  /** What one call does: its reply, the paths it uploads, the names it
      passes to `files.get`, its sleeps, the inference requests, and the files
      on the host afterwards. */
  datatype Run = Run(reply: Reply, uploads: seq<string>, queried: seq<nat>, sleeps: nat, requests: seq<Request>, files: set<string>)

  /** The inference request: the prompt, then the user's video, then the reference video. */
  function AnalysisRequest(prompt: string, user: RemoteFile, reference: RemoteFile): Request
  {
    Request(InferenceModel, [Text(prompt), Uri(user.uri, user.mimeType), Uri(reference.uri, reference.mimeType)])
  }

  /** The `try` block, over the scripts. `files` are the host's files; `n` is
      the number of uploads and `t` the number of `files.get` calls made before
      the call, so the reference video becomes remote file `n`, the user's
      video file `n + 1`, and polling starts at time `t`. */
  function AttemptRun(configured: bool, s: Script, disk: Disk, files: set<string>, n: nat, t: nat,
                      sport: string, userId: nat, filename: string): Run
  {
    if !configured then Run(Raised(HttpException(500, KeyMissing)), [], [], 0, [], files)
    else if sport !in Catalog.Keys(Catalog.SportPrompts) then
      Run(Raised(HttpException(400, UnsupportedSport)), [], [], 0, [], files)
    else
      var referencePath := Catalog.ReferenceVideo(sport);
      if referencePath !in files then
        Run(Raised(HttpException(500, "Reference video for " + sport + " not found")), [], [], 0, [], files)
      else TransferRun(s, disk, files, n, t, sport, Catalog.PromptOf(sport), referencePath, TempPath(userId, filename))
  }

  /** From the upload of the reference video on: upload it, then go on as
      `SaveRun`. Like the two stages after it, it describes what it does itself
      and what the stages after it do. */
  function TransferRun(s: Script, disk: Disk, files: set<string>, n: nat, t: nat,
                       sport: string, prompt: string, referencePath: string, userPath: string): Run
  {
    match s.UploadAnswer(n)
    case Failure(e) => Run(Raised(Foreign(e)), [referencePath], [], 0, [], files)
    case Success(rm) =>
      var rest := SaveRun(s, disk, files, n + 1, t, sport, prompt, userPath, RemoteFile(n, rm.uri, rm.mimeType));
      rest.(uploads := [referencePath] + rest.uploads)
  }

  /** From the saving of the user's video on, the reference video being
      uploaded as `reference`: save the video, upload it as remote file `n`,
      then go on as `ProcessRun`. A save that fails after the open leaves
      the file behind. */
  function SaveRun(s: Script, disk: Disk, files: set<string>, n: nat, t: nat, sport: string, prompt: string,
                   userPath: string, reference: RemoteFile): Run
  {
    match disk.WriteAnswer(userPath)
    case Some(e) => Run(Raised(Foreign(e.message)), [], [], 0, [], if e.WriteFailed? then files + {userPath} else files)
    case None =>
      var written := files + {userPath};
      match s.UploadAnswer(n)
      case Failure(e) => Run(Raised(Foreign(e)), [userPath], [], 0, [], written)
      case Success(um) =>
        var rest := ProcessRun(s, disk, written, t, sport, prompt, userPath, RemoteFile(n, um.uri, um.mimeType), reference);
        rest.(uploads := [userPath])
  }

  /** From the polling loop on, with both videos uploaded: poll from time `t`,
      send the inference request, remove the temporary file, reply. It
      uploads nothing. */
  function ProcessRun(s: Script, disk: Disk, files: set<string>, t: nat, sport: string, prompt: string,
                      userPath: string, user: RemoteFile, reference: RemoteFile): Run
  {
    var w := Watch(user.name, reference.name, t);
    var v := Bounded(s, w, 0);
    match VerdictError(v)
    case Some(e) => Run(Raised(e), [], ReadsOf(w, v), SleepsOf(v), [], files)
    case None =>
      var request := AnalysisRequest(prompt, user, reference);
      match s.GenerateAnswer(request)
      case Failure(e) => Run(Raised(Foreign(e)), [], ReadsOf(w, v), SleepsOf(v), [request], files)
      case Success(text) =>
        var kept := if userPath in files && disk.RemoveAnswer(userPath).None? then files - {userPath} else files;
        Run(Json([("sport", sport), ("analysis", text)]), [], ReadsOf(w, v), SleepsOf(v), [request], kept)
  }

  /** The whole handler: the `try` block followed by its `except` clauses. */
  function AnalyzeRun(configured: bool, s: Script, disk: Disk, files: set<string>, n: nat, t: nat,
                      sport: string, userId: nat, filename: string): Run
  {
    var run := AttemptRun(configured, s, disk, files, n, t, sport, userId, filename);
    run.(reply := Shield(run.reply))
  }

  /** The handler from the polling loop on: the loop, the exception with
      which its verdict aborts the request, the inference request, the
      removal of the temporary file and the reply. */
  method Process(gw: Gateway, host: Host, sport: string, prompt: string, userPath: string,
                 user: RemoteFile, reference: RemoteFile) returns (reply: Reply)
    requires user.name < |gw.uploads| && reference.name < |gw.uploads|
    modifies gw`queried, gw`requests, host`files, host`ticks
    ensures var run := ProcessRun(gw.script, host.disk, old(host.files), |old(gw.queried)|, sport, prompt, userPath, user, reference);
      && reply == run.reply
      && gw.queried == old(gw.queried) + run.queried
      && gw.requests == old(gw.requests) + run.requests
      && host.files == run.files
      && host.ticks == old(host.ticks) + run.sleeps
  {
    var verdict := PollBounded(gw, host, user.name, reference.name);
    var failure := VerdictError(verdict);
    if failure.Some? {
      return Raised(failure.value);
    }
    var response := gw.Generate(AnalysisRequest(prompt, user, reference));
    if response.Failure? {
      return Raised(Foreign(response.error));
    }
    var removeError := host.Remove(userPath);
    reply := Json([("sport", sport), ("analysis", response.value)]);
  }

  /** The handler from the saving of the user's video on. */
  method Save(gw: Gateway, host: Host, sport: string, prompt: string, userPath: string, reference: RemoteFile)
    returns (reply: Reply)
    requires reference.name < |gw.uploads|
    modifies gw, host
    ensures var n := old(|gw.uploads|);
      var run := SaveRun(gw.script, host.disk, old(host.files), n, |old(gw.queried)|, sport, prompt, userPath, reference);
      && reply == run.reply
      && gw.uploads == old(gw.uploads) + run.uploads
      && gw.queried == old(gw.queried) + run.queried
      && gw.requests == old(gw.requests) + run.requests
      && host.files == run.files
      && host.ticks == old(host.ticks) + run.sleeps
  {
    var writeError := host.Write(userPath);
    if writeError.Some? {
      return Raised(Foreign(writeError.value.message));
    }
    var uploaded := gw.Upload(userPath);
    if uploaded.Failure? {
      return Raised(Foreign(uploaded.error));
    }
    reply := Process(gw, host, sport, prompt, userPath, uploaded.value, reference);
  }

  /** The handler from the upload of the reference video on. */
  method Transfer(gw: Gateway, host: Host, sport: string, prompt: string, referencePath: string, userPath: string)
    returns (reply: Reply)
    modifies gw, host
    ensures var n := old(|gw.uploads|);
      var run := TransferRun(gw.script, host.disk, old(host.files), n, |old(gw.queried)|, sport, prompt, referencePath, userPath);
      && reply == run.reply
      && gw.uploads == old(gw.uploads) + run.uploads
      && gw.queried == old(gw.queried) + run.queried
      && gw.requests == old(gw.requests) + run.requests
      && host.files == run.files
      && host.ticks == old(host.ticks) + run.sleeps
  {
    var uploaded := gw.Upload(referencePath);
    if uploaded.Failure? {
      return Raised(Foreign(uploaded.error));
    }
    reply := Save(gw, host, sport, prompt, userPath, uploaded.value);
  }

  /** The `try` block of the handler. */
  method Attempt(configured: bool, gw: Gateway, host: Host, sport: string, userId: nat, filename: string)
    returns (reply: Reply)
    modifies gw, host
    ensures var n, t := old(|gw.uploads|), old(|gw.queried|);
      var run := AttemptRun(configured, gw.script, host.disk, old(host.files), n, t, sport, userId, filename);
      && reply == run.reply
      && gw.uploads == old(gw.uploads) + run.uploads
      && gw.queried == old(gw.queried) + run.queried
      && gw.requests == old(gw.requests) + run.requests
      && host.files == run.files
      && host.ticks == old(host.ticks) + run.sleeps
  {
    if !configured {
      return Raised(HttpException(500, KeyMissing));
    }
    if sport !in Catalog.Keys(Catalog.SportPrompts) {
      return Raised(HttpException(400, UnsupportedSport));
    }
    var referencePath := Catalog.ReferenceVideo(sport);
    var present := host.Exists(referencePath);
    if !present {
      return Raised(HttpException(500, "Reference video for " + sport + " not found"));
    }
    reply := Transfer(gw, host, sport, Catalog.PromptOf(sport), referencePath, TempPath(userId, filename));
  }

  /** `analyze_video`: the `try` block, with its `except` clauses applied to whatever it raised. */
  method AnalyzeVideo(configured: bool, gw: Gateway, host: Host, sport: string, userId: nat, filename: string)
    returns (reply: Reply)
    modifies gw, host
    ensures var n, t := old(|gw.uploads|), old(|gw.queried|);
      var run := AnalyzeRun(configured, gw.script, host.disk, old(host.files), n, t, sport, userId, filename);
      && reply == run.reply
      && gw.uploads == old(gw.uploads) + run.uploads
      && gw.queried == old(gw.queried) + run.queried
      && gw.requests == old(gw.requests) + run.requests
      && host.files == run.files
      && host.ticks == old(host.ticks) + run.sleeps
  {
    reply := Attempt(configured, gw, host, sport, userId, filename);
    reply := Shield(reply);
  }
}
