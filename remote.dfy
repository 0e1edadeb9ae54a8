/** The collaborators of the analysis handlers: the remote file-processing and
    inference service (its `files.upload`, `files.get` and
    `models.generate_content` calls), and the local host (the temporary-upload
    directory and the clock). Both are driven by scripts fixed in advance, so a
    run of a handler is a deterministic function of its scripts. */
module Remote {
  import opened Wrappers

  /** Processing state of a remote file. `Pending` stands for every state other
      than ACTIVE and FAILED. */
  datatype FileState = Active | Failed | Pending

  /** The `error` attribute of a polled file: missing altogether, present but
      `None`, or present with the given rendering. */
  datatype ErrorField = Missing | NoneValue | Value(text: string)

  /** One answer of `files.get`. */
  datatype Poll = Poll(state: FileState, error: ErrorField)

  /** What the service assigns to an accepted upload. */
  datatype Meta = Meta(uri: string, mimeType: string)

  /** A remote file handle: `name` is the index of the upload that created it. */
  datatype RemoteFile = RemoteFile(name: nat, uri: string, mimeType: string)

  /** One part of an inference request: text, a file reference built from a uri
      and a MIME type (`Part.from_uri`), or a file handle passed as it is. */
  datatype Part = Text(text: string) | Uri(uri: string, mimeType: string) | File(file: RemoteFile)

  datatype Request = Request(model: string, contents: seq<Part>)

  /** The scripted service. The n-th call of `files.upload` (counting from 0)
      answers `uploadAnswers[n]`, and every call past the end of that list
      answers `laterUpload`; the t-th call of `files.get` answers `states[t]`,
      and every later one `laterState`, so a script makes a file's processing
      progress with time. Each answer is either what the call returns or the
      text of the exception it raises. Since the handlers fix which file each
      call asks about, scripting answers by call position covers every
      sequence of results and exceptions a service could give these calls.
      `generate` answers an inference request with the response text or the
      text of the exception it raises. */
  datatype Script = Script(
    uploadAnswers: seq<Result<Meta, string>>, laterUpload: Result<Meta, string>,
    states: seq<Result<Poll, string>>, laterState: Result<Poll, string>,
    generate: Request -> Result<string, string>)
  {
    function UploadAnswer(n: nat): Result<Meta, string>
    {
      if n < |uploadAnswers| then uploadAnswers[n] else laterUpload
    }

    function StateAnswer(t: nat): Result<Poll, string>
    {
      if t < |states| then states[t] else laterState
    }

    function GenerateAnswer(request: Request): Result<string, string>
    {
      generate(request)
    }
  }

  /** How saving a file can fail: `open(path, "wb")` itself raises, and no
      file is created; or the file is opened, which creates or truncates it,
      and the write then raises, leaving the file behind. */
  datatype WriteFault = OpenFailed(message: string) | WriteFailed(message: string)

  /** The scripted local filesystem: saving a path in `writeErrors` fails as
      stored under it, and removing a path in `removeErrors` raises the error
      stored under it; every other save or removal succeeds. File contents
      are not modelled, only which files exist. */
  datatype Disk = Disk(writeErrors: map<string, WriteFault>, removeErrors: map<string, string>)
  {
    function WriteAnswer(path: string): Option<WriteFault>
    {
      if path in writeErrors then Some(writeErrors[path]) else None
    }

    /** Saving `path` gets as far as opening it, so the file exists afterwards. */
    predicate Creates(path: string)
    {
      WriteAnswer(path).None? || WriteAnswer(path).value.WriteFailed?
    }

    function RemoveAnswer(path: string): Option<string>
    {
      if path in removeErrors then Some(removeErrors[path]) else None
    }
  }

  /** `n` polling rounds: each reads the user file, then the reference file. */
  function Rounds(user: nat, reference: nat, n: nat): (log: seq<nat>)
    ensures |log| == 2 * n
    decreases n
  {
    if n == 0 then [] else Rounds(user, reference, n - 1) + [user, reference]
  }

  /** Round i of the log reads the user file at position 2i and the reference file right after it. */
  lemma {:induction false} RoundsShape(user: nat, reference: nat, n: nat)
    ensures |Rounds(user, reference, n)| == 2 * n
    ensures forall i :: 0 <= i < n ==> Rounds(user, reference, n)[2 * i] == user && Rounds(user, reference, n)[2 * i + 1] == reference
    decreases n
  {
    if n > 0 {
      RoundsShape(user, reference, n - 1);
    }
  }

  /** One more round appends one read of each file to the log. */
  lemma ExtendRounds(log: seq<nat>, user: nat, reference: nat, n: nat)
    ensures log + Rounds(user, reference, n) + [user, reference] == log + Rounds(user, reference, n + 1)
  {
  }

  /** The client of the remote service, with the log of every call made to it. */
  class Gateway {
    const script: Script
    /** Paths passed to `files.upload`, in call order; a file's name is its index here. */
    var uploads: seq<string>
    /** Names passed to `files.get`, in call order. */
    var queried: seq<nat>
    /** Requests passed to `models.generate_content`, in call order. */
    var requests: seq<Request>

    constructor (script: Script)
      ensures this.script == script && uploads == [] && queried == [] && requests == []
    {
      this.script := script;
      uploads, queried, requests := [], [], [];
    }

    /** `files.upload(path)` */
    method Upload(path: string) returns (r: Result<RemoteFile, string>)
      modifies this`uploads
      ensures uploads == old(uploads) + [path]
      ensures r == match script.UploadAnswer(|old(uploads)|)
                   case Success(m) => Success(RemoteFile(|old(uploads)|, m.uri, m.mimeType))
                   case Failure(e) => Failure(e)
    {
      var n := |uploads|;
      uploads := uploads + [path];
      match script.UploadAnswer(n)
      case Success(m) => r := Success(RemoteFile(n, m.uri, m.mimeType));
      case Failure(e) => r := Failure(e);
    }

    /** `files.get(name)`: the scripted answer for this position in the call
        log, a file state or the exception the call raises. */
    method Get(name: nat) returns (r: Result<Poll, string>)
      requires name < |uploads|
      modifies this`queried
      ensures queried == old(queried) + [name]
      ensures r == script.StateAnswer(|old(queried)|)
    {
      r := script.StateAnswer(|queried|);
      queried := queried + [name];
    }

    /** `models.generate_content(model, contents)` */
    method Generate(request: Request) returns (r: Result<string, string>)
      modifies this`requests
      ensures requests == old(requests) + [request]
      ensures r == script.GenerateAnswer(request)
    {
      requests := requests + [request];
      r := script.GenerateAnswer(request);
    }
  }

  /** The local host: the files that exist, and the number of one-second sleeps so far. */
  class Host {
    const disk: Disk
    var files: set<string>
    var ticks: nat

    constructor (disk: Disk, files: set<string>)
      ensures this.disk == disk && this.files == files && ticks == 0
    {
      this.disk := disk;
      this.files := files;
      ticks := 0;
    }

    /** `Path.exists()` */
    method Exists(path: string) returns (b: bool)
      ensures b <==> path in files
    {
      b := path in files;
    }

    /** `open(path, "wb")` and `f.write(...)`: opening creates or truncates
        the file, so it exists afterwards unless the open itself fails. */
    method Write(path: string) returns (err: Option<WriteFault>)
      modifies this`files
      ensures err == disk.WriteAnswer(path)
      ensures files == if err.None? || err.value.WriteFailed? then old(files) + {path} else old(files)
    {
      err := disk.WriteAnswer(path);
      if err.None? || err.value.WriteFailed? {
        files := files + {path};
      }
    }

    /** `os.remove(path)`: fails on a missing file or when the disk refuses. */
    method Remove(path: string) returns (err: Option<string>)
      modifies this`files
      ensures err == if path !in old(files) then Some(NoSuchFile(path)) else disk.RemoveAnswer(path)
      ensures files == if err.None? then old(files) - {path} else old(files)
    {
      if path !in files {
        err := Some(NoSuchFile(path));
      } else {
        err := disk.RemoveAnswer(path);
        if err.None? {
          files := files - {path};
        }
      }
    }

    /** `time.sleep(1)` */
    method Sleep()
      modifies this`ticks
      ensures ticks == old(ticks) + 1
    {
      ticks := ticks + 1;
    }
  }

  /** The text of the `FileNotFoundError` that removing a missing file raises. */
  function NoSuchFile(path: string): string
  {
    "[Errno 2] No such file or directory: '" + path + "'"
  }
}
