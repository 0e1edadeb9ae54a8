/** The state the home page keeps while a user picks a sport, supplies a video
    (uploaded or recorded in the browser) and asks for an analysis, with the
    decisions it takes on the way: which files count as videos, which
    recording format the browser is asked for, and the two slices of the
    score chart. */
module Home {
  import opened Wrappers
  import opened Text
  import Score

  /** A browser `File`: its name and its MIME type. */
  datatype FileInfo = FileInfo(name: string, mimeType: string)

  const VideoExtensions := ["mp4", "mov", "avi", "mkv", "webm"]

  /** `\.(mp4|mov|avi|mkv|webm)$` with the `i` flag: the name ends in a dot
      and one of the extensions, in any case. */
  predicate HasVideoExtension(name: string)
  {
    exists k :: 0 <= k < |VideoExtensions| && EndsWith(LowerString(name), "." + VideoExtensions[k])
  }

  /** The check in `handleVideoChange`: a video MIME type or a video file
      name. */
  predicate IsVideo(file: FileInfo)
  {
    StartsWith(file.mimeType, "video/") || HasVideoExtension(file.name)
  }

  /** What follows the last dot of a name, if it has a dot. */
  function ExtensionOf(name: string): (r: Option<string>)
    ensures r.None? <==> forall i :: 0 <= i < |name| ==> name[i] != '.'
    ensures r.Some? ==> && |r.value| < |name| && name[|name| - |r.value| - 1] == '.'
                        && name[|name| - |r.value|..] == r.value
                        && forall i :: 0 <= i < |r.value| ==> r.value[i] != '.'
    decreases |name|
  {
    if |name| == 0 then None
    else if name[|name| - 1] == '.' then Some("")
    else
      var front := name[..|name| - 1];
      match ExtensionOf(front)
      case None =>
        assert forall i :: 0 <= i < |front| ==> name[i] == front[i];
        None
      case Some(e) =>
        assert name[|name| - |e| - 1..] == front[|front| - |e|..] + [name[|name| - 1]];
        Some(e + [name[|name| - 1]])
  }

  lemma LowerSlice(s: string, k: nat)
    requires k <= |s|
    ensures LowerString(s)[k..] == LowerString(s[k..])
  {
  }

  predicate DotFree(x: string)
  {
    forall i :: 0 <= i < |x| ==> x[i] != '.'
  }

  lemma ExtensionsAreDotFree()
    ensures forall k :: 0 <= k < |VideoExtensions| ==> DotFree(VideoExtensions[k])
  {
    assert DotFree("mp4") && DotFree("mov") && DotFree("avi") && DotFree("mkv") && DotFree("webm");
  }

  /** Lower-casing maps a dot, and only a dot, to a dot. */
  lemma LowerDot(c: char)
    ensures Lower(c) == '.' <==> c == '.'
  {
  }

  /** A dot with no dot after it is the last dot: the extension is what
      follows it. */
  lemma ExtensionAfterLastDot(name: string, d: nat)
    requires d < |name| && name[d] == '.' && DotFree(name[d + 1..])
    ensures ExtensionOf(name) == Some(name[d + 1..])
  {
    assert ExtensionOf(name).Some?;
  }

  /** A name that ends in a dot and the dot-free `x`, ignoring case, has a
      dot there, no dot after it, and `x` after it. */
  lemma EndingSplits(name: string, x: string)
    requires DotFree(x) && EndsWith(LowerString(name), "." + x)
    ensures name[|name| - |x| - 1] == '.' && DotFree(name[|name| - |x|..])
    ensures LowerString(name[|name| - |x|..]) == x
  {
    var low := LowerString(name);
    var d := |name| - |x| - 1;
    assert low[d] == ("." + x)[0];
    LowerDot(name[d]);
    var tail := name[d + 1..];
    forall i | 0 <= i < |x|
      ensures tail[i] != '.'
    {
      assert low[d + 1 + i] == ("." + x)[i + 1] == x[i];
      LowerDot(name[d + 1 + i]);
    }
    LowerSlice(name, d + 1);
    assert low[d + 1..] == ("." + x)[1..];
  }

  /** What follows a dot, lower-cased, ends the lower-cased name after a
      dot. */
  lemma DotEnding(name: string, d: nat)
    requires d < |name| && name[d] == '.'
    ensures EndsWith(LowerString(name), "." + LowerString(name[d + 1..]))
  {
    LowerSlice(name, d);
    assert name[d..] == [name[d]] + name[d + 1..];
    assert LowerString(name[d..]) == "." + LowerString(name[d + 1..]);
  }

  /** A name ends in a dot and the dot-free word `x`, ignoring case, exactly
      when what follows its last dot reads as `x`. */
  lemma EndsInExtension(name: string, x: string)
    requires DotFree(x)
    ensures EndsWith(LowerString(name), "." + x) <==>
      ExtensionOf(name).Some? && LowerString(ExtensionOf(name).value) == x
  {
    if EndsWith(LowerString(name), "." + x) {
      EndingSplits(name, x);
      ExtensionAfterLastDot(name, |name| - |x| - 1);
    }
    if ExtensionOf(name).Some? {
      var e := ExtensionOf(name).value;
      DotEnding(name, |name| - |e| - 1);
    }
  }

  /** A name passes the extension check exactly when what follows its last
      dot is, ignoring case, one of the five video extensions. */
  lemma ExtensionCheckReadsLastDot(name: string)
    ensures HasVideoExtension(name) <==>
      ExtensionOf(name).Some? && LowerString(ExtensionOf(name).value) in VideoExtensions
  {
    ExtensionsAreDotFree();
    forall k | 0 <= k < |VideoExtensions|
      ensures EndsWith(LowerString(name), "." + VideoExtensions[k]) <==>
        ExtensionOf(name).Some? && LowerString(ExtensionOf(name).value) == VideoExtensions[k]
    {
      EndsInExtension(name, VideoExtensions[k]);
    }
  }

  /** The recording formats `startRecording` knows of. */
  datatype Format = Mp4 | WebmH264 | WebmVp9 | Webm

  function MimeType(f: Format): string
  {
    match f
    case Mp4 => "video/mp4"
    case WebmH264 => "video/webm;codecs=h264"
    case WebmVp9 => "video/webm;codecs=vp9"
    case Webm => "video/webm"
  }

  /** The formats asked about with `MediaRecorder.isTypeSupported`, in
      order; plain webm is the fallback, never asked about. */
  const RecorderCandidates := [Mp4, WebmH264, WebmVp9]

  /** The first candidate the browser supports, else plain webm. */
  function PreferredFormat(candidates: seq<Format>, supported: set<Format>): (r: Format)
    requires Webm !in candidates
    ensures r in candidates ==> r in supported
    ensures r !in candidates ==> r == Webm && forall k :: 0 <= k < |candidates| ==> candidates[k] !in supported
    ensures r in candidates ==> exists k :: 0 <= k < |candidates| && candidates[k] == r
                                           && forall i :: 0 <= i < k ==> candidates[i] !in supported
    decreases |candidates|
  {
    if |candidates| == 0 then Webm
    else if candidates[0] in supported then candidates[0]
    else
      var r := PreferredFormat(candidates[1..], supported);
      assert forall k :: 0 < k < |candidates| ==> candidates[k] == candidates[1..][k - 1];
      r
  }

  /** `startRecording`'s choice of `mimeType` and `extension`, where
      `supported` holds the formats the browser's recorder accepts. */
  method ChooseRecorderFormat(supported: set<Format>) returns (mimeType: string, extension: string)
    ensures mimeType == MimeType(PreferredFormat(RecorderCandidates, supported))
    ensures extension == (if PreferredFormat(RecorderCandidates, supported) == Mp4 then "mp4" else "webm")
  {
    mimeType := "video/webm";
    extension := "webm";
    if Mp4 in supported {
      mimeType := "video/mp4";
      extension := "mp4";
    } else if WebmH264 in supported {
      mimeType := "video/webm;codecs=h264";
    } else if WebmVp9 in supported {
      mimeType := "video/webm;codecs=vp9";
    }
  }

  /** Every format the recorder can be asked for has a video MIME type, the
      types tell the formats apart, and mp4 is chosen exactly when the
      browser supports it. */
  lemma RecorderFormatsAreVideo(supported: set<Format>)
    ensures forall f: Format :: StartsWith(MimeType(f), "video/")
    ensures forall f: Format, g: Format :: MimeType(f) == MimeType(g) ==> f == g
    ensures PreferredFormat(RecorderCandidates, supported) == Mp4 <==> Mp4 in supported
  {
    assert MimeType(Mp4)[6] == 'm' && MimeType(WebmH264)[6] == 'w';
    assert |MimeType(Webm)| == 10 && |MimeType(WebmH264)| == 22 && |MimeType(WebmVp9)| == 21;
    assert MimeType(WebmH264)[18] == 'h' && MimeType(WebmVp9)[18] == 'v';
  }

  /** The file the recorder's `onstop` makes: `recording_<time>.<extension>`,
      of the chosen type. */
  function RecordedFile(now: nat, mimeType: string, extension: string): FileInfo
  {
    FileInfo("recording_" + NatToString(now) + "." + extension, mimeType)
  }

  lemma LowerKeeps(s: string)
    requires forall i :: 0 <= i < |s| ==> !('A' <= s[i] <= 'Z')
    ensures LowerString(s) == s
  {
  }

  /** A recording passes the upload check twice over: by its type and by
      its name. */
  lemma RecordingIsVideo(supported: set<Format>, now: nat)
    ensures var f := PreferredFormat(RecorderCandidates, supported);
            var file := RecordedFile(now, MimeType(f), if f == Mp4 then "mp4" else "webm");
            StartsWith(file.mimeType, "video/") && HasVideoExtension(file.name) && IsVideo(file)
  {
    var f := PreferredFormat(RecorderCandidates, supported);
    var extension := if f == Mp4 then "mp4" else "webm";
    RecorderFormatsAreVideo(supported);
    var name := "recording_" + NatToString(now) + "." + extension;
    var k := if f == Mp4 then 0 else 4;
    assert VideoExtensions[k] == extension;
    var j := |name| - |extension| - 1;
    LowerSlice(name, j);
    assert name[j..] == "." + extension;
    LowerKeeps("." + extension);
    assert EndsWith(LowerString(name), "." + VideoExtensions[k]);
  }

  /** A slice of the similarity chart. */
  datatype Slice = Slice(name: string, value: int)

  /** The chart's data: the score as "Match" and the rest of 100 as "Gap". */
  function PieData(score: int): seq<Slice>
  {
    [Slice("Match", score), Slice("Gap", 100 - score)]
  }

  /** For every score the page can read, both slices are non-negative and
      they make up the whole chart. */
  lemma PieSplitsHundred(text: string)
    requires Score.ExtractSimilarityScore(text).Some?
    ensures var slices := PieData(Score.ExtractSimilarityScore(text).value);
            && slices[0].value >= 0 && slices[1].value >= 0
            && slices[0].value + slices[1].value == 100
            && slices[0].value == Score.ExtractSimilarityScore(text).value
  {
  }

  datatype Mode = Upload | Record

  const InvalidVideo := "Please upload a valid video file (MP4, MOV, AVI, MKV, or WEBM)"
  const MissingInput := "Please select a sport and upload a video"
  const AnalysisFailed := "Analysis failed"

  /** How the analysis request ended: the analysis text, or an error reply
      with the `detail` of its body when it has one. */
  datatype Answer = Analysed(text: string) | Refused(detail: Option<string>)

  /** The page's React state. */
  class HomeState {
    var selectedSport: Option<string>
    var videoFile: Option<FileInfo>
    var videoPreview: Option<string>
    var loading: bool
    var analysis: Option<string>
    var similarityScore: Option<nat>
    var error: Option<string>
    var uploadMode: Mode

    /** A preview belongs to a held file, every held file passed the video
        check, the score shown is the one read from the analysis shown, and
        a score, shown or not, lies in 0..100. A failed second analysis
        clears the analysis but leaves the earlier score in place, unshown. */
    ghost predicate Valid()
      reads this
    {
      && (videoPreview.Some? ==> videoFile.Some?)
      && (videoFile.Some? ==> IsVideo(videoFile.value))
      && (analysis.Some? ==> similarityScore == Score.ExtractSimilarityScore(analysis.value))
      && (similarityScore.Some? ==> similarityScore.value <= 100)
    }

    constructor ()
      ensures Valid()
      ensures selectedSport.None? && videoFile.None? && videoPreview.None? && !loading
      ensures analysis.None? && similarityScore.None? && error.None? && uploadMode == Upload
    {
      selectedSport, videoFile, videoPreview, loading := None, None, None, false;
      analysis, similarityScore, error, uploadMode := None, None, None, Upload;
    }

    /** A click on a sport card. */
    method SelectSport(id: string)
      requires Valid()
      modifies this`selectedSport
      ensures Valid() && selectedSport == Some(id)
    {
      selectedSport := Some(id);
    }

    /** `handleVideoChange`, for the first file of the input if there is
        one; `previewUrl` is the object URL the browser makes for it. */
    method HandleVideoChange(file: Option<FileInfo>, previewUrl: string)
      requires Valid()
      modifies this`error, this`analysis, this`similarityScore, this`videoFile, this`videoPreview
      ensures Valid()
      ensures file.None? ==> unchanged(this)
      ensures file.Some? ==> analysis.None? && similarityScore.None?
      ensures file.Some? && !IsVideo(file.value) ==>
        error == Some(InvalidVideo) && videoFile.None? && videoPreview.None?
      ensures file.Some? && IsVideo(file.value) ==>
        error.None? && videoFile == file && videoPreview == Some(previewUrl)
    {
      if file.Some? {
        error := None;
        analysis := None;
        similarityScore := None;
        if !IsVideo(file.value) {
          error := Some(InvalidVideo);
          videoFile := None;
          videoPreview := None;
          return;
        }
        videoFile := file;
        videoPreview := Some(previewUrl);
      }
    }

    /** The recorder's `onstop`: the recording becomes the held file. */
    method FinishRecording(supported: set<Format>, now: nat, previewUrl: string)
      requires Valid()
      modifies this`videoFile, this`videoPreview
      ensures Valid()
      ensures var f := PreferredFormat(RecorderCandidates, supported);
              videoFile == Some(RecordedFile(now, MimeType(f), if f == Mp4 then "mp4" else "webm"))
      ensures videoPreview == Some(previewUrl)
    {
      var mimeType, extension := ChooseRecorderFormat(supported);
      RecordingIsVideo(supported, now);
      videoFile := Some(RecordedFile(now, mimeType, extension));
      videoPreview := Some(previewUrl);
    }

    /** Whether `handleAnalyze` gets past its guard: `!selectedSport` also
        holds for the empty string. */
    predicate ReadyToAnalyze()
      reads this
    {
      selectedSport.Some? && selectedSport.value != "" && videoFile.Some?
    }

    /** `handleAnalyze`. `request` is the call made to the analysis endpoint,
        if any, and `answer` is how that call ends. */
    method HandleAnalyze(answer: Answer) returns (request: Option<(string, FileInfo)>)
      requires Valid()
      modifies this`loading, this`error, this`analysis, this`similarityScore
      ensures Valid()
      ensures !old(ReadyToAnalyze()) ==>
        && request.None? && error == Some(MissingInput)
        && loading == old(loading) && analysis == old(analysis) && similarityScore == old(similarityScore)
      ensures old(ReadyToAnalyze()) ==> request == Some((old(selectedSport).value, old(videoFile).value)) && !loading
      ensures old(ReadyToAnalyze()) && answer.Analysed? ==>
        && analysis == Some(answer.text) && similarityScore == Score.ExtractSimilarityScore(answer.text)
        && error.None?
      ensures old(ReadyToAnalyze()) && answer.Refused? ==>
        && analysis.None? && similarityScore == old(similarityScore)
        && error == Some(if answer.detail.Some? && answer.detail.value != "" then answer.detail.value else AnalysisFailed)
    {
      if !ReadyToAnalyze() {
        error := Some(MissingInput);
        return None;
      }
      loading := true;
      error := None;
      analysis := None;
      request := Some((selectedSport.value, videoFile.value));
      match answer {
        case Analysed(text) =>
          analysis := Some(text);
          similarityScore := Score.ExtractSimilarityScore(text);
        case Refused(detail) =>
          error := Some(if detail.Some? && detail.value != "" then detail.value else AnalysisFailed);
      }
      loading := false;
    }

    /** `handleReset`. */
    method HandleReset()
      requires Valid()
      modifies this`videoFile, this`videoPreview, this`analysis, this`similarityScore, this`error
      ensures Valid()
      ensures videoFile.None? && videoPreview.None? && analysis.None? && similarityScore.None? && error.None?
    {
      videoFile := None;
      videoPreview := None;
      analysis := None;
      similarityScore := None;
      error := None;
    }

    /** `handleModeChange`. */
    method HandleModeChange(mode: Mode)
      requires Valid()
      modifies this`uploadMode, this`videoFile, this`videoPreview, this`analysis, this`similarityScore, this`error
      ensures Valid() && uploadMode == mode
      ensures videoFile.None? && videoPreview.None? && analysis.None? && similarityScore.None? && error.None?
    {
      uploadMode := mode;
      videoFile := None;
      videoPreview := None;
      analysis := None;
      similarityScore := None;
      error := None;
    }
  }
}
