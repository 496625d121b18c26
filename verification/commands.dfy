/**
 * The argument lists handed to the two external tools, built from the
 * configuration, and for each a parser that reads back a list of exactly
 * that shape. Each builder's partner is its parser.
 */
module Commands {

  import opened Wrappers

  /** Configuration sentinel: derive the value from the source video */
  const Auto := "auto"
  /** ffmpeg's scale-filter marker for "keep the aspect ratio on this axis" */
  const KeepAspect := "-1"

  /** One axis of the scale filter: "auto" becomes the keep-aspect marker */
  function ScaleAxis(v: string): (r: string)
    ensures r == KeepAspect <==> v == Auto || v == KeepAspect
    ensures v != Auto ==> r == v
  {
    if v == Auto then KeepAspect else v
  }

  const ScalePrefix := "scale="

  /** `fmt.Sprintf("scale=%s:%s", width, height)` after the "auto" mapping */
  function ScaleExpr(width: string, height: string): (r: string)
    ensures |r| == |ScalePrefix| + |ScaleAxis(width)| + 1 + |ScaleAxis(height)|
    ensures r[..|ScalePrefix|] == ScalePrefix
  {
    ScalePrefix + ScaleAxis(width) + ":" + ScaleAxis(height)
  }

  /** Splits at the first ':' */
  function SplitColon(s: string): Option<(string, string)>
  {
    if s == [] then None
    else if s[0] == ':' then Some(([], s[1..]))
    else match SplitColon(s[1..])
      case None => None
      case Some(parts) => Some(([s[0]] + parts.0, parts.1))
  }

  lemma {:induction false} SplitColonAt(a: string, b: string)
    requires ':' !in a
    ensures SplitColon(a + ":" + b) == Some((a, b))
  {
    if a != [] {
      assert (a + ":" + b)[1..] == a[1..] + ":" + b;
      SplitColonAt(a[1..], b);
      assert [a[0]] + a[1..] == a;
    }
  }

  /** Reads back a filter of the shape `scale=W:H`, taking the width up to the first ':' */
  function ParseScale(s: string): Option<(string, string)>
  {
    if |ScalePrefix| <= |s| && s[..|ScalePrefix|] == ScalePrefix then SplitColon(s[|ScalePrefix|..]) else None
  }

  /**
   * The filter reads back the two axes the configuration asked for, as long
   * as the width itself holds no ':' (the filter's own option separator).
   */
  lemma ScaleExprParses(width: string, height: string)
    requires ':' !in ScaleAxis(width)
    ensures ParseScale(ScaleExpr(width, height)) == Some((ScaleAxis(width), ScaleAxis(height)))
  {
    var s := ScaleExpr(width, height);
    assert s[|ScalePrefix|..] == ScaleAxis(width) + ":" + ScaleAxis(height);
    SplitColonAt(ScaleAxis(width), ScaleAxis(height));
  }

  // ---------------------------------------------------------------------------
  // yt-dlp

  const DownloadFlags: seq<string> := ["--quiet", "--no-warnings", "--cookies-from-browser"]
  const FormatFlags: seq<string> := ["-f", "mp4", "-o"]

  /** What a yt-dlp command line asks for */
  datatype DownloadRequest = DownloadRequest(browser: string, output: string, url: string)

  /** `yt-dlp --quiet --no-warnings --cookies-from-browser B -f mp4 -o V URL` (arguments only) */
  function DownloadArgs(browser: string, videoName: string, url: string): (r: seq<string>)
    ensures |r| == 9 && r[8] == url
    ensures ParseDownloadArgs(r) == Some(DownloadRequest(browser, videoName, url))
  {
    DownloadFlags + [browser] + FormatFlags + [videoName, url]
  }

  /** Reads back the fixed download command line; any other shape is rejected */
  function ParseDownloadArgs(args: seq<string>): Option<DownloadRequest>
  {
    if |args| == 9 && args[..3] == DownloadFlags && args[4..7] == FormatFlags
    then Some(DownloadRequest(args[3], args[7], args[8]))
    else None
  }

  /** Every command line the parser accepts is one the builder produces */
  lemma DownloadArgsComplete(args: seq<string>, q: DownloadRequest)
    requires ParseDownloadArgs(args) == Some(q)
    ensures DownloadArgs(q.browser, q.output, q.url) == args
  {
  }

  // ---------------------------------------------------------------------------
  // ffmpeg

  const DurationFlag := "-t"
  const RateFlag := "-r"

  /** A value the configuration may leave to the source: None stands for "auto" */
  function Setting(v: string): (r: Option<string>)
    ensures r == None <==> v == Auto
    ensures r != None ==> r.value == v
  {
    if v == Auto then None else Some(v)
  }

  /** The optional `-t`/`-r` pairs, in that order */
  function OptionalFlags(duration: Option<string>, fps: Option<string>): seq<string>
  {
    (match duration case Some(d) => [DurationFlag, d] case None => [])
    + (match fps case Some(f) => [RateFlag, f] case None => [])
  }

  /** What an ffmpeg command line of this program's shape asks for */
  datatype TranscodeRequest = TranscodeRequest(
    input: string, scale: string, duration: Option<string>, fps: Option<string>, output: string)

  /** `-v warning -i V -vf S [-t D] [-r F] G` */
  function TranscodeArgs(videoName: string, scale: string, duration: string, fps: string, gifName: string): (r: seq<string>)
    ensures |r| == 7 + (if duration == Auto then 0 else 2) + (if fps == Auto then 0 else 2)
    ensures r[..6] == ["-v", "warning", "-i", videoName, "-vf", scale]
    ensures r[|r| - 1] == gifName
    ensures duration != Auto ==> r[6] == DurationFlag && r[7] == duration
    ensures fps != Auto ==> r[|r| - 3] == RateFlag && r[|r| - 2] == fps
    ensures ParseTranscodeArgs(r) == Some(TranscodeRequest(videoName, scale, Setting(duration), Setting(fps), gifName))
  {
    ["-v", "warning", "-i", videoName, "-vf", scale] + OptionalFlags(Setting(duration), Setting(fps)) + [gifName]
  }

  /**
   * Reads an ffmpeg command line of this shape back: the six fixed leading
   * arguments, then zero, one or two flag pairs (a lone pair is `-t` or `-r`;
   * two pairs are `-t` then `-r`), then the output path last.
   */
  function ParseTranscodeArgs(args: seq<string>): Option<TranscodeRequest>
  {
    if |args| < 7 || args[0] != "-v" || args[1] != "warning" || args[2] != "-i" || args[4] != "-vf" then None
    else
      var middle := args[6..|args| - 1];
      var req := (d: Option<string>, f: Option<string>) => Some(TranscodeRequest(args[3], args[5], d, f, args[|args| - 1]));
      if |middle| == 0 then req(None, None)
      else if |middle| == 2 && middle[0] == DurationFlag then req(Some(middle[1]), None)
      else if |middle| == 2 && middle[0] == RateFlag then req(None, Some(middle[1]))
      else if |middle| == 4 && middle[0] == DurationFlag && middle[2] == RateFlag then req(Some(middle[1]), Some(middle[3]))
      else None
  }

  /**
   * Every command line the parser accepts whose settings are not the literal
   * "auto" is exactly the one the builder makes from those settings.
   */
  lemma TranscodeArgsComplete(args: seq<string>, q: TranscodeRequest)
    requires ParseTranscodeArgs(args) == Some(q)
    requires q.duration != Some(Auto) && q.fps != Some(Auto)
    ensures TranscodeArgs(q.input, q.scale, q.duration.GetOr(Auto), q.fps.GetOr(Auto), q.output) == args
  {
  }
}
