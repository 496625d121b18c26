/**
 * The batch driver: for each URL in order, fetch the video, transcode it to
 * an animation, delete the intermediate and report; a failing item is
 * skipped and the batch carries on. The two external tools, the deletion of
 * the intermediate and the creation of the results directory are oracles:
 * the environment says, per item index, how each of them turns out.
 */
module Pipeline {

  import opened Wrappers
  import opened Paths
  import opened FileSystem
  import opened Naming
  import opened Commands

  /** The already-loaded configuration record */
  datatype Config = Config(
    urls: seq<string>,
    duration: string,
    fps: string,
    width: string,
    height: string,
    browser: string)

  /** How the transcoder's run turns out: its exit status and whether the animation was written */
  datatype TranscodeRun = TranscodeFailed | TranscodeSucceeded(wroteOutput: bool)

  /** The oracle for one item */
  datatype ItemEnv = ItemEnv(fetchOk: bool, transcode: TranscodeRun, removeOk: bool)

  /** The oracle for a batch: the results-directory creation, then each item by index */
  datatype Env = Env(mkdirOk: bool, item: nat -> ItemEnv)

  datatype Tool = Downloader | Transcoder

  /** One external process started by the driver */
  datatype Invocation = Invocation(tool: Tool, args: seq<string>)

  /** What the driver reports for one item */
  datatype ItemOutcome =
    | DownloadFailed
    | ConvertFailed
      /** the animation was saved; `cleanupWarning` when the intermediate could not be deleted */
    | Saved(path: string, cleanupWarning: bool)
      /** the transcoder succeeded but the animation's size could not be read */
    | SizeUnknown(path: string, cleanupWarning: bool)

  datatype ItemRun = ItemRun(trace: seq<Invocation>, outcome: ItemOutcome, fs: Fs)

  /** The outcome an item's own oracle entry calls for, independent of any filesystem */
  function ExpectedOutcome(e: ItemEnv, i: nat): (r: ItemOutcome)
    ensures r.Saved? <==> e.fetchOk && e.transcode == TranscodeSucceeded(true)
    ensures (r.Saved? || r.SizeUnknown?) ==> r.path == GifName(i) && r.cleanupWarning == !e.removeOk
  {
    if !e.fetchOk then DownloadFailed
    else match e.transcode
      case TranscodeFailed => ConvertFailed
      case TranscodeSucceeded(wrote) =>
        if wrote then Saved(GifName(i), !e.removeOk) else SizeUnknown(GifName(i), !e.removeOk)
  }

  /** The oracle deletes the intermediate: fetched, transcoded, and the removal went through */
  predicate DeletesVideo(e: ItemEnv)
  {
    e.fetchOk && e.transcode.TranscodeSucceeded? && e.removeOk
  }

  /** One iteration of the loop: fetch, transcode, delete the intermediate, report */
  function RunItem(cfg: Config, scale: string, i: nat, url: string, e: ItemEnv, fs: Fs): (r: ItemRun)
    ensures !Exists(fs, GifName(i)) ==> r.outcome == ExpectedOutcome(e, i)
    ensures |r.trace| == (if e.fetchOk then 2 else 1)
    ensures r.trace[0] == Invocation(Downloader, DownloadArgs(cfg.browser, VideoName(i), url))
    ensures e.fetchOk ==> r.trace[1] == Invocation(Transcoder, TranscodeArgs(VideoName(i), scale, cfg.duration, cfg.fps, GifName(i)))
    ensures VideoName(i) in r.fs <==> (e.fetchOk || VideoName(i) in fs) && !DeletesVideo(e)
    ensures !Exists(fs, GifName(i)) ==> (GifName(i) in r.fs <==> r.outcome.Saved?)
    ensures forall p :: p != VideoName(i) && p != GifName(i) ==> (p in r.fs <==> p in fs)
  {
    var video := VideoName(i);
    var gif := GifName(i);
    NamesDistinct(i, i);
    NothingBelowGif(i, i);
    var fetch := Invocation(Downloader, DownloadArgs(cfg.browser, video, url));
    if !e.fetchOk then ItemRun([fetch], DownloadFailed, fs)
    else
      var fetched := fs + {video};
      var convert := Invocation(Transcoder, TranscodeArgs(video, scale, cfg.duration, cfg.fps, gif));
      match e.transcode
      case TranscodeFailed => ItemRun([fetch, convert], ConvertFailed, fetched)
      case TranscodeSucceeded(wrote) =>
        var converted := if wrote then fetched + {gif} else fetched;
        var cleaned := if e.removeOk then converted - {video} else converted;
        var outcome := if Exists(cleaned, gif) then Saved(gif, !e.removeOk) else SizeUnknown(gif, !e.removeOk);
        ItemRun([fetch, convert], outcome, cleaned)
  }

  /**
   * A failed deletion of the intermediate only adds a warning: the processes
   * started, the kind of outcome and the reported path are those of the
   * run whose deletion succeeded, and the only path left behind is the
   * intermediate itself.
   */
  lemma DeletionFailureOnlyWarns(cfg: Config, scale: string, i: nat, url: string, e: ItemEnv, fs: Fs)
    requires e.fetchOk && e.transcode.TranscodeSucceeded?
    ensures var ok := RunItem(cfg, scale, i, url, e.(removeOk := true), fs);
      var failed := RunItem(cfg, scale, i, url, e.(removeOk := false), fs);
      && failed.trace == ok.trace
      && (failed.outcome.Saved? <==> ok.outcome.Saved?)
      && failed.outcome.path == ok.outcome.path
      && failed.outcome.cleanupWarning && !ok.outcome.cleanupWarning
      && failed.fs == ok.fs + {VideoName(i)}
  {
  }

  /** No animation path of index i or later exists yet */
  ghost predicate FreshFrom(fs: Fs, i: nat)
  {
    forall j: nat :: i <= j ==> !Exists(fs, GifName(j))
  }

  /** An item touches only its own names, so later animation names stay absent */
  lemma FreshAfterItem(cfg: Config, scale: string, i: nat, url: string, e: ItemEnv, fs: Fs)
    ensures FreshFrom(fs, i) ==> FreshFrom(RunItem(cfg, scale, i, url, e, fs).fs, i + 1)
  {
    if FreshFrom(fs, i) {
      forall j: nat | i + 1 <= j
        ensures !Exists(RunItem(cfg, scale, i, url, e, fs).fs, GifName(j))
      {
        NamesDistinct(i, j);
        NamesDistinct(j, i);
        NothingBelowGif(i, j);
      }
    }
  }

  datatype Run = Run(trace: seq<Invocation>, outcomes: seq<ItemOutcome>, fs: Fs)

  /** The loop over `cfg.urls[i..]`, threading the filesystem */
  function RunFrom(cfg: Config, scale: string, env: Env, i: nat, fs: Fs): (r: Run)
    requires i <= |cfg.urls|
    ensures |r.outcomes| == |cfg.urls| - i
    ensures FreshFrom(fs, i) ==>
      forall k :: 0 <= k < |r.outcomes| ==> r.outcomes[k] == ExpectedOutcome(env.item(i + k), i + k)
    decreases |cfg.urls| - i
  {
    if i == |cfg.urls| then Run([], [], fs)
    else
      var step := RunItem(cfg, scale, i, cfg.urls[i], env.item(i), fs);
      var rest := RunFrom(cfg, scale, env, i + 1, step.fs);
      var r := Run(step.trace + rest.trace, [step.outcome] + rest.outcomes, rest.fs);
      assert FreshFrom(fs, i) ==>
        forall k :: 0 <= k < |r.outcomes| ==> r.outcomes[k] == ExpectedOutcome(env.item(i + k), i + k)
      by {
        if FreshFrom(fs, i) {
          FreshAfterItem(cfg, scale, i, cfg.urls[i], env.item(i), fs);
          forall k | 0 < k < |r.outcomes|
            ensures r.outcomes[k] == ExpectedOutcome(env.item(i + k), i + k)
          {
            assert r.outcomes[k] == rest.outcomes[k - 1];
          }
        }
      }
      r
  }

  /** One step of the loop: item i, then the rest from the filesystem item i left */
  lemma RunFromStep(cfg: Config, scale: string, env: Env, i: nat, fs: Fs)
    requires i < |cfg.urls|
    ensures var step := RunItem(cfg, scale, i, cfg.urls[i], env.item(i), fs);
      var rest := RunFrom(cfg, scale, env, i + 1, step.fs);
      RunFrom(cfg, scale, env, i, fs) == Run(step.trace + rest.trace, [step.outcome] + rest.outcomes, rest.fs)
  {
  }

  /** p is the intermediate or the animation of some item with index in [i, n) */
  ghost predicate IsItemPath(p: string, i: nat, n: nat)
  {
    exists k: nat :: i <= k < n && (p == VideoName(k) || p == GifName(k))
  }

  /** Item i's own names are not names of any later item */
  lemma OwnNamesNotLater(i: nat, n: nat)
    ensures !IsItemPath(VideoName(i), i + 1, n)
    ensures !IsItemPath(GifName(i), i + 1, n)
  {
    if IsItemPath(VideoName(i), i + 1, n) {
      var k: nat :| i + 1 <= k < n && (VideoName(i) == VideoName(k) || VideoName(i) == GifName(k));
      NamesDistinct(i, k);
      assert false;
    }
    if IsItemPath(GifName(i), i + 1, n) {
      var k: nat :| i + 1 <= k < n && (GifName(i) == VideoName(k) || GifName(i) == GifName(k));
      NamesDistinct(k, i);
      NamesDistinct(i, k);
      assert false;
    }
  }

  /** The loop over items [i, n) leaves every path that is not one of their names as it was */
  lemma {:induction false} RunFromFrame(cfg: Config, scale: string, env: Env, i: nat, fs: Fs, p: string)
    requires i <= |cfg.urls|
    requires !IsItemPath(p, i, |cfg.urls|)
    ensures p in RunFrom(cfg, scale, env, i, fs).fs <==> p in fs
    decreases |cfg.urls| - i
  {
    if i < |cfg.urls| {
      assert p != VideoName(i) && p != GifName(i);
      var step := RunItem(cfg, scale, i, cfg.urls[i], env.item(i), fs);
      RunFromFrame(cfg, scale, env, i + 1, step.fs, p);
    }
  }

  /** Item k's animation is on disk after the loop exactly when item k was reported saved */
  lemma {:induction false} RunFromGif(cfg: Config, scale: string, env: Env, i: nat, fs: Fs, k: nat)
    requires i <= k < |cfg.urls|
    requires FreshFrom(fs, i)
    ensures var r := RunFrom(cfg, scale, env, i, fs);
      GifName(k) in r.fs <==> r.outcomes[k - i].Saved?
    decreases |cfg.urls| - i
  {
    var step := RunItem(cfg, scale, i, cfg.urls[i], env.item(i), fs);
    var rest := RunFrom(cfg, scale, env, i + 1, step.fs);
    var r := RunFrom(cfg, scale, env, i, fs);
    assert r.fs == rest.fs && r.outcomes == [step.outcome] + rest.outcomes;
    if k == i {
      OwnNamesNotLater(i, |cfg.urls|);
      RunFromFrame(cfg, scale, env, i + 1, step.fs, GifName(i));
    } else {
      FreshAfterItem(cfg, scale, i, cfg.urls[i], env.item(i), fs);
      RunFromGif(cfg, scale, env, i + 1, step.fs, k);
      assert r.outcomes[k - i] == rest.outcomes[k - (i + 1)];
    }
  }

  /**
   * Item k's intermediate is on disk after the loop unless it was deleted
   * after a successful transcode; it is there when the item was fetched, or
   * when it was there before and the download failed.
   */
  lemma {:induction false} RunFromVideo(cfg: Config, scale: string, env: Env, i: nat, fs: Fs, k: nat)
    requires i <= k < |cfg.urls|
    ensures VideoName(k) in RunFrom(cfg, scale, env, i, fs).fs
      <==> (env.item(k).fetchOk || VideoName(k) in fs) && !DeletesVideo(env.item(k))
    decreases |cfg.urls| - i
  {
    var step := RunItem(cfg, scale, i, cfg.urls[i], env.item(i), fs);
    if k == i {
      OwnNamesNotLater(i, |cfg.urls|);
      RunFromFrame(cfg, scale, env, i + 1, step.fs, VideoName(i));
    } else {
      NamesDistinct(i, k);
      RunFromVideo(cfg, scale, env, i + 1, step.fs, k);
    }
  }

  /** The download requests in a trace, in order */
  function Downloads(trace: seq<Invocation>): (r: seq<DownloadRequest>)
    ensures |r| <= |trace|
  {
    if trace == [] then [] else DownloadOf(trace[0]) + Downloads(trace[1..])
  }

  function DownloadOf(inv: Invocation): (r: seq<DownloadRequest>)
    ensures |r| <= 1
  {
    match ParseDownloadArgs(inv.args)
    case Some(q) => if inv.tool == Downloader then [q] else []
    case None => []
  }

  /** The transcode requests in a trace, in order */
  function Transcodes(trace: seq<Invocation>): (r: seq<TranscodeRequest>)
    ensures |r| <= |trace|
  {
    if trace == [] then [] else TranscodeOf(trace[0]) + Transcodes(trace[1..])
  }

  function TranscodeOf(inv: Invocation): (r: seq<TranscodeRequest>)
    ensures |r| <= 1
  {
    match ParseTranscodeArgs(inv.args)
    case Some(q) => if inv.tool == Transcoder then [q] else []
    case None => []
  }

  lemma {:induction false} DownloadsAppend(a: seq<Invocation>, b: seq<Invocation>)
    ensures Downloads(a + b) == Downloads(a) + Downloads(b)
  {
    if a != [] {
      assert (a + b)[0] == a[0];
      assert (a + b)[1..] == a[1..] + b;
      DownloadsAppend(a[1..], b);
    } else {
      assert a + b == b;
    }
  }

  lemma {:induction false} TranscodesAppend(a: seq<Invocation>, b: seq<Invocation>)
    ensures Transcodes(a + b) == Transcodes(a) + Transcodes(b)
  {
    if a != [] {
      assert (a + b)[0] == a[0];
      assert (a + b)[1..] == a[1..] + b;
      TranscodesAppend(a[1..], b);
    } else {
      assert a + b == b;
    }
  }

  /** The transcodes the oracle calls for: one per fetched item, in input order */
  function ExpectedTranscodes(cfg: Config, scale: string, env: Env, i: nat): seq<TranscodeRequest>
    decreases |cfg.urls| - i
  {
    if |cfg.urls| <= i then []
    else
      (if env.item(i).fetchOk
       then [TranscodeRequest(VideoName(i), scale, Setting(cfg.duration), Setting(cfg.fps), GifName(i))]
       else [])
      + ExpectedTranscodes(cfg, scale, env, i + 1)
  }

  /** The processes item k's oracle entry calls for: its download, then its transcode if the download succeeded */
  function ItemTrace(cfg: Config, scale: string, env: Env, k: nat): seq<Invocation>
    requires k < |cfg.urls|
  {
    [Invocation(Downloader, DownloadArgs(cfg.browser, VideoName(k), cfg.urls[k]))]
    + if env.item(k).fetchOk
      then [Invocation(Transcoder, TranscodeArgs(VideoName(k), scale, cfg.duration, cfg.fps, GifName(k)))]
      else []
  }

  /** The item traces of items i, i+1, ..., one after another */
  function ItemTraces(cfg: Config, scale: string, env: Env, i: nat): seq<Invocation>
    decreases |cfg.urls| - i
  {
    if |cfg.urls| <= i then [] else ItemTrace(cfg, scale, env, i) + ItemTraces(cfg, scale, env, i + 1)
  }

  /**
   * The loop runs the items strictly one after another: all of item i's
   * processes, download then transcode, come before item i+1's download.
   */
  lemma {:induction false} RunFromTraceInOrder(cfg: Config, scale: string, env: Env, i: nat, fs: Fs)
    requires i <= |cfg.urls|
    ensures RunFrom(cfg, scale, env, i, fs).trace == ItemTraces(cfg, scale, env, i)
    decreases |cfg.urls| - i
  {
    if i < |cfg.urls| {
      var step := RunItem(cfg, scale, i, cfg.urls[i], env.item(i), fs);
      RunFromStep(cfg, scale, env, i, fs);
      RunFromTraceInOrder(cfg, scale, env, i + 1, step.fs);
      assert step.trace == ItemTrace(cfg, scale, env, i);
    }
  }

  /** One item starts one download, then one transcode when the download succeeded */
  lemma ItemRequests(cfg: Config, scale: string, i: nat, url: string, e: ItemEnv, fs: Fs)
    ensures var t := RunItem(cfg, scale, i, url, e, fs).trace;
      && Downloads(t) == [DownloadRequest(cfg.browser, VideoName(i), url)]
      && Transcodes(t) == if e.fetchOk
         then [TranscodeRequest(VideoName(i), scale, Setting(cfg.duration), Setting(cfg.fps), GifName(i))]
         else []
  {
  }

  /** Every URL is fetched, once, in input order, with the configured browser and its own intermediate name */
  lemma {:induction false} RunFromDownloads(cfg: Config, scale: string, env: Env, i: nat, fs: Fs)
    requires i <= |cfg.urls|
    ensures var d := Downloads(RunFrom(cfg, scale, env, i, fs).trace);
      && |d| == |cfg.urls| - i
      && forall k :: 0 <= k < |d| ==> d[k] == DownloadRequest(cfg.browser, VideoName(i + k), cfg.urls[i + k])
    decreases |cfg.urls| - i
  {
    if i < |cfg.urls| {
      var step := RunItem(cfg, scale, i, cfg.urls[i], env.item(i), fs);
      var rest := RunFrom(cfg, scale, env, i + 1, step.fs);
      RunFromStep(cfg, scale, env, i, fs);
      RunFromDownloads(cfg, scale, env, i + 1, step.fs);
      var here := DownloadRequest(cfg.browser, VideoName(i), cfg.urls[i]);
      ItemRequests(cfg, scale, i, cfg.urls[i], env.item(i), fs);
      DownloadsAppend(step.trace, rest.trace);
      var d := Downloads(RunFrom(cfg, scale, env, i, fs).trace);
      assert d == [here] + Downloads(rest.trace);
      forall k | 0 <= k < |d|
        ensures d[k] == DownloadRequest(cfg.browser, VideoName(i + k), cfg.urls[i + k])
      {
        if k > 0 {
          assert d[k] == Downloads(rest.trace)[k - 1];
        }
      }
    }
  }

  /**
   * A transcode runs exactly for the fetched items, in input order, each
   * with the shared scale filter and the configured settings: a download
   * failure skips the item's transcode.
   */
  lemma {:induction false} RunFromTranscodes(cfg: Config, scale: string, env: Env, i: nat, fs: Fs)
    requires i <= |cfg.urls|
    ensures Transcodes(RunFrom(cfg, scale, env, i, fs).trace) == ExpectedTranscodes(cfg, scale, env, i)
    decreases |cfg.urls| - i
  {
    if i < |cfg.urls| {
      var step := RunItem(cfg, scale, i, cfg.urls[i], env.item(i), fs);
      var rest := RunFrom(cfg, scale, env, i + 1, step.fs);
      RunFromStep(cfg, scale, env, i, fs);
      RunFromTranscodes(cfg, scale, env, i + 1, step.fs);
      ItemRequests(cfg, scale, i, cfg.urls[i], env.item(i), fs);
      TranscodesAppend(step.trace, rest.trace);
    }
  }

  datatype BatchResult =
    | NoUrls(fs: Fs)
    | OutputAreaFailed(fs: Fs)
    | Completed(trace: seq<Invocation>, outcomes: seq<ItemOutcome>, fs: Fs)

  /**
   * The whole program after the configuration is loaded: reject an empty URL
   * list, reset the results directory, derive the scale filter once, then run
   * every item in order.
   */
  function RunBatch(cfg: Config, env: Env, fs: Fs): (r: BatchResult)
    ensures r.NoUrls? <==> |cfg.urls| == 0
    ensures r.NoUrls? ==> r.fs == fs
    ensures r.OutputAreaFailed? <==> |cfg.urls| > 0 && !env.mkdirOk
    ensures r.OutputAreaFailed? ==> !Exists(r.fs, ResultsDir)
    ensures r.Completed? ==> |r.outcomes| == |cfg.urls|
    ensures r.Completed? ==> forall k :: 0 <= k < |cfg.urls| ==> r.outcomes[k] == ExpectedOutcome(env.item(k), k)
  {
    if |cfg.urls| == 0 then NoUrls(fs)
    else match PrepareOutputDir(fs, ResultsDir, env.mkdirOk)
      case CreateFailed(fs') => OutputAreaFailed(fs')
      case Ready(fs') =>
        EmptyResultsFresh(fs');
        var scale := ScaleExpr(cfg.width, cfg.height);
        var run := RunFrom(cfg, scale, env, 0, fs');
        Completed(run.trace, run.outcomes, run.fs)
  }

  /** The paths of the items reported as saved */
  function SavedPaths(outcomes: seq<ItemOutcome>): set<string>
  {
    set k | 0 <= k < |outcomes| && outcomes[k].Saved? :: outcomes[k].path
  }

  /** A batch with URLs whose results directory could be created runs the loop from the reset filesystem */
  lemma BatchUnfold(cfg: Config, env: Env, fs: Fs)
    requires |cfg.urls| > 0 && env.mkdirOk
    ensures var prepared := PrepareOutputDir(fs, ResultsDir, true);
      var run := RunFrom(cfg, ScaleExpr(cfg.width, cfg.height), env, 0, prepared.fs);
      && prepared.Ready?
      && RunBatch(cfg, env, fs) == Completed(run.trace, run.outcomes, run.fs)
  {
  }

  /** A filesystem with nothing below the results directory holds no animation name */
  lemma EmptyResultsFresh(fs: Fs)
    requires forall q :: q in fs ==> !Under(q, ResultsDir)
    ensures FreshFrom(fs, 0)
  {
    forall j: nat
      ensures !Exists(fs, GifName(j))
    {
      forall q | q in fs
        ensures !Under(q, GifName(j))
      {
        if Under(q, GifName(j)) {
          UnderTransitive(q, GifName(j), ResultsDir);
        }
      }
    }
  }

  /** A path below the results directory that the loop leaves on disk is a saved animation */
  lemma RunFromContentsSaved(cfg: Config, scale: string, env: Env, fs: Fs, p: string)
    requires forall q :: q in fs ==> !Under(q, ResultsDir)
    requires Under(p, ResultsDir) && p in RunFrom(cfg, scale, env, 0, fs).fs
    ensures p in SavedPaths(RunFrom(cfg, scale, env, 0, fs).outcomes)
  {
    var r := RunFrom(cfg, scale, env, 0, fs);
    EmptyResultsFresh(fs);
    if IsItemPath(p, 0, |cfg.urls|) {
      var k: nat :| k < |cfg.urls| && (p == VideoName(k) || p == GifName(k));
      RunFromGif(cfg, scale, env, 0, fs, k);
      assert r.outcomes[k].path == p;
    } else {
      RunFromFrame(cfg, scale, env, 0, fs, p);
    }
  }

  /** A saved animation is on disk after the loop */
  lemma RunFromSavedPresent(cfg: Config, scale: string, env: Env, fs: Fs, p: string)
    requires forall q :: q in fs ==> !Under(q, ResultsDir)
    requires p in SavedPaths(RunFrom(cfg, scale, env, 0, fs).outcomes)
    ensures p in RunFrom(cfg, scale, env, 0, fs).fs && Under(p, ResultsDir)
  {
    var r := RunFrom(cfg, scale, env, 0, fs);
    EmptyResultsFresh(fs);
    var k :| 0 <= k < |r.outcomes| && r.outcomes[k].Saved? && r.outcomes[k].path == p;
    assert r.outcomes[k] == ExpectedOutcome(env.item(k), k);
    assert p == GifName(k);
    RunFromGif(cfg, scale, env, 0, fs, k);
  }

  /** The results directory after a completed batch exists and holds exactly the animations reported as saved */
  lemma BatchResultsExactlySaved(cfg: Config, env: Env, fs: Fs)
    ensures var r := RunBatch(cfg, env, fs);
      r.Completed? ==> ResultsDir in r.fs && Contents(r.fs, ResultsDir) == SavedPaths(r.outcomes)
  {
    if |cfg.urls| > 0 && env.mkdirOk {
      BatchUnfold(cfg, env, fs);
      var r := RunBatch(cfg, env, fs);
      var prepared := PrepareOutputDir(fs, ResultsDir, true).fs;
      var scale := ScaleExpr(cfg.width, cfg.height);
      assert !IsItemPath(ResultsDir, 0, |cfg.urls|);
      RunFromFrame(cfg, scale, env, 0, prepared, ResultsDir);
      forall p | p in Contents(r.fs, ResultsDir)
        ensures p in SavedPaths(r.outcomes)
      {
        RunFromContentsSaved(cfg, scale, env, prepared, p);
      }
      forall p | p in SavedPaths(r.outcomes)
        ensures p in Contents(r.fs, ResultsDir)
      {
        RunFromSavedPresent(cfg, scale, env, prepared, p);
      }
    }
  }

  /**
   * After a completed batch each item's intermediate video is present exactly
   * when it was not deleted after a successful transcode and it was either
   * fetched in this run or already present before it.
   */
  lemma BatchIntermediates(cfg: Config, env: Env, fs: Fs, k: nat)
    requires k < |cfg.urls|
    ensures var r := RunBatch(cfg, env, fs);
      r.Completed? ==>
        (VideoName(k) in r.fs <==> (env.item(k).fetchOk || VideoName(k) in fs) && !DeletesVideo(env.item(k)))
  {
    var r := RunBatch(cfg, env, fs);
    if r.Completed? {
      var prepared := PrepareOutputDir(fs, ResultsDir, env.mkdirOk).fs;
      RunFromVideo(cfg, ScaleExpr(cfg.width, cfg.height), env, 0, prepared, k);
    }
  }

  /** A batch, whether it completes or aborts, changes nothing outside the results directory except its own intermediates */
  lemma BatchFrame(cfg: Config, env: Env, fs: Fs, p: string)
    requires !InTree(p, ResultsDir) && !IsItemPath(p, 0, |cfg.urls|)
    ensures p in RunBatch(cfg, env, fs).fs <==> p in fs
  {
    var r := RunBatch(cfg, env, fs);
    if r.Completed? {
      var prepared := PrepareOutputDir(fs, ResultsDir, env.mkdirOk).fs;
      RunFromFrame(cfg, ScaleExpr(cfg.width, cfg.height), env, 0, prepared, p);
    }
  }

  /**
   * The processes a completed batch starts: one download per URL, in input
   * order, and one transcode per fetched item, in the same order, all using
   * the scale filter derived once from the configuration.
   */
  lemma BatchInvocations(cfg: Config, env: Env, fs: Fs)
    ensures var r := RunBatch(cfg, env, fs);
      r.Completed? ==>
        && |Downloads(r.trace)| == |cfg.urls|
        && (forall k :: 0 <= k < |cfg.urls| ==>
              Downloads(r.trace)[k] == DownloadRequest(cfg.browser, VideoName(k), cfg.urls[k]))
        && Transcodes(r.trace) == ExpectedTranscodes(cfg, ScaleExpr(cfg.width, cfg.height), env, 0)
  {
    var r := RunBatch(cfg, env, fs);
    if r.Completed? {
      var prepared := PrepareOutputDir(fs, ResultsDir, env.mkdirOk).fs;
      RunFromDownloads(cfg, ScaleExpr(cfg.width, cfg.height), env, 0, prepared);
      RunFromTranscodes(cfg, ScaleExpr(cfg.width, cfg.height), env, 0, prepared);
    }
  }

  /** A completed batch runs the items strictly one after another, in input order */
  lemma BatchTraceInOrder(cfg: Config, env: Env, fs: Fs)
    ensures var r := RunBatch(cfg, env, fs);
      r.Completed? ==> r.trace == ItemTraces(cfg, ScaleExpr(cfg.width, cfg.height), env, 0)
  {
    if |cfg.urls| > 0 && env.mkdirOk {
      BatchUnfold(cfg, env, fs);
      RunFromTraceInOrder(cfg, ScaleExpr(cfg.width, cfg.height), env, 0, PrepareOutputDir(fs, ResultsDir, true).fs);
    }
  }

  /**
   * Item k's outcome depends only on its own oracle entry: two completed
   * batches over the same URLs, from any filesystems, agree on item k when
   * their oracles agree on item k.
   */
  lemma ItemsIsolated(cfg: Config, env1: Env, env2: Env, fs1: Fs, fs2: Fs, k: nat)
    requires RunBatch(cfg, env1, fs1).Completed? && RunBatch(cfg, env2, fs2).Completed?
    requires k < |cfg.urls| && env1.item(k) == env2.item(k)
    ensures RunBatch(cfg, env1, fs1).outcomes[k] == RunBatch(cfg, env2, fs2).outcomes[k]
  {
  }

  /** Running the batch twice leaves only the second run's animations in the results directory */
  lemma RerunPurgesEarlierResults(cfg: Config, env1: Env, env2: Env, fs: Fs)
    ensures var second := RunBatch(cfg, env2, RunBatch(cfg, env1, fs).fs);
      second.Completed? ==> Contents(second.fs, ResultsDir) == SavedPaths(second.outcomes)
  {
    BatchResultsExactlySaved(cfg, env2, RunBatch(cfg, env1, fs).fs);
  }

  /** The names and filter of the two-item example, spelled out */
  lemma ExampleNames()
    ensures VideoName(0) == "video_0.mp4" && VideoName(1) == "video_1.mp4"
    ensures GifName(0) == "results/video_0.gif" && GifName(1) == "results/video_1.gif"
    ensures ScaleExpr("480", "auto") == "scale=480:-1"
  {
  }

  function ExampleConfig(a: string, b: string): Config
  {
    Config([a, b], "auto", "auto", "480", "auto", "chrome")
  }

  /** Every tool and every deletion succeeds */
  function AllSucceed(): Env
  {
    Env(true, (i: nat) => ItemEnv(true, TranscodeSucceeded(true), true))
  }

  lemma ExampleOutcomes(fs: Fs, a: string, b: string)
    ensures var r := RunBatch(ExampleConfig(a, b), AllSucceed(), fs);
      && r.Completed?
      && r.outcomes == [Saved("results/video_0.gif", false), Saved("results/video_1.gif", false)]
  {
    ExampleNames();
    var r := RunBatch(ExampleConfig(a, b), AllSucceed(), fs);
    assert r.outcomes[0] == Saved(GifName(0), false);
    assert r.outcomes[1] == Saved(GifName(1), false);
  }

  lemma ExampleInvocations(fs: Fs, a: string, b: string)
    ensures var r := RunBatch(ExampleConfig(a, b), AllSucceed(), fs);
      && Downloads(r.trace) == [DownloadRequest("chrome", "video_0.mp4", a), DownloadRequest("chrome", "video_1.mp4", b)]
      && Transcodes(r.trace) == [
           TranscodeRequest("video_0.mp4", "scale=480:-1", None, None, "results/video_0.gif"),
           TranscodeRequest("video_1.mp4", "scale=480:-1", None, None, "results/video_1.gif")]
  {
    var cfg := ExampleConfig(a, b);
    ExampleNames();
    BatchInvocations(cfg, AllSucceed(), fs);
    var d := Downloads(RunBatch(cfg, AllSucceed(), fs).trace);
    assert d == [d[0], d[1]];
    assert ExpectedTranscodes(cfg, ScaleExpr("480", "auto"), AllSucceed(), 2) == [];
  }

  /**
   * Two URLs, every setting but the width left to "auto", every tool
   * succeeding: two downloads, two transcodes with `scale=480:-1` and no
   * `-t`/`-r`, and the results directory holds `video_0.gif` and `video_1.gif`.
   */
  lemma TwoUrlScenario(fs: Fs, a: string, b: string)
    ensures var r := RunBatch(ExampleConfig(a, b), AllSucceed(), fs);
      && r.Completed?
      && r.outcomes == [Saved("results/video_0.gif", false), Saved("results/video_1.gif", false)]
      && Downloads(r.trace) == [DownloadRequest("chrome", "video_0.mp4", a), DownloadRequest("chrome", "video_1.mp4", b)]
      && Transcodes(r.trace) == [
           TranscodeRequest("video_0.mp4", "scale=480:-1", None, None, "results/video_0.gif"),
           TranscodeRequest("video_1.mp4", "scale=480:-1", None, None, "results/video_1.gif")]
      && Contents(r.fs, ResultsDir) == {"results/video_0.gif", "results/video_1.gif"}
  {
    var r := RunBatch(ExampleConfig(a, b), AllSucceed(), fs);
    ExampleOutcomes(fs, a, b);
    ExampleInvocations(fs, a, b);
    BatchResultsExactlySaved(ExampleConfig(a, b), AllSucceed(), fs);
    assert SavedPaths(r.outcomes) == {"results/video_0.gif", "results/video_1.gif"} by {
      assert r.outcomes[0].path == "results/video_0.gif";
      assert r.outcomes[1].path == "results/video_1.gif";
    }
  }
}
