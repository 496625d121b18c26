/**
 * The per-item artifact names: the intermediate video `video_<i>.mp4` in the
 * working directory and the final animation `results/video_<i>.gif`, both
 * derived from the item's 0-based position in the URL list.
 */
module Naming {

  import opened Wrappers
  import Decimal
  import Paths

  const ResultsDir := "results"
  const Stem := "video_"
  const VideoExt := ".mp4"
  const GifExt := ".gif"

  /** `fmt.Sprintf("video_%d" + ext, i)` */
  function Numbered(i: nat, ext: string): string
  {
    Stem + Decimal.Show(i) + ext
  }

  /** Recovers the index from `video_<i><ext>`, rejecting every other shape */
  function ParseNumbered(s: string, ext: string): Option<nat>
  {
    if |Stem| + |ext| <= |s| && s[..|Stem|] == Stem && s[|s| - |ext|..] == ext
    then Decimal.Parse(s[|Stem|..|s| - |ext|])
    else None
  }

  lemma NumberedParses(i: nat, ext: string)
    ensures ParseNumbered(Numbered(i, ext), ext) == Some(i)
  {
    var s := Numbered(i, ext);
    assert s[|Stem|..|s| - |ext|] == Decimal.Show(i);
    Decimal.ParseShow(i);
  }

  function ParseVideoName(s: string): Option<nat>
  {
    ParseNumbered(s, VideoExt)
  }

  function ParseGifName(s: string): Option<nat>
  {
    if Paths.Under(s, ResultsDir) then ParseNumbered(s[|ResultsDir| + 1..], GifExt) else None
  }

  /** Item i's intermediate video, in the working directory (outside the results tree) */
  function VideoName(i: nat): (r: string)
    ensures !Paths.InTree(r, ResultsDir)
  {
    var r := Numbered(i, VideoExt);
    assert r[0] == 'v';
    r
  }

  /** Item i's final animation, inside the results directory */
  function GifName(i: nat): (r: string)
    ensures Paths.Under(r, ResultsDir)
  {
    Paths.Join(ResultsDir, Numbered(i, GifExt))
  }

  /** Each name gives its index back */
  lemma NamesParse(i: nat)
    ensures ParseVideoName(VideoName(i)) == Some(i)
    ensures ParseGifName(GifName(i)) == Some(i)
  {
    NumberedParses(i, VideoExt);
    NumberedParses(i, GifExt);
  }

  /** Distinct indices give distinct names, and no video name is an animation name */
  lemma NamesDistinct(i: nat, j: nat)
    ensures VideoName(i) == VideoName(j) <==> i == j
    ensures GifName(i) == GifName(j) <==> i == j
    ensures VideoName(i) != GifName(j)
  {
    NamesParse(i);
    NamesParse(j);
  }

  /** An item name is a single path segment */
  lemma NumberedIsSegment(i: nat, ext: string)
    requires Paths.Separator !in ext
    ensures Paths.Separator !in Numbered(i, ext)
  {
    var d := Decimal.Show(i);
    assert Paths.Separator !in d by {
      forall k | 0 <= k < |d|
        ensures d[k] != Paths.Separator
      {
        assert Decimal.IsDigit(d[k]);
      }
    }
  }

  /** No item name lies inside an animation's path: an animation is a plain file */
  lemma NothingBelowGif(i: nat, j: nat)
    ensures !Paths.Under(GifName(i), GifName(j))
    ensures !Paths.Under(VideoName(i), GifName(j))
  {
    NumberedIsSegment(i, GifExt);
    var gi := GifName(i);
    var gj := GifName(j);
    if |gj| < |gi| {
      var n := Numbered(i, GifExt);
      assert gi == ResultsDir + [Paths.Separator] + n;
      assert gi[|gj|] == n[|gj| - |ResultsDir| - 1];
      assert gi[..|gj| + 1][|gj|] != Paths.Separator;
    }
    assert VideoName(i)[0] == 'v';
  }
}
