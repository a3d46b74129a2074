/** `prepare_background_videos`: the scan of the video folder for readable `.mp4`/`.mkv` clips and
    the shuffle of what it finds. The directory listing, the `ffprobe` readability test and the
    random numbers are inputs. */
module Background {
  import opened Common
  import opened Paths

  /** `file.endswith(('.mp4', '.mkv'))`; the test is case-sensitive. */
  predicate IsVideoName(name: string) {
    EndsWith(name, ".mp4") || EndsWith(name, ".mkv")
  }

  /** The paths the scan keeps, in listing order: every video name of the listing, joined to the
      folder, whose file `readable` accepts. */
  function ReadableVideos(folder: string, listing: seq<string>, readable: string -> bool): (r: seq<string>)
    ensures |r| <= |listing|
  {
    if listing == [] then []
    else
      var n := |listing| - 1;
      var path := Join(folder, listing[n]);
      ReadableVideos(folder, listing[..n], readable)
        + (if IsVideoName(listing[n]) && readable(path) then [path] else [])
  }

  /** `x` is the path the scan makes of the listed `name`, and it passes the readability test. */
  predicate KeptAs(folder: string, name: string, readable: string -> bool, x: string) {
    IsVideoName(name) && x == Join(folder, name) && readable(x)
  }

  /** The path the scan keeps for one listed name, if any. */
  function KeptPath(folder: string, readable: string -> bool, name: string): Option<string> {
    if IsVideoName(name) && readable(Join(folder, name)) then Some(Join(folder, name)) else None
  }

  lemma {:induction false} ReadableVideosPicked(folder: string, listing: seq<string>, readable: string -> bool)
    ensures ReadableVideos(folder, listing, readable) == Picked(listing, name => KeptPath(folder, readable, name))
  {
    if listing != [] {
      ReadableVideosPicked(folder, listing[..|listing| - 1], readable);
    }
  }

  /** A path is kept exactly when it comes from a video name of the listing and is readable. */
  lemma ReadableVideosMembers(folder: string, listing: seq<string>, readable: string -> bool, x: string)
    ensures x in ReadableVideos(folder, listing, readable) <==>
      exists k :: 0 <= k < |listing| && KeptAs(folder, listing[k], readable, x)
  {
    var pick := name => KeptPath(folder, readable, name);
    ReadableVideosPicked(folder, listing, readable);
    PickedMembers(listing, pick, x);
    assert forall k :: 0 <= k < |listing| ==> (pick(listing[k]) == Some(x) <==> KeptAs(folder, listing[k], readable, x));
  }

  /** The `for file in os.listdir(video_folder)` loop. */
  method ScanVideos(folder: string, listing: seq<string>, readable: string -> bool) returns (videos: seq<string>)
    ensures videos == ReadableVideos(folder, listing, readable)
  {
    videos := [];
    var i := 0;
    while i < |listing|
      invariant 0 <= i <= |listing|
      invariant videos == ReadableVideos(folder, listing[..i], readable)
    {
      var file := listing[i];
      assert listing[..i + 1][..i] == listing[..i];
      if IsVideoName(file) {
        var path := Join(folder, file);
        if readable(path) {
          videos := videos + [path];
        }
      }
      i := i + 1;
    }
    assert listing[..i] == listing;
  }

  // ---------------------------------------------------------------------------
  // random.shuffle
  // ---------------------------------------------------------------------------

  function Swap(s: seq<string>, i: nat, j: nat): (r: seq<string>)
    requires i < |s| && j < |s|
    ensures |r| == |s| && multiset(r) == multiset(s)
    ensures r[i] == s[j] && r[j] == s[i]
    ensures forall k :: 0 <= k < |s| && k != i && k != j ==> r[k] == s[k]
  {
    s[i := s[j]][j := s[i]]
  }

  /** The draws `random.shuffle` makes from position `i` down to 1: at each step the element at `i`
      is swapped with the one at `randbelow(i + 1)`, here `draw(i) % (i + 1)`. */
  function ShuffleFrom(s: seq<string>, i: int, draw: nat -> nat): seq<string>
    decreases i
  {
    if i < 1 || i >= |s| then s
    else ShuffleFrom(Swap(s, i, draw(i) % (i + 1)), i - 1, draw)
  }

  function Shuffled(s: seq<string>, draw: nat -> nat): seq<string> {
    ShuffleFrom(s, |s| - 1, draw)
  }

  /** Whatever the draws, the shuffle only reorders. */
  lemma {:induction false} ShuffleFromPermutes(s: seq<string>, i: int, draw: nat -> nat)
    ensures |ShuffleFrom(s, i, draw)| == |s|
    ensures multiset(ShuffleFrom(s, i, draw)) == multiset(s)
    decreases i
  {
    if 1 <= i < |s| {
      ShuffleFromPermutes(Swap(s, i, draw(i) % (i + 1)), i - 1, draw);
    }
  }

  /** `random.shuffle(x)` on the list in place. */
  method Shuffle(a: array<string>, draw: nat -> nat)
    modifies a
    ensures a[..] == Shuffled(old(a[..]), draw)
  {
    var i := a.Length - 1;
    while i >= 1
      invariant -1 <= i < a.Length
      invariant ShuffleFrom(a[..], i, draw) == Shuffled(old(a[..]), draw)
      decreases i
    {
      var j := draw(i) % (i + 1);
      assert Swap(a[..], i, j) == a[..][i := a[j]][j := a[i]];
      a[i], a[j] := a[j], a[i];
      i := i - 1;
    }
  }

  /** `prepare_background_videos(video_folder, duration)`: an unlistable folder or a scan that keeps
      nothing raises (`None`); otherwise the result is the kept clips in shuffled order. The
      duration is not used. */
  method PrepareBackgroundVideos(folder: string, duration: real, listing: Option<seq<string>>,
                                 readable: string -> bool, draw: nat -> nat)
    returns (r: Option<seq<string>>)
    ensures listing.None? ==> r.None?
    ensures listing.Some? ==> (r.None? <==> ReadableVideos(folder, listing.value, readable) == [])
    ensures r.Some? ==> r.value == Shuffled(ReadableVideos(folder, listing.value, readable), draw)
  {
    if listing.None? {
      return None;
    }
    var videos := ScanVideos(folder, listing.value, readable);
    if videos == [] {
      return None;
    }
    var a := new string[|videos|](k requires 0 <= k < |videos| => videos[k]);
    assert a[..] == videos;
    Shuffle(a, draw);
    return Some(a[..]);
  }

  /** The clips handed back are exactly the readable video files of the folder, each once per name
      that produced it, whatever the draws and the duration. */
  lemma BackgroundIsPermutation(folder: string, listing: seq<string>, readable: string -> bool,
                                draw: nat -> nat, x: string)
    ensures multiset(Shuffled(ReadableVideos(folder, listing, readable), draw))
         == multiset(ReadableVideos(folder, listing, readable))
    ensures x in Shuffled(ReadableVideos(folder, listing, readable), draw) <==>
      exists k :: 0 <= k < |listing| && KeptAs(folder, listing[k], readable, x)
  {
    var v := ReadableVideos(folder, listing, readable);
    ShuffleFromPermutes(v, |v| - 1, draw);
    assert x in Shuffled(v, draw) <==> x in multiset(Shuffled(v, draw));
    assert x in v <==> x in multiset(v);
    ReadableVideosMembers(folder, listing, readable, x);
  }
}
