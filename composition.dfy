/** The ffmpeg command of `process_video`: its inputs (the background clips, then the audio, then
    the thumbnail), the filter graph that layers the clips over time, burns in the subtitles and
    fades the thumbnail out, the stream mapping and the output name, and the overlay duration of
    `get_overlay_duration`. Filter entries are values rather than rendered text. */
module Composition {
  import opened Common
  import opened Paths

  // ---------------------------------------------------------------------------
  // Overlay timing
  // ---------------------------------------------------------------------------

  /** `get_overlay_duration(hook_duration)`: the hook's length when it has one, 5 seconds otherwise. */
  function OverlayDuration(hookDuration: real): (r: real)
    ensures r > 0.0
    ensures hookDuration > 0.0 ==> r == hookDuration
  {
    if hookDuration > 0.0 then hookDuration else 5.0
  }

  /** The half-second fade ends exactly when the thumbnail's `between(t,0,overlay)` window closes. */
  const FadeLength: real := 0.5

  function FadeStart(hookDuration: real): real {
    OverlayDuration(hookDuration) - FadeLength
  }

  lemma FadeEndsWithOverlay(hookDuration: real)
    ensures FadeStart(hookDuration) + FadeLength == OverlayDuration(hookDuration)
    ensures hookDuration <= 0.0 ==> FadeStart(hookDuration) == 4.5
  {
  }

  /** A hook shorter than half a second puts the fade start before the video begins. */
  lemma FadeStartCanBeNegative()
    ensures FadeStart(0.25) < 0.0
  {
  }

  // ---------------------------------------------------------------------------
  // Background layer windows
  // ---------------------------------------------------------------------------

  /** `i*T/n` and `(i+1)*T/n`: the window in which clip `i` of `n` is shown over the ones below. */
  function WindowStart(i: nat, n: nat, total: real): real
    requires n > 0
  {
    (i as real) * total / (n as real)
  }

  function WindowEnd(i: nat, n: nat, total: real): real
    requires n > 0
  {
    ((i + 1) as real) * total / (n as real)
  }

  /** The windows follow each other without gap: the first starts at 0, each ends where the next
      starts, and the last ends at the total duration. */
  lemma WindowsTile(n: nat, total: real)
    requires n > 0
    ensures WindowStart(0, n, total) == 0.0
    ensures WindowEnd(n - 1, n, total) == total
    ensures forall i: nat :: WindowEnd(i, n, total) == WindowStart(i + 1, n, total)
  {
  }

  /** For a non-negative duration the windows are in order and meet only at their endpoints. */
  lemma WindowsOrdered(i: nat, j: nat, n: nat, total: real)
    requires n > 0 && total >= 0.0 && i < j
    ensures WindowStart(i, n, total) <= WindowEnd(i, n, total) <= WindowStart(j, n, total)
  {
    var nr := n as real;
    assert (i as real) * total <= ((i + 1) as real) * total;
    assert ((i + 1) as real) * total <= (j as real) * total;
    DivideMonotone((i as real) * total, ((i + 1) as real) * total, nr);
    DivideMonotone(((i + 1) as real) * total, (j as real) * total, nr);
  }

  lemma DivideMonotone(x: real, y: real, d: real)
    requires d > 0.0 && x <= y
    ensures x / d <= y / d
  {
    assert x / d * d == x && y / d * d == y;
  }

  /** Every moment of the video falls in some clip's window. */
  lemma WindowsCover(t: real, n: nat, total: real)
    requires n > 0 && 0.0 <= t <= total
    ensures exists i: nat :: i < n && WindowStart(i, n, total) <= t <= WindowEnd(i, n, total)
  {
    WindowsTile(n, total);
    WindowsCoverFrom(t, 0, n, total);
  }

  /** The search behind `WindowsCover`: from any window that starts no later than `t`, some later
      window holds `t`. */
  lemma {:induction false} WindowsCoverFrom(t: real, m: nat, n: nat, total: real)
    requires m < n && WindowStart(m, n, total) <= t <= total
    ensures exists i: nat :: m <= i < n && WindowStart(i, n, total) <= t <= WindowEnd(i, n, total)
    decreases n - m
  {
    WindowsTile(n, total);
    if t > WindowEnd(m, n, total) {
      assert m + 1 < n;
      WindowsCoverFrom(t, m + 1, n, total);
    }
  }

  // ---------------------------------------------------------------------------
  // The filter graph
  // ---------------------------------------------------------------------------

  /** The stream labels: `v<i>`, `subbed`, `faded` and the final `v`. */
  datatype Label = Layer(index: nat) | Subbed | Faded | Top

  /** One entry of `filter_complex`. */
  datatype Filter =
    | Base(input: nat, out: Label)                                        // [i:v]null[out]
    | Overlay(below: Label, input: nat, from: real, until: real, out: Label)  // enable='between(t,from,until)'
    | Burn(below: Label, file: string, out: Label)                        // ass='file'
    | FadeOut(input: nat, start: real, length: real, out: Label)          // fade=t=out:st=start:d=length
    | Center(below: Label, above: Label, until: real, out: Label)         // centred, between(t,0,until)

  /** The entry for background clip `i` of `n`: the first is passed through, each later one is laid
      over the previous layer during its window. */
  function LayerFilter(i: nat, n: nat, total: real): Filter
    requires i < n
  {
    if i == 0 then Base(0, Layer(0))
    else Overlay(Layer(i - 1), i, WindowStart(i, n, total), WindowEnd(i, n, total), Layer(i))
  }

  function BackgroundChain(n: nat, total: real): (r: seq<Filter>)
    ensures |r| == n && forall i :: 0 <= i < n ==> r[i] == LayerFilter(i, n, total)
  {
    seq(n, i requires 0 <= i < n => LayerFilter(i, n, total))
  }

  /** The name the subtitle filter reads: the base name of the copy put in the working directory. */
  function BurnedName(p: Processor, ass: string): string {
    BaseName(Join(p.workDir, BaseName(ass)))
  }

  lemma BurnedNameIsBaseName(p: Processor, ass: string)
    ensures BurnedName(p, ass) == BaseName(ass)
  {
    BaseNameOfJoin(p.workDir, BaseName(ass));
  }

  /** The graph with the subtitles burnt in over the last layer when there is an ASS file. */
  function Subtitled(p: Processor, layers: seq<Filter>, n: nat, ass: Option<string>): seq<Filter>
    requires n > 0
  {
    if Truthy(ass) then layers + [Burn(Layer(n - 1), BurnedName(p, ass.value), Subbed)] else layers
  }

  /** The label the thumbnail is centred over: the subtitled video, or the last layer. */
  function BelowThumbnail(n: nat, ass: Option<string>): Label
    requires n > 0
  {
    if Truthy(ass) then Subbed else Layer(n - 1)
  }

  /** The graph with the faded thumbnail centred over `below` when there is a thumbnail. */
  function WithThumbnail(f: seq<Filter>, below: Label, n: nat, thumbnail: Option<string>, hookDuration: real): seq<Filter> {
    if Truthy(thumbnail) then
      f + [FadeOut(n + 1, FadeStart(hookDuration), FadeLength, Faded),
           Center(below, Faded, OverlayDuration(hookDuration), Top)]
    else f
  }

  /** The whole graph for `n >= 1` clips: the clip chain, then the subtitles when there is an ASS
      file, then the thumbnail fade and its centred overlay when there is a thumbnail. */
  function PlannedFilters(p: Processor, n: nat, total: real, ass: Option<string>, thumbnail: Option<string>,
                          hookDuration: real): seq<Filter>
    requires n > 0
  {
    WithThumbnail(Subtitled(p, BackgroundChain(n, total), n, ass), BelowThumbnail(n, ass), n, thumbnail, hookDuration)
  }

  /** `last_output` once the graph is built. */
  function VideoLabel(n: nat, ass: Option<string>, thumbnail: Option<string>): Label
    requires n > 0
  {
    if Truthy(thumbnail) then Top else if Truthy(ass) then Subbed else Layer(n - 1)
  }

  /** Each entry reads only what the entries just before it produced: a layer or the subtitles the
      previous output, the centred thumbnail the output two back and the fade just before it. */
  predicate ReadsPrevious(f: seq<Filter>, k: nat)
    requires k < |f|
  {
    match f[k]
    case Base(_, _) => k == 0
    case Overlay(below, _, _, _, _) => k >= 1 && below == f[k - 1].out
    case Burn(below, _, _) => k >= 1 && below == f[k - 1].out
    case FadeOut(_, _, _, _) => k >= 1
    case Center(below, above, _, _) => k >= 2 && above == f[k - 1].out && below == f[k - 2].out
  }

  /** A graph in which every entry is fed by earlier ones, no two entries write the same label, and
      the mapped label is the last one written. */
  predicate WellChained(f: seq<Filter>, mapped: Label) {
    && |f| > 0
    && f[|f| - 1].out == mapped
    && (forall k :: 0 <= k < |f| ==> ReadsPrevious(f, k))
    && (forall j, k :: 0 <= j < k < |f| ==> f[j].out != f[k].out)
  }

  /** The clip chain on its own: layer `k` writes `v<k>` and reads `v<k-1>`. */
  lemma ChainWellChained(n: nat, total: real)
    requires n > 0
    ensures WellChained(BackgroundChain(n, total), Layer(n - 1))
    ensures forall k :: 0 <= k < n ==> BackgroundChain(n, total)[k].out == Layer(k)
  {
    var f := BackgroundChain(n, total);
    forall k | 0 <= k < n ensures ReadsPrevious(f, k) && f[k].out == Layer(k) {
      assert f[k] == LayerFilter(k, n, total);
    }
  }

  /** Appending an entry that reads the mapped label and writes a new one keeps the graph chained. */
  lemma AppendChained(f: seq<Filter>, mapped: Label, g: Filter)
    requires WellChained(f, mapped)
    requires g.Burn? && g.below == mapped
    requires forall k :: 0 <= k < |f| ==> f[k].out != g.out
    ensures WellChained(f + [g], g.out)
  {
    var h := f + [g];
    forall k | 0 <= k < |h| ensures ReadsPrevious(h, k) {
      if k < |f| {
        assert ReadsPrevious(f, k);
        assert h[k] == f[k];
        if k >= 1 { assert h[k - 1] == f[k - 1]; }
        if k >= 2 { assert h[k - 2] == f[k - 2]; }
      }
    }
  }

  /** Appending the thumbnail's fade and its centred overlay over the mapped label. */
  lemma AppendThumbnailChained(f: seq<Filter>, mapped: Label, fade: Filter, top: Filter)
    requires WellChained(f, mapped)
    requires fade.FadeOut? && top.Center? && top.below == mapped && top.above == fade.out
    requires fade.out != top.out
    requires forall k :: 0 <= k < |f| ==> f[k].out != fade.out && f[k].out != top.out
    ensures WellChained(f + [fade, top], top.out)
  {
    var h := f + [fade, top];
    forall k | 0 <= k < |h| ensures ReadsPrevious(h, k) {
      if k < |f| {
        assert ReadsPrevious(f, k);
        assert h[k] == f[k];
        if k >= 1 { assert h[k - 1] == f[k - 1]; }
        if k >= 2 { assert h[k - 2] == f[k - 2]; }
      } else if k == |f| + 1 {
        assert h[k - 1] == fade && h[k - 2] == f[|f| - 1];
      }
    }
  }

  lemma PlannedFiltersChained(p: Processor, n: nat, total: real, ass: Option<string>, thumbnail: Option<string>,
                              hookDuration: real)
    requires n > 0
    ensures WellChained(PlannedFilters(p, n, total, ass, thumbnail, hookDuration), VideoLabel(n, ass, thumbnail))
  {
    var layers := BackgroundChain(n, total);
    ChainWellChained(n, total);
    var subbed := Subtitled(p, layers, n, ass);
    var below := BelowThumbnail(n, ass);
    if Truthy(ass) {
      AppendChained(layers, Layer(n - 1), Burn(Layer(n - 1), BurnedName(p, ass.value), Subbed));
    }
    assert WellChained(subbed, below);
    assert forall k :: 0 <= k < |subbed| ==> subbed[k].out != Faded && subbed[k].out != Top by {
      forall k | 0 <= k < |subbed| ensures subbed[k].out != Faded && subbed[k].out != Top {
        if k < n { assert subbed[k] == layers[k]; }
      }
    }
    if Truthy(thumbnail) {
      AppendThumbnailChained(subbed, below, FadeOut(n + 1, FadeStart(hookDuration), FadeLength, Faded),
                             Center(below, Faded, OverlayDuration(hookDuration), Top));
    }
  }

  // ---------------------------------------------------------------------------
  // Inputs and the command
  // ---------------------------------------------------------------------------

  /** The `-i <path>` pairs for the given files, in order. */
  function InputFlags(files: seq<string>): (r: seq<string>)
    ensures |r| == 2 * |files|
    ensures forall k :: 0 <= k < |files| ==> r[2 * k] == "-i" && r[2 * k + 1] == files[k]
  {
    if files == [] then []
    else
      var n := |files| - 1;
      var init := InputFlags(files[..n]);
      assert forall k :: 0 <= k < n ==> files[..n][k] == files[k];
      init + ["-i", files[n]]
  }

  /** The input files in ffmpeg's numbering: the clips `0..n-1`, the audio `n`, the thumbnail `n+1`. */
  function InputFiles(clips: seq<string>, audio: string, thumbnail: Option<string>): seq<string> {
    clips + [audio] + (if Truthy(thumbnail) then [thumbnail.value] else [])
  }

  /** The command without its fixed flags (`-hwaccel cuda -y`, `h264_nvenc`, preset `p7`, `5M`,
      30 fps, `aac`): the inputs, the graph, the two `-map`s, the optional `-t` and the output. */
  datatype Command = Command(inputs: seq<string>, filters: seq<Filter>, videoMap: Label, audioMap: nat,
                             duration: Option<real>, output: string)

  /** `<work_dir>/<audio stem>_<timestamp>.mp4`. */
  function OutputPath(p: Processor, audioPath: string): string {
    Join(p.workDir, Stem(audioPath) + "_" + NatToString(p.timestamp) + ".mp4")
  }

  function PlannedCommand(p: Processor, clips: seq<string>, audio: string, ass: Option<string>,
                          thumbnail: Option<string>, hookDuration: real, total: real, audioPath: string): Command
    requires clips != []
  {
    Command(InputFlags(InputFiles(clips, audio, thumbnail)),
            PlannedFilters(p, |clips|, total, ass, thumbnail, hookDuration),
            VideoLabel(|clips|, ass, thumbnail), |clips|,
            if total != 0.0 then Some(total) else None,
            OutputPath(p, audioPath))
  }

  /** The graph entry by entry: the layers first, then the subtitles, then the fade of the
      thumbnail (input `n + 1`) and its overlay. */
  lemma PlannedFiltersLayout(p: Processor, n: nat, total: real, ass: Option<string>, thumbnail: Option<string>,
                             hookDuration: real)
    requires n > 0
    ensures var f := PlannedFilters(p, n, total, ass, thumbnail, hookDuration);
      && |f| == n + (if Truthy(ass) then 1 else 0) + (if Truthy(thumbnail) then 2 else 0)
      && (forall k :: 0 <= k < n ==> f[k] == LayerFilter(k, n, total))
      && (Truthy(ass) ==> f[n] == Burn(Layer(n - 1), BaseName(ass.value), Subbed))
      && (Truthy(thumbnail) ==>
            && f[|f| - 2] == FadeOut(n + 1, FadeStart(hookDuration), FadeLength, Faded)
            && f[|f| - 1] == Center(BelowThumbnail(n, ass), Faded, OverlayDuration(hookDuration), Top))
  {
    var layers := BackgroundChain(n, total);
    var subbed := Subtitled(p, layers, n, ass);
    if Truthy(ass) {
      BurnedNameIsBaseName(p, ass.value);
    }
    assert |subbed| >= n && forall k :: 0 <= k < n ==> subbed[k] == layers[k];
  }

  /** The `-i` flags number the files as ffmpeg does: clip `k` is input `k`, the audio input `n`, the
      thumbnail input `n + 1`. */
  lemma InputsNumbered(clips: seq<string>, audio: string, thumbnail: Option<string>)
    ensures var f := InputFlags(InputFiles(clips, audio, thumbnail));
      && |f| == 2 * (|clips| + 1 + (if Truthy(thumbnail) then 1 else 0))
      && (forall k :: 0 <= k < |clips| ==> f[2 * k] == "-i" && f[2 * k + 1] == clips[k])
      && f[2 * |clips|] == "-i" && f[2 * |clips| + 1] == audio
      && (Truthy(thumbnail) ==> f[2 * (|clips| + 1)] == "-i" && f[2 * (|clips| + 1) + 1] == thumbnail.value)
  {
    var n := |clips|;
    var files := InputFiles(clips, audio, thumbnail);
    assert forall k :: 0 <= k < n ==> files[k] == clips[k];
    assert files[n] == audio;
    assert Truthy(thumbnail) ==> files[n + 1] == thumbnail.value;
  }

  /** The output file is named after the audio and the run, and lies in the working directory. */
  lemma OutputName(p: Processor, audioPath: string)
    ensures BaseName(OutputPath(p, audioPath)) == Stem(audioPath) + "_" + NatToString(p.timestamp) + ".mp4"
  {
    StemFlat(audioPath);
    StampedNameFlat(Stem(audioPath), p.timestamp, ".mp4");
    BaseNameOfJoin(p.workDir, Stem(audioPath) + "_" + NatToString(p.timestamp) + ".mp4");
  }

  lemma InputFlagsSnoc(files: seq<string>, x: string)
    ensures InputFlags(files + [x]) == InputFlags(files) + ["-i", x]
  {
    assert (files + [x])[..|files|] == files;
  }

  /** The flags of the inputs in ffmpeg's numbering: the clips, then the audio, then the thumbnail. */
  lemma InputFlagsOfFiles(clips: seq<string>, audio: string, thumbnail: Option<string>)
    ensures InputFlags(InputFiles(clips, audio, thumbnail))
         == InputFlags(clips) + ["-i", audio] + (if Truthy(thumbnail) then ["-i", thumbnail.value] else [])
  {
    InputFlagsSnoc(clips, audio);
    if Truthy(thumbnail) {
      InputFlagsSnoc(clips + [audio], thumbnail.value);
    } else {
      assert InputFiles(clips, audio, thumbnail) == clips + [audio];
    }
  }

  /** One pass of the clip loop: the clip's `-i` pair, then its layer (the first clip is the base,
      every later one is overlaid on `last_output` in its window), which becomes `last_output`. */
  method AddClip(clips: seq<string>, total: real, i: nat, inputs: seq<string>, filters: seq<Filter>,
                 last: Option<Label>)
    returns (inputs': seq<string>, filters': seq<Filter>, last': Option<Label>)
    requires i < |clips|
    requires inputs == InputFlags(clips[..i])
    requires last == if i == 0 then None else Some(Layer(i - 1))
    ensures inputs' == InputFlags(clips[..i + 1])
    ensures filters' == filters + [LayerFilter(i, |clips|, total)]
    ensures last' == Some(Layer(i))
  {
    var n := |clips|;
    InputFlagsSnoc(clips[..i], clips[i]);
    assert clips[..i + 1] == clips[..i] + [clips[i]];
    inputs' := inputs + ["-i", clips[i]];
    if i == 0 {
      filters' := filters + [Base(i, Layer(i))];
    } else {
      filters' := filters + [Overlay(last.value, i, WindowStart(i, n, total), WindowEnd(i, n, total), Layer(i))];
    }
    last' := Some(Layer(i));
  }

  /** The `for i, video in enumerate(background_videos)` loop of `process_video`: each clip adds
      its `-i` pair and its layer, and `last_output` moves to that layer; with no clip it stays
      unbound. */
  method LayerClips(clips: seq<string>, total: real)
    returns (inputs: seq<string>, filters: seq<Filter>, last: Option<Label>)
    ensures inputs == InputFlags(clips)
    ensures clips == [] ==> filters == [] && last.None?
    ensures clips != [] ==> filters == BackgroundChain(|clips|, total) && last == Some(Layer(|clips| - 1))
  {
    var n := |clips|;
    inputs, filters, last := [], [], None;
    var i := 0;
    while i < n
      invariant 0 <= i <= n
      invariant inputs == InputFlags(clips[..i])
      invariant |filters| == i && forall k :: 0 <= k < i ==> filters[k] == LayerFilter(k, n, total)
      invariant last == if i == 0 then None else Some(Layer(i - 1))
    {
      inputs, filters, last := AddClip(clips, total, i, inputs, filters, last);
      i := i + 1;
    }
    assert clips[..i] == clips;
  }

  /** The input and filter building of `process_video`: the clip loop, then the subtitles, the
      audio and the thumbnail. With no clip `last_output` is never bound and the step fails. */
  method BuildCommand(p: Processor, clips: seq<string>, audio: string, ass: Option<string>,
                      thumbnail: Option<string>, hookDuration: real, total: real, audioPath: string)
    returns (r: Option<Command>)
    ensures clips == [] ==> r.None?
    ensures clips != [] ==> r == Some(PlannedCommand(p, clips, audio, ass, thumbnail, hookDuration, total, audioPath))
  {
    var n := |clips|;
    var inputs, filters, last := LayerClips(clips, total);
    if last.None? {
      // `last_output` is unbound: the filter string cannot be formed.
      return None;
    }
    ghost var layers := filters;
    if Truthy(ass) {
      var finalAss := Join(p.workDir, BaseName(ass.value));
      filters := filters + [Burn(last.value, BaseName(finalAss), Subbed)];
      last := Some(Subbed);
    }
    assert filters == Subtitled(p, layers, n, ass);
    assert last.value == BelowThumbnail(n, ass);
    ghost var subbed := filters;
    inputs := inputs + ["-i", audio];
    if Truthy(thumbnail) {
      inputs := inputs + ["-i", thumbnail.value];
      var thumbIndex := n + 1;
      var overlay := OverlayDuration(hookDuration);
      assert overlay - 0.5 == FadeStart(hookDuration);
      filters := filters + [FadeOut(thumbIndex, overlay - 0.5, 0.5, Faded),
                            Center(last.value, Faded, overlay, Top)];
      last := Some(Top);
    }
    assert filters == WithThumbnail(subbed, BelowThumbnail(n, ass), n, thumbnail, hookDuration);
    assert last.value == VideoLabel(n, ass, thumbnail);
    InputFlagsOfFiles(clips, audio, thumbnail);
    assert inputs == InputFlags(InputFiles(clips, audio, thumbnail));
    var duration := if total != 0.0 then Some(total) else None;
    return Some(Command(inputs, filters, last.value, n, duration, OutputPath(p, audioPath)));
  }
}
