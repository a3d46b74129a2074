/** `process_video`: the audio preparation, the subtitle merge and conversion, the background scan,
    the ffmpeg command, the run and the clean-up, with the progress reported along the way. Every
    tool the program calls out to (ffprobe, pydub, pysubs2, the directory listing, the random
    numbers, ffmpeg and the file system) is an input. The clean-up is modelled as written, including
    its deletion of the user's own files; the intended clean-up is stated beside it. */
module Process {
  import opened Common
  import opened Paths
  import opened Subtitles
  import opened Conversion
  import opened Background
  import opened Composition

  /** The outside world of one run. */
  datatype Env = Env(
    probe: string -> Option<real>,            // `get_audio_duration`: ffprobe's duration, or an error
    decodes: string -> bool,                  // pydub can read the file
    load: string -> Option<SubFile>,          // `pysubs2.load` before the run writes anything
    saves: string -> bool,                    // writing this path succeeds (pydub export, pysubs2 save)
    listing: string -> Option<seq<string>>,   // `os.listdir`
    readable: string -> bool,                 // `ffprobe -v error` accepts the clip
    draw: nat -> nat,                         // the numbers `random.shuffle` draws
    present: string -> bool,                  // `os.path.exists` at clean-up time
    encoderOk: bool)                          // the ffmpeg run exits with status 0

  // ---------------------------------------------------------------------------
  // Audio
  // ---------------------------------------------------------------------------

  /** `get_audio_duration(hook_mp3) if hook_mp3 else 0`. */
  function HookDuration(hookMp3: Option<string>, probe: string -> Option<real>): Option<real> {
    if Truthy(hookMp3) then probe(hookMp3.value) else Some(0.0)
  }

  /** `load_audio`'s test: the lower-cased extension is `.mp3` or `.wav` and pydub can read it. */
  predicate AudioLoads(path: string, decodes: string -> bool) {
    Lower(Extension(path)) in {".mp3", ".wav"} && decodes(path)
  }

  /** The audio the video uses: the merged temporary file when there is a hook, the audio itself
      otherwise. */
  function FinalAudio(p: Processor, hookMp3: Option<string>, audioMp3: string): string {
    if Truthy(hookMp3) then TempPath(p, "merged", ".mp3") else audioMp3
  }

  /** `prepare_and_get_duration(hook_mp3, audio_mp3)`: the final audio and its measured duration,
      or `None` when a file cannot be merged, the merged audio cannot be exported, or the final
      audio cannot be measured. */
  function PreparedAudio(p: Processor, hookMp3: Option<string>, audioMp3: string, env: Env): (r: Option<(string, real)>)
    ensures r.Some? ==> r.value.0 == FinalAudio(p, hookMp3, audioMp3) && env.probe(r.value.0) == Some(r.value.1)
    ensures Truthy(hookMp3) ==>
      (r.Some? <==> AudioLoads(hookMp3.value, env.decodes) && AudioLoads(audioMp3, env.decodes)
                    && env.saves(TempPath(p, "merged", ".mp3")) && env.probe(TempPath(p, "merged", ".mp3")).Some?)
    ensures !Truthy(hookMp3) ==> (r.Some? <==> env.probe(audioMp3).Some?)
  {
    var finalAudio := FinalAudio(p, hookMp3, audioMp3);
    if Truthy(hookMp3) && !(AudioLoads(hookMp3.value, env.decodes) && AudioLoads(audioMp3, env.decodes)
                            && env.saves(finalAudio)) then None
    else match env.probe(finalAudio)
      case None => None
      case Some(d) => Some((finalAudio, d))
  }

  /** Without a hook the audio is used as it is: its format is never checked, only measured. */
  lemma AudioFormatCheckedOnlyWhenMerging(p: Processor, audioMp3: string, env: Env)
    requires env.probe(audioMp3).Some?
    ensures PreparedAudio(p, None, audioMp3, env) == Some((audioMp3, env.probe(audioMp3).value))
  {
  }

  // ---------------------------------------------------------------------------
  // Subtitles
  // ---------------------------------------------------------------------------

  /** The `srt_files` list: the hook's SRT at offset 0, then the audio's SRT moved by the hook's
      duration, each only when given. */
  function SrtSources(hookSrt: Option<string>, audioSrt: string, hookDuration: real): (r: seq<(string, real)>)
    ensures |r| == (if Truthy(hookSrt) then 1 else 0) + (if audioSrt != [] then 1 else 0)
    ensures forall k :: 0 <= k < |r| ==> r[k].0 != []
  {
    (if Truthy(hookSrt) then [(hookSrt.value, 0.0)] else [])
      + (if audioSrt != [] then [(audioSrt, hookDuration)] else [])
  }

  /** The outcome `merge_srt_files` promises for these sources. */
  function MergeResult(p: Processor, sources: seq<(string, real)>, load: string -> Option<SubFile>,
                       saves: string -> bool): SrtMerge {
    if sources == [] then NoSubtitles
    else if |sources| == 1 && sources[0].1 == 0.0 then SameFile(sources[0].0)
    else if !AllLoad(SourcePaths(sources), load) || Timeline(sources, load) == [] || !saves(TempPath(p, "merged", ".srt"))
    then NoSubtitles
    else MergedFile(TempPath(p, "merged", ".srt"), SortByStart(Timeline(sources, load)))
  }

  /** What the conversion reads: a merged file reads back as exactly the merged cues, with no style
      of its own; any other path is read as it was. */
  function Reloaded(m: SrtMerge, load: string -> Option<SubFile>): string -> Option<SubFile> {
    if m.MergedFile? then (q => if q == m.path then Some(SubFile(m.events, [])) else load(q)) else load
  }

  /** The subtitle step: `Some(None)` when neither SRT is given, `Some(Some(ass))` with the ASS file
      the video burns in, `None` when the merge or the conversion fails. */
  function SubtitleStep(p: Processor, hookSrt: Option<string>, audioSrt: string, hookDuration: real,
                        settings: Option<Attributes>, load: string -> Option<SubFile>, saves: string -> bool)
    : Option<Option<string>>
  {
    if !(Truthy(hookSrt) || audioSrt != []) then Some(None)
    else
      var m := MergeResult(p, SrtSources(hookSrt, audioSrt, hookDuration), load, saves);
      if m.NoSubtitles? then None
      else if m.path != [] && Reloaded(m, load)(m.path).Some? && ProjectedStyle(settings, ParseInt).Some?
              && saves(TempPath(p, Stem(m.path), ".ass"))
      then Some(Some(TempPath(p, Stem(m.path), ".ass")))
      else None
  }

  /** With a single SRT for the audio and no hook, the SRT is converted where it is, and the ASS file
      is named after it. */
  lemma SingleSrtConvertedInPlace(p: Processor, audioSrt: string, settings: Option<Attributes>,
                                  load: string -> Option<SubFile>, saves: string -> bool)
    requires audioSrt != [] && load(audioSrt).Some? && ProjectedStyle(settings, ParseInt).Some?
    requires saves(TempPath(p, Stem(audioSrt), ".ass"))
    ensures SubtitleStep(p, None, audioSrt, 0.0, settings, load, saves) == Some(Some(TempPath(p, Stem(audioSrt), ".ass")))
    ensures MergedSrt(p, None, audioSrt, 0.0, load, saves) == Some(audioSrt)
  {
    assert SrtSources(None, audioSrt, 0.0) == [(audioSrt, 0.0)];
    assert MergeResult(p, [(audioSrt, 0.0)], load, saves) == SameFile(audioSrt);
  }

  /** Whether the subtitle step writes a merged SRT of its own. */
  predicate SrtWritten(p: Processor, hookSrt: Option<string>, audioSrt: string, hookDuration: real,
                       load: string -> Option<SubFile>, saves: string -> bool) {
    (Truthy(hookSrt) || audioSrt != []) && MergeResult(p, SrtSources(hookSrt, audioSrt, hookDuration), load, saves).MergedFile?
  }

  /** The `merged_srt` variable the clean-up sees: unset when no SRT is given, otherwise the path
      the merge returned, which is the input SRT itself when it was handed back unread. */
  function MergedSrt(p: Processor, hookSrt: Option<string>, audioSrt: string, hookDuration: real,
                     load: string -> Option<SubFile>, saves: string -> bool): (r: Option<string>)
    ensures r.Some? && SrtWritten(p, hookSrt, audioSrt, hookDuration, load, saves) ==> r.value == TempPath(p, "merged", ".srt")
    ensures r.Some? && !SrtWritten(p, hookSrt, audioSrt, hookDuration, load, saves) ==>
      r.value in SourcePaths(SrtSources(hookSrt, audioSrt, hookDuration))
  {
    if !(Truthy(hookSrt) || audioSrt != []) then None
    else
      var m := MergeResult(p, SrtSources(hookSrt, audioSrt, hookDuration), load, saves);
      if m.NoSubtitles? then None else Some(m.path)
  }

  /** `convert_srt_to_ass(merged_srt, 0)` on what the merge gave: the path of the ASS file, or
      `None` where the conversion raises. */
  method ConvertMerged(p: Processor, merge: SrtMerge, settings: Option<Attributes>, load: string -> Option<SubFile>,
                       saves: string -> bool)
    returns (r: Option<string>)
    requires !merge.NoSubtitles?
    ensures r.Some? <==> merge.path != [] && Reloaded(merge, load)(merge.path).Some? && ProjectedStyle(settings, ParseInt).Some?
                         && saves(TempPath(p, Stem(merge.path), ".ass"))
    ensures r.Some? ==> r.value == TempPath(p, Stem(merge.path), ".ass")
  {
    var converted := ConvertSrtToAss(p, merge.path, 0.0, settings, Reloaded(merge, load), saves);
    if converted.None? {
      return None;
    }
    return Some(converted.value.path);
  }

  /** The subtitle block of `process_video`: the `srt_files` list, the merge and the conversion of
      the merged file without offset. `ok` is false where the block raises. */
  method PrepareSubtitles(p: Processor, hookSrt: Option<string>, audioSrt: string, hookDuration: real,
                          settings: Option<Attributes>, load: string -> Option<SubFile>, saves: string -> bool)
    returns (ok: bool, mergedAss: Option<string>, mergedSrt: Option<string>)
    ensures ok <==> SubtitleStep(p, hookSrt, audioSrt, hookDuration, settings, load, saves).Some?
    ensures ok ==> mergedAss == SubtitleStep(p, hookSrt, audioSrt, hookDuration, settings, load, saves).value
    ensures ok ==> mergedSrt == MergedSrt(p, hookSrt, audioSrt, hookDuration, load, saves)
  {
    ok, mergedAss, mergedSrt := true, None, None;
    if Truthy(hookSrt) || audioSrt != [] {
      var srtFiles: seq<(string, real)> := [];
      if Truthy(hookSrt) {
        srtFiles := srtFiles + [(hookSrt.value, 0.0)];
      }
      if audioSrt != [] {
        srtFiles := srtFiles + [(audioSrt, hookDuration)];
      }
      assert srtFiles == SrtSources(hookSrt, audioSrt, hookDuration);
      var merge := MergeSrtFiles(p, srtFiles, load, saves);
      assert merge == MergeResult(p, srtFiles, load, saves);
      if merge.NoSubtitles? {
        return false, None, None;
      }
      mergedSrt := Some(merge.path);
      var converted := ConvertMerged(p, merge, settings, load, saves);
      if converted.None? {
        return false, None, None;
      }
      mergedAss := converted;
    }
  }

  // ---------------------------------------------------------------------------
  // Clean-up
  // ---------------------------------------------------------------------------

  /** The clean-up as written: the final audio, the ASS file and the SRT the merge returned, in that
      order, each when set and still present (a file removed a moment before is no longer there), so
      without a hook the input audio goes, and with one unshifted SRT that input SRT goes. */
  function RemovedAsWritten(finalAudio: string, mergedAss: Option<string>, mergedSrt: Option<string>,
                            present: string -> bool): seq<string> {
    var audio := if finalAudio != [] && present(finalAudio) then [finalAudio] else [];
    var ass := if Truthy(mergedAss) && present(mergedAss.value) && mergedAss.value !in audio then [mergedAss.value] else [];
    audio + ass
      + (if Truthy(mergedSrt) && present(mergedSrt.value) && mergedSrt.value !in audio + ass then [mergedSrt.value] else [])
  }

  /** The run's own files, which the clean-up is meant to remove: the merged audio when there was a
      hook, the ASS file, and the merged SRT when the merge wrote one. */
  function RemovedTemporaries(p: Processor, audioMerged: bool, mergedAss: Option<string>, srtMerged: bool,
                              present: string -> bool): seq<string> {
    var audio := TempPath(p, "merged", ".mp3");
    var srt := TempPath(p, "merged", ".srt");
    (if audioMerged && present(audio) then [audio] else [])
      + (if mergedAss.Some? && present(mergedAss.value) then [mergedAss.value] else [])
      + (if srtMerged && present(srt) then [srt] else [])
  }

  /** `x` lies directly in the temporary directory. */
  predicate InTempDir(p: Processor, x: string) {
    x == Join(TempDir(p), BaseName(x))
  }

  lemma TempPathInTempDir(p: Processor, prefix: string, suffix: string)
    requires '/' !in prefix && '/' !in suffix
    ensures InTempDir(p, TempPath(p, prefix, suffix))
  {
    TempPathName(p, prefix, suffix);
  }

  /** Without a hook the final audio is the input audio, and with one unshifted SRT the merge hands
      back the input SRT: whatever the ASS file, the clean-up as written deletes both of the user's
      files. */
  lemma CleanupDeletesInputs(p: Processor, audioMp3: string, audioSrt: string, ass: Option<string>,
                             load: string -> Option<SubFile>, saves: string -> bool, present: string -> bool)
    requires audioMp3 != [] && audioSrt != [] && present(audioMp3) && present(audioSrt)
    ensures MergedSrt(p, None, audioSrt, 0.0, load, saves) == Some(audioSrt)
    ensures audioMp3 in RemovedAsWritten(FinalAudio(p, None, audioMp3), ass, MergedSrt(p, None, audioSrt, 0.0, load, saves), present)
    ensures audioSrt in RemovedAsWritten(FinalAudio(p, None, audioMp3), ass, MergedSrt(p, None, audioSrt, 0.0, load, saves), present)
  {
    assert SrtSources(None, audioSrt, 0.0) == [(audioSrt, 0.0)];
  }

  /** Files picked from three paths of the temporary directory lie there too. */
  lemma PickedInTempDir(p: Processor, a: seq<string>, b: seq<string>, c: seq<string>, x: string, y: string, z: string)
    requires InTempDir(p, x) && InTempDir(p, y) && InTempDir(p, z)
    requires a == [] || a == [x]
    requires b == [] || b == [y]
    requires c == [] || c == [z]
    ensures forall w :: w in a + b + c ==> InTempDir(p, w)
  {
  }

  /** The merged audio, the merged SRT and the ASS file all lie in the temporary directory. */
  lemma RunFilesInTempDir(p: Processor, assSource: string)
    ensures InTempDir(p, TempPath(p, "merged", ".mp3")) && InTempDir(p, TempPath(p, "merged", ".srt"))
    ensures InTempDir(p, TempPath(p, Stem(assSource), ".ass"))
  {
    TempPathInTempDir(p, "merged", ".mp3");
    TempPathInTempDir(p, "merged", ".srt");
    StemFlat(assSource);
    TempPathInTempDir(p, Stem(assSource), ".ass");
  }

  /** The corrected clean-up removes only files of the run's temporary directory. */
  lemma CleanupRemovesOnlyTemporaries(p: Processor, audioMerged: bool, assSource: string, srtMerged: bool,
                                      present: string -> bool)
    ensures forall x :: (x in RemovedTemporaries(p, audioMerged, Some(TempPath(p, Stem(assSource), ".ass")), srtMerged, present)
      ==> InTempDir(p, x))
  {
    var audio, srt := TempPath(p, "merged", ".mp3"), TempPath(p, "merged", ".srt");
    var ass := TempPath(p, Stem(assSource), ".ass");
    RunFilesInTempDir(p, assSource);
    PickedInTempDir(p, if audioMerged && present(audio) then [audio] else [],
                    if present(ass) then [ass] else [],
                    if srtMerged && present(srt) then [srt] else [], audio, ass, srt);
  }

  /** With a hook and no SRT other than the run's own merge, the clean-up as written is the intended
      one: the deletions of the user's files need a run without a hook or with a lone unshifted SRT. */
  lemma CleanupAsWrittenWithHookAndMerge(p: Processor, assStem: Option<string>, srtMerged: bool,
                                         present: string -> bool)
    ensures var ass := if assStem.Some? then Some(TempPath(p, assStem.value, ".ass")) else None;
      RemovedAsWritten(TempPath(p, "merged", ".mp3"), ass,
                       if srtMerged then Some(TempPath(p, "merged", ".srt")) else None, present)
      == RemovedTemporaries(p, true, ass, srtMerged, present)
  {
    var audio, srt := TempPath(p, "merged", ".mp3"), TempPath(p, "merged", ".srt");
    TempPathLast(p, "merged", ".mp3");
    TempPathLast(p, "merged", ".srt");
    if assStem.Some? {
      TempPathLast(p, assStem.value, ".ass");
    }
  }

  // ---------------------------------------------------------------------------
  // process_video
  // ---------------------------------------------------------------------------

  /** The progress values the callback receives, in order; the background step reports 20 after
      the subtitle step's 30. */
  const Stages: seq<int> := [10, 30, 20, 40, 100]

  /** How many stages a run reports: it stops at the first step that fails (the audio, the
      subtitles, the backgrounds, the ffmpeg run) and reports every stage before it. */
  function Reached(p: Processor, hookMp3: Option<string>, audioMp3: string, hookSrt: Option<string>,
                   audioSrt: string, videoFolder: string, settings: Option<Attributes>, env: Env): (n: nat)
    ensures 1 <= n <= |Stages|
  {
    var hook := HookDuration(hookMp3, env.probe);
    if hook.None? || PreparedAudio(p, hookMp3, audioMp3, env).None? then 1
    else SubtitlesReached(p, hookSrt, audioSrt, hook.value, videoFolder, settings, env)
  }

  /** The stage a run reaches once the audio is ready: 2 when the subtitle step fails, otherwise
      the stage the rendering part reaches. */
  function SubtitlesReached(p: Processor, hookSrt: Option<string>, audioSrt: string, hookDuration: real,
                            videoFolder: string, settings: Option<Attributes>, env: Env): (n: nat)
    ensures 2 <= n <= |Stages|
  {
    if SubtitleStep(p, hookSrt, audioSrt, hookDuration, settings, env.load, env.saves).None? then 2
    else RenderReached(videoFolder, env)
  }

  /** The stage the rendering part reaches: 3 without clips, 4 when ffmpeg fails, 5 otherwise. */
  function RenderReached(videoFolder: string, env: Env): (n: nat)
    ensures 3 <= n <= |Stages|
  {
    if env.listing(videoFolder).None? || ReadableVideos(videoFolder, env.listing(videoFolder).value, env.readable) == [] then 3
    else if !env.encoderOk then 4
    else 5
  }

  /** The clips of the folder in the order the run uses them. */
  function BackgroundClips(videoFolder: string, env: Env): seq<string>
    requires env.listing(videoFolder).Some?
  {
    Shuffled(ReadableVideos(videoFolder, env.listing(videoFolder).value, env.readable), env.draw)
  }

  /** The part of `process_video` once the clips are known: the command, the ffmpeg run and, when
      it succeeds, the clean-up as written. `later` is what the callback receives meanwhile. */
  method Encode(p: Processor, clips: seq<string>, audioMp3: string, finalAudio: string,
                totalDuration: real, hookDuration: real, mergedAss: Option<string>, mergedSrt: Option<string>,
                thumbnail: Option<string>, env: Env)
    returns (r: Option<string>, later: seq<int>, command: Option<Command>, removed: seq<string>)
    requires clips != []
    ensures later == if env.encoderOk then [40, 100] else [40]
    ensures r.Some? <==> env.encoderOk
    ensures r.None? ==> removed == []
    ensures command == Some(PlannedCommand(p, clips, finalAudio, mergedAss, thumbnail, hookDuration, totalDuration, audioMp3))
    ensures r.Some? ==>
      r.value == OutputPath(p, audioMp3) && removed == RemovedAsWritten(finalAudio, mergedAss, mergedSrt, env.present)
  {
    r, later, removed := None, [40], [];
    command := BuildCommand(p, clips, finalAudio, mergedAss, thumbnail, hookDuration, totalDuration, audioMp3);
    if !env.encoderOk {
      return;
    }
    removed := RemovedAsWritten(finalAudio, mergedAss, mergedSrt, env.present);
    later := later + [100];
    r := Some(OutputPath(p, audioMp3));
  }

  /** A folder whose scan keeps a clip hands the run at least one. */
  lemma BackgroundClipsFound(videoFolder: string, env: Env)
    requires env.listing(videoFolder).Some?
    requires ReadableVideos(videoFolder, env.listing(videoFolder).value, env.readable) != []
    ensures BackgroundClips(videoFolder, env) != []
  {
    var found := ReadableVideos(videoFolder, env.listing(videoFolder).value, env.readable);
    ShuffleFromPermutes(found, |found| - 1, env.draw);
  }

  /** The rest of `process_video` once audio and subtitles are ready: the background clips, the
      command, the ffmpeg run and the clean-up as written. `later` is what the callback receives
      meanwhile. */
  method Render(p: Processor, audioMp3: string, finalAudio: string, totalDuration: real,
                hookDuration: real, mergedAss: Option<string>, mergedSrt: Option<string>, thumbnail: Option<string>,
                videoFolder: string, env: Env)
    returns (r: Option<string>, later: seq<int>, command: Option<Command>, removed: seq<string>)
    ensures later == Stages[2..RenderReached(videoFolder, env)]
    ensures r.Some? <==> RenderReached(videoFolder, env) == 5
    ensures r.None? ==> removed == []
    ensures r.Some? ==>
      && BackgroundClips(videoFolder, env) != []
      && r.value == OutputPath(p, audioMp3)
      && command == Some(PlannedCommand(p, BackgroundClips(videoFolder, env), finalAudio, mergedAss, thumbnail,
                                        hookDuration, totalDuration, audioMp3))
      && removed == RemovedAsWritten(finalAudio, mergedAss, mergedSrt, env.present)
  {
    StageSlices();
    var listing := env.listing(videoFolder);
    var backgrounds := PrepareBackgroundVideos(videoFolder, totalDuration, listing, env.readable, env.draw);
    assert RenderReached(videoFolder, env) == if backgrounds.None? then 3 else if env.encoderOk then 5 else 4;
    if backgrounds.None? {
      return None, [20], None, [];
    }
    BackgroundClipsFound(videoFolder, env);
    var rest;
    r, rest, command, removed := Encode(p, backgrounds.value, audioMp3, finalAudio, totalDuration,
                                        hookDuration, mergedAss, mergedSrt, thumbnail, env);
    later := [20] + rest;
  }

  /** The audio block of `process_video`: the hook's duration (0 without a hook), then the final
      audio and its duration. `ok` is false where the block raises. */
  method PrepareAudio(p: Processor, hookMp3: Option<string>, audioMp3: string, env: Env)
    returns (ok: bool, hookDuration: real, finalAudio: string, totalDuration: real)
    ensures ok <==> HookDuration(hookMp3, env.probe).Some? && PreparedAudio(p, hookMp3, audioMp3, env).Some?
    ensures ok ==> HookDuration(hookMp3, env.probe) == Some(hookDuration)
    ensures ok ==> PreparedAudio(p, hookMp3, audioMp3, env) == Some((finalAudio, totalDuration))
  {
    ok, hookDuration, finalAudio, totalDuration := false, 0.0, [], 0.0;
    if Truthy(hookMp3) {
      var d := env.probe(hookMp3.value);
      if d.None? {
        return;
      }
      hookDuration := d.value;
    }
    var prepared := PreparedAudio(p, hookMp3, audioMp3, env);
    if prepared.None? {
      return;
    }
    ok, finalAudio, totalDuration := true, prepared.value.0, prepared.value.1;
  }

  lemma StageSlices()
    ensures Stages[2..3] == [20] && Stages[2..4] == [20, 40] && Stages[2..5] == [20, 40, 100]
  {
  }

  lemma StagePrefixes()
    ensures Stages[..1] == [10] && Stages[..2] == [10, 30]
    ensures forall k :: 2 <= k <= |Stages| ==> Stages[..2] + Stages[2..k] == Stages[..k]
  {
  }

  /** The part of `process_video` after the audio block: the subtitle block, then the rest of the
      run when it succeeds. `later` is what the callback receives after the 30 of the subtitle step. */
  method SubtitlesAndRender(p: Processor, audioMp3: string, hookSrt: Option<string>, audioSrt: string,
                            thumbnail: Option<string>, videoFolder: string, settings: Option<Attributes>, env: Env,
                            hookDuration: real, finalAudio: string, totalDuration: real)
    returns (r: Option<string>, later: seq<int>, command: Option<Command>, removed: seq<string>)
    ensures later == Stages[2..SubtitlesReached(p, hookSrt, audioSrt, hookDuration, videoFolder, settings, env)]
    ensures r.Some? <==> SubtitlesReached(p, hookSrt, audioSrt, hookDuration, videoFolder, settings, env) == 5
    ensures r.None? ==> removed == []
    ensures r.Some? ==>
      var ass := SubtitleStep(p, hookSrt, audioSrt, hookDuration, settings, env.load, env.saves).value;
      && BackgroundClips(videoFolder, env) != []
      && r.value == OutputPath(p, audioMp3)
      && command == Some(PlannedCommand(p, BackgroundClips(videoFolder, env), finalAudio, ass, thumbnail,
                                        hookDuration, totalDuration, audioMp3))
      && removed == RemovedAsWritten(finalAudio, ass, MergedSrt(p, hookSrt, audioSrt, hookDuration, env.load, env.saves),
                                     env.present)
  {
    var ok, mergedAss, mergedSrt := PrepareSubtitles(p, hookSrt, audioSrt, hookDuration, settings, env.load, env.saves);
    if !ok {
      return None, [], None, [];
    }
    r, later, command, removed := Render(p, audioMp3, finalAudio, totalDuration, hookDuration,
                                         mergedAss, mergedSrt, thumbnail, videoFolder, env);
  }

  /** `process_video(...)`. The result is the output path or `None` (any exception); `progress`
      lists the callback values reported, `command` the ffmpeg command once it is built, `removed`
      the files the clean-up deletes. A run that succeeds reports every stage, runs the planned
      command on the shuffled clips, the prepared audio and the converted subtitles, names its
      output after the audio and removes the final audio, the ASS file and the SRT the merge
      returned, whichever of them are set and present: without a hook that includes the input
      audio, and with a lone unshifted SRT the input SRT. */
  method ProcessVideo(p: Processor, hookMp3: Option<string>, audioMp3: string, hookSrt: Option<string>,
                      audioSrt: string, thumbnail: Option<string>, videoFolder: string,
                      settings: Option<Attributes>, env: Env)
    returns (r: Option<string>, progress: seq<int>, command: Option<Command>, removed: seq<string>)
    ensures progress == Stages[..Reached(p, hookMp3, audioMp3, hookSrt, audioSrt, videoFolder, settings, env)]
    ensures r.Some? <==> progress == Stages
    ensures r.None? ==> removed == []
    ensures r.Some? ==>
      var hook := HookDuration(hookMp3, env.probe).value;
      var audio := PreparedAudio(p, hookMp3, audioMp3, env).value;
      var ass := SubtitleStep(p, hookSrt, audioSrt, hook, settings, env.load, env.saves).value;
      && BackgroundClips(videoFolder, env) != []
      && r.value == OutputPath(p, audioMp3)
      && command == Some(PlannedCommand(p, BackgroundClips(videoFolder, env), audio.0, ass, thumbnail, hook, audio.1, audioMp3))
      && removed == RemovedAsWritten(audio.0, ass, MergedSrt(p, hookSrt, audioSrt, hook, env.load, env.saves), env.present)
  {
    r, progress, command, removed := None, [10], None, [];
    StagePrefixes();
    var audioOk, hookDuration, finalAudio, totalDuration := PrepareAudio(p, hookMp3, audioMp3, env);
    if !audioOk {
      return;
    }

    var later;
    r, later, command, removed := SubtitlesAndRender(p, audioMp3, hookSrt, audioSrt, thumbnail, videoFolder, settings,
                                                     env, hookDuration, finalAudio, totalDuration);
    progress := progress + [30] + later;
  }
}
