# VideoMakerGui: a verified model of the assembly pipeline

VideoMakerGui builds a short vertical video from:

- an optional "hook" audio clip, followed by the main audio clip;
- their SRT subtitle files;
- an optional thumbnail image;
- a folder of background clips.

The program itself only does bookkeeping; the external tools do the media work. This project models that bookkeeping in Dafny and proves what it promises:

- **Audio.** `prepare_and_get_duration` picks the final audio and measures it.
- **Subtitle timelines.** `merge_srt_files` applies a millisecond offset to each source and stably sorts all cues by start. `merge_ass_files` adopts styles with renaming.
- **Conversion to ASS.** `convert_srt_to_ass` starts from a fixed default style and projects the subtitle settings onto it through a field table. It cleans each cue's text with the `'}{'` removal loop and `strip('{}')`, then adds an `{\anN}` tag.
- **Background clips.** `prepare_background_videos` scans the folder and shuffles the clips it keeps.
- **The ffmpeg command.** It covers:
  - the input numbering (clips, then audio, then thumbnail);
  - the filter graph: layer windows `i*T/n .. (i+1)*T/n`, the burnt-in subtitles, and the thumbnail fade with its enable window of `get_overlay_duration`;
  - the stream mapping and the output name.
- **The run.** `process_video` reports progress, stops at the first failing step, and cleans up. The clean-up is modelled as it is written, including its deletion of the user's own audio and SRT files; see "## Findings".
- **Batch matching.** `find_matching_files` and `get_base_names` match a base name's files in the input folder, ignoring case. The default batch settings are modelled too.
- **Presets.** The `SubtitleSettings` defaults and the `SubtitlePresetManager` store, whose "Default" preset is never deleted.
- **Fonts.** The font-name filter of `get_system_fonts`.
- **Colours.** The RGB to `&HBBGGRR&` colour conversion of the colour picker.

Every tool the program calls out to is a parameter of the model. That covers ffprobe, pydub decoding, pysubs2 loading, whether writing a file succeeds (pydub's export and pysubs2's save), the directory listing, the random draws of `random.shuffle`, `os.path.exists` and the ffmpeg exit status.

The project is organised by module:

| module | file | what it holds |
|---|---|---|
| `Common` | common.dfy | Python runtime pieces the code relies on: `Option`, `str.lower`, `startswith`/`endswith`/`in`, `str(int)`, `int(str)`, string order, `sorted(set(...))`, generic list helpers |
| `Paths` | paths.dfy | `os.path.join`, `basename`, `splitext` and `get_temp_path` |
| `Subtitles` | subtitles.dfy | cues and styles, the offset shift, the stable sort, `merge_srt_files`, `merge_ass_files` |
| `Presets` | presets.dfy | `SubtitleSettings`, `SubtitlePresetManager` as a class, the Delete button's guard |
| `Conversion` | conversion.dfy | `convert_srt_to_ass`: style projection, text cleaning, alignment tag, offset |
| `Background` | background.dfy | `prepare_background_videos`, with the shuffle done in place on an array |
| `Composition` | composition.dfy | the filter graph as values, input numbering, the command, `get_overlay_duration` |
| `Process` | process.dfy | `process_video`: audio, subtitles, backgrounds, command, clean-up, progress |
| `Batch` | batch.dfy | default batch settings, `find_matching_files`, `get_base_names` |
| `Fonts` | fonts.dfy | `get_system_fonts` |
| `Colors` | colors.dfy | the `&HBBGGRR&` colour string |

The modelled code mutates state in three ways, and the model keeps each form:

- Loops that grow or rewrite lists are `method`s with `while` loops, proved against specification functions. Examples: the cue shift, the style-retarget loop, the clip loop of the command, the file-matching loop, the font filter loop and the `'}{'` loop.
- The in-place `random.shuffle` works on an `array`.
- The preset store, whose dictionary the methods update, is a `class`.

Pure computations are functions. Examples: `get_temp_path`, `get_overlay_duration` and the shape of the filter graph.

Three behaviours of the code are easy to mistake, and the model states them as written:

- Background selection does not accumulate clips until their durations cover the audio. It keeps every readable `.mp4`/`.mkv` clip and shuffles them; `duration` is unused.
- Progress is not monotone: the callback receives 10, 30, 20, 40, 100. The clean-up runs only after a successful encode. Any failure returns `None` and removes nothing.
- Cleaning a cue's text does not remove every tag. `{\an2}{\an2}hello` at alignment 5 becomes `{\an5}\an2\an2}hello`.

Python semantics are followed where they matter:

- `int(offset * 1000)` truncates toward zero.
- `int(str(v))` accepts surrounding ASCII white space, a sign and single underscores between ASCII digits. It raises otherwise.
- `if merged_subs:` on a pysubs2 file is false when the file has no events, so an all-empty merge returns `None`.
- `if hook_mp3:` and similar tests treat `""` like `None`.

## Model

| member | source | states |
|---|---|---|
| Common.ParseIntOfIntToString | video_processor.py:188 | `int(str(n))` gives back every integer `n`, negative ones included |
| Common.SortedUnique | batch_settings.py:107 | `sorted(list(set(xs)))` is strictly ascending and holds exactly the elements of `xs` |
| Common.StrictlySortedUnique | font_utils.py:10 | two strictly ascending lists with the same elements are equal, so `sorted(set(xs))` is canonical |
| Common.InsertUnique | batch_settings.py:105 | adding a name to an ascending duplicate-free list keeps it ascending and duplicate-free, and adds exactly that name |
| Common.PickedMembers | video_processor.py:305-313 | an element is kept by a filtering loop iff some input element yields it |
| Common.LastPickedWins | batch_settings.py:65-86 | a slot overwritten in a loop ends empty iff no element fills it, and otherwise holds the last element that does |
| Common.DigitsValueOfNatToString | video_processor.py:37 | the decimal rendering of the timestamp reads back as the timestamp |
| Paths.BaseName | video_processor.py:222 | `os.path.basename` has no '/', is a suffix of the path, and starts right after a '/' or at the start |
| Paths.BaseNameOfJoin | video_processor.py:408 | the base name of `join(dir, name)` is `name` for a plain file name |
| Paths.JoinInjective | video_processor.py:37 | `join(dir, x)` determines `x` when both candidates agree on being absolute |
| Paths.RootOfExtension | video_processor.py:222 | `splitext` of `stem.ext` gives back `stem` |
| Paths.RootAndSuffix | video_processor.py:48 | `splitext` splits a name into root and extension and loses nothing |
| Paths.TempPathName | video_processor.py:30-37 | a temporary path's file name is `<prefix>_<timestamp><suffix>` |
| Paths.TempPathCollision | video_processor.py:19-37 | two runs in one working directory get the same temporary path for a prefix iff their timestamps and suffixes agree |
| Subtitles.OffsetTruncates | video_processor.py:99 | `int(offset*1000)` truncates: 10.534 s is 10534 ms and 10.9999 s is 10999 ms |
| Subtitles.ShiftCues | video_processor.py:98-104 | each cue's start and end move by exactly the offset; duration, text and style are unchanged |
| Subtitles.WithOffset | video_processor.py:98-103 | a source with positive offset starts every cue `int(offset*1000)` ms later and keeps its duration, text and style; any other source is untouched |
| Subtitles.SortByStartSorted | video_processor.py:116 | after `events.sort(key=start)` the starts are non-decreasing |
| Subtitles.SortByStartPermutes | video_processor.py:116 | the sort is a permutation of its input |
| Subtitles.SortByStartStable | video_processor.py:116 | cues with equal starts keep their relative order |
| Subtitles.SortedByStartUnique | video_processor.py:116 | a sorted list is determined by its cues per start time |
| Subtitles.SortByStartIdempotent | video_processor.py:116 | sorting twice is sorting once, and a sorted list is left as it is |
| Subtitles.AddSource | video_processor.py:93-109 | one pass loads a source (failing iff it does not load), shifts it and appends it to the merged cues |
| Subtitles.LoadTimeline | video_processor.py:92-112 | the loading loop succeeds iff every source loads, and then yields every source's shifted cues in source order; any failure gives no partial merge |
| Subtitles.MergeSrtFiles | video_processor.py:75-128 | no sources ⇒ `None`; one source at offset 0 ⇒ its own path; otherwise, if a source fails to load, there are no cues or the save fails ⇒ `None`; else the temporary `merged` `.srt` holding the stable sort of all shifted cues |
| Subtitles.RetargetStyle | video_processor.py:271-273 | events that used the old style name use the new one; nothing else changes |
| Subtitles.Retargeted | video_processor.py:271-273 | timings and texts are kept, each style is the old one or the new name, events on other styles are unchanged, and when the names differ no event is left on the old style |
| Subtitles.AdoptStylesLoop | video_processor.py:266-273 | the style loop adds each style name the merged file lacks as `name_i` and retargets that file's events, one item after another |
| Subtitles.MergeAssFiles | video_processor.py:233-290 | no files ⇒ `None`; one file ⇒ its own path; a load failure or a failed save ⇒ `None`; otherwise the styles and events of each later file are adopted in order into the first and sorted by start into the temporary `merged` `.ass` |
| Subtitles.AdoptKeepsTimings | video_processor.py:264-276 | adopting a file's styles changes only style names of its events and never removes a style |
| Subtitles.MergeKeepsTimings | video_processor.py:264-276 | the merged event list is the base events followed by every later file's events in file order, up to style names |
| Subtitles.TimingsOfSort | video_processor.py:279 | the sort looks at starts only, so it commutes with renaming styles |
| Subtitles.MergedAssProperties | video_processor.py:260-279 | the merged ASS events are the stable sort of all files' events in file order, changed in style names only; every base style survives; and if each file's events name its own styles, every merged event names a merged style |
| Subtitles.RenamedStyleOverwritesBase | video_processor.py:266-269 | a concrete merge where a renamed style `A_1` replaces the base's own `A_1` |
| Presets.DefaultSettingsFields | subtitle_settings.py:8-19 | the default preset is named "Default", has alignment "2", and its size and shadow read as 48 and 0 |
| Presets.KeyList | subtitle_settings.py:67-68 | the key list follows the items in order, holds exactly the keys of the object, and each once when the keys are distinct |
| Presets.PresetManager.constructor | subtitle_settings.py:22-43 | a missing or unreadable presets file gives exactly `{"Default": SubtitleSettings()}`; otherwise the decoded presets in file order |
| Presets.PresetManager.AddPreset | subtitle_settings.py:55-57 | stores the settings under their own name, overwriting any preset of that name, "Default" included; every other preset is kept; "Default" is never lost |
| Presets.PresetManager.GetPreset | subtitle_settings.py:59-60 | the stored settings iff the name is a key, `None` otherwise |
| Presets.PresetManager.DeletePreset | subtitle_settings.py:62-65 | removes exactly the name when it is a key other than "Default"; "Default" and absent names leave the store unchanged |
| Presets.PresetManager.GetPresetNames | subtitle_settings.py:67-68 | every preset name exactly once |
| Presets.DeleteSelectedPreset | gui.py:343-352 | a selected "Default" only reports an error and never reaches the store; once confirmed, another name is removed from the store and the key order when present, the store and order are unchanged when it is absent, and the selection returns to "Default" |
| Conversion.ProjectedStyle | video_processor.py:151-192 | without settings the default style; with settings the conversion fails iff a present numeric field is not an integer; `marginl == marginr` always, and bold and italic stay 0 |
| Conversion.FieldTableProjects | video_processor.py:170-192 | running the ten rows of the field table over the default style in order gives the projected style |
| Conversion.ApplyNumericRows | video_processor.py:176-192 | each numeric row either fails the whole table or puts its parsed value in place, and `margin_h` sets both side margins |
| Conversion.ApplyRow | video_processor.py:185-192 | one row: an absent attribute keeps the style; a present text attribute sets its field; a numeric one must parse, and `margin_h` also sets `marginr` |
| Conversion.ProjectStyle | video_processor.py:167-192 | the `setattr` loop over the field table computes the projected style, or the ValueError |
| Conversion.DefaultPresetProjects | video_processor.py:168-192 | settings holding the default preset's values project to Arial 48, outline 2, shadow 0, alignment 2, margins 20 |
| Conversion.DefaultPresetStyle | subtitle_settings.py:8-19 | the default preset replaces every field of the built-in style except bold and italic |
| Conversion.ContainsPair | video_processor.py:204 | `'}{' in text` holds iff some position holds `}` followed by `{` |
| Conversion.RemovePairs | video_processor.py:205 | `replace('}{', '')` removes braces only, as many `{` as `}`, and shortens every text that contains a pair |
| Conversion.CleanedText | video_processor.py:204-205 | after the loop no `}{` remains, only braces were removed, equally many of each, and a text without a pair is unchanged |
| Conversion.CleanText | video_processor.py:204-205 | the `while` loop terminates (each pass shortens the text) with the cleaned text |
| Conversion.StripLeading | video_processor.py:206 | the leading brace run is cut, and nothing else |
| Conversion.StripTrailing | video_processor.py:206 | the trailing brace run is cut, and nothing else |
| Conversion.StripBraces | video_processor.py:206 | `strip('{}')` removes only the leading and trailing brace runs; the result neither starts nor ends with a brace |
| Conversion.AlignmentTag | video_processor.py:209 | the `{\anN}` tag ends with `}` and contains no `}{` |
| Conversion.UnsetAlignmentIsMiddleCentre | video_processor.py:133-209 | without settings the style is the default one with alignment 5, so every converted cue starts with `{\an5}` |
| Conversion.CueTextShape | video_processor.py:203-209 | the new text starts with the alignment tag and contains no `}{` |
| Conversion.RemovePairsKeepsPrefix | video_processor.py:205 | `replace` leaves a pair-free prefix that does not end in `}` alone |
| Conversion.OnePairRemoved | video_processor.py:204-205 | a text with one `}{` between pieces that cannot form another loses just those two braces |
| Conversion.AdjacentTagsMerged | video_processor.py:203-209 | inner tags are kept: only the braces between adjacent tags go, and the new tag is prefixed |
| Conversion.ConvertedCues | video_processor.py:199-219 | every converted cue uses "Default", carries the tagged text with no `}{`, and has the timing of the offset rule |
| Conversion.ConvertLine | video_processor.py:200-219 | one line: set to "Default", cleaned, stripped, tagged and, for a positive offset, shifted |
| Conversion.ConvertEvents | video_processor.py:199-219 | the loop converts every line in place, in order |
| Conversion.ConvertSrtToAss | video_processor.py:130-231 | an empty path, an unreadable file, a non-integer numeric setting or a failed save ⇒ `None`; otherwise the projected style is stored as "Default", every cue is converted with its alignment and offset, and the file is saved as `<stem>_<timestamp>.ass` in the temporary directory |
| Background.ReadableVideosMembers | video_processor.py:305-319 | a path is kept iff it joins the folder to a listed `.mp4`/`.mkv` name and the probe accepts it |
| Background.ScanVideos | video_processor.py:305-319 | the listing loop keeps the readable video files in listing order |
| Background.Swap | video_processor.py:325 | one exchange of the shuffle swaps two positions and keeps the multiset |
| Background.ShuffleFromPermutes | video_processor.py:325 | whatever the random draws, the shuffle only reorders |
| Background.Shuffle | video_processor.py:325 | the in-place shuffle of the array leaves the draws' permutation of its old contents |
| Background.PrepareBackgroundVideos | video_processor.py:301-326 | raises (`None`) iff the folder cannot be listed or no readable clip is found; otherwise the readable clips, shuffled; the duration is not used |
| Background.BackgroundIsPermutation | video_processor.py:301-326 | the clips returned are a permutation of exactly the readable video files of the folder |
| Composition.OverlayDuration | video_processor.py:328-333 | the hook's duration when positive, otherwise 5 s; always positive |
| Composition.FadeEndsWithOverlay | video_processor.py:429-432 | the half-second fade ends exactly when the thumbnail's `between(t,0,overlay)` window closes; without a hook it starts at 4.5 s |
| Composition.FadeStartCanBeNegative | video_processor.py:429 | a hook shorter than 0.5 s puts the fade start before 0 |
| Composition.WindowsTile | video_processor.py:400-402 | the first window starts at 0, each window ends where the next starts, and the last ends at the total |
| Composition.WindowsOrdered | video_processor.py:400-402 | for a non-negative total the windows are in order and meet only at endpoints |
| Composition.WindowsCover | video_processor.py:400-402 | every instant in `[0, T]` lies in some clip's window |
| Composition.ChainWellChained | video_processor.py:392-403 | layer `k` writes `v<k>` and reads `v<k-1>`; labels are written once |
| Composition.PlannedFiltersChained | video_processor.py:392-434 | the whole graph is well chained: each entry reads labels written just before it, no label is written twice, and `-map` takes the last one |
| Composition.PlannedFiltersLayout | video_processor.py:392-434 | entry 0 is `[0:v]null[v0]`; entry i overlays `[v(i-1)][i:v]` in window i; then `subbed` only with an ASS file; then the fade of input `n+1` and the centred overlay only with a thumbnail |
| Composition.InputFlags | video_processor.py:392-421 | the flags are `-i <file>` pairs in file order |
| Composition.InputsNumbered | video_processor.py:417-442 | clip k is input k, the audio input n (`-map n:a`), the thumbnail input n+1 |
| Composition.InputFlagsOfFiles | video_processor.py:392-421 | the inputs list the clips, then the audio, then the thumbnail when given |
| Composition.BurnedNameIsBaseName | video_processor.py:408-413 | the subtitle filter reads the ASS file's base name |
| Composition.OutputName | video_processor.py:455-457 | the output is `<audio stem>_<timestamp>.mp4` in the working directory |
| Composition.AddClip | video_processor.py:392-403 | one pass adds the clip's `-i` pair and its layer, and moves `last_output` to `v<i>` |
| Composition.LayerClips | video_processor.py:392-403 | the clip loop yields the `-i` pairs of every clip and the layer chain; with no clip `last_output` stays unbound |
| Composition.BuildCommand | video_processor.py:387-461 | no clips ⇒ the step fails; otherwise exactly the planned command: inputs, graph, `-map [last]` and `-map n:a`, `-t` only for a non-zero duration, and the output path |
| Process.PreparedAudio | video_processor.py:39-73 | final audio is the temporary merged `.mp3` with a hook and the input audio without; the hook path requires both files to be `.mp3`/`.wav` and decodable and the export to succeed; the duration is the probe of the final audio |
| Process.AudioFormatCheckedOnlyWhenMerging | video_processor.py:41-71 | without a hook the audio's format is never checked, only measured |
| Process.PrepareAudio | video_processor.py:345-354 | succeeds iff the hook (when given) and the final audio can be measured, giving hook duration (0 without hook), final audio and total duration |
| Process.SrtSources | video_processor.py:359-366 | the hook SRT at offset 0, then the audio SRT at the hook's duration, each only when given |
| Process.SingleSrtConvertedInPlace | video_processor.py:359-378 | with only the audio SRT and no hook, the SRT is converted directly, the ASS file is named after it, and `merged_srt` is the input SRT itself |
| Process.MergedSrt | video_processor.py:359-371 | the `merged_srt` the clean-up sees is the temporary merged `.srt` when the merge wrote one, and otherwise one of the input SRTs |
| Process.ConvertMerged | video_processor.py:375-377 | converting the merge result succeeds iff its path is set, readable, the settings project and the ASS file saves, and names `<stem>_<timestamp>.ass` |
| Process.PrepareSubtitles | video_processor.py:356-378 | no SRT ⇒ no subtitles; otherwise the merge and the conversion without offset, failing where either fails; hands on the path the merge returned as `merged_srt` |
| Process.RunFilesInTempDir | video_processor.py:30-37 | the merged audio, the merged SRT and the ASS file all lie in the temporary directory |
| Process.CleanupDeletesInputs | video_processor.py:466-477 | as written, without a hook and with one unshifted SRT, the clean-up deletes the user's own audio and SRT, whatever the ASS file |
| Process.CleanupRemovesOnlyTemporaries | video_processor.py:466-477 | the corrected clean-up removes only files of the run's temporary directory |
| Process.CleanupAsWrittenWithHookAndMerge | video_processor.py:466-477 | with a hook and no SRT but the run's own merge, the clean-up as written removes exactly the corrected list |
| Paths.TempPathLast | video_processor.py:30-37 | a temporary path is never empty and ends as its suffix does, so the merged audio, the merged SRT and the ASS file are three different files |
| Process.BackgroundClipsFound | video_processor.py:321-326 | a folder with a readable clip hands the run at least one clip |
| Process.Encode | video_processor.py:436-482 | runs the planned command; on success reports 40 and 100, returns `<audio stem>_<timestamp>.mp4` and removes, as written, the final audio, the ASS file and `merged_srt` where set and present; on failure reports 40 and removes nothing |
| Process.Render | video_processor.py:380-482 | the backgrounds step, the command and the run, reporting 20, 40, 100 up to the first failure; on success the command uses the shuffled clips and the clean-up is the one written |
| Process.SubtitlesAndRender | video_processor.py:356-482 | after the audio block: 2 is the last stage when the subtitle step fails, otherwise the rendering stages; on success the command burns in the converted ASS file and the clean-up removes the final audio, that ASS file and the path the merge returned |
| Process.ProcessVideo | video_processor.py:335-486 | progress is the prefix of 10, 30, 20, 40, 100 up to the first failing step; success iff every stage is reported; on success, the planned command over the shuffled clips, prepared audio and converted subtitles, the output named after the audio, and the clean-up as written: the final audio (the input audio when there is no hook), the ASS file and the path the merge returned (the input SRT when a lone SRT is unshifted), each when set and present; on failure nothing is removed |
| Batch.DefaultSuffixesAgree | batch_settings.py:18-30 | the default subtitle suffixes equal the audio and hook suffixes, and the thumbnail suffix differs from the hook's only in case |
| Batch.LastMatchWins | batch_settings.py:61-86 | a slot is `None` iff no listed file fills it; otherwise it holds the path of the last listed file that fills it, with its name as listed |
| Batch.MatchAudio | batch_settings.py:69-74 | a name starting with base+audio suffix (ignoring case) fills "audio" if `.wav`/`.mp3`, else "subtitle" if `.srt`; nothing else changes |
| Batch.MatchHook | batch_settings.py:76-81 | the same for the hook slots, and only when the hook suffix is non-empty |
| Batch.MatchThumbnail | batch_settings.py:83-86 | a thumbnail is matched only for a non-empty suffix and a `.png`/`.jpg`/`.jpeg` name |
| Batch.MatchFile | batch_settings.py:65-86 | one pass: every slot the file fills now holds its path, the others keep theirs |
| Batch.FindMatchingFiles | batch_settings.py:40-88 | exactly the five keys, each holding the last matching file or `None`; the subtitle suffix settings are never read |
| Batch.BaseOf | batch_settings.py:104 | `split(suffix)[0]` is the text before the first occurrence, so the name starts with it followed by the suffix |
| Batch.BaseCandidatesMembers | batch_settings.py:100-105 | a name is offered iff some listed `.wav`/`.mp3` file containing the audio suffix yields it |
| Batch.AddBaseName | batch_settings.py:100-105 | one pass: `split('')` raises on an audio file with an empty suffix; otherwise the file's base name, if any, joins the sorted set |
| Batch.GetBaseNames | batch_settings.py:90-107 | `[]` when the folder is unset or missing; an error when an existing folder cannot be listed; for a listed folder, an error iff the suffix is empty and an audio file is listed; otherwise the distinct base names in ascending order |
| Batch.BaseNamesFindTheirAudio | batch_settings.py:97-107 | the base names are strictly ascending, each comes from a listed audio file, and matching that base name finds an audio file |
| Fonts.KeptMembers | font_utils.py:13-21 | a name is kept iff it is listed and does not start with `@` or `.` and is not empty |
| Fonts.KeptSorted | font_utils.py:10-21 | filtering keeps a strictly ascending list strictly ascending |
| Fonts.SystemFonts | font_utils.py:4-23 | the result is ascending without duplicates, holds exactly the listed families that are not skipped, and no name is empty or starts with `@` or `.` |
| Colors.Hex | gui.py:215 | hexadecimal formatting writes only upper-case digits, one digit exactly below 16 |
| Colors.Hex2OfByte | gui.py:215 | a channel 0..255 takes exactly two upper-case digits, the high nibble first |
| Colors.AssColorDecodes | gui.py:213-215 | the colour string is 9 characters framed by `&H` and `&`; characters 2-3, 4-5 and 6-7 decode to blue, green, red |
| Colors.AssColorInjective | gui.py:213-215 | distinct colours give distinct strings |

## Left out

- External tools are parameters, not modelled: ffprobe durations and readability, pydub decoding, pysubs2 loading, whether an export or a save succeeds, `os.listdir`, `os.path.exists`, the random numbers, and the ffmpeg run's exit status. The processor's timestamp (`int(time.time())`) is a field.
- Process.Reloaded: the merged SRT that `merge_srt_files` saves is taken to read back as exactly its merged cues, with no style of its own; the SRT writer and reader of pysubs2 are not modelled, so their round trip is assumed rather than proved.
- JSON persistence is not modelled. That covers `load_settings`/`save_settings` in batch_settings.py and `load_presets`/`save_presets` in subtitle_settings.py beyond the fallback state. The decoded presets file is a constructor argument.
- The file copy of the ASS file into the working directory (video_processor.py:409) and the `os.remove` calls are not performed. The model states the list of files the clean-up removes, taking every removal to succeed. In the program a failing `os.remove` ends the clean-up's `try` block (video_processor.py:467-479), so later files stay on disk while the run still reports 100 and returns the output.
- Floating point: durations and offsets are exact reals. IEEE rounding in `offset * 1000` and in the enable-window expressions is not modelled.
- The filter graph and the command are values, not rendered strings. The fixed encoder flags (`-hwaccel cuda -y`, `h264_nvenc`, preset `p7`, `5M`, 30 fps, `aac`) are constants left out of `Command`.
- Common.Lower: `str.lower()` is modelled on ASCII letters only; other characters are left unchanged.
- Common.ParseInt: `int()` is modelled on ASCII digits and ASCII white space only. Python also accepts every Unicode decimal digit and strips Unicode white space, so `int("٤٨")` and `int("\u00a048")` are 48. The model rejects such a numeric setting, and Conversion.ProjectedStyle and Conversion.ConvertSrtToAss then give `None` where the program succeeds.
- Paths.Root: `splitext` is modelled for POSIX paths only.
- Process.ProcessVideo: the callback is treated as always given, so `progress` lists what a supplied callback would receive.
- Print statements and log messages are left out.
- `get_video_duration` is not modelled because nothing in the modelled code calls it.
- Colors: `pick_color` is modelled for channel values 0..255, which is what the colour chooser returns. Colors.AssColorDecodes and Colors.AssColorInjective require that range.
- Subtitles.MergeAssFiles: the keys of each file's `styles` mapping are assumed distinct, as in a Python dictionary. Styles are compared as the fields the program reads, not every field pysubs2 stores.
- Conversion.ProjectStyle: a settings object is modelled as its attributes (`hasattr`/`getattr`). Attribute values are strings, as in `SubtitleSettings`.
- Callers that would fail before reaching the modelled code are not modelled. These are the two-argument `VideoProcessor(...)` calls in the GUIs and a `spacing=` argument that `SubtitleSettings` does not accept.
- The GUIs are not modelled (Tk windows, threads, message boxes), apart from the Delete button's guard at gui.py:343-352 and the colour conversion. `batch_gui.py` and `change.py` are not part of this model.

## Findings

| source | as written | input that shows it | evidently intended | confidence | as-written member | corrected member |
|---|---|---|---|---|---|---|
| video_processor.py:466-477 | The "cleanup temporary files" block removes `final_audio` and the path `merge_srt_files` returned. Without a hook, `final_audio` is the user's input audio (video_processor.py:41). With only an audio SRT and no hook, the merge returns the input SRT itself (video_processor.py:85-88). | `process_video(None, "a.mp3", None, "a.srt", None, folder)` with a readable clip in `folder` and a successful encode: the clean-up deletes `a.mp3` and `a.srt` | Remove only the run's own temporary files: the merged audio when there was a hook, the ASS file, and the merged SRT when the merge wrote one | not executed | Process.CleanupDeletesInputs (about Process.RemovedAsWritten) | Process.CleanupRemovesOnlyTemporaries (about Process.RemovedTemporaries; Process.CleanupAsWrittenWithHookAndMerge shows it agrees with the as-written clean-up on runs with a hook and a merged SRT) |
