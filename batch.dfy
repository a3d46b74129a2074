/** The batch settings: the defaults used without a settings file, the matching of a base name's
    audio, hook, subtitle and thumbnail files in the input folder, and the list of base names the
    folder offers. Directory listings are inputs. */
module Batch {
  import opened Common
  import opened Paths

  /** The `suffixes` entry: the file-name suffix that marks each kind of file. */
  datatype Suffixes = Suffixes(audio: string, hook: string, subtitle: string, hookSubtitle: string, thumbnail: string)

  datatype BatchSettings = BatchSettings(inputFolder: string, outputFolder: string, videoFolder: string,
                                         presetName: string, suffixes: Suffixes)

  /** `load_settings` without a readable settings file. */
  const DefaultBatchSettings: BatchSettings :=
    BatchSettings("", "", "", "", Suffixes("_audio", "_hook", "_audio", "_hook", "_Hook"))

  /** By default the subtitles share the audio's and the hook's suffixes, and the thumbnail suffix
      differs from the hook's only in case, so that matching, which ignores case, takes the
      hook's name followed by an image extension as the thumbnail. */
  lemma DefaultSuffixesAgree()
    ensures DefaultBatchSettings.suffixes.subtitle == DefaultBatchSettings.suffixes.audio
    ensures DefaultBatchSettings.suffixes.hookSubtitle == DefaultBatchSettings.suffixes.hook
    ensures Lower(DefaultBatchSettings.suffixes.thumbnail) == Lower(DefaultBatchSettings.suffixes.hook)
  {
    var t, h := "_Hook", "_hook";
    assert Lower(t) == [LowerChar(t[0])] + Lower(t[1..]);
    assert Lower(h) == [LowerChar(h[0])] + Lower(h[1..]);
    LowerAppend("_H", "ook");
    LowerAppend("_h", "ook");
    assert t == "_H" + "ook" && h == "_h" + "ook";
    assert Lower("_H") == [LowerChar('_')] + Lower("H");
    assert Lower("_h") == [LowerChar('_')] + Lower("h");
  }

  // ---------------------------------------------------------------------------
  // find_matching_files
  // ---------------------------------------------------------------------------

  predicate IsAudioFile(lower: string) {
    EndsWith(lower, ".wav") || EndsWith(lower, ".mp3")
  }

  predicate IsImageFile(lower: string) {
    EndsWith(lower, ".png") || EndsWith(lower, ".jpg") || EndsWith(lower, ".jpeg")
  }

  /** The five keys of the result. */
  datatype Slot = AudioSlot | HookSlot | SubtitleSlot | HookSubtitleSlot | ThumbnailSlot

  const AllSlots: set<Slot> := {AudioSlot, HookSlot, SubtitleSlot, HookSubtitleSlot, ThumbnailSlot}

  /** Whether the listed file `name` fills `slot` for `base`, by lower-cased comparison: its name
      starts with the base and the slot's suffix (the audio suffix for both audio and subtitle,
      the hook suffix for both hook files, a non-empty suffix for the optional ones) and has the
      slot's extension. The subtitle suffixes themselves are never consulted. */
  predicate Fills(slot: Slot, name: string, base: string, sfx: Suffixes) {
    var lower := Lower(name);
    var b := Lower(base);
    match slot
    case AudioSlot => StartsWith(lower, b + Lower(sfx.audio)) && IsAudioFile(lower)
    case SubtitleSlot => StartsWith(lower, b + Lower(sfx.audio)) && !IsAudioFile(lower) && EndsWith(lower, ".srt")
    case HookSlot => sfx.hook != [] && StartsWith(lower, b + Lower(sfx.hook)) && IsAudioFile(lower)
    case HookSubtitleSlot =>
      sfx.hook != [] && StartsWith(lower, b + Lower(sfx.hook)) && !IsAudioFile(lower) && EndsWith(lower, ".srt")
    case ThumbnailSlot => sfx.thumbnail != [] && StartsWith(lower, b + Lower(sfx.thumbnail)) && IsImageFile(lower)
  }

  /** The path of the last listed file that fills `slot`, with its name as listed. */
  function LastMatch(folder: string, listing: seq<string>, slot: Slot, base: string, sfx: Suffixes): Option<string> {
    if listing == [] then None
    else
      var n := |listing| - 1;
      if Fills(slot, listing[n], base, sfx) then Some(Join(folder, listing[n]))
      else LastMatch(folder, listing[..n], slot, base, sfx)
  }

  /** `x` is the path of the listed file at `k`, which fills `slot`, and no later file does. */
  predicate MatchedAt(folder: string, listing: seq<string>, k: nat, slot: Slot, base: string, sfx: Suffixes, x: string)
    requires k < |listing|
  {
    && Fills(slot, listing[k], base, sfx)
    && x == Join(folder, listing[k])
    && forall j :: k < j < |listing| ==> !Fills(slot, listing[j], base, sfx)
  }

  /** The path a listed file gives `slot`, if it fills it. */
  function FilledPath(folder: string, slot: Slot, base: string, sfx: Suffixes, name: string): Option<string> {
    if Fills(slot, name, base, sfx) then Some(Join(folder, name)) else None
  }

  lemma {:induction false} LastMatchPicked(folder: string, listing: seq<string>, slot: Slot, base: string, sfx: Suffixes)
    ensures LastMatch(folder, listing, slot, base, sfx)
         == LastPicked(listing, name => FilledPath(folder, slot, base, sfx, name))
  {
    if listing != [] {
      LastMatchPicked(folder, listing[..|listing| - 1], slot, base, sfx);
    }
  }

  /** A slot stays empty exactly when no file fills it; otherwise it holds the last one that does. */
  lemma LastMatchWins(folder: string, listing: seq<string>, slot: Slot, base: string, sfx: Suffixes)
    ensures LastMatch(folder, listing, slot, base, sfx).None? <==>
      forall k :: 0 <= k < |listing| ==> !Fills(slot, listing[k], base, sfx)
    ensures LastMatch(folder, listing, slot, base, sfx).Some? ==>
      exists k :: 0 <= k < |listing| && MatchedAt(folder, listing, k, slot, base, sfx, LastMatch(folder, listing, slot, base, sfx).value)
  {
    var pick := name => FilledPath(folder, slot, base, sfx, name);
    LastMatchPicked(folder, listing, slot, base, sfx);
    LastPickedWins(listing, pick);
    assert forall k :: 0 <= k < |listing| ==> (pick(listing[k]).None? <==> !Fills(slot, listing[k], base, sfx));
    if LastMatch(folder, listing, slot, base, sfx).Some? {
      var k :| 0 <= k < |listing| && pick(listing[k]) == LastPicked(listing, pick)
        && forall j :: k < j < |listing| ==> pick(listing[j]).None?;
      assert MatchedAt(folder, listing, k, slot, base, sfx, LastMatch(folder, listing, slot, base, sfx).value);
    }
  }

  /** One more listed file: each slot it fills now holds its path, the others keep their value. */
  predicate Stepped(before: map<Slot, Option<string>>, after: map<Slot, Option<string>>, file: string, path: string,
                    base: string, sfx: Suffixes) {
    && after.Keys == before.Keys
    && forall s :: s in before ==> after[s] == (if Fills(s, file, base, sfx) then Some(path) else before[s])
  }

  lemma LastMatchSnoc(folder: string, files: seq<string>, i: nat, base: string, sfx: Suffixes)
    requires i < |files|
    ensures forall s :: (LastMatch(folder, files[..i + 1], s, base, sfx)
      == if Fills(s, files[i], base, sfx) then Some(Join(folder, files[i])) else LastMatch(folder, files[..i], s, base, sfx))
  {
    assert files[..i + 1][..i] == files[..i] && files[..i + 1][i] == files[i];
  }

  /** The slots in `group` that the file fills now hold its path; every other slot keeps its value. */
  predicate SteppedOn(group: set<Slot>, before: map<Slot, Option<string>>, after: map<Slot, Option<string>>,
                      file: string, path: string, base: string, sfx: Suffixes) {
    && after.Keys == before.Keys
    && forall s :: s in before ==>
         after[s] == (if s in group && Fills(s, file, base, sfx) then Some(path) else before[s])
  }

  /** The audio-suffix test of the loop body: an audio file or an `.srt`. */
  method MatchAudio(result: map<Slot, Option<string>>, file: string, path: string, baseName: string, sfx: Suffixes)
    returns (updated: map<Slot, Option<string>>)
    requires result.Keys == AllSlots
    ensures SteppedOn({AudioSlot, SubtitleSlot}, result, updated, file, path, baseName, sfx)
  {
    updated := result;
    var lower := Lower(file);
    if StartsWith(lower, Lower(baseName) + Lower(sfx.audio)) {
      if IsAudioFile(lower) {
        updated := updated[AudioSlot := Some(path)];
      } else if EndsWith(lower, ".srt") {
        updated := updated[SubtitleSlot := Some(path)];
      }
    }
  }

  /** The hook-suffix test, skipped when the hook suffix is empty. */
  method MatchHook(result: map<Slot, Option<string>>, file: string, path: string, baseName: string, sfx: Suffixes)
    returns (updated: map<Slot, Option<string>>)
    requires result.Keys == AllSlots
    ensures SteppedOn({HookSlot, HookSubtitleSlot}, result, updated, file, path, baseName, sfx)
  {
    updated := result;
    var lower := Lower(file);
    var hook := Lower(sfx.hook);
    if hook != [] && StartsWith(lower, Lower(baseName) + hook) {
      if IsAudioFile(lower) {
        updated := updated[HookSlot := Some(path)];
      } else if EndsWith(lower, ".srt") {
        updated := updated[HookSubtitleSlot := Some(path)];
      }
    }
  }

  /** The thumbnail-suffix test, skipped when the thumbnail suffix is empty. */
  method MatchThumbnail(result: map<Slot, Option<string>>, file: string, path: string, baseName: string, sfx: Suffixes)
    returns (updated: map<Slot, Option<string>>)
    requires result.Keys == AllSlots
    ensures SteppedOn({ThumbnailSlot}, result, updated, file, path, baseName, sfx)
  {
    updated := result;
    var lower := Lower(file);
    var thumbnail := Lower(sfx.thumbnail);
    if thumbnail != [] && StartsWith(lower, Lower(baseName) + thumbnail) {
      if IsImageFile(lower) {
        updated := updated[ThumbnailSlot := Some(path)];
      }
    }
  }

  /** The body of the `for file in os.listdir(input_folder)` loop for one file. */
  method MatchFile(result: map<Slot, Option<string>>, folder: string, file: string, baseName: string, sfx: Suffixes)
    returns (updated: map<Slot, Option<string>>)
    requires result.Keys == AllSlots
    ensures Stepped(result, updated, file, Join(folder, file), baseName, sfx)
  {
    var path := Join(folder, file);
    var afterAudio := MatchAudio(result, file, path, baseName, sfx);
    var afterHook := MatchHook(afterAudio, file, path, baseName, sfx);
    updated := MatchThumbnail(afterHook, file, path, baseName, sfx);
  }

  /** `find_matching_files(base_name)` on the listing of the input folder (`None`: the folder cannot
      be listed). The result has exactly the five keys, and each holds the last matching file. */
  method FindMatchingFiles(settings: BatchSettings, baseName: string, listing: Option<seq<string>>)
    returns (r: Option<map<Slot, Option<string>>>)
    ensures listing.None? ==> r.None?
    ensures listing.Some? ==> r.Some? && r.value.Keys == AllSlots
    ensures r.Some? ==> forall s :: s in r.value ==>
      r.value[s] == LastMatch(settings.inputFolder, listing.value, s, baseName, settings.suffixes)
  {
    if listing.None? {
      return None;
    }
    var folder, sfx, files := settings.inputFolder, settings.suffixes, listing.value;
    var result := map[AudioSlot := None, HookSlot := None, SubtitleSlot := None,
                      HookSubtitleSlot := None, ThumbnailSlot := None];
    var i := 0;
    while i < |files|
      invariant 0 <= i <= |files|
      invariant result.Keys == AllSlots
      invariant forall s :: s in result ==> result[s] == LastMatch(folder, files[..i], s, baseName, sfx)
    {
      LastMatchSnoc(folder, files, i, baseName, sfx);
      result := MatchFile(result, folder, files[i], baseName, sfx);
      i := i + 1;
    }
    assert files[..i] == files;
    return Some(result);
  }

  // ---------------------------------------------------------------------------
  // get_base_names
  // ---------------------------------------------------------------------------

  /** `lower.split(suffix)[0]`: the text before the first occurrence of the suffix. */
  function BaseOf(lower: string, suffix: string): (r: string)
    requires Contains(lower, suffix)
    ensures StartsWith(lower, r + suffix)
  {
    var i := FindFirst(lower, suffix).value;
    assert lower[..i + |suffix|] == lower[..i] + lower[i..i + |suffix|];
    lower[..i]
  }

  /** The listed file names the scan takes a base name from, for a lower-cased suffix. */
  predicate GivesBase(name: string, suffix: string) {
    IsAudioFile(Lower(name)) && Contains(Lower(name), suffix)
  }

  /** The base names in listing order, with repetitions. */
  function BaseCandidates(listing: seq<string>, suffix: string): seq<string> {
    if listing == [] then []
    else
      var n := |listing| - 1;
      BaseCandidates(listing[..n], suffix)
        + (if GivesBase(listing[n], suffix) then [BaseOf(Lower(listing[n]), suffix)] else [])
  }

  /** `x` is the base name the listed `name` gives. */
  predicate NamesBase(name: string, suffix: string, x: string) {
    GivesBase(name, suffix) && x == BaseOf(Lower(name), suffix)
  }

  /** The base name the listed `name` gives, if any. */
  function Candidate(suffix: string, name: string): Option<string> {
    if GivesBase(name, suffix) then Some(BaseOf(Lower(name), suffix)) else None
  }

  lemma {:induction false} BaseCandidatesPicked(listing: seq<string>, suffix: string)
    ensures BaseCandidates(listing, suffix) == Picked(listing, name => Candidate(suffix, name))
  {
    if listing != [] {
      BaseCandidatesPicked(listing[..|listing| - 1], suffix);
    }
  }

  /** A base name is offered exactly when some listed file gives it. */
  lemma BaseCandidatesMembers(listing: seq<string>, suffix: string, x: string)
    ensures x in BaseCandidates(listing, suffix) <==>
      exists k :: 0 <= k < |listing| && NamesBase(listing[k], suffix, x)
  {
    var pick := name => Candidate(suffix, name);
    BaseCandidatesPicked(listing, suffix);
    PickedMembers(listing, pick, x);
    assert forall k :: 0 <= k < |listing| ==> (pick(listing[k]) == Some(x) <==> NamesBase(listing[k], suffix, x));
  }

  lemma BaseCandidatesSnoc(listing: seq<string>, i: nat, suffix: string)
    requires i < |listing|
    ensures BaseCandidates(listing[..i + 1], suffix) == BaseCandidates(listing[..i], suffix)
      + (if GivesBase(listing[i], suffix) then [BaseOf(Lower(listing[i]), suffix)] else [])
  {
    assert listing[..i + 1][..i] == listing[..i] && listing[..i + 1][i] == listing[i];
  }

  lemma ContainsEmpty(s: string)
    ensures Contains(s, [])
  {
    assert OccursAt(s, [], 0);
  }

  /** The body of the `for file in os.listdir(input_folder)` loop for the file at `i`: `raises`
      when `split` is handed the empty suffix, otherwise the base name, if any, joins the set. */
  method AddBaseName(baseNames: seq<string>, listing: seq<string>, i: nat, suffix: string)
    returns (raises: bool, updated: seq<string>)
    requires i < |listing|
    requires baseNames == SortedUnique(BaseCandidates(listing[..i], suffix))
    ensures raises <==> suffix == [] && IsAudioFile(Lower(listing[i]))
    ensures !raises ==> updated == SortedUnique(BaseCandidates(listing[..i + 1], suffix))
  {
    BaseCandidatesSnoc(listing, i, suffix);
    var lower := Lower(listing[i]);
    updated := baseNames;
    raises := false;
    if IsAudioFile(lower) && Contains(lower, suffix) {
      if suffix == [] {
        raises := true;
        return;
      }
      var base := BaseOf(lower, suffix);
      SortedUniqueSnoc(BaseCandidates(listing[..i], suffix), base);
      updated := InsertUnique(base, baseNames);
    } else {
      assert BaseCandidates(listing[..i + 1], suffix) == BaseCandidates(listing[..i], suffix);
      if suffix == [] {
        ContainsEmpty(lower);
      }
    }
  }

  /** `get_base_names()`: `Some([])` when the input folder is unset or missing; `None` when an
      existing folder cannot be listed (`listing` is `None`: not a directory, or no permission) or
      when the audio suffix is empty and some audio file is listed, where `split('')` raises;
      otherwise the distinct base names in ascending order. */
  method GetBaseNames(settings: BatchSettings, folderExists: bool, listing: Option<seq<string>>)
    returns (r: Option<seq<string>>)
    ensures settings.inputFolder == [] || !folderExists ==> r == Some([])
    ensures settings.inputFolder != [] && folderExists && listing.None? ==> r.None?
    ensures settings.inputFolder != [] && folderExists && listing.Some? ==>
      var files := listing.value;
      var suffix := Lower(settings.suffixes.audio);
      && (r.None? <==> suffix == [] && exists k :: 0 <= k < |files| && IsAudioFile(Lower(files[k])))
      && (r.Some? ==> r.value == SortedUnique(BaseCandidates(files, suffix)))
  {
    if settings.inputFolder == [] || !folderExists {
      return Some([]);
    }
    if listing.None? {
      return None;
    }
    var files := listing.value;
    var suffix := Lower(settings.suffixes.audio);
    var baseNames: seq<string> := [];
    var i := 0;
    while i < |files|
      invariant 0 <= i <= |files|
      invariant baseNames == SortedUnique(BaseCandidates(files[..i], suffix))
      invariant suffix == [] ==> forall k :: 0 <= k < i ==> !IsAudioFile(Lower(files[k]))
    {
      var raises;
      raises, baseNames := AddBaseName(baseNames, files, i, suffix);
      if raises {
        return None;
      }
      i := i + 1;
    }
    assert files[..i] == files;
    return Some(baseNames);
  }

  /** Every base name offered is ascending and distinct, comes from a listed audio file, holds no
      copy of the suffix, and finds that audio file again when matched. */
  lemma BaseNamesFindTheirAudio(settings: BatchSettings, listing: seq<string>, x: string)
    ensures StrictlySorted(SortedUnique(BaseCandidates(listing, Lower(settings.suffixes.audio))))
    ensures x in SortedUnique(BaseCandidates(listing, Lower(settings.suffixes.audio))) <==>
      exists k :: 0 <= k < |listing| && NamesBase(listing[k], Lower(settings.suffixes.audio), x)
    ensures x in SortedUnique(BaseCandidates(listing, Lower(settings.suffixes.audio))) ==>
      LastMatch(settings.inputFolder, listing, AudioSlot, x, settings.suffixes).Some?
  {
    var suffix := Lower(settings.suffixes.audio);
    BaseCandidatesMembers(listing, suffix, x);
    if x in SortedUnique(BaseCandidates(listing, suffix)) {
      var k :| 0 <= k < |listing| && NamesBase(listing[k], suffix, x);
      LowerIdempotent(listing[k]);
      BaseIsLowerCase(Lower(listing[k]), suffix);
      assert Fills(AudioSlot, listing[k], x, settings.suffixes);
      LastMatchWins(settings.inputFolder, listing, AudioSlot, x, settings.suffixes);
    }
  }

  /** A base name is a prefix of a lower-cased name, so lower-casing it again changes nothing. */
  lemma BaseIsLowerCase(lower: string, suffix: string)
    requires Lower(lower) == lower && Contains(lower, suffix)
    ensures Lower(BaseOf(lower, suffix)) == BaseOf(lower, suffix)
  {
    var i := FindFirst(lower, suffix).value;
    assert lower == lower[..i] + lower[i..];
    LowerAppend(lower[..i], lower[i..]);
    assert Lower(lower)[..i] == Lower(lower[..i]);
  }
}
