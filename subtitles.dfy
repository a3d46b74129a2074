/** Subtitle cues and styles as pysubs2 holds them, and the two timeline mergers of the video
    processor: `merge_srt_files` (a time offset per source, then one stable sort by start) and
    `merge_ass_files` (style adoption with renaming, then the same sort). Loading a file is a
    parameter: `load(path)` is `None` when pysubs2 cannot read it. */
module Subtitles {
  import opened Common
  import opened Paths

  /** One event of a subtitle file: start and end in whole milliseconds, its text and the name of
      the style it uses. */
  datatype Cue = Cue(start: int, end: int, text: string, style: string)

  /** The fields of a pysubs2 `SSAStyle` that the video processor reads or sets. */
  datatype AssStyle = AssStyle(
    fontname: string, fontsize: int,
    primarycolor: string, outlinecolor: string, backcolor: string,
    bold: int, italic: int, outline: int, shadow: int, alignment: int,
    marginv: int, marginl: int, marginr: int)

  /** A loaded subtitle file: its events in file order and its styles as the ordered items of the
      `styles` dictionary. */
  datatype SubFile = SubFile(events: seq<Cue>, styles: seq<(string, AssStyle)>)

  // ---------------------------------------------------------------------------
  // Offsets
  // ---------------------------------------------------------------------------

  /** Python's `int(x)` on a number: truncation toward zero. */
  function Trunc(x: real): int {
    if x >= 0.0 then x.Floor else -((-x).Floor)
  }

  /** `int(offset * 1000)`: an offset in seconds as whole milliseconds. */
  function OffsetMs(offset: real): int {
    Trunc(offset * 1000.0)
  }

  /** Truncation, not rounding: 10.534 s is 10534 ms and 10.9999 s is 10999 ms. */
  lemma OffsetTruncates()
    ensures OffsetMs(10.534) == 10534
    ensures OffsetMs(10.9999) == 10999
  {
  }

  function Shifted(c: Cue, ms: int): Cue {
    c.(start := c.start + ms, end := c.end + ms)
  }

  /** The loop `for line in subs: line.start += ms; line.end += ms`. */
  method ShiftCues(events: seq<Cue>, ms: int) returns (r: seq<Cue>)
    ensures |r| == |events|
    ensures forall i :: 0 <= i < |r| ==>
      && r[i].start == events[i].start + ms
      && r[i].end == events[i].end + ms
      && r[i].end - r[i].start == events[i].end - events[i].start
      && r[i].text == events[i].text
      && r[i].style == events[i].style
  {
    r := events;
    var i := 0;
    while i < |r|
      invariant 0 <= i <= |r| == |events|
      invariant forall k :: 0 <= k < i ==> r[k] == Shifted(events[k], ms)
      invariant forall k :: i <= k < |r| ==> r[k] == events[k]
    {
      r := r[i := Shifted(r[i], ms)];
      i := i + 1;
    }
  }

  /** The cues of one source once its offset is applied: moved by `int(offset*1000)` ms when the
      offset is positive, untouched otherwise. A move keeps each cue's duration, text and style. */
  function WithOffset(events: seq<Cue>, offset: real): (r: seq<Cue>)
    ensures |r| == |events|
    ensures offset <= 0.0 ==> r == events
    ensures offset > 0.0 ==> forall i :: 0 <= i < |r| ==>
      && r[i].start == events[i].start + OffsetMs(offset)
      && r[i].end - r[i].start == events[i].end - events[i].start
      && r[i].text == events[i].text && r[i].style == events[i].style
  {
    if offset > 0.0 then seq(|events|, i requires 0 <= i < |events| => Shifted(events[i], OffsetMs(offset)))
    else events
  }

  // ---------------------------------------------------------------------------
  // The stable sort `events.sort(key=lambda x: x.start)`
  // ---------------------------------------------------------------------------

  predicate SortedByStart(s: seq<Cue>) {
    forall i, j :: 0 <= i < j < |s| ==> s[i].start <= s[j].start
  }

  /** The cues of `s` that start at `k`, in their order in `s`. */
  function StartingAt(s: seq<Cue>, k: int): seq<Cue> {
    if s == [] then [] else (if s[0].start == k then [s[0]] else []) + StartingAt(s[1..], k)
  }

  lemma StartingAtCons(x: Cue, s: seq<Cue>, k: int)
    ensures StartingAt([x] + s, k) == (if x.start == k then [x] else []) + StartingAt(s, k)
  {
    assert ([x] + s)[1..] == s;
  }

  lemma {:induction false} StartingAtAppend(a: seq<Cue>, b: seq<Cue>, k: int)
    ensures StartingAt(a + b, k) == StartingAt(a, k) + StartingAt(b, k)
  {
    if a == [] {
      assert a + b == b;
    } else {
      assert a + b == [a[0]] + (a[1..] + b);
      assert a == [a[0]] + a[1..];
      StartingAtAppend(a[1..], b, k);
      StartingAtCons(a[0], a[1..] + b, k);
      StartingAtCons(a[0], a[1..], k);
    }
  }

  lemma {:induction false} StartingAtNone(s: seq<Cue>, k: int)
    requires forall i :: 0 <= i < |s| ==> s[i].start != k
    ensures StartingAt(s, k) == []
  {
    if s != [] {
      StartingAtNone(s[1..], k);
    }
  }

  /** Puts `c` after every leading cue of `t` that starts no later than it. */
  function InsertByStart(c: Cue, t: seq<Cue>): (r: seq<Cue>)
    ensures |r| == |t| + 1
  {
    if t == [] then [c]
    else if t[0].start <= c.start then [t[0]] + InsertByStart(c, t[1..])
    else [c] + t
  }

  lemma SortedCons(x: Cue, s: seq<Cue>)
    requires SortedByStart(s) && (s == [] || x.start <= s[0].start)
    ensures SortedByStart([x] + s)
  {
    var xs := [x] + s;
    forall i, j | 0 <= i < j < |xs| ensures xs[i].start <= xs[j].start {
      assert xs[j] == s[j - 1];
      if i == 0 {
        assert s[0].start <= s[j - 1].start;
      } else {
        assert xs[i] == s[i - 1];
      }
    }
  }

  lemma SortedTail(s: seq<Cue>)
    requires SortedByStart(s) && s != []
    ensures SortedByStart(s[1..])
  {
    forall i, j | 0 <= i < j < |s| - 1 ensures s[1..][i].start <= s[1..][j].start {
      assert s[1..][i] == s[i + 1] && s[1..][j] == s[j + 1];
    }
  }

  /** Inserting into a start-sorted list keeps it sorted, and what comes first is `c` or the old
      first cue. */
  lemma {:induction false} InsertByStartSorted(c: Cue, t: seq<Cue>)
    requires SortedByStart(t)
    ensures SortedByStart(InsertByStart(c, t))
    ensures InsertByStart(c, t)[0] == c || (t != [] && InsertByStart(c, t)[0] == t[0])
    decreases |t|
  {
    if t == [] {
      SortedCons(c, []);
    } else if t[0].start <= c.start {
      SortedTail(t);
      InsertByStartSorted(c, t[1..]);
      var rest := InsertByStart(c, t[1..]);
      assert rest[0] == c || rest[0] == t[1];
      assert t[1..] != [] ==> t[0].start <= t[1].start;
      SortedCons(t[0], rest);
    } else {
      SortedCons(c, t);
    }
  }

  /** Inserting adds `c` and loses nothing. */
  lemma {:induction false} InsertByStartPermutes(c: Cue, t: seq<Cue>)
    ensures multiset(InsertByStart(c, t)) == multiset(t) + multiset{c}
    decreases |t|
  {
    if t != [] && t[0].start <= c.start {
      InsertByStartPermutes(c, t[1..]);
      assert t == [t[0]] + t[1..];
    }
  }

  /** A cue that starts before every cue of a sorted list is alone at its start. */
  lemma StartingAtBefore(c: Cue, t: seq<Cue>, k: int)
    requires SortedByStart(t) && t != [] && c.start < t[0].start
    ensures StartingAt([c] + t, k) == StartingAt(t, k) + (if c.start == k then [c] else [])
  {
    StartingAtCons(c, t, k);
    if c.start == k {
      assert forall i :: 0 <= i < |t| ==> t[i].start != c.start by {
        assert forall i :: 0 <= i < |t| ==> t[0].start <= t[i].start;
      }
      StartingAtNone(t, c.start);
    }
  }

  /** Insertion keeps the order among cues of one start and puts `c` after those of its own. */
  lemma {:induction false} InsertByStartStable(c: Cue, t: seq<Cue>, k: int)
    requires SortedByStart(t)
    ensures StartingAt(InsertByStart(c, t), k) == StartingAt(t, k) + (if c.start == k then [c] else [])
    decreases |t|, 1
  {
    if t == [] {
      StartingAtCons(c, [], k);
    } else if t[0].start <= c.start {
      InsertAfterHeadStable(c, t, k);
    } else {
      StartingAtBefore(c, t, k);
    }
  }

  /** The case where `c` goes after the first cue. */
  lemma {:induction false} InsertAfterHeadStable(c: Cue, t: seq<Cue>, k: int)
    requires SortedByStart(t) && t != [] && t[0].start <= c.start
    ensures StartingAt(InsertByStart(c, t), k) == StartingAt(t, k) + (if c.start == k then [c] else [])
    decreases |t|, 0
  {
    var h := if t[0].start == k then [t[0]] else [];
    var rest := InsertByStart(c, t[1..]);
    assert InsertByStart(c, t) == [t[0]] + rest;
    StartingAtCons(t[0], t[1..], k);
    assert t == [t[0]] + t[1..];
    SortedTail(t);
    InsertByStartStable(c, t[1..], k);
    StartingAtCons(t[0], rest, k);
  }

  /** Python's `list.sort` by start time, as repeated insertion. */
  function SortByStart(s: seq<Cue>): (r: seq<Cue>)
    ensures |r| == |s|
  {
    if s == [] then [] else InsertByStart(s[|s| - 1], SortByStart(s[..|s| - 1]))
  }

  /** The sort's result is ordered by start. */
  lemma {:induction false} SortByStartSorted(s: seq<Cue>)
    ensures SortedByStart(SortByStart(s))
    decreases |s|
  {
    if s != [] {
      var init := s[..|s| - 1];
      SortByStartSorted(init);
      InsertByStartSorted(s[|s| - 1], SortByStart(init));
    }
  }

  /** The sort's result is a permutation of its input. */
  lemma {:induction false} SortByStartPermutes(s: seq<Cue>)
    ensures multiset(SortByStart(s)) == multiset(s)
    decreases |s|
  {
    if s != [] {
      var init := s[..|s| - 1];
      SortByStartPermutes(init);
      InsertByStartPermutes(s[|s| - 1], SortByStart(init));
      assert s == init + [s[|s| - 1]];
    }
  }

  /** One more cue to sort joins the end of the cues of its start. */
  lemma SortStep(s: seq<Cue>, k: int)
    requires s != []
    ensures StartingAt(SortByStart(s), k)
         == StartingAt(SortByStart(s[..|s| - 1]), k) + (if s[|s| - 1].start == k then [s[|s| - 1]] else [])
  {
    SortByStartSorted(s[..|s| - 1]);
    InsertByStartStable(s[|s| - 1], SortByStart(s[..|s| - 1]), k);
  }

  /** The sort is stable: the cues that share a start keep their relative order. */
  lemma {:induction false} SortByStartStable(s: seq<Cue>, k: int)
    ensures StartingAt(SortByStart(s), k) == StartingAt(s, k)
    decreases |s|
  {
    if s != [] {
      var last := s[|s| - 1];
      var init := s[..|s| - 1];
      SortStep(s, k);
      SortByStartStable(init, k);
      SortedSnoc(init, last, k);
      assert s == init + [last];
    }
  }

  lemma SortedSnoc(init: seq<Cue>, last: Cue, k: int)
    ensures StartingAt(init + [last], k) == StartingAt(init, k) + (if last.start == k then [last] else [])
  {
    StartingAtAppend(init, [last], k);
    assert [last][1..] == [];
  }

  lemma StartingAtHead(s: seq<Cue>)
    requires s != []
    ensures StartingAt(s, s[0].start) != [] && StartingAt(s, s[0].start)[0] == s[0]
  {
  }

  lemma {:induction false} StartingAtMember(s: seq<Cue>, k: int)
    requires StartingAt(s, k) != []
    ensures exists i :: 0 <= i < |s| && s[i].start == k
  {
    if s[0].start != k {
      StartingAtMember(s[1..], k);
      var i :| 0 <= i < |s[1..]| && s[1..][i].start == k;
      assert s[i + 1].start == k;
    }
  }

  /** Two lists with the same head and the same cues at `k` have the same cues at `k` after it. */
  lemma StartingAtTails(a: seq<Cue>, b: seq<Cue>, k: int)
    requires a != [] && b != [] && a[0] == b[0]
    requires StartingAt(a, k) == StartingAt(b, k)
    ensures StartingAt(a[1..], k) == StartingAt(b[1..], k)
  {
    var h := if a[0].start == k then [a[0]] else [];
    assert (h + StartingAt(a[1..], k))[|h|..] == StartingAt(a[1..], k);
    assert (h + StartingAt(b[1..], k))[|h|..] == StartingAt(b[1..], k);
  }

  /** Two sorted lists with the same cues at every start time begin with the same cue. */
  lemma SameHeads(a: seq<Cue>, b: seq<Cue>)
    requires a != [] && b != [] && SortedByStart(a) && SortedByStart(b)
    requires StartingAt(a, a[0].start) == StartingAt(b, a[0].start)
    requires StartingAt(a, b[0].start) == StartingAt(b, b[0].start)
    ensures a[0] == b[0]
  {
    StartingAtHead(a);
    StartingAtHead(b);
    assert StartingAt(b, a[0].start) != [];
    StartingAtMember(b, a[0].start);
    StartingAtMember(a, b[0].start);
    assert a[0].start == b[0].start;
  }

  /** Sorting by start is canonical: two start-sorted lists that agree on the ordered cues at every
      start time are equal. Hence sorting is idempotent and the merged order is fully determined. */
  lemma {:induction false} SortedByStartUnique(a: seq<Cue>, b: seq<Cue>)
    requires SortedByStart(a) && SortedByStart(b)
    requires forall k :: StartingAt(a, k) == StartingAt(b, k)
    ensures a == b
    decreases |a|
  {
    if a != [] && b != [] {
      assert StartingAt(a, a[0].start) == StartingAt(b, a[0].start);
      assert StartingAt(a, b[0].start) == StartingAt(b, b[0].start);
      SameHeads(a, b);
      forall k ensures StartingAt(a[1..], k) == StartingAt(b[1..], k) {
        StartingAtTails(a, b, k);
      }
      SortedByStartUnique(a[1..], b[1..]);
      assert a == [a[0]] + a[1..] && b == [b[0]] + b[1..];
    } else if a != [] {
      StartingAtHead(a);
      assert false;
    } else if b != [] {
      StartingAtHead(b);
      assert false;
    }
  }

  lemma SortByStartIdempotent(s: seq<Cue>)
    ensures SortByStart(SortByStart(s)) == SortByStart(s)
    ensures SortedByStart(s) ==> SortByStart(s) == s
  {
    SortByStartSorted(s);
    SortByStartSorted(SortByStart(s));
    forall k ensures StartingAt(SortByStart(SortByStart(s)), k) == StartingAt(SortByStart(s), k)
                  && StartingAt(SortByStart(s), k) == StartingAt(s, k) {
      SortByStartStable(SortByStart(s), k);
      SortByStartStable(s, k);
    }
    SortedByStartUnique(SortByStart(SortByStart(s)), SortByStart(s));
    if SortedByStart(s) {
      SortedByStartUnique(SortByStart(s), s);
    }
  }

  // ---------------------------------------------------------------------------
  // merge_srt_files
  // ---------------------------------------------------------------------------

  /** What `merge_srt_files` hands back. */
  datatype SrtMerge =
    | NoSubtitles                                  // `None`
    | SameFile(path: string)                       // the single source's own path, not read
    | MergedFile(path: string, events: seq<Cue>)   // a new temporary file holding these events

  predicate AllLoad(paths: seq<string>, load: string -> Option<SubFile>) {
    forall i :: 0 <= i < |paths| ==> load(paths[i]).Some?
  }

  function SourcePaths(sources: seq<(string, real)>): (r: seq<string>)
    ensures |r| == |sources| && forall i :: 0 <= i < |r| ==> r[i] == sources[i].0
  {
    seq(|sources|, i requires 0 <= i < |sources| => sources[i].0)
  }

  /** The cues of all sources, each with its own offset applied, concatenated in source order. */
  function Timeline(sources: seq<(string, real)>, load: string -> Option<SubFile>): seq<Cue>
    requires AllLoad(SourcePaths(sources), load)
  {
    if sources == [] then []
    else
      var n := |sources| - 1;
      assert SourcePaths(sources[..n]) == SourcePaths(sources)[..n];
      Timeline(sources[..n], load) + WithOffset(load(sources[n].0).value.events, sources[n].1)
  }

  lemma TimelineSnoc(sources: seq<(string, real)>, i: nat, load: string -> Option<SubFile>)
    requires i < |sources|
    requires AllLoad(SourcePaths(sources[..i]), load)
    requires load(sources[i].0).Some?
    ensures AllLoad(SourcePaths(sources[..i + 1]), load)
    ensures Timeline(sources[..i + 1], load)
         == Timeline(sources[..i], load) + WithOffset(load(sources[i].0).value.events, sources[i].1)
  {
    assert sources[..i + 1][..i] == sources[..i];
    assert forall k :: 0 <= k < i ==> SourcePaths(sources[..i + 1])[k] == SourcePaths(sources[..i])[k];
  }

  /** One pass of the loading loop: the source at `i` is loaded, shifted by its offset and added to
      what was merged so far; `None` when it does not load. */
  method AddSource(sources: seq<(string, real)>, i: nat, load: string -> Option<SubFile>, merged: Option<seq<Cue>>)
    returns (next: Option<seq<Cue>>)
    requires i < |sources|
    requires AllLoad(SourcePaths(sources[..i]), load)
    requires merged == if i == 0 then None else Some(Timeline(sources[..i], load))
    ensures next.None? <==> load(sources[i].0).None?
    ensures next.Some? ==>
      AllLoad(SourcePaths(sources[..i + 1]), load) && next.value == Timeline(sources[..i + 1], load)
  {
    var path, offset := sources[i].0, sources[i].1;
    var subs := load(path);
    if subs.None? {
      return None;
    }
    var events := subs.value.events;
    if offset > 0.0 {
      events := ShiftCues(events, OffsetMs(offset));
    }
    assert events == WithOffset(subs.value.events, offset);
    TimelineSnoc(sources, i, load);
    if merged.None? {
      assert Timeline(sources[..i], load) == [];
      assert [] + events == events;
      next := Some(events);
    } else {
      next := Some(merged.value + events);
    }
  }

  /** The loading loop of `merge_srt_files`: every source is loaded in order and shifted by its
      offset; the first file that does not load stops it with `None`. */
  method LoadTimeline(sources: seq<(string, real)>, load: string -> Option<SubFile>) returns (merged: Option<seq<Cue>>)
    requires |sources| >= 1
    ensures merged.Some? <==> AllLoad(SourcePaths(sources), load)
    ensures merged.Some? ==> merged.value == Timeline(sources, load)
  {
    merged := None;
    var i := 0;
    while i < |sources|
      invariant 0 <= i <= |sources|
      invariant AllLoad(SourcePaths(sources[..i]), load)
      invariant merged == if i == 0 then None else Some(Timeline(sources[..i], load))
    {
      var next := AddSource(sources, i, load, merged);
      if next.None? {
        assert !AllLoad(SourcePaths(sources), load) by {
          assert SourcePaths(sources)[i] == sources[i].0;
        }
        return None;
      }
      merged := next;
      i := i + 1;
    }
    assert sources[..i] == sources;
  }

  /** `merge_srt_files(srt_files)`: no sources gives `None`; one source with offset 0 is handed
      back unread; otherwise every source is loaded (any failure gives `None`, never a partial
      merge), shifted by its offset, concatenated in order and stably sorted by start into a new
      temporary `.srt`. A merge with no cue at all is falsy in the source and gives `None` too, and
      so does a save that fails (`saves(path)` says whether writing `path` succeeds). */
  method MergeSrtFiles(p: Processor, sources: seq<(string, real)>, load: string -> Option<SubFile>,
                       saves: string -> bool)
    returns (r: SrtMerge)
    ensures sources == [] ==> r == NoSubtitles
    ensures |sources| == 1 && sources[0].1 == 0.0 ==> r == SameFile(sources[0].0)
    ensures |sources| >= 1 && !(|sources| == 1 && sources[0].1 == 0.0) ==>
      if !AllLoad(SourcePaths(sources), load) || Timeline(sources, load) == [] || !saves(TempPath(p, "merged", ".srt"))
      then r == NoSubtitles
      else r == MergedFile(TempPath(p, "merged", ".srt"), SortByStart(Timeline(sources, load)))
  {
    if |sources| == 0 {
      return NoSubtitles;
    }
    if |sources| == 1 && sources[0].1 == 0.0 {
      return SameFile(sources[0].0);
    }
    var merged := LoadTimeline(sources, load);
    if merged.Some? && merged.value != [] {
      var outputPath := TempPath(p, "merged", ".srt");
      if !saves(outputPath) {
        return NoSubtitles;
      }
      return MergedFile(outputPath, SortByStart(merged.value));
    }
    return NoSubtitles;
  }

  // ---------------------------------------------------------------------------
  // merge_ass_files
  // ---------------------------------------------------------------------------

  /** What `merge_ass_files` hands back. */
  datatype AssMerge =
    | NoAss                         // `None`
    | SameAss(path: string)         // the only file's own path, not read
    | MergedAss(path: string, events: seq<Cue>, styles: map<string, AssStyle>)

  /** The loop `for line in subs.events: if line.style == old: line.style = new`. */
  method RetargetStyle(events: seq<Cue>, from: string, to: string) returns (r: seq<Cue>)
    ensures r == Retargeted(events, from, to)
  {
    r := events;
    var i := 0;
    while i < |r|
      invariant 0 <= i <= |r| == |events|
      invariant forall k :: 0 <= k < i ==> r[k] == Retargeted(events, from, to)[k]
      invariant forall k :: i <= k < |r| ==> r[k] == events[k]
    {
      if r[i].style == from {
        r := r[i := r[i].(style := to)];
      }
      i := i + 1;
    }
  }

  /** Events that used style `from` now use `to`; nothing else about any event changes, so no event
      is left on `from` (unless it is `to`) and the timings and texts are the old ones. */
  function Retargeted(events: seq<Cue>, from: string, to: string): (r: seq<Cue>)
    ensures |r| == |events|
    ensures forall k :: 0 <= k < |r| ==>
      && r[k].start == events[k].start && r[k].end == events[k].end && r[k].text == events[k].text
      && (r[k].style == to || r[k].style == events[k].style)
      && (events[k].style != from ==> r[k] == events[k])
    ensures from != to ==> forall k :: 0 <= k < |r| ==> r[k].style != from
  {
    seq(|events|, k requires 0 <= k < |events| =>
      if events[k].style == from then events[k].(style := to) else events[k])
  }

  function RenamedStyle(name: string, i: nat): string {
    name + "_" + NatToString(i)
  }

  /** Adoption of the styles of file number `i`, item by item: a style name the merged file does not
      have yet is added as `name_i` and the file's events that use it are retargeted; a name it
      already has is left alone, and the file's events then use the merged file's style. */
  function AdoptStyles(styles: map<string, AssStyle>, events: seq<Cue>, items: seq<(string, AssStyle)>, i: nat)
    : (map<string, AssStyle>, seq<Cue>)
    decreases |items|
  {
    if items == [] then (styles, events)
    else
      var name := items[0].0;
      if name in styles then AdoptStyles(styles, events, items[1..], i)
      else
        AdoptStyles(styles[RenamedStyle(name, i) := items[0].1],
                    Retargeted(events, name, RenamedStyle(name, i)), items[1..], i)
  }

  /** Files `i..` adopted in turn into the merged styles and events. */
  function MergeFrom(styles: map<string, AssStyle>, events: seq<Cue>, all: seq<SubFile>, i: nat)
    : (map<string, AssStyle>, seq<Cue>)
    decreases |all| - i
  {
    if i >= |all| then (styles, events)
    else
      var adopted := AdoptStyles(styles, all[i].events, all[i].styles, i);
      MergeFrom(adopted.0, events + adopted.1, all, i + 1)
  }

  /** The merged styles and (unsorted) events of a list of at least two loaded files. */
  function MergedAssContent(all: seq<SubFile>): (map<string, AssStyle>, seq<Cue>)
    requires |all| >= 1
  {
    MergeFrom(ItemsMap(all[0].styles), all[0].events, all, 1)
  }

  method AdoptStylesLoop(styles0: map<string, AssStyle>, events0: seq<Cue>, items: seq<(string, AssStyle)>, i: nat)
    returns (styles: map<string, AssStyle>, events: seq<Cue>)
    ensures (styles, events) == AdoptStyles(styles0, events0, items, i)
  {
    styles, events := styles0, events0;
    var j := 0;
    while j < |items|
      invariant 0 <= j <= |items|
      invariant AdoptStyles(styles, events, items[j..], i) == AdoptStyles(styles0, events0, items, i)
    {
      var name, style := items[j].0, items[j].1;
      assert items[j..][1..] == items[j + 1..];
      if name !in styles {
        var newName := RenamedStyle(name, i);
        styles := styles[newName := style];
        events := RetargetStyle(events, name, newName);
      }
      j := j + 1;
    }
  }

  /** `merge_ass_files(ass_files)`: no file gives `None`; a single file is handed back unread;
      otherwise all files are loaded (any failure gives `None`), the first is the base, the styles
      and events of the others are adopted in order, and the events are stably sorted by start into
      a new temporary `.ass`, or `None` when that save fails. */
  method MergeAssFiles(p: Processor, files: seq<string>, load: string -> Option<SubFile>, saves: string -> bool)
    returns (r: AssMerge)
    ensures files == [] ==> r == NoAss
    ensures |files| == 1 ==> r == SameAss(files[0])
    ensures |files| >= 2 ==>
      if !AllLoad(files, load) || !saves(TempPath(p, "merged", ".ass")) then r == NoAss
      else
        var all := seq(|files|, k requires 0 <= k < |files| && AllLoad(files, load) => load(files[k]).value);
        var content := MergedAssContent(all);
        r == MergedAss(TempPath(p, "merged", ".ass"), SortByStart(content.1), content.0)
  {
    if |files| == 0 {
      return NoAss;
    }
    if |files| == 1 {
      return SameAss(files[0]);
    }
    var all: seq<SubFile> := [];
    var i := 0;
    while i < |files|
      invariant 0 <= i <= |files|
      invariant |all| == i
      invariant forall k :: 0 <= k < i ==> load(files[k]) == Some(all[k])
    {
      var subs := load(files[i]);
      if subs.None? {
        return NoAss;
      }
      all := all + [subs.value];
      i := i + 1;
    }
    ghost var spec := seq(|files|, k requires 0 <= k < |files| && AllLoad(files, load) => load(files[k]).value);
    assert all == spec;
    var styles := ItemsMap(all[0].styles);
    var events := all[0].events;
    i := 1;
    while i < |all|
      invariant 1 <= i <= |all|
      invariant MergeFrom(styles, events, all, i) == MergedAssContent(all)
    {
      var adoptedStyles, adoptedEvents := AdoptStylesLoop(styles, all[i].events, all[i].styles, i);
      styles := adoptedStyles;
      events := events + adoptedEvents;
      i := i + 1;
    }
    var outputPath := TempPath(p, "merged", ".ass");
    if !saves(outputPath) {
      return NoAss;
    }
    return MergedAss(outputPath, SortByStart(events), styles);
  }

  // ---------------------------------------------------------------------------
  // What the ASS merge keeps
  // ---------------------------------------------------------------------------

  /** A cue without its style name: what the merge must not change. */
  function Timing(c: Cue): Cue {
    c.(style := "")
  }

  function Timings(s: seq<Cue>): (r: seq<Cue>)
    ensures |r| == |s| && forall k :: 0 <= k < |s| ==> r[k] == Timing(s[k])
  {
    seq(|s|, k requires 0 <= k < |s| => Timing(s[k]))
  }

  lemma TimingsAppend(a: seq<Cue>, b: seq<Cue>)
    ensures Timings(a + b) == Timings(a) + Timings(b)
  {
  }

  lemma {:induction false} AdoptKeepsTimings(styles: map<string, AssStyle>, events: seq<Cue>,
                                             items: seq<(string, AssStyle)>, i: nat)
    ensures Timings(AdoptStyles(styles, events, items, i).1) == Timings(events)
    ensures styles.Keys <= AdoptStyles(styles, events, items, i).0.Keys
    decreases |items|
  {
    if items != [] {
      var name := items[0].0;
      if name in styles {
        AdoptKeepsTimings(styles, events, items[1..], i);
      } else {
        var n := RenamedStyle(name, i);
        AdoptKeepsTimings(styles[n := items[0].1], Retargeted(events, name, n), items[1..], i);
      }
    }
  }

  /** All events of `all[i..]`, concatenated in file order. */
  function EventsFrom(all: seq<SubFile>, i: nat): seq<Cue>
    decreases |all| - i
  {
    if i >= |all| then [] else all[i].events + EventsFrom(all, i + 1)
  }

  lemma {:induction false} MergeKeepsTimings(styles: map<string, AssStyle>, events: seq<Cue>, all: seq<SubFile>, i: nat)
    ensures Timings(MergeFrom(styles, events, all, i).1) == Timings(events) + Timings(EventsFrom(all, i))
    ensures MergeFrom(styles, events, all, i).1[..|events|] == events
    ensures styles.Keys <= MergeFrom(styles, events, all, i).0.Keys
    decreases |all| - i
  {
    if i < |all| {
      var adopted := AdoptStyles(styles, all[i].events, all[i].styles, i);
      AdoptKeepsTimings(styles, all[i].events, all[i].styles, i);
      MergeKeepsTimings(adopted.0, events + adopted.1, all, i + 1);
      TimingsAppend(events, adopted.1);
      TimingsAppend(all[i].events, EventsFrom(all, i + 1));
      var out := MergeFrom(adopted.0, events + adopted.1, all, i + 1).1;
      assert out[..|events|] == out[..|events + adopted.1|][..|events|];
    } else {
      assert events[..|events|] == events;
    }
  }

  /** Taking the style names away commutes with the stable sort, which looks at starts only. */
  lemma {:induction false} TimingsOfInsert(c: Cue, t: seq<Cue>)
    ensures Timings(InsertByStart(c, t)) == InsertByStart(Timing(c), Timings(t))
    decreases |t|
  {
    if t != [] {
      assert Timings(t)[1..] == Timings(t[1..]);
      TimingsOfInsert(c, t[1..]);
      if t[0].start <= c.start {
        assert Timings([t[0]] + InsertByStart(c, t[1..])) == [Timing(t[0])] + Timings(InsertByStart(c, t[1..]));
      } else {
        assert Timings([c] + t) == [Timing(c)] + Timings(t);
      }
    }
  }

  lemma {:induction false} TimingsOfSort(s: seq<Cue>)
    ensures Timings(SortByStart(s)) == SortByStart(Timings(s))
    decreases |s|
  {
    if s != [] {
      var init := s[..|s| - 1];
      TimingsOfSort(init);
      TimingsOfInsert(s[|s| - 1], SortByStart(init));
      assert Timings(s)[..|s| - 1] == Timings(init);
    }
  }

  /** Each event's style is one of the file's own style names. */
  predicate StylesResolve(events: seq<Cue>, names: set<string>) {
    forall k :: 0 <= k < |events| ==> events[k].style in names
  }

  lemma {:induction false} AdoptResolves(styles: map<string, AssStyle>, events: seq<Cue>,
                                         items: seq<(string, AssStyle)>, i: nat)
    requires StylesResolve(events, styles.Keys + KeysOf(items))
    ensures StylesResolve(AdoptStyles(styles, events, items, i).1, AdoptStyles(styles, events, items, i).0.Keys)
    decreases |items|
  {
    if items != [] {
      var name := items[0].0;
      assert KeysOf(items) == {name} + KeysOf(items[1..]);
      if name in styles {
        AdoptResolves(styles, events, items[1..], i);
      } else {
        var n := RenamedStyle(name, i);
        var s' := styles[n := items[0].1];
        var e' := Retargeted(events, name, n);
        assert StylesResolve(e', s'.Keys + KeysOf(items[1..]));
        AdoptResolves(s', e', items[1..], i);
      }
    }
  }

  lemma {:induction false} MergeResolves(styles: map<string, AssStyle>, events: seq<Cue>, all: seq<SubFile>, i: nat)
    requires StylesResolve(events, styles.Keys)
    requires forall k :: i <= k < |all| ==> StylesResolve(all[k].events, KeysOf(all[k].styles))
    ensures StylesResolve(MergeFrom(styles, events, all, i).1, MergeFrom(styles, events, all, i).0.Keys)
    decreases |all| - i
  {
    if i < |all| {
      var adopted := AdoptStyles(styles, all[i].events, all[i].styles, i);
      AdoptResolves(styles, all[i].events, all[i].styles, i);
      AdoptKeepsTimings(styles, all[i].events, all[i].styles, i);
      MergeResolves(adopted.0, events + adopted.1, all, i + 1);
    }
  }

  /** What a merged ASS file keeps: its events are the stable sort by start of every file's events
      in file order, changed in style names only; the base file's style names are all still defined;
      and when every input event names a style of its own file, every merged event names a style of
      the merged file. */
  lemma MergedAssProperties(all: seq<SubFile>)
    requires |all| >= 1
    ensures Timings(SortByStart(MergedAssContent(all).1)) == SortByStart(Timings(EventsFrom(all, 0)))
    ensures KeysOf(all[0].styles) <= MergedAssContent(all).0.Keys
    ensures (forall k :: 0 <= k < |all| ==> StylesResolve(all[k].events, KeysOf(all[k].styles))) ==>
      StylesResolve(MergedAssContent(all).1, MergedAssContent(all).0.Keys)
  {
    var base := ItemsMap(all[0].styles);
    MergeKeepsTimings(base, all[0].events, all, 1);
    TimingsOfSort(MergedAssContent(all).1);
    TimingsAppend(all[0].events, EventsFrom(all, 1));
    if forall k :: 0 <= k < |all| ==> StylesResolve(all[k].events, KeysOf(all[k].styles)) {
      MergeResolves(base, all[0].events, all, 1);
    }
  }

  /** As written, a renamed style can replace a base style of the same name: a base with style
      "A_1" merged with a file whose style "A" is new gets "A_1" redefined, so the base's own
      events that use "A_1" now render with the second file's style. */
  lemma RenamedStyleOverwritesBase(s1: AssStyle, s2: AssStyle, c: Cue)
    requires s1 != s2
    ensures var all := [SubFile([c.(style := "A_1")], [("A_1", s1)]), SubFile([], [("A", s2)])];
            "A_1" in MergedAssContent(all).0 && MergedAssContent(all).0["A_1"] == s2
  {
    var all := [SubFile([c.(style := "A_1")], [("A_1", s1)]), SubFile([], [("A", s2)])];
    var base := map["A_1" := s1];
    assert ItemsMap(all[0].styles) == base;
    assert NatToString(1) == "1";
    assert RenamedStyle("A", 1) == "A_1";
    var adopted := AdoptStyles(base, [], [("A", s2)], 1);
    assert "A" !in base;
    assert [("A", s2)][1..] == [];
    assert adopted == AdoptStyles(base["A_1" := s2], Retargeted([], "A", "A_1"), [], 1);
    assert adopted.0 == base["A_1" := s2];
    assert MergedAssContent(all) == MergeFrom(adopted.0, all[0].events + adopted.1, all, 2);
  }
}
