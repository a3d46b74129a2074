/** `convert_srt_to_ass`: the fixed default style, the projection of subtitle settings onto it
    through the field table, the cleaning of each cue's text (the `'}{'` removal loop, then
    `strip('{}')`, then an `{\anN}` alignment tag) and the offset shift. */
module Conversion {
  import opened Common
  import opened Paths
  import opened Subtitles
  import opened Presets

  /** The style built before any setting is applied: "Ubuntu Bold" 20, white text, black outline
      and back colour, outline 2, shadow 1, middle-centre alignment 5, margins 20. */
  const DefaultStyle := AssStyle(
    "Ubuntu Bold", 20, "&HFFFFFF&", "&H000000&", "&H000000&",
    0, 0, 2, 1, 5, 20, 20, 20)

  // ---------------------------------------------------------------------------
  // Style projection
  // ---------------------------------------------------------------------------

  /** The attribute names a settings object can carry. */
  datatype Setting =
    | Font | FontSize | PrimaryColor | OutlineColor | BackColor
    | Outline | Shadow | MarginV | MarginH | Alignment | MaxChars | Name

  /** The `SSAStyle` fields the field table writes. */
  datatype StyleField =
    | FontnameField | FontsizeField | PrimarycolorField | OutlinecolorField | BackcolorField
    | OutlineField | ShadowField | MarginvField | MarginlField | MarginrField | AlignmentField

  /** The settings object as its attributes: `hasattr(s, f)` is `f in attrs` and
      `getattr(s, f)` is `attrs[f]`. */
  type Attributes = map<Setting, string>

  /** The attributes of a `SubtitleSettings` object: all twelve of its fields. */
  function SettingsAttributes(s: SubtitleSettings): (a: Attributes)
    ensures Font in a && FontSize in a && PrimaryColor in a && OutlineColor in a && BackColor in a
    ensures Outline in a && Shadow in a && MarginV in a && MarginH in a && Alignment in a
    ensures MaxChars in a && Name in a
    ensures a[Font] == s.font && a[FontSize] == s.fontSize && a[Alignment] == s.alignment
  {
    map[Font := s.font, FontSize := s.fontSize, PrimaryColor := s.primaryColor,
        OutlineColor := s.outlineColor, BackColor := s.backColor,
        Outline := s.outline, Shadow := s.shadow, MarginV := s.marginV, MarginH := s.marginH,
        Alignment := s.alignment, MaxChars := s.maxChars, Name := s.name]
  }

  /** The field table, in its order: a settings attribute and the style field it sets. */
  const FieldTable: seq<(Setting, StyleField)> := [
    (Font, FontnameField), (FontSize, FontsizeField), (PrimaryColor, PrimarycolorField),
    (OutlineColor, OutlinecolorField), (BackColor, BackcolorField), (Outline, OutlineField),
    (Shadow, ShadowField), (MarginV, MarginvField), (MarginH, MarginlField), (Alignment, AlignmentField)]

  /** The settings whose value goes through `int(str(value))`. */
  predicate IsNumeric(s: Setting) {
    s.FontSize? || s.Outline? || s.Shadow? || s.MarginV? || s.MarginH? || s.Alignment?
  }

  function SetText(style: AssStyle, field: StyleField, v: string): AssStyle {
    match field
    case FontnameField => style.(fontname := v)
    case PrimarycolorField => style.(primarycolor := v)
    case OutlinecolorField => style.(outlinecolor := v)
    case BackcolorField => style.(backcolor := v)
    case _ => style
  }

  function SetNumber(style: AssStyle, field: StyleField, v: int): AssStyle {
    match field
    case FontsizeField => style.(fontsize := v)
    case OutlineField => style.(outline := v)
    case ShadowField => style.(shadow := v)
    case MarginvField => style.(marginv := v)
    case MarginlField => style.(marginl := v)
    case MarginrField => style.(marginr := v)
    case AlignmentField => style.(alignment := v)
    case _ => style
  }

  /** A numeric setting: the parsed value when present (or `None`, the ValueError), the default
      when absent. */
  function NumberSetting(attrs: Attributes, key: Setting, default: int, toInt: string -> Option<int>): Option<int> {
    if key in attrs then toInt(attrs[key]) else Some(default)
  }

  function TextSetting(attrs: Attributes, key: Setting, default: string): string {
    if key in attrs then attrs[key] else default
  }

  /** A present numeric setting that `int` rejects. */
  predicate Rejected(attrs: Attributes, key: Setting, toInt: string -> Option<int>) {
    IsNumeric(key) && key in attrs && toInt(attrs[key]).None?
  }

  /** The style the settings describe, field by field: a present attribute replaces the default,
      an absent one keeps it, `margin_h` gives both side margins, bold and italic stay 0, and a
      numeric attribute that `int` rejects makes the whole conversion fail. Without settings the
      default style is used as it is. */
  function ProjectedStyle(settings: Option<Attributes>, toInt: string -> Option<int>): (r: Option<AssStyle>)
    ensures settings.None? ==> r == Some(DefaultStyle)
    ensures settings.Some? ==> (r.None? <==> exists k :: Rejected(settings.value, k, toInt))
    ensures r.Some? ==> r.value.marginl == r.value.marginr && r.value.bold == 0 && r.value.italic == 0
  {
    if settings.None? then Some(DefaultStyle)
    else
      var a := settings.value;
      var size := NumberSetting(a, FontSize, 20, toInt);
      var outline := NumberSetting(a, Outline, 2, toInt);
      var shadow := NumberSetting(a, Shadow, 1, toInt);
      var marginV := NumberSetting(a, MarginV, 20, toInt);
      var marginH := NumberSetting(a, MarginH, 20, toInt);
      var alignment := NumberSetting(a, Alignment, 5, toInt);
      assert (exists k :: Rejected(a, k, toInt)) ==>
        size.None? || outline.None? || shadow.None? || marginV.None? || marginH.None? || alignment.None?;
      assert size.None? ==> Rejected(a, FontSize, toInt);
      assert outline.None? ==> Rejected(a, Outline, toInt);
      assert shadow.None? ==> Rejected(a, Shadow, toInt);
      assert marginV.None? ==> Rejected(a, MarginV, toInt);
      assert marginH.None? ==> Rejected(a, MarginH, toInt);
      assert alignment.None? ==> Rejected(a, Alignment, toInt);
      if size.Some? && outline.Some? && shadow.Some? && marginV.Some? && marginH.Some? && alignment.Some? then
        Some(AssStyle(
          TextSetting(a, Font, "Ubuntu Bold"), size.value,
          TextSetting(a, PrimaryColor, "&HFFFFFF&"), TextSetting(a, OutlineColor, "&H000000&"),
          TextSetting(a, BackColor, "&H000000&"),
          0, 0, outline.value, shadow.value, alignment.value, marginV.value, marginH.value, marginH.value))
      else None
  }

  /** One row of the field table applied to `style`. */
  function ApplyField(attrs: Attributes, style: AssStyle, setting: Setting, field: StyleField,
                      toInt: string -> Option<int>): Option<AssStyle> {
    if setting !in attrs then Some(style)
    else if IsNumeric(setting) then
      match toInt(attrs[setting])
      case None => None
      case Some(n) =>
        var s := SetNumber(style, field, n);
        Some(if setting == MarginH then SetNumber(s, MarginrField, n) else s)
    else Some(SetText(style, field, attrs[setting]))
  }

  /** The rows `i..` of the field table applied in order; a failed row stops everything. */
  function ApplyFieldsFrom(attrs: Attributes, style: AssStyle, i: nat, toInt: string -> Option<int>): Option<AssStyle>
    decreases |FieldTable| - i
  {
    if i >= |FieldTable| then Some(style)
    else
      match ApplyField(attrs, style, FieldTable[i].0, FieldTable[i].1, toInt)
      case None => None
      case Some(s) => ApplyFieldsFrom(attrs, s, i + 1, toInt)
  }

  /** The rows of the field table, one by one. */
  lemma FieldTableRows()
    ensures |FieldTable| == 10
    ensures FieldTable[0] == (Font, FontnameField) && FieldTable[1] == (FontSize, FontsizeField)
    ensures FieldTable[2] == (PrimaryColor, PrimarycolorField) && FieldTable[3] == (OutlineColor, OutlinecolorField)
    ensures FieldTable[4] == (BackColor, BackcolorField) && FieldTable[5] == (Outline, OutlineField)
    ensures FieldTable[6] == (Shadow, ShadowField) && FieldTable[7] == (MarginV, MarginvField)
    ensures FieldTable[8] == (MarginH, MarginlField) && FieldTable[9] == (Alignment, AlignmentField)
  {
  }

  /** Rows 0 and 1: the font name, then the font size, which may fail. */
  lemma ApplyFrom0(attrs: Attributes, s: AssStyle, toInt: string -> Option<int>)
    ensures ApplyFieldsFrom(attrs, s, 0, toInt) ==
      match NumberSetting(attrs, FontSize, s.fontsize, toInt)
      case None => None
      case Some(v) => ApplyFieldsFrom(attrs, s.(fontname := TextSetting(attrs, Font, s.fontname), fontsize := v), 2, toInt)
  {
    FieldTableRows();
    var s1 := s.(fontname := TextSetting(attrs, Font, s.fontname));
    assert ApplyFieldsFrom(attrs, s, 0, toInt) == ApplyFieldsFrom(attrs, s1, 1, toInt);
  }

  /** Rows 2 to 4: the three colours, which cannot fail. */
  lemma ApplyFrom2(attrs: Attributes, s: AssStyle, toInt: string -> Option<int>)
    ensures ApplyFieldsFrom(attrs, s, 2, toInt)
         == ApplyFieldsFrom(attrs, s.(primarycolor := TextSetting(attrs, PrimaryColor, s.primarycolor)), 3, toInt)
  {
    assert FieldTable[2] == (PrimaryColor, PrimarycolorField);
    assert ApplyField(attrs, s, PrimaryColor, PrimarycolorField, toInt)
        == Some(s.(primarycolor := TextSetting(attrs, PrimaryColor, s.primarycolor)));
  }

  lemma ApplyFrom3(attrs: Attributes, s: AssStyle, toInt: string -> Option<int>)
    ensures ApplyFieldsFrom(attrs, s, 3, toInt)
         == ApplyFieldsFrom(attrs, s.(outlinecolor := TextSetting(attrs, OutlineColor, s.outlinecolor)), 4, toInt)
  {
    assert FieldTable[3] == (OutlineColor, OutlinecolorField);
    assert ApplyField(attrs, s, OutlineColor, OutlinecolorField, toInt)
        == Some(s.(outlinecolor := TextSetting(attrs, OutlineColor, s.outlinecolor)));
  }

  lemma ApplyFrom4(attrs: Attributes, s: AssStyle, toInt: string -> Option<int>)
    ensures ApplyFieldsFrom(attrs, s, 4, toInt)
         == ApplyFieldsFrom(attrs, s.(backcolor := TextSetting(attrs, BackColor, s.backcolor)), 5, toInt)
  {
    assert FieldTable[4] == (BackColor, BackcolorField);
    assert ApplyField(attrs, s, BackColor, BackcolorField, toInt)
        == Some(s.(backcolor := TextSetting(attrs, BackColor, s.backcolor)));
  }

  lemma ApplyFrom5(attrs: Attributes, s: AssStyle, toInt: string -> Option<int>)
    ensures ApplyFieldsFrom(attrs, s, 5, toInt) ==
      match NumberSetting(attrs, Outline, s.outline, toInt)
      case None => None
      case Some(v) => ApplyFieldsFrom(attrs, s.(outline := v), 6, toInt)
  {
    FieldTableRows();
  }

  lemma ApplyFrom6(attrs: Attributes, s: AssStyle, toInt: string -> Option<int>)
    ensures ApplyFieldsFrom(attrs, s, 6, toInt) ==
      match NumberSetting(attrs, Shadow, s.shadow, toInt)
      case None => None
      case Some(v) => ApplyFieldsFrom(attrs, s.(shadow := v), 7, toInt)
  {
    FieldTableRows();
  }

  lemma ApplyFrom7(attrs: Attributes, s: AssStyle, toInt: string -> Option<int>)
    ensures ApplyFieldsFrom(attrs, s, 7, toInt) ==
      match NumberSetting(attrs, MarginV, s.marginv, toInt)
      case None => None
      case Some(v) => ApplyFieldsFrom(attrs, s.(marginv := v), 8, toInt)
  {
    FieldTableRows();
  }

  /** Row 8: `margin_h` sets both side margins. */
  lemma ApplyFrom8(attrs: Attributes, s: AssStyle, toInt: string -> Option<int>)
    requires s.marginl == s.marginr
    ensures ApplyFieldsFrom(attrs, s, 8, toInt) ==
      match NumberSetting(attrs, MarginH, s.marginl, toInt)
      case None => None
      case Some(v) => ApplyFieldsFrom(attrs, s.(marginl := v, marginr := v), 9, toInt)
  {
    FieldTableRows();
  }

  /** Row 9, the last one. */
  lemma ApplyFrom9(attrs: Attributes, s: AssStyle, toInt: string -> Option<int>)
    ensures ApplyFieldsFrom(attrs, s, 9, toInt) ==
      match NumberSetting(attrs, Alignment, s.alignment, toInt)
      case None => None
      case Some(v) => Some(s.(alignment := v))
  {
    FieldTableRows();
    var n := NumberSetting(attrs, Alignment, s.alignment, toInt);
    if n.Some? {
      assert ApplyFieldsFrom(attrs, s.(alignment := n.value), 10, toInt) == Some(s.(alignment := n.value));
    }
  }

  /** Rows 5 to 9 on a style whose side margins agree: each numeric setting either fails the whole
      table or takes its place. */
  lemma ApplyNumericRows(attrs: Attributes, s: AssStyle, toInt: string -> Option<int>)
    requires s.marginl == s.marginr
    ensures ApplyFieldsFrom(attrs, s, 5, toInt) ==
      var outline := NumberSetting(attrs, Outline, s.outline, toInt);
      var shadow := NumberSetting(attrs, Shadow, s.shadow, toInt);
      var marginV := NumberSetting(attrs, MarginV, s.marginv, toInt);
      var marginH := NumberSetting(attrs, MarginH, s.marginl, toInt);
      var alignment := NumberSetting(attrs, Alignment, s.alignment, toInt);
      if outline.Some? && shadow.Some? && marginV.Some? && marginH.Some? && alignment.Some? then
        Some(s.(outline := outline.value, shadow := shadow.value, marginv := marginV.value,
                marginl := marginH.value, marginr := marginH.value, alignment := alignment.value))
      else None
  {
    ApplyFrom5(attrs, s, toInt);
    var outline := NumberSetting(attrs, Outline, s.outline, toInt);
    if outline.Some? {
      var s6 := s.(outline := outline.value);
      ApplyFrom6(attrs, s6, toInt);
      var shadow := NumberSetting(attrs, Shadow, s.shadow, toInt);
      if shadow.Some? {
        var s7 := s6.(shadow := shadow.value);
        ApplyFrom7(attrs, s7, toInt);
        var marginV := NumberSetting(attrs, MarginV, s.marginv, toInt);
        if marginV.Some? {
          var s8 := s7.(marginv := marginV.value);
          ApplyFrom8(attrs, s8, toInt);
          var marginH := NumberSetting(attrs, MarginH, s.marginl, toInt);
          if marginH.Some? {
            ApplyFrom9(attrs, s8.(marginl := marginH.value, marginr := marginH.value), toInt);
          }
        }
      }
    }
  }

  /** Running the field table over the default style gives the style the settings describe. */
  lemma FieldTableProjects(attrs: Attributes, toInt: string -> Option<int>)
    ensures ApplyFieldsFrom(attrs, DefaultStyle, 0, toInt) == ProjectedStyle(Some(attrs), toInt)
  {
    ApplyFrom0(attrs, DefaultStyle, toInt);
    var size := NumberSetting(attrs, FontSize, 20, toInt);
    if size.Some? {
      var s2 := DefaultStyle.(fontname := TextSetting(attrs, Font, "Ubuntu Bold"), fontsize := size.value);
      ApplyFrom2(attrs, s2, toInt);
      var s3 := s2.(primarycolor := TextSetting(attrs, PrimaryColor, "&HFFFFFF&"));
      ApplyFrom3(attrs, s3, toInt);
      var s4 := s3.(outlinecolor := TextSetting(attrs, OutlineColor, "&H000000&"));
      ApplyFrom4(attrs, s4, toInt);
      ApplyNumericRows(attrs, s4.(backcolor := TextSetting(attrs, BackColor, "&H000000&")), toInt);
    }
  }

  /** One pass of the loop: `setattr(style, style_field, value)` for a present attribute, through
      `int(str(value))` for a numeric one; `None` is the ValueError. */
  method ApplyRow(attrs: Attributes, style: AssStyle, setting: Setting, field: StyleField)
    returns (r: Option<AssStyle>)
    ensures r == ApplyField(attrs, style, setting, field, ParseInt)
  {
    if setting !in attrs {
      return Some(style);
    }
    var value := attrs[setting];
    if !IsNumeric(setting) {
      return Some(SetText(style, field, value));
    }
    var n := ParseInt(value);
    if n.None? {
      return None;
    }
    var s := SetNumber(style, field, n.value);
    if setting == MarginH {
      s := SetNumber(s, MarginrField, n.value);
    }
    return Some(s);
  }

  /** The `for preset_field, style_field in field_mapping.items()` loop over the default style;
      `None` is the ValueError of a numeric setting that is not an integer. */
  method ProjectStyle(settings: Option<Attributes>) returns (r: Option<AssStyle>)
    ensures r == ProjectedStyle(settings, ParseInt)
  {
    var style := DefaultStyle;
    if settings.Some? {
      var attrs := settings.value;
      FieldTableProjects(attrs, ParseInt);
      var i := 0;
      while i < |FieldTable|
        invariant 0 <= i <= |FieldTable|
        invariant ApplyFieldsFrom(attrs, style, i, ParseInt) == ApplyFieldsFrom(attrs, DefaultStyle, 0, ParseInt)
      {
        var next := ApplyRow(attrs, style, FieldTable[i].0, FieldTable[i].1);
        if next.None? {
          return None;
        }
        style := next.value;
        i := i + 1;
      }
    }
    return Some(style);
  }

  /** The numbers of the default preset are integers to `int`. */
  lemma DefaultNumbersParse()
    ensures ParseInt("48") == Some(48) && ParseInt("2") == Some(2)
    ensures ParseInt("0") == Some(0) && ParseInt("20") == Some(20)
  {
    ParseTwoDigits('4', '8');
    ParseOneDigit('2');
    ParseOneDigit('0');
    ParseTwoDigits('2', '0');
  }

  /** Settings carrying the default preset's values, whatever the integer parser, project to
      Arial 48, outline 2, shadow 0, bottom-centre alignment 2 and margins 20 once the parser reads
      those numbers. */
  lemma DefaultPresetProjectsWith(m: Attributes, toInt: string -> Option<int>)
    requires Font in m && FontSize in m && PrimaryColor in m && OutlineColor in m && BackColor in m
    requires Outline in m && Shadow in m && MarginV in m && MarginH in m && Alignment in m
    requires m[Font] == "Arial" && m[PrimaryColor] == "&HFFFFFF&"
    requires m[OutlineColor] == "&H000000&" && m[BackColor] == "&H000000&"
    requires toInt(m[FontSize]) == Some(48) && toInt(m[Outline]) == Some(2) && toInt(m[Shadow]) == Some(0)
    requires toInt(m[MarginV]) == Some(20) && toInt(m[MarginH]) == Some(20) && toInt(m[Alignment]) == Some(2)
    ensures ProjectedStyle(Some(m), toInt)
         == Some(AssStyle("Arial", 48, "&HFFFFFF&", "&H000000&", "&H000000&", 0, 0, 2, 0, 2, 20, 20, 20))
  {
  }

  /** Settings carrying the default preset's values project to Arial 48, outline 2, shadow 0,
      bottom-centre alignment 2 and margins 20. */
  lemma DefaultPresetProjects(m: Attributes)
    requires Font in m && FontSize in m && PrimaryColor in m && OutlineColor in m && BackColor in m
    requires Outline in m && Shadow in m && MarginV in m && MarginH in m && Alignment in m
    requires m[Font] == "Arial" && m[FontSize] == "48" && m[PrimaryColor] == "&HFFFFFF&"
    requires m[OutlineColor] == "&H000000&" && m[BackColor] == "&H000000&"
    requires m[Outline] == "2" && m[Shadow] == "0" && m[MarginV] == "20" && m[MarginH] == "20"
    requires m[Alignment] == "2"
    ensures ProjectedStyle(Some(m), ParseInt)
         == Some(AssStyle("Arial", 48, "&HFFFFFF&", "&H000000&", "&H000000&", 0, 0, 2, 0, 2, 20, 20, 20))
  {
    DefaultNumbersParse();
    DefaultPresetProjectsWith(m, ParseInt);
  }

  /** The default preset replaces every field of the default style but bold and italic. */
  lemma DefaultPresetStyle()
    ensures ProjectedStyle(Some(SettingsAttributes(DefaultSettings)), ParseInt)
         == Some(AssStyle("Arial", 48, "&HFFFFFF&", "&H000000&", "&H000000&", 0, 0, 2, 0, 2, 20, 20, 20))
  {
    DefaultPresetProjects(SettingsAttributes(DefaultSettings));
  }

  // ---------------------------------------------------------------------------
  // Cue text
  // ---------------------------------------------------------------------------

  predicate IsBrace(c: char) { c == '{' || c == '}' }

  /** A "}{" pair at position `k`. */
  predicate PairAt(s: string, k: int) {
    0 <= k && k + 1 < |s| && s[k] == '}' && s[k + 1] == '{'
  }

  ghost predicate HasPair(s: string) {
    exists k :: PairAt(s, k)
  }

  lemma ContainsPair(s: string)
    ensures Contains(s, "}{") <==> HasPair(s)
  {
    if Contains(s, "}{") {
      var k := FindFirst(s, "}{").value;
      assert s[k..k + 2] == "}{";
      assert s[k] == s[k..k + 2][0] && s[k + 1] == s[k..k + 2][1];
      assert PairAt(s, k);
    }
    if HasPair(s) {
      var k :| PairAt(s, k);
      assert s[k..k + 2] == "}{";
      assert OccursAt(s, "}{", k);
    }
  }

  /** The characters of `s` other than braces, in order. */
  function NonBraces(s: string): string {
    if s == [] then [] else (if IsBrace(s[0]) then [] else [s[0]]) + NonBraces(s[1..])
  }

  function Count(s: string, c: char): nat {
    if s == [] then 0 else (if s[0] == c then 1 else 0) + Count(s[1..], c)
  }

  /** What one more character in front adds to the non-brace text and to the counts. */
  lemma ConsCounts(c: char, s: string)
    ensures NonBraces([c] + s) == (if IsBrace(c) then [] else [c]) + NonBraces(s)
    ensures Count([c] + s, '{') == (if c == '{' then 1 else 0) + Count(s, '{')
    ensures Count([c] + s, '}') == (if c == '}' then 1 else 0) + Count(s, '}')
  {
    assert ([c] + s)[1..] == s;
  }

  /** A "}{" in front is one '}' and one '{' and nothing else. */
  lemma DropPair(s: string)
    requires PairAt(s, 0)
    ensures NonBraces(s) == NonBraces(s[2..])
    ensures Count(s, '{') == Count(s[2..], '{') + 1 && Count(s, '}') == Count(s[2..], '}') + 1
  {
    assert s == [s[0]] + s[1..] && s[1..] == [s[1]] + s[2..];
    ConsCounts(s[0], s[1..]);
    ConsCounts(s[1], s[2..]);
  }

  /** Without a pair in front, a text holds a pair exactly when its tail does. */
  lemma PairInTail(s: string)
    requires s != [] && !PairAt(s, 0)
    ensures HasPair(s) <==> HasPair(s[1..])
  {
    if HasPair(s) {
      var k :| PairAt(s, k);
      assert PairAt(s[1..], k - 1);
    }
    if HasPair(s[1..]) {
      var k :| PairAt(s[1..], k);
      assert PairAt(s, k + 1);
    }
  }

  /** `text.replace('}{', '')`: one left-to-right pass that drops each "}{" it meets. It drops braces
      only, as many '{' as '}', and shortens every text that holds a pair. */
  function RemovePairs(s: string): (r: string)
    ensures |r| <= |s|
    ensures HasPair(s) ==> |r| < |s|
    ensures !HasPair(s) ==> r == s
    ensures NonBraces(r) == NonBraces(s)
    ensures Count(s, '{') - Count(r, '{') == Count(s, '}') - Count(r, '}')
  {
    if |s| < 2 then
      assert !HasPair(s);
      s
    else if s[0] == '}' && s[1] == '{' then
      assert PairAt(s, 0);
      DropPair(s);
      RemovePairs(s[2..])
    else
      var rest := RemovePairs(s[1..]);
      assert s == [s[0]] + s[1..];
      ConsCounts(s[0], s[1..]);
      ConsCounts(s[0], rest);
      PairInTail(s);
      [s[0]] + rest
  }

  /** The text once `while '}{' in text: text = text.replace('}{', '')` is done: no "}{" remains,
      no character but a brace was removed, and as many '{' as '}' went. */
  function CleanedText(s: string): (r: string)
    ensures !HasPair(r)
    ensures |r| <= |s|
    ensures !HasPair(s) ==> r == s
    ensures NonBraces(r) == NonBraces(s)
    ensures Count(s, '{') - Count(r, '{') == Count(s, '}') - Count(r, '}')
    decreases |s|
  {
    ContainsPair(s);
    if Contains(s, "}{") then CleanedText(RemovePairs(s)) else s
  }

  /** The cleaning loop itself; it ends because each pass shortens a text that holds a pair. */
  method CleanText(text: string) returns (r: string)
    ensures r == CleanedText(text)
  {
    r := text;
    ContainsPair(r);
    while Contains(r, "}{")
      invariant CleanedText(r) == CleanedText(text)
      decreases |r|
    {
      r := RemovePairs(r);
      ContainsPair(r);
    }
  }

  function StripLeading(s: string): (r: string)
    ensures |r| <= |s| && r == s[|s| - |r|..]
    ensures forall k :: 0 <= k < |s| - |r| ==> IsBrace(s[k])
    ensures r == [] || !IsBrace(r[0])
  {
    if s != [] && IsBrace(s[0]) then
      var r := StripLeading(s[1..]);
      assert forall k :: 1 <= k < |s| - |r| ==> s[k] == s[1..][k - 1];
      r
    else s
  }

  function StripTrailing(s: string): (r: string)
    ensures |r| <= |s| && r == s[..|r|]
    ensures forall k :: |r| <= k < |s| ==> IsBrace(s[k])
    ensures r == [] || !IsBrace(r[|r| - 1])
  {
    if s != [] && IsBrace(s[|s| - 1]) then
      var r := StripTrailing(s[..|s| - 1]);
      assert forall k :: |r| <= k < |s| - 1 ==> s[k] == s[..|s| - 1][k];
      r
    else s
  }

  /** `s.strip('{}')`: the maximal runs of braces are cut from both ends and nothing else, so the
      result is a piece of `s` that neither starts nor ends with a brace. */
  function StripBraces(s: string): (r: string)
    ensures |r| <= |StripLeading(s)| && r == StripLeading(s)[..|r|]
    ensures r == [] || (!IsBrace(r[0]) && !IsBrace(r[|r| - 1]))
    ensures forall k :: |r| <= k < |StripLeading(s)| ==> IsBrace(StripLeading(s)[k])
  {
    var left := StripLeading(s);
    var r := StripTrailing(left);
    assert r != [] ==> r[0] == left[0];
    r
  }

  /** A piece of a text without "}{" has none either. */
  lemma NoPairInPiece(s: string, i: nat, j: nat)
    requires i <= j <= |s|
    requires !HasPair(s)
    ensures !HasPair(s[i..j])
  {
    forall k | 0 <= k < j - i ensures !PairAt(s[i..j], k) {
      assert !PairAt(s, i + k);
    }
  }

  /** Gluing two texts without "}{" makes one only where the first ends with '}' and the second
      starts with '{'. */
  lemma NoPairInJoin(a: string, b: string)
    requires !HasPair(a) && !HasPair(b)
    requires a == [] || b == [] || a[|a| - 1] != '}' || b[0] != '{'
    ensures !HasPair(a + b)
  {
    forall k | 0 <= k < |a + b| ensures !PairAt(a + b, k) {
      if k + 1 < |a| {
        assert !PairAt(a, k);
      } else if k >= |a| {
        assert !PairAt(b, k - |a|);
      } else if k + 1 < |a + b| {
        assert (a + b)[k] == a[|a| - 1] && (a + b)[k + 1] == b[0];
      }
    }
  }

  /** The `{\anN}` tag that pins a line to alignment `N`. */
  function AlignmentTag(alignment: int): (t: string)
    ensures |t| >= 1 && t[|t| - 1] == '}'
    ensures !HasPair(t)
  {
    var digits := IntToString(alignment);
    var t := "{\\an" + digits + "}";
    assert forall k :: 0 <= k < |digits| ==> digits[k] == '-' || IsDigit(digits[k]) by {
      if alignment < 0 {
        assert forall k :: 1 <= k < |digits| ==> digits[k] == NatToString(-alignment)[k - 1];
      }
    }
    forall k | 0 <= k < |t| ensures !PairAt(t, k) {
      if 4 <= k < 4 + |digits| {
        assert t[k] == digits[k - 4];
      }
    }
    t
  }

  /** The new text of a cue: the alignment tag, then the cleaned and stripped old text. */
  function CueText(text: string, alignment: int): string {
    AlignmentTag(alignment) + StripBraces(CleanedText(text))
  }

  /** What `strip('{}')` keeps of a text without "}{" holds none either. */
  lemma StripKeepsNoPair(c: string)
    requires !HasPair(c)
    ensures !HasPair(StripBraces(c))
  {
    var left := StripLeading(c);
    NoPairInPiece(c, |c| - |left|, |c|);
    assert c[|c| - |left|..|c|] == left;
    NoPairInPiece(left, 0, |StripBraces(c)|);
    assert left[0..|StripBraces(c)|] == StripBraces(c);
  }

  /** The tag is the only thing in front of the cleaned text, and the new text holds no "}{":
      the tag ends with '}' but the stripped text never starts with '{'. */
  lemma CueTextShape(text: string, alignment: int)
    ensures StartsWith(CueText(text, alignment), AlignmentTag(alignment))
    ensures !HasPair(CueText(text, alignment))
  {
    var tag := AlignmentTag(alignment);
    var body := StripBraces(CleanedText(text));
    assert (tag + body)[..|tag|] == tag;
    StripKeepsNoPair(CleanedText(text));
    NoPairInJoin(tag, body);
  }

  /** A text that does not start with "}{" keeps its first character. */
  lemma RemovePairsKeepsFirst(s: string)
    requires |s| >= 2 && !(s[0] == '}' && s[1] == '{')
    ensures RemovePairs(s) == [s[0]] + RemovePairs(s[1..])
  {
  }

  /** `RemovePairs` leaves a pair-free prefix alone when it does not end with '}'. */
  lemma {:induction false} RemovePairsKeepsPrefix(x: string, y: string)
    requires !HasPair(x)
    requires x == [] || x[|x| - 1] != '}'
    ensures RemovePairs(x + y) == x + RemovePairs(y)
    decreases |x|
  {
    if x == [] {
      assert x + y == y;
      return;
    }
    var s := x + y;
    var tail := x[1..];
    assert s[1..] == tail + y;
    assert !HasPair(tail) && (tail == [] || tail[|tail| - 1] != '}') by {
      NoPairInPiece(x, 1, |x|);
      assert x[1..|x|] == tail;
    }
    RemovePairsKeepsPrefix(tail, y);
    if |s| < 2 {
      assert y == [] && x == s;
      assert RemovePairs(y) == y;
      return;
    }
    assert s[0] != '}' || s[1] != '{' by {
      if |x| >= 2 {
        assert !PairAt(x, 0);
        assert s[0] == x[0] && s[1] == x[1];
      } else {
        assert s[0] == x[|x| - 1];
      }
    }
    RemovePairsKeepsFirst(s);
    assert s[0] == x[0];
    ConsAppend(x, RemovePairs(y));
  }

  /** Putting the head of `x` back in front of its tail and a suffix gives `x` and the suffix. */
  lemma ConsAppend(x: string, r: string)
    requires x != []
    ensures [x[0]] + (x[1..] + r) == x + r
  {
    assert [x[0]] + x[1..] == x;
  }

  /** A tag already in the text is kept, not replaced: of two adjacent tags only the braces
      between them go, and the new tag is put in front. So `{\an2}{\an2}hello` at alignment 5
      becomes `{\an5}\an2\an2}hello`. */
  lemma AdjacentTagsMerged(x: string, z: string, alignment: int)
    requires !HasPair(x) && !HasPair(z)
    requires x == [] || x[|x| - 1] != '}'
    requires z == [] || z[0] != '{'
    ensures CueText(x + "}{" + z, alignment) == AlignmentTag(alignment) + StripBraces(x + z)
  {
    OnePairRemoved(x, z);
  }

  /** Without settings the style keeps the default middle-centre alignment 5, so every converted
      cue starts with the tag `{\an5}`. */
  lemma UnsetAlignmentIsMiddleCentre(events: seq<Cue>, offset: real)
    ensures ProjectedStyle(None, ParseInt) == Some(DefaultStyle) && DefaultStyle.alignment == 5
    ensures forall k :: 0 <= k < |events| ==>
      StartsWith(ConvertedCue(events[k], ProjectedStyle(None, ParseInt).value.alignment, offset).text, "{\\an5}")
  {
    assert IntToString(5) == "5";
    ConvertedCues(events, 5, offset);
  }

  /** Text that holds a single "}{", between two pieces that cannot form another, loses just that
      pair: the braces of two adjacent tags go and everything else stays. */
  lemma OnePairRemoved(x: string, z: string)
    requires !HasPair(x) && !HasPair(z)
    requires x == [] || x[|x| - 1] != '}'
    requires z == [] || z[0] != '{'
    ensures CleanedText(x + "}{" + z) == x + z
  {
    var s := x + "}{" + z;
    assert s == x + ("}{" + z);
    RemovePairsKeepsPrefix(x, "}{" + z);
    assert ("}{" + z)[2..] == z;
    assert RemovePairs(s) == x + z;
    NoPairInJoin(x, z);
    assert PairAt(s, |x|);
    ContainsPair(s);
    ContainsPair(x + z);
  }

  // ---------------------------------------------------------------------------
  // convert_srt_to_ass
  // ---------------------------------------------------------------------------

  /** A saved `.ass` file: its path, its events and its styles. */
  datatype AssFile = AssFile(path: string, events: seq<Cue>, styles: map<string, AssStyle>)

  /** A converted cue: on the "Default" style, with the new text, and moved by the offset. */
  function ConvertedCue(c: Cue, alignment: int, offset: real): Cue {
    var moved := if offset > 0.0 then Shifted(c, OffsetMs(offset)) else c;
    moved.(style := "Default", text := CueText(c.text, alignment))
  }

  /** Every converted cue uses the "Default" style, carries the tagged text, and has the timing the
      offset rule gives it. */
  lemma ConvertedCues(events: seq<Cue>, alignment: int, offset: real)
    ensures forall k :: 0 <= k < |events| ==>
      && ConvertedCue(events[k], alignment, offset).style == "Default"
      && StartsWith(ConvertedCue(events[k], alignment, offset).text, AlignmentTag(alignment))
      && !HasPair(ConvertedCue(events[k], alignment, offset).text)
      && ConvertedCue(events[k], alignment, offset).start == WithOffset(events, offset)[k].start
      && ConvertedCue(events[k], alignment, offset).end == WithOffset(events, offset)[k].end
  {
    forall k | 0 <= k < |events| {
      CueTextShape(events[k].text, alignment);
    }
  }

  /** The body of the `for line in subs` loop for one line. */
  method ConvertLine(line: Cue, alignment: int, offset: real) returns (r: Cue)
    ensures r == ConvertedCue(line, alignment, offset)
  {
    r := line.(style := "Default");
    var text := CleanText(r.text);
    text := StripBraces(text);
    r := r.(text := "{\\an" + IntToString(alignment) + "}" + text);
    if offset > 0.0 {
      var ms := OffsetMs(offset);
      r := r.(start := r.start + ms, end := r.end + ms);
    }
  }

  /** The lines of a subtitle file once each is converted, in order. */
  function ConvertedEvents(source: seq<Cue>, alignment: int, offset: real): seq<Cue> {
    Mapped(source, c => ConvertedCue(c, alignment, offset))
  }

  /** The `for line in subs` loop: each line in place becomes its converted cue. */
  method ConvertEvents(source: seq<Cue>, alignment: int, offset: real) returns (events: seq<Cue>)
    ensures events == ConvertedEvents(source, alignment, offset)
  {
    events := [];
    var i := 0;
    while i < |source|
      invariant 0 <= i <= |source|
      invariant events == ConvertedEvents(source[..i], alignment, offset)
    {
      var line := ConvertLine(source[i], alignment, offset);
      assert source[..i + 1][..i] == source[..i];
      events := events + [line];
      i := i + 1;
    }
    assert source[..i] == source;
  }

  /** `convert_srt_to_ass(srt_path, offset, subtitle_settings)`: an empty path, an unreadable file
      or a numeric setting that is not an integer gives `None`. Otherwise the projected style is
      stored as "Default", every cue is moved onto it with its text cleaned and tagged with the
      style's alignment and is shifted by the offset, and the result is saved as the temporary
      `<stem of srt_path>_<timestamp>.ass`; a save that fails gives `None` as well. */
  method ConvertSrtToAss(p: Processor, srtPath: string, offset: real, settings: Option<Attributes>,
                         load: string -> Option<SubFile>, saves: string -> bool)
    returns (r: Option<AssFile>)
    ensures (|| srtPath == [] || load(srtPath).None? || ProjectedStyle(settings, ParseInt).None?
             || !saves(TempPath(p, Stem(srtPath), ".ass"))) ==> r == None
    ensures srtPath != [] && load(srtPath).Some? && ProjectedStyle(settings, ParseInt).Some?
            && saves(TempPath(p, Stem(srtPath), ".ass")) ==>
      && r.Some?
      && r.value.path == TempPath(p, Stem(srtPath), ".ass")
      && r.value.styles == ItemsMap(load(srtPath).value.styles)["Default" := ProjectedStyle(settings, ParseInt).value]
      && |r.value.events| == |load(srtPath).value.events|
      && forall k :: 0 <= k < |r.value.events| ==>
           r.value.events[k] == ConvertedCue(load(srtPath).value.events[k], ProjectedStyle(settings, ParseInt).value.alignment, offset)
  {
    if srtPath == [] {
      return None;
    }
    var subs := load(srtPath);
    if subs.None? {
      return None;
    }
    var style := ProjectStyle(settings);
    if style.None? {
      return None;
    }
    var events := ConvertEvents(subs.value.events, style.value.alignment, offset);
    var styles := ItemsMap(subs.value.styles)["Default" := style.value];
    var assPath := TempPath(p, Stem(srtPath), ".ass");
    if !saves(assPath) {
      return None;
    }
    return Some(AssFile(assPath, events, styles));
  }
}
