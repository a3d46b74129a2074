/** Subtitle presets: the `SubtitleSettings` record and the name-to-settings store kept by
    `SubtitlePresetManager`, with the "Default" preset that the store never deletes. Reading and
    writing the JSON presets file is not modelled; the decoded file is a constructor argument. */
module Presets {
  import opened Common

  /** `SubtitleSettings`: every field is text, the numeric ones included. */
  datatype SubtitleSettings = SubtitleSettings(
    font: string, fontSize: string,
    primaryColor: string, outlineColor: string, backColor: string,
    outline: string, shadow: string, marginV: string, marginH: string,
    alignment: string, maxChars: string, name: string)

  /** `SubtitleSettings()` with every default. */
  const DefaultSettings := SubtitleSettings(
    "Arial", "48", "&HFFFFFF&", "&H000000&", "&H000000&",
    "2", "0", "20", "20", "2", "40", "Default")

  /** The default preset is named "Default" and bottom-centred (alignment 2). */
  lemma DefaultSettingsFields()
    ensures DefaultSettings.name == "Default" && DefaultSettings.alignment == "2"
    ensures ParseInt(DefaultSettings.fontSize) == Some(48)
    ensures ParseInt(DefaultSettings.shadow) == Some(0)
  {
    ParseTwoDigits('4', '8');
    ParseOneDigit('0');
  }

  /** Keys with distinct names, as the items of a decoded JSON object are. */
  predicate DistinctKeys(items: seq<(string, SubtitleSettings)>) {
    forall a, b :: 0 <= a < b < |items| ==> items[a].0 != items[b].0
  }

  /** The keys of the items in item order: each key of the object once, when the keys are distinct. */
  function KeyList(items: seq<(string, SubtitleSettings)>): (r: seq<string>)
    ensures |r| == |items| && forall j :: 0 <= j < |r| ==> r[j] == items[j].0
    ensures forall n :: n in r <==> n in KeysOf(items)
    ensures DistinctKeys(items) ==> NoDuplicates(r)
  {
    seq(|items|, j requires 0 <= j < |items| => items[j].0)
  }

  class PresetManager {
    /** `self.presets`. */
    var presets: map<string, SubtitleSettings>
    /** The key order of `self.presets`, i.e. insertion order. */
    var order: seq<string>

    /** The key order lists each key of the map exactly once. */
    ghost predicate Valid()
      reads this
    {
      && (forall n :: n in presets <==> n in order)
      && NoDuplicates(order)
    }

    /** `__init__` followed by `load_presets`: `stored` is the decoded presets file, or `None`
        when the file is missing or cannot be read, in which case the store holds exactly the
        default preset under "Default". */
    constructor (stored: Option<seq<(string, SubtitleSettings)>>)
      requires stored.Some? ==> DistinctKeys(stored.value)
      ensures Valid()
      ensures stored.None? ==> presets == map["Default" := DefaultSettings] && order == ["Default"]
      ensures stored.Some? ==> presets == ItemsMap(stored.value) && order == KeyList(stored.value)
    {
      if stored.None? {
        presets := map["Default" := DefaultSettings];
        order := ["Default"];
      } else {
        presets := ItemsMap(stored.value);
        order := KeyList(stored.value);
        assert forall n :: n in KeysOf(stored.value) <==> n in KeyList(stored.value) by {
          forall n ensures n in KeysOf(stored.value) <==> n in KeyList(stored.value) {
            if n in KeyList(stored.value) {
              var j :| 0 <= j < |KeyList(stored.value)| && KeyList(stored.value)[j] == n;
              assert stored.value[j].0 == n;
            }
          }
        }
      }
    }

    /** `add_preset(settings)`: stores `settings` under its own name, replacing any preset of that
        name ("Default" included); every other preset is kept. A new name goes last in key order. */
    method AddPreset(settings: SubtitleSettings)
      requires Valid()
      modifies this
      ensures Valid()
      ensures presets == old(presets)[settings.name := settings]
      ensures order == if settings.name in old(presets) then old(order) else old(order) + [settings.name]
      ensures "Default" in old(presets) ==> "Default" in presets
    {
      if settings.name !in presets {
        order := order + [settings.name];
      }
      presets := presets[settings.name := settings];
    }

    /** `get_preset(name)`: the stored settings when `name` is a key, `None` otherwise. */
    function GetPreset(name: string): (r: Option<SubtitleSettings>)
      reads this
      ensures r.Some? <==> name in presets
      ensures r.Some? ==> r.value == presets[name]
    {
      if name in presets then Some(presets[name]) else None
    }

    /** `delete_preset(name)`: removes exactly `name` when it is a key other than "Default";
        deleting "Default" or an absent name changes nothing. */
    method DeletePreset(name: string)
      requires Valid()
      modifies this
      ensures Valid()
      ensures name in old(presets) && name != "Default" ==>
        presets == old(presets) - {name} && order == Without(old(order), name)
      ensures !(name in old(presets) && name != "Default") ==>
        presets == old(presets) && order == old(order)
      ensures "Default" in old(presets) ==> "Default" in presets
    {
      if name in presets && name != "Default" {
        presets := presets - {name};
        order := Without(order, name);
      }
    }

    /** `get_preset_names()`: each preset name once, in key order. */
    function GetPresetNames(): (r: seq<string>)
      requires Valid()
      reads this
      ensures forall n :: n in r <==> n in presets
      ensures NoDuplicates(r)
    {
      order
    }
  }

  /** The "Delete" button of the settings window: the selected "Default" preset only raises an
      error and leaves the store alone; any other name is deleted once the user confirms, and the
      selection falls back to "Default". */
  method DeleteSelectedPreset(m: PresetManager, selected: string, confirmed: bool)
    returns (error: bool, selection: string)
    requires m.Valid()
    modifies m
    ensures m.Valid()
    ensures error <==> selected == "Default"
    ensures error || !confirmed ==> m.presets == old(m.presets) && m.order == old(m.order) && selection == selected
    ensures !error && confirmed ==> selection == "Default"
    ensures !error && confirmed && selected in old(m.presets) ==>
      m.presets == old(m.presets) - {selected} && m.order == Without(old(m.order), selected)
    ensures !error && confirmed && selected !in old(m.presets) ==>
      m.presets == old(m.presets) && m.order == old(m.order)
    ensures "Default" in old(m.presets) ==> "Default" in m.presets
  {
    if selected == "Default" {
      return true, selected;
    }
    if confirmed {
      m.DeletePreset(selected);
      return false, "Default";
    }
    return false, selected;
  }
}
