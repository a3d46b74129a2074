/** `get_system_fonts`: the installed font families, made distinct and sorted, with the vertical
    (`@`), empty and `.`-prefixed names dropped. The list of families is an input. */
module Fonts {
  import opened Common

  /** The names the loop skips: Windows vertical fonts (`@`), the empty name and hidden names. */
  predicate Skipped(name: string) {
    StartsWith(name, "@") || name == [] || StartsWith(name, ".")
  }

  /** The names the loop appends, in the order it meets them. */
  function Kept(names: seq<string>): seq<string> {
    if names == [] then []
    else
      var n := |names| - 1;
      Kept(names[..n]) + (if Skipped(names[n]) then [] else [names[n]])
  }

  /** A name is kept exactly when it is listed and not skipped. */
  lemma {:induction false} KeptMembers(names: seq<string>, x: string)
    ensures x in Kept(names) <==> x in names && !Skipped(x)
  {
    if names != [] {
      var n := |names| - 1;
      KeptMembers(names[..n], x);
      assert names == names[..n] + [names[n]];
    }
  }

  /** Dropping names keeps a strictly ascending list strictly ascending. */
  lemma {:induction false} KeptSorted(names: seq<string>)
    requires StrictlySorted(names)
    ensures StrictlySorted(Kept(names))
  {
    if names != [] {
      var n := |names| - 1;
      var init := names[..n];
      assert StrictlySorted(init);
      KeptSorted(init);
      if !Skipped(names[n]) {
        var k := Kept(init);
        forall i | 0 <= i < |k| ensures Less(k[i], names[n]) {
          KeptMembers(init, k[i]);
          var j :| 0 <= j < n && init[j] == k[i];
          assert names[j] == k[i];
        }
      }
    }
  }

  /** The `for name in font_names` loop over `sorted(list(set(font.families())))`. */
  method SystemFonts(families: seq<string>) returns (r: seq<string>)
    ensures r == Kept(SortedUnique(families))
    ensures StrictlySorted(r) && NoDuplicates(r)
    ensures forall x :: x in r <==> x in families && !Skipped(x)
    ensures forall k :: 0 <= k < |r| ==>
      !StartsWith(r[k], "@") && r[k] != [] && !StartsWith(r[k], ".")
  {
    var names := SortedUnique(families);
    r := [];
    var i := 0;
    while i < |names|
      invariant 0 <= i <= |names|
      invariant r == Kept(names[..i])
    {
      var name := names[i];
      assert names[..i + 1][..i] == names[..i] && names[..i + 1][i] == name;
      if StartsWith(name, "@") {
        i := i + 1;
        continue;
      }
      if name == [] || StartsWith(name, ".") {
        i := i + 1;
        continue;
      }
      r := r + [name];
      i := i + 1;
    }
    assert names[..i] == names;
    KeptSorted(names);
    StrictlySortedNoDuplicates(r);
    forall x ensures x in r <==> x in families && !Skipped(x) {
      KeptMembers(names, x);
    }
    forall k | 0 <= k < |r| ensures !Skipped(r[k]) {
      KeptMembers(names, r[k]);
    }
  }
}
