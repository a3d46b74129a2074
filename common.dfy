/** Value types and the pieces of the Python runtime that the modelled code leans on:
    `str.lower`, `startswith`, `endswith`, the substring test `in`, `str(int)`, `int(str)`,
    string comparison and `sorted(set(xs))`. */
module Common {

  datatype Option<+T> = None | Some(value: T)

  /** Truthiness of an optional path: Python treats both `None` and `""` as false. */
  predicate Truthy(o: Option<string>) {
    o.Some? && o.value != ""
  }

  // ---------------------------------------------------------------------------
  // Characters and case
  // ---------------------------------------------------------------------------

  predicate IsUpper(c: char) { 'A' <= c <= 'Z' }

  predicate IsDigit(c: char) { '0' <= c <= '9' }

  function LowerChar(c: char): char {
    if IsUpper(c) then (c as int + 32) as char else c
  }

  /** `str.lower()`, restricted to the ASCII letters. */
  function Lower(s: string): (r: string)
    ensures |r| == |s|
  {
    if s == [] then [] else [LowerChar(s[0])] + Lower(s[1..])
  }

  lemma {:induction false} LowerAt(s: string, i: nat)
    requires i < |s|
    ensures Lower(s)[i] == LowerChar(s[i])
  {
    if i > 0 {
      LowerAt(s[1..], i - 1);
    }
  }

  /** Lower-casing twice is lower-casing once, and leaves no upper-case letter. */
  lemma {:induction false} LowerIdempotent(s: string)
    ensures Lower(Lower(s)) == Lower(s)
    ensures forall i :: 0 <= i < |s| ==> !IsUpper(Lower(s)[i])
  {
    if s != [] {
      LowerIdempotent(s[1..]);
      assert Lower(s)[1..] == Lower(s[1..]);
    }
  }

  lemma {:induction false} LowerAppend(a: string, b: string)
    ensures Lower(a + b) == Lower(a) + Lower(b)
  {
    if a != [] {
      assert (a + b)[1..] == a[1..] + b;
      LowerAppend(a[1..], b);
    } else {
      assert a + b == b;
    }
  }

  // ---------------------------------------------------------------------------
  // Prefixes, suffixes, substrings
  // ---------------------------------------------------------------------------

  predicate StartsWith(s: string, p: string) {
    |p| <= |s| && s[..|p|] == p
  }

  predicate EndsWith(s: string, p: string) {
    |p| <= |s| && s[|s| - |p|..] == p
  }

  predicate OccursAt(s: string, p: string, k: nat) {
    k + |p| <= |s| && s[k..k + |p|] == p
  }

  /** `s.find(p)`: the first position where `p` occurs in `s`. */
  function FindFirst(s: string, p: string): (r: Option<nat>)
    ensures r.Some? ==> OccursAt(s, p, r.value)
    ensures r.Some? ==> forall k: nat :: k < r.value ==> !OccursAt(s, p, k)
    ensures r.None? ==> forall k: nat :: !OccursAt(s, p, k)
    decreases |s|
  {
    if |s| < |p| then None
    else if s[..|p|] == p then Some(0)
    else
      match FindFirst(s[1..], p)
      case None =>
        assert forall k: nat :: OccursAt(s, p, k + 1) ==> OccursAt(s[1..], p, k) by {
          forall k: nat | OccursAt(s, p, k + 1) ensures OccursAt(s[1..], p, k) {
            assert s[1..][k..k + |p|] == s[k + 1..k + 1 + |p|];
          }
        }
        assert forall k: nat :: OccursAt(s, p, k) ==> k == 0 || OccursAt(s[1..], p, k - 1);
        None
      case Some(j) =>
        assert s[1..][j..j + |p|] == s[j + 1..j + 1 + |p|];
        assert forall k: nat :: 0 < k <= j ==> !OccursAt(s, p, k) by {
          forall k: nat | 0 < k <= j ensures !OccursAt(s, p, k) {
            if OccursAt(s, p, k) {
              assert s[1..][k - 1..k - 1 + |p|] == s[k..k + |p|];
              assert OccursAt(s[1..], p, k - 1);
            }
          }
        }
        Some(j + 1)
  }

  /** The substring test `p in s`. */
  predicate Contains(s: string, p: string) {
    FindFirst(s, p).Some?
  }

  // ---------------------------------------------------------------------------
  // Decimal numbers: str(n) and int(s)
  // ---------------------------------------------------------------------------

  function DigitChar(d: nat): (c: char)
    requires d < 10
    ensures IsDigit(c)
  {
    ('0' as int + d) as char
  }

  function DigitValue(c: char): nat {
    if IsDigit(c) then c as int - '0' as int else 0
  }

  predicate AllDigits(s: string) {
    forall i :: 0 <= i < |s| ==> IsDigit(s[i])
  }

  /** `str(n)` for a natural number: at least one digit, no sign, no leading zero. */
  function NatToString(n: nat): (r: string)
    ensures |r| >= 1 && AllDigits(r)
    ensures |r| > 1 ==> r[0] != '0'
    decreases n
  {
    if n < 10 then [DigitChar(n)] else NatToString(n / 10) + [DigitChar(n % 10)]
  }

  /** `str(i)` / `"%d" % i` for any integer. */
  function IntToString(i: int): string {
    if i < 0 then "-" + NatToString(-i) else NatToString(i)
  }

  /** The value of a string of decimal digits, most significant first. */
  function DigitsValue(s: string): nat {
    if s == [] then 0 else DigitsValue(s[..|s| - 1]) * 10 + DigitValue(s[|s| - 1])
  }

  lemma {:induction false} DigitsValueOfNatToString(n: nat)
    ensures DigitsValue(NatToString(n)) == n
    decreases n
  {
    if n >= 10 {
      var s := NatToString(n);
      assert s[..|s| - 1] == NatToString(n / 10);
      DigitsValueOfNatToString(n / 10);
    }
  }

  /** `str` is injective on naturals. */
  lemma NatToStringInjective(m: nat, n: nat)
    requires NatToString(m) == NatToString(n)
    ensures m == n
  {
    DigitsValueOfNatToString(m);
    DigitsValueOfNatToString(n);
  }

  /** Python's `str.isspace()` on the ASCII range. */
  predicate IsSpace(c: char) {
    (9 <= c as int <= 13) || (28 <= c as int <= 32)
  }

  function TrimLeft(s: string): (r: string)
    ensures |r| <= |s| && r == s[|s| - |r|..]
    ensures r == [] || !IsSpace(r[0])
  {
    if s != [] && IsSpace(s[0]) then TrimLeft(s[1..]) else s
  }

  function TrimRight(s: string): (r: string)
    ensures |r| <= |s| && r == s[..|r|]
    ensures r == [] || !IsSpace(r[|r| - 1])
  {
    if s != [] && IsSpace(s[|s| - 1]) then TrimRight(s[..|s| - 1]) else s
  }

  /** `str.strip()`. */
  function Trim(s: string): string {
    TrimRight(TrimLeft(s))
  }

  /** The digit part `int()` accepts: a digit, then digits that may each carry one underscore
      in front of them. */
  predicate ValidDigitGroup(b: string)
    decreases |b|
  {
    && |b| > 0
    && IsDigit(b[0])
    && (|b| == 1 || ValidDigitGroup(b[1..]) || (b[1] == '_' && ValidDigitGroup(b[2..])))
  }

  lemma {:induction false} AllDigitsValid(d: string)
    requires |d| >= 1 && AllDigits(d)
    ensures ValidDigitGroup(d)
    decreases |d|
  {
    if |d| > 1 {
      assert AllDigits(d[1..]) by {
        forall k | 0 <= k < |d| - 1 ensures IsDigit(d[1..][k]) {
          assert d[1..][k] == d[k + 1];
        }
      }
      AllDigitsValid(d[1..]);
    }
  }

  function RemoveUnderscores(s: string): (r: string)
    ensures '_' !in s ==> r == s
  {
    if s == [] then [] else (if s[0] == '_' then [] else [s[0]]) + RemoveUnderscores(s[1..])
  }

  function GroupValue(b: string): nat {
    DigitsValue(RemoveUnderscores(b))
  }

  /** `int(str(v))` for a string `v`, base 10: `None` stands for the ValueError it raises. */
  function ParseInt(s: string): Option<int> {
    ParseStripped(Trim(s))
  }

  /** `int()` once the surrounding white space is stripped: an optional sign, then a digit group. */
  function ParseStripped(t: string): Option<int> {
    if |t| > 0 && (t[0] == '-' || t[0] == '+') then
      if ValidDigitGroup(t[1..]) then
        var v: int := GroupValue(t[1..]);
        Some(if t[0] == '-' then -v else v)
      else None
    else if ValidDigitGroup(t) then Some(GroupValue(t))
    else None
  }

  lemma NoUnderscores(d: string)
    requires AllDigits(d)
    ensures RemoveUnderscores(d) == d
  {
    assert '_' !in d by {
      forall k | 0 <= k < |d| ensures d[k] != '_' {
        assert IsDigit(d[k]);
      }
    }
  }

  lemma TrimNoPadding(s: string)
    requires |s| > 0 && !IsSpace(s[0]) && !IsSpace(s[|s| - 1])
    ensures Trim(s) == s
  {
    assert TrimLeft(s) == s;
  }

  lemma ParseStrippedUnsigned(t: string)
    requires ValidDigitGroup(t)
    ensures ParseStripped(t) == Some(GroupValue(t))
  {
  }

  lemma ParseStrippedSigned(t: string)
    requires |t| > 0 && t[0] == '-' && ValidDigitGroup(t[1..])
    ensures ParseStripped(t) == Some(-(GroupValue(t[1..]) as int))
  {
  }

  /** A rendered natural is its own Python literal. */
  lemma ParseUnsigned(d: string)
    requires |d| >= 1 && AllDigits(d)
    ensures ParseInt(d) == Some(DigitsValue(d) as int)
  {
    assert IsDigit(d[0]) && IsDigit(d[|d| - 1]);
    TrimNoPadding(d);
    AllDigitsValid(d);
    ParseStrippedUnsigned(d);
    NoUnderscores(d);
  }

  /** A minus sign and a rendered natural is its own Python literal. */
  lemma ParseNegative(s: string, d: string, i: int)
    requires |d| >= 1 && AllDigits(d) && |s| == |d| + 1 && s[0] == '-' && s[1..] == d
    requires DigitsValue(d) == -i
    ensures ParseInt(s) == Some(i)
  {
    assert IsDigit(d[|d| - 1]) && s[|s| - 1] == d[|d| - 1];
    TrimNoPadding(s);
    AllDigitsValid(d);
    ParseStrippedSigned(s);
    NoUnderscores(d);
  }

  lemma ParseIntOfNatToString(n: nat)
    ensures ParseInt(NatToString(n)) == Some(n)
  {
    DigitsValueOfNatToString(n);
    ParseUnsigned(NatToString(n));
  }

  lemma ParseOneDigit(c: char)
    requires IsDigit(c)
    ensures ParseInt([c]) == Some(DigitValue(c))
  {
    var s := [c];
    assert s[..0] == [];
    assert AllDigits(s);
    ParseUnsigned(s);
  }

  lemma ParseTwoDigits(c: char, e: char)
    requires IsDigit(c) && IsDigit(e)
    ensures ParseInt([c, e]) == Some(10 * DigitValue(c) + DigitValue(e))
  {
    var s := [c, e];
    assert AllDigits(s) by {
      forall k | 0 <= k < 2 ensures IsDigit(s[k]) {
      }
    }
    assert s[..1] == [c];
    assert DigitsValue([c]) == DigitValue(c) by {
      assert [c][..0] == [];
    }
    assert DigitsValue(s) == 10 * DigitValue(c) + DigitValue(e);
    ParseUnsigned(s);
  }

  /** `int(str(i)) == i`: parsing undoes rendering, for every integer. */
  lemma ParseIntOfIntToString(i: int)
    ensures ParseInt(IntToString(i)) == Some(i)
  {
    var s := IntToString(i);
    if i < 0 {
      var d := NatToString(-i);
      DigitsValueOfNatToString(-i);
      assert s == "-" + d;
      assert s[1..] == d;
      ParseNegative(s, d, i);
    } else {
      assert s == NatToString(i);
      ParseIntOfNatToString(i);
    }
  }

  // ---------------------------------------------------------------------------
  // Collecting over a listing
  // ---------------------------------------------------------------------------

  /** The values `pick` gives on the elements of `xs`, in order; elements it maps to `None` give
      nothing. */
  function Picked<S, T>(xs: seq<S>, pick: S -> Option<T>): (r: seq<T>)
    ensures |r| <= |xs|
  {
    if xs == [] then []
    else
      var n := |xs| - 1;
      Picked(xs[..n], pick) + (if pick(xs[n]).Some? then [pick(xs[n]).value] else [])
  }

  /** A value is collected exactly when some element gives it. */
  lemma {:induction false} PickedMembers<S, T>(xs: seq<S>, pick: S -> Option<T>, x: T)
    ensures x in Picked(xs, pick) <==> exists k :: 0 <= k < |xs| && pick(xs[k]) == Some(x)
  {
    if xs != [] {
      var n := |xs| - 1;
      var init := xs[..n];
      PickedMembers(init, pick, x);
      var last := if pick(xs[n]).Some? then [pick(xs[n]).value] else [];
      assert x in Picked(xs, pick) <==> x in Picked(init, pick) || x in last;
      if x in Picked(init, pick) {
        var k :| 0 <= k < n && pick(init[k]) == Some(x);
        assert init[k] == xs[k];
      }
      if exists k :: 0 <= k < |xs| && pick(xs[k]) == Some(x) {
        var k :| 0 <= k < |xs| && pick(xs[k]) == Some(x);
        if k < n {
          assert init[k] == xs[k];
        }
      }
    }
  }

  /** `f` applied to every element of `xs`, in order. */
  function Mapped<S, T>(xs: seq<S>, f: S -> T): (r: seq<T>)
    ensures |r| == |xs|
    ensures forall k :: 0 <= k < |xs| ==> r[k] == f(xs[k])
  {
    if xs == [] then []
    else
      var n := |xs| - 1;
      var init := Mapped(xs[..n], f);
      assert forall k :: 0 <= k < n ==> xs[..n][k] == xs[k];
      init + [f(xs[n])]
  }

  /** The value `pick` gives on the last element of `xs` that gives one. */
  function LastPicked<S, T>(xs: seq<S>, pick: S -> Option<T>): Option<T> {
    if xs == [] then None
    else if pick(xs[|xs| - 1]).Some? then pick(xs[|xs| - 1])
    else LastPicked(xs[..|xs| - 1], pick)
  }

  /** Nothing is found exactly when no element gives a value; otherwise the value found is given
      by some element after which none gives one. */
  lemma {:induction false} LastPickedWins<S, T>(xs: seq<S>, pick: S -> Option<T>)
    ensures LastPicked(xs, pick).None? <==> forall k :: 0 <= k < |xs| ==> pick(xs[k]).None?
    ensures LastPicked(xs, pick).Some? ==>
      exists k :: 0 <= k < |xs| && pick(xs[k]) == LastPicked(xs, pick)
        && forall j :: k < j < |xs| ==> pick(xs[j]).None?
  {
    if xs != [] {
      var n := |xs| - 1;
      var init := xs[..n];
      if pick(xs[n]).None? {
        LastPickedWins(init, pick);
        assert forall k :: 0 <= k < n ==> init[k] == xs[k];
        if LastPicked(init, pick).Some? {
          var k :| 0 <= k < n && pick(init[k]) == LastPicked(init, pick)
            && forall j :: k < j < n ==> pick(init[j]).None?;
          assert pick(xs[k]) == LastPicked(xs, pick);
        }
      }
    }
  }

  // ---------------------------------------------------------------------------
  // String order and sorted(set(xs))
  // ---------------------------------------------------------------------------

  /** Python's `a < b` on strings: lexicographic by code point. */
  predicate Less(a: string, b: string)
    decreases |a|
  {
    if |a| == 0 then |b| > 0
    else if |b| == 0 then false
    else if a[0] != b[0] then a[0] < b[0]
    else Less(a[1..], b[1..])
  }

  lemma {:induction false} LessIrreflexive(a: string)
    ensures !Less(a, a)
    decreases |a|
  {
    if |a| > 0 {
      LessIrreflexive(a[1..]);
    }
  }

  lemma {:induction false} LessTransitive(a: string, b: string, c: string)
    requires Less(a, b) && Less(b, c)
    ensures Less(a, c)
    decreases |a|
  {
    if |a| > 0 && |b| > 0 && |c| > 0 && a[0] == b[0] == c[0] {
      LessTransitive(a[1..], b[1..], c[1..]);
    }
  }

  lemma {:induction false} LessTotal(a: string, b: string)
    ensures a == b || Less(a, b) || Less(b, a)
    decreases |a|
  {
    if |a| > 0 && |b| > 0 && a[0] == b[0] {
      LessTotal(a[1..], b[1..]);
      if a[1..] == b[1..] {
        assert a == [a[0]] + a[1..] && b == [b[0]] + b[1..];
      }
    }
  }

  lemma LessAsymmetric(a: string, b: string)
    requires Less(a, b)
    ensures !Less(b, a)
  {
    if Less(b, a) {
      LessTransitive(a, b, a);
      LessIrreflexive(a);
    }
  }

  predicate StrictlySorted(s: seq<string>) {
    forall i, j :: 0 <= i < j < |s| ==> Less(s[i], s[j])
  }

  predicate NoDuplicates<T(==)>(s: seq<T>) {
    forall i, j :: 0 <= i < j < |s| ==> s[i] != s[j]
  }

  lemma StrictlySortedNoDuplicates(s: seq<string>)
    requires StrictlySorted(s)
    ensures NoDuplicates(s)
  {
    forall i, j | 0 <= i < j < |s| ensures s[i] != s[j] {
      LessIrreflexive(s[i]);
    }
  }

  /** Inserts `x` into a strictly ascending list, unless it is already there. */
  function InsertUnique(x: string, t: seq<string>): (r: seq<string>)
    requires StrictlySorted(t)
    ensures StrictlySorted(r)
    ensures forall y :: y in r <==> y == x || y in t
    decreases |t|
  {
    if t == [] then [x]
    else if x == t[0] then t
    else if Less(x, t[0]) then
      assert forall j :: 0 <= j < |t| ==> Less(x, t[j]) by {
        forall j | 0 <= j < |t| ensures Less(x, t[j]) {
          if j > 0 { LessTransitive(x, t[0], t[j]); }
        }
      }
      [x] + t
    else
      LessTotal(x, t[0]);
      var rest := InsertUnique(x, t[1..]);
      assert forall y :: y in rest ==> Less(t[0], y);
      [t[0]] + rest
  }

  /** `sorted(set(xs))`: the distinct elements of `xs` in ascending order. */
  function SortedUnique(xs: seq<string>): (r: seq<string>)
    ensures StrictlySorted(r)
    ensures forall y :: y in r <==> y in xs
  {
    if xs == [] then []
    else
      assert xs == xs[..|xs| - 1] + [xs[|xs| - 1]];
      InsertUnique(xs[|xs| - 1], SortedUnique(xs[..|xs| - 1]))
  }

  /** Adding one more element to `xs` inserts it into the sorted distinct list. */
  lemma SortedUniqueSnoc(xs: seq<string>, x: string)
    ensures SortedUnique(xs + [x]) == InsertUnique(x, SortedUnique(xs))
  {
    assert (xs + [x])[..|xs|] == xs;
  }

  /** A strictly ascending list is determined by its elements: `sorted(set(xs))` is canonical. */
  lemma {:induction false} StrictlySortedUnique(a: seq<string>, b: seq<string>)
    requires StrictlySorted(a) && StrictlySorted(b)
    requires forall y :: y in a <==> y in b
    ensures a == b
    decreases |a|
  {
    if a != [] {
      assert a[0] in b;
      assert b != [];
      if a[0] != b[0] {
        assert b[0] in a;
        var k :| 0 <= k < |b| && b[k] == a[0];
        var m :| 0 <= m < |a| && a[m] == b[0];
        assert Less(b[0], a[0]);
        assert Less(a[0], b[0]);
        LessAsymmetric(a[0], b[0]);
      }
      forall y ensures y in a[1..] <==> y in b[1..] {
        StrictlySortedNoDuplicates(a);
        StrictlySortedNoDuplicates(b);
        if y in a[1..] {
          var i :| 1 <= i < |a| && a[i] == y;
          assert y in b;
          var j :| 0 <= j < |b| && b[j] == y;
          assert j != 0;
        }
        if y in b[1..] {
          var j :| 1 <= j < |b| && b[j] == y;
          assert y in a;
          var i :| 0 <= i < |a| && a[i] == y;
          assert i != 0;
        }
      }
      StrictlySortedUnique(a[1..], b[1..]);
      assert a == [a[0]] + a[1..] && b == [b[0]] + b[1..];
    } else if b != [] {
      HeadIsElement(b);
      assert false;
    }
  }

  lemma HeadIsElement<T>(s: seq<T>)
    requires s != []
    ensures s[0] in s
  {
  }

  // ---------------------------------------------------------------------------
  // Dictionaries as ordered items
  // ---------------------------------------------------------------------------

  function KeysOf<K, V>(items: seq<(K, V)>): set<K> {
    set j | 0 <= j < |items| :: items[j].0
  }

  /** `dict(items)`: a later item replaces an earlier one with the same key. */
  function ItemsMap<K, V>(items: seq<(K, V)>): (m: map<K, V>)
    ensures m.Keys == KeysOf(items)
  {
    if items == [] then map[]
    else
      var n := |items| - 1;
      assert KeysOf(items) == KeysOf(items[..n]) + {items[n].0};
      ItemsMap(items[..n])[items[n].0 := items[n].1]
  }

  /** For items with distinct keys, each key maps to the value it is listed with. */
  lemma {:induction false} ItemsMapAt<K, V>(items: seq<(K, V)>, j: nat)
    requires j < |items|
    requires forall a, b :: 0 <= a < b < |items| ==> items[a].0 != items[b].0
    ensures ItemsMap(items)[items[j].0] == items[j].1
  {
    var n := |items| - 1;
    if j < n {
      ItemsMapAt(items[..n], j);
    }
  }

  /** The list without any occurrence of `x`, the rest in order. */
  function Without(s: seq<string>, x: string): (r: seq<string>)
    ensures forall y :: y in r <==> y in s && y != x
    ensures NoDuplicates(s) ==> NoDuplicates(r)
    ensures x !in s ==> r == s
  {
    if s == [] then []
    else
      var rest := Without(s[1..], x);
      assert forall y :: y in s <==> y == s[0] || y in s[1..];
      if s[0] == x then rest
      else
        assert NoDuplicates(s) ==> s[0] !in rest;
        [s[0]] + rest
  }
}
