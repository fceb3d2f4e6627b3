/**
 * `to_pascal_case` of the scaffolding scripts (scripts/epreyn_screen.py and
 * scripts/epreyn_feature.py define it identically): split the name at every
 * run of characters that are not ASCII letters or digits, drop the empty
 * parts, capitalise each part (first character upper case, the rest lower
 * case) and join them.
 */
module PascalCase {

  predicate IsAlnum(c: char) {
    ('0' <= c <= '9') || ('a' <= c <= 'z') || ('A' <= c <= 'Z')
  }

  predicate AllAlnum(s: string) {
    forall i :: 0 <= i < |s| ==> IsAlnum(s[i])
  }

  /** Identifiers built from letters and digits stay made of letters and digits. */
  lemma AllAlnumConcat(a: string, b: string)
    requires AllAlnum(a) && AllAlnum(b)
    ensures AllAlnum(a + b)
  {
    assert forall i :: |a| <= i < |a + b| ==> (a + b)[i] == b[i - |a|];
  }

  /** ASCII upper-casing; every other character is unchanged. */
  function Upper(c: char): (u: char)
    ensures IsAlnum(c) <==> IsAlnum(u)
  {
    if 'a' <= c <= 'z' then (c as int - 32) as char else c
  }

  /** ASCII lower-casing; every other character is unchanged. */
  function Lower(c: char): (l: char)
    ensures IsAlnum(c) <==> IsAlnum(l)
  {
    if 'A' <= c <= 'Z' then (c as int + 32) as char else c
  }

  function LowerAll(s: string): (r: string)
    ensures |r| == |s|
    ensures forall i :: 0 <= i < |s| ==> r[i] == Lower(s[i])
  {
    if s == [] then [] else LowerAll(s[..|s| - 1]) + [Lower(s[|s| - 1])]
  }

  /** `str.capitalize` on ASCII text. */
  function Capitalize(p: string): (r: string)
    ensures |r| == |p|
  {
    if p == [] then [] else [Upper(p[0])] + LowerAll(p[1..])
  }

  /**
   * The non-empty parts of `re.split(r'[^0-9a-zA-Z]+', name)`: the maximal
   * runs of ASCII letters and digits, in order.
   */
  function Runs(s: string): (rs: seq<string>)
    ensures s != [] && IsAlnum(s[|s| - 1]) ==> rs != []
    decreases |s|
  {
    if s == [] then []
    else
      var front := s[..|s| - 1];
      var c := s[|s| - 1];
      var rs := Runs(front);
      if !IsAlnum(c) then rs
      else if front != [] && IsAlnum(front[|front| - 1]) then rs[..|rs| - 1] + [rs[|rs| - 1] + [c]]
      else rs + [[c]]
  }

  /** `''.join(parts)`. */
  function Join(parts: seq<string>): string {
    if parts == [] then "" else Join(parts[..|parts| - 1]) + parts[|parts| - 1]
  }

  function CapitalizeAll(parts: seq<string>): (r: seq<string>)
    ensures |r| == |parts|
    ensures forall i :: 0 <= i < |parts| ==> r[i] == Capitalize(parts[i])
  {
    seq(|parts|, i requires 0 <= i < |parts| => Capitalize(parts[i]))
  }

  function ToPascalCase(name: string): string {
    Join(CapitalizeAll(Runs(name)))
  }

  // ---------------------------------------------------------------------------
  // An independent reading, character by character
  // ---------------------------------------------------------------------------

  /**
   * The letters and digits of `s` in order, each upper-cased when it begins a
   * run (at the start or after another character) and lower-cased otherwise.
   */
  function Scan(s: string): string
    decreases |s|
  {
    if s == [] then []
    else
      var front := s[..|s| - 1];
      var c := s[|s| - 1];
      if !IsAlnum(c) then Scan(front)
      else if front != [] && IsAlnum(front[|front| - 1]) then Scan(front) + [Lower(c)]
      else Scan(front) + [Upper(c)]
  }

  /** The ASCII letters and digits of `s`, in order. */
  function AlnumOf(s: string): (r: string)
    decreases |s|
  {
    if s == [] then []
    else AlnumOf(s[..|s| - 1]) + (if IsAlnum(s[|s| - 1]) then [s[|s| - 1]] else [])
  }

  lemma JoinAppend(parts: seq<string>, p: string)
    ensures Join(parts + [p]) == Join(parts) + p
  {
    assert (parts + [p])[..|parts|] == parts;
  }

  /** Capitalising a longer run lower-cases the added character. */
  lemma CapitalizeExtend(r: string, c: char)
    requires r != []
    ensures Capitalize(r + [c]) == Capitalize(r) + [Lower(c)]
  {
    assert (r + [c])[1..] == r[1..] + [c];
    assert LowerAll(r[1..] + [c]) == LowerAll(r[1..]) + [Lower(c)] by {
      assert (r[1..] + [c])[..|r[1..]|] == r[1..];
    }
  }

  lemma CapitalizeAllAppend(parts: seq<string>, p: string)
    ensures CapitalizeAll(parts + [p]) == CapitalizeAll(parts) + [Capitalize(p)]
  {
  }

  /** Appending a letter or digit to a run lower-cases it onto the last part. */
  lemma JoinExtendLast(rs: seq<string>, c: char)
    requires rs != [] && rs[|rs| - 1] != []
    ensures Join(CapitalizeAll(rs[..|rs| - 1] + [rs[|rs| - 1] + [c]])) == Join(CapitalizeAll(rs)) + [Lower(c)]
  {
    var init := rs[..|rs| - 1];
    var last := rs[|rs| - 1];
    assert rs == init + [last];
    CapitalizeAllAppend(init, last);
    JoinAppend(CapitalizeAll(init), Capitalize(last));
    CapitalizeAllAppend(init, last + [c]);
    JoinAppend(CapitalizeAll(init), Capitalize(last + [c]));
    CapitalizeExtend(last, c);
  }

  /** Starting a new run appends its upper-cased first character. */
  lemma JoinNewRun(rs: seq<string>, c: char)
    ensures Join(CapitalizeAll(rs + [[c]])) == Join(CapitalizeAll(rs)) + [Upper(c)]
  {
    CapitalizeAllAppend(rs, [c]);
    JoinAppend(CapitalizeAll(rs), Capitalize([c]));
  }

  /** `to_pascal_case` agrees with the character-by-character reading. */
  lemma {:induction false} PascalIsScan(s: string)
    ensures ToPascalCase(s) == Scan(s)
    decreases |s|
  {
    if s != [] {
      var front := s[..|s| - 1];
      var c := s[|s| - 1];
      PascalIsScan(front);
      if !IsAlnum(c) {
      } else if front != [] && IsAlnum(front[|front| - 1]) {
        RunsNonEmpty(front);
        JoinExtendLast(Runs(front), c);
      } else {
        JoinNewRun(Runs(front), c);
      }
    }
  }

  /** Every part is a non-empty run of letters and digits. */
  lemma {:induction false} RunsNonEmpty(s: string)
    ensures forall i :: 0 <= i < |Runs(s)| ==> Runs(s)[i] != []
    ensures forall i, j :: 0 <= i < |Runs(s)| && 0 <= j < |Runs(s)[i]| ==> IsAlnum(Runs(s)[i][j])
    decreases |s|
  {
    if s != [] {
      RunsNonEmpty(s[..|s| - 1]);
    }
  }

  /** The reading keeps exactly the letters and digits, recasing them. */
  lemma {:induction false} ScanRecases(s: string)
    ensures |Scan(s)| == |AlnumOf(s)|
    ensures forall i :: 0 <= i < |Scan(s)| ==> Scan(s)[i] == Upper(AlnumOf(s)[i]) || Scan(s)[i] == Lower(AlnumOf(s)[i])
    decreases |s|
  {
    if s != [] {
      ScanRecases(s[..|s| - 1]);
    }
  }

  lemma {:induction false} AlnumOfAlnum(s: string)
    ensures forall i :: 0 <= i < |AlnumOf(s)| ==> IsAlnum(AlnumOf(s)[i])
    decreases |s|
  {
    if s != [] {
      AlnumOfAlnum(s[..|s| - 1]);
    }
  }

  /** Lower-casing keeps the number of letters and digits. */
  lemma {:induction false} LowerAlnumCount(s: string)
    ensures |AlnumOf(LowerAll(s))| == |AlnumOf(s)|
    decreases |s|
  {
    if s != [] {
      var front := s[..|s| - 1];
      LowerAlnumCount(front);
      assert LowerAll(s)[..|s| - 1] == LowerAll(front);
    }
  }

  /**
   * The result has one character per ASCII letter or digit of the name, and
   * nothing else: only letters and digits, and "" for a name without any.
   */
  lemma PascalCharacters(s: string)
    ensures |ToPascalCase(s)| == |AlnumOf(s)|
    ensures AllAlnum(ToPascalCase(s))
    ensures AlnumOf(s) == [] ==> ToPascalCase(s) == ""
  {
    PascalIsScan(s);
    ScanRecases(s);
    AlnumOfAlnum(s);
  }

  /** A PascalCased name followed by a letters-and-digits suffix is made of letters and digits. */
  lemma PascalIdentifier(name: string, suffix: string)
    requires AllAlnum(suffix)
    ensures AllAlnum(ToPascalCase(name) + suffix)
  {
    PascalCharacters(name);
    AllAlnumConcat(ToPascalCase(name), suffix);
  }

  /** One more character: the defining step of the reading. */
  lemma ScanStep(s: string, c: char)
    ensures Scan(s + [c]) ==
      if !IsAlnum(c) then Scan(s)
      else if s != [] && IsAlnum(s[|s| - 1]) then Scan(s) + [Lower(c)]
      else Scan(s) + [Upper(c)]
  {
    assert (s + [c])[..|s|] == s;
  }

  lemma ScanPair(x: char, y: char)
    requires IsAlnum(x) && IsAlnum(y)
    ensures Scan([x, y]) == [Upper(x), Lower(y)]
  {
    ScanStep([], x);
    assert [] + [x] == [x];
    ScanStep([x], y);
    assert [x] + [y] == [x, y];
  }

  lemma ScanSeparated(x: char, y: char)
    requires IsAlnum(x) && IsAlnum(y)
    ensures Scan([x, '_', y]) == [Upper(x), Upper(y)]
  {
    ScanStep([], x);
    assert [] + [x] == [x];
    ScanStep([x], '_');
    assert [x] + ['_'] == [x, '_'];
    ScanStep([x, '_'], y);
    assert [x, '_'] + [y] == [x, '_', y];
  }

  /**
   * The function is not idempotent: "a_b" becomes "AB", which becomes "Ab",
   * because a PascalCased name is one run whose inner capitals are lowered.
   */
  lemma NotIdempotent(a: char, b: char)
    requires 'a' <= a <= 'z' && 'a' <= b <= 'z'
    ensures ToPascalCase([a, '_', b]) == [Upper(a), Upper(b)]
    ensures ToPascalCase(ToPascalCase([a, '_', b])) == [Upper(a), b]
    ensures ToPascalCase(ToPascalCase([a, '_', b])) != ToPascalCase([a, '_', b])
  {
    PascalIsScan([a, '_', b]);
    ScanSeparated(a, b);
    PascalIsScan([Upper(a), Upper(b)]);
    ScanPair(Upper(a), Upper(b));
  }
}
