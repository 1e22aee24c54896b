/** Channel aliases: the short name shown in place of a dotted logger name.
    `DerivedAlias` is the builder's `_alias_for`; `FilterAlias` is the channel
    filter's `_alias_for`, which first consults the registered mapping. */
module Aliases {
  import opened Wrappers
  import opened Names

  /** A mapping key `key` applies to `name` when it is the name itself or a
      dotted ancestor of it. */
  predicate Matches(name: string, key: string)
  {
    name == key || StartsWith(name, key + ".")
  }

  lemma MatchesShape(name: string, key: string)
    ensures Matches(name, key) <==>
              key == name || (|key| < |name| && name[..|key|] == key && name[|key|] == '.')
  {
    if |key| < |name| {
      assert name[..|key| + 1] == name[..|key|] + [name[|key|]];
      assert (key + ".")[..|key|] == key;
    }
  }

  /** Every key that applies to `name` other than the name itself is a
      prefix of it followed by a dot. */
  lemma ProperMatchesAll(name: string)
    ensures forall key :: Matches(name, key) && key != name ==>
              |key| < |name| && name[..|key|] == key && name[|key|] == '.'
  {
    forall key | Matches(name, key) && key != name
      ensures |key| < |name| && name[..|key|] == key && name[|key|] == '.'
    {
      MatchesShape(name, key);
    }
  }

  /** Two distinct keys of equal length never both apply to one name, so the
      order in which equally long keys are tried cannot matter. */
  lemma EqualLengthMatchesCoincide(name: string, k1: string, k2: string)
    requires Matches(name, k1) && Matches(name, k2) && |k1| == |k2|
    ensures k1 == k2
  {
    MatchesShape(name, k1);
    MatchesShape(name, k2);
    assert name[..|name|] == name;
  }

  /** The longest key of `m` that applies to `name` and is shorter than `j`
      characters, found by trying each dot of the name from the right. */
  function MatchBelow(m: map<string, string>, name: string, j: nat): Option<string>
    requires j <= |name|
    decreases j
  {
    if j == 0 then None
    else if name[j - 1] == '.' && name[..j - 1] in m then Some(name[..j - 1])
    else MatchBelow(m, name, j - 1)
  }

  lemma {:induction false} MatchBelowFindsLongest(m: map<string, string>, name: string, j: nat)
    requires j <= |name|
    ensures var r := MatchBelow(m, name, j);
            r.Some? ==> r.value in m && Matches(name, r.value) && |r.value| < j
    ensures var r := MatchBelow(m, name, j);
            forall k :: k in m && Matches(name, k) && |k| < j ==> r.Some? && |k| <= |r.value|
    decreases j
  {
    if j > 0 {
      if name[j - 1] == '.' && name[..j - 1] in m {
        assert name[..j] == name[..j - 1] + ".";
      } else {
        MatchBelowFindsLongest(m, name, j - 1);
        forall k | k in m && Matches(name, k) && |k| < j
          ensures |k| < j - 1
        {
          MatchesShape(name, k);
        }
      }
    }
  }

  /** The longest key of `m` that applies to `name`, if any. */
  function LongestMatch(m: map<string, string>, name: string): (r: Option<string>)
    ensures r.Some? ==> r.value in m && Matches(name, r.value)
    ensures forall k :: k in m && Matches(name, k) ==> r.Some? && |k| <= |r.value|
  {
    ProperMatchesAll(name);
    MatchBelowFindsLongest(m, name, |name|);
    if name in m then Some(name) else MatchBelow(m, name, |name|)
  }

  /** The source's loop: walk the entries in the order given and stop at the
      first key that applies. Returns the position of that entry. */
  function FirstMatch(entries: seq<(string, string)>, name: string): (r: Option<nat>)
    ensures r.Some? ==> r.value < |entries| && Matches(name, entries[r.value].0)
    ensures r.Some? ==> forall j :: 0 <= j < r.value ==> !Matches(name, entries[j].0)
    ensures r.None? ==> forall j :: 0 <= j < |entries| ==> !Matches(name, entries[j].0)
    decreases |entries|
  {
    if |entries| == 0 then None
    else if Matches(name, entries[0].0) then Some(0)
    else
      match FirstMatch(entries[1..], name)
      case None => None
      case Some(i) => Some(i + 1)
  }

  /** Alias chosen by the loop over entries: the value of the first entry
      whose key applies, or nothing when no key applies. */
  function ScanAlias(entries: seq<(string, string)>, name: string): (r: Option<string>)
    ensures r.None? <==> forall j :: 0 <= j < |entries| ==> !Matches(name, entries[j].0)
    ensures r.Some? ==> exists i :: 0 <= i < |entries| && Matches(name, entries[i].0) && r.value == entries[i].1
                                    && forall j :: 0 <= j < i ==> !Matches(name, entries[j].0)
  {
    match FirstMatch(entries, name)
    case None => None
    case Some(i) => Some(entries[i].1)
  }

  /** The keys of a list of items, in list order. */
  function KeysOf(entries: seq<(string, string)>): seq<string>
  {
    seq(|entries|, i requires 0 <= i < |entries| => entries[i].0)
  }

  /** `entries` lists every item of `m` (the result of `m.items()`). */
  ghost predicate Enumerates(entries: seq<(string, string)>, m: map<string, string>)
  {
    && (forall i :: 0 <= i < |entries| ==> entries[i].0 in m && m[entries[i].0] == entries[i].1)
    && (forall k :: k in m ==> k in KeysOf(entries))
  }

  /** The order `sorted(..., key=len, reverse=True)` produces. */
  ghost predicate LongestFirst(entries: seq<(string, string)>)
  {
    forall i, j :: 0 <= i < j < |entries| ==> |entries[i].0| >= |entries[j].0|
  }

  /** Scanning the mapping longest key first, whatever order equally long keys
      come in, yields the value of the longest key that applies. */
  lemma SortedScanFindsLongest(m: map<string, string>, entries: seq<(string, string)>, name: string)
    requires Enumerates(entries, m) && LongestFirst(entries)
    ensures ScanAlias(entries, name) ==
              (match LongestMatch(m, name) case Some(k) => Some(m[k]) case None => None)
  {
    match LongestMatch(m, name)
    case None =>
      assert forall j :: 0 <= j < |entries| ==> !Matches(name, entries[j].0);
    case Some(k) =>
      var ks := KeysOf(entries);
      assert k in ks;
      var i :| 0 <= i < |ks| && ks[i] == k;
      var f := FirstMatch(entries, name);
      assert f.Some?;
      var e := entries[f.value].0;
      assert f.value <= i;
      assert |e| >= |k|;
      EqualLengthMatchesCoincide(name, e, k);
  }

  /** The builder's rule, which is also the filter's fallback when no
      mapping key applies: the project name stays itself, a name below the
      project yields its second dotted segment, anything else its first. */
  function DerivedAlias(project: string, name: string): (r: string)
    ensures r == project || r in Split(name)
  {
    if name == project then project
    else if StartsWith(name, project + ".") then
      var parts := Split(name);
      if |parts| > 1 then parts[1] else project
    else Split(name)[0]
  }

  /** Below the project the split always has a second segment, so the
      `else project` fallback of that branch is never taken. */
  lemma UnderProjectHasSecondSegment(project: string, name: string)
    requires StartsWith(name, project + ".")
    ensures |Split(name)| > 1
  {
    assert name[|project|] == (project + ".")[|project|];
  }

  /** A dotted descendant keeps the alias of its ancestor, unless the ancestor
      is the project itself or lies above it. */
  lemma {:induction false} DerivedAliasInherited(project: string, key: string, name: string)
    requires Matches(name, key)
    requires key != project
    requires name == project || StartsWith(name, project + ".") ==> StartsWith(key, project + ".")
    ensures DerivedAlias(project, name) == DerivedAlias(project, key)
  {
    if name != key {
      MatchesShape(name, key);
      var rest := name[|key| + 1..];
      assert name == key + "." + rest;
      SplitAppend(key, rest);
      if StartsWith(key, project + ".") {
        UnderProjectHasSecondSegment(project, key);
        assert name[..|project| + 1] == key[..|project| + 1];
      }
    }
  }

  /** For a dot-free project name, every module below the project gets the
      name of its first sub-package as channel. */
  lemma ProjectModuleAlias(project: string, sub: string, rest: string)
    requires '.' !in project && '.' !in sub
    ensures DerivedAlias(project, project + "." + sub) == sub
    ensures DerivedAlias(project, project + "." + sub + "." + rest) == sub
  {
    var n1 := project + "." + sub;
    var n2 := n1 + "." + rest;
    SplitAppend(project, sub);
    SplitNoDot(project);
    SplitNoDot(sub);
    assert n1[..|project| + 1] == project + ".";
    SplitAppend(n1, rest);
    assert n2[..|project| + 1] == project + ".";
  }

  /** For a two-segment project name, every module below the project gets the
      project's own second segment: the rule takes segment 1 of the whole
      name, not the segment after the project. */
  lemma DottedProjectAlias(p1: string, p2: string, rest: string)
    requires '.' !in p1 && '.' !in p2
    ensures DerivedAlias(p1 + "." + p2, p1 + "." + p2 + "." + rest) == p2
  {
    var project := p1 + "." + p2;
    var name := project + "." + rest;
    assert name == p1 + "." + (p2 + "." + rest);
    SplitAppend(p1, p2 + "." + rest);
    SplitAppend(p2, rest);
    SplitNoDot(p1);
    SplitNoDot(p2);
    assert name[..|project| + 1] == project + ".";
  }

  /** A module outside the project is reported under its top-level package. */
  lemma ForeignModuleAlias(project: string, top: string, rest: string)
    requires '.' !in top && top != project
    requires !StartsWith(project, top + ".")
    ensures DerivedAlias(project, top) == top
    ensures DerivedAlias(project, top + "." + rest) == top
  {
    SplitNoDot(top);
    var name := top + "." + rest;
    assert Matches(name, top);
    NotUnderProject(project, top, rest);
    DerivedAliasInherited(project, top, name);
  }

  /** Helper: a dot-free package other than the project and not above it has
      no descendant inside the project. */
  lemma NotUnderProject(project: string, top: string, rest: string)
    requires '.' !in top && top != project
    requires !StartsWith(project, top + ".")
    ensures top + "." + rest != project
    ensures !StartsWith(top + "." + rest, project + ".")
    ensures !StartsWith(top, project + ".")
  {
    var name := top + "." + rest;
    if |project| < |top| {
      assert name[|project|] == top[|project|];
      assert name[|project|] != '.';
      assert (project + ".")[|project|] == '.';
    } else if |project| == |top| {
      assert name[..|project|] == top;
      assert (project + ".")[..|project|] == project;
    } else {
      assert name[..|top| + 1] == top + ".";
    }
  }

  /** A name without dots is its own alias. */
  lemma DotFreeAlias(project: string, name: string)
    requires '.' !in name
    ensures DerivedAlias(project, name) == name
  {
    SplitNoDot(name);
    if |project| < |name| {
      assert name[|project|] != '.';
      assert (project + ".")[|project|] == '.';
    }
  }

  /** The alias need not be non-empty: a leading dot, or a trailing dot after
      the project name, gives the empty alias. */
  lemma EmptyAliasesOccur(project: string, rest: string)
    requires project != "" && '.' !in project
    ensures DerivedAlias(project, "." + rest) == ""
    ensures DerivedAlias(project, project + ".") == ""
  {
    var n := project + ".";
    assert n == project + "." + "";
    SplitAppend(project, "");
    SplitNoDot(project);
    assert n[..|project| + 1] == project + ".";
    assert ("." + rest)[0] == '.';
  }

  /** A key that applies and is at least as long as every applicable key is
      the one `LongestMatch` finds. */
  lemma LongestMatchIsTheLongest(m: map<string, string>, name: string)
    ensures forall key :: key in m && Matches(name, key) &&
                          (forall k :: k in m && Matches(name, k) ==> |k| <= |key|)
                          ==> LongestMatch(m, name) == Some(key)
  {
    forall key | key in m && Matches(name, key) && (forall k :: k in m && Matches(name, k) ==> |k| <= |key|)
      ensures LongestMatch(m, name) == Some(key)
    {
      EqualLengthMatchesCoincide(name, LongestMatch(m, name).value, key);
    }
  }

  /** The channel filter's `_alias_for`: the empty name and "root" are the
      project; otherwise the longest applicable key decides; with no
      applicable key the builder's rule applies. */
  function FilterAlias(project: string, m: map<string, string>, name: string): (r: string)
    ensures name == "" || name == "root" ==> r == project
    ensures name != "" && name != "root" ==>
              forall key :: key in m && Matches(name, key) &&
                            (forall k :: k in m && Matches(name, k) ==> |k| <= |key|)
                            ==> r == m[key]
    ensures name != "" && name != "root" && (forall k :: k in m ==> !Matches(name, k)) ==>
              r == DerivedAlias(project, name)
  {
    LongestMatchIsTheLongest(m, name);
    if name == "" || name == "root" then project
    else
      match LongestMatch(m, name)
      case Some(k) => m[k]
      case None => DerivedAlias(project, name)
  }

  /** With only the project's own entry, every module below the project is
      shown under the project name. */
  lemma SoleProjectEntry(project: string, name: string)
    requires StartsWith(name, project + ".")
    ensures FilterAlias(project, map[project := project], name) == project
  {
    var m := map[project := project];
    assert name != "root" && name != "" by {
      assert name[|project|] == '.';
    }
    assert forall k :: k in m && Matches(name, k) ==> |k| <= |project|;
  }

  /** A registered name is its own longest match. */
  lemma FilterRegisteredName(project: string, m: map<string, string>, name: string)
    requires name != "" && name != "root" && name in m
    ensures FilterAlias(project, m, name) == m[name]
  {
    ProperMatchesAll(name);
  }

  /** Every entry of `m` records the builder's alias of its key. */
  ghost predicate Consistent(project: string, m: map<string, string>)
  {
    forall k :: k in m ==> m[k] == DerivedAlias(project, k)
  }

  /** With a mapping built by the builder (consistent and holding the
      project's own entry), the filter agrees with the builder's rule on every
      name except those below the project whose longest applicable key is the
      project itself: these are all reported as the project. */
  lemma FilterAgreesWithBuilder(project: string, m: map<string, string>, name: string)
    requires Consistent(project, m) && project in m
    requires name != "" && name != "root"
    ensures FilterAlias(project, m, name) ==
              if StartsWith(name, project + ".") && LongestMatch(m, name) == Some(project)
              then project
              else DerivedAlias(project, name)
  {
    match LongestMatch(m, name)
    case None =>
    case Some(k) =>
      if k != project {
        if name == project || StartsWith(name, project + ".") {
          assert Matches(name, project);
          assert |project| <= |k|;
          if |project| == |k| {
            EqualLengthMatchesCoincide(name, project, k);
          }
          MatchesShape(name, k);
          MatchesShape(name, project);
          assert k[..|project| + 1] == name[..|project| + 1];
        }
        DerivedAliasInherited(project, k, name);
      }
  }
}
