/** Dot-separated logger names as plain character sequences: prefix test and
    the `str.split(".")` that the alias rules use. */
module Names {

  /** `s.startswith(p)` */
  predicate StartsWith(s: string, p: string)
  {
    |p| <= |s| && s[..|p|] == p
  }

  /** `s.split(".")`: the segments between dots, kept empty where two dots
      meet or the name starts or ends with a dot. */
  function Split(s: string): (parts: seq<string>)
    ensures |parts| >= 1
    ensures forall i :: 0 <= i < |parts| ==> '.' !in parts[i]
    ensures |parts| > 1 <==> '.' in s
    decreases |s|
  {
    if |s| == 0 then [""]
    else if s[0] == '.' then [""] + Split(s[1..])
    else
      var rest := Split(s[1..]);
      assert s == [s[0]] + s[1..];
      [[s[0]] + rest[0]] + rest[1..]
  }

  /** `".".join(parts)` */
  function Join(parts: seq<string>): string
    requires |parts| >= 1
    decreases |parts|
  {
    if |parts| == 1 then parts[0] else parts[0] + "." + Join(parts[1..])
  }

  /** Joining the segments gives the name back. */
  lemma {:induction false} JoinSplit(s: string)
    ensures Join(Split(s)) == s
    decreases |s|
  {
    if |s| == 0 {
    } else if s[0] == '.' {
      JoinSplit(s[1..]);
      assert Split(s)[1..] == Split(s[1..]);
      assert s == "." + s[1..];
    } else {
      JoinSplit(s[1..]);
      var rest := Split(s[1..]);
      if |rest| > 1 {
        assert Split(s)[1..] == rest[1..];
      }
      assert s == [s[0]] + s[1..];
    }
  }

  /** A name without dots is a single segment. */
  lemma {:induction false} SplitNoDot(s: string)
    requires '.' !in s
    ensures Split(s) == [s]
    decreases |s|
  {
    if |s| > 0 {
      assert '.' !in s[1..];
      SplitNoDot(s[1..]);
      assert s == [s[0]] + s[1..];
    }
  }

  /** Splitting distributes over a joining dot. */
  lemma {:induction false} SplitAppend(a: string, b: string)
    ensures Split(a + "." + b) == Split(a) + Split(b)
    decreases |a|
  {
    var s := a + "." + b;
    if |a| == 0 {
      assert s == "." + b;
      assert s[1..] == b;
    } else {
      assert s[0] == a[0];
      assert s[1..] == a[1..] + "." + b;
      SplitAppend(a[1..], b);
    }
  }

  /** Splitting undoes joining when no segment holds a dot. */
  lemma {:induction false} SplitJoin(parts: seq<string>)
    requires |parts| >= 1
    requires forall i :: 0 <= i < |parts| ==> '.' !in parts[i]
    ensures Split(Join(parts)) == parts
    decreases |parts|
  {
    SplitNoDot(parts[0]);
    if |parts| > 1 {
      SplitJoin(parts[1..]);
      SplitAppend(parts[0], Join(parts[1..]));
      assert parts == [parts[0]] + parts[1..];
    }
  }

  /** The first segment is the text before the first dot, or the whole name
      when it has none; this is also `s.split(".", 1)[0]`. */
  lemma Head(s: string)
    ensures StartsWith(s, Split(s)[0])
    ensures '.' !in Split(s)[0]
    ensures |Split(s)[0]| == |s| || s[|Split(s)[0]|] == '.'
  {
    var parts := Split(s);
    JoinSplit(s);
    if |parts| > 1 {
      assert s == parts[0] + "." + Join(parts[1..]);
      assert s[..|parts[0]|] == parts[0];
    }
  }
}
