/**
  Relative node paths as '/'-separated strings, with the two string helpers the
  dynamic resolver uses: `Split('/')` and `string.Join("/", ...)` as .NET defines them.
  Only child-name segments are modelled: no "..", no absolute paths.
*/
module NodePaths {

  /** `s.Split('/')`: never empty; "" splits to [""], and every separator starts a new segment. */
  function Split(s: string): (r: seq<string>)
    ensures |r| >= 1
    ensures forall i :: 0 <= i < |r| ==> '/' !in r[i]
  {
    if |s| == 0 then [""]
    else if s[0] == '/' then [""] + Split(s[1..])
    else
      var rest := Split(s[1..]);
      [[s[0]] + rest[0]] + rest[1..]
  }

  /** `string.Join("/", segs)`: "" for no segments. */
  function Join(segs: seq<string>): string
  {
    if |segs| == 0 then ""
    else if |segs| == 1 then segs[0]
    else segs[0] + "/" + Join(segs[1..])
  }

  /** The first segment, `path.Split('/')[0]`. */
  function FirstSegment(path: string): string
  {
    Split(path)[0]
  }

  /** `string.Join("/", path.Split('/').Skip(1))`: everything after the first segment. */
  function RemainingPath(path: string): string
  {
    Join(Split(path)[1..])
  }

  /** Joining the pieces of a split gives the string back. */
  lemma {:induction false} JoinSplit(s: string)
    ensures Join(Split(s)) == s
  {
    if |s| == 0 {
    } else if s[0] == '/' {
      JoinSplit(s[1..]);
      assert Split(s)[1..] == Split(s[1..]);
    } else {
      JoinSplit(s[1..]);
      var rest := Split(s[1..]);
      if |rest| == 1 {
        assert Join(Split(s)) == [s[0]] + rest[0];
      } else {
        assert Split(s)[1..] == rest[1..];
        assert Join(rest) == rest[0] + "/" + Join(rest[1..]);
      }
      assert s == [s[0]] + s[1..];
    }
  }

  /** A string without a separator is a single segment. */
  lemma {:induction false} SplitNoSeparator(a: string)
    requires '/' !in a
    ensures Split(a) == [a]
  {
    if |a| > 0 {
      assert '/' !in a[1..] by {
        forall i | 0 <= i < |a[1..]| ensures a[1..][i] != '/' {
          assert a[1..][i] == a[i + 1];
        }
      }
      SplitNoSeparator(a[1..]);
      assert a == [a[0]] + a[1..];
    }
  }

  /** Splitting at the first separator: the head segment, then the split of the rest. */
  lemma {:induction false} SplitAtSeparator(a: string, b: string)
    requires '/' !in a
    ensures Split(a + "/" + b) == [a] + Split(b)
  {
    if |a| == 0 {
      assert a + "/" + b == "/" + b;
      assert ("/" + b)[1..] == b;
    } else {
      assert '/' !in a[1..] by {
        forall i | 0 <= i < |a[1..]| ensures a[1..][i] != '/' {
          assert a[1..][i] == a[i + 1];
        }
      }
      SplitAtSeparator(a[1..], b);
      var s := a + "/" + b;
      assert s[0] == a[0];
      assert s[1..] == a[1..] + "/" + b;
      assert a == [a[0]] + a[1..];
    }
  }

  /** Splitting a join of separator-free segments gives the segments back. */
  lemma {:induction false} SplitJoin(segs: seq<string>)
    requires |segs| >= 1
    requires forall i :: 0 <= i < |segs| ==> '/' !in segs[i]
    ensures Split(Join(segs)) == segs
  {
    if |segs| == 1 {
      SplitNoSeparator(segs[0]);
    } else {
      SplitJoin(segs[1..]);
      SplitAtSeparator(segs[0], Join(segs[1..]));
      assert segs == [segs[0]] + segs[1..];
    }
  }

  /**
    The head and the rest of a path: with a first separator at index i, the
    head is what precedes it and the rest is what follows it; without one, the
    head is the whole path and the rest is empty.
  */
  lemma FirstAndRemaining(path: string, i: nat)
    requires i < |path| && path[i] == '/' && '/' !in path[..i]
    ensures FirstSegment(path) == path[..i]
    ensures RemainingPath(path) == path[i + 1..]
  {
    assert path == path[..i] + "/" + path[i + 1..];
    SplitAtSeparator(path[..i], path[i + 1..]);
    assert Split(path)[1..] == Split(path[i + 1..]);
    JoinSplit(path[i + 1..]);
  }

  lemma SingleSegmentPath(path: string)
    requires '/' !in path
    ensures FirstSegment(path) == path
    ensures RemainingPath(path) == ""
  {
    SplitNoSeparator(path);
  }
}
