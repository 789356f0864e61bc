/**
 * A session log kept in a `collections.deque(maxlen=cap)`: appending to a
 * full log drops its oldest line.
 */
module BoundedLog {
  import opened Wrappers
  import opened Text

  /** The last `cap` elements of `s` (all of `s` when it is shorter). */
  function Last<T>(s: seq<T>, cap: nat): (r: seq<T>)
    ensures |r| == if |s| <= cap then |s| else cap
    ensures r == s[|s| - |r|..]
  {
    if |s| <= cap then s else s[|s| - cap..]
  }

  /** `deque.append(x)` on a deque bounded by `cap`. */
  function Append<T>(log: seq<T>, x: T, cap: nat): (r: seq<T>)
    requires cap > 0
    ensures |log| < cap ==> r == log + [x]
    ensures |log| >= cap ==> |r| == cap
    ensures r != [] && r[|r| - 1] == x
  {
    Last(log + [x], cap)
  }

  /** Appending to a full log drops its oldest line and keeps the others in order. */
  lemma AppendDropsOldest<T>(log: seq<T>, x: T, cap: nat)
    requires cap > 0 && |log| >= cap
    ensures Append(log, x, cap)[..cap - 1] == log[|log| - cap + 1..]
  {
    var all := log + [x];
    assert Append(log, x, cap)[..cap - 1] == all[|all| - cap..|all| - 1];
  }

  /** Trimming early does not change which elements are last. */
  lemma LastOfLast<T>(a: seq<T>, b: seq<T>, cap: nat)
    ensures Last(Last(a, cap) + b, cap) == Last(a + b, cap)
  {
    if |a| > cap {
      var t := Last(a, cap) + b;
      var u := a + b;
      assert |Last(t, cap)| == |Last(u, cap)|;
      forall i | 0 <= i < |Last(u, cap)|
        ensures Last(t, cap)[i] == Last(u, cap)[i]
      {
        var j := |u| - |Last(u, cap)| + i;
        if j < |a| {
          assert t[|t| - |Last(u, cap)| + i] == a[j];
        } else {
          assert t[|t| - |Last(u, cap)| + i] == b[j - |a|];
        }
      }
    }
  }

  /**
   * What a reader thread adds to the log for a batch of raw lines: each line
   * with trailing `strip` characters removed, skipping lines that become empty.
   */
  function Cleaned(lines: seq<string>, strip: set<char>): (r: seq<string>)
    ensures forall i :: 0 <= i < |r| ==> r[i] != ""
    ensures |r| <= |lines|
  {
    if lines == [] then []
    else
      var c := RStripChars(lines[|lines| - 1], strip);
      Cleaned(lines[..|lines| - 1], strip) + (if c != "" then [c] else [])
  }

  /**
   * Reading one more line: the bounded log of the longer batch is the bounded
   * log of the shorter one with the cleaned line appended, if it is not empty.
   */
  lemma LastCleanedSnoc(prefix: seq<string>, lines: seq<string>, line: string, strip: set<char>, cap: nat)
    requires cap > 0
    ensures var c := RStripChars(line, strip);
            var before := Last(prefix + Cleaned(lines, strip), cap);
            Last(prefix + Cleaned(lines + [line], strip), cap) == if c != "" then Append(before, c, cap) else before
  {
    var c := RStripChars(line, strip);
    SnocPrefix(lines, line);
    if c != "" {
      AppendAssoc(prefix, Cleaned(lines, strip), [c]);
      LastOfLast(prefix + Cleaned(lines, strip), [c], cap);
    } else {
      assert Cleaned(lines + [line], strip) == Cleaned(lines, strip) + [];
    }
  }

  /**
   * One step of a reader thread: if `before` is the bounded log after the
   * first `i` lines, then logging line `i` (when it is not empty once
   * cleaned) gives the bounded log after the first `i + 1` lines.
   */
  lemma ReadStep(prefix: seq<string>, lines: seq<string>, i: nat, strip: set<char>, cap: nat,
                 before: seq<string>, after: seq<string>)
    requires cap > 0 && i < |lines|
    requires before == Last(prefix + Cleaned(lines[..i], strip), cap)
    requires var c := RStripChars(lines[i], strip);
             after == if c != "" then Append(before, c, cap) else before
    ensures after == Last(prefix + Cleaned(lines[..i + 1], strip), cap)
  {
    PrefixSnoc(lines, i);
    LastCleanedSnoc(prefix, lines[..i], lines[i], strip, cap);
  }
}
