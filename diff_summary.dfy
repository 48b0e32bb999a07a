/** `generate_diff_summary`: the removed and added lines of a line diff, tagged, of which
    the first five are joined by newlines and an ellipsis line marks that more were cut. */
module DiffSummary {
  import opened Seqs
  import opened Strings
  import Agents

  const RemovedTag := "Removed: "
  const AddedTag := "Added: "
  const Ellipsis := "\n..."
  const Shown := 5

  /** A diff line that reports a removed or an added line (not a kept or hint line). */
  predicate IsChange(line: string)
  {
    StartsWith(line, "- ") || StartsWith(line, "+ ")
  }

  /** The tagged description of a change line. */
  function Describe(line: string): string
  {
    if StartsWith(line, "- ") then RemovedTag + line[2..]
    else if StartsWith(line, "+ ") then AddedTag + line[2..]
    else line
  }

  /** The changes the loop collects: every change line in order, described. */
  function Changes(diff: seq<string>): seq<string>
  {
    Map(Filter(diff, IsChange), Describe)
  }

  /** The summary text built from the collected changes. */
  function Summary(changes: seq<string>): string
  {
    Join(Agents.FirstN(changes, Shown), "\n") + (if |changes| > Shown then Ellipsis else "")
  }

  predicate EndsWith(s: string, suffix: string)
  {
    |suffix| <= |s| && s[|s| - |suffix|..] == suffix
  }

  /** The loop over the diff lines and the final join. */
  method GenerateDiffSummary(diff: seq<string>) returns (summary: string)
    ensures summary == Summary(Changes(diff))
  {
    var changes: seq<string> := [];
    for i := 0 to |diff|
      invariant changes == Changes(diff[..i])
    {
      var line := diff[i];
      ChangesStep(diff, i);
      if StartsWith(line, "- ") {
        changes := changes + [RemovedTag + line[2..]];
      } else if StartsWith(line, "+ ") {
        changes := changes + [AddedTag + line[2..]];
      }
    }
    assert diff[..|diff|] == diff;
    assert changes[..|changes|] == changes;
    var shown := if |changes| > Shown then changes[..Shown] else changes;
    summary := Join(shown, "\n") + (if |changes| > Shown then Ellipsis else "");
  }

  /** Extending the prefix by one line adds that line's description when it is a change. */
  lemma ChangesStep(diff: seq<string>, i: nat)
    requires i < |diff|
    ensures Changes(diff[..i + 1]) == Changes(diff[..i]) + (if IsChange(diff[i]) then [Describe(diff[i])] else [])
  {
    assert diff[..i + 1][..i] == diff[..i];
    FilterLast(diff[..i + 1], IsChange);
  }

  /** One description per change line, in the order of the diff. */
  lemma ChangesFaithful(diff: seq<string>)
    ensures |Changes(diff)| == Count(diff, IsChange)
    ensures forall i :: 0 <= i < |Changes(diff)| ==>
      Changes(diff)[i] == Describe(Filter(diff, IsChange)[i])
    ensures Subsequence(Filter(diff, IsChange), diff)
  {
    FilterSubsequence(diff, IsChange);
  }

  /** Every description names what happened to the line. */
  lemma ChangesTagged(diff: seq<string>)
    ensures forall c :: c in Changes(diff) ==> StartsWith(c, RemovedTag) || StartsWith(c, AddedTag)
  {
    forall c | c in Changes(diff)
      ensures StartsWith(c, RemovedTag) || StartsWith(c, AddedTag)
    {
      var k :| 0 <= k < |Changes(diff)| && Changes(diff)[k] == c;
      assert Filter(diff, IsChange)[k] in Filter(diff, IsChange);
    }
  }

  /** A diff without change lines yields the empty summary. */
  lemma NoChangesEmpty(diff: seq<string>)
    requires forall l :: l in diff ==> !IsChange(l)
    ensures Summary(Changes(diff)) == ""
  {
    FilterNone(diff, IsChange);
  }

  /** The summary shows every change when there are at most five of them. */
  lemma ShortSummary(changes: seq<string>)
    requires |changes| <= Shown
    ensures Summary(changes) == Join(changes, "\n")
  {
    FirstAll(changes, Shown);
  }

  lemma FirstAll(s: seq<string>, n: nat)
    requires |s| <= n
    ensures Agents.FirstN(s, n) == s
  {
    assert s[..|s|] == s;
  }

  /** The ellipsis line is there exactly when more than five changes exist, provided the
      change lines hold no newline: they come from `splitlines`, and only `? ` hint lines
      carry one. */
  lemma EllipsisIff(diff: seq<string>)
    requires forall l :: l in diff && IsChange(l) ==> '\n' !in l
    ensures EndsWith(Summary(Changes(diff)), Ellipsis) <==> |Changes(diff)| > Shown
  {
    var changes := Changes(diff);
    if |changes| <= Shown {
      ChangesShape(diff);
      ShortSummary(changes);
      NoTailEllipsis(changes);
    }
  }

  /** Each description is longer than three characters and, for newline-free change lines,
      holds no newline. */
  lemma ChangesShape(diff: seq<string>)
    requires forall l :: l in diff && IsChange(l) ==> '\n' !in l
    ensures forall c :: c in Changes(diff) ==> |c| >= 4 && '\n' !in c
  {
    var kept := Filter(diff, IsChange);
    forall c | c in Changes(diff)
      ensures |c| >= 4 && '\n' !in c
    {
      var k :| 0 <= k < |Changes(diff)| && Changes(diff)[k] == c;
      var l := kept[k];
      assert l in kept;
      DescribeShape(l);
    }
  }

  lemma DescribeShape(l: string)
    requires IsChange(l) && '\n' !in l
    ensures |Describe(l)| >= 4 && '\n' !in Describe(l)
  {
    assert forall j :: 0 <= j < |l| - 2 ==> l[2..][j] == l[j + 2];
  }

  /** A join of parts that each hold at least four characters and no newline cannot end
      with a newline followed by three characters. */
  lemma NoTailEllipsis(parts: seq<string>)
    requires forall c :: c in parts ==> |c| >= 4 && '\n' !in c
    ensures !EndsWith(Join(parts, "\n"), Ellipsis)
  {
    if |parts| == 1 {
      assert parts[0] in parts;
      assert Join(parts, "\n")[|parts[0]| - 4] in parts[0];
    } else if |parts| > 1 {
      var last := parts[|parts| - 1];
      var front := Join(parts[..|parts| - 1], "\n") + "\n";
      JoinLast(parts, "\n");
      assert last in parts;
      var j := front + last;
      assert j[|j| - 4] == last[|last| - 4];
      assert last[|last| - 4] in last;
    }
  }

  /** The last part of a join is its tail, after the separator. */
  lemma {:induction false} JoinLast(parts: seq<string>, sep: string)
    requires |parts| > 1
    ensures Join(parts, sep) == Join(parts[..|parts| - 1], sep) + sep + parts[|parts| - 1]
  {
    var rest := parts[1..];
    if |parts| > 2 {
      JoinLast(rest, sep);
      assert rest[..|rest| - 1] == parts[..|parts| - 1][1..];
    } else {
      assert parts[..|parts| - 1] == [parts[0]];
    }
  }
}
