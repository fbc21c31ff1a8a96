/**
 * The two `[END]`-terminated read loops of `main`: each reads raw lines from
 * the participant and appends every line before the first terminator line to
 * the fragment being built. The participant's input is a sequence of raw
 * lines (each with its own newline); a fragment read starts at a line index.
 */
module Collector {
  import opened Wrappers
  import opened Lines

  /** A fragment read to its terminator: its text and the index of the next unread line. */
  datatype Part = Part(text: string, next: nat)

  /**
   * The terminator that ends a read started at `start` is the line at `k`:
   * it trims to `[END]` and no line between `start` and it does.
   */
  ghost predicate EndsAt(lines: seq<string>, start: nat, k: nat)
  {
    && start <= k < |lines|
    && IsTerminator(lines[k])
    && forall j :: start <= j < k ==> !IsTerminator(lines[j])
  }

  /**
   * One read loop as a function of the input: `None` when no line from
   * `start` on is a terminator, in which case the loop never exits (past the
   * end of input `read_line` keeps yielding "").
   */
  function Collect(lines: seq<string>, start: nat): Option<Part>
    decreases |lines| - start
  {
    if start >= |lines| then None
    else if IsTerminator(lines[start]) then Some(Part("", start + 1))
    else match Collect(lines, start + 1)
      case None => None
      case Some(p) => Some(Part(lines[start] + p.text, p.next))
  }

  /**
   * A read returns exactly when some later line is a terminator; it then
   * yields, in order and verbatim, the lines before the first such line, and
   * resumes just past that line. The terminator itself is not in the text.
   */
  lemma CollectSpec(lines: seq<string>, start: nat)
    ensures Collect(lines, start).Some? <==>
              exists k :: start <= k < |lines| && IsTerminator(lines[k])
    ensures Collect(lines, start).Some? ==>
              var p := Collect(lines, start).value;
              && start < p.next
              && EndsAt(lines, start, p.next - 1)
              && p.text == Concat(lines[start..p.next - 1])
  {
    CollectReturnsIff(lines, start);
    if Collect(lines, start).Some? {
      CollectedPart(lines, start);
    }
  }

  /** The first half of `CollectSpec`: when a read returns. */
  lemma {:induction false} CollectReturnsIff(lines: seq<string>, start: nat)
    ensures Collect(lines, start).Some? <==>
              exists k :: start <= k < |lines| && IsTerminator(lines[k])
    decreases |lines| - start
  {
    if start < |lines| && !IsTerminator(lines[start]) {
      CollectReturnsIff(lines, start + 1);
      if Collect(lines, start + 1).None? {
        forall k | start < k < |lines|
          ensures !IsTerminator(lines[k])
        {
          assert start + 1 <= k < |lines|;
        }
      }
    }
  }

  /** The second half of `CollectSpec`: what a returning read yields. */
  lemma {:induction false} CollectedPart(lines: seq<string>, start: nat)
    requires Collect(lines, start).Some?
    ensures var p := Collect(lines, start).value;
              && start < p.next
              && EndsAt(lines, start, p.next - 1)
              && p.text == Concat(lines[start..p.next - 1])
    decreases |lines| - start
  {
    if IsTerminator(lines[start]) {
      assert lines[start..start] == [];
    } else {
      CollectedPart(lines, start + 1);
      var p := Collect(lines, start + 1).value;
      var seg := lines[start..p.next - 1];
      assert seg[0] == lines[start] && seg[1..] == lines[start + 1..p.next - 1];
    }
  }

  /** When a read never ends, every line it would ever get is content. */
  lemma NoTerminatorReadsForever(lines: seq<string>, start: nat, i: nat)
    requires Collect(lines, start) == None
    requires start <= i
    ensures !IsTerminator(ReadLineAt(lines, i))
  {
    CollectSpec(lines, start);
    if i < |lines| {
      assert !(start <= i < |lines| && IsTerminator(lines[i]));
    } else {
      EofNeverTerminates(lines, i);
    }
  }

  /**
   * One read loop as `main` runs it: read a line, stop at a terminator,
   * otherwise `push_str` it onto the fragment.
   */
  method ReadPart(lines: seq<string>, start: nat) returns (r: Option<Part>)
    ensures r == Collect(lines, start)
    ensures r.Some? ==> start < r.value.next && EndsAt(lines, start, r.value.next - 1)
    ensures r.Some? ==> r.value.text == Concat(lines[start..r.value.next - 1])
  {
    var part := "";
    var i := start;
    while i < |lines|
      invariant start <= i && (i <= |lines| || i == start)
      invariant i <= |lines| ==> part == Concat(lines[start..i])
      invariant forall j :: start <= j < i ==> !IsTerminator(lines[j])
      decreases |lines| - i
    {
      var line := lines[i];
      if IsTerminator(line) {
        FirstTerminatorIsCollected(lines, start, i);
        return Some(Part(part, i + 1));
      }
      assert lines[start..i + 1] == lines[start..i] + [line];
      ConcatAppend(lines[start..i], line);
      part := part + line;
      i := i + 1;
    }
    // Out of input: from here on `read_line` yields only "", which never
    // terminates, so the loop in `main` never exits.
    CollectReturnsIff(lines, start);
    r := None;
  }

  lemma FirstTerminatorIsCollected(lines: seq<string>, start: nat, k: nat)
    requires EndsAt(lines, start, k)
    ensures Collect(lines, start) == Some(Part(Concat(lines[start..k]), k + 1))
  {
    CollectSpec(lines, start);
    var p := Collect(lines, start).value;
    EndsAtUnique(lines, start, k, p.next - 1);
  }

  /** A read has at most one terminator that ends it. */
  lemma EndsAtUnique(lines: seq<string>, start: nat, k1: nat, k2: nat)
    requires EndsAt(lines, start, k1) && EndsAt(lines, start, k2)
    ensures k1 == k2
  {
  }

  /**
   * On input as `read_line` delivers it, a fragment is made of whole lines:
   * it is empty or ends in a newline, since every line before a terminator
   * has a line after it.
   */
  lemma PartIsWholeLines(lines: seq<string>, start: nat)
    requires ReadLineShaped(lines)
    requires Collect(lines, start).Some?
    ensures var t := Collect(lines, start).value.text; t == [] || t[|t| - 1] == '\n'
  {
    CollectSpec(lines, start);
    var k := Collect(lines, start).value.next - 1;
    var seg := lines[start..k];
    assert forall i :: 0 <= i < |seg| ==> seg[i] == lines[start + i] && start + i < |lines| - 1;
    ConcatOfWholeLines(seg);
  }

  /** Both fragments: PART 1 from the first line, PART 2 right after PART 1's terminator. */
  function CollectBoth(lines: seq<string>): Option<(string, string)>
  {
    match Collect(lines, 0)
    case None => None
    case Some(p1) =>
      match Collect(lines, p1.next)
      case None => None
      case Some(p2) => Some((p1.text, p2.text))
  }

  /**
   * The two read loops run back to back: PART 2 is read from the line after
   * PART 1's terminator. `None` when either loop would never exit.
   */
  method ReadBoth(lines: seq<string>) returns (r: Option<(string, string)>)
    ensures r == CollectBoth(lines)
  {
    var part1 := ReadPart(lines, 0);
    if part1.None? {
      return None;
    }
    var part2 := ReadPart(lines, part1.value.next);
    if part2.None? {
      return None;
    }
    r := Some((part1.value.text, part2.value.text));
  }

  /**
   * Given the first terminator `k1` and the first terminator `k2` after it,
   * PART 1 is the lines before `k1` and PART 2 exactly the lines strictly
   * between `k1` and `k2`.
   */
  lemma CollectBothSpec(lines: seq<string>, k1: nat, k2: nat)
    requires EndsAt(lines, 0, k1) && EndsAt(lines, k1 + 1, k2)
    ensures CollectBoth(lines) == Some((Concat(lines[..k1]), Concat(lines[k1 + 1..k2])))
  {
    FirstTerminatorIsCollected(lines, 0, k1);
    FirstTerminatorIsCollected(lines, k1 + 1, k2);
    assert lines[0..k1] == lines[..k1];
  }

  /** Both reads return exactly when at least two lines are terminators. */
  lemma CollectBothReturns(lines: seq<string>)
    ensures CollectBoth(lines).Some? <==>
              exists k1, k2 :: 0 <= k1 < k2 < |lines| && IsTerminator(lines[k1]) && IsTerminator(lines[k2])
  {
    CollectSpec(lines, 0);
    if Collect(lines, 0).Some? {
      var p1 := Collect(lines, 0).value;
      CollectSpec(lines, p1.next);
      if exists k1, k2 :: 0 <= k1 < k2 < |lines| && IsTerminator(lines[k1]) && IsTerminator(lines[k2]) {
        var k1, k2 :| 0 <= k1 < k2 < |lines| && IsTerminator(lines[k1]) && IsTerminator(lines[k2]);
        assert p1.next - 1 <= k1;
        assert p1.next <= k2 < |lines| && IsTerminator(lines[k2]);
      }
    }
  }
}
