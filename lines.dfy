/**
 * Line-level text helpers of the input collector: Rust's `str::trim`, the
 * `[END]` terminator test, `read_line` past end of input, and the in-order
 * concatenation that `push_str` builds up.
 */
module Lines {

  /** Rust's `char::is_whitespace`: the Unicode White_Space property. */
  predicate IsWhitespace(c: char)
  {
    || ('\t' <= c <= '\r')          // U+0009 .. U+000D
    || c == ' '
    || c == '\U{0085}'
    || c == '\U{00A0}'
    || c == '\U{1680}'
    || ('\U{2000}' <= c <= '\U{200A}')
    || c == '\U{2028}'
    || c == '\U{2029}'
    || c == '\U{202F}'
    || c == '\U{205F}'
    || c == '\U{3000}'
  }

  predicate AllWhitespace(s: string)
  {
    forall i :: 0 <= i < |s| ==> IsWhitespace(s[i])
  }

  /** `trim_start`: drops the leading whitespace. */
  function TrimStart(s: string): string
  {
    if s != [] && IsWhitespace(s[0]) then TrimStart(s[1..]) else s
  }

  /** `trim_end`: drops the trailing whitespace. */
  function TrimEnd(s: string): string
  {
    if s != [] && IsWhitespace(s[|s| - 1]) then TrimEnd(s[..|s| - 1]) else s
  }

  /**
   * `trim_start` keeps a suffix of its input verbatim, removes only
   * whitespace, and stops at the first character that is not whitespace.
   */
  lemma {:induction false} TrimStartSpec(s: string)
    ensures var r := TrimStart(s);
      && |r| <= |s| && r == s[|s| - |r|..]
      && AllWhitespace(s[..|s| - |r|])
      && (r == [] || !IsWhitespace(r[0]))
  {
    if s != [] && IsWhitespace(s[0]) {
      TrimStartSpec(s[1..]);
      var r := TrimStart(s[1..]);
      assert s[1..][..|s| - 1 - |r|] == s[1..|s| - |r|];
    }
  }

  /**
   * `trim_end` keeps a prefix of its input verbatim, removes only
   * whitespace, and stops at the last character that is not whitespace.
   */
  lemma {:induction false} TrimEndSpec(s: string)
    ensures var r := TrimEnd(s);
      && |r| <= |s| && r == s[..|r|]
      && AllWhitespace(s[|r|..])
      && (r == [] || !IsWhitespace(r[|r| - 1]))
  {
    if s != [] && IsWhitespace(s[|s| - 1]) {
      var t := s[..|s| - 1];
      TrimEndSpec(t);
      var r := TrimEnd(t);
      assert s[|r|..] == t[|r|..] + [s[|s| - 1]];
      forall i | 0 <= i < |s[|r|..]|
        ensures IsWhitespace(s[|r|..][i])
      {
        if i < |t[|r|..]| {
          assert s[|r|..][i] == t[|r|..][i];
        }
      }
    }
  }

  /** Rust's `str::trim`: whitespace removed on both sides. */
  function Trim(s: string): string
  {
    TrimEnd(TrimStart(s))
  }

  const Terminator: string := "[END]"

  /** The test `this_line.trim() == "[END]"` of both read loops. */
  predicate IsTerminator(line: string)
  {
    Trim(line) == Terminator
  }

  /**
   * What `read_line` appends to a fresh `String` when the participant's
   * input is `lines` and `i` lines were read before: the next line, with its
   * newline, or nothing at all once the input is exhausted.
   */
  function ReadLineAt(lines: seq<string>, i: nat): string
  {
    if i < |lines| then lines[i] else ""
  }

  /**
   * The shape of input that `read_line` can deliver one call at a time: no
   * element is empty, and a newline occurs in an element only as its last
   * character; only the final element may lack it (input that ends without
   * a newline). Sequences outside this shape describe no real input; the
   * read loops are modelled over the elements as given.
   */
  predicate ReadLineShaped(lines: seq<string>)
  {
    forall i :: 0 <= i < |lines| ==>
      && lines[i] != []
      && (forall j :: 0 <= j < |lines[i]| - 1 ==> lines[i][j] != '\n')
      && (i < |lines| - 1 ==> lines[i][|lines[i]| - 1] == '\n')
  }

  /** The in-order concatenation of `lines`, as repeated `push_str` builds it. */
  function Concat(lines: seq<string>): string
  {
    if lines == [] then "" else lines[0] + Concat(lines[1..])
  }

  /** Lines that each end in a newline concatenate to text that is empty or ends in one. */
  lemma {:induction false} ConcatOfWholeLines(lines: seq<string>)
    requires forall i :: 0 <= i < |lines| ==> lines[i] != [] && lines[i][|lines[i]| - 1] == '\n'
    ensures var t := Concat(lines); t == [] || t[|t| - 1] == '\n'
  {
    if lines != [] {
      ConcatOfWholeLines(lines[1..]);
    }
  }

  lemma {:induction false} ConcatAppend(lines: seq<string>, line: string)
    ensures Concat(lines + [line]) == Concat(lines) + line
  {
    if lines == [] {
      assert [] + [line] == [line];
    } else {
      assert (lines + [line])[1..] == lines[1..] + [line];
      ConcatAppend(lines[1..], line);
    }
  }

  lemma {:induction false} TrimStartPastWhitespace(a: string, x: string)
    requires AllWhitespace(a)
    requires x == [] || !IsWhitespace(x[0])
    ensures TrimStart(a + x) == x
  {
    if a != [] {
      assert (a + x)[1..] == a[1..] + x;
      TrimStartPastWhitespace(a[1..], x);
    } else {
      assert a + x == x;
    }
  }

  lemma {:induction false} TrimEndPastWhitespace(x: string, b: string)
    requires AllWhitespace(b)
    requires x == [] || !IsWhitespace(x[|x| - 1])
    ensures TrimEnd(x + b) == x
  {
    if b != [] {
      assert (x + b)[..|x + b| - 1] == x + b[..|b| - 1];
      TrimEndPastWhitespace(x, b[..|b| - 1]);
    } else {
      assert x + b == x;
    }
  }

  /**
   * Trimming is on both sides: any whitespace before and after `[END]`
   * still makes a terminator line (for instance "  [END]  \n").
   */
  lemma PaddedTerminator(a: string, b: string)
    requires AllWhitespace(a) && AllWhitespace(b)
    ensures IsTerminator(a + Terminator + b)
  {
    TrimStartPastWhitespace(a, Terminator + b);
    assert a + Terminator + b == a + (Terminator + b);
    TrimEndPastWhitespace(Terminator, b);
  }

  /**
   * Conversely, a terminator line is `[END]` with nothing but whitespace
   * around it: the line splits into whitespace, `[END]` and whitespace.
   */
  lemma TerminatorShape(line: string)
    requires IsTerminator(line)
    ensures exists i ::
              && 0 <= i <= |line| - |Terminator|
              && AllWhitespace(line[..i])
              && line[i..i + |Terminator|] == Terminator
              && AllWhitespace(line[i + |Terminator|..])
  {
    var s := TrimStart(line);
    TrimStartSpec(line);
    TrimEndSpec(s);
    var i := |line| - |s|;
    var e := |TrimEnd(s)|;
    assert line[i..i + |Terminator|] == s[..e];
    assert line[i + |Terminator|..] == s[e..];
  }

  /**
   * Text after `[END]` that is not all whitespace makes the line content,
   * not a terminator (for instance "[END]x", "[END]x\n" or "[END] [END]").
   */
  lemma TerminatorWithSuffixIsContent(x: string)
    requires !AllWhitespace(x)
    ensures !IsTerminator(Terminator + x)
  {
    var s := Terminator + x;
    assert s[0] == '[';
    TrimEndSpec(s);
    var r := TrimEnd(s);
    var i :| 0 <= i < |x| && !IsWhitespace(x[i]);
    var j := |Terminator| + i;
    assert s[j] == x[i];
    assert j < |r|;
  }

  /** A line that neither starts nor ends with whitespace trims to itself. */
  lemma TrimKeepsUnpadded(s: string)
    requires s != [] && !IsWhitespace(s[0]) && !IsWhitespace(s[|s| - 1])
    ensures Trim(s) == s
  {
  }

  /** Past the end of input `read_line` yields "", which is never a terminator. */
  lemma EofNeverTerminates(lines: seq<string>, i: nat)
    requires |lines| <= i
    ensures ReadLineAt(lines, i) == "" && !IsTerminator(ReadLineAt(lines, i))
  {
  }
}
