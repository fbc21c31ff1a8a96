/**
 * The text the harness produces itself: the `format!` splice of PART 1,
 * PART 2 and the flag into the fixed program skeleton, the file written from
 * it, and what the participant is shown before submitting anything.
 */
module Assembly {
  import opened Wrappers
  import opened Format

  // The fixed text of the skeleton around the three insertion points
  // (src/main.rs:135-152), with `{{`/`}}` already unescaped to braces.
  const Prefix: string :=
    "\n#![no_std]\n#![feature(alloc)]\n#![forbid(unsafe_code)]\n\n" +
    "extern crate my_alloc;\nextern crate alloc;\nuse alloc::string::String;\n\n"
  const AfterPart1: string := "\n\nfn main() {\n    let x = {\n        "
  const AfterPart2: string := "\n    };\n    let y = " + LiteralOpen
  const Suffix: string := LiteralClose + ";\n    my_alloc::print(&x);\n}"

  /** The opening and the closing of the string literal the flag is put in. */
  const LiteralOpen: string := "String::from(\""
  const LiteralClose: string := "\")"

  /** The `format!` result: the three inserts are spliced in verbatim, unescaped. */
  function Assemble(part1: string, part2: string, flag: string): string
  {
    Prefix + part1 + AfterPart1 + part2 + AfterPart2 + flag + Suffix
  }

  /** The content of `main.rs`: `writeln!` adds one newline. */
  function SourceFile(part1: string, part2: string, flag: string): string
  {
    Assemble(part1, part2, flag) + "\n"
  }

  /**
   * Reads the three inserts back out of an assembled source, given the
   * lengths of the two parts: `None` unless the fixed text is all in place.
   */
  function Disassemble(src: string, len1: nat, len2: nat): Option<(string, string, string)>
  {
    var a := |Prefix| + len1;
    var b := a + |AfterPart1| + len2;
    var c := b + |AfterPart2|;
    if |src| < c + |Suffix| then None
    else if src[..|Prefix|] != Prefix || src[a..a + |AfterPart1|] != AfterPart1 then None
    else if src[b..c] != AfterPart2 || src[|src| - |Suffix|..] != Suffix then None
    else Some((src[|Prefix|..a], src[a + |AfterPart1|..b], src[c..|src| - |Suffix|]))
  }

  /**
   * Nothing is escaped: every insert appears verbatim at its place, so the
   * parts and the flag are recovered exactly from the assembled source, and
   * the flag is the whole content between `String::from("` and `")`.
   */
  lemma AssembleRoundTrip(part1: string, part2: string, flag: string)
    ensures Disassemble(Assemble(part1, part2, flag), |part1|, |part2|) == Some((part1, part2, flag))
    ensures var src := Assemble(part1, part2, flag);
      var c := |Prefix| + |part1| + |AfterPart1| + |part2| + |AfterPart2|;
      && src[c - |LiteralOpen|..c] == LiteralOpen
      && src[c..c + |flag|] == flag
      && src[c + |flag|..c + |flag| + |LiteralClose|] == LiteralClose
  {
    var src := Assemble(part1, part2, flag);
    var c := |Prefix| + |part1| + |AfterPart1| + |part2| + |AfterPart2|;
    PiecesAt(Prefix, part1, AfterPart1, part2, AfterPart2, flag, Suffix);
    assert src[c - |LiteralOpen|..c] == AfterPart2[|AfterPart2| - |LiteralOpen|..];
    assert src[c + |flag|..c + |flag| + |LiteralClose|] == Suffix[..|LiteralClose|];
  }

  /** Where each of seven concatenated pieces sits in the whole. */
  lemma PiecesAt<T>(p0: seq<T>, p1: seq<T>, p2: seq<T>, p3: seq<T>, p4: seq<T>, p5: seq<T>, p6: seq<T>)
    ensures var s := p0 + p1 + p2 + p3 + p4 + p5 + p6;
      var a := |p0| + |p1|;
      var b := a + |p2| + |p3|;
      var c := b + |p4|;
      && |s| == c + |p5| + |p6|
      && s[..|p0|] == p0
      && s[|p0|..a] == p1
      && s[a..a + |p2|] == p2
      && s[a + |p2|..b] == p3
      && s[b..c] == p4
      && s[c..c + |p5|] == p5
      && s[c..|s| - |p6|] == p5
      && s[|s| - |p6|..] == p6
      && s[c + |p5|..] == p6
  {
  }

  /** What the banner shows in place of the real skeleton (src/main.rs:89-106). */
  const ShownTemplate: string :=
    Prefix + "[YOUR CODE PART 1]" + AfterPart1 + "[YOUR CODE PART 2]" +
    "\n    };\n    let _secret = String::from(\"" + "[???]" + Suffix

  const Welcome: string := "Welcome to this challenge!\n"
  const PromptPart1: string := "Now fill in PART 1, end with a single line containing \"[END]\".\n"
  const PromptPart2: string := "Now fill in PART 2, end with a single line containing \"[END]\".\n"

  /** The line that discloses the flag's length in bytes. */
  function LengthLine(flag: string): string
  {
    "where there are " + Decimal(Utf8Length(flag)) + " chars in [???].\n"
  }

  /** The greeting, the compiler version and the skeleton as shown. */
  function Greeting(version: string): string
  {
    Welcome + "rustc version: " + version + "\n" +
    "Fill in this code:\n\n=====BEGIN=====" + ShownTemplate + "\n=====END=====\n\n"
  }

  /**
   * Everything printed after the support library is built and before PART 1
   * is read: greeting, compiler version, the skeleton with `[???]` in place
   * of the flag, the length line and the PART 1 prompt.
   */
  function Banner(version: string, flag: string): string
  {
    Greeting(version) + LengthLine(flag) + PromptPart1
  }

  /**
   * The banner depends on the flag only through its byte length: two flags
   * give the same banner exactly when their UTF-8 lengths agree.
   */
  lemma BannerRevealsOnlyLength(version: string, flag1: string, flag2: string)
    ensures Banner(version, flag1) == Banner(version, flag2) <==> Utf8Length(flag1) == Utf8Length(flag2)
  {
    var n1, n2 := Utf8Length(flag1), Utf8Length(flag2);
    MiddleDetermined(Greeting(version), "where there are ", Decimal(n1), Decimal(n2),
                     " chars in [???].\n", PromptPart1);
    if Decimal(n1) == Decimal(n2) {
      DecimalRoundTrip(n1);
      DecimalRoundTrip(n2);
    }
  }

  /** Text that differs only in one middle piece is equal exactly when that piece is. */
  lemma MiddleDetermined<T>(a: seq<T>, b: seq<T>, d1: seq<T>, d2: seq<T>, c: seq<T>, e: seq<T>)
    ensures a + (b + d1 + c) + e == a + (b + d2 + c) + e <==> d1 == d2
  {
    var s1, s2 := a + (b + d1 + c) + e, a + (b + d2 + c) + e;
    if s1 == s2 {
      var k := |a| + |b|;
      assert s1[k..k + |d1|] == d1;
      assert s2[k..k + |d2|] == d2;
    }
  }
}
