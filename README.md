# a_happy_life challenge harness — a Dafny model

The harness asks a remote participant for two fragments of Rust code,
PART 1 (items) and PART 2 (an expression). Each fragment is read line by line
up to a line that trims to `[END]`. The harness splices both fragments and the
secret flag into a fixed `#![no_std]` program skeleton and compiles it against
a small support library it built first. It then runs the result and relays the
program's output, or stops with a fixed short message. A separate module
defines a two-tier error type (internal vs. user errors).

This project models that core:

- `lines.dfy` (module `Lines`): Rust's `trim` with the `char::is_whitespace`
  set, the `[END]` terminator test, `read_line` past the end of input, and
  line concatenation.
- `collector.dfy` (module `Collector`): the two read loops. `Collect` is the
  function that specifies them. `ReadPart` and `ReadBoth` are the loops
  themselves, proved against it.
- `format.dfy` (module `Format`): `String::len` as a UTF-8 byte count, and its
  decimal rendering.
- `assembly.dfy` (module `Assembly`): the `format!` splice, the `main.rs`
  file content, and the banner shown before input is read.
- `session.dfy` (modules `Session`, `Outcomes`): the stage sequence as a state
  machine, and the outcome of each way a session can end.
- `errors.dfy` (module `Errors`): `ErrType`, `Err`, its three constructors,
  `Display` and `source`. `src/main.rs` does not declare this module, so it is
  modelled on its own.
- `wrappers.dfy` (module `Wrappers`): `Option`.

Participant input is a sequence of raw lines, each with its own newline.
Each external process (the `rustc -V` probe, the two builds, the executable)
is an opaque result supplied by a `World` value: it either failed to spawn,
or it exited with a success flag and captured stdout. The `FLAG` environment
variable is an `Option<string>` in the same value. The compile result and the
run result are functions of the `main.rs` text.

The model follows the code as written. Points worth knowing:

- There is no line-count or line-length cap. A fragment ends only at a
  terminator line.
- The terminator test trims whitespace on both sides, not only on the right.
- Without a terminator the read loop never returns. At end of input
  `read_line` keeps yielding `""`, which never trims to `[END]`. The model
  calls this phase `Failed(Hang)`.
- The fragments are spliced into the source as text. They are not included
  as separate files, and nothing is escaped.
- A `rustc` that cannot be spawned makes the probe panic with "failed to
  check rustc version". "no rustc found" is printed, to standard error, only
  when `rustc -V` runs and exits unsuccessfully.
- The two `rustc` builds inherit the process environment, `FLAG` included.
  Only the probe and the executable run with a cleared environment.

## Model

| member | source | states |
|---|---|---|
| `Lines.IsWhitespace` | src/main.rs:116 | definition: the `char::is_whitespace` set that `trim` strips, the Unicode White_Space property; used by `Lines.TrimStartSpec` and `Lines.TrimEndSpec` |
| `Lines.TrimStart` | src/main.rs:116 | definition: the leading half of `str::trim`; specified by `Lines.TrimStartSpec` |
| `Lines.TrimEnd` | src/main.rs:116 | definition: the trailing half of `str::trim`; specified by `Lines.TrimEndSpec` |
| `Lines.Trim` | src/main.rs:116 | definition: `str::trim`, whitespace removed on both sides; specified by `Lines.TrimStartSpec`, `Lines.TrimEndSpec` and `Lines.TrimKeepsUnpadded` |
| `Lines.IsTerminator` | src/main.rs:116 | definition: the test `this_line.trim() == "[END]"`; characterised by `Lines.PaddedTerminator`, `Lines.TerminatorShape` and `Lines.TerminatorWithSuffixIsContent` |
| `Lines.ReadLineAt` | src/main.rs:112-115 | definition: the text one `read_line` call appends, the next input line or `""` past the end; specified by `Lines.EofNeverTerminates` |
| `Lines.Concat` | src/main.rs:119 | definition: the fragment that repeated `push_str` builds; specified by `Lines.ConcatAppend` |
| `Lines.ReadLineShaped` | src/main.rs:112-115 | definition: the input shape one `read_line` call at a time delivers (non-empty elements, a newline only at the end, only the last element may lack it); used by `Collector.PartIsWholeLines` |
| `Lines.TrimStartSpec` | src/main.rs:116 | the start of `trim` keeps a suffix verbatim; it drops only whitespace and stops at the first non-whitespace character |
| `Lines.TrimEndSpec` | src/main.rs:128 | the end of `trim` keeps a prefix verbatim; it drops only whitespace and stops at the last non-whitespace character |
| `Lines.PaddedTerminator` | src/main.rs:116 | `[END]` with any whitespace on both sides (e.g. `"  [END]  \n"`) is a terminator line |
| `Lines.TerminatorShape` | src/main.rs:128 | a terminator line is exactly whitespace, then `[END]`, then whitespace |
| `Lines.TerminatorWithSuffixIsContent` | src/main.rs:116 | `[END]` followed by text that is not all whitespace (e.g. `"[END]x"`, `"[END]x\n"`, `"[END] [END]"`) is content, not a terminator |
| `Lines.TrimKeepsUnpadded` | src/main.rs:116 | a line that neither starts nor ends with whitespace trims to itself |
| `Lines.EofNeverTerminates` | src/main.rs:113-116 | past the end of input `read_line` yields `""`, which never ends a loop |
| `Lines.ConcatAppend` | src/main.rs:119 | appending one more line with `push_str` extends the concatenation by exactly that line |
| `Lines.ConcatOfWholeLines` | src/main.rs:119 | pushing lines that each end in a newline builds text that is empty or ends in a newline |
| `Collector.Collect` | src/main.rs:110-120 | definition: one read loop as a function of the input, `None` when it never exits; specified by `Collector.CollectSpec` |
| `Collector.CollectReturnsIff` | src/main.rs:110-120 | a read returns iff some line from its start on is a terminator |
| `Collector.CollectedPart` | src/main.rs:110-120 | a returning read ends at the first terminator, drops it, yields the verbatim concatenation of the lines before it, and resumes just past it |
| `Collector.CollectSpec` | src/main.rs:110-120 | a read returns iff a later line is a terminator; the fragment is then the in-order, verbatim concatenation of the lines before the first terminator, and reading resumes just past it |
| `Collector.NoTerminatorReadsForever` | src/main.rs:111-120 | when a read does not return, no line it would ever read, before or after end of input, is a terminator |
| `Collector.FirstTerminatorIsCollected` | src/main.rs:116-119 | the first terminator from the start line ends the read; the terminator is dropped and the text before it is kept |
| `Collector.EndsAtUnique` | src/main.rs:116-117 | at most one line ends a read: the first terminator after its start |
| `Collector.ReadPart` | src/main.rs:111-120 | the read loop, line by line with `push_str`, returns what `Collect` specifies: the first terminator and the concatenation before it |
| `Collector.ReadBoth` | src/main.rs:110-132 | the two loops run back to back, PART 2 starting after PART 1's terminator, and compute `CollectBoth` |
| `Collector.PartIsWholeLines` | src/main.rs:111-120 | on input shaped as `read_line` delivers it, a fragment is empty or ends in a newline: it holds whole lines only |
| `Collector.CollectBoth` | src/main.rs:110-132 | definition: the two read loops back to back; specified by `Collector.CollectBothSpec` and `Collector.CollectBothReturns` |
| `Collector.CollectBothSpec` | src/main.rs:121-132 | PART 1 is the lines before the first terminator; PART 2 is exactly the lines between it and the next terminator |
| `Collector.CollectBothReturns` | src/main.rs:110-132 | both reads return iff the input holds at least two terminator lines |
| `Format.Utf8Width` | src/main.rs:108 | a character takes one to four UTF-8 bytes: one exactly for ASCII (below 0x80), four exactly from 0x10000 up |
| `Format.Utf8Length` | src/main.rs:108 | `flag.len()` counts UTF-8 bytes: the total lies between the number of characters and four times it, and equals it for an all-ASCII string |
| `Format.Utf8LengthAppend` | src/main.rs:108 | the byte length of a concatenation is the sum of the byte lengths |
| `Format.Decimal` | src/main.rs:108 | definition: the `{}` rendering of `flag.len()`; specified by `Format.DecimalRoundTrip` |
| `Format.DecimalRoundTrip` | src/main.rs:108 | the `{}` rendering of the length is non-empty digits with no leading zero and reads back as the number |
| `Assembly.Assemble` | src/main.rs:134-154 | definition: the `format!` splice of PART 1, PART 2 and the flag into the skeleton; specified by `Assembly.AssembleRoundTrip` |
| `Assembly.SourceFile` | src/main.rs:134-156 | definition: the `main.rs` content, the splice plus the newline of `writeln!`; used by `Outcomes.ReachesCompile` |
| `Assembly.AssembleRoundTrip` | src/main.rs:134-154 | PART 1, PART 2 and the flag appear verbatim, unescaped, at fixed offsets and are recovered exactly; the flag sits between `String::from("` and `")` |
| `Assembly.LengthLine` | src/main.rs:108 | definition: the line that discloses `flag.len()`; specified by `Assembly.BannerRevealsOnlyLength` |
| `Assembly.Greeting` | src/main.rs:85-107 | definition: the greeting, the compiler version and the skeleton as shown (the constant `ShownTemplate`, with `[???]` for the flag); part of `Assembly.Banner` |
| `Assembly.Banner` | src/main.rs:85-109 | definition: the greeting, the length line and the PART 1 prompt; specified by `Assembly.BannerRevealsOnlyLength` |
| `Assembly.BannerRevealsOnlyLength` | src/main.rs:85-109 | the banner (with `[???]` in place of the flag) is the same for two flags iff their byte lengths are equal |
| `Session.Step` | src/main.rs:46-191 | definition: one stage of `main` as a state transition; specified by `Session.StepSpec` and `Session.StepKeepsOrder` |
| `Session.Run` | src/main.rs:46-191 | definition: a bounded number of stages; used by `Session.TerminalIsAbsorbing` and `Session.RunFinishes` |
| `Session.RunSession` | src/main.rs:46-191 | definition: a whole session, five stages from the initial state; specified by `Session.SessionStageOrder` and the `Outcomes` lemmas |
| `Session.StepSpec` | src/main.rs:46-191 | a stage only appends output, attempts one more stage, and leaves a finished session unchanged |
| `Session.TerminalIsAbsorbing` | src/main.rs:46-191 | after success or any failure no later stage runs |
| `Session.StepKeepsOrder` | src/main.rs:46-191 | each stage keeps the attempted stages a prefix of probe, library build, collection, compile, run, and moves one stage on unless it fails |
| `Session.RunFinishes` | src/main.rs:46-191 | from any in-order state, enough steps reach success or the failure phase |
| `Session.SessionStageOrder` | src/main.rs:46-191 | within five steps a session reaches a terminal phase: success, exit after a fixed message, panic, or `Hang`, which stands for a read loop waiting forever; the stages it attempted are a non-empty prefix of the fixed order, all five on success |
| `Outcomes.ReachesCompile` | src/main.rs:46-156 | with a working probe, library build and complete input, the compile stage gets the `main.rs` built from the two fragments and the flag, after the banner and the PART 2 prompt |
| `Outcomes.ProbeFailureShowsNothing` | src/main.rs:46-54 | an unsuccessful `rustc -V` prints "no rustc found" to standard error and shows the participant nothing |
| `Outcomes.LibFailureShowsNoBanner` | src/main.rs:63-80 | a failed library build prints only "Oops...": no banner, no flag length, no prompt |
| `Outcomes.MissingTerminatorHangs` | src/main.rs:110-132 | input without two terminators leaves the session waiting forever (`Failed(Hang)`); it has shown the banner, followed by the PART 2 prompt exactly when PART 1 was complete |
| `Outcomes.EarlyFailure` | src/main.rs:46-132 | if the probe, the `FLAG` lookup or the library build does not succeed, the session fails with an exit or a panic, never `Hang`; if the collection does not complete, it hangs (`Failed(Hang)`) |
| `Outcomes.CompileRejectionSaysOops` | src/main.rs:158-176 | a rejected submission ends with "Oops..." and is never run |
| `Outcomes.RunFailureSaysTryAgain` | src/main.rs:178-187 | an unsuccessful run ends with "Oh no, please try again..." |
| `Outcomes.AllStagesSucceed` | src/main.rs:158-191 | when every stage succeeds the session ends in success with exactly the banner, the PART 2 prompt and the executable's stdout shown, and nothing on standard error |
| `Outcomes.SuccessIffAllStagesSucceed` | src/main.rs:46-191 | a session succeeds iff every stage does; the participant then sees the banner, the PART 2 prompt and the executable's stdout verbatim |
| `Errors.FromError` | src/err.rs:33-39 | definition: `Err::from_error`; specified by `Errors.FromErrorSpec` |
| `Errors.FromMsgInternal` | src/err.rs:41-47 | definition: `Err::from_msg_internal`; specified by `Errors.FromMsgInternalSpec` |
| `Errors.FromUser` | src/err.rs:49-55 | definition: `Err::from_user`; specified by `Errors.FromUserSpec` |
| `Errors.DebugInner` | src/err.rs:26 | definition: the `{:?}` rendering of the cause, `Some(<debug>)` or `None`; used by `Errors.FromErrorSpec` and `Errors.FromMsgInternalSpec` |
| `Errors.Display` | src/err.rs:23-30 | definition: `Display::fmt` of the two tiers; specified by `Errors.DisplayRevealsTier` and `Errors.UserDisplayHidesCause` |
| `Errors.Source` | src/err.rs:18-20 | `source()` is the wrapped cause when there is one and `None` otherwise |
| `Errors.FromErrorSpec` | src/err.rs:33-39 | `from_error` is internal, keeps the message, its source is the wrapped error, and the display shows `Some(<debug>)` as the cause |
| `Errors.FromMsgInternalSpec` | src/err.rs:41-47 | `from_msg_internal` is internal, keeps the message, has no source, and displays the cause as `None` |
| `Errors.FromUserSpec` | src/err.rs:49-55 | `from_user` is a user error, keeps the message, has no source, and displays as `User error: <msg>` |
| `Errors.OnlyFromErrorHasSource` | src/err.rs:33-55 | a constructed error has a source iff it came from `from_error`, so a user error never has one |
| `Errors.UserDisplayHidesCause` | src/err.rs:27 | a user error displays as `User error: <msg>` whatever it wraps |
| `Errors.DisplayRevealsTier` | src/err.rs:24-29 | the display starts with `User error: ` iff the error is a user error, and the message follows it |

## Left out

- Spawning processes and running `rustc`: each invocation is an opaque spawn-failed / exited(success, stdout) result. Argument lists, working directories and process environments are not modelled.
- `tempdir()`, `File::create` and `writeln!`: the filesystem is not modelled, nor are the panics these calls raise when they fail. The workspace is removed when `tmp_dir` drops, which is not modelled either. The `process::exit(1)` calls at src/main.rs:79, 175 and 186 run no destructors, so on those paths the temporary directory is left behind, and after a rejected compile or a failed run its `main.rs` still holds the flag; the model does not represent the directory at all.
- `str::from_utf8` of the probe output and of the executable's output: the model treats captured stdout as text already. The decode panics are not modelled.
- The raw input is given as the sequence of what successive `read_line` calls return (`Lines.ReadLineShaped`), not as a byte stream. The model does not split bytes into lines, and it gives no meaning to a sequence outside that shape, such as one element `"a\n[END]\n"` holding two lines.
- `read_line` I/O errors (the "failed to read line" panic): input is always a readable sequence of lines.
- Panic messages are kept as the `expect` message only. The runtime's panic text on standard error is not modelled.
- The support library's source text (`ALLOC_FILE_CONTENT`) and the commented-out exploit constants: these concern what the Rust compiler accepts, not the harness's logic.
- script/sol.py is not part of this model. It is a network client for the challenge, and it mentions line caps that the harness does not have.
- The exit status of the process. The model records how the session ends (success, exit after a fixed message, panic, or waiting forever), not the numeric code.
