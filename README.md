# cram_to_sam: the command-line driver

A Dafny model of `main` in `progs/cram_to_sam.c` from io_lib. The program
converts a CRAM file to SAM or BAM. The model covers what `main` itself
decides:

- the getopt loop over `bu0123456789mp:hr:` and the state it fills in place:
  `char mode[4]`, the name prefix, the MD/NM flag, the region's start and
  end, and `char ref_name[1024]`;
- the `-r ref[:start[-end]]` parser: `strchr` for the first colon, then
  `sscanf(cp+1, "%d-%d", &start, &end)` and a switch on its return value,
  then `strncpy(ref_name, optarg, 1023)`;
- the check for two or three positional arguments and the choice of output
  (`-` or the third argument);
- the order of the io_lib calls: `bam_open`, `cram_open`, `cram_index_load`
  (only for a region), `cram_set_option` for the prefix and for MD,
  `cram_load_reference`, the region lookup through `sam_header_name2ref`
  with its `'*'` exception, `CRAM_OPT_RANGE`, the header, and the record loop;
- the exit code.

io_lib is not part of this model. The calls `main` makes into it are
treated in three ways:

- recorded as an `Effect`, in order: `bam_open`, `cram_open`,
  `cram_index_load`, the three `cram_set_option` calls (prefix, MD/NM,
  `CRAM_OPT_RANGE`), `cram_load_reference` and each `bam_put_seq`;
  `sam_header_add_PG` followed by `bam_write_header` is the one effect
  `WriteHeader`;
- read only for their outcome, which is an input collected in an `Env`:
  `sam_header_name2ref` (the header's reference names and ids),
  `stringify_argv` (whether it returns a string), `cram_get_bam_seq` (the
  records it hands over before it stops) and `cram_eof`; the `Env` also says
  whether `bam_open` and `cram_open` return a handle;
- not modelled: `cram_close` and `bam_close` (progs/cram_to_sam.c:167-170).

Files:

- `wrappers.dfy`: `Option` and `Result`.
- `cstrings.dfy`: C strings in fixed buffers. `CStr` is the text up to the
  first NUL. `StrNCpy` specifies `strncpy`, and the `StrNCopy` method
  implements it cell by cell on an array.
- `scanf.dfy`: the `%d` conversion (white space, optional sign, digits) and
  the format `"%d-%d"`. The result carries the count `sscanf` returns: -1,
  0, 1 or 2.
- `regions.dfy`: `strchr` and `ParseRegion`, the `case 'r'` block.
- `options.dfy`: the options and the option state as a value (`Settings`);
  `Scan`, the getopt loop as a fold; and the class `Config`, whose `mode`
  and `refName` arrays the methods update in place as `main` does.
- `driver.dfy`: the functional specification `Run` of the whole of `main`,
  and the method `CramToSam`, which fills a `Config`, makes the calls and
  runs the record loop. The method is proved equal to `Run`.

The only description of `-r` that the program itself carries is its usage
text, which shows the form `ref:start-end` (progs/cram_to_sam.c:26). The
code accepts more than that form, in ways a user might not expect:

- Text after the second number of a range is ignored, because `sscanf` stops
  there. `chr1:1-2-3` and `chr1:1-2abc` are accepted as 1..2, so a third
  numeric field is not an error (`Regions.TwoFieldRange`).
- `chr1:5-`, `chr1:5-abc` and `chr1:5 -6` give the range 5..5, because
  `sscanf` returns 1: the literal `-` of the format must follow the first
  number at once (`Regions.OneFieldRange`).
- `chr1:1--2` gives the range 1..-2: the second `%d` reads `-2`
  (`Regions.TwoFieldRange`).
- Any reference name that starts with `*` and is missing from the header is
  accepted with refid -1, not only the wildcard `*` itself
  (`Driver.RegionAdmission`).
- `start <= end` is never checked, so `chr1:2000-1000` is accepted.
- The output is opened before the reference name is looked up, so an
  unknown reference ends the run after `bam_open` has already been called,
  which may already have created the output file (`Driver.RegionAdmission`).

## Model

| member | source | states |
|---|---|---|
| CStrings.StrNCpyHolds | progs/cram_to_sam.c:86 | `strncpy(ref_name, src, 1023)` into a buffer whose cell 1023 is NUL leaves the buffer holding `src` cut to 1023 characters, and leaves cell 1023 on untouched |
| CStrings.StrNCpy | progs/cram_to_sam.c:86 | the definition of `strncpy(dst, src, n)` on a buffer: same length, and the cells from `n` on untouched; `StrNCpyHolds` proves what C then reads from the buffer |
| CStrings.StrNCopy | progs/cram_to_sam.c:86 | writing cell by cell into the array gives exactly the buffer `StrNCpy` specifies: `src` padded with NUL in the first `n` cells, the rest unchanged |
| CStrings.CStrOfTerminated | progs/cram_to_sam.c:33 | a buffer holding a NUL-free text followed by a NUL is read by C as exactly that text; this is how `mode` is read as a string by `bam_open` |
| Scanf.ScanInt | progs/cram_to_sam.c:72 | the definition of one `%d` conversion from position `i`: a success needs a non-space character after `i` and ends just after a digit that no further digit follows; `ScanIntReads` and `ScanIntSucceedsIff` prove what it reads and when it succeeds |
| Scanf.ScanIntReads | progs/cram_to_sam.c:72 | `%d` applied to white space, then the decimal text of `n`, then a non-digit reads exactly `n` and stops just after its last digit |
| Scanf.ScanIntSucceedsIff | progs/cram_to_sam.c:72 | `%d` succeeds if and only if the text begins, after white space, with a digit or with a sign followed by a digit |
| Scanf.ScanRange | progs/cram_to_sam.c:72 | the definition of `sscanf(text, "%d-%d", ..)`: it reports an input failure (-1) exactly when the text is all white space; `ScanRangeTwo` and `ScanRangeOne` prove the two- and one-field results |
| Scanf.ScanRangeTwo | progs/cram_to_sam.c:72-77 | `"%d-%d"` on `S-E`, with white space allowed before each number and any non-digit text after E, assigns both fields and returns 2 |
| Scanf.ScanRangeOne | progs/cram_to_sam.c:72-75 | `"%d-%d"` on `S` followed by anything other than `-` and an integer assigns only `start` and returns 1 |
| Regions.ParseRegion | progs/cram_to_sam.c:68-88 | the definition of the `case 'r'` block: an error only for an argument holding `:`; a success names a prefix of the argument without `:`, followed by the first `:` when there is one; `NameAndMalformed`, `TwoFieldRange`, `OneFieldRange` and `WholeReference` prove each case |
| Regions.FindChar | progs/cram_to_sam.c:69 | `strchr`: the index of the first occurrence, whose character is the one sought and which no earlier character equals; -1 exactly when the character does not occur |
| Regions.WholeReference | progs/cram_to_sam.c:82-85 | an argument without `:` is the whole reference name, with the range INT_MIN..INT_MAX |
| Regions.NameAndMalformed | progs/cram_to_sam.c:69-80 | with a colon, the name is the text before the first colon; the range is malformed (`sscanf` returns 0 or -1) exactly when the text after the colon does not begin with an integer |
| Regions.TwoFieldRange | progs/cram_to_sam.c:68-77 | `name:S-E` gives the name, start S and end E, whatever the white space before either number and whatever non-digit text follows E |
| Regions.OneFieldRange | progs/cram_to_sam.c:68-75 | `name:S`, `name:S-` and `name:S-abc` give `end == start == S` |
| Regions.NameFromArg | progs/cram_to_sam.c:71 | the reference name is a prefix of the argument, so it contains no NUL when the argument contains none |
| Regions.ExampleTwoFields | progs/cram_to_sam.c:26 | the usage example `chr1:1000-2000` selects chr1 from 1000 to 2000 |
| Regions.ExampleOneField | progs/cram_to_sam.c:73-75 | `chr1:1000` selects chr1 from 1000 to 1000 |
| Regions.ExampleMalformed | progs/cram_to_sam.c:78-80 | `chr1:abc` is a malformed range |
| Options.ApplyOpt | progs/cram_to_sam.c:42-94 | one pass of the switch keeps the state invariant (mode `w`, then `b` or NUL, then a digit or NUL, then NUL; cell 1023 of `ref_name` NUL); it ends `main` exactly for `-h`, an unknown option or a malformed range, returning 0 for `-h` and 1 for the others |
| Options.Scan | progs/cram_to_sam.c:41-95 | the definition of the getopt loop as a fold: a scan that goes on keeps the settings well formed, and one that stops does so with 0 or 1; `ScanExit`, `ScanSettings` and `ScanFromStart` prove where it stops and what it leaves |
| Options.ExitPersists | progs/cram_to_sam.c:41-95 | once an option has returned from `main`, the options after it change nothing |
| Options.ScanExit | progs/cram_to_sam.c:41-95 | the scan returns from `main` exactly when some option stops it, and the exit code is that of the first such option |
| Options.ScanMode | progs/cram_to_sam.c:43-54 | after a full scan, `mode[1]` is `b` exactly when some `-b` was given, and `mode[2]` holds the digit of the last `-u` or `-0`..`-9` (`-u` counts as `0`) |
| Options.ScanFlags | progs/cram_to_sam.c:56-62 | after a full scan, the prefix is that of the last `-p`, and the MD flag is set exactly when some `-m` was given |
| Options.ScanRegion | progs/cram_to_sam.c:68-88 | after a full scan without `-r`, start, end and `ref_name` are unchanged; with one, the last `-r` parsed, start and end are its range, and `ref_name` holds its name cut to 1023 characters |
| Options.ScanSettings | progs/cram_to_sam.c:41-95 | ScanMode, ScanFlags and ScanRegion together |
| Options.ScanFromStart | progs/cram_to_sam.c:33-95 | from the initial state, `bam_open` receives `w`, then `b` with `-b`, then the level digit only with `-b`; the mode is at most three characters; `ref_name` holds the last region's name cut to 1023 characters, or is empty |
| Options.Config.constructor | progs/cram_to_sam.c:33-39 | the locals as `main` declares them: `mode = {'w',0,0,0}`, `ref_name` all NUL, no prefix, MD off |
| Options.Config.SetRegion | progs/cram_to_sam.c:68-88 | `case 'r'` on the arrays in place: it returns false exactly when `ApplyOpt` exits with 1, and otherwise leaves the state `ApplyOpt` gives |
| Options.Config.Apply | progs/cram_to_sam.c:42-94 | one pass of the switch on the arrays in place: the new state, or the exit code, is the one `ApplyOpt` gives |
| Options.Config.ScanAll | progs/cram_to_sam.c:41-95 | the getopt loop on the arrays in place: the final state, or the first exit code, is the one `Scan` gives |
| Driver.Admit | progs/cram_to_sam.c:133-146 | the definition of the region lookup: no range exactly for an empty name, and an admitted range carries the parsed start and end; `AdmitCases` proves the three cases |
| Driver.AdmitCases | progs/cram_to_sam.c:133-146 | no range for an empty name; an unknown-reference error exactly for a non-empty name missing from the header that does not start with `*`; otherwise the header's id, or -1 for a missing `*` name |
| Driver.Puts | progs/cram_to_sam.c:158-160 | one `bam_put_seq` per record, in order |
| Driver.Setup | progs/cram_to_sam.c:115-129 | the calls up to `cram_load_reference` write neither the header nor a record |
| Driver.RecordLoop | progs/cram_to_sam.c:158-160 | the loop appends one `bam_put_seq` per record, in order, to the calls made so far |
| Driver.SetupCalls | progs/cram_to_sam.c:115-129 | the calls made from the state in the `Config` are the ones `Setup` specifies |
| Driver.RunSession | progs/cram_to_sam.c:102-175 | `main` after the scan and the argument check returns the exit code and makes the calls `Session` specifies |
| Driver.CramToSam | progs/cram_to_sam.c:29-175 | `main` as a whole returns the exit code and makes the calls `Run` specifies |
| Driver.RecordsAppend | progs/cram_to_sam.c:158-160 | the records written by two call sequences in a row are those of the first, then those of the second |
| Driver.RecordsOfPuts | progs/cram_to_sam.c:158-160 | the record loop writes exactly the records it is handed, in order |
| Driver.RecordsNone | progs/cram_to_sam.c:97-146 | calls that include no `bam_put_seq` write no records |
| Driver.HelpExitsZero | progs/cram_to_sam.c:64-66 | `-h`, when no option before it ends the scan, returns 0 before any io_lib call |
| Driver.BadOptionExitsOne | progs/cram_to_sam.c:78-80 | an unknown option or a malformed range, when no option before it ends the scan, returns 1 before any io_lib call |
| Driver.OutputTarget | progs/cram_to_sam.c:97-113 | after a full scan, a positional count other than 2 or 3 returns 1 with no call; otherwise the first call is `bam_open` on `-` (two arguments) or on the third argument (three), with the mode the options ask for |
| Driver.SetupIndex | progs/cram_to_sam.c:120-121 | the setup never sets a range, loads the index only for a non-empty `ref_name`, and for one loads it right after `cram_open` |
| Driver.PutsOnlyRecords | progs/cram_to_sam.c:158-160 | the record loop makes no call other than `bam_put_seq` |
| Driver.SessionIndex | progs/cram_to_sam.c:120-146 | in a session, the index is loaded and a range set only for a non-empty `ref_name`; with one, and both files open, the index is loaded |
| Driver.IndexOnlyForRegion | progs/cram_to_sam.c:120-146 | the index is loaded and a range set only when the last `-r` left a non-empty name; with one, two or three positional arguments and both files open, the index is loaded |
| Driver.SessionAdmission | progs/cram_to_sam.c:133-146 | in a session with a non-empty `ref_name`, an unknown name not starting with `*` returns 1 before the header; any other name gets the range (header id, start, end) |
| Driver.RegionAdmission | progs/cram_to_sam.c:133-146 | after a `-r` that left a non-empty name, an unknown name not starting with `*` returns 1 with no header and no records; any other name gets `CRAM_OPT_RANGE` with its header id (-1 for a missing `*` name) and the parsed start and end |
| Driver.Transcode | progs/cram_to_sam.c:148-175 | the definition of `main` from `stringify_argv` on: exit 0 or 1, 0 only after a clean end with the header written, and the calls made before it are kept as the prefix of the trace; `TranscodeOrderly` proves the record order |
| Driver.Session | progs/cram_to_sam.c:102-175 | the definition of `main` after the option scan: exit 0 or 1, the first call is always `bam_open` on `-` or the third argument with `mode`, and an output that does not open ends the run at once with 1; `SessionOrderly`, `SessionIndex` and `SessionAdmission` prove the rest |
| Driver.QuietOrderly | progs/cram_to_sam.c:97-146 | an early return before the header exits with 1 and writes no records |
| Driver.TranscodeOrderly | progs/cram_to_sam.c:148-175 | from the header on: the exit code is 0 exactly when the header was written and the input ended cleanly; the records written are the input's, in order, all after the header |
| Driver.SessionOrderly | progs/cram_to_sam.c:102-175 | every path through a session meets the same exit-code and record-order facts |
| Driver.Run | progs/cram_to_sam.c:29-175 | the definition of `main` as a whole: exit 0 or 1, and no io_lib call at all exactly when the scan stops or the positional count is not 2 or 3; `ExitAndRecords`, `OutputTarget` and `RegionAdmission` prove its behaviour |
| Driver.ExitAndRecords | progs/cram_to_sam.c:29-175 | `main` returns 0 or 1, and 0 exactly after `-h` or when the header was written and the input ended cleanly, so a truncated input fails although its records were written; the records written are exactly the input's, in order, each after the header, or none when no header was written |

## Left out

- getopt itself: options arrive already tokenised as `Opt` values. A `?`
  from getopt (an unknown option, or `-p`/`-r` without an argument) is one
  `Unknown`. How getopt permutes argv and sets `optind` is not modelled.
- io_lib: its functions are foreign calls. Those listed above as effects are
  recorded as `Effect`s; `sam_header_name2ref`, `stringify_argv`,
  `cram_get_bam_seq` and `cram_eof` appear only through their outcomes in
  `Env`; `sam_header_add_PG` and `bam_write_header` share the single effect
  `WriteHeader`.
- `cram_close` and `bam_close` (progs/cram_to_sam.c:167-170) are not
  modelled, and no effect records a close. So the model does not show that
  every `return 1` after `bam_open` (an input that does not open at lines
  115-118, an unknown reference at 137-140, `stringify_argv` failing at
  149-150, an input that does not end cleanly at 162-165) leaves the output
  and, where it was opened, the input unclosed, while the path that returns
  0 closes both.
- The return values of `cram_index_load`, `cram_set_option`,
  `cram_load_reference`, `bam_write_header` and `bam_put_seq` are ignored
  by `main`, so they are not inputs either.
- `cram_get_bam_seq` failing and reaching the end both end the loop. The
  model keeps only the records before the loop stopped and whether
  `cram_eof` holds afterwards.
- `*cp = 0` writes into argv. The model splits the argument into its two
  parts instead, so the model does not capture how this changes the command
  line that `stringify_argv` later records in the @PG header line.
- The contents of the @PG line (`VN`, `CL`) and the sharing of
  `fd->SAM_hdr` through `bfd->header` are inside io_lib.
- The usage text, the messages on stderr, `perror`, and the `free` calls
  produce no state the model tracks.
- Options.WfOpt: a `%d` whose value does not fit a C `int` is undefined
  behaviour in C, so the model requires the numbers of a region to be
  32-bit. It does not say what happens otherwise.
- Options.Initial: C leaves `start` and `end` uninitialised. The model
  starts them at 0. They are only read once `ref_name` is non-empty, and
  only a `-r` that also sets them makes it non-empty.
- Options.Config.SetRegion: stores `start` and `end` after the copy into
  `ref_name`, not before. On a malformed range it promises nothing about
  the state, because `main` returns at once.
- `%d` follows the "C" locale: `isspace` is space and the characters 9 to
  13, and the digits are `0`..`9`.
