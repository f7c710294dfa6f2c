/**
  The rest of cram_to_sam's main (progs/cram_to_sam.c:97-175): the
  positional-argument check, the calls into io_lib in the order main makes
  them, the reference-name lookup that admits or rejects the region, the
  record loop and the final exit code. io_lib is not modelled: the outcomes
  main reads from it are inputs (`Env`), the calls that act on the files are
  recorded as effects, and the two close calls are left out.
 */
module Driver {
  import opened Wrappers
  import opened CStrings
  import opened Regions
  import opened Options

  /** The outcomes of the io_lib calls main depends on, given rather than performed. */
  datatype Env<R> = Env(
    outputOpens: bool,          // bam_open returns a handle
    inputOpens: bool,           // cram_open returns a handle
    header: map<string, nat>,   // the reference names of the CRAM header and their ids
    argvStringifies: bool,      // stringify_argv returns a string
    records: seq<R>,            // the records cram_get_bam_seq hands over before it stops
    cleanEof: bool)             // cram_eof once cram_get_bam_seq has stopped

  /** The `cram_range` main passes with CRAM_OPT_RANGE. */
  datatype CramRange = CramRange(refid: int, start: int, end: int)

  /** The calls main makes into io_lib, in the order it makes them. */
  datatype Effect<R> =
    | OpenOutput(path: string, mode: string)  // bam_open
    | OpenInput(path: string)                 // cram_open(path, "rb")
    | LoadIndex(path: string)                 // cram_index_load
    | SetPrefix(prefix: string)               // cram_set_option(.., CRAM_OPT_PREFIX, ..)
    | SetDecodeMd                             // cram_set_option(.., CRAM_OPT_DECODE_MD, ..)
    | LoadReference(path: string)             // cram_load_reference
    | SetRange(range: CramRange)              // cram_set_option(.., CRAM_OPT_RANGE, ..)
    | WriteHeader                             // sam_header_add_PG then bam_write_header
    | PutRecord(record: R)                    // bam_put_seq

  /** main's return value and the io_lib calls it made. */
  datatype Outcome<R> = Outcome(exit: int, effects: seq<Effect<R>>)

  /** sam_header_name2ref: the id of the reference called `name`, or -1. */
  function Name2Ref(header: map<string, nat>, name: string): int
  {
    if name in header then header[name] else -1
  }

  /** What main does with `ref_name` once the header is known. */
  datatype Admission = NoRange | Admitted(range: CramRange) | UnknownReference

  /**
    progs/cram_to_sam.c:133-146: no range for an empty name; for any other
    name, the header's id, where -1 is an error unless the name starts
    with '*'.
   */
  function Admit(name: string, start: int, end: int, header: map<string, nat>): (a: Admission)
    ensures a.NoRange? <==> name == []
    ensures a.Admitted? ==> a.range.start == start && a.range.end == end && a.range.refid >= -1
  {
    if name == [] then NoRange
    else
      var refid := Name2Ref(header, name);
      if refid == -1 && name[0] != '*' then UnknownReference
      else Admitted(CramRange(refid, start, end))
  }

  /** The region admission rule, case by case. */
  lemma {:induction false} AdmitCases(name: string, start: int, end: int, header: map<string, nat>)
    ensures Admit(name, start, end, header).NoRange? <==> name == []
    ensures Admit(name, start, end, header).UnknownReference? <==> name != [] && name !in header && name[0] != '*'
    ensures name != [] && name in header ==> Admit(name, start, end, header) == Admitted(CramRange(header[name], start, end))
    ensures name != [] && name !in header && name[0] == '*' ==> Admit(name, start, end, header) == Admitted(CramRange(-1, start, end))
  {
  }

  /** One bam_put_seq per record, in order. */
  function Puts<R>(rs: seq<R>): (e: seq<Effect<R>>)
    ensures |e| == |rs| && forall i :: 0 <= i < |rs| ==> e[i] == PutRecord(rs[i])
  {
    if rs == [] then [] else Puts(rs[..|rs| - 1]) + [PutRecord(rs[|rs| - 1])]
  }

  /** The records written, in the order they were written. */
  function Records<R>(effects: seq<Effect<R>>): seq<R>
  {
    if effects == [] then []
    else
      var last := effects[|effects| - 1];
      Records(effects[..|effects| - 1]) + (if last.PutRecord? then [last.record] else [])
  }

  /** From the header on: the @PG line and header, the record loop, the clean-EOF check. */
  function Transcode<R>(effects: seq<Effect<R>>, env: Env<R>): (o: Outcome<R>)
    ensures o.exit == 0 || o.exit == 1
    ensures o.exit == 0 ==> env.cleanEof && WriteHeader in o.effects
    ensures |effects| <= |o.effects| && o.effects[..|effects|] == effects
  {
    if !env.argvStringifies then Outcome(1, effects)
    else Outcome(if env.cleanEof then 0 else 1, effects + [WriteHeader] + Puts(env.records))
  }

  /** Effects that write neither the header nor a record. */
  ghost predicate Quiet<R>(e: seq<Effect<R>>)
  {
    forall i :: 0 <= i < |e| ==> !e[i].PutRecord? && e[i] != WriteHeader
  }

  /**
    The calls from cram_open to cram_load_reference
    (progs/cram_to_sam.c:115-129): the index only for a non-empty name, the
    prefix and MD options only when asked for.
   */
  function Setup<R>(s: Settings, pos: seq<string>): (e: seq<Effect<R>>)
    requires |pos| >= 2
    ensures Quiet(e)
  {
    [OpenInput(pos[0])]
      + (if CStr(s.refName) != [] then [LoadIndex(pos[0])] else [])
      + (if s.prefix.Some? then [SetPrefix(s.prefix.value)] else [])
      + (if s.decodeMd then [SetDecodeMd] else [])
      + [LoadReference(pos[1])]
  }

  /** main after a full option scan with two or three positional arguments. */
  function Session<R>(s: Settings, pos: seq<string>, env: Env<R>): (o: Outcome<R>)
    requires |pos| == 2 || |pos| == 3
    ensures o.exit == 0 || o.exit == 1
    ensures o.effects != [] && o.effects[0] == OpenOutput(if |pos| == 2 then "-" else pos[2], CStr(s.mode))
    ensures !env.outputOpens ==> o == Outcome(1, o.effects[..1])
  {
    var output := [OpenOutput(if |pos| == 2 then "-" else pos[2], CStr(s.mode))];
    if !env.outputOpens then Outcome(1, output)
    else if !env.inputOpens then Outcome(1, output + [OpenInput(pos[0])])
    else
      var setup := output + Setup(s, pos);
      match Admit(CStr(s.refName), s.start, s.end, env.header)
      case UnknownReference => Outcome(1, setup)
      case NoRange => Transcode(setup, env)
      case Admitted(r) => Transcode(setup + [SetRange(r)], env)
  }

  /**
    main as a whole: the option scan, then the positional arguments (input,
    reference, optional output), then the session.
   */
  function Run<R>(opts: seq<Opt>, pos: seq<string>, env: Env<R>): (o: Outcome<R>)
    requires WfOpts(opts)
    ensures o.exit == 0 || o.exit == 1
    ensures o.effects == [] <==> Scan(Initial(), opts).Exit? || (|pos| != 2 && |pos| != 3)
  {
    match Scan(Initial(), opts)
    case Exit(code) => Outcome(code, [])
    case Continue(s) =>
      if |pos| != 2 && |pos| != 3 then Outcome(1, [])
      else Session(s, pos, env)
  }

  /**
    The loop of progs/cram_to_sam.c:158-160: each record cram_get_bam_seq
    hands over goes to bam_put_seq, in order, after the calls so far.
   */
  method RecordLoop<R>(before: seq<Effect<R>>, records: seq<R>) returns (effects: seq<Effect<R>>)
    ensures effects == before + Puts(records)
  {
    effects := before;
    var i := 0;
    while i < |records|
      invariant 0 <= i <= |records|
      invariant effects == before + Puts(records[..i])
    {
      assert records[..i + 1][..i] == records[..i];
      effects := effects + [PutRecord(records[i])];
      i := i + 1;
    }
    assert records[..i] == records;
  }

  /** The calls from cram_open to cram_load_reference, made as the settings in `cfg` ask. */
  method SetupCalls<R>(cfg: Config, pos: seq<string>) returns (effects: seq<Effect<R>>)
    requires cfg.Valid() && |pos| >= 2
    ensures effects == Setup(cfg.Value(), pos)
  {
    effects := [OpenInput(pos[0])];
    if CStr(cfg.refName[..]) != [] {
      effects := effects + [LoadIndex(pos[0])];
    }
    if cfg.prefix.Some? {
      effects := effects + [SetPrefix(cfg.prefix.value)];
    }
    if cfg.decodeMd {
      effects := effects + [SetDecodeMd];
    }
    effects := effects + [LoadReference(pos[1])];
  }

  /**
    progs/cram_to_sam.c:102-175 once the options are scanned: open the
    output and the input, set up, admit the region, write the header and
    the records, and check for a clean end of the input.
   */
  method RunSession<R>(cfg: Config, pos: seq<string>, env: Env<R>) returns (exit: int, effects: seq<Effect<R>>)
    requires cfg.Valid() && (|pos| == 2 || |pos| == 3)
    ensures Session(cfg.Value(), pos, env) == Outcome(exit, effects)
  {
    effects := [OpenOutput(if |pos| == 2 then "-" else pos[2], CStr(cfg.mode[..]))];
    if !env.outputOpens {
      return 1, effects;
    }
    if !env.inputOpens {
      return 1, effects + [OpenInput(pos[0])];
    }
    var setup := SetupCalls(cfg, pos);
    effects := effects + setup;
    var name := CStr(cfg.refName[..]);
    if name != [] {
      var refid := Name2Ref(env.header, name);
      if refid == -1 && name[0] != '*' {
        return 1, effects;
      }
      effects := effects + [SetRange(CramRange(refid, cfg.start, cfg.end))];
    }
    if !env.argvStringifies {
      return 1, effects;
    }
    effects := RecordLoop(effects + [WriteHeader], env.records);
    exit := if env.cleanEof then 0 else 1;
  }

  /**
    main (progs/cram_to_sam.c:29-175) over already tokenised options and
    positional arguments: it fills a Config in place, then makes the io_lib
    calls and returns as main returns.
   */
  method CramToSam<R>(opts: seq<Opt>, pos: seq<string>, env: Env<R>) returns (exit: int, effects: seq<Effect<R>>)
    requires WfOpts(opts)
    ensures Run(opts, pos, env) == Outcome(exit, effects)
  {
    var cfg := new Config();
    var stop := cfg.ScanAll(opts);
    if stop.Some? {
      return stop.value, [];
    }
    if |pos| != 2 && |pos| != 3 {
      return 1, [];
    }
    exit, effects := RunSession(cfg, pos, env);
  }

  lemma {:induction false} RecordsAppend<R>(a: seq<Effect<R>>, b: seq<Effect<R>>)
    ensures Records(a + b) == Records(a) + Records(b)
    decreases |b|
  {
    if b != [] {
      assert (a + b)[..|a + b| - 1] == a + b[..|b| - 1];
      RecordsAppend(a, b[..|b| - 1]);
    } else {
      assert a + b == a;
    }
  }

  lemma {:induction false} RecordsOfPuts<R>(rs: seq<R>)
    ensures Records(Puts(rs)) == rs
    decreases |rs|
  {
    if rs != [] {
      var e := Puts(rs);
      assert e[..|e| - 1] == Puts(rs[..|rs| - 1]);
      RecordsOfPuts(rs[..|rs| - 1]);
    }
  }

  lemma {:induction false} RecordsNone<R>(e: seq<Effect<R>>)
    requires forall i :: 0 <= i < |e| ==> !e[i].PutRecord?
    ensures Records(e) == []
    decreases |e|
  {
    if e != [] {
      RecordsNone(e[..|e| - 1]);
    }
  }

  /**
    -h, when no option before it ends the scan, makes main print the usage
    and return 0 before any io_lib call, whatever the other arguments.
   */
  lemma {:induction false} HelpExitsZero<R>(opts: seq<Opt>, pos: seq<string>, env: Env<R>, i: nat)
    requires WfOpts(opts) && i < |opts| && opts[i] == H
    requires forall j :: 0 <= j < i ==> !Stops(opts[j])
    ensures Run(opts, pos, env) == Outcome(0, [])
  {
    ScanExit(Initial(), opts);
  }

  /**
    An unknown option or a malformed range, when no option before it ends
    the scan, makes main return 1 before any io_lib call.
   */
  lemma {:induction false} BadOptionExitsOne<R>(opts: seq<Opt>, pos: seq<string>, env: Env<R>, i: nat)
    requires WfOpts(opts) && i < |opts| && Stops(opts[i]) && !opts[i].H?
    requires forall j :: 0 <= j < i ==> !Stops(opts[j])
    ensures Run(opts, pos, env) == Outcome(1, [])
  {
    ScanExit(Initial(), opts);
  }

  /**
    After a full scan, any count of positional arguments other than 2 or
    3 makes main return 1 before any io_lib call; with 2 the output is
    "-", with 3 it is the third argument, opened with ModeText(opts).
   */
  lemma {:induction false} OutputTarget<R>(opts: seq<Opt>, pos: seq<string>, env: Env<R>)
    requires WfOpts(opts) && Scan(Initial(), opts).Continue?
    ensures |pos| != 2 && |pos| != 3 ==> Run(opts, pos, env) == Outcome(1, [])
    ensures |pos| == 2 || |pos| == 3 ==>
      Run(opts, pos, env).effects != [] &&
      Run(opts, pos, env).effects[0] == OpenOutput(if |pos| == 2 then "-" else pos[2], ModeText(opts))
  {
    ScanFromStart(opts);
  }

  /** The setup calls load the index right after cram_open when the name is non-empty, and never set a range. */
  lemma {:induction false} SetupIndex<R>(s: Settings, pos: seq<string>)
    requires |pos| >= 2
    ensures forall e :: e in Setup<R>(s, pos) ==> !e.SetRange? && (e.LoadIndex? ==> CStr(s.refName) != [])
    ensures CStr(s.refName) != [] ==> Setup<R>(s, pos)[1] == LoadIndex(pos[0])
  {
  }

  /** The record loop only writes records. */
  lemma {:induction false} PutsOnlyRecords<R>(rs: seq<R>)
    ensures forall e :: e in Puts(rs) ==> e.PutRecord?
  {
    forall e | e in Puts(rs)
      ensures e.PutRecord?
    {
      var i :| 0 <= i < |Puts(rs)| && Puts(rs)[i] == e;
    }
  }

  /** Inside a session, the index and the range depend on a non-empty `ref_name`. */
  lemma {:induction false} SessionIndex<R>(s: Settings, pos: seq<string>, env: Env<R>)
    requires |pos| == 2 || |pos| == 3
    ensures forall e :: e in Session(s, pos, env).effects && (e.LoadIndex? || e.SetRange?) ==> CStr(s.refName) != []
    ensures CStr(s.refName) != [] && env.outputOpens && env.inputOpens ==> LoadIndex(pos[0]) in Session(s, pos, env).effects
  {
    var output: seq<Effect<R>> := [OpenOutput(if |pos| == 2 then "-" else pos[2], CStr(s.mode))];
    var setup := output + Setup(s, pos);
    SetupIndex<R>(s, pos);
    PutsOnlyRecords(env.records);
    if env.outputOpens && env.inputOpens {
      var e := Session(s, pos, env).effects;
      assert e[..|setup|] == setup;
      if CStr(s.refName) != [] {
        assert e[2] == LoadIndex(pos[0]);
      }
    }
  }

  /**
    The index is loaded and a range set only when the last -r left a
    non-empty reference name; with such a name and both files open, the
    index is loaded.
   */
  lemma {:induction false} IndexOnlyForRegion<R>(opts: seq<Opt>, pos: seq<string>, env: Env<R>)
    requires WfOpts(opts) && Scan(Initial(), opts).Continue?
    ensures forall e :: e in Run(opts, pos, env).effects && (e.LoadIndex? || e.SetRange?) ==> RegionName(opts) != []
    ensures RegionName(opts) != [] && (|pos| == 2 || |pos| == 3) && env.outputOpens && env.inputOpens ==>
      LoadIndex(pos[0]) in Run(opts, pos, env).effects
  {
    ScanFromStart(opts);
    if |pos| == 2 || |pos| == 3 {
      SessionIndex(Scan(Initial(), opts).settings, pos, env);
    }
  }

  /** Region admission inside a session, in terms of the settings the scan left. */
  lemma {:induction false} SessionAdmission<R>(s: Settings, pos: seq<string>, env: Env<R>)
    requires (|pos| == 2 || |pos| == 3) && env.outputOpens && env.inputOpens
    requires CStr(s.refName) != []
    ensures var name := CStr(s.refName);
      name !in env.header && name[0] != '*' ==>
        Session(s, pos, env).exit == 1 && Quiet(Session(s, pos, env).effects)
    ensures var name := CStr(s.refName);
      (name in env.header || name[0] == '*') ==>
        SetRange(CramRange(Name2Ref(env.header, name), s.start, s.end)) in Session(s, pos, env).effects
  {
    var name := CStr(s.refName);
    var output: seq<Effect<R>> := [OpenOutput(if |pos| == 2 then "-" else pos[2], CStr(s.mode))];
    var setup := output + Setup(s, pos);
    if name in env.header || name[0] == '*' {
      var r := CramRange(Name2Ref(env.header, name), s.start, s.end);
      var e := setup + [SetRange(r)];
      assert e[|setup|] == SetRange(r);
      assert Session(s, pos, env).effects[..|e|] == e;
    } else {
      assert Session(s, pos, env).effects == setup;
    }
  }

  /**
    With a non-empty reference name and both files open: a name missing
    from the header makes main return 1 before the header is written unless
    it starts with '*', in which case the range has refid -1; a name in the
    header gets its id; the range carries the parsed start and end.
   */
  lemma {:induction false} RegionAdmission<R>(opts: seq<Opt>, pos: seq<string>, env: Env<R>)
    requires WfOpts(opts) && Scan(Initial(), opts).Continue?
    requires (|pos| == 2 || |pos| == 3) && env.outputOpens && env.inputOpens
    requires RegionName(opts) != []
    ensures LastRegion(opts).Some? && ParseRegion(LastRegion(opts).value).Ok?
    ensures var name := RegionName(opts);
      name !in env.header && name[0] != '*' ==>
        Run(opts, pos, env).exit == 1 && WriteHeader !in Run(opts, pos, env).effects &&
        Records(Run(opts, pos, env).effects) == []
    ensures var name := RegionName(opts);
      var r := ParseRegion(LastRegion(opts).value).value;
      (name in env.header || name[0] == '*') ==>
        SetRange(CramRange(Name2Ref(env.header, name), r.start, r.end)) in Run(opts, pos, env).effects
  {
    ScanFromStart(opts);
    ScanSettings(Initial(), opts);
    var s := Scan(Initial(), opts).settings;
    SessionAdmission(s, pos, env);
    var e := Run(opts, pos, env).effects;
    var name := RegionName(opts);
    if name !in env.header && name[0] != '*' {
      RecordsNone(e);
    }
  }

  /**
    The facts about an outcome that ExitAndRecords promises: exit 0 or 1,
    0 exactly when the header was written and the input ended cleanly,
    every input record written in order after the header, or none.
   */
  ghost predicate Orderly<R>(o: Outcome<R>, env: Env<R>)
  {
    (o.exit == 0 || o.exit == 1) &&
    (o.exit == 0 <==> WriteHeader in o.effects && env.cleanEof) &&
    Records(o.effects) == (if WriteHeader in o.effects then env.records else []) &&
    (forall j :: 0 <= j < |o.effects| && o.effects[j].PutRecord? ==> WriteHeader in o.effects[..j])
  }

  lemma {:induction false} QuietOrderly<R>(e: seq<Effect<R>>, env: Env<R>)
    requires Quiet(e)
    ensures Orderly(Outcome(1, e), env)
  {
    RecordsNone(e);
  }

  lemma {:induction false} TranscodeOrderly<R>(pre: seq<Effect<R>>, env: Env<R>)
    requires Quiet(pre)
    ensures Orderly(Transcode(pre, env), env)
  {
    if env.argvStringifies {
      var e := Transcode(pre, env).effects;
      var k := |pre|;
      assert e == pre + [WriteHeader] + Puts(env.records);
      assert e[k] == WriteHeader;
      RecordsNone(pre);
      RecordsAppend(pre, [WriteHeader]);
      RecordsAppend(pre + [WriteHeader], Puts(env.records));
      RecordsOfPuts(env.records);
      forall j | 0 <= j < |e| && e[j].PutRecord? ensures WriteHeader in e[..j] {
        assert j > k;
        assert e[..j][k] == WriteHeader;
      }
    } else {
      QuietOrderly(pre, env);
    }
  }

  lemma {:induction false} SessionOrderly<R>(s: Settings, pos: seq<string>, env: Env<R>)
    requires |pos| == 2 || |pos| == 3
    ensures Orderly(Session(s, pos, env), env)
  {
    var output: seq<Effect<R>> := [OpenOutput(if |pos| == 2 then "-" else pos[2], CStr(s.mode))];
    if !env.outputOpens {
      QuietOrderly(output, env);
    } else if !env.inputOpens {
      assert Quiet(output + [OpenInput(pos[0])]);
      QuietOrderly(output + [OpenInput(pos[0])], env);
    } else {
      var setup := output + Setup(s, pos);
      assert Quiet(setup);
      match Admit(CStr(s.refName), s.start, s.end, env.header)
      case UnknownReference =>
        QuietOrderly(setup, env);
      case NoRange =>
        TranscodeOrderly(setup, env);
      case Admitted(r) =>
        assert Quiet(setup + [SetRange(r)]);
        TranscodeOrderly(setup + [SetRange(r)], env);
    }
  }

  /**
    main returns 0 or 1; 0 exactly after -h or when the header was written
    and the input ended cleanly, so a truncated input fails even though its
    records were written. The records written are exactly the input's, in
    order, all after the header, or none when the header was not written.
   */
  lemma {:induction false} ExitAndRecords<R>(opts: seq<Opt>, pos: seq<string>, env: Env<R>)
    requires WfOpts(opts)
    ensures Run(opts, pos, env).exit == 0 || Run(opts, pos, env).exit == 1
    ensures Run(opts, pos, env).exit == 0 <==>
      Scan(Initial(), opts) == Exit(0) || (WriteHeader in Run(opts, pos, env).effects && env.cleanEof)
    ensures Records(Run(opts, pos, env).effects) ==
      if WriteHeader in Run(opts, pos, env).effects then env.records else []
    ensures var e := Run(opts, pos, env).effects;
      forall j :: 0 <= j < |e| && e[j].PutRecord? ==> WriteHeader in e[..j]
  {
    ScanExit(Initial(), opts);
    match Scan(Initial(), opts)
    case Exit(code) =>
      var i :| 0 <= i < |opts| && Stops(opts[i]) && code == StopCode(opts[i]);
    case Continue(s) =>
      if |pos| == 2 || |pos| == 3 {
        SessionOrderly(s, pos, env);
      }
  }
}
