/**
  The option scan at the top of cram_to_sam's main
  (progs/cram_to_sam.c:33-95): the BAM open mode in `char mode[4]`, the
  name prefix, the MD/NM flag, the region's start and end, and the region's
  reference name in `char ref_name[1024]`.
 */
module Options {
  import opened Wrappers
  import opened CStrings
  import opened Scanf
  import opened Regions

  /** One option as getopt(argc, argv, "bu0123456789mp:hr:") hands it over. */
  datatype Opt =
    | B                  // -b: write BAM rather than SAM
    | U                  // -u: uncompressed BAM
    | Digit(c: char)     // -0 .. -9: the compression level
    | M                  // -m: generate MD and NM tags
    | P(prefix: string)  // -p str: prefix for generated read names
    | H                  // -h: usage
    | R(region: string)  // -r region
    | Unknown            // '?': an unrecognised option, or one missing its argument

  /**
    What getopt can hand over: digits for the level options and C strings
    for arguments. The numbers of a region must fit a C `int`, since `%d`
    overflow is undefined.
   */
  predicate WfOpt(o: Opt)
  {
    match o
    case Digit(c) => IsDigit(c)
    case P(text) => NUL !in text
    case R(arg) =>
      NUL !in arg &&
      (ParseRegion(arg).Ok? ==> IsInt32(ParseRegion(arg).value.start) && IsInt32(ParseRegion(arg).value.end))
    case _ => true
  }

  predicate WfOpts(opts: seq<Opt>) { forall i :: 0 <= i < |opts| ==> WfOpt(opts[i]) }

  const MODE_LEN: nat := 4
  const REF_NAME_LEN: nat := 1024

  /** The driver's option state: the contents of `mode` and `ref_name` and the other locals. */
  datatype Settings = Settings(
    mode: seq<char>,
    prefix: Option<string>,
    decodeMd: bool,
    start: int,
    end: int,
    refName: seq<char>)

  /**
    The state before the scan. C leaves `start` and `end` uninitialised;
    they are read only once `ref_name` is non-empty, which only a `-r`
    that also set them can bring about.
   */
  function Initial(): Settings
  {
    Settings(['w', NUL, NUL, NUL], None, false, 0, 0, seq(REF_NAME_LEN, _ => NUL))
  }

  /**
    The invariant of the state: the mode starts with 'w', slot 1 is 'b' or
    NUL, slot 2 a digit or NUL, slot 3 NUL; the last cell of `ref_name` is
    never written; start and end are C ints.
   */
  predicate Wf(s: Settings)
  {
    |s.mode| == MODE_LEN && s.mode[0] == 'w' && (s.mode[1] == NUL || s.mode[1] == 'b') &&
    (s.mode[2] == NUL || IsDigit(s.mode[2])) && s.mode[3] == NUL &&
    |s.refName| == REF_NAME_LEN && s.refName[REF_NAME_LEN - 1] == NUL &&
    IsInt32(s.start) && IsInt32(s.end)
  }

  /** The scan goes on with new settings, or main returns the exit code. */
  datatype Step = Continue(settings: Settings) | Exit(code: int)

  /** The options that end the scan: -h, an unknown option, a malformed range. */
  predicate Stops(o: Opt)
  {
    o.H? || o.Unknown? || (o.R? && ParseRegion(o.region).Err?)
  }

  /** The code main returns for an option that ends the scan: 0 after usage, 1 on error. */
  function StopCode(o: Opt): int
  {
    if o.H? then 0 else 1
  }

  /** One pass through the switch of progs/cram_to_sam.c:42-94. */
  function ApplyOpt(s: Settings, o: Opt): (r: Step)
    requires Wf(s) && WfOpt(o)
    ensures r.Continue? ==> Wf(r.settings)
    ensures r.Exit? <==> Stops(o)
    ensures r.Exit? ==> r.code == StopCode(o)
  {
    match o
    case B => Continue(s.(mode := s.mode[1 := 'b']))
    case U => Continue(s.(mode := s.mode[2 := '0']))
    case Digit(c) => Continue(s.(mode := s.mode[2 := c]))
    case M => Continue(s.(decodeMd := true))
    case P(text) => Continue(s.(prefix := Some(text)))
    case H => Exit(0)
    case R(arg) =>
      (match ParseRegion(arg)
       case Err(_) => Exit(1)
       case Ok(r) => Continue(s.(start := r.start, end := r.end, refName := StrNCpy(s.refName, r.name, REF_NAME_LEN - 1))))
    case Unknown => Exit(1)
  }

  /** The whole getopt loop: the options applied in order, stopping at the first that ends it. */
  function Scan(s: Settings, opts: seq<Opt>): (r: Step)
    requires Wf(s) && WfOpts(opts)
    ensures r.Continue? ==> Wf(r.settings)
    ensures r.Exit? ==> r.code == 0 || r.code == 1
    decreases |opts|
  {
    if opts == [] then Continue(s)
    else
      match Scan(s, opts[..|opts| - 1])
      case Exit(c) => Exit(c)
      case Continue(t) => ApplyOpt(t, opts[|opts| - 1])
  }

  /** The digit the last -u or -0 .. -9 asks for, if any. */
  function LastLevel(opts: seq<Opt>): (r: Option<char>)
    requires WfOpts(opts)
    ensures r.Some? ==> IsDigit(r.value)
  {
    if opts == [] then None
    else
      match opts[|opts| - 1]
      case U => Some('0')
      case Digit(c) => Some(c)
      case _ => LastLevel(opts[..|opts| - 1])
  }

  /** The argument of the last -p, if any. */
  function LastPrefix(opts: seq<Opt>): Option<string>
  {
    if opts == [] then None
    else if opts[|opts| - 1].P? then Some(opts[|opts| - 1].prefix)
    else LastPrefix(opts[..|opts| - 1])
  }

  /** The argument of the last -r, if any. */
  function LastRegion(opts: seq<Opt>): Option<string>
  {
    if opts == [] then None
    else if opts[|opts| - 1].R? then Some(opts[|opts| - 1].region)
    else LastRegion(opts[..|opts| - 1])
  }

  /**
    The mode bam_open receives: "w", then "b" for BAM, then the level digit;
    without -b the NUL in slot 1 ends the string after "w".
   */
  function ModeText(opts: seq<Opt>): string
    requires WfOpts(opts)
  {
    ['w'] + (if B in opts then ['b'] + (if LastLevel(opts).Some? then [LastLevel(opts).value] else []) else [])
  }

  /** Once an option has ended the scan, the options after it change nothing. */
  lemma {:induction false} ExitPersists(s0: Settings, opts: seq<Opt>, k: nat)
    requires Wf(s0) && WfOpts(opts) && k <= |opts|
    requires Scan(s0, opts[..k]).Exit?
    ensures Scan(s0, opts) == Scan(s0, opts[..k])
    decreases |opts|
  {
    if k < |opts| {
      var init := opts[..|opts| - 1];
      assert init[..k] == opts[..k];
      ExitPersists(s0, init, k);
    } else {
      assert opts[..k] == opts;
    }
  }

  /**
    The scan ends early exactly when some option stops it; the exit code is
    then that of the first such option.
   */
  lemma {:induction false} ScanExit(s0: Settings, opts: seq<Opt>)
    requires Wf(s0) && WfOpts(opts)
    ensures Scan(s0, opts).Exit? <==> exists i :: 0 <= i < |opts| && Stops(opts[i])
    ensures Scan(s0, opts).Exit? ==>
      exists i :: 0 <= i < |opts| && Stops(opts[i]) && (forall j :: 0 <= j < i ==> !Stops(opts[j])) &&
        Scan(s0, opts).code == StopCode(opts[i])
    decreases |opts|
  {
    if opts != [] {
      var n := |opts| - 1;
      var init := opts[..n];
      ScanExit(s0, init);
      assert forall j :: 0 <= j < n ==> init[j] == opts[j];
      if Scan(s0, init).Continue? {
        assert forall j :: 0 <= j < n ==> !Stops(opts[j]);
        if Scan(s0, opts).Exit? {
          assert Stops(opts[n]);
        }
      } else {
        var i :| 0 <= i < n && Stops(init[i]) && (forall j :: 0 <= j < i ==> !Stops(init[j])) &&
          Scan(s0, init).code == StopCode(init[i]);
        assert Stops(opts[i]) && (forall j :: 0 <= j < i ==> !Stops(opts[j]));
      }
    }
  }

  /**
    What a scan that runs to the end leaves behind, option by option: -b is
    sticky, the last level option, -p and -r win, -m is sticky, and the
    reference name is the last region's name cut to 1023 characters.
   */
  lemma {:induction false} ScanSettings(s0: Settings, opts: seq<Opt>)
    requires Wf(s0) && WfOpts(opts) && Scan(s0, opts).Continue?
    ensures Scan(s0, opts).settings.mode[1] == if B in opts then 'b' else s0.mode[1]
    ensures Scan(s0, opts).settings.mode[2] == if LastLevel(opts).Some? then LastLevel(opts).value else s0.mode[2]
    ensures Scan(s0, opts).settings.prefix == if LastPrefix(opts).Some? then LastPrefix(opts) else s0.prefix
    ensures Scan(s0, opts).settings.decodeMd == (s0.decodeMd || M in opts)
    ensures LastRegion(opts).None? ==>
      var t := Scan(s0, opts).settings;
      t.start == s0.start && t.end == s0.end && t.refName == s0.refName
    ensures LastRegion(opts).Some? ==>
      var t := Scan(s0, opts).settings;
      ParseRegion(LastRegion(opts).value).Ok? &&
      t.start == ParseRegion(LastRegion(opts).value).value.start &&
      t.end == ParseRegion(LastRegion(opts).value).value.end &&
      CStr(t.refName) == Truncate(ParseRegion(LastRegion(opts).value).value.name, REF_NAME_LEN - 1)
  {
    ScanMode(s0, opts);
    ScanFlags(s0, opts);
    ScanRegion(s0, opts);
  }

  /** -b is sticky and the last level option wins. */
  lemma {:induction false} ScanMode(s0: Settings, opts: seq<Opt>)
    requires Wf(s0) && WfOpts(opts) && Scan(s0, opts).Continue?
    ensures Scan(s0, opts).settings.mode[1] == if B in opts then 'b' else s0.mode[1]
    ensures Scan(s0, opts).settings.mode[2] == if LastLevel(opts).Some? then LastLevel(opts).value else s0.mode[2]
    decreases |opts|
  {
    if opts != [] {
      var n := |opts| - 1;
      var init := opts[..n];
      assert opts == init + [opts[n]];
      ScanMode(s0, init);
    }
  }

  /** The last -p wins and -m is sticky. */
  lemma {:induction false} ScanFlags(s0: Settings, opts: seq<Opt>)
    requires Wf(s0) && WfOpts(opts) && Scan(s0, opts).Continue?
    ensures Scan(s0, opts).settings.prefix == if LastPrefix(opts).Some? then LastPrefix(opts) else s0.prefix
    ensures Scan(s0, opts).settings.decodeMd == (s0.decodeMd || M in opts)
    decreases |opts|
  {
    if opts != [] {
      var n := |opts| - 1;
      var init := opts[..n];
      assert opts == init + [opts[n]];
      ScanFlags(s0, init);
    }
  }

  /** The last -r decides the range and the reference name. */
  lemma {:induction false} ScanRegion(s0: Settings, opts: seq<Opt>)
    requires Wf(s0) && WfOpts(opts) && Scan(s0, opts).Continue?
    ensures LastRegion(opts).None? ==>
      var t := Scan(s0, opts).settings;
      t.start == s0.start && t.end == s0.end && t.refName == s0.refName
    ensures LastRegion(opts).Some? ==>
      var t := Scan(s0, opts).settings;
      ParseRegion(LastRegion(opts).value).Ok? &&
      t.start == ParseRegion(LastRegion(opts).value).value.start &&
      t.end == ParseRegion(LastRegion(opts).value).value.end &&
      CStr(t.refName) == Truncate(ParseRegion(LastRegion(opts).value).value.name, REF_NAME_LEN - 1)
    decreases |opts|
  {
    if opts != [] {
      var n := |opts| - 1;
      var init := opts[..n];
      var o := opts[n];
      assert WfOpt(o);
      ScanRegion(s0, init);
      if o.R? {
        var t0 := Scan(s0, init).settings;
        var r := ParseRegion(o.region).value;
        NameFromArg(o.region);
        StrNCpyHolds(t0.refName, r.name, REF_NAME_LEN - 1);
      }
    }
  }

  /** The reference name a full scan leaves in `ref_name`: the last region's, or none. */
  function RegionName(opts: seq<Opt>): string
  {
    match LastRegion(opts)
    case None => ""
    case Some(arg) => if ParseRegion(arg).Ok? then Truncate(ParseRegion(arg).value.name, REF_NAME_LEN - 1) else ""
  }

  /**
    A scan from the initial state that runs to the end gives bam_open the
    mode ModeText(opts) (always starting with 'w'), leaves the last region's
    name in `ref_name`, and leaves `decode_md` and `prefix` as the options
    asked.
   */
  lemma {:induction false} ScanFromStart(opts: seq<Opt>)
    requires WfOpts(opts) && Scan(Initial(), opts).Continue?
    ensures CStr(Scan(Initial(), opts).settings.mode) == ModeText(opts)
    ensures ModeText(opts)[0] == 'w' && |ModeText(opts)| <= 3
    ensures CStr(Scan(Initial(), opts).settings.refName) == RegionName(opts)
    ensures Scan(Initial(), opts).settings.prefix == LastPrefix(opts)
    ensures Scan(Initial(), opts).settings.decodeMd == (M in opts)
  {
    var t := Scan(Initial(), opts).settings;
    ScanSettings(Initial(), opts);
    var text := ModeText(opts);
    assert t.mode[..|text|] == text;
    CStrOfTerminated(t.mode, text);
    if LastRegion(opts).None? {
      assert Initial().refName[0] == NUL;
    }
  }

  /** The option state of main, updated in place as getopt hands over each option. */
  class Config {
    const mode: array<char>
    var prefix: Option<string>
    var decodeMd: bool
    var start: int
    var end: int
    const refName: array<char>

    ghost function Value(): Settings
      reads this, mode, refName
    {
      Settings(mode[..], prefix, decodeMd, start, end, refName[..])
    }

    ghost predicate Valid()
      reads this, mode, refName
    {
      mode != refName && Wf(Value())
    }

    /** `mode = {'w', 0, 0, 0}`, `prefix = NULL`, `decode_md = 0`, `ref_name = {0}`. */
    constructor ()
      ensures Valid() && Value() == Initial() && fresh(mode) && fresh(refName)
    {
      mode := new char[MODE_LEN] ['w', NUL, NUL, NUL];
      refName := new char[REF_NAME_LEN](_ => NUL);
      prefix := None;
      decodeMd := false;
      start, end := 0, 0;
    }

    /** `-r arg` (progs/cram_to_sam.c:68-88): false when main returns 1 for a malformed range. */
    method SetRegion(arg: string) returns (ok: bool)
      requires Valid() && WfOpt(R(arg))
      modifies this, refName
      ensures Valid()
      ensures ApplyOpt(old(Value()), R(arg)) == if ok then Continue(Value()) else Exit(1)
    {
      var name, first, last := arg, INT_MIN, INT_MAX;
      var cp := FindChar(arg, ':');
      if cp >= 0 {
        name := arg[..cp];
        var sc := ScanRange(arg[cp + 1..]);
        if sc.Count() == 1 {
          first, last := sc.first, sc.first;
        } else if sc.Count() == 2 {
          first, last := sc.first, sc.second;
        } else {
          return false;
        }
      }
      assert ParseRegion(arg) == Ok(Region(name, first, last));
      NameFromArg(arg);
      StrNCopy(refName, name, REF_NAME_LEN - 1);
      start, end := first, last;
      ok := true;
    }

    /** One pass through the switch, writing the mode cells and the other locals in place. */
    method Apply(o: Opt) returns (exit: Option<int>)
      requires Valid() && WfOpt(o)
      modifies this, mode, refName
      ensures Valid()
      ensures ApplyOpt(old(Value()), o) == if exit.None? then Continue(Value()) else Exit(exit.value)
    {
      exit := None;
      match o
      case B => mode[1] := 'b';
      case U => mode[2] := '0';
      case Digit(c) => mode[2] := c;
      case M => decodeMd := true;
      case P(text) => prefix := Some(text);
      case H => exit := Some(0);
      case R(arg) =>
        var ok := SetRegion(arg);
        if !ok {
          exit := Some(1);
        }
      case Unknown => exit := Some(1);
    }

    /** The getopt loop: applies the options in order and returns the exit code if one ends it. */
    method ScanAll(opts: seq<Opt>) returns (exit: Option<int>)
      requires Valid() && WfOpts(opts)
      modifies this, mode, refName
      ensures Valid()
      ensures Scan(old(Value()), opts) == if exit.None? then Continue(Value()) else Exit(exit.value)
    {
      ghost var s0 := Value();
      exit := None;
      var i := 0;
      while i < |opts|
        invariant 0 <= i <= |opts| && Valid() && exit.None?
        invariant Scan(s0, opts[..i]) == Continue(Value())
      {
        assert opts[..i + 1][..i] == opts[..i];
        exit := Apply(opts[i]);
        if exit.Some? {
          ExitPersists(s0, opts, i + 1);
          return;
        }
        i := i + 1;
      }
      assert opts[..i] == opts;
    }
  }
}
