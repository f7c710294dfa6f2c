/**
  The `-r ref[:start[-end]]` argument of cram_to_sam: the reference name
  before the first `:`, and the range `sscanf(.., "%d-%d", ..)` reads
  after it.
 */
module Regions {
  import opened Wrappers
  import opened Scanf

  /** INT_MIN and INT_MAX of a 32-bit C `int`. */
  const INT_MIN: int := -0x8000_0000
  const INT_MAX: int := 0x7fff_ffff

  predicate IsInt32(x: int) { INT_MIN <= x <= INT_MAX }

  /** A parsed `-r` argument. */
  datatype Region = Region(name: string, start: int, end: int)

  datatype RegionError = MalformedRange

  /** `strchr(s, c)`: the index of the first `c` in `s`, or -1 when there is none. */
  function FindChar(s: string, c: char): (r: int)
    ensures -1 <= r < |s|
    ensures r >= 0 ==> s[r] == c && c !in s[..r]
    ensures r == -1 <==> c !in s
  {
    if s == [] then -1
    else if s[0] == c then 0
    else
      var k := FindChar(s[1..], c);
      if k < 0 then -1
      else
        assert s[..k + 1] == [s[0]] + s[1..][..k];
        k + 1
  }

  /**
    The `-r` argument as cram_to_sam reads it (progs/cram_to_sam.c:68-88).
    With a `:`, the text before it is the name and the text after it goes
    through "%d-%d": one field gives `end = start`, two give both, and any
    other count is a malformed range. Without a `:`, the whole argument is
    the name and the range is INT_MIN..INT_MAX.
   */
  function ParseRegion(arg: string): (r: Result<Region, RegionError>)
    ensures r.Err? ==> ':' in arg
    ensures r.Ok? ==> r.value.name <= arg && ':' !in r.value.name
    ensures r.Ok? && ':' in arg ==> arg[|r.value.name|] == ':'
  {
    var cp := FindChar(arg, ':');
    if cp >= 0 then
      var sc := ScanRange(arg[cp + 1..]);
      if sc.Count() == 1 then Ok(Region(arg[..cp], sc.first, sc.first))
      else if sc.Count() == 2 then Ok(Region(arg[..cp], sc.first, sc.second))
      else Err(MalformedRange)
    else Ok(Region(arg, INT_MIN, INT_MAX))
  }

  /** The name is a prefix of the argument, so every character of it comes from the argument. */
  lemma {:induction false} NameFromArg(arg: string)
    requires ParseRegion(arg).Ok?
    ensures ParseRegion(arg).value.name <= arg
    ensures forall c :: c in ParseRegion(arg).value.name ==> c in arg
  {
    var name := ParseRegion(arg).value.name;
    forall c | c in name ensures c in arg {
      var k :| 0 <= k < |name| && name[k] == c;
      assert arg[k] == c;
    }
  }

  /** An argument without `:` names a whole reference: its range is INT_MIN..INT_MAX. */
  lemma {:induction false} WholeReference(arg: string)
    requires ':' !in arg
    ensures ParseRegion(arg) == Ok(Region(arg, INT_MIN, INT_MAX))
  {
  }

  /** Splitting `name:rest` at its first colon gives back `name` and `rest`. */
  lemma {:induction false} FirstColon(name: string, rest: string)
    requires ':' !in name
    ensures FindChar(name + ":" + rest, ':') == |name|
    ensures (name + ":" + rest)[..|name|] == name && (name + ":" + rest)[|name| + 1..] == rest
  {
    var arg := name + ":" + rest;
    var cp := FindChar(arg, ':');
    assert arg[|name|] == ':';
    assert arg[..|name|] == name;
  }

  /**
    With a `:`, the name is the text before the first colon, and the range
    is malformed exactly when the text after it does not begin with an
    integer (the empty text included).
   */
  lemma {:induction false} NameAndMalformed(name: string, rest: string)
    requires ':' !in name
    ensures ParseRegion(name + ":" + rest).Ok? ==> ParseRegion(name + ":" + rest).value.name == name
    ensures ParseRegion(name + ":" + rest).Err? <==> !BeginsWithInt(rest)
  {
    FirstColon(name, rest);
    assert rest[0..] == rest;
    ScanIntSucceedsIff(rest, 0);
  }

  /**
    `name:S-E` gives start S and end E, whatever white space precedes
    either number and whatever non-digit text follows the second.
   */
  lemma {:induction false} TwoFieldRange(name: string, ws1: string, s: int, ws2: string, e: int, tail: string)
    requires ':' !in name && AllSpace(ws1) && AllSpace(ws2)
    requires tail == [] || !IsDigit(tail[0])
    ensures ParseRegion(name + ":" + ws1 + IntText(s) + "-" + ws2 + IntText(e) + tail) == Ok(Region(name, s, e))
  {
    var rest := ws1 + IntText(s) + "-" + ws2 + IntText(e) + tail;
    assert name + ":" + ws1 + IntText(s) + "-" + ws2 + IntText(e) + tail == name + ":" + rest;
    FirstColon(name, rest);
    ScanRangeTwo(ws1, s, ws2, e, tail);
  }

  /**
    `name:S` gives end == start when what follows S is not `-` and an
    integer: nothing at all (`S`), a lone `-` (`S-`), or `-` and text that
    is no number (`S-abc`).
   */
  lemma {:induction false} OneFieldRange(name: string, ws: string, s: int, tail: string)
    requires ':' !in name && AllSpace(ws)
    requires tail == [] || !IsDigit(tail[0])
    requires tail != [] && tail[0] == '-' ==> !BeginsWithInt(tail[1..])
    ensures ParseRegion(name + ":" + ws + IntText(s) + tail) == Ok(Region(name, s, s))
  {
    var rest := ws + IntText(s) + tail;
    assert name + ":" + ws + IntText(s) + tail == name + ":" + rest;
    FirstColon(name, rest);
    ScanRangeOne(ws, s, tail);
  }

  lemma {:induction false} Text1000()
    ensures IntText(1000) == "1000" && IntText(2000) == "2000"
  {
    assert NatText(1) == "1" && NatText(2) == "2";
    assert NatText(10) == "10" && NatText(20) == "20";
    assert NatText(100) == "100" && NatText(200) == "200";
    assert NatText(1000) == "1000" && NatText(2000) == "2000";
  }

  /** `chr1:1000-2000` written as the pieces TwoFieldRange speaks of. */
  lemma {:induction false} TwoFieldPieces(arg: string)
    requires arg == "chr1:1000-2000"
    ensures ParseRegion(arg) == Ok(Region("chr1", 1000, 2000))
  {
    Text1000();
    assert arg == "chr1" + ":" + "" + IntText(1000) + "-" + "" + IntText(2000) + "";
    TwoFieldRange("chr1", "", 1000, "", 2000, "");
  }

  /** `chr1:1000` written as the pieces OneFieldRange speaks of. */
  lemma {:induction false} OneFieldPieces(arg: string)
    requires arg == "chr1:1000"
    ensures ParseRegion(arg) == Ok(Region("chr1", 1000, 1000))
  {
    Text1000();
    assert arg == "chr1" + ":" + "" + IntText(1000) + "";
    OneFieldRange("chr1", "", 1000, "");
  }

  lemma {:induction false} NoIntInAbc()
    ensures !BeginsWithInt("abc")
  {
    forall i | 0 <= i < 3
      ensures !(AllSpace("abc"[..i]) && NumberStart("abc"[i..]))
    {
      if i > 0 {
        assert "abc"[..i][0] == 'a';
      } else {
        assert "abc"[0] == 'a';
      }
    }
  }

  /** `-r chr1:1000-2000`, the usage text's example, selects chr1 from 1000 to 2000. */
  lemma {:induction false} ExampleTwoFields()
    ensures ParseRegion("chr1:1000-2000") == Ok(Region("chr1", 1000, 2000))
  {
    TwoFieldPieces("chr1:1000-2000");
  }

  lemma {:induction false} ExampleOneField()
    ensures ParseRegion("chr1:1000") == Ok(Region("chr1", 1000, 1000))
  {
    OneFieldPieces("chr1:1000");
  }

  lemma {:induction false} ExampleMalformed()
    ensures ParseRegion("chr1:abc") == Err(MalformedRange)
  {
    NoIntInAbc();
    assert "chr1" + ":" + "abc" == "chr1:abc";
    NameAndMalformed("chr1", "abc");
  }
}
