/**
  The part of C's `sscanf` that the region option uses: the `%d`
  conversion and the format "%d-%d".
 */
module Scanf {
  import opened Wrappers

  /** `isspace` in the "C" locale: the space and the characters 9 to 13 (\t \n \v \f \r). */
  predicate IsSpace(c: char) { c == ' ' || 9 <= c as int <= 13 }

  predicate IsDigit(c: char) { '0' <= c <= '9' }

  predicate IsSign(c: char) { c == '+' || c == '-' }

  predicate AllSpace(s: string) { forall k :: 0 <= k < |s| ==> IsSpace(s[k]) }

  predicate AllDigits(s: string) { forall k :: 0 <= k < |s| ==> IsDigit(s[k]) }

  /** The first index at or after `i` whose character is not white space. */
  function SkipSpace(s: string, i: nat): (j: nat)
    requires i <= |s|
    ensures i <= j <= |s| && AllSpace(s[i..j])
    ensures j == |s| || !IsSpace(s[j])
    decreases |s| - i
  {
    if i < |s| && IsSpace(s[i]) then SkipSpace(s, i + 1) else i
  }

  /** The end of the run of decimal digits that starts at `i`. */
  function DigitRun(s: string, i: nat): (j: nat)
    requires i <= |s|
    ensures i <= j <= |s| && AllDigits(s[i..j])
    ensures j == |s| || !IsDigit(s[j])
    decreases |s| - i
  {
    if i < |s| && IsDigit(s[i]) then DigitRun(s, i + 1) else i
  }

  function DigitValue(c: char): (d: nat)
    requires IsDigit(c)
    ensures d < 10
  {
    c as int - '0' as int
  }

  function DigitChar(d: nat): (c: char)
    requires d < 10
    ensures IsDigit(c) && DigitValue(c) == d
  {
    ('0' as int + d) as char
  }

  /** The number a string of decimal digits denotes. */
  function DecValue(d: string): nat
    requires AllDigits(d)
  {
    if d == [] then 0 else DecValue(d[..|d| - 1]) * 10 + DigitValue(d[|d| - 1])
  }

  /** The decimal text of a natural number, without leading zeros. */
  function NatText(n: nat): (s: string)
    ensures |s| > 0 && AllDigits(s)
  {
    if n < 10 then [DigitChar(n)] else NatText(n / 10) + [DigitChar(n % 10)]
  }

  /** The decimal text of an integer as `printf("%d")` writes it. */
  function IntText(n: int): (s: string)
    ensures |s| > 0 && !IsSpace(s[0]) && (IsDigit(s[0]) || s[0] == '-')
  {
    if n < 0 then "-" + NatText(-n) else NatText(n)
  }

  /** A successful `%d` conversion: the value read and the index just past its last digit. */
  datatype Conv = Conv(value: int, next: nat)

  /**
    The `%d` conversion applied at index `i`: white space is skipped, then
    an optional sign, then one or more decimal digits are required.
    Anything after the digits is left unread.
   */
  function ScanInt(s: string, i: nat): (r: Option<Conv>)
    requires i <= |s|
    ensures r.Some? ==> i < r.value.next <= |s| && IsDigit(s[r.value.next - 1])
    ensures r.Some? ==> r.value.next == |s| || !IsDigit(s[r.value.next])
    ensures r.Some? ==> SkipSpace(s, i) < |s|
  {
    ScanSigned(s, SkipSpace(s, i))
  }

  /** The part of `%d` after the white space: an optional sign and at least one digit at `j`. */
  function ScanSigned(s: string, j: nat): (r: Option<Conv>)
    requires j <= |s|
    ensures r.Some? ==> j < r.value.next <= |s| && IsDigit(s[r.value.next - 1])
    ensures r.Some? ==> r.value.next == |s| || !IsDigit(s[r.value.next])
  {
    var k := if j < |s| && IsSign(s[j]) then j + 1 else j;
    var m := DigitRun(s, k);
    if m == k then None
    else
      var magnitude: int := DecValue(s[k..m]);
      Some(Conv(if k > j && s[j] == '-' then -magnitude else magnitude, m))
  }

  /** What `sscanf(t, "%d-%d", &start, &end)` reads from `t`. */
  datatype RangeScan =
    | InputFailure                         // input ended before any conversion: EOF
    | MatchFailure                         // the first %d found no number
    | OneField(first: int)                 // only the first %d assigned
    | TwoFields(first: int, second: int)   // both conversions assigned
  {
    /** The value `sscanf` returns. */
    function Count(): int
    {
      match this
      case InputFailure => -1
      case MatchFailure => 0
      case OneField(_) => 1
      case TwoFields(_, _) => 2
    }
  }

  /**
    The format "%d-%d": a `%d`, then the literal `-` (which skips no white
    space), then another `%d`. Scanning stops at the first directive that
    fails; text after the second number is ignored.
   */
  function ScanRange(t: string): (r: RangeScan)
    ensures r.InputFailure? <==> AllSpace(t)
  {
    if SkipSpace(t, 0) == |t| then InputFailure
    else match ScanInt(t, 0)
      case None => MatchFailure
      case Some(a) => AfterFirst(a.value, t[a.next..])
  }

  /**
    The rest of "%d-%d" once the first `%d` has read `first` and left
    `rest` unread: the literal `-`, then the second `%d`.
   */
  function AfterFirst(first: int, rest: string): RangeScan
  {
    if rest != [] && rest[0] == '-' then
      match ScanInt(rest, 1)
      case None => OneField(first)
      case Some(b) => TwoFields(first, b.value)
    else OneField(first)
  }

  /**
    `t` begins with an integer as `%d` reads one: after some white space,
    a digit, or a sign immediately followed by a digit.
   */
  ghost predicate BeginsWithInt(t: string)
  {
    exists i :: 0 <= i < |t| && AllSpace(t[..i]) && NumberStart(t[i..])
  }

  /** `u` starts with a digit, or with a sign immediately followed by a digit. */
  ghost predicate NumberStart(u: string)
  {
    |u| > 0 && (IsDigit(u[0]) || (IsSign(u[0]) && |u| > 1 && IsDigit(u[1])))
  }

  lemma {:induction false} SkipSpaceAt(s: string, i: nat, j: nat)
    requires i <= j <= |s| && AllSpace(s[i..j]) && (j == |s| || !IsSpace(s[j]))
    ensures SkipSpace(s, i) == j
    decreases j - i
  {
    if i < j {
      assert s[i..j][0] == s[i];
      assert s[i + 1..j] == s[i..j][1..];
      SkipSpaceAt(s, i + 1, j);
    }
  }

  lemma {:induction false} DigitRunAt(s: string, i: nat, j: nat)
    requires i <= j <= |s| && AllDigits(s[i..j]) && (j == |s| || !IsDigit(s[j]))
    ensures DigitRun(s, i) == j
    decreases j - i
  {
    if i < j {
      assert s[i..j][0] == s[i];
      assert s[i + 1..j] == s[i..j][1..];
      DigitRunAt(s, i + 1, j);
    }
  }

  /** Reading back the decimal text of a natural number gives the number. */
  lemma {:induction false} DecValueOfNatText(n: nat)
    ensures DecValue(NatText(n)) == n
  {
    if n >= 10 {
      var d := NatText(n);
      assert d[..|d| - 1] == NatText(n / 10);
      DecValueOfNatText(n / 10);
    }
  }

  /** `s[i..]` split into three consecutive pieces. */
  lemma {:induction false} SplitAt(s: string, i: nat, a: string, b: string, c: string)
    requires i <= |s| && s[i..] == a + b + c
    ensures s[i..i + |a|] == a
    ensures s[i + |a|..i + |a| + |b|] == b
    ensures s[i + |a| + |b|..] == c
  {
    assert s[i..i + |a|] == s[i..][..|a|];
    assert s[i + |a|..i + |a| + |b|] == s[i..][|a|..|a| + |b|];
    assert s[i + |a| + |b|..] == s[i..][|a| + |b|..];
  }

  /** The decimal text of `mag` between `k` and `m`, not followed by a digit, is one digit run worth `mag`. */
  lemma {:induction false} DigitsRead(s: string, k: nat, m: nat, mag: nat)
    requires k <= m <= |s| && s[k..m] == NatText(mag) && (m == |s| || !IsDigit(s[m]))
    ensures DigitRun(s, k) == m && DecValue(s[k..m]) == mag
  {
    DigitRunAt(s, k, m);
    DecValueOfNatText(mag);
  }

  /** The decimal text of `n` at `j`, not followed by a digit, is read as `n`. */
  lemma {:induction false} ScanSignedReads(s: string, j: nat, n: int, tail: string)
    requires j <= |s| && s[j..] == IntText(n) + tail
    requires tail == [] || !IsDigit(tail[0])
    ensures ScanSigned(s, j) == Some(Conv(n, j + |IntText(n)|))
  {
    var text := IntText(n);
    var m := j + |text|;
    assert s[j..m] == text by {
      assert s[j..m] == s[j..][..|text|];
    }
    assert m == |s| || !IsDigit(s[m]) by {
      if m < |s| {
        assert s[m] == s[j..][|text|];
      }
    }
    assert s[j] == text[0];
    if n < 0 {
      assert s[j + 1..m] == NatText(-n) by {
        assert s[j + 1..m] == s[j..m][1..];
      }
      DigitsRead(s, j + 1, m, -n);
    } else {
      DigitsRead(s, j, m, n);
    }
  }

  /**
    `%d` reads back what `%d` writes: after white space `ws`, the decimal
    text of `n` is read as `n` whenever no digit follows it.
   */
  lemma {:induction false} ScanIntReads(s: string, i: nat, ws: string, n: int, tail: string)
    requires i <= |s| && s[i..] == ws + IntText(n) + tail
    requires AllSpace(ws) && (tail == [] || !IsDigit(tail[0]))
    ensures ScanInt(s, i) == Some(Conv(n, i + |ws| + |IntText(n)|))
  {
    var j := i + |ws|;
    SplitAt(s, i, ws, IntText(n), tail);
    assert s[j..] == IntText(n) + tail;
    assert s[j] == IntText(n)[0];
    SkipSpaceAt(s, i, j);
    ScanSignedReads(s, j, n, tail);
  }

  lemma {:induction false} ScanIntFindsInt(s: string, i: nat)
    requires i <= |s| && ScanInt(s, i).Some?
    ensures BeginsWithInt(s[i..])
  {
    var t := s[i..];
    var j := SkipSpace(s, i);
    assert t[..j - i] == s[i..j];
    var k := if j < |s| && IsSign(s[j]) then j + 1 else j;
    assert IsDigit(s[k]);
    assert t[j - i..] == s[j..];
    assert NumberStart(t[j - i..]);
  }

  lemma {:induction false} ScanIntNeedsInt(s: string, i: nat)
    requires i <= |s| && BeginsWithInt(s[i..])
    ensures ScanInt(s, i).Some?
  {
    var t := s[i..];
    var w :| 0 <= w < |t| && AllSpace(t[..w]) && NumberStart(t[w..]);
    assert s[i..i + w] == t[..w];
    assert s[i + w..] == t[w..];
    assert s[i + w] == t[w];
    assert IsDigit(t[w]) || IsSign(t[w]);
    assert !IsSpace(t[w]);
    SkipSpaceAt(s, i, i + w);
    var k := if IsSign(s[i + w]) then i + w + 1 else i + w;
    assert IsDigit(s[k]);
    assert DigitRun(s, k) > k;
  }

  /** `%d` succeeds exactly on text that begins with an integer. */
  lemma {:induction false} ScanIntSucceedsIff(s: string, i: nat)
    requires i <= |s|
    ensures ScanInt(s, i).Some? <==> BeginsWithInt(s[i..])
  {
    if ScanInt(s, i).Some? {
      ScanIntFindsInt(s, i);
    }
    if BeginsWithInt(s[i..]) {
      ScanIntNeedsInt(s, i);
    }
  }

  /** Dropping the first `|a|` characters of `a + b` leaves `b`. */
  lemma {:induction false} DropPrefix(a: string, b: string)
    ensures (a + b)[|a|..] == b
  {
  }

  /** `%d` at the start of `s` reads the integer whose text, after spaces, is `s[..m]`. */
  lemma {:induction false} ScanIntReadsPrefix(s: string, ws: string, n: int, m: nat)
    requires m <= |s| && s[..m] == ws + IntText(n) && AllSpace(ws)
    requires m == |s| || !IsDigit(s[m])
    ensures ScanInt(s, 0) == Some(Conv(n, m))
  {
    assert s[0..] == s[..m] + s[m..];
    assert m < |s| ==> s[m..][0] == s[m];
    ScanIntReads(s, 0, ws, n, s[m..]);
  }

  /** `-` and then an integer after the first number complete "%d-%d". */
  lemma {:induction false} AfterFirstTwo(first: int, ws: string, e: int, tail: string)
    requires AllSpace(ws) && (tail == [] || !IsDigit(tail[0]))
    ensures AfterFirst(first, "-" + (ws + IntText(e) + tail)) == TwoFields(first, e)
  {
    var rest := "-" + (ws + IntText(e) + tail);
    assert rest[1..] == ws + IntText(e) + tail;
    ScanIntReads(rest, 1, ws, e, tail);
  }

  /** Without `-` and an integer after the first number, only one field is assigned. */
  lemma {:induction false} AfterFirstOne(first: int, rest: string)
    requires rest != [] && rest[0] == '-' ==> !BeginsWithInt(rest[1..])
    ensures AfterFirst(first, rest) == OneField(first)
  {
    if rest != [] && rest[0] == '-' {
      ScanIntSucceedsIff(rest, 1);
    }
  }

  /** "%d-%d" reads two numbers from `ws1 S - ws2 E tail` when no digit follows E. */
  lemma {:induction false} ScanRangeTwo(ws1: string, s: int, ws2: string, e: int, tail: string)
    requires AllSpace(ws1) && AllSpace(ws2) && (tail == [] || !IsDigit(tail[0]))
    ensures ScanRange(ws1 + IntText(s) + "-" + ws2 + IntText(e) + tail) == TwoFields(s, e)
  {
    var pre := ws1 + IntText(s);
    var rest := "-" + (ws2 + IntText(e) + tail);
    var t := ws1 + IntText(s) + "-" + ws2 + IntText(e) + tail;
    assert t == pre + rest;
    var p := |pre|;
    assert t[..p] == pre;
    DropPrefix(pre, rest);
    ScanIntReadsPrefix(t, ws1, s, p);
    AfterFirstTwo(s, ws2, e, tail);
  }

  /**
    "%d-%d" reads one number from `ws S tail` when what follows S is not a
    `-` and an integer.
   */
  lemma {:induction false} ScanRangeOne(ws: string, s: int, tail: string)
    requires AllSpace(ws) && (tail == [] || !IsDigit(tail[0]))
    requires tail != [] && tail[0] == '-' ==> !BeginsWithInt(tail[1..])
    ensures ScanRange(ws + IntText(s) + tail) == OneField(s)
  {
    var pre := ws + IntText(s);
    var t := pre + tail;
    var p := |pre|;
    assert t[..p] == pre;
    DropPrefix(pre, tail);
    if p < |t| {
      assert t[p] == tail[0];
    }
    ScanIntReadsPrefix(t, ws, s, p);
    AfterFirstOne(s, tail);
  }
}
