/**
  NUL-terminated character buffers as C sees them: the string a buffer
  holds, and `strncpy` into a fixed-size buffer.
 */
module CStrings {

  const NUL: char := '\0'

  /** The C string held by `buf`: every character before the first NUL. */
  function CStr(buf: seq<char>): (s: string)
    ensures |s| <= |buf| && s == buf[..|s|]
    ensures NUL !in s
    ensures |s| < |buf| ==> buf[|s|] == NUL
  {
    if buf == [] || buf[0] == NUL then [] else [buf[0]] + CStr(buf[1..])
  }

  /** At most the first `n` characters of `s`. */
  function Truncate(s: string, n: nat): (t: string)
    ensures |t| <= n && t <= s
    ensures |s| <= n ==> t == s
  {
    if |s| <= n then s else s[..n]
  }

  /**
    The buffer `strncpy(dst, src, n)` leaves behind when `src` is a C
    string: the first `n` cells hold `src` padded with NUL, the rest of
    `dst` is untouched.
   */
  function StrNCpy(dst: seq<char>, src: string, n: nat): (r: seq<char>)
    requires n <= |dst|
    ensures |r| == |dst| && r[n..] == dst[n..]
  {
    seq(|dst|, k requires 0 <= k < |dst| => if k < n then (if k < |src| then src[k] else NUL) else dst[k])
  }

  /** A buffer that starts with a NUL-free text followed by a NUL holds exactly that text. */
  lemma {:induction false} CStrOfTerminated(buf: seq<char>, text: string)
    requires NUL !in text && |text| < |buf| && buf[..|text|] == text && buf[|text|] == NUL
    ensures CStr(buf) == text
  {
  }

  /**
    Copying a C string with `strncpy(dst, src, n)` into a buffer whose cell
    `n` is NUL leaves the buffer holding `src` cut to `n` characters, and
    leaves the cells from `n` on as they were.
   */
  lemma {:induction false} StrNCpyHolds(dst: seq<char>, src: string, n: nat)
    requires n < |dst| && dst[n] == NUL && NUL !in src
    ensures CStr(StrNCpy(dst, src, n)) == Truncate(src, n)
    ensures StrNCpy(dst, src, n)[n..] == dst[n..]
  {
    var r := StrNCpy(dst, src, n);
    var t := Truncate(src, n);
    assert r[..|t|] == t;
    assert NUL !in t by {
      forall k | 0 <= k < |t| ensures t[k] != NUL {
        assert t[k] == src[k];
        assert src[k] in src;
      }
    }
    CStrOfTerminated(r, t);
  }

  /** `strncpy(dst, src, n)` on a buffer, one cell at a time. */
  method StrNCopy(dst: array<char>, src: string, n: nat)
    requires n <= dst.Length && NUL !in src
    modifies dst
    ensures dst[..] == StrNCpy(old(dst[..]), src, n)
  {
    var i := 0;
    while i < n
      invariant 0 <= i <= n
      invariant forall k :: 0 <= k < i ==> dst[k] == (if k < |src| then src[k] else NUL)
      invariant forall k :: i <= k < dst.Length ==> dst[k] == old(dst[k])
    {
      dst[i] := if i < |src| then src[i] else NUL;
      i := i + 1;
    }
  }
}
