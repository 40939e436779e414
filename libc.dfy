/** The parts of the C library that rdtset/cpu.c relies on, modelled on
    character sequences: `isblank` in the C locale, the terminating NUL of a
    C string, `snprintf` with its truncation rule, and `EINVAL`. */
module LibC {

  /** `EINVAL` from <errno.h>; the value is 22 on both Linux and FreeBSD. */
  const EINVAL: int := 22

  /** The NUL character that terminates every C string. */
  const NUL: char := '\0'

  /** The characters of a C string, that is, everything before its terminator. */
  type CString = s: string | NUL !in s

  /** `isblank` in the C locale: space and horizontal tab, nothing else. The
      terminator is not a blank, so a loop that skips blanks stops at the end
      of a C string. */
  predicate IsBlank(c: char)
    ensures IsBlank(c) ==> c != NUL
  {
    c == ' ' || c == '\t'
  }

  /** What `strlen` and every consumer of a C string see in a buffer: the
      characters before the first NUL. */
  function CStringIn(buf: seq<char>): (r: string)
    ensures |r| <= |buf| && r == buf[..|r|]
    ensures NUL !in r
    ensures |r| < |buf| ==> buf[|r|] == NUL
    ensures NUL in buf ==> |r| < |buf|
  {
    if buf == [] || buf[0] == NUL then []
    else [buf[0]] + CStringIn(buf[1..])
  }

  /** A C string stored with its terminator reads back as itself. */
  lemma {:induction false} CStringInTerminated(s: string)
    requires NUL !in s
    ensures CStringIn(s + [NUL]) == s
  {
    if s != [] {
      assert (s + [NUL])[1..] == s[1..] + [NUL];
      CStringInTerminated(s[1..]);
    }
  }

  /** What `snprintf(buf, size, fmt, ...)` leaves behind: the bytes it stored
      (the output, cut to `size - 1` characters, and a NUL; nothing at all
      when `size` is 0) and its return value, the length of the whole output. */
  datatype Formatted = Formatted(written: seq<char>, returned: nat)

  /** `snprintf` into a buffer of `size` bytes, with `rendered` the complete
      expansion of the format string and its arguments. */
  function Snprintf(size: nat, rendered: string): (f: Formatted)
    ensures f.returned == |rendered|
    ensures |f.written| <= size
    ensures size > 0 ==> |f.written| > 0 && f.written[|f.written| - 1] == NUL
    ensures size > 0 ==> f.written[..|f.written| - 1] <= rendered
    ensures f.written == rendered + [NUL] <==> f.returned < size
  {
    if size == 0 then Formatted([], |rendered|)
    else if |rendered| < size then Formatted(rendered + [NUL], |rendered|)
    else Formatted(rendered[..size - 1] + [NUL], |rendered|)
  }
}
