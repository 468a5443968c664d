/** C strings and fixed-size character buffers. A `char` stands for one byte. */
module CStrings {

  const NUL := '\0'
  const INT_MAX := 0x7fff_ffff
  const INT_MIN := -0x8000_0000

  /** A string that a NUL-terminated `char *` can hold. */
  type CStr = s: string | NUL !in s witness ""

  /** The value of the cast `(int)n` of an unsigned count on a 32-bit two's complement `int`. */
  function AsInt32(n: nat): (r: int)
    ensures INT_MIN <= r <= INT_MAX && r <= n
    ensures r == n <==> n <= INT_MAX
  {
    var low := n % 0x1_0000_0000;
    if low <= INT_MAX then low else low - 0x1_0000_0000
  }

  /** It is the only value of a 32-bit `int` that differs from the count by a multiple of 2 to the 32. */
  lemma AsInt32Exactly(n: nat, r: int)
    ensures r == AsInt32(n) <==> -2_147_483_648 <= r <= 2_147_483_647 && (n - r) % 4_294_967_296 == 0
  {
  }

  /** `isspace` in the C locale. */
  predicate IsSpace(c: char) {
    c == ' ' || c == '\t' || c == '\n' || c == '\U{0B}' || c == '\U{0C}' || c == '\r'
  }

  lemma IsSpaceExactly(c: char)
    ensures IsSpace(c) <==> c == 32 as char || 9 as char <= c <= 13 as char
  {
  }

  ghost predicate AllSpaces(s: string) {
    forall c | c in s :: IsSpace(c)
  }

  /** Length of the white space at the start of a string. */
  function SpaceRun(s: string): (n: nat)
    ensures n <= |s| && AllSpaces(s[..n]) && (n < |s| ==> !IsSpace(s[n]))
  {
    if s == "" || !IsSpace(s[0]) then 0 else
    var n := 1 + SpaceRun(s[1..]);
    assert s[..n] == [s[0]] + s[1..][..n - 1];
    n
  }

  lemma SpaceRunEnds(s: string, n: nat)
    requires n <= |s| && AllSpaces(s[..n]) && (n < |s| ==> !IsSpace(s[n]))
    ensures SpaceRun(s) == n
  {
  }

  function Truncated(s: string, n: nat): (t: string)
    ensures t <= s && |t| == if |s| < n then |s| else n
  {
    if |s| <= n then s else s[..n]
  }

  function Zeros(n: nat): (z: seq<char>)
    ensures |z| == n && forall i | 0 <= i < n :: z[i] == NUL
  {
    seq(n, _ => NUL)
  }

  /** What a zeroed buffer of `size` bytes holds after
      `strncpy(buf, src, size - 1); buf[size - 1] = '\0'` (section 7.24.2.4 of C11). */
  function BufferOf(src: CStr, size: nat): (b: seq<char>)
    requires size > 0
    ensures |b| == size && b[size - 1] == NUL
  {
    Truncated(src, size - 1) + Zeros(size - |Truncated(src, size - 1)|)
  }

  /** The C string that starts at the beginning of a buffer. */
  function ReadBack(buffer: seq<char>): (s: string) {
    if buffer == [] || buffer[0] == NUL then "" else [buffer[0]] + ReadBack(buffer[1..])
  }

  /** It ends before the first NUL. */
  lemma {:induction false} ReadBackExactly(buffer: seq<char>)
    ensures ReadBack(buffer) <= buffer && '\0' !in ReadBack(buffer)
    ensures |ReadBack(buffer)| < |buffer| ==> buffer[|ReadBack(buffer)|] == '\0'
  {
    if buffer != [] && buffer[0] != NUL {
      ReadBackExactly(buffer[1..]);
    }
  }

  lemma {:induction false} ReadBackStops(s: CStr, rest: seq<char>)
    requires rest != [] && rest[0] == NUL
    ensures ReadBack(s + rest) == s
  {
    if s == [] {
      assert s + rest == rest;
    } else {
      var tail: CStr := s[1..];
      assert (s + rest)[1..] == tail + rest;
      ReadBackStops(tail, rest);
    }
  }

  /** Reading a filled buffer back gives the longest prefix of the source that leaves room
      for the terminator, and everything after it is zero. */
  lemma BufferReadsBack(src: CStr, size: nat)
    requires size > 0
    ensures ReadBack(BufferOf(src, size)) == Truncated(src, size - 1)
    ensures ReadBack(BufferOf(src, size)) == src[..if |src| < size then |src| else size - 1]
    ensures forall i | |Truncated(src, size - 1)| <= i < size :: BufferOf(src, size)[i] == NUL
    ensures |src| < size ==> ReadBack(BufferOf(src, size)) == src
  {
    var t: CStr := Truncated(src, size - 1);
    ReadBackStops(t, Zeros(size - |t|));
  }

  method FillBuffer(buf: array<char>, src: CStr)
    requires buf.Length > 0
    modifies buf
    ensures buf[..] == BufferOf(src, buf.Length)
  {
    var n := buf.Length - 1;
    var i := 0;
    while i < n && i < |src|
      invariant 0 <= i <= n && i <= |src|
      invariant buf[..i] == src[..i]
    {
      buf[i] := src[i];
      i := i + 1;
    }
    var copied := i;
    while i < n
      invariant copied <= i <= n
      invariant buf[..copied] == src[..copied]
      invariant forall k | copied <= k < i :: buf[k] == NUL
    {
      buf[i] := NUL;
      i := i + 1;
    }
    buf[n] := NUL;
    assert src[..copied] == Truncated(src, n);
    assert forall k | 0 <= k < copied :: buf[k] == buf[..copied][k];
  }
}
