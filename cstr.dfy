/** `copyToCStr` (src/client/wrap.h:52-61): copies a string into a caller-owned
    character buffer of a given size, always NUL-terminates it when the size is not
    zero, and reports the size the whole string needs. The copy is `strncpy`, which
    stops at the string's first NUL and pads the rest of the buffer with NULs. */
module CStr {

  const Nul: char := '\0'

  /** What `str.c_str()` denotes as a C string: the characters before the first NUL. */
  function CString(s: string): (c: string)
    ensures |c| <= |s| && c == s[..|c|]
    ensures Nul !in c
    ensures |c| < |s| ==> s[|c|] == Nul
    ensures Nul !in s ==> c == s
  {
    if s == [] || s[0] == Nul then [] else [s[0]] + CString(s[1..])
  }

  /** The `n` characters `strncpy(dst, src.c_str(), n)` stores: the C string of `src`
      while it lasts, NULs after it; nothing marks the end when it does not fit. */
  function Strncpy(src: string, n: nat): (r: string)
    ensures |r| == n
    ensures n <= |CString(src)| ==> r == CString(src)[..n]
    ensures n > |CString(src)| ==> r[..|CString(src)|] == CString(src) && forall i :: |CString(src)| <= i < n ==> r[i] == Nul
  {
    var c := CString(src);
    seq(n, i requires 0 <= i < n => if i < |c| then c[i] else Nul)
  }

  /** The first `size` characters of the buffer after `copyToCStr`: `strncpy` with the
      last one overwritten by a NUL. */
  function Terminated(str: string, size: nat): string
    requires size > 0
  {
    Strncpy(str, size)[..size - 1] + [Nul]
  }

  /** Copies `str` into `cstr[..cstrSize]` and returns the size needed for the whole
      string with its terminator. A size of zero leaves the buffer untouched; beyond
      `cstrSize` nothing is written. */
  method CopyToCStr(str: string, cstr: array<char>, cstrSize: nat) returns (neededSize: nat)
    requires cstrSize <= cstr.Length
    modifies cstr
    ensures neededSize == |str| + 1
    ensures cstrSize == 0 ==> cstr[..] == old(cstr[..])
    ensures cstrSize > 0 ==> cstr[..cstrSize] == Terminated(str, cstrSize)
    ensures cstr[cstrSize..] == old(cstr[cstrSize..])
  {
    if cstrSize > 0 {
      // strncpy: copy up to the first NUL, then pad with NULs up to cstrSize
      var c := CString(str);
      var i := 0;
      var ended := false;
      while i < cstrSize
        invariant 0 <= i <= cstrSize
        invariant ended <==> i > |c|
        invariant forall k :: 0 <= k < i ==> cstr[k] == Strncpy(str, cstrSize)[k]
        invariant forall k :: cstrSize <= k < cstr.Length ==> cstr[k] == old(cstr[k])
      {
        var ch := if i < |str| then str[i] else Nul;
        if !ended && ch != Nul {
          cstr[i] := ch;
        } else {
          ended := true;
          cstr[i] := Nul;
        }
        i := i + 1;
      }
      cstr[cstrSize - 1] := Nul;
      assert cstr[..cstrSize] == Terminated(str, cstrSize);
    }
    neededSize := |str| + 1;
  }

  /** Within the buffer, the copy agrees with the string up to the last slot, which is
      NUL; for a string without NULs that is every position below min(|str|, size - 1). */
  lemma TerminatedContents(str: string, size: nat)
    requires size > 0
    ensures |Terminated(str, size)| == size
    ensures Terminated(str, size)[size - 1] == Nul
    ensures Nul !in str ==> forall i :: 0 <= i < size - 1 && i < |str| ==> Terminated(str, size)[i] == str[i]
  {
  }

  /** The C string of `a`, a NUL, and anything after is `a` when `a` has no NUL. */
  lemma {:induction false} CStringStopsAtNul(a: string, rest: string)
    requires Nul !in a
    ensures CString(a + [Nul] + rest) == a
    decreases |a|
  {
    if a != [] {
      assert (a + [Nul] + rest)[1..] == a[1..] + [Nul] + rest;
      CStringStopsAtNul(a[1..], rest);
    }
  }

  /** Round trip: a buffer large enough for a NUL-free string reads back, as a C string,
      exactly that string, and everything from its end to the end of the buffer is NUL. */
  lemma RoundTrip(str: string, size: nat)
    requires Nul !in str && size >= |str| + 1
    ensures CString(Terminated(str, size)) == str
    ensures forall i :: |str| <= i < size ==> Terminated(str, size)[i] == Nul
  {
    var t := Terminated(str, size);
    assert t == str + [Nul] + t[|str| + 1..];
    CStringStopsAtNul(str, t[|str| + 1..]);
  }

  /** A buffer too small for a NUL-free string reads back as its first `size - 1`
      characters, and the needed size the caller gets back exceeds the size it gave. */
  lemma Truncation(str: string, size: nat)
    requires Nul !in str && 0 < size <= |str|
    ensures CString(Terminated(str, size)) == str[..size - 1]
    ensures |str| + 1 > size
  {
    var t := Terminated(str, size);
    assert t == str[..size - 1] + [Nul] + [];
    CStringStopsAtNul(str[..size - 1], []);
  }
}
