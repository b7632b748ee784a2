/** NUL-terminated character buffers as the firmware's string routines see them
    (strcmp, strncpy, isprint).  A character stands for one byte of a buffer. */
module CStrings {

  const Nul: char := '\0'

  /** The C string stored at the start of buffer `b`: every character before the
      first NUL, or the whole buffer when it holds none. */
  function CStr(b: seq<char>): (s: seq<char>)
    ensures |s| <= |b| && s == b[..|s|]
    ensures Nul !in s
    ensures |s| < |b| ==> b[|s|] == Nul
  {
    if |b| == 0 || b[0] == Nul then [] else [b[0]] + CStr(b[1..])
  }

  /** The three facts of CStr's contract pin the string down: a NUL-free prefix that
      stops at a NUL (or at the end of the buffer) is the C string. */
  lemma CStrUnique(b: seq<char>, k: nat)
    requires k <= |b| && Nul !in b[..k]
    requires k == |b| || b[k] == Nul
    ensures CStr(b) == b[..k]
  {
  }

  /** A NUL-free text followed by a terminator reads back as itself. */
  lemma CStrOfTerminated(text: seq<char>, rest: seq<char>)
    requires Nul !in text
    ensures CStr(text + [Nul] + rest) == text
  {
    var b := text + [Nul] + rest;
    assert b[..|text|] == text;
    CStrUnique(b, |text|);
  }

  /** isprint() in the C locale: the ASCII range from space to tilde. */
  predicate IsPrint(c: char) {
    ' ' <= c <= '~'
  }

  /** The replacement set_name makes for one character. */
  function Printable(c: char): char {
    if IsPrint(c) then c else '.'
  }

  /** Reference definition: the text with every non-printable character replaced by '.'. */
  function Sanitize(s: seq<char>): (r: seq<char>)
    ensures |r| == |s|
    ensures forall i :: 0 <= i < |r| ==> IsPrint(r[i])
    ensures forall i :: 0 <= i < |r| ==> (r[i] == s[i] <==> IsPrint(s[i]))
  {
    seq(|s|, i requires 0 <= i < |s| => Printable(s[i]))
  }

  /** The in-place loop of set_name: rewrites the characters of the C string at the
      start of `b` and leaves the terminator and everything after it alone. */
  function SanitizeInPlace(b: seq<char>): (r: seq<char>)
    ensures |r| == |b|
    ensures forall i :: 0 <= i < |CStr(b)| ==> r[i] == Printable(b[i])
    ensures forall i :: |CStr(b)| <= i < |b| ==> r[i] == b[i]
  {
    if |b| == 0 || b[0] == Nul then b else [Printable(b[0])] + SanitizeInPlace(b[1..])
  }

  /** After the in-place loop the buffer holds exactly the sanitized C string. */
  lemma {:induction false} SanitizeInPlaceReads(b: seq<char>)
    ensures CStr(SanitizeInPlace(b)) == Sanitize(CStr(b))
  {
    var r := SanitizeInPlace(b);
    var k := |CStr(b)|;
    assert r[..k] == Sanitize(CStr(b));
    forall c | c in r[..k] ensures c != Nul {
      var i :| 0 <= i < k && r[..k][i] == c;
      assert IsPrint(Sanitize(CStr(b))[i]);
    }
    CStrUnique(r, k);
  }

  /** strncpy(dst, s, n) followed by dst[n-1] = 0, where `s` is the C string read from
      the source buffer: copies at most n-1 characters and pads with NULs. */
  function CopyTerminated(s: seq<char>, n: nat): (dst: seq<char>)
    requires n >= 1
    ensures |dst| == n && dst[n - 1] == Nul
    ensures Nul !in s ==> CStr(dst) == s[..Min(|s|, n - 1)]
  {
    var dst := seq(n, i requires 0 <= i < n => if i < n - 1 && i < |s| then s[i] else Nul);
    if Nul !in s then
      var k := Min(|s|, n - 1);
      assert forall i :: 0 <= i < k ==> dst[i] == s[i];
      assert dst[..k] == s[..k];
      assert Nul !in dst[..k] by {
        forall c | c in dst[..k] ensures c != Nul {
          var i :| 0 <= i < k && dst[..k][i] == c;
          assert s[i] in s;
        }
      }
      CStrUnique(dst, k);
      dst
    else
      dst
  }

  function Min(a: nat, b: nat): nat {
    if a < b then a else b
  }
}
