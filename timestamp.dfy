/**
 * The timestamp of an error-log line: `ctime`'s text is copied into a
 * 256-character buffer with `strncpy`, the first line break in the buffer is
 * overwritten with a NUL in place, and the buffer is printed with `%s`.
 */
module Timestamp {
  import opened Wrappers

  /** `sizeof(timestamp)`. */
  const TimestampSize := 256

  predicate IsLineBreak(c: char) { c == '\n' || c == '\r' }

  /**
   * What `%s` prints of a character buffer: everything before its first NUL
   * (the whole buffer when it has none).
   */
  function CString(s: seq<char>): (r: seq<char>)
    ensures r <= s
    ensures '\0' !in r
    ensures |r| < |s| ==> s[|r|] == '\0'
  {
    if s == [] || s[0] == '\0' then [] else [s[0]] + CString(s[1..])
  }

  /**
   * The buffer `strncpy(dst, src, n)` leaves: the C string of `src`, cut to
   * `n` characters and padded with NULs up to `n`.
   */
  function StrncpyImage(src: seq<char>, n: nat): (r: seq<char>)
    ensures |r| == n
    ensures forall k :: 0 <= k < n && k < |CString(src)| ==> r[k] == src[k]
    ensures forall k :: |CString(src)| <= k < n ==> r[k] == '\0'
  {
    var c := CString(src);
    if |c| >= n then c[..n] else c + seq(n - |c|, _ => '\0')
  }

  /** The index of the first CR or LF of `s`, if it has one. */
  function FirstLineBreak(s: seq<char>): (r: Option<nat>)
    ensures r.Some? ==> r.value < |s| && IsLineBreak(s[r.value])
    ensures r.Some? ==> forall j :: 0 <= j < r.value ==> !IsLineBreak(s[j])
    ensures r.None? <==> forall j :: 0 <= j < |s| ==> !IsLineBreak(s[j])
  {
    if s == [] then None
    else if IsLineBreak(s[0]) then Some(0)
    else match FirstLineBreak(s[1..])
      case None => None
      case Some(i) => Some(i + 1)
  }

  /** The buffer after the trimming loop: its first CR or LF becomes NUL. */
  function Trimmed(s: seq<char>): seq<char>
  {
    match FirstLineBreak(s)
    case None => s
    case Some(i) => s[i := '\0']
  }

  /**
   * The trimming loop of `error_logger::handle_alert`. It scans the whole
   * buffer, not stopping at an earlier NUL, and stops after the first
   * line break it rewrites.
   */
  method TrimTimestamp(timestamp: array<char>)
    modifies timestamp
    ensures timestamp[..] == Trimmed(old(timestamp[..]))
  {
    for i := 0 to timestamp.Length
      invariant timestamp[..] == old(timestamp[..])
      invariant forall j :: 0 <= j < i ==> !IsLineBreak(timestamp[j])
    {
      if timestamp[i] != '\n' && timestamp[i] != '\r' {
        continue;
      }
      timestamp[i] := '\0';
      break;
    }
  }

  /** The timestamp text a log line starts with, given what `ctime` returned. */
  function TimestampText(now: string): string
  {
    CString(Trimmed(StrncpyImage(now, TimestampSize)))
  }

  /**
   * Trimming touches at most one character: the first CR or LF, which
   * becomes NUL. A buffer without CR or LF comes back unchanged.
   */
  lemma TrimmedChangesOnlyFirstBreak(s: seq<char>)
    ensures |Trimmed(s)| == |s|
    ensures FirstLineBreak(s).None? ==> Trimmed(s) == s
    ensures FirstLineBreak(s).Some? ==>
      var i := FirstLineBreak(s).value;
      Trimmed(s)[i] == '\0' && IsLineBreak(s[i]) &&
      (forall j :: 0 <= j < i ==> !IsLineBreak(s[j])) &&
      (forall j :: 0 <= j < |s| && j != i ==> Trimmed(s)[j] == s[j])
  {
  }

  /** A printed timestamp never contains a CR or LF. */
  lemma TimestampHasNoLineBreak(now: string)
    ensures forall k :: 0 <= k < |TimestampText(now)| ==> !IsLineBreak(TimestampText(now)[k])
  {
    var buf := StrncpyImage(now, TimestampSize);
    var t := Trimmed(buf);
    var r := CString(t);
    match FirstLineBreak(buf)
    case None =>
    case Some(i) =>
      assert t[i] == '\0';
      forall k | 0 <= k < |r| ensures !IsLineBreak(r[k]) {
        assert r[k] == t[k] == buf[k];
      }
  }

  /**
   * For `ctime`'s usual text, a line ending in a newline, the timestamp is
   * that line without its newline.
   */
  lemma {:induction false} TimestampOfCtimeLine(line: string)
    requires |line| < TimestampSize
    requires forall k :: 0 <= k < |line| ==> line[k] != '\0' && !IsLineBreak(line[k])
    ensures TimestampText(line + "\n") == line
  {
    var now := line + "\n";
    CStringWithoutNul(now);
    var buf := StrncpyImage(now, TimestampSize);
    assert FirstLineBreak(buf) == Some(|line|) by {
      assert IsLineBreak(buf[|line|]);
      forall j | 0 <= j < |line| ensures !IsLineBreak(buf[j]) { assert buf[j] == line[j]; }
    }
    var t := Trimmed(buf);
    assert t[..|line|] == line;
    assert t[|line|] == '\0';
    CStringAtNul(t, |line|);
  }

  /** The C string of a sequence without NUL is the whole sequence. */
  lemma {:induction false} CStringWithoutNul(s: seq<char>)
    requires '\0' !in s
    ensures CString(s) == s
  {
    if s != [] {
      CStringWithoutNul(s[1..]);
    }
  }

  /** The C string of `s` stops at a NUL preceded by none. */
  lemma CStringAtNul(s: seq<char>, i: nat)
    requires i < |s| && s[i] == '\0' && '\0' !in s[..i]
    ensures CString(s) == s[..i]
  {
    var r := CString(s);
  }
}
