/**
  Validation and normalisation of the relative file paths Hermes reports.
 */
module FilePathSafety {
  import opened Wrappers
  import opened Lines

  const MAX_PATH_LENGTH := 1024

  predicate IsSeparator(c: char) { c == '/' || c == '\\' }

  predicate IsDriveLetter(c: char) { 'A' <= c <= 'Z' || 'a' <= c <= 'z' }

  function Lower(c: char): char {
    if 'A' <= c <= 'Z' then c + ('a' - 'A') else c
  }

  function LowerAll(s: string): string {
    seq(|s|, i requires 0 <= i < |s| => Lower(s[i]))
  }

  /** `path.posix.isAbsolute`. */
  predicate PosixAbsolute(p: string) { |p| > 0 && p[0] == '/' }

  /** `path.win32.isAbsolute`: a separator first, or a drive letter, a colon and a separator. */
  predicate Win32Absolute(p: string) {
    |p| > 0 && (IsSeparator(p[0]) || (|p| > 2 && IsDriveLetter(p[0]) && p[1] == ':' && IsSeparator(p[2])))
  }

  /** The pattern `^[A-Za-z]:|^\\\\`. */
  predicate DriveOrUnc(p: string) {
    |p| > 1 && ((IsDriveLetter(p[0]) && p[1] == ':') || (p[0] == '\\' && p[1] == '\\'))
  }

  /** Backslashes become slashes; splitting on either separator is splitting this on slashes. */
  function Slashed(p: string): (r: string)
    ensures |r| == |p|
    ensures forall i :: 0 <= i < |p| ==> r[i] == if p[i] == '\\' then '/' else p[i]
  {
    seq(|p|, i requires 0 <= i < |p| => if p[i] == '\\' then '/' else p[i])
  }

  function Segments(p: string): seq<string> {
    Split(Slashed(p), '/')
  }

  predicate BadSegment(segment: string) {
    |segment| == 0 || segment == "." || segment == ".." || LowerAll(segment) == ".git"
  }

  function Parse(p: string): Option<string> {
    if |p| == 0 || |p| > MAX_PATH_LENGTH || '\0' in p || PosixAbsolute(p) || Win32Absolute(p) || DriveOrUnc(p) then None
    else
      var segments := Segments(p);
      if exists i :: 0 <= i < |segments| && BadSegment(segments[i]) then None
      else Some(Join(segments, '/'))
  }

  ghost predicate CleanSegments(p: string) {
    forall i :: 0 <= i < |Segments(p)| ==> !BadSegment(Segments(p)[i])
  }

  /**
    Exactly which paths pass, and as what: bounded, free of NUL, without a drive prefix, every
    segment an ordinary name; the result is the path itself with slashes for backslashes. The
    separate tests for absolute paths add nothing to this.
   */
  lemma ParseExactly(p: string)
    ensures Parse(p) ==
            if |p| <= MAX_PATH_LENGTH && '\0' !in p && !(|p| > 1 && IsDriveLetter(p[0]) && p[1] == ':') && CleanSegments(p)
            then Some(Slashed(p)) else None
  {
    hide Split;
    SplitThenJoin(Slashed(p), '/');
    if |p| == 0 {
      SplitOnePiece(Slashed(p), '/');
      assert BadSegment(Segments(p)[0]);
    } else if IsSeparator(p[0]) {
      LeadingSlash(Slashed(p));
      assert BadSegment(Segments(p)[0]);
    }
  }

  lemma LeadingSlash(s: string)
    requires |s| > 0 && s[0] == '/'
    ensures Split(s, '/')[0] == ""
  {
  }

  /** Normalising twice is normalising once. */
  lemma ParseIsIdempotent(p: string)
    requires Parse(p).Some?
    ensures Parse(Parse(p).value) == Parse(p)
  {
    hide Split;
    var r := Parse(p).value;
    ParseExactly(p);
    ParseExactly(r);
    assert Slashed(r) == r;
    forall i | 0 <= i < |r| ensures r[i] != '\0' { assert p[i] != '\0'; }
  }

  /** How a file system walks a path: empty and `.` segments stay, `..` goes up, any other goes down. */
  function Walk(dir: seq<string>, segments: seq<string>): seq<string>
    decreases |segments|
  {
    if segments == [] then dir
    else
      var s := segments[0];
      Walk(if s == "" || s == "." then dir
           else if s == ".." then (if dir == [] then [] else dir[..|dir| - 1])
           else dir + [s],
           segments[1..])
  }

  lemma {:induction false} WalkDown(dir: seq<string>, segments: seq<string>)
    requires forall i :: 0 <= i < |segments| ==> !BadSegment(segments[i])
    ensures Walk(dir, segments) == dir + segments
    decreases |segments|
  {
    if segments == [] {
      assert dir + segments == dir;
    } else {
      WalkDown(dir + [segments[0]], segments[1..]);
      assert dir + [segments[0]] + segments[1..] == dir + segments;
    }
  }

  /**
    Confinement: from any directory, walking an accepted path, or any leading part of it, only goes
    down, and its end is strictly below the start and outside any `.git`.
   */
  lemma AcceptedPathsStayInside(p: string, dir: seq<string>, k: nat)
    requires Parse(p).Some? && k <= |Segments(Parse(p).value)|
    ensures var segments := Segments(Parse(p).value);
            && Walk(dir, segments[..k]) == dir + segments[..k]
            && 0 < |segments| && Walk(dir, segments) == dir + segments
            && forall i :: 0 <= i < |segments| ==> LowerAll(segments[i]) != ".git"
  {
    hide Split;
    ParseExactly(p);
    assert Slashed(Slashed(p)) == Slashed(p);
    var segments := Segments(Slashed(p));
    WalkDown(dir, segments[..k]);
    WalkDown(dir, segments);
  }
}
