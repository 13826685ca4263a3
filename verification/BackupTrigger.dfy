/** Locating the archive a backup run produced from the run's printed output
    (`get_latest_backup_file` in app/services/backup_trigger.py). Whether a path exists and
    whether it is a regular file are oracle predicates. */
module BackupTrigger {
  import opened Util

  const SNAPSHOT_MARKER := "New AOS snapshot:"
  const SNAPSHOT_ROOT := "var/lib/aos/snapshot/"

  // ---------------------------------------------------------------------------------
  // str.splitlines()
  // ---------------------------------------------------------------------------------

  /** The line boundaries of `str.splitlines()`. */
  predicate IsLineBreak(c: char) {
    || c == '\n' || c == '\r' || c == '\U{0B}' || c == '\U{0C}'
    || c == '\U{1C}' || c == '\U{1D}' || c == '\U{1E}'
    || c == '\U{85}' || c == '\U{2028}' || c == '\U{2029}'
  }

  /** The length of the first line: the characters before the first boundary. */
  function LineLength(s: string): (n: nat)
    ensures n <= |s|
    ensures forall i :: 0 <= i < n ==> !IsLineBreak(s[i])
    ensures n < |s| ==> IsLineBreak(s[n])
    decreases |s|
  {
    if s == [] || IsLineBreak(s[0]) then 0 else 1 + LineLength(s[1..])
  }

  /** A boundary is one character, except `\r\n`, which is one boundary of two. */
  function BreakWidth(s: string, n: nat): (w: nat)
    requires n < |s|
    ensures 1 <= w && n + w <= |s|
  {
    if s[n] == '\r' && n + 1 < |s| && s[n + 1] == '\n' then 2 else 1
  }

  /** `s.splitlines()`: the lines without their boundaries; a final boundary does not start
      an empty last line. */
  function SplitLines(s: string): (lines: seq<string>)
    ensures lines == [] <==> s == []
    ensures forall k :: 0 <= k < |lines| ==> forall c :: c in lines[k] ==> !IsLineBreak(c)
    decreases |s|
  {
    if s == [] then []
    else
      var n := LineLength(s);
      if n == |s| then [s]
      else [s[..n]] + SplitLines(s[n + BreakWidth(s, n)..])
  }

  /** `brk` is one whole boundary in front of `rest`: `\r\n`, or a single boundary
      character that is not a `\r` followed by `\n`. */
  predicate IsBoundary(brk: string, rest: string) {
    || brk == "\r\n"
    || (|brk| == 1 && IsLineBreak(brk[0]) && !(brk[0] == '\r' && rest != [] && rest[0] == '\n'))
  }

  /** The first line of a text is what precedes its first boundary. */
  lemma {:induction false} LineLengthOfLine(line: string, t: string)
    requires forall i :: 0 <= i < |line| ==> !IsLineBreak(line[i])
    requires t == [] || IsLineBreak(t[0])
    ensures LineLength(line + t) == |line|
    decreases |line|
  {
    if line == [] {
      assert line + t == t;
    } else {
      assert (line + t)[1..] == line[1..] + t;
      LineLengthOfLine(line[1..], t);
    }
  }

  /** Lines split exactly at the boundaries: a line, one boundary and the rest split as
      that line followed by the lines of the rest. */
  lemma SplitLinesAtBoundary(line: string, brk: string, rest: string)
    requires forall i :: 0 <= i < |line| ==> !IsLineBreak(line[i])
    requires IsBoundary(brk, rest)
    ensures SplitLines(line + brk + rest) == [line] + SplitLines(rest)
  {
    var s := line + brk + rest;
    assert s == line + (brk + rest);
    LineLengthOfLine(line, brk + rest);
    var n := |line|;
    assert s[..n] == line;
    assert s[n..] == brk + rest;
    assert BreakWidth(s, n) == |brk|;
    assert s[n + |brk|..] == rest;
  }

  /** A non-empty text without boundaries is one line. */
  lemma SplitLinesOfLine(line: string)
    requires line != []
    requires forall i :: 0 <= i < |line| ==> !IsLineBreak(line[i])
    ensures SplitLines(line) == [line]
  {
    LineLengthOfLine(line, []);
    assert line + [] == line;
  }

  /** The characters of `s` that are not line boundaries, in order. */
  function WithoutBreaks(s: string): string
    decreases |s|
  {
    if s == [] then []
    else (if IsLineBreak(s[0]) then [] else [s[0]]) + WithoutBreaks(s[1..])
  }

  lemma {:induction false} WithoutBreaksAppend(a: string, b: string)
    ensures WithoutBreaks(a + b) == WithoutBreaks(a) + WithoutBreaks(b)
    decreases |a|
  {
    if a != [] {
      assert (a + b)[1..] == a[1..] + b;
      WithoutBreaksAppend(a[1..], b);
    } else {
      assert a + b == b;
    }
  }

  lemma {:induction false} WithoutBreaksOfBreaks(s: string)
    requires forall c :: c in s ==> IsLineBreak(c)
    ensures WithoutBreaks(s) == []
    decreases |s|
  {
    if s != [] {
      assert s[0] in s;
      WithoutBreaksOfBreaks(s[1..]);
    }
  }

  lemma {:induction false} WithoutBreaksOfLine(s: string)
    requires forall c :: c in s ==> !IsLineBreak(c)
    ensures WithoutBreaks(s) == s
    decreases |s|
  {
    if s != [] {
      assert s[0] in s;
      WithoutBreaksOfLine(s[1..]);
    }
  }

  function Concat(lines: seq<string>): string
    decreases |lines|
  {
    if lines == [] then "" else lines[0] + Concat(lines[1..])
  }

  /** Splitting loses only the boundaries: the lines, put back together, are the text with
      its boundaries taken out. */
  lemma {:induction false} SplitLinesLosesOnlyBreaks(s: string)
    ensures Concat(SplitLines(s)) == WithoutBreaks(s)
    decreases |s|
  {
    if s != [] {
      var n := LineLength(s);
      if n == |s| {
        WithoutBreaksOfLine(s);
      } else {
        var w := BreakWidth(s, n);
        var rest := s[n + w..];
        assert s == s[..n] + s[n..n + w] + rest;
        WithoutBreaksAppend(s[..n] + s[n..n + w], rest);
        WithoutBreaksAppend(s[..n], s[n..n + w]);
        WithoutBreaksOfLine(s[..n]);
        WithoutBreaksOfBreaks(s[n..n + w]);
        SplitLinesLosesOnlyBreaks(rest);
        assert SplitLines(s)[1..] == SplitLines(rest);
      }
    }
  }

  // ---------------------------------------------------------------------------------
  // The snapshot line
  // ---------------------------------------------------------------------------------

  /** The position of the first colon of a line, or its length when it has none. */
  function ColonIndex(line: string): (i: nat)
    ensures i <= |line|
    ensures forall j :: 0 <= j < i ==> line[j] != ':'
    ensures i < |line| ==> line[i] == ':'
    decreases |line|
  {
    if line == [] || line[0] == ':' then 0 else 1 + ColonIndex(line[1..])
  }

  /** `line.split(":", 1)[1]`: the text after the first colon, if the line has one. */
  function TextAfterColon(line: string): (r: Option<string>)
    ensures r.None? <==> ':' !in line
    ensures r.Some? ==> EndsWith(line, ":" + r.value)
    ensures r.Some? ==> ':' !in line[..|line| - |r.value| - 1]
  {
    var i := ColonIndex(line);
    if i == |line| then
      assert forall c :: c in line ==> c != ':' by {
        forall c | c in line ensures c != ':' {
          var j :| 0 <= j < |line| && line[j] == c;
        }
      }
      None
    else
      var r := line[i + 1..];
      assert line[i..] == ":" + r;
      assert line[..|line| - |r| - 1] == line[..i];
      Some(r)
  }

  /** Text before the first colon does not move the first colon. */
  lemma {:induction false} ColonIndexSkips(a: string, b: string)
    requires ':' !in a
    ensures ColonIndex(a + b) == |a| + ColonIndex(b)
    decreases |a|
  {
    if a != [] {
      assert a[0] in a;
      assert (a + b)[1..] == a[1..] + b;
      ColonIndexSkips(a[1..], b);
    } else {
      assert a + b == b;
    }
  }

  /** Text before the first colon does not matter. */
  lemma TextAfterColonSkips(a: string, b: string)
    requires ':' !in a
    ensures TextAfterColon(a + b) == TextAfterColon(b)
  {
    ColonIndexSkips(a, b);
    var k := ColonIndex(b);
    if k < |b| {
      assert (a + b)[|a| + k + 1..] == b[k + 1..];
    }
  }

  predicate IsSnapshotLine(line: string) {
    StartsWith(line, SNAPSHOT_MARKER)
  }

  /** The marker's only colon is its last character, so what a snapshot line names is the
      text after the marker. */
  lemma SnapshotText(line: string)
    requires IsSnapshotLine(line)
    ensures TextAfterColon(line) == Some(line[|SNAPSHOT_MARKER|..])
  {
    var n := |SNAPSHOT_MARKER| - 1;
    var head := line[..n];
    var tail := line[n..];
    assert head == SNAPSHOT_MARKER[..n];
    assert ':' !in SNAPSHOT_MARKER[..n];
    assert tail[0] == SNAPSHOT_MARKER[n] == ':';
    assert line == head + tail;
    TextAfterColonSkips(head, tail);
    assert TextAfterColon(tail) == Some(tail[1..]);
    assert tail[1..] == line[|SNAPSHOT_MARKER|..];
  }

  /** The path a snapshot line names: the snapshot root, relative as the code writes it,
      followed by the stripped text after the colon. */
  function Candidate(line: string): (p: string)
    requires IsSnapshotLine(line)
    ensures StartsWith(p, SNAPSHOT_ROOT)
    ensures p == SNAPSHOT_ROOT + Strip(line[|SNAPSHOT_MARKER|..])
  {
    SnapshotText(line);
    SNAPSHOT_ROOT + Strip(TextAfterColon(line).value)
  }

  /** A snapshot line whose named path exists. */
  predicate Usable(line: string, pathExists: string -> bool) {
    IsSnapshotLine(line) && pathExists(Candidate(line))
  }

  /** Line `i` is the first usable snapshot line. */
  predicate FirstUsable(lines: seq<string>, pathExists: string -> bool, i: int) {
    && 0 <= i < |lines| && Usable(lines[i], pathExists)
    && forall j :: 0 <= j < i ==> !Usable(lines[j], pathExists)
  }

  /** Where a `for` loop that returns at the first accepted item stops: the position of the
      first item `good` accepts, or `|items|` when it accepts none. */
  function FirstWhere(items: seq<string>, good: string -> bool): (k: nat)
    ensures k <= |items|
    ensures forall j :: 0 <= j < k ==> !good(items[j])
    ensures k < |items| ==> good(items[k])
    decreases |items|
  {
    if items == [] || good(items[0]) then 0
    else
      var k := FirstWhere(items[1..], good);
      assert forall j :: 1 <= j < k + 1 ==> items[j] == items[1..][j - 1];
      k + 1
  }

  /** The first pass: the path of the first snapshot line whose path exists. */
  function FindSnapshot(lines: seq<string>, pathExists: string -> bool): (r: Option<string>)
    ensures r.None? <==> forall i :: 0 <= i < |lines| ==> !Usable(lines[i], pathExists)
    ensures r.Some? ==> exists i :: FirstUsable(lines, pathExists, i) && r.value == Candidate(lines[i])
  {
    var k := FirstWhere(lines, line => Usable(line, pathExists));
    if k < |lines| then
      assert FirstUsable(lines, pathExists, k);
      Some(Candidate(lines[k]))
    else None
  }

  // ---------------------------------------------------------------------------------
  // The fallback: path-like tokens
  // ---------------------------------------------------------------------------------

  /** `\w` over ASCII. */
  predicate IsWordChar(c: char) {
    ('a' <= c <= 'z') || ('A' <= c <= 'Z') || ('0' <= c <= '9') || c == '_'
  }

  /** The character class `[/\w\.-]`. */
  predicate IsPathChar(c: char) {
    c == '/' || IsWordChar(c) || c == '.' || c == '-'
  }

  /** A whole match of `/[/\w\.-]+`. */
  predicate IsPathToken(m: string) {
    |m| >= 2 && m[0] == '/' && forall k :: 0 <= k < |m| ==> IsPathChar(m[k])
  }

  /** The number of leading class characters. */
  function RunLength(s: string): (n: nat)
    ensures n <= |s|
    ensures forall i :: 0 <= i < n ==> IsPathChar(s[i])
    ensures n < |s| ==> !IsPathChar(s[n])
    decreases |s|
  {
    if s == [] || !IsPathChar(s[0]) then 0 else 1 + RunLength(s[1..])
  }

  /** `re.finditer(r'/[/\w\.-]+', s)`: leftmost matches, each as long as possible, the
      search resuming where the previous match ended. */
  function PathMatches(s: string): (ms: seq<string>)
    ensures forall k :: 0 <= k < |ms| ==> IsPathToken(ms[k])
    decreases |s|
  {
    if |s| < 2 then []
    else if s[0] == '/' && IsPathChar(s[1]) then
      var n := 1 + RunLength(s[1..]);
      [s[..n]] + PathMatches(s[n..])
    else PathMatches(s[1..])
  }

  /** Every match is a piece of the text. */
  lemma {:induction false} PathMatchesOccur(s: string, m: string)
    requires m in PathMatches(s)
    ensures Contains(s, m)
    decreases |s|
  {
    if s[0] == '/' && IsPathChar(s[1]) {
      var n := 1 + RunLength(s[1..]);
      if m == s[..n] {
        assert StartsWith(s, m);
      } else {
        PathMatchesOccur(s[n..], m);
        assert s == s[..n] + s[n..];
        ContainsInSuffix(s[..n], s[n..], m);
      }
    } else {
      PathMatchesOccur(s[1..], m);
      assert s == s[..1] + s[1..];
      ContainsInSuffix(s[..1], s[1..], m);
    }
  }

  /** A text that is one whole token is matched as a whole. */
  lemma SingleTokenMatches(m: string)
    requires IsPathToken(m)
    ensures PathMatches(m) == [m]
  {
    PathMatchAtFront(m, []);
    assert m + [] == m;
  }

  /** A run of class characters ends where the first other character starts. */
  lemma {:induction false} RunLengthThen(t: string, b: string)
    requires forall k :: 0 <= k < |t| ==> IsPathChar(t[k])
    requires b == [] || !IsPathChar(b[0])
    ensures RunLength(t + b) == |t|
    decreases |t|
  {
    if t == [] {
      assert t + b == b;
    } else {
      assert (t + b)[1..] == t[1..] + b;
      RunLengthThen(t[1..], b);
    }
  }

  /** No match starts before position `i`: no `/` there is followed by a class character. */
  predicate NoMatchBefore(s: string, i: int) {
    forall k :: 0 <= k < i && k + 1 < |s| ==> !(s[k] == '/' && IsPathChar(s[k + 1]))
  }

  /** Text in which no match starts is skipped. */
  lemma {:induction false} PathMatchesSkip(a: string, rest: string)
    requires NoMatchBefore(a + rest, |a|)
    ensures PathMatches(a + rest) == PathMatches(rest)
    decreases |a|
  {
    if a == [] {
      assert a + rest == rest;
    } else {
      var s := a + rest;
      if |s| >= 2 {
        assert !(s[0] == '/' && IsPathChar(s[1]));
        assert s[1..] == a[1..] + rest;
        assert NoMatchBefore(a[1..] + rest, |a| - 1) by {
          forall k | 0 <= k < |a| - 1 && k + 1 < |s| - 1
            ensures !(s[1..][k] == '/' && IsPathChar(s[1..][k + 1]))
          {
            assert s[1..][k] == s[k + 1] && s[1..][k + 1] == s[k + 2];
          }
        }
        PathMatchesSkip(a[1..], rest);
      }
    }
  }

  /** A token at the front that is not followed by a class character is the first match,
      whole, and the search resumes right after it. */
  lemma PathMatchAtFront(m: string, b: string)
    requires IsPathToken(m)
    requires b == [] || !IsPathChar(b[0])
    ensures PathMatches(m + b) == [m] + PathMatches(b)
  {
    var s := m + b;
    assert s[0] == '/' && IsPathChar(s[1]);
    assert s[1..] == m[1..] + b;
    RunLengthThen(m[1..], b);
    assert s[..|m|] == m && s[|m|..] == b;
  }

  /** The matches are leftmost, longest and contiguous: in a text `a + m + b` where no
      match starts inside `a`, `m` is a whole token and `b` does not continue it, the
      matches are `m` followed by the matches of `b`. */
  lemma PathMatchesDecompose(a: string, m: string, b: string)
    requires NoMatchBefore(a + m + b, |a|)
    requires IsPathToken(m)
    requires b == [] || !IsPathChar(b[0])
    ensures PathMatches(a + m + b) == [m] + PathMatches(b)
  {
    assert a + m + b == a + (m + b);
    PathMatchesSkip(a, m + b);
    PathMatchAtFront(m, b);
  }

  /** A text in which no match starts has no matches. */
  lemma NoMatchStartNoMatch(s: string)
    requires NoMatchBefore(s, |s|)
    ensures PathMatches(s) == []
  {
    assert s + [] == s;
    PathMatchesSkip(s, []);
  }

  /** A text without `/` has no matches. */
  lemma {:induction false} NoSlashNoMatch(s: string)
    requires '/' !in s
    ensures PathMatches(s) == []
    decreases |s|
  {
    if |s| >= 2 {
      assert s[0] in s;
      assert forall c :: c in s[1..] ==> c in s;
      NoSlashNoMatch(s[1..]);
    }
  }

  /** `paths[i]` is the first regular file. */
  predicate FirstFileAt(paths: seq<string>, isFile: string -> bool, i: int) {
    && 0 <= i < |paths| && isFile(paths[i])
    && forall j :: 0 <= j < i ==> !isFile(paths[j])
  }

  /** The second pass: the first match that is a regular file. */
  function FirstFile(paths: seq<string>, isFile: string -> bool): (r: Option<string>)
    ensures r.None? <==> forall i :: 0 <= i < |paths| ==> !isFile(paths[i])
    ensures r.Some? ==> exists i :: FirstFileAt(paths, isFile, i) && r.value == paths[i]
  {
    var k := FirstWhere(paths, isFile);
    if k < |paths| then
      assert FirstFileAt(paths, isFile, k);
      Some(paths[k])
    else None
  }

  /** `get_latest_backup_file`: the first pass over the lines, else the second pass over the
      whole output, else nothing. */
  function GetLatestBackupFile(output: string, pathExists: string -> bool, isFile: string -> bool): (r: Option<string>)
    ensures FindSnapshot(SplitLines(output), pathExists).Some? ==> r == FindSnapshot(SplitLines(output), pathExists)
    ensures FindSnapshot(SplitLines(output), pathExists).None? ==> r == FirstFile(PathMatches(output), isFile)
    ensures r.Some? ==>
              || (pathExists(r.value) && StartsWith(r.value, SNAPSHOT_ROOT))
              || (isFile(r.value) && r.value in PathMatches(output) && IsPathToken(r.value))
    ensures r.None? <==> && (forall l :: l in SplitLines(output) ==> !Usable(l, pathExists))
                         && (forall m :: m in PathMatches(output) ==> !isFile(m))
  {
    var lines := SplitLines(output);
    var first := FindSnapshot(lines, pathExists);
    if first.Some? then first
    else
      assert forall l :: l in lines ==> !Usable(l, pathExists) by {
        forall l | l in lines ensures !Usable(l, pathExists) {
          var i :| 0 <= i < |lines| && lines[i] == l;
        }
      }
      var ms := PathMatches(output);
      var r := FirstFile(ms, isFile);
      assert r.None? ==> forall m :: m in ms ==> !isFile(m) by {
        if r.None? {
          forall m | m in ms ensures !isFile(m) {
            var i :| 0 <= i < |ms| && ms[i] == m;
          }
        }
      }
      r
  }
}
