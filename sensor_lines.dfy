/**
  The text side of the head-tracking sensor link in `RCApp.update_logic`:
  the receive buffer is split with Python's `str.splitlines(True)`, lines
  ending in '\n' or '\r' are complete and are stripped, the last incomplete
  piece is kept for the next read, and every complete line is scanned for
  `YAW:<number>` and `PITCH:<number>` tokens.

  Python's `float()` is not modelled: it is the parameter `parse`, which
  returns `None` where `float()` raises.
 */
module SensorLines {
  import opened Wrappers

  // ---------------------------------------------------------------------
  // str.splitlines(True)
  // ---------------------------------------------------------------------

  /** The characters at which `str.splitlines` ends a line. */
  predicate IsLineBreak(c: char)
  {
    c == '\n' || c == '\r' || c == '\U{0b}' || c == '\U{0c}' || c == '\U{1c}' || c == '\U{1d}'
    || c == '\U{1e}' || c == '\U{85}' || c == '\U{2028}' || c == '\U{2029}'
  }

  /** A line as `splitlines(True)` returns it: non-empty, with a line break at most at its end ("\r\n" is one break). */
  predicate IsLinePiece(ln: string)
  {
    && |ln| >= 1
    && forall i :: 0 <= i < |ln| - 1 && IsLineBreak(ln[i]) ==>
         i == |ln| - 2 && ln[i] == '\r' && ln[i + 1] == '\n'
  }

  predicate EndsWithBreak(ln: string)
  {
    |ln| >= 1 && IsLineBreak(ln[|ln| - 1])
  }

  /** The length of the first line of `s`, its line break included. */
  function FirstLineLength(s: string): (k: nat)
    requires s != []
    ensures 1 <= k <= |s|
    ensures k < |s| ==> IsLineBreak(s[k - 1])
    ensures forall i :: 0 <= i < k - 1 ==> !IsLineBreak(s[i]) || (i == k - 2 && s[i] == '\r' && s[k - 1] == '\n')
    ensures k < |s| && s[k - 1] == '\r' ==> s[k] != '\n'
  {
    if s[0] == '\r' && |s| > 1 && s[1] == '\n' then 2
    else if IsLineBreak(s[0]) || |s| == 1 then 1
    else 1 + FirstLineLength(s[1..])
  }

  /** The first line holds no line break before its end. */
  lemma {:induction false} FirstLineIsPiece(s: string)
    requires s != []
    ensures IsLinePiece(s[..FirstLineLength(s)])
  {
    var k := FirstLineLength(s);
    if !(s[0] == '\r' && |s| > 1 && s[1] == '\n') && !IsLineBreak(s[0]) && |s| > 1 {
      FirstLineIsPiece(s[1..]);
      var tail := s[1..][..k - 1];
      assert s[..k] == [s[0]] + tail;
      forall i | 0 <= i < k - 1 && IsLineBreak(s[..k][i])
        ensures i == k - 2 && s[..k][i] == '\r' && s[..k][i + 1] == '\n'
      {
        assert i > 0;
        assert s[..k][i] == tail[i - 1] && s[..k][i + 1] == tail[i];
      }
    }
  }

  function Concat(lines: seq<string>): string
  {
    if lines == [] then [] else lines[0] + Concat(lines[1..])
  }

  /** `s.splitlines(True)`: the lines of `s` in order, each with its line break. */
  function SplitLines(s: string): seq<string>
    decreases |s|
  {
    if s == [] then [] else [s[..FirstLineLength(s)]] + SplitLines(s[FirstLineLength(s)..])
  }

  /** The lines put back together give the text. */
  lemma {:induction false} SplitLinesConcat(s: string)
    ensures Concat(SplitLines(s)) == s
    decreases |s|
  {
    if s != [] {
      var k := FirstLineLength(s);
      var lines := SplitLines(s);
      SplitLinesConcat(s[k..]);
      assert lines[0] == s[..k];
      assert lines[1..] == SplitLines(s[k..]);
      assert s[..k] + s[k..] == s;
    }
  }

  /** Every line is a line piece. */
  lemma {:induction false} SplitLinesPieces(s: string)
    ensures forall j :: 0 <= j < |SplitLines(s)| ==> IsLinePiece(SplitLines(s)[j])
    decreases |s|
  {
    if s != [] {
      var k := FirstLineLength(s);
      var rest := SplitLines(s[k..]);
      var lines := SplitLines(s);
      assert lines == [s[..k]] + rest;
      SplitLinesPieces(s[k..]);
      forall j | 0 <= j < |lines|
        ensures IsLinePiece(lines[j])
      {
        if j == 0 {
          FirstLineIsPiece(s);
        } else {
          assert lines[j] == rest[j - 1];
        }
      }
    }
  }

  /** Every line but the last ends in a line break. */
  lemma {:induction false} SplitLinesBreaks(s: string)
    ensures forall j :: 0 <= j < |SplitLines(s)| - 1 ==> EndsWithBreak(SplitLines(s)[j])
    decreases |s|
  {
    if s != [] {
      var k := FirstLineLength(s);
      var rest := SplitLines(s[k..]);
      var lines := SplitLines(s);
      assert lines == [s[..k]] + rest;
      SplitLinesBreaks(s[k..]);
      forall j | 0 <= j < |lines| - 1
        ensures EndsWithBreak(lines[j])
      {
        if j == 0 {
          assert rest != [] && k < |s|;
          assert s[..k][k - 1] == s[k - 1];
        } else {
          assert lines[j] == rest[j - 1];
        }
      }
    }
  }

  /** `a` ends in '\r' and `b` starts with '\n': a "\r\n" torn in two. */
  predicate TornCrLf(a: string, b: string)
  {
    |a| >= 1 && |b| >= 1 && a[|a| - 1] == '\r' && b[0] == '\n'
  }

  /** A line ending in '\r' is never followed by a line starting with '\n': "\r\n" is one break. */
  lemma {:induction false} SplitLinesKeepCrLf(s: string)
    ensures forall j :: 0 <= j < |SplitLines(s)| - 1 ==> !TornCrLf(SplitLines(s)[j], SplitLines(s)[j + 1])
    decreases |s|
  {
    if s != [] {
      var k := FirstLineLength(s);
      var rest := SplitLines(s[k..]);
      var lines := SplitLines(s);
      assert lines == [s[..k]] + rest;
      SplitLinesKeepCrLf(s[k..]);
      forall j | 0 <= j < |lines| - 1
        ensures !TornCrLf(lines[j], lines[j + 1])
      {
        if j == 0 {
          var t := s[k..];
          assert rest[0] == t[..FirstLineLength(t)];
          assert rest[0][0] == s[k];
          assert lines[0][k - 1] == s[k - 1];
        } else {
          assert lines[j] == rest[j - 1] && lines[j + 1] == rest[j];
        }
      }
    }
  }

  /**
    The lines put back together give the text; each is a line piece, every
    line but the last ends in a line break, and no "\r\n" is torn in two.
   */
  lemma SplitLinesShape(s: string)
    ensures Concat(SplitLines(s)) == s
    ensures forall j :: 0 <= j < |SplitLines(s)| ==> IsLinePiece(SplitLines(s)[j])
    ensures forall j :: 0 <= j < |SplitLines(s)| - 1 ==> EndsWithBreak(SplitLines(s)[j])
    ensures forall j :: 0 <= j < |SplitLines(s)| - 1 ==> !TornCrLf(SplitLines(s)[j], SplitLines(s)[j + 1])
  {
    SplitLinesConcat(s);
    SplitLinesPieces(s);
    SplitLinesBreaks(s);
    SplitLinesKeepCrLf(s);
  }

  /** A line that `update_logic` treats as complete: it ends in '\n' or '\r'. */
  predicate IsComplete(ln: string)
  {
    |ln| >= 1 && (ln[|ln| - 1] == '\n' || ln[|ln| - 1] == '\r')
  }

  // ---------------------------------------------------------------------
  // str.strip()
  // ---------------------------------------------------------------------

  /** The characters `str.strip()` removes (Python's `str.isspace`). */
  predicate IsWhitespace(c: char)
  {
    c == ' ' || c == '\t' || c == '\n' || c == '\r' || c == '\U{0b}' || c == '\U{0c}'
    || ('\U{1c}' <= c <= '\U{1f}') || c == '\U{85}' || c == '\U{a0}' || c == '\U{1680}'
    || ('\U{2000}' <= c <= '\U{200a}') || c == '\U{2028}' || c == '\U{2029}' || c == '\U{202f}'
    || c == '\U{205f}' || c == '\U{3000}'
  }

  function TrimStart(s: string): (r: string)
    ensures |r| <= |s| && r == s[|s| - |r|..]
    ensures r == [] || !IsWhitespace(r[0])
    ensures forall i :: 0 <= i < |s| - |r| ==> IsWhitespace(s[i])
  {
    if s != [] && IsWhitespace(s[0]) then TrimStart(s[1..]) else s
  }

  function TrimEnd(s: string): (r: string)
    ensures |r| <= |s| && r == s[..|r|]
    ensures r == [] || !IsWhitespace(r[|r| - 1])
    ensures forall i :: |r| <= i < |s| ==> IsWhitespace(s[i])
  {
    if s != [] && IsWhitespace(s[|s| - 1]) then TrimEnd(s[..|s| - 1]) else s
  }

  /** `s.strip()`: `s` without leading and trailing whitespace. */
  function Strip(s: string): string
  {
    TrimEnd(TrimStart(s))
  }

  // ---------------------------------------------------------------------
  // Splitting the receive buffer
  // ---------------------------------------------------------------------

  /** The complete lines among `lines`, stripped, in order. */
  function CompleteLines(lines: seq<string>): seq<string>
  {
    if lines == [] then []
    else
      var last := lines[|lines| - 1];
      CompleteLines(lines[..|lines| - 1]) + if IsComplete(last) then [Strip(last)] else []
  }

  /** What the loop leaves in `rem`: the last incomplete line, or "" when every line is complete. */
  function Remainder(lines: seq<string>): string
  {
    if lines == [] then ""
    else if IsComplete(lines[|lines| - 1]) then Remainder(lines[..|lines| - 1])
    else lines[|lines| - 1]
  }

  /**
    The loop of `update_logic` over `self.in_buffer.splitlines(True)`: collects
    the stripped complete lines and keeps the last incomplete one.
   */
  method SplitBuffer(text: string) returns (complete: seq<string>, rem: string)
    ensures complete == CompleteLines(SplitLines(text))
    ensures rem == Remainder(SplitLines(text))
  {
    var lines := SplitLines(text);
    complete, rem := [], "";
    var i := 0;
    while i < |lines|
      invariant 0 <= i <= |lines|
      invariant complete == CompleteLines(lines[..i])
      invariant rem == Remainder(lines[..i])
    {
      var ln := lines[i];
      assert lines[..i + 1][..i] == lines[..i];
      if IsComplete(ln) {
        complete := complete + [Strip(ln)];
      } else {
        rem := ln;
      }
      i := i + 1;
    }
    assert lines[..i] == lines;
  }

  /** The kept text is one of the lines, or empty. */
  lemma {:induction false} RemainderIsIncompleteLine(lines: seq<string>)
    ensures Remainder(lines) == "" || exists j :: 0 <= j < |lines| && lines[j] == Remainder(lines) && !IsComplete(lines[j])
  {
    if lines != [] && IsComplete(lines[|lines| - 1]) {
      var front := lines[..|lines| - 1];
      RemainderIsIncompleteLine(front);
      if Remainder(lines) != "" {
        var j :| 0 <= j < |front| && front[j] == Remainder(front) && !IsComplete(front[j]);
        assert lines[j] == front[j];
      }
    }
  }

  /** No '\n' or '\r' anywhere in `s`. */
  predicate NoTerminator(s: string)
  {
    forall i :: 0 <= i < |s| ==> s[i] != '\n' && s[i] != '\r'
  }

  lemma IncompletePieceHasNoTerminator(ln: string)
    requires IsLinePiece(ln) && !IsComplete(ln)
    ensures NoTerminator(ln)
  {
    forall i | 0 <= i < |ln|
      ensures ln[i] != '\n' && ln[i] != '\r'
    {
      if i < |ln| - 1 {
        assert !IsLineBreak(ln[i]);
      }
    }
  }

  /** After a read the buffer never holds a '\n' or '\r'. */
  lemma RemainderHasNoTerminator(text: string)
    ensures NoTerminator(Remainder(SplitLines(text)))
  {
    var lines := SplitLines(text);
    var rem := Remainder(lines);
    RemainderIsIncompleteLine(lines);
    SplitLinesShape(text);
    if rem != "" {
      var j :| 0 <= j < |lines| && lines[j] == rem && !IsComplete(lines[j]);
      IncompletePieceHasNoTerminator(rem);
    }
  }

  /** Text whose only line breaks are '\n' and '\r' (and so "\r\n"). */
  predicate OnlyCrLfBreaks(s: string)
  {
    forall i :: 0 <= i < |s| && IsLineBreak(s[i]) ==> s[i] == '\n' || s[i] == '\r'
  }

  lemma {:induction false} RemainderSkipsCompleteHead(a: string, rest: seq<string>)
    requires IsComplete(a)
    ensures Remainder([a] + rest) == Remainder(rest)
  {
    if rest != [] {
      var n := |rest|;
      assert ([a] + rest)[..n] == [a] + rest[..n - 1];
      RemainderSkipsCompleteHead(a, rest[..n - 1]);
    }
  }

  lemma OnlyCrLfBreaksSuffix(s: string, k: nat)
    requires OnlyCrLfBreaks(s) && k <= |s|
    ensures OnlyCrLfBreaks(s[k..])
  {
    forall i | 0 <= i < |s| - k && IsLineBreak(s[k..][i])
      ensures s[k..][i] == '\n' || s[k..][i] == '\r'
    {
      assert s[k..][i] == s[k + i];
    }
  }

  /** A text that is a single line keeps all of it, unless the line is complete. */
  lemma RemainderOfOneLine(s: string)
    requires s != [] && SplitLines(s) == [s]
    ensures Remainder(SplitLines(s)) == if IsComplete(s) then "" else s
  {
    assert [s][..0] == [];
  }

  /** `rem` is a suffix of `s`, preceded in `s` by '\n' or '\r' unless it is all of `s`. */
  predicate IsFinalFragment(s: string, rem: string)
  {
    && |rem| <= |s| && s[|s| - |rem|..] == rem
    && (|rem| < |s| ==> s[|s| - |rem| - 1] == '\n' || s[|s| - |rem| - 1] == '\r')
  }

  /** A final fragment of the text after a '\n' or '\r' is a final fragment of the whole text. */
  lemma FragmentOfSuffix(s: string, k: nat, rem: string)
    requires 1 <= k <= |s| && (s[k - 1] == '\n' || s[k - 1] == '\r')
    requires IsFinalFragment(s[k..], rem)
    ensures IsFinalFragment(s, rem)
  {
    var t := s[k..];
    var m := |t| - |rem|;
    assert t[m..] == s[k + m..];
    if m > 0 {
      assert t[m - 1] == s[k + m - 1];
    }
  }

  /** A text that is one line: its remainder is empty or all of it. */
  lemma FragmentOfOneLine(s: string)
    requires s != [] && SplitLines(s) == [s]
    ensures IsFinalFragment(s, Remainder(SplitLines(s)))
  {
    RemainderOfOneLine(s);
    assert s[|s| - |s|..] == s;
  }

  /** With only '\n' and '\r' as breaks, a first line shorter than the text ends in one of them. */
  lemma FirstLineEndsInCrLf(s: string)
    requires s != [] && FirstLineLength(s) < |s| && OnlyCrLfBreaks(s)
    ensures IsComplete(s[..FirstLineLength(s)])
  {
    var k := FirstLineLength(s);
    assert IsLineBreak(s[k - 1]);
    assert s[..k][k - 1] == s[k - 1];
  }

  /** With a complete first line, the remainder is the remainder of the text after it. */
  lemma RemainderAfterFirstLine(s: string)
    requires s != [] && IsComplete(s[..FirstLineLength(s)])
    ensures Remainder(SplitLines(s)) == Remainder(SplitLines(s[FirstLineLength(s)..]))
  {
    var k := FirstLineLength(s);
    assert SplitLines(s) == [s[..k]] + SplitLines(s[k..]);
    RemainderSkipsCompleteHead(s[..k], SplitLines(s[k..]));
  }

  /**
    When the only line breaks are '\n' and '\r', the kept text is exactly the
    unterminated tail: the suffix of the text after its last '\n' or '\r'.
   */
  lemma {:induction false} RemainderIsFinalFragment(s: string)
    requires OnlyCrLfBreaks(s)
    ensures IsFinalFragment(s, Remainder(SplitLines(s)))
    decreases |s|
  {
    if s != [] {
      var k := FirstLineLength(s);
      if k == |s| {
        assert SplitLines(s) == [s] by {
          assert s[..k] == s;
          assert SplitLines(s) == [s[..k]] + SplitLines(s[k..]);
        }
        FragmentOfOneLine(s);
      } else {
        FirstLineEndsInCrLf(s);
        RemainderAfterFirstLine(s);
        assert s[k - 1] == s[..k][k - 1];
        assert OnlyCrLfBreaks(s[k..]) by {
          OnlyCrLfBreaksSuffix(s, k);
        }
        RemainderIsFinalFragment(s[k..]);
        FragmentOfSuffix(s, k, Remainder(SplitLines(s[k..])));
      }
    }
  }

  lemma SplitExample()
    ensures SplitLines("A\U{0b}B\n") == ["A\U{0b}", "B\n"]
  {
    var s := "A\U{0b}B\n";
    assert FirstLineLength(s) == 2;
    assert s[..2] == "A\U{0b}" && s[2..] == "B\n";
    assert "B\n"[1..] == "\n";
    assert FirstLineLength("B\n") == 2;
    assert "B\n"[..2] == "B\n" && "B\n"[2..] == "";
    assert SplitLines("B\n") == ["B\n"] + SplitLines("");
  }

  /** A fragment ending in another line break (here a vertical tab) stays in the buffer behind a later complete line. */
  lemma EarlierFragmentKept()
    ensures Remainder(SplitLines("A\U{0b}B\n")) == "A\U{0b}"
  {
    SplitExample();
    var x, y := "A\U{0b}", "B\n";
    var lines := [x, y];
    assert IsComplete(y) && !IsComplete(x);
    assert lines[..1] == [x];
    assert Remainder(lines) == Remainder([x]);
  }

  // ---------------------------------------------------------------------
  // YAW:/PITCH: tokens
  // ---------------------------------------------------------------------

  const YAW_TAG: string := "YAW:"
  const PITCH_TAG: string := "PITCH:"

  /** ASCII upper case (`str.upper` on the characters a sensor sends). */
  function UpperChar(c: char): char
  {
    if 'a' <= c <= 'z' then (c as int - 32) as char else c
  }

  /** `p.upper().startswith(tag)`. */
  predicate HasTag(p: string, tag: string)
  {
    |p| >= |tag| && forall i :: 0 <= i < |tag| ==> UpperChar(p[i]) == tag[i]
  }

  /** `s.split(sep)`: the pieces between separators; at least one, possibly empty. */
  function Split(s: string, sep: char): (parts: seq<string>)
    ensures |parts| >= 1
    ensures forall j :: 0 <= j < |parts| ==> sep !in parts[j]
  {
    if s == [] then [[]]
    else if s[0] == sep then [[]] + Split(s[1..], sep)
    else
      var rest := Split(s[1..], sep);
      [[s[0]] + rest[0]] + rest[1..]
  }

  lemma {:induction false} SplitAtSeparator(s: string, sep: char)
    requires sep in s
    ensures |Split(s, sep)| >= 2
  {
    if s[0] != sep {
      SplitAtSeparator(s[1..], sep);
    }
  }

  /** `p.split(":")[1]` for a token that carries a tag ending in ':'. */
  function Field(p: string): string
    requires ':' in p
  {
    SplitAtSeparator(p, ':');
    Split(p, ':')[1]
  }

  /** `ln.replace(" ", "")`. */
  function RemoveSpaces(s: string): (r: string)
    ensures ' ' !in r
    ensures |r| <= |s|
  {
    if s == [] then [] else (if s[0] == ' ' then [] else [s[0]]) + RemoveSpaces(s[1..])
  }

  /** `ln.replace(" ", "").split(",")`. */
  function Tokens(line: string): seq<string>
  {
    Split(RemoveSpaces(line), ',')
  }

  lemma TaggedHasColon(p: string, tag: string)
    requires HasTag(p, tag) && |tag| >= 1 && tag[|tag| - 1] == ':'
    ensures ':' in p
  {
    assert UpperChar(p[|tag| - 1]) == ':';
    assert p[|tag| - 1] == ':';
  }

  /** The values one line sets; `None` for an axis the line does not mention. */
  datatype LineValues = LineValues(yaw: Option<real>, pitch: Option<real>)

  /** The number after a tagged token's first ':', or `None` where `float()` raises. */
  function TagValue(p: string, tag: string, parse: string -> Option<real>): Option<real>
    requires HasTag(p, tag) && |tag| >= 1 && tag[|tag| - 1] == ':'
  {
    TaggedHasColon(p, tag);
    parse(Field(p))
  }

  /** One token of the loop `for p in parts`: `None` when its `float()` raises. */
  function ApplyToken(acc: LineValues, p: string, parse: string -> Option<real>): Option<LineValues>
  {
    var afterYaw :=
      if HasTag(p, YAW_TAG) then
        match TagValue(p, YAW_TAG, parse)
        case None => None
        case Some(v) => Some(acc.(yaw := Some(v)))
      else Some(acc);
    match afterYaw
    case None => None
    case Some(a) =>
      if HasTag(p, PITCH_TAG) then
        match TagValue(p, PITCH_TAG, parse)
        case None => None
        case Some(v) => Some(a.(pitch := Some(v)))
      else Some(a)
  }

  /** The values a line's tokens set, or `None` once one of them fails to parse. */
  function TokenValues(parts: seq<string>, parse: string -> Option<real>): Option<LineValues>
  {
    if parts == [] then Some(LineValues(None, None))
    else
      match TokenValues(parts[..|parts| - 1], parse)
      case None => None
      case Some(acc) => ApplyToken(acc, parts[|parts| - 1], parse)
  }

  lemma {:induction false} FailureIsFinal(parts: seq<string>, i: nat, parse: string -> Option<real>)
    requires i <= |parts| && TokenValues(parts[..i], parse) == None
    ensures TokenValues(parts, parse) == None
    decreases |parts| - i
  {
    if i < |parts| {
      assert parts[..i + 1][..i] == parts[..i];
      FailureIsFinal(parts, i + 1, parse);
    } else {
      assert parts[..i] == parts;
    }
  }

  /** The token loop of `update_logic` for one complete line: `None` when the line is skipped. */
  method ParseLine(line: string, parse: string -> Option<real>) returns (r: Option<LineValues>)
    ensures r == TokenValues(Tokens(line), parse)
  {
    var parts := Tokens(line);
    var yawv: Option<real> := None;
    var pitchv: Option<real> := None;
    var i := 0;
    while i < |parts|
      invariant 0 <= i <= |parts|
      invariant TokenValues(parts[..i], parse) == Some(LineValues(yawv, pitchv))
    {
      var p := parts[i];
      assert parts[..i + 1][..i] == parts[..i];
      if HasTag(p, YAW_TAG) {
        var v := TagValue(p, YAW_TAG, parse);
        if v.None? {
          FailureIsFinal(parts, i + 1, parse);
          return None;
        }
        yawv := v;
      }
      if HasTag(p, PITCH_TAG) {
        var v := TagValue(p, PITCH_TAG, parse);
        if v.None? {
          FailureIsFinal(parts, i + 1, parse);
          return None;
        }
        pitchv := v;
      }
      i := i + 1;
    }
    assert parts[..i] == parts;
    r := Some(LineValues(yawv, pitchv));
  }

  /** A token whose tagged number does not parse, which makes its line be skipped. */
  predicate BadToken(p: string, parse: string -> Option<real>)
  {
    || (HasTag(p, YAW_TAG) && TagValue(p, YAW_TAG, parse).None?)
    || (HasTag(p, PITCH_TAG) && TagValue(p, PITCH_TAG, parse).None?)
  }

  lemma YawAndPitchTagsExclusive(p: string)
    ensures !(HasTag(p, YAW_TAG) && HasTag(p, PITCH_TAG))
  {
    assert YAW_TAG[0] == 'Y' && PITCH_TAG[0] == 'P';
  }

  /** A line is skipped exactly when one of its tagged tokens fails to parse. */
  lemma {:induction false} SkippedIffBadToken(parts: seq<string>, parse: string -> Option<real>)
    ensures TokenValues(parts, parse).None? <==> exists i :: 0 <= i < |parts| && BadToken(parts[i], parse)
  {
    if parts != [] {
      var n := |parts|;
      var front := parts[..n - 1];
      SkippedIffBadToken(front, parse);
      YawAndPitchTagsExclusive(parts[n - 1]);
      if exists i :: 0 <= i < n - 1 && BadToken(front[i], parse) {
        var i :| 0 <= i < n - 1 && BadToken(front[i], parse);
        assert parts[i] == front[i];
      }
      if exists i :: 0 <= i < n && BadToken(parts[i], parse) {
        var i :| 0 <= i < n && BadToken(parts[i], parse);
        if i < n - 1 {
          assert front[i] == parts[i];
        }
      }
    }
  }

  /** The number of the last token carrying `tag`, or `None` when no token carries it. */
  function LastTagged(parts: seq<string>, tag: string, parse: string -> Option<real>): Option<real>
    requires |tag| >= 1 && tag[|tag| - 1] == ':'
  {
    if parts == [] then None
    else if HasTag(parts[|parts| - 1], tag) then TagValue(parts[|parts| - 1], tag, parse)
    else LastTagged(parts[..|parts| - 1], tag, parse)
  }

  /** A line that is not skipped sets each axis from the last token naming it. */
  lemma {:induction false} LastTokenWins(parts: seq<string>, parse: string -> Option<real>)
    requires TokenValues(parts, parse).Some?
    ensures TokenValues(parts, parse).value.yaw == LastTagged(parts, YAW_TAG, parse)
    ensures TokenValues(parts, parse).value.pitch == LastTagged(parts, PITCH_TAG, parse)
  {
    if parts != [] {
      LastTokenWins(parts[..|parts| - 1], parse);
      YawAndPitchTagsExclusive(parts[|parts| - 1]);
    }
  }

  // ---------------------------------------------------------------------
  // Applying the complete lines
  // ---------------------------------------------------------------------

  /** `replace(" ", "")` works character by character: a space goes, any other character stays. */
  lemma RemoveSpacesOne(c: char)
    ensures RemoveSpaces([c]) == if c == ' ' then [] else [c]
  {
    assert [c][1..] == [];
  }

  /** `replace(" ", "")` distributes over concatenation, so the kept characters stay in order. */
  lemma {:induction false} RemoveSpacesAppend(a: string, b: string)
    ensures RemoveSpaces(a + b) == RemoveSpaces(a) + RemoveSpaces(b)
  {
    if a != [] {
      assert (a + b)[0] == a[0];
      assert (a + b)[1..] == a[1..] + b;
      RemoveSpacesAppend(a[1..], b);
    } else {
      assert a + b == b;
    }
  }

  lemma {:induction false} RemoveSpacesNoSpace(s: string)
    requires ' ' !in s
    ensures RemoveSpaces(s) == s
  {
    if s != [] {
      assert s[1..] + [] == s[1..];
      RemoveSpacesNoSpace(s[1..]);
      assert [s[0]] + s[1..] == s;
    }
  }

  lemma {:induction false} SplitNoSeparator(s: string, sep: char)
    requires sep !in s
    ensures Split(s, sep) == [s]
  {
    if s != [] {
      SplitNoSeparator(s[1..], sep);
      assert [s[0]] + s[1..] == s;
    }
  }

  lemma {:induction false} SplitAfterPiece(a: string, b: string, sep: char)
    requires sep !in a
    ensures Split(a + [sep] + b, sep) == [a] + Split(b, sep)
  {
    var s := a + [sep] + b;
    if a == [] {
      assert s[1..] == b;
    } else {
      assert s[1..] == a[1..] + [sep] + b;
      SplitAfterPiece(a[1..], b, sep);
      assert [a[0]] + a[1..] == a;
    }
  }

  /** A number field: no separator, colon or space in it. */
  predicate PlainField(v: string)
  {
    ',' !in v && ':' !in v && ' ' !in v
  }

  /** `YAW:<y>,PITCH:<p>` splits into its two tokens. */
  lemma SensorLineTokens(ys: string, ps: string)
    requires PlainField(ys) && PlainField(ps)
    ensures Tokens(YAW_TAG + ys + "," + PITCH_TAG + ps) == [YAW_TAG + ys, PITCH_TAG + ps]
  {
    var line := YAW_TAG + ys + "," + PITCH_TAG + ps;
    assert line == (YAW_TAG + ys) + [','] + (PITCH_TAG + ps);
    RemoveSpacesNoSpace(line);
    SplitAfterPiece(YAW_TAG + ys, PITCH_TAG + ps, ',');
    SplitNoSeparator(PITCH_TAG + ps, ',');
  }

  /** A tagged token carries exactly its own tag, and its field is the text after the tag. */
  lemma TaggedField(tag: string, v: string)
    requires tag == YAW_TAG || tag == PITCH_TAG
    requires PlainField(v)
    ensures HasTag(tag + v, tag)
    ensures HasTag(tag + v, YAW_TAG) <==> tag == YAW_TAG
    ensures HasTag(tag + v, PITCH_TAG) <==> tag == PITCH_TAG
    ensures ':' in tag + v && Field(tag + v) == v
  {
    var name := tag[..|tag| - 1];
    assert tag + v == name + [':'] + v;
    assert ':' !in name;
    SplitAfterPiece(name, v, ':');
    SplitNoSeparator(v, ':');
    assert (tag + v)[0] == tag[0];
  }

  /**
    The line format the sensor sends, `YAW:<y>,PITCH:<p>`, reads back as its
    two values; when either number does not parse the line sets nothing.
   */
  lemma SensorLineRoundTrip(ys: string, ps: string, parse: string -> Option<real>)
    requires PlainField(ys) && PlainField(ps)
    ensures TokenValues(Tokens(YAW_TAG + ys + "," + PITCH_TAG + ps), parse)
      == if parse(ys).Some? && parse(ps).Some? then Some(LineValues(parse(ys), parse(ps))) else None
  {
    var yawToken := YAW_TAG + ys;
    var pitchToken := PITCH_TAG + ps;
    SensorLineTokens(ys, ps);
    TaggedField(YAW_TAG, ys);
    TaggedField(PITCH_TAG, ps);
    assert TagValue(yawToken, YAW_TAG, parse) == parse(ys);
    assert TagValue(pitchToken, PITCH_TAG, parse) == parse(ps);
    var first := ApplyToken(LineValues(None, None), yawToken, parse);
    assert first == if parse(ys).Some? then Some(LineValues(parse(ys), None)) else None;
    assert [yawToken][..0] == [];
    assert TokenValues([yawToken], parse) == first;
    assert [yawToken, pitchToken][..1] == [yawToken];
    if first.Some? {
      assert TokenValues([yawToken, pitchToken], parse) == ApplyToken(first.value, pitchToken, parse);
    }
  }

  /** Yaw and pitch after the complete lines, in order; a skipped line changes neither. */
  function ApplyLines(lines: seq<string>, yaw: real, pitch: real, parse: string -> Option<real>): (real, real)
  {
    if lines == [] then (yaw, pitch)
    else
      var (y, p) := ApplyLines(lines[..|lines| - 1], yaw, pitch, parse);
      match TokenValues(Tokens(lines[|lines| - 1]), parse)
      case None => (y, p)
      case Some(v) =>
        (if v.yaw.Some? then v.yaw.value else y, if v.pitch.Some? then v.pitch.value else p)
  }
  /** The loop of `update_logic` over the complete lines, parsing each and applying the values it found. */
  method ApplyCompleteLines(lines: seq<string>, yaw0: real, pitch0: real, parse: string -> Option<real>)
    returns (yaw: real, pitch: real)
    ensures (yaw, pitch) == ApplyLines(lines, yaw0, pitch0, parse)
  {
    yaw, pitch := yaw0, pitch0;
    var i := 0;
    while i < |lines|
      invariant 0 <= i <= |lines|
      invariant (yaw, pitch) == ApplyLines(lines[..i], yaw0, pitch0, parse)
    {
      var values := ParseLine(lines[i], parse);
      assert lines[..i + 1][..i] == lines[..i];
      if values.Some? {
        if values.value.yaw.Some? {
          yaw := values.value.yaw.value;
        }
        if values.value.pitch.Some? {
          pitch := values.value.pitch.value;
        }
      }
      i := i + 1;
    }
    assert lines[..i] == lines;
  }
}
