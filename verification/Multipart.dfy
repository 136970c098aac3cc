/**
 The tolerant multipart splitter: section 5.1.1 of RFC 2046, loosened so that parts without
 headers, or without the blank line behind them, still come through.
 */
module Multipart {
  import opened Options
  import opened Sequences
  import P = EventPairing
  import Utf8

  type Byte = P.Byte
  type Bytes = P.Bytes

  const CR: Byte := 13
  const LF: Byte := 10
  const DASH: Byte := 45
  const COLON: Byte := 58
  const CRLF: Bytes := [CR, LF]
  const BLANK: Bytes := [CR, LF, CR, LF]

  // ------------------------------------------------------------------- searching

  predicate At(haystack: Bytes, needle: Bytes, i: nat) { i <= |haystack| && needle <= haystack[i..] }

  function FindFrom(haystack: Bytes, needle: Bytes, i: nat): (r: Option<nat>)
    requires i <= |haystack|
    ensures r.Some? ==> r.value + |needle| <= |haystack|
    decreases |haystack| - i
  {
    if At(haystack, needle, i) then Some(i)
    else if i == |haystack| then None
    else FindFrom(haystack, needle, i + 1)
  }

  function FindSubslice(haystack: Bytes, needle: Bytes): (r: Option<nat>)
    ensures r.Some? ==> needle != [] && r.value + |needle| <= |haystack|
  {
    if needle == [] || |haystack| < |needle| then None else FindFrom(haystack, needle, 0)
  }

  lemma {:induction false} FindFromMeans(haystack: Bytes, needle: Bytes, i: nat)
    requires i <= |haystack|
    ensures match FindFrom(haystack, needle, i)
      case Some(k) => i <= k && At(haystack, needle, k) && forall j :: i <= j < k ==> !At(haystack, needle, j)
      case None => forall j :: i <= j <= |haystack| ==> !At(haystack, needle, j)
    decreases |haystack| - i
  {
    if !At(haystack, needle, i) && i < |haystack| { FindFromMeans(haystack, needle, i + 1); }
  }

  /** The search finds the first occurrence if there is one; an empty needle is never found. */
  lemma FindSubsliceMeans(haystack: Bytes, needle: Bytes)
    ensures match FindSubslice(haystack, needle)
      case Some(k) => needle != [] && At(haystack, needle, k) && forall j :: 0 <= j < k ==> !At(haystack, needle, j)
      case None => needle == [] || forall j :: 0 <= j <= |haystack| ==> !At(haystack, needle, j)
  {
    if needle != [] && |haystack| >= |needle| { FindFromMeans(haystack, needle, 0); }
  }

  lemma FoundAt(haystack: Bytes, needle: Bytes, i: nat)
    requires needle != [] && At(haystack, needle, i) && forall j :: 0 <= j < i ==> !At(haystack, needle, j)
    ensures FindSubslice(haystack, needle) == Some(i)
  {
    FindSubsliceMeans(haystack, needle);
  }

  // --------------------------------------------------------------------- pieces

  predicate AsciiAlphanumeric(b: Byte) { 48 <= b <= 57 || 65 <= b <= 90 || 97 <= b <= 122 }

  function ToAsciiLowercase(s: Bytes): (r: Bytes)
    ensures |r| == |s|
  {
    seq(|s|, i requires 0 <= i < |s| => if 65 <= s[i] <= 90 then s[i] + 32 else s[i])
  }

  function UpTo(line: Bytes, b: Byte): Option<nat> {
    if line == [] then None else if line[0] == b then Some(0) else
    match UpTo(line[1..], b)
    case None => None
    case Some(n) => Some(n + 1)
  }

  lemma {:induction false} UpToMeans(line: Bytes, b: Byte)
    ensures match UpTo(line, b)
      case None => b !in line
      case Some(n) => n < |line| && line[n] == b && b !in line[..n]
  {
    if line != [] && line[0] != b {
      UpToMeans(line[1..], b);
      if UpTo(line[1..], b).Some? {
        var n := UpTo(line[1..], b).value;
        assert line[..n + 1] == [line[0]] + line[1..][..n];
      }
    }
  }

  predicate NameByte(b: Byte) { AsciiAlphanumeric(b) || b == DASH }

  predicate IsHeaderLine(line: Bytes) {
    match UpTo(line, COLON)
    case None => false
    case Some(colon) => colon != 0 && colon <= |line| && forall b :: b in line[..colon] ==> NameByte(b)
  }

  /** The first colon of a header line stands behind a name of letters, digits and dashes. */
  predicate Named(line: Bytes, colon: nat) {
    && 0 < colon < |line| && line[colon] == 58
    && forall i :: 0 <= i < colon ==> 48 <= line[i] <= 57 || 65 <= line[i] <= 90 || 97 <= line[i] <= 122 || line[i] == 45
  }

  lemma HeaderLineMeans(line: Bytes)
    ensures IsHeaderLine(line) <==> exists colon :: 0 <= colon < |line| && Named(line, colon)
  {
    UpToMeans(line, COLON);
    if UpTo(line, COLON).Some? {
      var n := UpTo(line, COLON).value;
      assert forall i :: 0 <= i < n ==> line[..n][i] == line[i] && line[i] in line[..n];
      if IsHeaderLine(line) { assert Named(line, n); }
      if colon :| 0 <= colon < |line| && Named(line, colon) {
        assert colon == n;
        forall b | b in line[..n] ensures NameByte(b) { var i :| 0 <= i < n && line[..n][i] == b; assert line[i] == b; }
      }
    }
    hide UpTo;
  }

  /** `from_utf8(..).unwrap_or_default()`. */
  function TextOrEmpty(s: Bytes): Bytes { if Utf8.Valid(s) then s else [] }

  // --------------------------------------------------------------- split_headers

  /** Where the headers end and the content begins; `Panic` when the code slices backwards. */
  datatype Split = Split(headers: Bytes, content: nat) | Panic

  predicate OpensPayload(b: Byte) { b == P.BRACE || b == P.ANGLE || b == 0xFF }

  function LeadingCrlf(s: Bytes): (n: nat)
    ensures n <= |s|
  {
    if CRLF <= s then 2 + LeadingCrlf(s[2..]) else 0
  }

  /** Where the first line begins that is ended by CRLF and is not a header. */
  function FirstOtherLine(rest: Bytes): (r: Option<nat>)
    ensures r.Some? ==> r.value <= |rest| && r.value != 1
    decreases |rest|
  {
    match FindSubslice(rest, CRLF)
    case None => None
    case Some(end) => if IsHeaderLine(rest[..end]) then Beyond(end + 2, FirstOtherLine(rest[end + 2..])) else Some(0)
  }

  function SplitHeadersAt(s: Bytes, cursor: nat): Split
    requires cursor <= |s|
  {
    if cursor == |s| then Split([], |s|)
    else if OpensPayload(s[cursor]) then Split([], cursor)
    else
      match FindSubslice(s[cursor..], BLANK)
      case Some(index) => Split(TextOrEmpty(s[cursor..cursor + index]), cursor + index + 4)
      case None =>
        match FirstOtherLine(s[cursor..])
        case None => Split([], cursor)
        case Some(k) =>
          var scan := cursor + k;
          var end := if scan < 2 then 0 else scan - 2;
          if cursor <= end then Split(TextOrEmpty(s[cursor..end]), scan) else Panic
  }

  function SplitHeadersOf(s: Bytes): Split { SplitHeadersAt(s, LeadingCrlf(s)) }

  method SkipLeadingCrlf(segment: Bytes) returns (cursor: nat)
    ensures cursor == LeadingCrlf(segment)
  {
    cursor := 0;
    while CRLF <= segment[cursor..]
      invariant cursor <= |segment| && LeadingCrlf(segment) == cursor + LeadingCrlf(segment[cursor..])
      decreases |segment| - cursor
    {
      assert segment[cursor..][2..] == segment[cursor + 2..];
      cursor := cursor + 2;
    }
  }

  lemma HeaderLineNext(rest: Bytes, end: nat, n: nat)
    requires FindSubslice(rest, CRLF) == Some(end) && IsHeaderLine(rest[..end])
    ensures Beyond(n, FirstOtherLine(rest)) == Beyond(n + end + 2, FirstOtherLine(rest[end + 2..]))
  {
    hide FindSubslice;
    hide IsHeaderLine;
  }

  lemma OtherLineNext(rest: Bytes, end: nat)
    requires FindSubslice(rest, CRLF) == Some(end) && !IsHeaderLine(rest[..end])
    ensures FirstOtherLine(rest) == Some(0)
  {
    hide FindSubslice;
    hide IsHeaderLine;
  }

  lemma NoLineNext(rest: Bytes)
    requires FindSubslice(rest, CRLF) == None
    ensures FirstOtherLine(rest) == None
  {
    hide FindSubslice;
    hide IsHeaderLine;
  }

  lemma ScanOn(segment: Bytes, scan: nat, end: nat)
    requires scan <= |segment| && FindSubslice(segment[scan..], CRLF) == Some(end) && IsHeaderLine(segment[scan..scan + end])
    ensures LineSkipped(segment, scan, scan + end + 2)
  {
    hide FindSubslice;
    hide IsHeaderLine;
    hide FirstOtherLine;
    SliceOfRest(segment, scan, end);
    SliceOfRest(segment, scan, end + 2);
    HeaderLineNext(segment[scan..], end, 0);
  }

  lemma ScanStops(segment: Bytes, scan: nat, end: nat)
    requires scan <= |segment| && FindSubslice(segment[scan..], CRLF) == Some(end) && !IsHeaderLine(segment[scan..scan + end])
    ensures FirstOtherLine(segment[scan..]) == Some(0)
  {
    hide FindSubslice;
    hide IsHeaderLine;
    hide FirstOtherLine;
    SliceOfRest(segment, scan, end);
    OtherLineNext(segment[scan..], end);
  }

  /** The walk over header lines; `stopped` is false when it runs out of complete lines. */
  method ScanHeaderLines(segment: Bytes, cursor: nat) returns (scan: nat, stopped: bool)
    requires cursor <= |segment|
    ensures cursor <= scan && FirstOtherLine(segment[cursor..]) == if stopped then Some(scan - cursor) else None
  {
    scan, stopped := cursor, false;
    ghost var goal := FirstOtherLine(segment[cursor..]);
    assert |CRLF| == 2;
    hide *;
    BeyondIs(0, goal);
    var running := true;
    while running && scan < |segment|
      invariant cursor <= scan <= |segment| && goal == Beyond(scan - cursor, FirstOtherLine(segment[scan..]))
      invariant !running ==> FirstOtherLine(segment[scan..]) == if stopped then Some(0) else None
      invariant running ==> !stopped
      decreases running, |segment| - scan
    {
      var step := NextLine(segment, scan);
      match step {
        case OutOfLines => running := false;
        case OtherLine => running, stopped := false, true;
        case Header(next) =>
          ShiftOn(segment, scan, next, scan - cursor);
          scan := next;
      }
    }
    if running { NoLineAtEnd(segment); }
    BeyondIs(scan - cursor, FirstOtherLine(segment[scan..]));
  }

  datatype LineStep = OutOfLines | OtherLine | Header(next: nat)

  method NextLine(segment: Bytes, scan: nat) returns (step: LineStep)
    requires scan <= |segment|
    ensures match step
      case OutOfLines => FirstOtherLine(segment[scan..]) == None
      case OtherLine => FirstOtherLine(segment[scan..]) == Some(0)
      case Header(next) => scan < next <= |segment| && LineSkipped(segment, scan, next)
  {
    var next := FindSubslice(segment[scan..], CRLF);
    assert |CRLF| == 2;
    hide *;
    if next.None? {
      NoLineNext(segment[scan..]);
      return OutOfLines;
    }
    var lineEnd := scan + next.value;
    if !IsHeaderLine(segment[scan..lineEnd]) {
      ScanStops(segment, scan, next.value);
      return OtherLine;
    }
    ScanOn(segment, scan, next.value);
    step := Header(lineEnd + 2);
  }

  ghost predicate LineSkipped(segment: Bytes, scan: nat, next: nat)
    requires scan <= next <= |segment|
  {
    FirstOtherLine(segment[scan..]) == Beyond(next - scan, FirstOtherLine(segment[next..]))
  }

  lemma ShiftOn(segment: Bytes, scan: nat, next: nat, n: nat)
    requires scan <= next <= |segment| && LineSkipped(segment, scan, next)
    ensures Beyond(n, FirstOtherLine(segment[scan..])) == Beyond(n + next - scan, FirstOtherLine(segment[next..]))
  {
    hide FirstOtherLine;
  }

  lemma BeyondIs(n: nat, r: Option<nat>)
    ensures Beyond(n, r) == if r.Some? then Some(n + r.value) else None
  {
  }

  lemma NoLineAtEnd(segment: Bytes)
    ensures FirstOtherLine(segment[|segment|..]) == None
  {
    assert segment[|segment|..] == [];
  }

  method SplitHeaders(segment: Bytes) returns (r: Split)
    ensures r == SplitHeadersOf(segment)
    ensures r.Split? ==> r.content <= |segment|
  {
    var cursor := SkipLeadingCrlf(segment);
    SplitHeadersOfIs(segment);
    hide SplitHeadersOf;
    hide LeadingCrlf;
    hide FindSubslice;
    hide FirstOtherLine;
    hide TextOrEmpty;
    if cursor >= |segment| { return Split([], |segment|); }
    if OpensPayload(segment[cursor]) { return Split([], cursor); }
    var blank := FindSubslice(segment[cursor..], BLANK);
    if blank.Some? {
      var end := cursor + blank.value;
      return Split(TextOrEmpty(segment[cursor..end]), end + 4);
    }
    var scan, stopped := ScanHeaderLines(segment, cursor);
    if !stopped { return Split([], cursor); }
    var end := if scan < 2 then 0 else scan - 2;
    if cursor > end { return Panic; }
    r := Split(TextOrEmpty(segment[cursor..end]), scan);
  }

  /** The code fails on a segment exactly when it skipped a leading CRLF, what follows opens no
      payload and holds no blank line, and its first line is complete and not a header. */
  lemma PanicsExactly(s: Bytes)
    ensures var n := LeadingCrlf(s);
      SplitHeadersOf(s).Panic? <==>
        && 0 < n < |s| && s[n] !in {60, 123, 255} && FindSubslice(s[n..], BLANK).None?
        && FindSubslice(s[n..], CRLF).Some? && !IsHeaderLine(s[n..n + FindSubslice(s[n..], CRLF).value])
  {
    hide *;
    var n := LeadingCrlf(s);
    LeadingIsEven(s);
    assert SplitHeadersOf(s) == SplitHeadersAt(s, n) by { SplitHeadersOfIs(s); }
    PanicsAt(s, n);
  }

  lemma SplitHeadersOfIs(s: Bytes)
    ensures SplitHeadersOf(s) == SplitHeadersAt(s, LeadingCrlf(s))
  {
    hide SplitHeadersAt;
  }

  lemma PanicsAt(s: Bytes, n: nat)
    requires n <= |s| && n != 1
    ensures SplitHeadersAt(s, n).Panic? <==>
      && 0 < n < |s| && s[n] !in {60, 123, 255} && FindSubslice(s[n..], BLANK).None?
      && FindSubslice(s[n..], CRLF).Some? && !IsHeaderLine(s[n..n + FindSubslice(s[n..], CRLF).value])
  {
    FirstLineDecides(s[n..]);
    assert FindSubslice(s[n..], CRLF).Some? ==> s[n..n + FindSubslice(s[n..], CRLF).value] == s[n..][..FindSubslice(s[n..], CRLF).value];
    hide FindSubslice;
    hide FirstOtherLine;
    hide IsHeaderLine;
    hide TextOrEmpty;
  }

  lemma FirstLineDecides(rest: Bytes)
    ensures FirstOtherLine(rest) == Some(0) <==>
      FindSubslice(rest, CRLF).Some? && !IsHeaderLine(rest[..FindSubslice(rest, CRLF).value])
  {
    hide FindSubslice;
    hide IsHeaderLine;
  }

  lemma {:induction false} LeadingIsEven(s: Bytes)
    ensures LeadingCrlf(s) != 1
  {
    if CRLF <= s { LeadingIsEven(s[2..]); }
  }

  /** The smallest such segment: an empty line before a line that is no header. */
  lemma PanicHappens(s: Bytes)
    ensures SplitHeadersOf([13, 10, 120, 13, 10]) == Panic
    ensures SplitHeadersOf(s) == Panic ==> |s| >= 5
  {
    SmallestPanic();
    if SplitHeadersOf(s) == Panic { PanicsFromFive(s); }
    hide *;
  }

  /** Behind the skipped empty lines a panic takes a whole line, which is not empty. */
  lemma PanicsFromFive(s: Bytes)
    requires SplitHeadersOf(s) == Panic
    ensures |s| >= 5
  {
    hide *;
    PanicsExactly(s);
    var n := LeadingCrlf(s);
    LeadingIsEven(s);
    LineIsNotEmpty(s, n);
  }

  lemma LineIsNotEmpty(s: Bytes, n: nat)
    requires n == LeadingCrlf(s) && n < |s| && FindSubslice(s[n..], CRLF).Some?
    ensures |s| >= n + 3
  {
    LeadingStops(s);
    FindSubsliceMeans(s[n..], CRLF);
  }

  lemma {:induction false} LeadingStops(s: Bytes)
    ensures LeadingCrlf(s) <= |s| && !(CRLF <= s[LeadingCrlf(s)..])
    decreases |s|
  {
    if CRLF <= s {
      LeadingStops(s[2..]);
      assert s[2..][LeadingCrlf(s[2..])..] == s[2 + LeadingCrlf(s[2..])..];
    } else {
      assert s[0..] == s;
    }
  }

  lemma SmallestPanic()
    ensures SplitHeadersOf([13, 10, 120, 13, 10]) == Panic
  {
    var s: Bytes := [13, 10, 120, 13, 10];
    assert s[2..] == [120, 13, 10];
    assert s[..2] == CRLF;
    assert !(CRLF <= s[2..]) by { assert s[2..][0] != CRLF[0]; }
    assert LeadingCrlf(s) == 2;
    var rest := s[2..];
    assert !At(rest, BLANK, 0);
    assert rest[1..] == CRLF;
    FoundAt(rest, CRLF, 1);
    assert s[2..3] == [120];
    UpToMeans(s[2..3], COLON);
    PanicsExactly(s);
  }

  // ------------------------------------------------------------- split_multipart

  datatype Part = Part(headers: Bytes, body: Bytes)

  predicate Trimmed(b: Byte) { b == CR || b == LF || b == DASH }

  function TrimTail(s: Bytes): (r: Bytes)
    ensures |r| <= |s|
  {
    if s != [] && Trimmed(s[|s| - 1]) then TrimTail(s[..|s| - 1]) else s
  }

  /** The part in one segment, if anything is left of it; `None` when the code panics on it. */
  function PartOf(segment: Bytes): Option<seq<Part>> {
    match SplitHeadersOf(segment)
    case Panic => None
    case Split(headers, content) =>
      if content > |segment| then None else
      var body := TrimTail(segment[content..]);
      Some(if body == [] then [] else [Part(ToAsciiLowercase(headers), body)])
  }

  /** The parts of what is left of the input. */
  function PartsOf(rest: Bytes, delimiter: Bytes): Option<seq<Part>>
    requires delimiter != []
    decreases |rest|
  {
    match FindSubslice(rest, delimiter)
    case None => Some([])
    case Some(offset) =>
      var after := rest[offset + |delimiter|..];
      var next := FindSubslice(after, delimiter);
      var end := if next.Some? then next.value else |after|;
      match PartOf(after[..end])
      case None => None
      case Some(first) =>
        match PartsOf(after[end..], delimiter)
        case None => None
        case Some(more) => Some(first + more)
  }

  function Delimiter(boundary: Bytes): (d: Bytes)
    ensures d != []
  {
    [DASH, DASH] + boundary
  }

  method TrimContent(segment: Bytes) returns (content: Bytes)
    ensures content == TrimTail(segment)
    ensures content <= segment && (content == [] || content[|content| - 1] !in {10, 13, 45})
    ensures forall i :: |content| <= i < |segment| ==> segment[i] in {10, 13, 45}
  {
    content := segment;
    while content != [] && Trimmed(content[|content| - 1])
      invariant TrimTail(content) == TrimTail(segment)
      invariant content <= segment && forall i :: |content| <= i < |segment| ==> Trimmed(segment[i])
      decreases |content|
    {
      content := content[..|content| - 1];
    }
  }

  lemma PartsOfUnfolds(rest: Bytes, delimiter: Bytes, offset: nat, after: Bytes, end: nat)
    requires delimiter != [] && FindSubslice(rest, delimiter) == Some(offset) && after == rest[offset + |delimiter|..]
    requires end <= |after| && end == match FindSubslice(after, delimiter) case None => |after| case Some(next) => next
    ensures PartsOf(rest, delimiter)
      == if PartOf(after[..end]).None? then None else Prepend(PartOf(after[..end]).value, PartsOf(after[end..], delimiter))
  {
    hide PartOf;
    hide FindSubslice;
  }

  /** One turn of the loop, on the input from `cursor` on. */
  lemma PartsOfTurn(body: Bytes, delimiter: Bytes, cursor: nat, offset: nat, end: nat)
    requires delimiter != [] && cursor <= |body| && FindSubslice(body[cursor..], delimiter) == Some(offset)
    requires var start := cursor + offset + |delimiter|; start <= end <= |body|
    requires var start := cursor + offset + |delimiter|;
      end == match FindSubslice(body[start..], delimiter) case None => |body| case Some(next) => start + next
    ensures var start := cursor + offset + |delimiter|; var part := PartOf(body[start..end]);
      PartsOf(body[cursor..], delimiter)
      == if part.None? then None else Prepend(part.value, PartsOf(body[end..], delimiter))
  {
    hide *;
    var start := cursor + offset + |delimiter|;
    assert body[cursor..][offset + |delimiter|..] == body[start..];
    assert body[start..][..end - start] == body[start..end];
    assert body[start..][end - start..] == body[end..];
    PartsOfUnfolds(body[cursor..], delimiter, offset, body[start..], end - start);
  }

  method ReadSegment(segment: Bytes) returns (r: Option<seq<Part>>)
    ensures r == PartOf(segment)
  {
    var split := SplitHeaders(segment);
    hide SplitHeadersOf;
    hide ToAsciiLowercase;
    hide TrimTail;
    if split.Panic? { return None; }
    var content := TrimContent(segment[split.content..]);
    r := Some(if content == [] then [] else [Part(ToAsciiLowercase(split.headers), content)]);
  }

  method SplitMultipart(body: Bytes, boundary: Bytes) returns (r: Option<seq<Part>>)
    ensures r == PartsOf(body, Delimiter(boundary))
  {
    var delimiter := Delimiter(boundary);
    var parts: seq<Part> := [];
    var cursor := 0;
    hide *;
    assert body[0..] == body;
    PrependNothing(PartsOf(body, delimiter));
    while true
      invariant cursor <= |body|
      invariant PartsOf(body, delimiter) == Prepend(parts, PartsOf(body[cursor..], delimiter))
      decreases |body| - cursor
    {
      var offset := FindSubslice(body[cursor..], delimiter);
      if offset.None? { break; }
      var start := cursor + offset.value + |delimiter|;
      var next := FindSubslice(body[start..], delimiter);
      var end := if next.Some? then start + next.value else |body|;
      PartsOfTurn(body, delimiter, cursor, offset.value, end);
      cursor := end;

      var part := ReadSegment(body[start..end]);
      if part.None? {
        PrependFails(parts);
        return None;
      }
      PrependMore(parts, part.value, PartsOf(body[end..], delimiter));
      if part.value == [] { continue; }
      parts := parts + part.value;
      if end == |body| { break; }
    }
    NothingLeft(body[cursor..], delimiter);
    PrependAll(parts);
    r := Some(parts);
  }

  lemma PrependFails(parts: seq<Part>)
    ensures Prepend(parts, None) == None
  {
  }

  lemma PrependAll(parts: seq<Part>)
    ensures Prepend(parts, Some([])) == Some(parts)
  {
    assert parts + [] == parts;
  }

  lemma NothingLeft(rest: Bytes, delimiter: Bytes)
    requires delimiter != []
    ensures FindSubslice(rest, delimiter).None? || rest == [] ==> PartsOf(rest, delimiter) == Some([])
  {
  }

  lemma PrependNothing(rest: Option<seq<Part>>)
    ensures Prepend([], rest) == rest
  {
    if rest.Some? { assert [] + rest.value == rest.value; }
  }

  function Prepend(parts: seq<Part>, rest: Option<seq<Part>>): Option<seq<Part>> {
    if rest.None? then None else Some(parts + rest.value)
  }

  lemma PrependMore(a: seq<Part>, b: seq<Part>, rest: Option<seq<Part>>)
    ensures Prepend(a, Prepend(b, rest)) == Prepend(a + b, rest)
    ensures b == [] ==> a + b == a
  {
    if rest.Some? { assert a + (b + rest.value) == a + b + rest.value; }
  }
}
