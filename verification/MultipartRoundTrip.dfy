/** Printing parts in any of the three framings and splitting them again. */
module MultipartRoundTrip {
  import opened Options
  import opened Multipart
  import P = EventPairing
  import Utf8

  /** How a device may frame a part. */
  datatype Framed =
    | Headed(lines: seq<Bytes>, body: Bytes)        // header lines, blank line, body
    | Unseparated(lines: seq<Bytes>, body: Bytes)   // header lines directly followed by the payload
    | Bare(body: Bytes)                             // no header at all

  function Lines(lines: seq<Bytes>): Bytes {
    if lines == [] then [] else lines[0] + CRLF + Lines(lines[1..])
  }

  /** What is printed between one delimiter and the next. */
  function Segment(p: Framed): Bytes {
    match p
    case Headed(lines, body) => CRLF + Lines(lines) + CRLF + body + CRLF
    case Unseparated(lines, body) => CRLF + Lines(lines) + body + CRLF
    case Bare(body) => CRLF + body + CRLF
  }

  const CLOSING: Bytes := [DASH, DASH, CR, LF]

  function Print(parts: seq<Framed>, delimiter: Bytes, closed: bool): Bytes {
    if parts == [] then (if closed then delimiter + CLOSING else [])
    else delimiter + Segment(parts[0]) + Print(parts[1..], delimiter, closed)
  }

  predicate PlainLine(line: Bytes) { line != [] && CR !in line && LF !in line }

  predicate AllPlain(lines: seq<Bytes>) { forall i :: 0 <= i < |lines| ==> PlainLine(lines[i]) }

  predicate AllHeaders(lines: seq<Bytes>) { forall i :: 0 <= i < |lines| ==> IsHeaderLine(lines[i]) }

  ghost predicate Free(s: Bytes, needle: Bytes) { forall i :: 0 <= i <= |s| ==> !At(s, needle, i) }

  /** What may be printed so that it can be read back: no body ends in a line feed, a carriage
      return or a dash, header lines hold neither and, without a blank line behind them, have a
      name before their colon; where nothing else says so the body opens with `<`, `{` or FF. */
  ghost predicate Printable(p: Framed, delimiter: Bytes) {
    && p.body != [] && p.body[|p.body| - 1] !in {10, 13, 45} && Free(Segment(p), delimiter)
    && match p
       case Headed(lines, _) => lines != [] && AllPlain(lines) && lines[0][0] !in {60, 123, 255}
       case Unseparated(lines, body) =>
         && lines != [] && AllPlain(lines) && AllNamed(lines)
         && body[0] in {60, 123, 255} && Free(body, BLANK)
       case Bare(body) => body[0] in {60, 123, 255}
  }

  predicate AllNamed(lines: seq<Bytes>) {
    forall i :: 0 <= i < |lines| ==> exists colon :: 0 <= colon < |lines[i]| && Named(lines[i], colon)
  }

  lemma PrintableIsReadable(p: Framed, delimiter: Bytes)
    requires Printable(p, delimiter)
    ensures Readable(p, delimiter)
  {
    hide IsHeaderLine;
    hide Free;
    hide Segment;
    if p.Unseparated? {
      forall i | 0 <= i < |p.lines| ensures IsHeaderLine(p.lines[i]) { HeaderLineMeans(p.lines[i]); }
    }
  }

  /** The same in the splitter's own terms. */
  ghost predicate Readable(p: Framed, delimiter: Bytes) {
    && p.body != [] && !Trimmed(p.body[|p.body| - 1]) && Free(Segment(p), delimiter)
    && match p
       case Headed(lines, _) => lines != [] && AllPlain(lines) && !OpensPayload(lines[0][0])
       case Unseparated(lines, body) =>
         && lines != [] && AllPlain(lines) && AllHeaders(lines)
         && OpensPayload(body[0]) && Free(body, BLANK)
       case Bare(body) => OpensPayload(body[0])
  }

  /** The header block without its last line end. */
  function HeaderText(p: Framed): Bytes {
    if p.Bare? || |Lines(p.lines)| < 2 then [] else Lines(p.lines)[..|Lines(p.lines)| - 2]
  }

  function Expected(p: Framed): Part { Part(ToAsciiLowercase(TextOrEmpty(HeaderText(p))), p.body) }

  function AllExpected(parts: seq<Framed>): seq<Part> {
    if parts == [] then [] else [Expected(parts[0])] + AllExpected(parts[1..])
  }

  // ------------------------------------------------------------- where things are

  lemma NotAt(s: Bytes, needle: Bytes, i: nat, k: nat)
    requires k < |needle| && (i + k < |s| ==> s[i + k] != needle[k])
    ensures !At(s, needle, i)
  {
    if i + k < |s| { assert s[i..][k] != needle[k]; }
  }

  lemma NotAtInside(a: Bytes, b: Bytes, needle: Bytes, i: nat)
    requires i + |needle| <= |a| && !At(a, needle, i)
    ensures !At(a + b, needle, i)
  {
    assert (a + b)[i..][..|needle|] == a[i..][..|needle|];
  }

  lemma NotAtBehind(a: Bytes, b: Bytes, needle: Bytes, i: nat)
    requires i >= |a| && !At(b, needle, i - |a|)
    ensures !At(a + b, needle, i)
  {
    if i <= |a + b| { assert (a + b)[i..] == b[i - |a|..]; }
  }

  lemma NotFound(haystack: Bytes, needle: Bytes)
    requires forall j :: 0 <= j <= |haystack| ==> !At(haystack, needle, j)
    ensures FindSubslice(haystack, needle) == None
  {
    FindSubsliceMeans(haystack, needle);
  }

  /** A segment without the delimiter, ended by a line feed the delimiter does not have, ends
      where the next delimiter begins. */
  lemma NextDelimiter(segment: Bytes, delimiter: Bytes, rest: Bytes)
    requires delimiter != [] && LF !in delimiter && Free(segment, delimiter)
    requires segment != [] && segment[|segment| - 1] == LF && delimiter <= rest
    ensures FindSubslice(segment + rest, delimiter) == Some(|segment|)
  {
    var all := segment + rest;
    assert all[|segment|..] == rest;
    forall j | 0 <= j < |segment| ensures !At(all, delimiter, j) {
      if j + |delimiter| <= |segment| {
        NotAtInside(segment, rest, delimiter, j);
      } else {
        NotAt(all, delimiter, j, |segment| - 1 - j);
      }
    }
    FoundAt(all, delimiter, |segment|);
  }

  lemma NoDelimiterLeft(segment: Bytes, delimiter: Bytes)
    requires delimiter != [] && Free(segment, delimiter)
    ensures FindSubslice(segment, delimiter) == None
  {
    FindSubsliceMeans(segment, delimiter);
  }

  /** The first line end behind a plain line. */
  lemma LineEndsAt(line: Bytes, rest: Bytes)
    requires CR !in line
    ensures FindSubslice(line + CRLF + rest, CRLF) == Some(|line|)
  {
    var all := line + CRLF + rest;
    assert all[|line|..] == CRLF + rest;
    assert (CRLF + rest)[..2] == CRLF;
    forall j | 0 <= j < |line| ensures !At(all, CRLF, j) {
      assert all[j] == line[j];
      NotAt(all, CRLF, j, 0);
    }
    FoundAt(all, CRLF, |line|);
  }

  /** A blank line cannot begin inside a plain line, nor at the end of one that is followed by
      something other than a line end. */
  lemma BlankSkipsLine(line: Bytes, rest: Bytes, j: nat)
    requires CR !in line && (rest == [] || rest[0] != CR)
    requires j >= |line| + 2 ==> !At(rest, BLANK, j - |line| - 2)
    ensures !At(line + CRLF + rest, BLANK, j)
  {
    var all := line + CRLF + rest;
    if j < |line| {
      assert all[j] == line[j];
      NotAt(all, BLANK, j, 0);
    } else if j == |line| {
      NotAt(all, BLANK, j, 2);
    } else if j == |line| + 1 {
      NotAt(all, BLANK, j, 0);
    } else {
      NotAtBehind(line + CRLF, rest, BLANK, j);
    }
  }

  lemma LinesOpen(lines: seq<Bytes>, rest: Bytes)
    requires lines != [] && AllPlain(lines)
    ensures lines[0] != [] && |Lines(lines)| >= 3 && Lines(lines)[0] == lines[0][0] && lines[0][0] != CR && CR !in lines[0] && AllPlain(lines[1..])
    ensures Lines(lines) + rest == lines[0] + CRLF + (Lines(lines[1..]) + rest)
    ensures |Lines(lines)| == |lines[0]| + 2 + |Lines(lines[1..])|
  {
    assert PlainLine(lines[0]);
    assert lines[0][0] in lines[0];
    hide PlainLine;
  }

  lemma BlankBehindLine(line: Bytes, rest: Bytes)
    requires CR !in line
    ensures FindSubslice(line + CRLF + (CRLF + rest), BLANK) == Some(|line|)
  {
    var all := line + CRLF + (CRLF + rest);
    assert all[|line|..] == CRLF + (CRLF + rest);
    assert (CRLF + (CRLF + rest))[..4] == BLANK;
    forall j | 0 <= j < |line| ensures !At(all, BLANK, j) {
      assert all[j] == line[j];
      NotAt(all, BLANK, j, 0);
    }
    FoundAt(all, BLANK, |line|);
  }

  lemma BlankBehindMore(line: Bytes, behind: Bytes, k: nat)
    requires CR !in line && (behind == [] || behind[0] != CR) && FindSubslice(behind, BLANK) == Some(k)
    ensures FindSubslice(line + CRLF + behind, BLANK) == Some(|line| + 2 + k)
  {
    var all := line + CRLF + behind;
    FindSubsliceMeans(behind, BLANK);
    assert all[|line| + 2 + k..] == behind[k..];
    forall j | 0 <= j < |line| + 2 + k ensures !At(all, BLANK, j) { BlankSkipsLine(line, behind, j); }
    FoundAt(all, BLANK, |line| + 2 + k);
  }

  /** The blank line behind plain header lines is the first one. */
  lemma {:induction false} BlankBehindLines(lines: seq<Bytes>, rest: Bytes)
    requires lines != [] && AllPlain(lines)
    ensures |Lines(lines)| >= 3 && FindSubslice(Lines(lines) + (CRLF + rest), BLANK) == Some(|Lines(lines)| - 2)
    decreases |lines|
  {
    LinesOpen(lines, CRLF + rest);
    var behind := Lines(lines[1..]) + (CRLF + rest);
    hide FindSubslice;
    hide AllPlain;
    if lines[1..] == [] {
      assert Lines(lines[1..]) == [] && behind == CRLF + rest;
      BlankBehindLine(lines[0], rest);
    } else {
      BlankBehindLines(lines[1..], rest);
      LinesOpen(lines[1..], CRLF + rest);
      hide Lines;
      BlankBehindMore(lines[0], behind, |Lines(lines[1..])| - 2);
    }
  }

  lemma NoBlankAtEnd(body: Bytes, j: nat)
    requires body != [] && !Trimmed(body[|body| - 1]) && Free(body, BLANK)
    ensures !At(body + CRLF, BLANK, j)
  {
    if j + 4 <= |body| {
      NotAtInside(body, CRLF, BLANK, j);
    } else if j < |body| {
      assert (body + CRLF)[|body| - 1] == body[|body| - 1];
      NotAt(body + CRLF, BLANK, j, |body| - 1 - j);
    } else {
      NotAt(body + CRLF, BLANK, j, 3);
    }
  }

  /** No blank line anywhere in header lines directly followed by a payload. */
  lemma {:induction false} NoBlankInUnseparated(lines: seq<Bytes>, body: Bytes, j: nat)
    requires AllPlain(lines) && body != [] && body[0] != CR && !Trimmed(body[|body| - 1]) && Free(body, BLANK)
    ensures !At(Lines(lines) + (body + CRLF), BLANK, j)
    decreases |lines|
  {
    if lines == [] {
      assert Lines(lines) + (body + CRLF) == body + CRLF;
      NoBlankAtEnd(body, j);
    } else {
      LinesOpen(lines, body + CRLF);
      var line, behind := lines[0], Lines(lines[1..]) + (body + CRLF);
      if lines[1..] == [] { assert behind == body + CRLF; } else { LinesOpen(lines[1..], body + CRLF); }
      assert behind[0] != CR;
      if j >= |line| + 2 { NoBlankInUnseparated(lines[1..], body, j - |line| - 2); }
      hide At;
      BlankSkipsLine(line, behind, j);
    }
  }

  lemma PayloadIsNoHeader(line: Bytes)
    requires line != [] && OpensPayload(line[0])
    ensures !IsHeaderLine(line)
  {
    UpToMeans(line, COLON);
    if UpTo(line, COLON).Some? && UpTo(line, COLON).value > 0 {
      assert line[..UpTo(line, COLON).value][0] == line[0];
      assert line[0] in line[..UpTo(line, COLON).value];
    }
  }

  lemma PayloadLine(body: Bytes)
    requires body != [] && OpensPayload(body[0])
    ensures FirstOtherLine(body + CRLF) == Some(0)
  {
    var rest := body + CRLF;
    assert rest[|body|..] == CRLF;
    FindSubsliceMeans(rest, CRLF);
    assert At(rest, CRLF, |body|);
    NotAt(rest, CRLF, 0, 0);
    var found := FindSubslice(rest, CRLF).value;
    assert rest[..found][0] == body[0];
    PayloadIsNoHeader(rest[..found]);
    FirstLineDecides(rest);
  }

  lemma HeaderLineSkipped(line: Bytes, behind: Bytes, n: nat)
    requires CR !in line && IsHeaderLine(line)
    ensures Beyond(n, FirstOtherLine(line + CRLF + behind)) == Beyond(n + |line| + 2, FirstOtherLine(behind))
  {
    var rest := line + CRLF + behind;
    LineEndsAt(line, behind);
    assert rest[..|line|] == line && rest[|line| + 2..] == behind;
    hide *;
    HeaderLineNext(rest, |line|, n);
  }

  lemma HeadersOpen(lines: seq<Bytes>)
    requires lines != [] && AllHeaders(lines)
    ensures IsHeaderLine(lines[0]) && AllHeaders(lines[1..])
  {
    hide IsHeaderLine;
  }

  lemma {:induction false} HeadersSkipped(lines: seq<Bytes>, tail: Bytes, n: nat)
    requires AllPlain(lines) && AllHeaders(lines)
    ensures Beyond(n, FirstOtherLine(Lines(lines) + tail)) == Beyond(n + |Lines(lines)|, FirstOtherLine(tail))
    decreases |lines|
  {
    hide FirstOtherLine;
    if lines == [] {
      assert Lines(lines) == [] && [] + tail == tail;
    } else {
      hide *;
      LinesOpen(lines, tail);
      HeadersOpen(lines);
      HeaderLineSkipped(lines[0], Lines(lines[1..]) + tail, n);
      HeadersSkipped(lines[1..], tail, n + |lines[0]| + 2);
    }
  }

  /** The first line that is not a header is the payload's. */
  lemma HeadersEndAtPayload(lines: seq<Bytes>, body: Bytes)
    requires AllPlain(lines) && AllHeaders(lines) && body != [] && OpensPayload(body[0])
    ensures FirstOtherLine(Lines(lines) + (body + CRLF)) == Some(|Lines(lines)|)
  {
    hide FirstOtherLine;
    hide Lines;
    PayloadLine(body);
    HeadersSkipped(lines, body + CRLF, 0);
  }

  // ---------------------------------------------------------------- one segment

  lemma LeadingIsTwo(s: Bytes)
    requires |s| > 2 && s[..2] == CRLF && s[2] != CR
    ensures LeadingCrlf(s) == 2
  {
    assert CRLF <= s;
    assert !(CRLF <= s[2..]) by { assert s[2..][0] == s[2]; }
  }

  lemma TrimsToBody(body: Bytes)
    requires body != [] && !Trimmed(body[|body| - 1])
    ensures TrimTail(body + CRLF) == body
  {
    var one, two := body + [CR], body + CRLF;
    assert two[..|two| - 1] == one && one[..|one| - 1] == body;
    assert TrimTail(body) == body;
    assert TrimTail(one) == TrimTail(body);
    assert TrimTail(two) == TrimTail(one);
  }

  /** The line end in front of a segment is skipped. */
  lemma SegmentOpens(inner: Bytes, first: Byte)
    requires inner != [] && inner[0] == first && first != CR
    ensures LeadingCrlf(CRLF + inner) == 2 && (CRLF + inner)[2..] == inner && (CRLF + inner)[2] == first
  {
    var s := CRLF + inner;
    assert s[2..] == inner && s[2] == inner[0] && s[..2] == CRLF;
    LeadingIsTwo(s);
    hide LeadingCrlf;
  }

  lemma PayloadIsNoBreak(b: Byte)
    requires OpensPayload(b)
    ensures b != CR
  {
  }

  lemma HeadedAt(s: Bytes, inner: Bytes, lines: Bytes, rest: Bytes)
    requires |lines| >= 3 && inner == lines + (CRLF + rest) && |s| == 2 + |inner| && s[2..] == inner && !OpensPayload(s[2])
    requires FindSubslice(inner, BLANK) == Some(|lines| - 2)
    ensures SplitHeadersAt(s, 2) == Split(TextOrEmpty(lines[..|lines| - 2]), 2 + |lines| + 2)
    ensures 2 + |lines| + 2 <= |s| && s[2 + |lines| + 2..] == rest
  {
    hide FindSubslice;
    hide FirstOtherLine;
    hide TextOrEmpty;
    hide OpensPayload;
    var end := 2 + |lines| - 2;
    assert s[2..end] == inner[..|lines| - 2] == lines[..|lines| - 2];
    assert s[end + 4..] == inner[|lines| + 2..] == rest;
  }

  lemma UnseparatedAt(s: Bytes, inner: Bytes, lines: Bytes, rest: Bytes)
    requires |lines| >= 3 && inner == lines + rest && |s| == 2 + |inner| && s[2..] == inner && !OpensPayload(s[2])
    requires FindSubslice(inner, BLANK) == None && FirstOtherLine(inner) == Some(|lines|)
    ensures SplitHeadersAt(s, 2) == Split(TextOrEmpty(lines[..|lines| - 2]), 2 + |lines|)
    ensures 2 + |lines| <= |s| && s[2 + |lines|..] == rest
  {
    hide FindSubslice;
    hide FirstOtherLine;
    hide TextOrEmpty;
    hide OpensPayload;
    var scan := 2 + |lines|;
    assert s[2..scan - 2] == inner[..|lines| - 2] == lines[..|lines| - 2];
    assert s[scan..] == inner[|lines|..] == rest;
  }

  lemma HeadedSplits(lines: seq<Bytes>, body: Bytes)
    requires lines != [] && AllPlain(lines) && !OpensPayload(lines[0][0])
    ensures var s := CRLF + (Lines(lines) + (CRLF + (body + CRLF)));
      |Lines(lines)| >= 3
      && SplitHeadersOf(s) == Split(TextOrEmpty(Lines(lines)[..|Lines(lines)| - 2]), 2 + |Lines(lines)| + 2) && 2 + |Lines(lines)| + 2 <= |s|
      && s[2 + |Lines(lines)| + 2..] == body + CRLF
  {
    hide *;
    var inner := Lines(lines) + (CRLF + (body + CRLF));
    var s := CRLF + inner;
    LinesOpen(lines, CRLF + (body + CRLF));
    BlankBehindLines(lines, body + CRLF);
    SegmentOpens(inner, Lines(lines)[0]);
    SplitHeadersOfIs(s);
    HeadedAt(s, inner, Lines(lines), body + CRLF);
  }

  lemma UnseparatedSplits(lines: seq<Bytes>, body: Bytes)
    requires lines != [] && AllPlain(lines) && AllHeaders(lines)
    requires body != [] && OpensPayload(body[0]) && !Trimmed(body[|body| - 1]) && Free(body, BLANK)
    ensures var s := CRLF + (Lines(lines) + (body + CRLF));
      |Lines(lines)| >= 3
      && SplitHeadersOf(s) == Split(TextOrEmpty(Lines(lines)[..|Lines(lines)| - 2]), 2 + |Lines(lines)|) && 2 + |Lines(lines)| <= |s|
      && s[2 + |Lines(lines)|..] == body + CRLF
  {
    hide *;
    var inner := Lines(lines) + (body + CRLF);
    var s := CRLF + inner;
    LinesOpen(lines, body + CRLF);
    HeadersOpen(lines);
    HeaderOpens(lines[0]);
    PayloadIsNoBreak(body[0]);
    SegmentOpens(inner, Lines(lines)[0]);
    SplitHeadersOfIs(s);
    forall j: nat ensures !At(inner, BLANK, j) { NoBlankInUnseparated(lines, body, j); }
    NotFound(inner, BLANK);
    HeadersEndAtPayload(lines, body);
    UnseparatedAt(s, inner, Lines(lines), body + CRLF);
  }

  lemma HeaderOpens(line: Bytes)
    ensures line != [] && IsHeaderLine(line) ==> !OpensPayload(line[0])
  {
    if line != [] && OpensPayload(line[0]) { PayloadIsNoHeader(line); }
  }

  lemma BareSplits(body: Bytes)
    requires body != [] && OpensPayload(body[0])
    ensures var s := CRLF + (body + CRLF); SplitHeadersOf(s) == Split([], 2) && s[2..] == body + CRLF
  {
    var s := CRLF + (body + CRLF);
    assert s[..2] == CRLF && s[2] == body[0];
    LeadingIsTwo(s);
  }

  /** A printed segment is read back as its part. */
  lemma SegmentReadsBack(p: Framed, delimiter: Bytes)
    requires Printable(p, delimiter)
    ensures PartOf(Segment(p)) == Some([Expected(p)])
  {
    PrintableIsReadable(p, delimiter);
    TrimsToBody(p.body);
    match p
    case Headed(lines, body) => HeadedReadsBack(p);
    case Unseparated(lines, body) => UnseparatedReadsBack(p);
    case Bare(body) => BareReadsBack(p);
  }

  lemma SegmentShape(p: Framed)
    ensures Segment(p) == match p
      case Headed(lines, body) => CRLF + (Lines(lines) + (CRLF + (body + CRLF)))
      case Unseparated(lines, body) => CRLF + (Lines(lines) + (body + CRLF))
      case Bare(body) => CRLF + (body + CRLF)
  {
    match p
    case Headed(lines, body) => SameSum(CRLF, Lines(lines), CRLF, body, CRLF);
    case Unseparated(lines, body) =>
      SameSum(CRLF, Lines(lines), [], body, CRLF);
      assert CRLF + Lines(lines) + [] == CRLF + Lines(lines) && [] + (body + CRLF) == body + CRLF;
    case Bare(body) => assert CRLF + body + CRLF == CRLF + (body + CRLF);
  }

  lemma SameSum(a: Bytes, b: Bytes, c: Bytes, d: Bytes, e: Bytes)
    ensures a + b + c + d + e == a + (b + (c + (d + e)))
  {
  }

  lemma HeadedReadsBack(p: Framed)
    requires p.Headed? && p.lines != [] && AllPlain(p.lines) && !OpensPayload(p.lines[0][0])
    requires p.body != [] && TrimTail(p.body + CRLF) == p.body
    ensures PartOf(Segment(p)) == Some([Expected(p)])
  {
    hide *;
    SegmentShape(p);
    HeadedSplits(p.lines, p.body);
    ReadsBack(p, Lines(p.lines)[..|Lines(p.lines)| - 2], 2 + |Lines(p.lines)| + 2);
  }

  lemma UnseparatedReadsBack(p: Framed)
    requires p.Unseparated? && p.lines != [] && AllPlain(p.lines) && AllHeaders(p.lines)
    requires p.body != [] && OpensPayload(p.body[0]) && !Trimmed(p.body[|p.body| - 1]) && Free(p.body, BLANK)
    requires TrimTail(p.body + CRLF) == p.body
    ensures PartOf(Segment(p)) == Some([Expected(p)])
  {
    hide *;
    SegmentShape(p);
    UnseparatedSplits(p.lines, p.body);
    ReadsBack(p, Lines(p.lines)[..|Lines(p.lines)| - 2], 2 + |Lines(p.lines)|);
  }

  lemma BareReadsBack(p: Framed)
    requires p.Bare? && p.body != [] && OpensPayload(p.body[0]) && TrimTail(p.body + CRLF) == p.body
    ensures PartOf(Segment(p)) == Some([Expected(p)])
  {
    assert Segment(p) == CRLF + (p.body + CRLF);
    BareSplits(p.body);
    assert TextOrEmpty([]) == [];
    hide *;
    ReadsBack(p, [], 2);
  }

  lemma ReadsBack(p: Framed, headers: Bytes, content: nat)
    requires SplitHeadersOf(Segment(p)) == Split(TextOrEmpty(headers), content) && content <= |Segment(p)|
    requires Segment(p)[content..] == p.body + CRLF && TrimTail(p.body + CRLF) == p.body && p.body != []
    requires p.Bare? ==> headers == []
    requires !p.Bare? ==> |Lines(p.lines)| >= 3 && headers == Lines(p.lines)[..|Lines(p.lines)| - 2]
    ensures PartOf(Segment(p)) == Some([Expected(p)])
  {
    hide SplitHeadersOf;
    hide Segment;
    hide TrimTail;
    hide TextOrEmpty;
    hide Lines;
  }

  lemma ClosingSplits()
    ensures SplitHeadersOf(CLOSING) == Split([], 0)
  {
    assert !(CRLF <= CLOSING) by { assert CLOSING[0] != CRLF[0]; }
    assert LeadingCrlf(CLOSING) == 0 && CLOSING[0..] == CLOSING;
    forall j: nat ensures !At(CLOSING, BLANK, j) { NotAt(CLOSING, BLANK, j, if j == 0 then 0 else 3); }
    NotFound(CLOSING, BLANK);
    assert CLOSING == [DASH, DASH] + CRLF + [];
    LineEndsAt([DASH, DASH], []);
    assert CLOSING[..2] == [DASH, DASH];
    UpToMeans([DASH, DASH], COLON);
    FirstLineDecides(CLOSING);
    hide FindSubslice;
    hide FirstOtherLine;
  }

  /** What follows the last part, between the closing delimiter and the end, is no part. */
  lemma ClosingYieldsNothing()
    ensures PartOf(CLOSING) == Some([])
  {
    ClosingSplits();
    hide SplitHeadersOf;
    var dashes: Bytes := [DASH, DASH];
    assert CLOSING[0..] == CLOSING;
    assert CLOSING[..3] == [DASH, DASH, CR] && [DASH, DASH, CR][..2] == dashes;
    assert dashes[..1] == [DASH] && [DASH][..0] == [];
    assert TrimTail(dashes) == TrimTail([DASH]) == [];
    assert TrimTail([DASH, DASH, CR]) == TrimTail(dashes);
    assert TrimTail(CLOSING) == TrimTail([DASH, DASH, CR]);
    hide TrimTail;
  }

  // ------------------------------------------------------------------ round trip

  lemma SegmentEndsInLf(p: Framed)
    ensures Segment(p) != [] && Segment(p)[|Segment(p)| - 1] == LF
  {
    hide Lines;
  }

  lemma PrintOpens(parts: seq<Framed>, delimiter: Bytes, closed: bool)
    ensures Print(parts, delimiter, closed) == [] || delimiter <= Print(parts, delimiter, closed)
    ensures Print(parts, delimiter, closed) == [] ==> parts == []
  {
  }

  lemma FirstDelimiter(delimiter: Bytes, after: Bytes)
    requires delimiter != []
    ensures FindSubslice(delimiter + after, delimiter) == Some(0) && (delimiter + after)[|delimiter|..] == after
  {
    var all := delimiter + after;
    assert all[0..] == all && all[..|delimiter|] == delimiter;
    FoundAt(all, delimiter, 0);
  }

  lemma OneMorePart(p: Framed, rest: Bytes, delimiter: Bytes)
    requires delimiter != [] && LF !in delimiter && Printable(p, delimiter) && (rest == [] || delimiter <= rest)
    ensures PartsOf(delimiter + Segment(p) + rest, delimiter) == Prepend([Expected(p)], PartsOf(rest, delimiter))
  {
    assert Free(Segment(p), delimiter);
    hide *;
    var segment, after := Segment(p), Segment(p) + rest;
    FirstDelimiter(delimiter, after);
    assert delimiter + segment + rest == delimiter + after;
    SegmentEndsInLf(p);
    SegmentReadsBack(p, delimiter);
    if rest == [] {
      NoDelimiterLeft(segment, delimiter);
      assert after == segment;
    } else {
      NextDelimiter(segment, delimiter, rest);
    }
    assert after[..|segment|] == segment && after[|segment|..] == rest;
    PartsOfUnfolds(delimiter + after, delimiter, 0, after, |segment|);
  }

  lemma ClosingPart(delimiter: Bytes)
    requires delimiter != [] && Free(CLOSING, delimiter)
    ensures PartsOf(delimiter + CLOSING, delimiter) == Some([])
  {
    var all := delimiter + CLOSING;
    assert all[0..] == all && all[..|delimiter|] == delimiter && all[|delimiter|..] == CLOSING;
    FoundAt(all, delimiter, 0);
    NoDelimiterLeft(CLOSING, delimiter);
    ClosingYieldsNothing();
    NothingLeft([], delimiter);
    var closing := CLOSING;
    assert closing == CLOSING;
    hide *;
    assert closing[..|closing|] == closing && closing[|closing|..] == [];
    PartsOfUnfolds(all, delimiter, 0, closing, |closing|);
    PrependNothing(Some([]));
  }

  /** Splitting what was printed, in any mixture of framings, gives back the parts: headers in
      lower case, bodies byte for byte, nothing for the closing delimiter. */
  lemma {:induction false} SplitInvertsPrint(parts: seq<Framed>, boundary: Bytes, closed: bool)
    requires LF !in boundary && boundary != [] && boundary[0] != CR
    requires forall p :: p in parts ==> Printable(p, Delimiter(boundary))
    ensures PartsOf(Print(parts, Delimiter(boundary), closed), Delimiter(boundary)) == Some(AllExpected(parts))
    decreases |parts|
  {
    var delimiter := Delimiter(boundary);
    assert LF !in delimiter;
    if parts == [] {
      if closed {
        assert Free(CLOSING, delimiter) by { BoundaryNotInClosing(boundary); }
        ClosingPart(delimiter);
      } else {
        NothingLeft([], delimiter);
      }
    } else {
      assert parts[0] in parts;
      PrintOpens(parts[1..], delimiter, closed);
      OneMorePart(parts[0], Print(parts[1..], delimiter, closed), delimiter);
      SplitInvertsPrint(parts[1..], boundary, closed);
    }
  }

  /** `lower` is `text` with 32 added to exactly the bytes from 65 to 90. */
  predicate Lowered(text: Bytes, lower: Bytes) {
    |lower| == |text| && forall j :: 0 <= j < |text| ==> lower[j] == if 65 <= text[j] <= 90 then text[j] + 32 else text[j]
  }

  /** How a printed part comes back: its body; its header block lowered when that is ASCII, or
      encodes any code points at all; and an empty one when it is no text. */
  ghost predicate ComesBack(p: Framed, part: Part) {
    && part.body == p.body
    && ((forall j :: 0 <= j < |HeaderText(p)| ==> HeaderText(p)[j] < 0x80) ==> Lowered(HeaderText(p), part.headers))
    && ((exists points :: Utf8.Encodes(HeaderText(p), points)) ==> Lowered(HeaderText(p), part.headers))
    && ((forall points :: !Utf8.Encodes(HeaderText(p), points)) ==> part.headers == [])
  }

  lemma ExpectedComesBack(p: Framed)
    ensures ComesBack(p, Expected(p))
  {
    var text, headers := HeaderText(p), Expected(p).headers;
    assert headers == ToAsciiLowercase(TextOrEmpty(text));
    TextComesBack(text);
    hide HeaderText;
    hide ToAsciiLowercase;
    hide TextOrEmpty;
    hide Lowered;
    hide Utf8.Encodes;
  }

  lemma TextComesBack(text: Bytes)
    ensures var headers := ToAsciiLowercase(TextOrEmpty(text));
      && ((forall j :: 0 <= j < |text| ==> text[j] < 0x80) ==> Lowered(text, headers))
      && ((exists points :: Utf8.Encodes(text, points)) ==> Lowered(text, headers))
      && ((forall points :: !Utf8.Encodes(text, points)) ==> headers == [])
  {
    hide *;
    if points :| Utf8.Encodes(text, points) { Utf8.EncodedIsValid(text, points); }
    if Utf8.Valid(text) { var points := Utf8.ValidIsEncoded(text); }
    if forall j :: 0 <= j < |text| ==> text[j] < 0x80 { Utf8.AsciiIsValid(text); }
    LowercaseLowers(text);
    TextIs(text);
  }

  lemma LowercaseLowers(text: Bytes)
    ensures Lowered(text, ToAsciiLowercase(text)) && ToAsciiLowercase([]) == []
  {
  }

  lemma TextIs(text: Bytes)
    ensures TextOrEmpty(text) == if Utf8.Valid(text) then text else []
  {
    hide Utf8.Valid;
  }

  lemma {:induction false} AllExpectedAt(parts: seq<Framed>)
    ensures |AllExpected(parts)| == |parts|
    ensures forall i :: 0 <= i < |parts| ==> AllExpected(parts)[i] == Expected(parts[i])
  {
    hide Expected;
    if parts != [] { AllExpectedAt(parts[1..]); }
  }

  /** What the splitter makes of a printed message, part by part; a delimiter is the boundary behind two dashes. */
  lemma PrintedPartsComeBack(parts: seq<Framed>, boundary: Bytes, closed: bool)
    requires 10 !in boundary && boundary != [] && boundary[0] != 13
    requires forall p :: p in parts ==> Printable(p, [45, 45] + boundary)
    ensures var r := PartsOf(Print(parts, [45, 45] + boundary, closed), Delimiter(boundary));
      r.Some? && |r.value| == |parts| && forall i :: 0 <= i < |parts| ==> ComesBack(parts[i], r.value[i])
  {
    DelimiterIs(boundary);
    hide *;
    SplitInvertsPrint(parts, boundary, closed);
    AllExpectedAt(parts);
    forall i | 0 <= i < |parts| ensures ComesBack(parts[i], AllExpected(parts)[i]) { ExpectedComesBack(parts[i]); }
  }

  lemma DelimiterIs(boundary: Bytes)
    ensures Delimiter(boundary) == [45, 45] + boundary && LF == 10 && CR == 13
  {
  }

  lemma BoundaryNotInClosing(boundary: Bytes)
    requires boundary != [] && boundary[0] != CR
    ensures Free(CLOSING, Delimiter(boundary))
  {
    var delimiter := Delimiter(boundary);
    forall i | 0 <= i <= |CLOSING| ensures !At(CLOSING, delimiter, i) {
      NotAt(CLOSING, delimiter, i, if i == 0 then 2 else if i == 1 then 1 else 0);
    }
  }
}
