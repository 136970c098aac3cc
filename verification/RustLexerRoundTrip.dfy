/** Text put together from pieces that do not run into each other, and what the lexer makes of it: exactly the code. */
module RustLexerRoundTrip {
  import opened Options
  import opened Sequences
  import opened RustLexer

  datatype Quotable = Plain(c: char) | Escaped(c: char)

  datatype CharBody = One(c: char) | Escape(c: char) | Hex(a: char, b: char) | Unicode(digits: string)

  /** The inside of a block comment; comments nest. */
  datatype Item = Ch(c: char) | Nested(items: seq<Item>)

  datatype Piece =
    | Ident(text: string)
    | Punct(c: char)
    | Quoted(prefix: string, body: seq<Quotable>)
    | Raw(prefix: string, hashes: nat, inside: string)
    | Character(content: CharBody)
    | LineComment(comment: string)
    | BlockComment(items: seq<Item>)
  {
    predicate Code() { Ident? || Punct? }
  }

  function QuotedText(body: seq<Quotable>): string {
    if body == [] then "" else QuotableText(body[0]) + QuotedText(body[1..])
  }

  function QuotableText(q: Quotable): string {
    match q
    case Plain(c) => [c]
    case Escaped(c) => ['\\', c]
  }

  function CharText(content: CharBody): string {
    match content
    case One(c) => [c]
    case Escape(c) => ['\\', c]
    case Hex(a, b) => ['\\', 'x', a, b]
    case Unicode(digits) => ['\\', 'u', '{'] + digits + ['}']
  }

  function ItemText(item: Item): (s: string)
    ensures s != ""
    decreases item
  {
    match item
    case Ch(c) => [c]
    case Nested(items) => "/*" + ItemsText(items) + "*/"
  }

  function ItemsText(items: seq<Item>): string
    decreases items
  {
    if items == [] then "" else ItemText(items[0]) + ItemsText(items[1..])
  }

  function Text(p: Piece): (s: string)
    ensures s != "" || p == Ident("")
  {
    match p
    case Ident(text) => text
    case Punct(c) => [c]
    case Quoted(prefix, body) => prefix + (['\"'] + (QuotedText(body) + ['\"']))
    case Raw(prefix, hashes, inside) => prefix + ("r" + (Hashes(hashes) + (['\"'] + (inside + (['\"'] + Hashes(hashes))))))
    case Character(content) => ['\''] + (CharText(content) + ['\''])
    case LineComment(comment) => "//" + comment
    case BlockComment(items) => "/*" + (ItemsText(items) + "*/")
  }

  // ------------------------------------------------------------------ conditions

  predicate Mark(k: Classes, c: char) { !k.space(c) && !k.alpha(c) && !k.alnum(c) }

  /** The character classes behave on the characters the lexer looks for. */
  ghost predicate Sane(k: Classes) {
    && Mark(k, '/') && Mark(k, '*') && Mark(k, '\"') && Mark(k, '\'') && Mark(k, '#') && Mark(k, '\\')
    && !k.space('_') && !k.alpha('\n') && !k.alnum('\n')
    && k.alpha('b') && k.alpha('c') && k.alpha('r')
    && (forall c :: k.alpha(c) ==> k.alnum(c)) && (forall c :: k.alnum(c) ==> !k.space(c))
  }

  predicate AsciiLetter(c: char) { 'a' <= c <= 'z' || 'A' <= c <= 'Z' }

  /** The classes as they are on ASCII; the four separators from 0x1c on count as white space. */
  const Ascii: Classes :=
    Classes((c: char) => c == ' ' || '\t' <= c <= '\r' || '\U{1c}' <= c <= '\U{1f}', (c: char) => AsciiLetter(c), (c: char) => AsciiLetter(c) || '0' <= c <= '9')

  lemma AsciiIsSane()
    ensures Sane(Ascii)
  {
  }

  predicate IdentChar(k: Classes, c: char) { k.alnum(c) || c == '_' }

  predicate Prefix(prefix: string) { prefix == "" || prefix == "b" || prefix == "c" }

  predicate FineQuotable(q: Quotable) { q.Escaped? || (q.c != '\"' && q.c != '\\') }

  predicate FineChar(content: CharBody) {
    match content
    case One(c) => c != '\'' && c != '\n' && c != '\r' && c != '\\'
    case Escape(c) => c != 'x'
    case Hex(_, _) => true
    case Unicode(digits) => '}' !in digits
  }

  /** No comment mark arises between neighbours; `after` is the text behind the items. */
  predicate FineItems(items: seq<Item>, after: string)
    decreases items
  {
    items == [] || (FineItem(items[0], ItemsText(items[1..]) + after) && FineItems(items[1..], after))
  }

  predicate FineItem(item: Item, after: string)
    decreases item
  {
    match item
    case Ch('/') => after == "" || after[0] != '*'
    case Ch('*') => after == "" || after[0] != '/'
    case Ch(_) => true
    case Nested(items) => FineItems(items, "*/")
  }

  ghost predicate Fine(k: Classes, p: Piece) {
    match p
    case Ident(text) => text != "" && (k.alpha(text[0]) || text[0] == '_') && forall c :: c in text ==> IdentChar(k, c)
    case Punct(c) => !k.space(c) && !k.alpha(c) && c != '_' && c != '\"' && c != '\n'
    case Quoted(prefix, body) => Prefix(prefix) && FineBody(body)
    case Raw(prefix, hashes, inside) => Prefix(prefix) && FindIn(inside, ['\"'] + Hashes(hashes)) == None
    case Character(content) => FineChar(content)
    case LineComment(comment) => '\n' !in comment
    case BlockComment(items) => FineItems(items, "*/")
  }

  predicate White(k: Classes, s: string) { forall i :: 0 <= i < |s| ==> Blank(k, s[i]) }

  /** Whether a piece ends where it should in front of `rest`: an identifier does not go on and does
      not make a literal of what follows, a slash no comment, an apostrophe no character, and a line
      comment ends with its line. Literals and block comments end by themselves. */
  ghost predicate Separates(k: Classes, p: Piece, rest: string) {
    match p
    case Ident(text) =>
      && (rest == "" || !IdentChar(k, rest[0]))
      && RawLen(text + rest).None?
      && (text in {"b", "c"} && rest != "" ==> rest[0] != QUOTE)
    case Punct(c) =>
      && (c == '/' && rest != "" ==> rest[0] != '/' && rest[0] != '*')
      && (c == TICK ==> CharLen([TICK] + rest).None?)
    case LineComment(_) => rest == "" || rest[0] == NEWLINE
    case _ => true
  }

  predicate Blank(k: Classes, c: char) { k.space(c) || c == NEWLINE }

  /** White space keeps apart any two pieces, but for an apostrophe. */
  lemma BlankSeparates(k: Classes, p: Piece, rest: string)
    requires Sane(k) && Fine(k, p) && p != Punct(TICK)
    requires rest == "" || if p.LineComment? then rest[0] == NEWLINE else Blank(k, rest[0])
    ensures Separates(k, p, rest)
  {
    if p.Ident? { IdentIsNotRaw(k, p.text, rest); }
    hide RawLen;
    hide CharLen;
  }

  // ------------------------------------------------------------- small searches

  lemma NotStarts(word: string, s: string, i: nat)
    requires i < |word| && (i < |s| ==> s[i] != word[i])
    ensures !(word <= s)
  {
  }

  lemma {:induction false} FindsAtEnd(inside: string, hashes: nat, rest: string)
    requires FindIn(inside, Terminator(hashes)) == None
    ensures FindIn(inside + (Terminator(hashes) + rest), Terminator(hashes)) == Some(|inside|)
    decreases |inside|
  {
    var term := Terminator(hashes);
    var s := inside + (term + rest);
    if inside == "" {
      assert s == term + rest;
      FrontAndBack(term, rest);
    } else {
      assert s[1..] == inside[1..] + (term + rest);
      if |inside| >= |term| {
        assert s[..|term|] == inside[..|term|];
      } else {
        assert s[|inside|] == QUOTE && term[|inside|] == '#';
        NotStarts(term, s, |inside|);
      }
      assert !(term <= s);
      FindsAtEnd(inside[1..], hashes, rest);
    }
  }

  lemma {:induction false} FindsBrace(digits: string, rest: string)
    requires '}' !in digits
    ensures FindIn(digits + ("}" + rest), "}") == Some(|digits|)
    decreases |digits|
  {
    var s := digits + ("}" + rest);
    if digits == "" {
      assert s == "}" + rest;
      FrontAndBack("}", rest);
    } else {
      assert s[1..] == digits[1..] + ("}" + rest);
      assert s[0] == digits[0] && digits[0] in digits;
      NotStarts("}", s, 0);
      FindsBrace(digits[1..], rest);
    }
  }

  lemma {:induction false} CountsHashes(hashes: nat, rest: string)
    requires rest == "" || rest[0] != '#'
    ensures HashCount(Hashes(hashes) + rest) == hashes
    decreases hashes
  {
    var s := Hashes(hashes) + rest;
    if hashes == 0 {
      assert s == rest;
    } else {
      assert s[1..] == Hashes(hashes - 1) + rest;
      CountsHashes(hashes - 1, rest);
    }
  }

  lemma OneQuotable(q: Quotable, more: string)
    requires FineQuotable(q)
    ensures QuotedLen(QuotableText(q) + more, QUOTE) == |QuotableText(q)| + QuotedLen(more, QUOTE)
  {
    match q
    case Plain(c) => assert ([c] + more)[1..] == more;
    case Escaped(c) => assert ([BACKSLASH, c] + more)[2..] == more;
  }

  lemma QuoteEnds(rest: string)
    ensures QuotedLen(QuotedText([]) + ([QUOTE] + rest), QUOTE) == |QuotedText([])| + 1
  {
    assert "" + ([QUOTE] + rest) == [QUOTE] + rest;
  }

  lemma QuotedUnfolds(body: seq<Quotable>, end: string)
    requires body != [] && FineBody(body)
    ensures QuotedText(body) + end == QuotableText(body[0]) + (QuotedText(body[1..]) + end)
    ensures |QuotedText(body)| == |QuotableText(body[0])| + |QuotedText(body[1..])|
    ensures FineQuotable(body[0]) && FineBody(body[1..])
  {
    hide FineQuotable;
    hide QuotableText;
  }

  predicate FineBody(body: seq<Quotable>) { forall i :: 0 <= i < |body| ==> FineQuotable(body[i]) }

  lemma {:induction false} QuotedEnds(body: seq<Quotable>, rest: string)
    requires FineBody(body)
    ensures QuotedLen(QuotedText(body) + ([QUOTE] + rest), QUOTE) == |QuotedText(body)| + 1
    decreases |body|
  {
    hide *;
    if body == [] {
      QuoteEnds(rest);
    } else {
      QuotedUnfolds(body, [QUOTE] + rest);
      QuotedEnds(body[1..], rest);
      OneQuotable(body[0], QuotedText(body[1..]) + ([QUOTE] + rest));
    }
  }

  lemma {:induction false} LineEnds(comment: string, rest: string)
    requires NEWLINE !in comment && (rest == "" || rest[0] == NEWLINE)
    ensures LineLen(comment + rest) == |comment|
    decreases |comment|
  {
    if comment == "" {
      assert comment + rest == rest;
    } else {
      assert comment[0] in comment && (comment + rest)[1..] == comment[1..] + rest;
      LineEnds(comment[1..], rest);
    }
  }

  lemma {:induction false} IdentEnds(k: Classes, text: string, rest: string)
    requires (forall c :: c in text ==> IdentChar(k, c)) && (rest == "" || !IdentChar(k, rest[0]))
    ensures IdentLen(k, text + rest) == |text|
    decreases |text|
  {
    if text == "" {
      assert text + rest == rest;
    } else {
      assert text[0] in text && (text + rest)[1..] == text[1..] + rest;
      IdentEnds(k, text[1..], rest);
    }
  }

  // -------------------------------------------------------------- block comments

  lemma OneChar(c: char, after: string, depth: nat)
    requires depth > 0 && FineItem(Ch(c), after)
    ensures BlockLen([c] + after, depth) == 1 + BlockLen(after, depth)
  {
    var s := [c] + after;
    assert s[1..] == after;
    if c == '/' {
      NotStarts("/*", s, 1);
      NotStarts("*/", s, 0);
    } else if c == '*' {
      NotStarts("/*", s, 0);
      NotStarts("*/", s, 1);
    } else {
      NotStarts("/*", s, 0);
      NotStarts("*/", s, 0);
    }
  }

  lemma Opens(after: string, depth: nat)
    requires depth > 0
    ensures BlockLen("/*" + after, depth) == 2 + BlockLen(after, depth + 1)
  {
    FrontAndBack("/*", after);
  }

  lemma Closes(after: string, depth: nat)
    requires depth > 0
    ensures BlockLen("*/" + after, depth) == 2 + BlockLen(after, depth - 1)
  {
    FrontAndBack("*/", after);
    NotStarts("/*", "*/" + after, 0);
  }

  lemma ItemsOpen(items: seq<Item>, after: string, rest: string)
    requires items != [] && FineItems(items, after)
    ensures var more := ItemsText(items[1..]);
      && FineItem(items[0], more + after) && FineItems(items[1..], after)
      && ItemsText(items) + (after + rest) == ItemText(items[0]) + ((more + after) + rest)
      && (more + after) + rest == more + (after + rest)
      && |ItemsText(items)| == |ItemText(items[0])| + |more| && (after != "" ==> more + after != "")
  {
    hide FineItem;
    hide ItemText;
  }

  /** Items leave the depth as it was. */
  lemma {:induction false} ItemsPass(items: seq<Item>, after: string, rest: string, depth: nat)
    requires depth > 0 && FineItems(items, after) && (after != "" || rest == "")
    ensures BlockLen(ItemsText(items) + (after + rest), depth) == |ItemsText(items)| + BlockLen(after + rest, depth)
    decreases items, 0
  {
    if items == [] {
      assert ItemsText(items) + (after + rest) == after + rest;
    } else {
      var more := ItemsText(items[1..]);
      ItemsOpen(items, after, rest);
      ItemPasses(items[0], more + after, rest, depth);
      ItemsPass(items[1..], after, rest, depth);
      hide *;
    }
  }

  lemma {:induction false} ItemPasses(item: Item, after: string, rest: string, depth: nat)
    requires depth > 0 && FineItem(item, after) && (after != "" || rest == "")
    ensures BlockLen(ItemText(item) + (after + rest), depth) == |ItemText(item)| + BlockLen(after + rest, depth)
    decreases item, 1
  {
    hide *;
    match item
    case Ch(c) =>
      CharOpens(c, after, rest);
      OneChar(c, after + rest, depth);
    case Nested(items) =>
      var tail := after + rest;
      NestedOpens(items, after, tail);
      ItemsPass(items, "*/", tail, depth + 1);
      Opens(ItemsText(items) + ("*/" + tail), depth);
      Closes(tail, depth + 1);
  }

  lemma CharOpens(c: char, after: string, rest: string)
    requires FineItem(Ch(c), after) && (after != "" || rest == "")
    ensures FineItem(Ch(c), after + rest) && ItemText(Ch(c)) == [c]
  {
  }

  lemma NestedOpens(items: seq<Item>, after: string, tail: string)
    requires FineItem(Nested(items), after)
    ensures FineItems(items, "*/") && "*/" != "" && |ItemText(Nested(items))| == |ItemsText(items)| + 4
    ensures ItemText(Nested(items)) + tail == "/*" + (ItemsText(items) + ("*/" + tail))
  {
    hide ItemsText;
  }

  // -------------------------------------------------------------- piece by piece

  /** Nothing that starts with something else is a raw string. */
  lemma NotRaw(s: string)
    requires s != "" && s[0] != 'r' && (|s| > 1 ==> s[1] != 'r')
    ensures RawLen(s) == None
  {
    NotStarts("br", s, 1);
    NotStarts("cr", s, 1);
  }

  lemma IdentIsNotRaw(k: Classes, text: string, rest: string)
    requires Sane(k) && Fine(k, Ident(text)) && (rest == "" || Blank(k, rest[0]))
    ensures RawLen(text + rest) == None
  {
    var s := text + rest;
    forall i | 0 <= i <= |text| && i < |s| ensures s[i] != '#' && s[i] != QUOTE {
      if i < |text| { assert s[i] in text; }
    }
    var p := if "br" <= s || "cr" <= s then 1 else 0;
    if p == 1 {
      assert s[1] == 'r' && !k.space('r');
    }
    if p < |s| && s[p] == 'r' {
      assert p < |text|;
      if p + 1 < |s| { assert s[p + 1..][0] == s[p + 1]; }
      assert HashCount(s[p + 1..]) == 0;
    }
  }

  lemma {:induction false} IdentRunsOn(k: Classes, text: string, rest: string)
    requires (forall c :: c in text ==> IdentChar(k, c)) && rest != "" && IdentChar(k, rest[0])
    ensures IdentLen(k, text + rest) > |text|
    decreases |text|
  {
    if text == "" {
      assert text + rest == rest;
    } else {
      assert text[0] in text && (text + rest)[1..] == text[1..] + rest;
      IdentRunsOn(k, text[1..], rest);
    }
  }

  lemma IdentIsNext(k: Classes, text: string, rest: string)
    requires Sane(k) && Fine(k, Ident(text))
    ensures Next(k, text + rest) == (|text|, true) <==> Separates(k, Ident(text), rest)
  {
    hide *;
    IdentOpens(k, text, rest);
    if rest == "" || !IdentChar(k, rest[0]) {
      IdentEnds(k, text[1..], rest);
    } else {
      IdentRunsOn(k, text[1..], rest);
    }
    IdentChoice(k, text, rest);
  }

  lemma IdentOpens(k: Classes, text: string, rest: string)
    requires Sane(k) && Fine(k, Ident(text))
    ensures text != "" && (text + rest)[1..] == text[1..] + rest && forall c :: c in text[1..] ==> IdentChar(k, c)
  {
  }

  /** What the lexer does in front of an identifier, and where it goes by something else. */
  lemma IdentChoice(k: Classes, text: string, rest: string)
    requires Sane(k) && Fine(k, Ident(text)) && (text + rest)[1..] == text[1..] + rest
    requires IdentLen(k, text[1..] + rest) == |text| - 1 <==> rest == "" || !IdentChar(k, rest[0])
    ensures Next(k, text + rest) == (|text|, true) <==> Separates(k, Ident(text), rest)
  {
    var s := text + rest;
    assert text[0] in text && s[0] == text[0];
    NotStarts("//", s, 0);
    NotStarts("/*", s, 0);
    if |text| > 1 { assert text[1] in text && s[1] == text[1]; } else { assert text == [text[0]]; }
    hide IdentLen;
    hide RawLen;
    hide CharLen;
    hide QuotedLen;
    hide LineLen;
    hide BlockLen;
  }

  lemma PunctIsNext(k: Classes, c: char, rest: string)
    requires Sane(k) && Fine(k, Punct(c))
    ensures Next(k, [c] + rest) == (1, true) <==> Separates(k, Punct(c), rest)
  {
    var s := [c] + rest;
    assert s[1..] == rest;
    if c == '/' && rest != "" {
      if rest[0] == '/' { assert s[..2] == "//"; } else if rest[0] == '*' { assert s[..2] == "/*"; }
    }
    if rest == "" || c != '/' || rest[0] != '/' { NotStarts("//", s, if c == '/' then 1 else 0); }
    if rest == "" || c != '/' || rest[0] != '*' { NotStarts("/*", s, if c == '/' then 1 else 0); }
    PunctIsNotRaw(s);
    hide RawLen;
    hide CharLen;
    hide IdentLen;
    hide QuotedLen;
    hide LineLen;
    hide BlockLen;
  }

  lemma PunctIsNotRaw(s: string)
    requires s != "" && s[0] !in {'b', 'c', 'r'}
    ensures RawLen(s) == None
  {
    NotStarts("br", s, 0);
    NotStarts("cr", s, 0);
  }

  lemma AfterFront(a: string, c: char, b: string)
    ensures var s := a + ([c] + b); s[|a|] == c && s[|a| + 1..] == b && (a != "" ==> s[0] == a[0])
  {
  }

  lemma QuotedShape(prefix: string, body: seq<Quotable>, rest: string)
    ensures Text(Quoted(prefix, body)) + rest == prefix + ([QUOTE] + (QuotedText(body) + ([QUOTE] + rest)))
    ensures |Text(Quoted(prefix, body))| == |prefix| + 2 + |QuotedText(body)|
  {
    var inside := QuotedText(body);
    assert Text(Quoted(prefix, body)) == prefix + ([QUOTE] + (inside + [QUOTE]));
    hide *;
    Regroup(prefix, [QUOTE] + (inside + [QUOTE]), rest);
    Regroup([QUOTE], inside + [QUOTE], rest);
    Regroup(inside, [QUOTE], rest);
  }

  lemma QuotedIsNext(k: Classes, prefix: string, body: seq<Quotable>, rest: string)
    requires Sane(k) && Fine(k, Quoted(prefix, body))
    ensures Next(k, Text(Quoted(prefix, body)) + rest) == (|Text(Quoted(prefix, body))|, false)
  {
    var s := Text(Quoted(prefix, body)) + rest;
    QuotedShape(prefix, body, rest);
    AfterFront(prefix, QUOTE, QuotedText(body) + ([QUOTE] + rest));
    QuotedEnds(body, rest);
    QuotedIsNotRaw(prefix, QuotedText(body) + ([QUOTE] + rest));
    hide QuotedLen;
    hide RawLen;
    hide QuotedText;
    hide Text;
    hide CharLen;
    hide LineLen;
    hide BlockLen;
    hide IdentLen;
    NotStarts("//", s, 0);
    NotStarts("/*", s, 0);
  }

  lemma QuotedIsNotRaw(prefix: string, inner: string)
    requires Prefix(prefix)
    ensures RawLen(prefix + ([QUOTE] + inner)) == None
  {
    var s := prefix + ([QUOTE] + inner);
    if prefix == "" {
      assert s[0] == QUOTE;
      NotStarts("br", s, 0);
      NotStarts("cr", s, 0);
    } else {
      assert s[1] == QUOTE && s[0] == prefix[0];
      NotRaw(s);
    }
  }

  /** The reading of a raw string, with its parts as they follow each other. */
  lemma RawFound(s: string, p: nat, hashes: nat, quoted: string, found: string, n: nat)
    requires p == (if "br" <= s || "cr" <= s then 1 else 0) && p < |s| && s[p] == 'r' && s[p + 1..] == Hashes(hashes) + quoted
    requires HashCount(Hashes(hashes) + quoted) == hashes
    requires quoted == [QUOTE] + found && FindIn(found, Terminator(hashes)) == Some(n)
    ensures RawLen(s) == Some(p + 1 + hashes + 1 + n + 1 + hashes)
  {
    hide FindIn;
    hide HashCount;
    hide Hashes;
    hide Terminator;
    var q := p + 1 + hashes;
    AfterFront(Hashes(hashes), QUOTE, found);
    assert s[q] == s[p + 1..][hashes] == QUOTE;
    SliceOfRest(s, p + 1, hashes + 1);
    assert s[q + 1..] == found;
  }

  lemma RawOpens(prefix: string, behind: string)
    requires Prefix(prefix)
    ensures var s := prefix + ("r" + behind);
      (if "br" <= s || "cr" <= s then 1 else 0) == |prefix| && s[|prefix|] == 'r' && s[|prefix| + 1..] == behind
    ensures prefix != "" ==> (prefix + ("r" + behind))[0] == prefix[0]
  {
    var s := prefix + ("r" + behind);
    AfterFront(prefix, 'r', behind);
    if prefix == "" {
      NotStarts("br", s, 0);
      NotStarts("cr", s, 0);
    } else {
      assert s[..2] == prefix + "r";
    }
  }

  lemma HashesBeforeQuote(hashes: nat, found: string)
    ensures HashCount(Hashes(hashes) + ([QUOTE] + found)) == hashes
  {
    CountsHashes(hashes, [QUOTE] + found);
    hide HashCount;
  }

  /** `behind` is what follows the `r`, `found` what follows the opening quote. */
  lemma RawReadsIn(s: string, prefix: string, hashes: nat, behind: string, found: string, n: nat)
    requires Prefix(prefix) && s == prefix + ("r" + behind) && behind == Hashes(hashes) + ([QUOTE] + found)
    requires FindIn(found, Terminator(hashes)) == Some(n)
    ensures RawLen(s) == Some(|prefix| + 1 + hashes + 1 + n + 1 + hashes)
  {
    hide *;
    RawOpens(prefix, behind);
    HashesBeforeQuote(hashes, found);
    RawFound(s, |prefix|, hashes, [QUOTE] + found, found, n);
  }

  lemma RawReads(prefix: string, hashes: nat, inside: string, rest: string)
    requires Prefix(prefix) && FindIn(inside, Terminator(hashes)) == None
    ensures RawLen(Text(Raw(prefix, hashes, inside)) + rest) == Some(|Text(Raw(prefix, hashes, inside))|)
  {
    hide *;
    RawShape(prefix, hashes, inside, rest);
    FindsAtEnd(inside, hashes, rest);
    var found := inside + (Terminator(hashes) + rest);
    RawReadsIn(Text(Raw(prefix, hashes, inside)) + rest, prefix, hashes, Hashes(hashes) + ([QUOTE] + found), found, |inside|);
  }

  lemma RawShape(prefix: string, hashes: nat, inside: string, rest: string)
    ensures Text(Raw(prefix, hashes, inside)) + rest
         == prefix + ("r" + (Hashes(hashes) + ([QUOTE] + (inside + (Terminator(hashes) + rest)))))
    ensures |Text(Raw(prefix, hashes, inside))| == |prefix| + 1 + hashes + 1 + |inside| + 1 + hashes
  {
    var h, term := Hashes(hashes), Terminator(hashes);
    TerminatorLength(hashes);
    assert Text(Raw(prefix, hashes, inside)) == prefix + ("r" + (h + ([QUOTE] + (inside + term))));
    hide *;
    Regroup(prefix, "r" + (h + ([QUOTE] + (inside + term))), rest);
    Regroup("r", h + ([QUOTE] + (inside + term)), rest);
    Regroup(h, [QUOTE] + (inside + term), rest);
    Regroup([QUOTE], inside + term, rest);
    Regroup(inside, term, rest);
  }

  lemma RawIsNext(k: Classes, prefix: string, hashes: nat, inside: string, rest: string)
    requires Sane(k) && Fine(k, Raw(prefix, hashes, inside))
    ensures Next(k, Text(Raw(prefix, hashes, inside)) + rest) == (|Text(Raw(prefix, hashes, inside))|, false)
  {
    RawReads(prefix, hashes, inside, rest);
    RawShape(prefix, hashes, inside, rest);
    RawOpens(prefix, Hashes(hashes) + ([QUOTE] + (inside + (Terminator(hashes) + rest))));
    var s := Text(Raw(prefix, hashes, inside)) + rest;
    assert s[0] == if prefix == "" then 'r' else prefix[0];
    hide FindIn;
    hide Hashes;
    hide QuotedLen;
    hide CharLen;
    hide LineLen;
    hide BlockLen;
    hide IdentLen;
    hide RawLen;
    hide Text;
    NotStarts("//", s, 0);
    NotStarts("/*", s, 0);
  }

  lemma CharReads(content: CharBody, rest: string)
    requires FineChar(content)
    ensures CharLen([TICK] + (CharText(content) + [TICK]) + rest) == Some(|CharText(content)| + 2)
  {
    var s := [TICK] + (CharText(content) + [TICK]) + rest;
    var inner := CharText(content);
    assert forall i :: 0 <= i < |inner| ==> s[i + 1] == inner[i];
    assert s[|inner| + 1] == TICK;
    match content
    case Unicode(digits) =>
      assert s[4..] == digits + ("}" + ([TICK] + rest));
      FindsBrace(digits, [TICK] + rest);
      assert s[3] == inner[2] && s[2] == inner[1] && s[1] == inner[0];
    case One(c) => assert s[1] == inner[0];
    case Escape(c) => assert s[1] == inner[0] && s[2] == inner[1];
    case Hex(a, b) => assert s[1] == inner[0] && s[2] == inner[1];
  }

  lemma {:induction false} FindInMeans(s: string, word: string)
    ensures match FindIn(s, word)
      case Some(n) => word <= s[n..] && forall i :: 0 <= i < n ==> !(word <= s[i..])
      case None => forall i :: 0 <= i <= |s| ==> !(word <= s[i..])
    decreases |s|
  {
    assert s[0..] == s;
    if !(word <= s) && s != "" {
      FindInMeans(s[1..], word);
      assert forall i :: 0 < i <= |s| ==> s[i..] == s[1..][i - 1..];
    }
  }

  /** An apostrophe that the lexer takes for the front of a character stands in front of one. */
  lemma CharAhead(rest: string) returns (content: CharBody)
    requires CharLen([TICK] + rest).Some?
    ensures FineChar(content) && CharText(content) + ['\''] <= rest
  {
    var s := [TICK] + rest;
    assert s[1..] == rest && forall i :: 0 <= i < |rest| ==> s[i + 1] == rest[i];
    if rest[0] == '\\' && rest[1] == 'u' && |s| > 3 && rest[2] == '{' {
      assert s[4..] == rest[3..];
      content := BracedAhead(rest);
    } else {
      content := PlainAhead(rest);
    }
    hide FindIn;
    hide CharText;
    hide FineChar;
  }

  lemma PlainAhead(rest: string) returns (content: CharBody)
    requires rest != "" && rest[0] != '\'' && rest[0] != '\n' && rest[0] != '\r'
    requires if rest[0] != '\\' then |rest| > 1 && rest[1] == '\''
      else |rest| > 2 && if rest[1] == 'x' then |rest| > 4 && rest[4] == '\'' else rest[2] == '\''
    ensures FineChar(content) && CharText(content) + ['\''] <= rest
  {
    if rest[0] != '\\' {
      content := One(rest[0]);
      assert rest[..2] == CharText(content) + ['\''];
    } else if rest[1] == 'x' {
      content := Hex(rest[2], rest[3]);
      assert rest[..5] == CharText(content) + ['\''];
    } else {
      content := Escape(rest[1]);
      assert rest[..3] == CharText(content) + ['\''];
    }
  }

  lemma BracedAhead(rest: string) returns (content: CharBody)
    requires |rest| > 2 && rest[..3] == ['\\', 'u', '{'] && FindIn(rest[3..], "}").Some?
    requires var n := FindIn(rest[3..], "}").value; n + 4 < |rest| && rest[n + 4] == '\''
    ensures FineChar(content) && CharText(content) + ['\''] <= rest
  {
    FindInMeans(rest[3..], "}");
    var n := FindIn(rest[3..], "}").value;
    content := Unicode(rest[3..3 + n]);
    BracedDigits(rest, n);
    hide FindIn;
    hide CharText;
    hide FineChar;
  }

  lemma BracedDigits(rest: string, n: nat)
    requires |rest| > 4 + n && rest[..3] == ['\\', 'u', '{'] && "}" <= rest[3..][n..] && rest[n + 4] == '\''
    requires forall i :: 0 <= i < n ==> !("}" <= rest[3..][i..])
    ensures FineChar(Unicode(rest[3..3 + n])) && CharText(Unicode(rest[3..3 + n])) + ['\''] <= rest
  {
    var digits := rest[3..3 + n];
    forall i | 0 <= i < n ensures digits[i] != '}' {
      assert rest[3..][i..][..1] == [digits[i]];
    }
    assert rest[3..][n..][0] == '}';
    assert rest[..n + 5] == ['\\', 'u', '{'] + digits + ['}'] + ['\''];
  }

  /** Hashes and then a quote. */
  ghost predicate OpensRaw(rest: string) { exists h: nat :: QuoteBehind(rest, h) }

  predicate QuoteBehind(rest: string, h: nat) { h < |rest| && rest[h] == '\"' && forall i :: 0 <= i < h ==> rest[i] == '#' }

  lemma {:induction false} HashCountMeans(rest: string)
    ensures OpensRaw(rest) <==> HashCount(rest) < |rest| && rest[HashCount(rest)] == '\"'
    ensures forall i :: 0 <= i < HashCount(rest) ==> rest[i] == '#'
    ensures HashCount(rest) < |rest| ==> rest[HashCount(rest)] != '#'
    decreases |rest|
  {
    var n := HashCount(rest);
    if rest != "" && rest[0] == '#' {
      HashCountMeans(rest[1..]);
      assert forall i :: 0 < i < |rest| ==> rest[i] == rest[1..][i - 1];
    }
    if n < |rest| && rest[n] == '\"' { assert QuoteBehind(rest, n); }
    if h: nat :| QuoteBehind(rest, h) { assert h == n; }
  }

  lemma LiteralName(text: string, rest: string)
    requires text in {"r", "br", "cr"}
    ensures RawLen(text + rest).Some? <==> OpensRaw(rest)
  {
    var s := text + rest;
    HashCountMeans(rest);
    assert s[|text|..] == rest && s[..|text|] == text;
    if text == "r" {
      NotStarts("br", s, 0);
      NotStarts("cr", s, 0);
    } else {
      assert s[..2] == text;
    }
    hide OpensRaw;
    hide FindIn;
    hide Hashes;
    hide HashCount;
  }

  lemma LongName(k: Classes, text: string, rest: string)
    requires Sane(k) && Fine(k, Ident(text)) && text !in {"r", "br", "cr"} && (rest == "" || !IdentChar(k, rest[0]))
    ensures RawLen(text + rest) == None
  {
    var s := text + rest;
    var p := if "br" <= s || "cr" <= s then 1 else 0;
    if p < |s| && s[p] == 'r' {
      LongerName(k, text, rest, p);
      assert s[p + 1..][0] == s[p + 1] == text[p + 1];
      assert IdentChar(k, s[p + 1]);
      assert HashCount(s[p + 1..]) == 0;
    }
    hide FindIn;
    hide Hashes;
  }

  lemma LongerName(k: Classes, text: string, rest: string, p: nat)
    requires Sane(k) && Fine(k, Ident(text)) && text !in {"r", "br", "cr"} && (rest == "" || !IdentChar(k, rest[0]))
    requires p == if "br" <= text + rest || "cr" <= text + rest then 1 else 0
    requires p < |text + rest| && (text + rest)[p] == 'r'
    ensures p + 1 < |text|
  {
    var s := text + rest;
    assert s[..p + 1] in {"r", "br", "cr"} by {
      if p == 0 { assert s[..1] == ['r']; } else if "br" <= s { assert s[..2] == "br"; } else { assert s[..2] == "cr"; }
    }
    assert s[..|text|] == text;
  }

  /** The only identifiers the lexer takes for a raw string are r, br and cr in front of hashes and a quote. */
  lemma IdentIsRaw(k: Classes, text: string, rest: string)
    requires Sane(k) && Fine(k, Ident(text)) && (rest == "" || !IdentChar(k, rest[0]))
    ensures RawLen(text + rest).Some? <==> text in {"r", "br", "cr"} && OpensRaw(rest)
  {
    if text in {"r", "br", "cr"} { LiteralName(text, rest); } else { LongName(k, text, rest); }
    hide *;
  }

  /** When two neighbours fuse, in terms of the text: an identifier with one that goes on, with the
      quote or hashes that make it a literal; an apostrophe with what would be a character. */
  lemma SeparatesMeans(k: Classes, p: Piece, rest: string)
    requires Sane(k) && Fine(k, p)
    ensures p.Ident? ==>
      (Separates(k, p, rest) <==>
        && (rest == "" || !(k.alnum(rest[0]) || rest[0] == '_'))
        && !(p.text in {"r", "br", "cr"} && OpensRaw(rest))
        && !(p.text in {"b", "c"} && rest != "" && rest[0] == '\"'))
    ensures p == Punct('\'') ==>
      (Separates(k, p, rest) <==> forall content :: FineChar(content) ==> !(CharText(content) + ['\''] <= rest))
  {
    if p.Ident? && (rest == "" || !IdentChar(k, rest[0])) { IdentIsRaw(k, p.text, rest); }
    CharLenMeans(rest);
    hide RawLen;
    hide CharLen;
    hide CharText;
    hide FineChar;
    hide OpensRaw;
  }

  lemma CharLenMeans(rest: string)
    ensures CharLen([TICK] + rest).None? <==> forall content :: FineChar(content) ==> !(CharText(content) + ['\''] <= rest)
  {
    hide *;
    forall content | FineChar(content) && CharText(content) + ['\''] <= rest ensures CharLen([TICK] + rest).Some? {
      CharStands(content, rest);
    }
    if CharLen([TICK] + rest).Some? { var content := CharAhead(rest); }
  }

  lemma CharStands(content: CharBody, rest: string)
    requires FineChar(content) && CharText(content) + ['\''] <= rest
    ensures CharLen([TICK] + rest).Some?
  {
    var more := rest[|CharText(content)| + 1..];
    assert rest == CharText(content) + ['\''] + more;
    CharReads(content, more);
    assert [TICK] + rest == [TICK] + (CharText(content) + [TICK]) + more;
    hide CharLen;
    hide CharText;
    hide FineChar;
  }

  lemma CharIsNext(k: Classes, content: CharBody, rest: string)
    requires Sane(k) && FineChar(content)
    ensures Next(k, Text(Character(content)) + rest) == (|Text(Character(content))|, false)
  {
    var s := Text(Character(content)) + rest;
    CharReads(content, rest);
    assert s[0] == TICK;
    NotStarts("//", s, 0);
    NotStarts("/*", s, 0);
    NotStarts("br", s, 0);
    NotStarts("cr", s, 0);
    assert RawLen(s) == None;
    hide CharLen;
    hide RawLen;
    hide CharText;
  }

  lemma {:induction false} LineRunsOn(comment: string, rest: string)
    requires NEWLINE !in comment && rest != "" && rest[0] != NEWLINE
    ensures LineLen(comment + rest) > |comment|
    decreases |comment|
  {
    if comment == "" {
      assert comment + rest == rest;
    } else {
      assert comment[0] in comment && (comment + rest)[1..] == comment[1..] + rest;
      LineRunsOn(comment[1..], rest);
    }
  }

  lemma LineIsNext(k: Classes, comment: string, rest: string)
    requires Sane(k) && NEWLINE !in comment
    ensures Next(k, "//" + comment + rest) == (2 + |comment|, false) <==> rest == "" || rest[0] == NEWLINE
  {
    var s := "//" + comment + rest;
    assert s == "//" + (comment + rest);
    FrontAndBack("//", comment + rest);
    if rest == "" || rest[0] == NEWLINE { LineEnds(comment, rest); } else { LineRunsOn(comment, rest); }
    assert s[0] == '/';
    hide LineLen;
  }

  lemma BlockReads(items: seq<Item>, rest: string)
    requires FineItems(items, "*/")
    ensures BlockLen(ItemsText(items) + ("*/" + rest), 1) == |ItemsText(items)| + 2
  {
    ItemsPass(items, "*/", rest, 1);
    Closes(rest, 1);
    assert BlockLen(rest, 0) == 0;
    hide BlockLen;
    hide ItemsText;
  }

  lemma BlockIsNext(k: Classes, items: seq<Item>, rest: string)
    requires Sane(k) && FineItems(items, "*/")
    ensures Next(k, Text(BlockComment(items)) + rest) == (|Text(BlockComment(items))|, false)
  {
    BlockReads(items, rest);
    hide BlockLen;
    hide ItemsText;
    hide LineLen;
    hide RawLen;
    hide QuotedLen;
    hide CharLen;
    hide IdentLen;
    var inner := ItemsText(items) + ("*/" + rest);
    var s := "/*" + inner;
    assert Text(BlockComment(items)) + rest == s;
    FrontAndBack("/*", inner);
    NotStarts("//", s, 1);
  }

  /** A piece is the first lexeme, as code or as none, if and only if it ends in front of the rest. */
  lemma PieceIsNext(k: Classes, p: Piece, rest: string)
    requires Sane(k) && Fine(k, p)
    ensures Next(k, Text(p) + rest) == (|Text(p)|, p.Code()) <==> Separates(k, p, rest)
  {
    match p
    case Ident(text) => IdentIsNext(k, text, rest);
    case Punct(c) => PunctIsNext(k, c, rest);
    case Quoted(prefix, body) => QuotedIsNext(k, prefix, body, rest);
    case Raw(prefix, hashes, inside) => RawIsNext(k, prefix, hashes, inside, rest);
    case Character(content) => CharIsNext(k, content, rest);
    case LineComment(comment) => LineIsNext(k, comment, rest);
    case BlockComment(items) => BlockIsNext(k, items, rest);
  }

  // -------------------------------------------------------------------- the whole

  /** Pieces, each with the white space behind it; there may be none. */
  type Layout = seq<(Piece, string)>

  function Render(ps: Layout): string {
    if ps == [] then "" else Text(ps[0].0) + (ps[0].1 + Render(ps[1..]))
  }

  /** Every piece is fine and ends in front of what stands behind it. */
  ghost predicate FineLayout(k: Classes, ps: Layout)
    decreases |ps|
  {
    ps == [] ||
    (Fine(k, ps[0].0) && White(k, ps[0].1) && Separates(k, ps[0].0, ps[0].1 + Render(ps[1..])) && FineLayout(k, ps[1..]))
  }

  /** The code among the pieces, each with its true offsets and line. */
  function Expected(ps: Layout, offset: nat, line: nat): seq<Token> {
    if ps == [] then [] else
    var text, gap := Text(ps[0].0), ps[0].1;
    (if ps[0].0.Code() then [Token(text, offset, offset + |text|, line)] else [])
    + Expected(ps[1..], offset + |text| + |gap|, line + Newlines(text) + Newlines(gap))
  }

  lemma WhiteIsNext(k: Classes, c: char, behind: string)
    requires k.space(c) || c == NEWLINE
    ensures Next(k, [c] + behind) == (1, false)
  {
  }

  lemma OneWhite(k: Classes, c: char, behind: string, offset: nat, line: nat)
    requires k.space(c) || c == NEWLINE
    ensures Lex(k, [c] + behind, offset, line) == Lex(k, behind, offset + 1, line + Newlines([c]))
  {
    hide *;
    var s := [c] + behind;
    WhiteIsNext(k, c, behind);
    LexUnfolds(k, s, offset, line, 1, false);
    FrontAndBack([c], behind);
    NothingInFront(Lex(k, behind, offset + 1, line + Newlines([c])));
  }

  lemma NoNewlines()
    ensures Newlines("") == 0
  {
  }

  lemma WhiteOpens(k: Classes, gap: string, rest: string)
    requires gap != "" && White(k, gap)
    ensures White(k, gap[1..]) && (k.space(gap[0]) || gap[0] == NEWLINE)
    ensures gap + rest == [gap[0]] + (gap[1..] + rest)
    ensures Newlines(gap) == Newlines([gap[0]]) + Newlines(gap[1..])
  {
    hide *;
    FirstNewline(gap);
    WhiteFirst(k, gap);
    assert gap == [gap[0]] + gap[1..];
    Regroup([gap[0]], gap[1..], rest);
  }

  lemma WhiteFirst(k: Classes, gap: string)
    requires gap != "" && White(k, gap)
    ensures White(k, gap[1..]) && (k.space(gap[0]) || gap[0] == NEWLINE)
  {
  }

  lemma FirstNewline(s: string)
    requires s != ""
    ensures Newlines(s) == Newlines([s[0]]) + Newlines(s[1..])
  {
    assert [s[0]][1..] == "";
  }

  lemma {:induction false} WhiteIsSkipped(k: Classes, gap: string, rest: string, offset: nat, line: nat)
    requires White(k, gap)
    ensures Lex(k, gap + rest, offset, line) == Lex(k, rest, offset + |gap|, line + Newlines(gap))
    decreases |gap|
  {
    hide *;
    if gap == "" {
      NothingInFront(rest);
      NoNewlines();
    } else {
      WhiteOpens(k, gap, rest);
      OneWhite(k, gap[0], gap[1..] + rest, offset, line);
      WhiteIsSkipped(k, gap[1..], rest, offset + 1, line + Newlines([gap[0]]));
    }
  }

  lemma FirstTokenIs(p: Piece, offset: nat, line: nat)
    ensures FirstToken(p, offset, line) == if p.Code() then [Token(Text(p), offset, offset + |Text(p)|, line)] else []
  {
  }

  lemma PieceThenGap(k: Classes, p: Piece, gap: string, rest: string, offset: nat, line: nat, n: nat, lines: nat)
    requires Sane(k) && Fine(k, p) && White(k, gap) && Separates(k, p, gap + rest) && Text(p) != ""
    requires n == |Text(p)| && lines == Newlines(Text(p)) + Newlines(gap)
    ensures Lex(k, Text(p) + (gap + rest), offset, line) == FirstToken(p, offset, line) + Lex(k, rest, offset + n + |gap|, line + lines)
  {
    hide *;
    var text, behind := Text(p), gap + rest;
    FirstTokenIs(p, offset, line);
    PieceIsNext(k, p, behind);
    LexUnfolds(k, text + behind, offset, line, n, p.Code());
    FrontAndBack(text, behind);
    WhiteIsSkipped(k, gap, rest, offset + n, line + Newlines(text));
  }

  lemma LayoutOpens(k: Classes, ps: Layout)
    requires ps != [] && FineLayout(k, ps)
    ensures Fine(k, ps[0].0) && White(k, ps[0].1) && Text(ps[0].0) != "" && FineLayout(k, ps[1..])
    ensures Separates(k, ps[0].0, ps[0].1 + Render(ps[1..]))
  {
    hide Separates;
  }

  lemma LayoutUnfolds(ps: Layout, offset: nat, line: nat, p: Piece, gap: string, n: nat, lines: nat)
    requires ps != [] && ps[0] == (p, gap) && n == |Text(p)| && lines == Newlines(Text(p)) + Newlines(gap)
    ensures Render(ps) == Text(p) + (gap + Render(ps[1..]))
    ensures Expected(ps, offset, line) == FirstToken(p, offset, line) + Expected(ps[1..], offset + n + |gap|, line + lines)
  {
    hide Text;
    hide Newlines;
  }

  function FirstToken(p: Piece, offset: nat, line: nat): seq<Token> {
    if p.Code() then [Token(Text(p), offset, offset + |Text(p)|, line)] else []
  }

  lemma NothingRendered(k: Classes, ps: Layout, offset: nat, line: nat)
    requires ps == []
    ensures Lex(k, Render(ps), offset, line) == Expected(ps, offset, line)
  {
  }

  /** Lexing what was rendered yields the identifiers and punctuation, in order, and nothing else. */
  lemma {:induction false} LexRecoversCode(k: Classes, ps: Layout, offset: nat, line: nat)
    requires Sane(k) && FineLayout(k, ps)
    ensures Lex(k, Render(ps), offset, line) == Expected(ps, offset, line)
    decreases |ps|
  {
    hide *;
    if ps == [] {
      NothingRendered(k, ps, offset, line);
    } else {
      LayoutOpens(k, ps);
      var p, gap := ps[0].0, ps[0].1;
      var n, lines := |Text(p)|, Newlines(Text(p)) + Newlines(gap);
      LexRecoversCode(k, ps[1..], offset + n + |gap|, line + lines);
      LayoutUnfolds(ps, offset, line, p, gap, n, lines);
      PieceThenGap(k, p, gap, Render(ps[1..]), offset, line, n, lines);
    }
  }

  function CodeTexts(ps: Layout): seq<string> {
    if ps == [] then [] else (if ps[0].0.Code() then [Text(ps[0].0)] else []) + CodeTexts(ps[1..])
  }

  lemma TextsUnfold(p: Piece, offset: nat, line: nat, rest: seq<Token>)
    ensures Texts(FirstToken(p, offset, line) + rest) == (if p.Code() then [Text(p)] else []) + Texts(rest)
  {
    hide Text;
    assert Texts(FirstToken(p, offset, line) + rest) == Texts(FirstToken(p, offset, line)) + Texts(rest);
  }

  lemma {:induction false} ExpectedTexts(ps: Layout, offset: nat, line: nat)
    ensures Texts(Expected(ps, offset, line)) == CodeTexts(ps)
    decreases |ps|
  {
    hide *;
    if ps == [] {
      NoTexts(ps, offset, line);
    } else {
      var p, gap := ps[0].0, ps[0].1;
      var n, lines := |Text(p)|, Newlines(Text(p)) + Newlines(gap);
      LayoutUnfolds(ps, offset, line, p, gap, n, lines);
      ExpectedTexts(ps[1..], offset + n + |gap|, line + lines);
      TextsUnfold(p, offset, line, Expected(ps[1..], offset + n + |gap|, line + lines));
      CodeTextsUnfold(ps);
    }
  }

  lemma NoTexts(ps: Layout, offset: nat, line: nat)
    requires ps == []
    ensures Texts(Expected(ps, offset, line)) == CodeTexts(ps)
  {
  }

  lemma CodeTextsUnfold(ps: Layout)
    requires ps != []
    ensures CodeTexts(ps) == (if ps[0].0.Code() then [Text(ps[0].0)] else []) + CodeTexts(ps[1..])
  {
    hide Text;
  }

  lemma FileIsLocated(k: Classes, source: string)
    ensures forall t :: t in Lex(k, source, 0, 1) ==> Located(source, t)
  {
    TokensAreLocated(k, source, 0);
    assert source[0..] == source && Newlines(source[..0]) == 0;
    hide Lex;
    hide Located;
    hide Newlines;
    assert InOrder(source, 0, Lex(k, source, 0, 1));
  }

  /** The tokens of a rendered file: exactly the code, each token where it stands and on its line. */
  lemma RenderedFileLexes(k: Classes, ps: Layout)
    requires Sane(k) && FineLayout(k, ps)
    ensures Texts(Lex(k, Render(ps), 0, 1)) == CodeTexts(ps)
    ensures forall t :: t in Lex(k, Render(ps), 0, 1) ==> Located(Render(ps), t)
  {
    hide *;
    LexRecoversCode(k, ps, 0, 1);
    ExpectedTexts(ps, 0, 1);
    FileIsLocated(k, Render(ps));
  }
}
