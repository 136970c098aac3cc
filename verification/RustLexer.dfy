/**
 The lexer of the writer check: enough Rust to tell code from comments and literals. A lexeme is
 described by its length and by whether it is code; the lexer is the loop that walks over them.
 */
module RustLexer {
  import opened Options
  import opened Sequences

  datatype Token = Token(text: string, start: nat, end: nat, line: nat)

  function Texts(tokens: seq<Token>): (r: seq<string>)
    ensures |r| == |tokens| && forall i :: 0 <= i < |r| ==> r[i] == tokens[i].text
  {
    seq(|tokens|, i requires 0 <= i < |tokens| => tokens[i].text)
  }

  /** The character classes of the host language's strings. */
  datatype Classes = Classes(space: char -> bool, alpha: char -> bool, alnum: char -> bool)

  const QUOTE := '\"'
  const TICK := '\''
  const BACKSLASH := '\\'
  const NEWLINE := '\n'

  function Newlines(s: string): nat {
    if s == [] then 0 else (if s[0] == NEWLINE then 1 else 0) + Newlines(s[1..])
  }

  /** `str.find`. */
  function FindIn(s: string, word: string): (r: Option<nat>)
    ensures r.Some? ==> r.value + |word| <= |s|
  {
    if word <= s then Some(0) else if s == [] then None else Later(FindIn(s[1..], word))
  }

  // --------------------------------------------------------------- lexeme lengths

  /** How much of `s` a quoted literal takes behind its opening quote. */
  function QuotedLen(s: string, quote: char): (n: nat)
    ensures n <= |s|
  {
    if s == [] then 0
    else if s[0] == BACKSLASH then if |s| == 1 then 1 else 2 + QuotedLen(s[2..], quote)
    else if s[0] == quote then 1
    else 1 + QuotedLen(s[1..], quote)
  }

  /** A character literal at the front of `s`, or `None` for a lifetime or label. */
  function CharLen(s: string): (r: Option<nat>)
    ensures r.Some? ==> 0 < r.value <= |s|
  {
    if |s| < 2 || s[1] == TICK || s[1] == '\n' || s[1] == '\r' then None
    else if s[1] != BACKSLASH then ClosedAt(s, 2)
    else if |s| < 3 then None
    else if s[2] == 'x' then ClosedAt(s, 5)
    else if s[2] == 'u' && |s| > 3 && s[3] == '{' then
      match FindIn(s[4..], "}")
      case None => None
      case Some(n) => ClosedAt(s, 4 + n + 1)
    else ClosedAt(s, 3)
  }

  function ClosedAt(s: string, i: nat): (r: Option<nat>)
    ensures r.Some? ==> r.value <= |s|
  {
    if i < |s| && s[i] == TICK then Some(i + 1) else None
  }

  function HashCount(s: string): (n: nat)
    ensures n <= |s|
  {
    if s == [] || s[0] != '#' then 0 else 1 + HashCount(s[1..])
  }

  function Hashes(n: nat): (s: string)
    ensures |s| == n && forall i :: 0 <= i < n ==> s[i] == '#'
  {
    seq(n, i => '#')
  }

  function Terminator(hashes: nat): string { [QUOTE] + Hashes(hashes) }

  function RawLen(s: string): (r: Option<nat>)
    ensures r.Some? ==> 0 < r.value <= |s|
  {
    var k := if "br" <= s || "cr" <= s then 1 else 0;
    if k >= |s| || s[k] != 'r' then None else
    var hashes := HashCount(s[k + 1..]);
    var q := k + 1 + hashes;
    if q >= |s| || s[q] != QUOTE then None else
    match FindIn(s[q + 1..], Terminator(hashes))
    case None => Some(|s|)
    case Some(n) => Some(q + 1 + n + 1 + hashes)
  }

  function LineLen(s: string): (n: nat)
    ensures n <= |s|
  {
    if s == [] || s[0] == NEWLINE then 0 else 1 + LineLen(s[1..])
  }

  /** How much of `s` closes `depth` open comments. */
  function BlockLen(s: string, depth: nat): (n: nat)
    ensures n <= |s|
  {
    if s == [] || depth == 0 then 0
    else if "/*" <= s then 2 + BlockLen(s[2..], depth + 1)
    else if "*/" <= s then 2 + BlockLen(s[2..], depth - 1)
    else 1 + BlockLen(s[1..], depth)
  }

  function IdentLen(k: Classes, s: string): (n: nat)
    ensures n <= |s|
  {
    if s == [] || !(k.alnum(s[0]) || s[0] == '_') then 0 else 1 + IdentLen(k, s[1..])
  }

  /** The first lexeme: its length, and whether it is code. */
  function Next(k: Classes, s: string): (r: (nat, bool))
    requires s != []
    ensures 0 < r.0 <= |s|
  {
    if s[0] == NEWLINE || k.space(s[0]) then (1, false)
    else if "//" <= s then (2 + LineLen(s[2..]), false)
    else if "/*" <= s then (2 + BlockLen(s[2..], 1), false)
    else if RawLen(s).Some? then (RawLen(s).value, false)
    else if s[0] == QUOTE then (1 + QuotedLen(s[1..], QUOTE), false)
    else if (s[0] == 'b' || s[0] == 'c') && |s| > 1 && s[1] == QUOTE then (2 + QuotedLen(s[2..], QUOTE), false)
    else if s[0] == TICK && CharLen(s).Some? then (CharLen(s).value, false)
    else if k.alpha(s[0]) || s[0] == '_' then (1 + IdentLen(k, s[1..]), true)
    else (1, true)
  }

  /** The tokens of `s`, when it begins at `offset` on line `line`. */
  function Lex(k: Classes, s: string, offset: nat, line: nat): seq<Token>
    decreases |s|
  {
    if s == [] then [] else
    var (n, code) := Next(k, s);
    (if code then [Token(s[..n], offset, offset + n, line)] else [])
    + Lex(k, s[n..], offset + n, line + Newlines(s[..n]))
  }

  // -------------------------------------------------------------------- the code

  method SkipQuoted(source: string, start: nat, quote: char) returns (end: nat)
    requires start < |source|
    ensures end == start + 1 + QuotedLen(source[start + 1..], quote)
  {
    var index := start + 1;
    while index < |source|
      invariant start < index <= |source|
      invariant QuotedLen(source[start + 1..], quote) == index - start - 1 + QuotedLen(source[index..], quote)
      decreases |source| - index
    {
      if source[index] == BACKSLASH {
        if index + 1 == |source| { return |source|; }
        assert source[index..][2..] == source[index + 2..];
        index := index + 2;
        continue;
      }
      if source[index] == quote { return index + 1; }
      assert source[index..][1..] == source[index + 1..];
      index := index + 1;
    }
    end := |source|;
  }

  method CharLiteralEnd(source: string, start: nat) returns (end: Option<nat>)
    requires start < |source|
    ensures end == match CharLen(source[start..]) case None => None case Some(n) => Some(start + n)
  {
    ghost var s := source[start..];
    var index := start + 1;
    if index >= |source| || source[index] == TICK || source[index] == '\n' || source[index] == '\r' { return None; }
    if source[index] == BACKSLASH {
      index := index + 1;
      if index >= |source| { return None; }
      if source[index] == 'x' {
        index := index + 3;
      } else if source[index] == 'u' && index + 1 < |source| && source[index + 1] == '{' {
        assert s[4..] == source[index + 2..];
        var close := FindIn(source[index + 2..], "}");
        if close.None? { return None; }
        index := index + 2 + close.value + 1;
      } else {
        index := index + 1;
      }
    } else {
      index := index + 1;
    }
    if index < |source| && source[index] == TICK { return Some(index + 1); }
    end := None;
  }

  method CountHashes(source: string, start: nat) returns (hashes: nat)
    requires start <= |source|
    ensures hashes == HashCount(source[start..])
  {
    hashes := 0;
    while start + hashes < |source| && source[start + hashes] == '#'
      invariant start + hashes <= |source| && HashCount(source[start..]) == hashes + HashCount(source[start + hashes..])
    {
      assert source[start + hashes..][1..] == source[start + hashes + 1..];
      hashes := hashes + 1;
    }
  }

  method RawStringEnd(source: string, start: nat) returns (end: Option<nat>)
    requires start < |source|
    ensures end == match RawLen(source[start..]) case None => None case Some(n) => Some(start + n)
  {
    hide HashCount;
    hide FindIn;
    hide Hashes;
    ghost var s := source[start..];
    var index := start;
    if "br" <= source[index..] || "cr" <= source[index..] { index := index + 1; }
    if index >= |source| || source[index] != 'r' { return None; }
    index := index + 1;
    ghost var k := index - start;
    assert s[k..] == source[index..];
    var hashes := CountHashes(source, index);
    index := index + hashes;
    hide Terminator;
    if index >= |source| || source[index] != QUOTE { return None; }
    assert s[k + hashes + 1..] == source[index + 1..];
    var found := FindIn(source[index + 1..], Terminator(hashes));
    TerminatorLength(hashes);
    end := Some(if found.None? then |source| else index + 1 + found.value + 1 + hashes);
  }

  lemma TerminatorLength(hashes: nat)
    ensures |Terminator(hashes)| == 1 + hashes
  {
  }

  /** What the comment scanner does at `cursor`: how far it moves and at what depth it goes on. */
  function BlockStep(source: string, cursor: nat, depth: nat): (nat, nat)
    requires cursor < |source| && depth > 0
  {
    if "/*" <= source[cursor..] then (2, depth + 1)
    else if "*/" <= source[cursor..] then (2, depth - 1)
    else (1, depth)
  }

  lemma BlockNext(source: string, start: nat, cursor: nat, depth: nat)
    requires start <= cursor < |source| && depth > 0
    ensures var (n, depth') := BlockStep(source, cursor, depth);
      && cursor + n <= |source|
      && BlockLen(source[cursor..], depth) == n + BlockLen(source[cursor + n..], depth')
      && Newlines(source[start..cursor + n])
         == Newlines(source[start..cursor]) + (if n == 1 && source[cursor] == NEWLINE then 1 else 0)
  {
    var rest := source[cursor..];
    var (n, _) := BlockStep(source, cursor, depth);
    assert rest[n..] == source[cursor + n..];
    if n == 2 {
      assert rest[..2] == "/*" || rest[..2] == "*/";
      assert rest[..2][0] == source[cursor] && rest[..2][1] == source[cursor + 1];
      TwoMore(source, start, cursor);
    } else {
      OneMore(source, start, cursor);
    }
    hide Newlines;
  }

  /** `cursor` is inside the comment at `start`, `depth` comments deep and `lines` lines down. */
  ghost predicate InComment(source: string, start: nat, cursor: nat, depth: nat, lines: int) {
    && start + 2 <= cursor <= |source|
    && BlockLen(source[start + 2..], 1) == cursor - start - 2 + BlockLen(source[cursor..], depth)
    && lines == Newlines(source[start..cursor])
  }

  lemma CommentOn(source: string, start: nat, cursor: nat, depth: nat, lines: int)
    requires InComment(source, start, cursor, depth, lines) && cursor < |source| && depth > 0
    ensures var (n, depth') := BlockStep(source, cursor, depth);
      InComment(source, start, cursor + n, depth', lines + (if n == 1 && source[cursor] == NEWLINE then 1 else 0))
  {
    BlockNext(source, start, cursor, depth);
    hide BlockLen;
    hide Newlines;
    hide BlockStep;
  }

  lemma CommentOver(source: string, start: nat, cursor: nat, depth: nat, lines: int)
    requires InComment(source, start, cursor, depth, lines) && (cursor == |source| || depth == 0)
    ensures cursor == start + 2 + BlockLen(source[start + 2..], 1) && lines == Newlines(source[start..cursor])
  {
    BlockEnds(source, cursor, depth);
    hide BlockLen;
    hide Newlines;
  }

  /** The block comment's loop: where it ends, and how many lines it spans. */
  method SkipBlockComment(source: string, start: nat, line: nat) returns (end: nat, lines: nat)
    requires start + 2 <= |source| && "/*" <= source[start..]
    ensures end == start + 2 + BlockLen(source[start + 2..], 1)
    ensures lines == line + Newlines(source[start..end])
  {
    var depth := 1;
    var cursor := start + 2;
    lines := line;
    OpenerHasNoNewline(source, start);
    assert InComment(source, start, cursor, depth, 0) by { hide BlockLen; hide Newlines; }
    hide BlockLen;
    hide Newlines;
    while cursor < |source| && depth > 0
      invariant start + 2 <= cursor <= |source| && lines >= line && InComment(source, start, cursor, depth, lines - line)
      decreases |source| - cursor
    {
      hide InComment;
      CommentOn(source, start, cursor, depth, lines - line);
      if "/*" <= source[cursor..] {
        depth, cursor := depth + 1, cursor + 2;
      } else if "*/" <= source[cursor..] {
        depth, cursor := depth - 1, cursor + 2;
      } else {
        if source[cursor] == NEWLINE { lines := lines + 1; }
        cursor := cursor + 1;
      }
    }
    CommentOver(source, start, cursor, depth, lines - line);
    end := cursor;
  }

  lemma BlockEnds(source: string, cursor: nat, depth: nat)
    requires cursor <= |source| && (cursor == |source| || depth == 0)
    ensures BlockLen(source[cursor..], depth) == 0
  {
  }

  lemma OpenerHasNoNewline(source: string, start: nat)
    requires start + 2 <= |source| && "/*" <= source[start..]
    ensures Newlines(source[start..start + 2]) == 0
  {
    assert source[start..start + 2] == source[start..][..2] == "/*";
    assert "/*"[1..] == "*" && "*"[1..] == "";
  }

  lemma OneMore(source: string, start: nat, cursor: nat)
    requires start <= cursor < |source|
    ensures Newlines(source[start..cursor + 1]) == Newlines(source[start..cursor]) + (if source[cursor] == NEWLINE then 1 else 0)
  {
    assert source[start..cursor + 1] == source[start..cursor] + [source[cursor]];
    NewlinesSum(source[start..cursor], [source[cursor]]);
    assert [source[cursor]][1..] == [];
  }

  lemma TwoMore(source: string, start: nat, cursor: nat)
    requires start <= cursor && cursor + 2 <= |source| && source[cursor] != NEWLINE && source[cursor + 1] != NEWLINE
    ensures Newlines(source[start..cursor + 2]) == Newlines(source[start..cursor])
  {
    OneMore(source, start, cursor);
    OneMore(source, start, cursor + 1);
  }

  lemma {:induction false} NewlinesSum(a: string, b: string)
    ensures Newlines(a + b) == Newlines(a) + Newlines(b)
  {
    if a == [] {
      assert a + b == b;
    } else {
      assert (a + b)[1..] == a[1..] + b;
      NewlinesSum(a[1..], b);
    }
  }

  lemma LexUnfolds(k: Classes, rest: string, offset: nat, line: nat, n: nat, code: bool)
    requires rest != [] && Next(k, rest) == (n, code)
    ensures Lex(k, rest, offset, line)
      == (if code then [Token(rest[..n], offset, offset + n, line)] else [])
         + Lex(k, rest[n..], offset + n, line + Newlines(rest[..n]))
  {
    hide Next;
    hide Newlines;
  }

  function Found(source: string, index: nat, end: nat, line: nat, code: bool): seq<Token>
    requires index <= end <= |source|
  {
    if code then [Token(source[index..end], index, end, line)] else []
  }

  /** One lexeme further. */
  lemma LexNext(k: Classes, source: string, index: nat, line: nat, end: nat, code: bool)
    requires index < end <= |source| && Next(k, source[index..]) == (end - index, code)
    ensures Lex(k, source[index..], index, line)
      == Found(source, index, end, line, code) + Lex(k, source[end..], end, line + Newlines(source[index..end]))
  {
    hide Lex;
    hide Next;
    hide Newlines;
    LexUnfolds(k, source[index..], index, line, end - index, code);
    SliceOfRest(source, index, end - index);
  }

  method SkipLineComment(source: string, start: nat) returns (end: nat)
    requires start + 2 <= |source|
    ensures end == start + 2 + LineLen(source[start + 2..])
    ensures Newlines(source[start + 2..end]) == 0
  {
    end := start + 2;
    while end < |source| && source[end] != NEWLINE
      invariant start + 2 <= end <= |source|
      invariant LineLen(source[start + 2..]) == end - start - 2 + LineLen(source[end..])
      invariant Newlines(source[start + 2..end]) == 0
    {
      assert source[end..][1..] == source[end + 1..];
      OneMore(source, start + 2, end);
      end := end + 1;
    }
  }

  method IdentifierEnd(k: Classes, source: string, start: nat) returns (end: nat)
    requires start < |source|
    ensures end == start + 1 + IdentLen(k, source[start + 1..])
  {
    end := start + 1;
    while end < |source| && (k.alnum(source[end]) || source[end] == '_')
      invariant start < end <= |source|
      invariant IdentLen(k, source[start + 1..]) == end - start - 1 + IdentLen(k, source[end..])
    {
      assert source[end..][1..] == source[end + 1..];
      end := end + 1;
    }
  }

  /** What the lexer does with the lexeme at `index`: where it ends, on which line, and its token if it is code. */
  method Lexeme(k: Classes, source: string, index: nat, line: nat) returns (end: nat, lines: nat, code: bool)
    requires index < |source|
    ensures Next(k, source[index..]) == (end - index, code) && index < end <= |source|
    ensures lines == if code then line else line + Newlines(source[index..end])
  {
    ghost var rest := source[index..];
    var c := source[index];
    lines := line;
    code := false;
    if c == NEWLINE {
      OneMore(source, index, index);
      return index + 1, line + 1, false;
    }
    if k.space(c) {
      OneMore(source, index, index);
      return index + 1, line, false;
    }
    if "//" <= source[index..] {
      assert rest[2..] == source[index + 2..];
      end := SkipLineComment(source, index);
      SlashesHaveNoNewline(source, index, end);
      return;
    }
    if "/*" <= source[index..] {
      assert rest[2..] == source[index + 2..];
      end, lines := SkipBlockComment(source, index, line);
      return;
    }
    end, lines, code := CodeOrLiteral(k, source, index, line);
  }

  /** Behind white space and comments come literals, identifiers and single characters. */
  method CodeOrLiteral(k: Classes, source: string, index: nat, line: nat) returns (end: nat, lines: nat, code: bool)
    requires index < |source| && source[index] != NEWLINE && !k.space(source[index])
    requires !("//" <= source[index..]) && !("/*" <= source[index..])
    ensures Next(k, source[index..]) == (end - index, code) && index < end <= |source|
    ensures lines == if code then line else line + Newlines(source[index..end])
  {
    ghost var rest := source[index..];
    var c := source[index];
    lines := line;
    code := false;
    hide Newlines;
    hide RawLen;
    hide CharLen;
    hide QuotedLen;
    hide IdentLen;
    hide LineLen;
    hide BlockLen;
    var rawEnd := RawStringEnd(source, index);
    if rawEnd.Some? { return rawEnd.value, line + Newlines(source[index..rawEnd.value]), false; }
    if c == QUOTE || ((c == 'b' || c == 'c') && index + 1 < |source| && source[index + 1] == QUOTE) {
      var quoteStart := if c == QUOTE then index else index + 1;
      assert rest[1..] == source[index + 1..];
      assert c != QUOTE ==> rest[2..] == source[index + 2..];
      end := SkipQuoted(source, quoteStart, QUOTE);
      lines := line + Newlines(source[index..end]);
      return;
    }
    if c == TICK {
      var charEnd := CharLiteralEnd(source, index);
      if charEnd.Some? { return charEnd.value, line + Newlines(source[index..charEnd.value]), false; }
    }
    if k.alpha(c) || c == '_' {
      assert rest[1..] == source[index + 1..];
      end := IdentifierEnd(k, source, index);
      return end, line, true;
    }
    return index + 1, line, true;
  }

  lemma SlashesHaveNoNewline(source: string, start: nat, end: nat)
    requires start + 2 <= end <= |source| && "//" <= source[start..] && Newlines(source[start + 2..end]) == 0
    ensures Newlines(source[start..end]) == 0
  {
    assert source[start..end] == "//" + source[start + 2..end] by { assert source[start..][..2] == "//"; }
    NewlinesSum("//", source[start + 2..end]);
    assert "//"[1..] == "/" && "/"[1..] == "";
  }

  /** `tokens` are those of the source up to `index`, on the way to `goal`. */
  ghost predicate OnTheWay(k: Classes, source: string, goal: seq<Token>, tokens: seq<Token>, index: nat, line: nat) {
    index <= |source| && goal == tokens + Lex(k, source[index..], index, line)
  }

  lemma OneLexemeOn(k: Classes, source: string, goal: seq<Token>, tokens: seq<Token>, index: nat, line: nat, end: nat, lines: nat, code: bool)
    requires NoNewlineInCode(k) && OnTheWay(k, source, goal, tokens, index, line)
    requires index < end <= |source| && Next(k, source[index..]) == (end - index, code)
    requires lines == if code then line else line + Newlines(source[index..end])
    ensures OnTheWay(k, source, goal, tokens + Found(source, index, end, line, code), end, lines)
  {
    hide *;
    WayIs(k, source, goal, tokens, index, line);
    if code { CodeHasNoNewline(k, source, index, end); }
    LexNext(k, source, index, line, end, code);
    FoundOrNot(tokens, Found(source, index, end, line, code), Lex(k, source[end..], end, lines));
    WayGoesOn(k, source, goal, tokens + Found(source, index, end, line, code), end, lines);
  }

  lemma WayIs(k: Classes, source: string, goal: seq<Token>, tokens: seq<Token>, index: nat, line: nat)
    requires OnTheWay(k, source, goal, tokens, index, line)
    ensures index <= |source| && goal == tokens + Lex(k, source[index..], index, line)
  {
    hide Lex;
  }

  lemma WayGoesOn(k: Classes, source: string, goal: seq<Token>, tokens: seq<Token>, index: nat, line: nat)
    requires index <= |source| && goal == tokens + Lex(k, source[index..], index, line)
    ensures OnTheWay(k, source, goal, tokens, index, line)
  {
    hide Lex;
  }

  lemma FoundOrNot(tokens: seq<Token>, found: seq<Token>, there: seq<Token>)
    ensures tokens + (found + there) == tokens + found + there
  {
    Regroup(tokens, found, there);
  }

  lemma AtTheStart(k: Classes, source: string)
    ensures OnTheWay(k, source, Lex(k, source, 0, 1), [], 0, 1)
  {
    hide Lex;
    assert source[0..] == source;
    assert [] + Lex(k, source, 0, 1) == Lex(k, source, 0, 1);
  }

  lemma AtTheEnd(k: Classes, source: string, goal: seq<Token>, tokens: seq<Token>, line: nat)
    requires OnTheWay(k, source, goal, tokens, |source|, line)
    ensures tokens == goal
  {
    NothingToLex(k, source, line);
    hide Lex;
    assert tokens + [] == tokens;
  }

  method Tokens(k: Classes, source: string) returns (tokens: seq<Token>)
    requires NoNewlineInCode(k)
    ensures tokens == Lex(k, source, 0, 1)
  {
    tokens := [];
    var index, line := 0, 1;
    hide *;
    AtTheStart(k, source);
    ghost var goal := Lex(k, source, 0, 1);
    while index < |source|
      invariant index <= |source| && OnTheWay(k, source, goal, tokens, index, line)
      decreases |source| - index
    {
      ghost var before := tokens;
      var end, lines, code := Lexeme(k, source, index, line);
      if code { tokens := tokens + [Token(source[index..end], index, end, line)]; }
      OneLexemeOn(k, source, goal, before, index, line, end, lines, code);
      FoundIs(source, index, end, line, code, before);
      index, line := end, lines;
    }
    AtTheEnd(k, source, goal, tokens, line);
  }

  lemma FoundIs(source: string, index: nat, end: nat, line: nat, code: bool, tokens: seq<Token>)
    requires index <= end <= |source|
    ensures tokens + Found(source, index, end, line, code)
      == if code then tokens + [Token(source[index..end], index, end, line)] else tokens
  {
  }

  lemma NothingToLex(k: Classes, source: string, line: nat)
    ensures Lex(k, source[|source|..], |source|, line) == []
  {
  }

  /** A line feed is no letter. */
  predicate NoNewlineInCode(k: Classes) { !k.alpha(NEWLINE) && !k.alnum(NEWLINE) }

  lemma {:induction false} IdentHasNoNewline(k: Classes, s: string)
    requires NoNewlineInCode(k)
    ensures Newlines(s[..IdentLen(k, s)]) == 0
  {
    if s != [] && (k.alnum(s[0]) || s[0] == '_') {
      IdentHasNoNewline(k, s[1..]);
      var n := IdentLen(k, s[1..]);
      assert s[..n + 1] == [s[0]] + s[1..][..n];
      assert ([s[0]] + s[1..][..n])[1..] == s[1..][..n];
    }
  }

  lemma CodeHasNoNewline(k: Classes, source: string, index: nat, end: nat)
    requires NoNewlineInCode(k) && index < end <= |source| && Next(k, source[index..]) == (end - index, true)
    ensures Newlines(source[index..end]) == 0
  {
    var rest := source[index..];
    assert source[index..end] == [rest[0]] + rest[1..][..end - index - 1];
    IdentHasNoNewline(k, rest[1..]);
    NewlinesSum([rest[0]], rest[1..][..end - index - 1]);
    assert rest[0] != NEWLINE;
    assert [rest[0]][1..] == "";
  }

  // ------------------------------------------------ tokens tell where they are

  ghost predicate Located(source: string, t: Token) {
    t.start < t.end <= |source| && t.text == source[t.start..t.end] && t.line == 1 + Newlines(source[..t.start])
  }

  /** Every token of any text is the piece of it that it claims to be, on the line it claims, and
      tokens do not overlap. */
  lemma {:induction false} TokensAreLocated(k: Classes, source: string, index: nat)
    requires index <= |source|
    ensures LexInOrder(k, source, index)
    decreases |source| - index
  {
    if index < |source| {
      var (n, code) := Next(k, source[index..]);
      hide *;
      var end := index + n;
      TokensAreLocated(k, source, end);
      OrderOn(k, source, index, end, code);
    } else {
      NothingInOrder(k, source);
      hide *;
    }
  }

  ghost predicate LexInOrder(k: Classes, source: string, index: nat)
    requires index <= |source|
  {
    InOrder(source, index, Lex(k, source[index..], index, 1 + Newlines(source[..index])))
  }

  lemma NothingInOrder(k: Classes, source: string)
    ensures LexInOrder(k, source, |source|)
  {
    NothingToLex(k, source, 1 + Newlines(source[..|source|]));
    hide Lex;
    hide Newlines;
  }

  lemma OrderOn(k: Classes, source: string, index: nat, end: nat, code: bool)
    requires index < end <= |source| && Next(k, source[index..]) == (end - index, code) && LexInOrder(k, source, end)
    ensures LexInOrder(k, source, index)
  {
    hide *;
    var line, lines := 1 + Newlines(source[..index]), 1 + Newlines(source[..end]);
    LexNext(k, source, index, line, end, code);
    LineBehind(source, index, end);
    LexInOrderIs(k, source, end);
    LexInOrderIs(k, source, index);
    OrderKept(source, index, end, code, Lex(k, source[end..], end, lines));
  }

  lemma LexInOrderIs(k: Classes, source: string, index: nat)
    requires index <= |source|
    ensures LexInOrder(k, source, index)
      == InOrder(source, index, Lex(k, source[index..], index, 1 + Newlines(source[..index])))
  {
    hide Lex;
    hide Newlines;
    hide InOrder;
  }

  ghost predicate InOrder(source: string, index: nat, tokens: seq<Token>) {
    && (forall i :: 0 <= i < |tokens| ==> Located(source, tokens[i]) && index <= tokens[i].start)
    && (forall i, j :: 0 <= i < j < |tokens| ==> tokens[i].end <= tokens[j].start)
  }

  lemma LineBehind(source: string, index: nat, end: nat)
    requires index <= end <= |source|
    ensures Newlines(source[..index]) + Newlines(source[index..end]) == Newlines(source[..end])
  {
    assert source[..end] == source[..index] + source[index..end];
    NewlinesSum(source[..index], source[index..end]);
  }

  lemma OrderKept(source: string, index: nat, end: nat, code: bool, rest: seq<Token>)
    requires index < end <= |source| && InOrder(source, end, rest)
    ensures InOrder(source, index, Found(source, index, end, 1 + Newlines(source[..index]), code) + rest)
  {
    hide Newlines;
    var token := Token(source[index..end], index, end, 1 + Newlines(source[..index]));
    assert Located(source, token);
    hide Located;
    if !code { assert [] + rest == rest; } else { FirstInOrder(source, index, token, rest); }
  }

  lemma FirstInOrder(source: string, index: nat, token: Token, rest: seq<Token>)
    requires Located(source, token) && token.start == index < token.end && InOrder(source, token.end, rest)
    ensures InOrder(source, index, [token] + rest)
  {
    hide Located;
    var all := [token] + rest;
    forall i | 0 <= i < |all| ensures Located(source, all[i]) && index <= all[i].start {
      assert i > 0 ==> all[i] == rest[i - 1];
    }
    forall i, j | 0 <= i < j < |all| ensures all[i].end <= all[j].start {
      assert all[j] == rest[j - 1] && (i > 0 ==> all[i] == rest[i - 1]);
    }
  }
}
