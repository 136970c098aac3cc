/**
 What the writer check ignores: the items behind an attribute that gates them to test builds.
 The scan works on the flat tokens of a file; `ProductionCode` says what that means for the
 items as they nest.
 */
module TestOnlyItems {
  import opened Options
  import opened Sequences
  import opened RustLexer
  import C = CfgExpression

  const SEMICOLON := ";"
  const PAREN := "("
  const UNPAREN := ")"
  const SQUARE := "["
  const UNSQUARE := "]"
  const CURLY := "{"
  const UNCURLY := "}"
  const HASH := "#"

  predicate RawWrite(text: string) { text == "execute" || text == "execute_batch" || text == "transaction" }

  datatype Violation = Violation(line: nat, method_: string)

  // ------------------------------------------------------------------- attributes

  predicate OpensAttribute(rest: seq<string>) { |rest| > 1 && rest[0] == HASH && rest[1] == SQUARE }

  /** How many tokens the attribute in front takes; all there are when nothing closes it. */
  function AttributeLen(rest: seq<string>): (n: nat)
    requires OpensAttribute(rest)
    ensures 2 <= n <= |rest|
  {
    var found := C.CloserIn(rest[1..], SQUARE, UNSQUARE, 0);
    if found.Some? then found.value + 2 else |rest|
  }

  // ------------------------------------------------------------------------ items

  function Less(n: nat): nat { if n == 0 then 0 else n - 1 }

  /** The offset of the last token of the item in front, inside so many parentheses and brackets. */
  function ItemEndIn(rest: seq<string>, parens: nat, brackets: nat): (r: Option<nat>)
    ensures r.Some? ==> r.value < |rest|
  {
    if rest == [] then None
    else if rest[0] == PAREN then Later(ItemEndIn(rest[1..], parens + 1, brackets))
    else if rest[0] == UNPAREN then Later(ItemEndIn(rest[1..], Less(parens), brackets))
    else if rest[0] == SQUARE then Later(ItemEndIn(rest[1..], parens, brackets + 1))
    else if rest[0] == UNSQUARE then Later(ItemEndIn(rest[1..], parens, Less(brackets)))
    else if rest[0] == SEMICOLON && parens == 0 && brackets == 0 then Some(0)
    else if rest[0] == CURLY && parens == 0 && brackets == 0 then
      var found := C.CloserIn(rest, CURLY, UNCURLY, 0);
      if found.Some? then found else Some(|rest| - 1)
    else Later(ItemEndIn(rest[1..], parens, brackets))
  }

  function ItemLen(rest: seq<string>): (n: nat)
    ensures n <= |rest| && (rest != [] ==> n > 0)
  {
    var found := ItemEndIn(rest, 0, 0);
    if found.Some? then found.value + 1 else |rest|
  }

  method ItemEnd(tokens: seq<string>, start: nat) returns (index: int)
    requires start <= |tokens|
    ensures index == start + ItemLen(tokens[start..]) - 1
  {
    var parens: nat, brackets: nat := 0, 0;
    var i := start;
    ghost var goal := ItemEndIn(tokens[start..], 0, 0);
    assert goal == Beyond(0, goal);
    while i < |tokens|
      invariant start <= i <= |tokens| && goal == Beyond(i - start, ItemEndIn(tokens[i..], parens, brackets))
    {
      var text := tokens[i];
      ItemEndNext(tokens, i, parens, brackets, i - start);
      hide ItemEndIn;
      if text == PAREN {
        parens := parens + 1;
      } else if text == UNPAREN {
        parens := if parens > 0 then parens - 1 else 0;
      } else if text == SQUARE {
        brackets := brackets + 1;
      } else if text == UNSQUARE {
        brackets := if brackets > 0 then brackets - 1 else 0;
      } else if text == SEMICOLON && parens == 0 && brackets == 0 {
        return i;
      } else if text == CURLY && parens == 0 && brackets == 0 {
        BracketsDiffer();
        index := C.Matching(tokens, i, CURLY, UNCURLY);
        return;
      }
      i := i + 1;
    }
    index := |tokens| - 1;
  }

  lemma BracketsDiffer()
    ensures PAREN != UNPAREN && PAREN != SQUARE && PAREN != UNSQUARE && PAREN != CURLY && PAREN != UNCURLY
    ensures UNPAREN != SQUARE && UNPAREN != UNSQUARE && UNPAREN != CURLY && UNPAREN != UNCURLY
    ensures SQUARE != UNSQUARE && SQUARE != CURLY && SQUARE != UNCURLY
    ensures UNSQUARE != CURLY && UNSQUARE != UNCURLY && CURLY != UNCURLY
    ensures SEMICOLON !in {PAREN, UNPAREN, SQUARE, UNSQUARE, CURLY, UNCURLY}
    ensures HASH !in {PAREN, UNPAREN, SQUARE, UNSQUARE, CURLY, UNCURLY, SEMICOLON}
  {
    assert PAREN[0] == '(' && UNPAREN[0] == ')' && SQUARE[0] == '[' && UNSQUARE[0] == ']' && CURLY[0] == '{' && UNCURLY[0] == '}';
    assert SEMICOLON[0] == ';' && HASH[0] == '#';
  }

  lemma ItemEndNext(tokens: seq<string>, i: nat, parens: nat, brackets: nat, n: nat)
    requires i < |tokens|
    ensures Beyond(n, ItemEndIn(tokens[i..], parens, brackets))
      == var text, rest := tokens[i], tokens[i + 1..];
         if text == PAREN then Beyond(n + 1, ItemEndIn(rest, parens + 1, brackets))
         else if text == UNPAREN then Beyond(n + 1, ItemEndIn(rest, Less(parens), brackets))
         else if text == SQUARE then Beyond(n + 1, ItemEndIn(rest, parens, brackets + 1))
         else if text == UNSQUARE then Beyond(n + 1, ItemEndIn(rest, parens, Less(brackets)))
         else if text == SEMICOLON && parens == 0 && brackets == 0 then Some(n)
         else if text == CURLY && parens == 0 && brackets == 0 then
           var found := C.CloserIn(tokens[i..], CURLY, UNCURLY, 0);
           Some(n + if found.Some? then found.value else |tokens| - i - 1)
         else Beyond(n + 1, ItemEndIn(rest, parens, brackets))
  {
    assert tokens[i..][1..] == tokens[i + 1..];
    hide C.CloserIn;
  }

  // ----------------------------------------------------------------------- ranges

  /** First and last index of each ignored stretch, when `rest` begins at index `at`. */
  function RangesOf(rest: seq<string>, at: nat): (r: seq<(nat, nat)>)
    ensures forall i :: 0 <= i < |r| ==> at <= r[i].0 <= r[i].1 < at + |rest|
    decreases |rest|
  {
    if |rest| < 2 then []
    else if !OpensAttribute(rest) then RangesOf(rest[1..], at + 1)
    else
      var n := AttributeLen(rest);
      if !C.TestOnly(rest[..n]) then RangesOf(rest[n..], at + n)
      else
        var m := n + ItemLen(rest[n..]);
        (if n < |rest| then [(at, at + m - 1)] else []) + RangesOf(rest[m..], at + m)
  }

  function Offsets(tokens: seq<Token>, ranges: seq<(nat, nat)>): (r: seq<(nat, nat)>)
    requires forall i :: 0 <= i < |ranges| ==> ranges[i].0 <= ranges[i].1 < |tokens|
    ensures |r| == |ranges| && forall i :: 0 <= i < |r| ==> r[i] == (tokens[ranges[i].0].start, tokens[ranges[i].1].end)
  {
    seq(|ranges|, i requires 0 <= i < |ranges| => (tokens[ranges[i].0].start, tokens[ranges[i].1].end))
  }

  method TestOnlyRanges(tokens: seq<Token>) returns (ranges: seq<(nat, nat)>)
    ensures ranges == Offsets(tokens, RangesOf(Texts(tokens), 0))
  {
    hide *;
    var texts := Texts(tokens);
    ghost var found: seq<(nat, nat)> := [];
    ghost var goal := RangesOf(texts, 0);
    ranges := [];
    var index := 0;
    assert texts[0..] == texts && found + goal == goal;
    while index + 1 < |tokens|
      invariant index <= |tokens| && goal == found + RangesOf(texts[index..], index)
      invariant (forall i :: 0 <= i < |found| ==> found[i].0 <= found[i].1 < |tokens|) && ranges == Offsets(tokens, found)
      decreases |tokens| - index
    {
      WhatOpens(tokens, texts, index);
      if tokens[index].text != HASH || tokens[index + 1].text != SQUARE {
        RangesSkip(texts, index);
        index := index + 1;
      } else {
        var attributeEnd := AttributeEnd(texts, index);
        var testOnly := C.IsTestOnlyCfg(texts[index..attributeEnd + 1]);
        if testOnly {
          var itemStart := attributeEnd + 1;
          var itemEnd := ItemEnd(texts, itemStart);
          RangesAtItem(texts, index, itemStart, itemEnd);
          Regroup(found, if itemStart < |tokens| then [(index, itemEnd as nat)] else [], RangesOf(texts[itemEnd + 1..], itemEnd + 1));
          if itemStart < |tokens| {
            OneMoreRange(tokens, found, index, itemEnd);
            ranges := ranges + [(tokens[index].start, tokens[itemEnd].end)];
            found := found + [(index, itemEnd)];
          }
          index := itemEnd + 1;
        } else {
          RangesAtOther(texts, index, attributeEnd + 1);
          index := attributeEnd + 1;
        }
      }
    }
    NoMoreRanges(texts, index);
    assert found + [] == found;
  }

  lemma WhatOpens(tokens: seq<Token>, texts: seq<string>, index: nat)
    requires index + 1 < |tokens| && texts == Texts(tokens)
    ensures OpensAttribute(texts[index..]) <==> tokens[index].text == HASH && tokens[index + 1].text == SQUARE
  {
  }

  lemma OneMoreRange(tokens: seq<Token>, found: seq<(nat, nat)>, first: nat, last: nat)
    requires (forall i :: 0 <= i < |found| ==> found[i].0 <= found[i].1 < |tokens|) && first <= last < |tokens|
    ensures forall i :: 0 <= i < |found + [(first, last)]| ==> (found + [(first, last)])[i].0 <= (found + [(first, last)])[i].1 < |tokens|
    ensures Offsets(tokens, found + [(first, last)]) == Offsets(tokens, found) + [(tokens[first].start, tokens[last].end)]
  {
  }

  lemma NoMoreRanges(texts: seq<string>, index: nat)
    requires index <= |texts| <= index + 1
    ensures RangesOf(texts[index..], index) == []
  {
  }

  method AttributeEnd(texts: seq<string>, index: nat) returns (end: nat)
    requires index < |texts| && OpensAttribute(texts[index..])
    ensures index < end < |texts| && end + 1 == index + AttributeLen(texts[index..])
  {
    BracketsDiffer();
    assert texts[index..][1..] == texts[index + 1..];
    end := C.Matching(texts, index + 1, SQUARE, UNSQUARE);
  }

  lemma RangesSkip(texts: seq<string>, index: nat)
    requires index + 1 < |texts| && !OpensAttribute(texts[index..])
    ensures RangesOf(texts[index..], index) == RangesOf(texts[index + 1..], index + 1)
  {
    assert texts[index..][1..] == texts[index + 1..];
  }

  lemma RangesUnfold(rest: seq<string>, at: nat, n: nat)
    requires OpensAttribute(rest) && n == AttributeLen(rest)
    ensures RangesOf(rest, at)
      == if !C.TestOnly(rest[..n]) then RangesOf(rest[n..], at + n)
         else (if n < |rest| then [(at, at + n + ItemLen(rest[n..]) - 1)] else [])
              + RangesOf(rest[n + ItemLen(rest[n..])..], at + n + ItemLen(rest[n..]))
  {
    hide C.TestOnly;
    hide AttributeLen;
    hide ItemLen;
  }

  lemma RangesAtOther(texts: seq<string>, index: nat, behind: nat)
    requires index < |texts| && OpensAttribute(texts[index..]) && behind == index + AttributeLen(texts[index..])
    requires !C.TestOnly(texts[index..behind])
    ensures RangesOf(texts[index..], index) == RangesOf(texts[behind..], behind)
  {
    hide *;
    SliceOfRest(texts, index, behind - index);
    RangesUnfold(texts[index..], index, behind - index);
  }

  lemma RangesAtItem(texts: seq<string>, index: nat, itemStart: nat, itemEnd: int)
    requires index < |texts| && OpensAttribute(texts[index..]) && itemStart == index + AttributeLen(texts[index..])
    requires C.TestOnly(texts[index..itemStart]) && itemEnd == itemStart + ItemLen(texts[itemStart..]) - 1
    ensures index < itemEnd < |texts|
    ensures RangesOf(texts[index..], index)
      == (if itemStart < |texts| then [(index, itemEnd)] else []) + RangesOf(texts[itemEnd + 1..], itemEnd + 1)
  {
    hide *;
    SliceOfRest(texts, index, itemStart - index);
    SliceOfRest(texts, index, itemEnd + 1 - index);
    RangesUnfold(texts[index..], index, itemStart - index);
  }

  // ------------------------------------------------------------- what is left over

  /** The tokens the scan looks at. An open item is skipped first. */
  function Kept(rest: seq<Token>, open: bool): seq<Token>
    decreases |rest|, open
  {
    if open then Kept(rest[ItemLen(Texts(rest))..], false)
    else if rest == [] then []
    else if !OpensAttribute(Texts(rest)) then [rest[0]] + Kept(rest[1..], false)
    else
      var n := AttributeLen(Texts(rest));
      if C.TestOnly(Texts(rest[..n])) && n < |rest| then Kept(rest[n..], true) else rest[..n] + Kept(rest[n..], false)
  }

  predicate Inside(position: nat, ranges: seq<(nat, nat)>) {
    exists r :: r in ranges && r.0 <= position < r.1
  }

  function Outside(tokens: seq<Token>, ranges: seq<(nat, nat)>): seq<Token> {
    if tokens == [] then [] else
    (if Inside(tokens[0].start, ranges) then [] else [tokens[0]]) + Outside(tokens[1..], ranges)
  }

  predicate Covered(ranges: seq<(nat, nat)>, i: nat) {
    exists r :: r in ranges && r.0 <= i <= r.1
  }

  function Uncovered(rest: seq<Token>, ranges: seq<(nat, nat)>, at: nat): seq<Token> {
    if rest == [] then [] else
    (if Covered(ranges, at) then [] else [rest[0]]) + Uncovered(rest[1..], ranges, at + 1)
  }

  /** Tokens follow each other in the text. */
  ghost predicate Ordered(tokens: seq<Token>) {
    && (forall i :: 0 <= i < |tokens| ==> tokens[i].start < tokens[i].end)
    && forall i, j :: 0 <= i < j < |tokens| ==> tokens[i].end <= tokens[j].start
  }

  lemma InsideOne(tokens: seq<Token>, first: nat, last: nat, i: nat)
    requires Ordered(tokens) && i < |tokens| && first <= last < |tokens|
    ensures tokens[first].start <= tokens[i].start < tokens[last].end <==> first <= i <= last
  {
  }

  lemma InsideIsCovered(tokens: seq<Token>, ranges: seq<(nat, nat)>, i: nat)
    requires Ordered(tokens) && i < |tokens|
    requires forall j :: 0 <= j < |ranges| ==> ranges[j].0 <= ranges[j].1 < |tokens|
    ensures Inside(tokens[i].start, Offsets(tokens, ranges)) == Covered(ranges, i)
  {
    hide Ordered;
    var offsets := Offsets(tokens, ranges);
    forall j | 0 <= j < |ranges|
      ensures offsets[j].0 <= tokens[i].start < offsets[j].1 <==> ranges[j].0 <= i <= ranges[j].1
    {
      InsideOne(tokens, ranges[j].0, ranges[j].1, i);
      assert offsets[j] == (tokens[ranges[j].0].start, tokens[ranges[j].1].end);
    }
    SameHits(offsets, ranges, tokens[i].start, i);
    hide *;
  }

  lemma SameHits(offsets: seq<(nat, nat)>, ranges: seq<(nat, nat)>, position: nat, i: nat)
    requires |offsets| == |ranges|
    requires forall j :: 0 <= j < |ranges| ==> (offsets[j].0 <= position < offsets[j].1 <==> ranges[j].0 <= i <= ranges[j].1)
    ensures Inside(position, offsets) == Covered(ranges, i)
  {
    if Inside(position, offsets) {
      var r :| r in offsets && r.0 <= position < r.1;
      var j :| 0 <= j < |offsets| && offsets[j] == r;
      assert ranges[j] in ranges;
    }
    if Covered(ranges, i) {
      var r :| r in ranges && r.0 <= i <= r.1;
      var j :| 0 <= j < |ranges| && ranges[j] == r;
      assert offsets[j] in offsets;
    }
  }

  lemma {:induction false} OutsideIsUncovered(tokens: seq<Token>, ranges: seq<(nat, nat)>, at: nat)
    requires Ordered(tokens) && at <= |tokens|
    requires forall j :: 0 <= j < |ranges| ==> ranges[j].0 <= ranges[j].1 < |tokens|
    ensures Outside(tokens[at..], Offsets(tokens, ranges)) == Uncovered(tokens[at..], ranges, at)
    decreases |tokens| - at
  {
    if at < |tokens| {
      InsideIsCovered(tokens, ranges, at);
      OutsideIsUncovered(tokens, ranges, at + 1);
      assert tokens[at..][1..] == tokens[at + 1..] && tokens[at..][0] == tokens[at];
      hide Inside;
      hide Covered;
      hide Ordered;
    }
  }

  lemma {:induction false} UncoveredSum(a: seq<Token>, b: seq<Token>, ranges: seq<(nat, nat)>, at: nat)
    ensures Uncovered(a + b, ranges, at) == Uncovered(a, ranges, at) + Uncovered(b, ranges, at + |a|)
    decreases |a|
  {
    hide *;
    if a == [] {
      assert a + b == b && [] + Uncovered(b, ranges, at) == Uncovered(b, ranges, at);
      UncoveredNothing(ranges, at);
    } else {
      assert (a + b)[1..] == a[1..] + b && (a + b)[0] == a[0];
      UncoveredSum(a[1..], b, ranges, at + 1);
      UncoveredFirst(a, ranges, at);
      UncoveredFirst(a + b, ranges, at);
      Regroup(if Covered(ranges, at) then [] else [a[0]], Uncovered(a[1..], ranges, at + 1), Uncovered(b, ranges, at + |a|));
    }
  }

  lemma UncoveredNothing(ranges: seq<(nat, nat)>, at: nat)
    ensures Uncovered([], ranges, at) == []
  {
  }

  lemma UncoveredFirst(a: seq<Token>, ranges: seq<(nat, nat)>, at: nat)
    requires a != []
    ensures Uncovered(a, ranges, at) == (if Covered(ranges, at) then [] else [a[0]]) + Uncovered(a[1..], ranges, at + 1)
  {
    hide Covered;
  }

  lemma {:induction false} NoneCovered(a: seq<Token>, ranges: seq<(nat, nat)>, at: nat)
    requires forall i :: at <= i < at + |a| ==> !Covered(ranges, i)
    ensures Uncovered(a, ranges, at) == a
    decreases |a|
  {
    if a != [] { NoneCovered(a[1..], ranges, at + 1); }
    hide Covered;
  }

  lemma {:induction false} AllCovered(a: seq<Token>, ranges: seq<(nat, nat)>, at: nat)
    requires forall i :: at <= i < at + |a| ==> Covered(ranges, i)
    ensures Uncovered(a, ranges, at) == []
    decreases |a|
  {
    if a != [] { AllCovered(a[1..], ranges, at + 1); }
    hide Covered;
  }

  /** Ranges that end before a stretch do not matter to it. */
  lemma {:induction false} EarlierRange(a: seq<Token>, first: seq<(nat, nat)>, more: seq<(nat, nat)>, at: nat)
    requires forall r :: r in first ==> r.1 < at
    ensures Uncovered(a, first + more, at) == Uncovered(a, more, at)
    decreases |a|
  {
    if a != [] {
      assert Covered(first + more, at) == Covered(more, at);
      EarlierRange(a[1..], first, more, at + 1);
      hide Covered;
    }
  }

  /** `keep` says whether the first `n` tokens are left in; the later ranges lie behind them. */
  lemma UncoveredOn(rest: seq<Token>, n: nat, own: seq<(nat, nat)>, later: seq<(nat, nat)>, at: nat)
    requires n <= |rest| && (own == [] || (n > 0 && own == [(at, at + n - 1)]))
    requires forall r :: r in later ==> at + n <= r.0
    ensures Uncovered(rest, own + later, at)
      == (if own == [] then rest[..n] else []) + Uncovered(rest[n..], later, at + n)
  {
    assert rest == rest[..n] + rest[n..];
    UncoveredSum(rest[..n], rest[n..], own + later, at);
    EarlierRange(rest[n..], own, later, at + n);
    hide Uncovered;
    if own == [] {
      NoneCovered(rest[..n], own + later, at);
    } else {
      assert own[0] in own + later;
      AllCovered(rest[..n], own + later, at);
    }
  }

  /** For any tokens: what lies outside the ranges is what the scan walks over without skipping. */
  lemma {:induction false} UncoveredIsKept(rest: seq<Token>, at: nat)
    ensures Uncovered(rest, RangesOf(Texts(rest), at), at) == Kept(rest, false)
    decreases |rest|
  {
    hide *;
    if rest == [] {
      KeptNothing(at);
    } else if !OpensAttribute(Texts(rest)) {
      UncoveredIsKept(rest[1..], at + 1);
      SkipKept(rest, at);
    } else {
      var n := AttributeLen(Texts(rest));
      var m := if C.TestOnly(Texts(rest[..n])) then n + ItemLen(Texts(rest[n..])) else n;
      UncoveredIsKept(rest[m..], at + m);
      AttributeKept(rest, at, n, m);
    }
  }

  lemma KeptNothing(at: nat)
    ensures Uncovered([], RangesOf(Texts([]), at), at) == Kept([], false)
  {
  }

  lemma SkipKept(rest: seq<Token>, at: nat)
    requires rest != [] && !OpensAttribute(Texts(rest))
    requires Uncovered(rest[1..], RangesOf(Texts(rest[1..]), at + 1), at + 1) == Kept(rest[1..], false)
    ensures Uncovered(rest, RangesOf(Texts(rest), at), at) == Kept(rest, false)
  {
    var later := RangesOf(Texts(rest[1..]), at + 1);
    assert Texts(rest)[1..] == Texts(rest[1..]);
    assert RangesOf(Texts(rest), at) == later;
    assert [] + later == later;
    UncoveredOn(rest, 1, [], later, at);
    hide RangesOf;
    hide Uncovered;
  }

  lemma TextsSlice(rest: seq<Token>, n: nat)
    requires n <= |rest|
    ensures Texts(rest)[..n] == Texts(rest[..n]) && Texts(rest)[n..] == Texts(rest[n..])
  {
  }

  /** The range of the item behind the attribute of `n` tokens, when both together have `m`. */
  function OwnRange(rest: seq<Token>, at: nat, n: nat, m: nat): (r: seq<(nat, nat)>)
    requires n <= m && 0 < m && n <= |rest|
    ensures r == [] || r == [(at, at + m - 1)]
  {
    if C.TestOnly(Texts(rest[..n])) && n < |rest| then [(at, at + m - 1)] else []
  }

  lemma AttributeRanges(rest: seq<Token>, at: nat, n: nat, m: nat)
    requires OpensAttribute(Texts(rest)) && n == AttributeLen(Texts(rest)) && n <= m <= |rest|
    requires m == if C.TestOnly(Texts(rest[..n])) then n + ItemLen(Texts(rest[n..])) else n
    ensures RangesOf(Texts(rest), at) == OwnRange(rest, at, n, m) + RangesOf(Texts(rest[m..]), at + m)
  {
    hide *;
    OwnRangeIs(rest, at, n, m);
    TextsSlice(rest, n);
    TextsSlice(rest, m);
    RangesUnfold(Texts(rest), at, n);
    NothingInFront(RangesOf(Texts(rest[m..]), at + m));
  }

  lemma OwnRangeIs(rest: seq<Token>, at: nat, n: nat, m: nat)
    requires n <= m && 0 < m && n <= |rest|
    ensures OwnRange(rest, at, n, m) == if C.TestOnly(Texts(rest[..n])) && n < |rest| then [(at, at + m - 1)] else []
  {
    hide C.TestOnly;
  }

  lemma AttributeTokensKept(rest: seq<Token>, at: nat, n: nat, m: nat)
    requires OpensAttribute(Texts(rest)) && n == AttributeLen(Texts(rest)) && n <= m <= |rest|
    requires m == if C.TestOnly(Texts(rest[..n])) then n + ItemLen(Texts(rest[n..])) else n
    ensures Kept(rest, false) == (if OwnRange(rest, at, n, m) == [] then rest[..m] else []) + Kept(rest[m..], false)
  {
    hide *;
    OwnRangeIs(rest, at, n, m);
    NothingLong(rest[n..]);
    if C.TestOnly(Texts(rest[..n])) && n < |rest| {
      KeptBehindItem(rest, n, m);
      NothingInFront(Kept(rest[m..], false));
    } else {
      KeptAttribute(rest, n);
    }
  }

  lemma AttributeKept(rest: seq<Token>, at: nat, n: nat, m: nat)
    requires OpensAttribute(Texts(rest)) && n == AttributeLen(Texts(rest)) && n <= m <= |rest|
    requires m == if C.TestOnly(Texts(rest[..n])) then n + ItemLen(Texts(rest[n..])) else n
    requires Uncovered(rest[m..], RangesOf(Texts(rest[m..]), at + m), at + m) == Kept(rest[m..], false)
    ensures Uncovered(rest, RangesOf(Texts(rest), at), at) == Kept(rest, false)
  {
    hide *;
    AttributeRanges(rest, at, n, m);
    UncoveredOn(rest, m, OwnRange(rest, at, n, m), RangesOf(Texts(rest[m..]), at + m), at);
    AttributeTokensKept(rest, at, n, m);
  }

  lemma KeptBehindItem(rest: seq<Token>, n: nat, m: nat)
    requires OpensAttribute(Texts(rest)) && n == AttributeLen(Texts(rest)) && n < |rest|
    requires C.TestOnly(Texts(rest[..n])) && m == n + ItemLen(Texts(rest[n..])) && m <= |rest|
    ensures Kept(rest, false) == Kept(rest[m..], false)
  {
    hide *;
    KeptAttribute(rest, n);
    KeptItem(rest[n..]);
    SliceOfRest(rest, n, m - n);
  }

  lemma KeptItem(rest: seq<Token>)
    ensures Kept(rest, true) == Kept(rest[ItemLen(Texts(rest))..], false)
  {
  }

  lemma NothingLong(rest: seq<Token>)
    ensures rest == [] ==> ItemLen(Texts(rest)) == 0
  {
  }

  lemma KeptAttribute(rest: seq<Token>, n: nat)
    requires OpensAttribute(Texts(rest)) && n == AttributeLen(Texts(rest)) && n <= |rest|
    ensures Kept(rest, false)
      == if C.TestOnly(Texts(rest[..n])) && n < |rest| then Kept(rest[n..], true) else rest[..n] + Kept(rest[n..], false)
  {
    hide C.TestOnly;
    hide AttributeLen;
    hide ItemLen;
  }

  function ViolationsOf(tokens: seq<Token>): seq<Violation> {
    if tokens == [] then [] else
    (if RawWrite(tokens[0].text) then [Violation(tokens[0].line, tokens[0].text)] else []) + ViolationsOf(tokens[1..])
  }

  /** At every position: each of the three identifiers is reported with its line and its name,
      between the reports of what stands before it and behind it, and nothing else is reported. */
  lemma {:induction false} ReportedInPlace(tokens: seq<Token>, j: nat)
    requires j < |tokens|
    ensures var t := tokens[j];
      ViolationsOf(tokens)
      == ViolationsOf(tokens[..j])
         + (if t.text in {"execute", "execute_batch", "transaction"} then [Violation(t.line, t.text)] else [])
         + ViolationsOf(tokens[j + 1..])
    ensures ViolationsOf([]) == []
    decreases j
  {
    RawWriteIs(tokens[j].text);
    hide RawWrite;
    if j > 0 {
      var rest := tokens[1..];
      ReportedInPlace(rest, j - 1);
      assert tokens[..j][1..] == rest[..j - 1] && tokens[..j][0] == tokens[0] && rest[j..] == tokens[j + 1..] && rest[j - 1] == tokens[j];
    }
  }

  lemma RawWriteIs(text: string)
    ensures RawWrite(text) == (text in {"execute", "execute_batch", "transaction"})
  {
  }

  /** The scan of one file: what it reports are the forbidden identifiers among the tokens kept. */
  method ScanFile(k: Classes, source: string) returns (violations: seq<Violation>)
    requires NoNewlineInCode(k)
    ensures violations == ViolationsOf(Kept(Lex(k, source, 0, 1), false))
  {
    hide *;
    var tokens := RustLexer.Tokens(k, source);
    var ignored := TestOnlyRanges(tokens);
    ghost var goal := ViolationsOf(Outside(tokens, ignored));
    LexIsOrdered(k, source);
    OutsideIsKept(tokens);
    violations := [];
    assert tokens[0..] == tokens && violations + goal == goal;
    var i := 0;
    while i < |tokens|
      invariant i <= |tokens| && goal == violations + ViolationsOf(Outside(tokens[i..], ignored))
    {
      var token := tokens[i];
      ReportNext(tokens, i, ignored, violations);
      if RawWrite(token.text) && !Inside(token.start, ignored) {
        violations := violations + [Violation(token.line, token.text)];
      }
      i := i + 1;
    }
    NothingToReport(tokens, ignored, violations);
  }

  lemma ReportNext(tokens: seq<Token>, i: nat, ignored: seq<(nat, nat)>, violations: seq<Violation>)
    requires i < |tokens|
    ensures var token := tokens[i];
      violations + ViolationsOf(Outside(tokens[i..], ignored))
      == (if RawWrite(token.text) && !Inside(token.start, ignored) then violations + [Violation(token.line, token.text)] else violations)
         + ViolationsOf(Outside(tokens[i + 1..], ignored))
  {
    hide Inside;
    hide RawWrite;
    assert tokens[i..][1..] == tokens[i + 1..] && tokens[i..][0] == tokens[i];
    var rest := Outside(tokens[i + 1..], ignored);
    if !Inside(tokens[i].start, ignored) {
      assert ([tokens[i]] + rest)[1..] == rest;
    } else {
      assert [] + rest == rest;
    }
  }

  lemma NothingToReport(tokens: seq<Token>, ignored: seq<(nat, nat)>, violations: seq<Violation>)
    ensures violations + ViolationsOf(Outside(tokens[|tokens|..], ignored)) == violations
  {
  }

  lemma LexIsOrdered(k: Classes, source: string)
    ensures Ordered(Lex(k, source, 0, 1))
  {
    TokensAreLocated(k, source, 0);
    assert source[0..] == source && Newlines(source[..0]) == 0;
    hide Lex;
    hide Newlines;
  }

  lemma OutsideIsKept(tokens: seq<Token>)
    requires Ordered(tokens)
    ensures Outside(tokens, Offsets(tokens, RangesOf(Texts(tokens), 0))) == Kept(tokens, false)
  {
    hide *;
    OutsideIsUncovered(tokens, RangesOf(Texts(tokens), 0), 0);
    UncoveredIsKept(tokens, 0);
    assert tokens[0..] == tokens;
  }
}
