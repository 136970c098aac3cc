/**
 Code as it nests: words and groups in brackets. `Walk` is what the scan for forbidden identifiers
 makes of nested code; the scan itself works on flat tokens and knows nothing of nesting but what
 it counts.
 */
module NestedScan {
  import opened Options
  import opened Sequences
  import opened RustLexer
  import opened TestOnlyItems
  import C = CfgExpression

  datatype Node = Word(token: Token) | Group(open: Token, inside: seq<Node>, close: Token)

  predicate IsBracket(text: string) { text in {PAREN, UNPAREN, SQUARE, UNSQUARE, CURLY, UNCURLY} }

  predicate IsPair(open: string, close: string) {
    || (open == PAREN && close == UNPAREN)
    || (open == SQUARE && close == UNSQUARE)
    || (open == CURLY && close == UNCURLY)
  }

  predicate WellFormed(nodes: seq<Node>)
    decreases nodes
  {
    nodes == [] || (NodeWellFormed(nodes[0]) && WellFormed(nodes[1..]))
  }

  predicate NodeWellFormed(node: Node)
    decreases node
  {
    match node
    case Word(token) => !IsBracket(token.text)
    case Group(open, inside, close) => IsPair(open.text, close.text) && WellFormed(inside)
  }

  function Flatten(nodes: seq<Node>): seq<Token>
    decreases nodes
  {
    if nodes == [] then [] else TokensOf(nodes[0]) + Flatten(nodes[1..])
  }

  function TokensOf(node: Node): (r: seq<Token>)
    ensures r != []
    decreases node
  {
    match node
    case Word(token) => [token]
    case Group(open, inside, close) => [open] + Flatten(inside) + [close]
  }

  // ------------------------------------------------------------------- the meaning

  predicate EndsItem(node: Node) {
    if node.Word? then node.token.text == SEMICOLON else node.open.text == CURLY
  }

  predicate IsAttribute(nodes: seq<Node>) {
    |nodes| > 1 && nodes[0].Word? && nodes[0].token.text == HASH && nodes[1].Group? && nodes[1].open.text == SQUARE
  }

  predicate IsTestAttribute(nodes: seq<Node>) {
    IsAttribute(nodes) && C.TestOnly(Texts(Flatten(nodes[..2])))
  }

  /** What the scan keeps of nested code, and whether it is then still skipping an item. */
  function Walk(nodes: seq<Node>, inItem: bool): (seq<Token>, bool)
    decreases nodes
  {
    if nodes == [] then ([], inItem)
    else if inItem then Walk(nodes[1..], !EndsItem(nodes[0]))
    else if IsTestAttribute(nodes) then Walk(nodes[2..], true)
    else if IsAttribute(nodes) then
      var (more, still) := Walk(nodes[2..], false);
      (Flatten(nodes[..2]) + more, still)
    else match nodes[0]
      case Word(token) =>
        var (more, still) := Walk(nodes[1..], false);
        ([token] + more, still)
      case Group(open, inside, close) =>
        var (kept, running) := Walk(inside, false);
        var (more, still) := Walk(nodes[1..], running);
        ([open] + kept + (if running then [] else [close]) + more, still)
  }

  // ----------------------------------------------- brackets that close what they open

  lemma TextsSum(a: seq<Token>, b: seq<Token>)
    ensures Texts(a + b) == Texts(a) + Texts(b)
  {
  }

  lemma GroupTexts(node: Node, rest: seq<string>)
    requires node.Group?
    ensures Texts(TokensOf(node)) + rest == [node.open.text] + (Texts(Flatten(node.inside)) + ([node.close.text] + rest))
    ensures |TokensOf(node)| == |Flatten(node.inside)| + 2
  {
    hide Flatten;
    TextsSum([node.open] + Flatten(node.inside), [node.close]);
    TextsSum([node.open], Flatten(node.inside));
  }

  lemma NodesTexts(nodes: seq<Node>, rest: seq<string>)
    requires nodes != []
    ensures Texts(Flatten(nodes)) + rest == Texts(TokensOf(nodes[0])) + (Texts(Flatten(nodes[1..])) + rest)
    ensures |Flatten(nodes)| == |TokensOf(nodes[0])| + |Flatten(nodes[1..])|
  {
    hide *;
    FlattenFirst(nodes);
    TextsSum(TokensOf(nodes[0]), Flatten(nodes[1..]));
    Regroup(Texts(TokensOf(nodes[0])), Texts(Flatten(nodes[1..])), rest);
  }

  lemma FlattenFirst(nodes: seq<Node>)
    requires nodes != []
    ensures Flatten(nodes) == TokensOf(nodes[0]) + Flatten(nodes[1..])
  {
    hide TokensOf;
  }

  lemma CloserFirst(text: string, rest: seq<string>, opener: string, closer: string, depth: int)
    ensures C.CloserIn([text] + rest, opener, closer, depth)
      == if text == opener then Later(C.CloserIn(rest, opener, closer, depth + 1))
         else if text == closer then (if depth == 1 then Some(0) else Later(C.CloserIn(rest, opener, closer, depth - 1)))
         else Later(C.CloserIn(rest, opener, closer, depth))
  {
    assert ([text] + rest)[1..] == rest;
  }

  /** Whole nodes leave any depth as it was. */
  lemma {:induction false} CloserPasses(nodes: seq<Node>, rest: seq<string>, opener: string, closer: string, depth: nat)
    requires WellFormed(nodes) && IsPair(opener, closer) && depth > 0
    ensures C.CloserIn(Texts(Flatten(nodes)) + rest, opener, closer, depth)
         == Beyond(|Flatten(nodes)|, C.CloserIn(rest, opener, closer, depth))
    decreases nodes
  {
    if nodes == [] {
      assert Texts(Flatten(nodes)) + rest == rest;
    } else {
      NodesTexts(nodes, rest);
      CloserPassesNode(nodes[0], Texts(Flatten(nodes[1..])) + rest, opener, closer, depth);
      CloserPasses(nodes[1..], rest, opener, closer, depth);
      hide *;
      C.BeyondBoth(|TokensOf(nodes[0])|, |Flatten(nodes[1..])|, C.CloserIn(rest, opener, closer, depth));
    }
  }

  lemma {:induction false} CloserPassesNode(node: Node, rest: seq<string>, opener: string, closer: string, depth: nat)
    requires NodeWellFormed(node) && IsPair(opener, closer) && depth > 0
    ensures C.CloserIn(Texts(TokensOf(node)) + rest, opener, closer, depth)
         == Beyond(|TokensOf(node)|, C.CloserIn(rest, opener, closer, depth))
    decreases node
  {
    hide *;
    Around(C.CloserIn(rest, opener, closer, depth));
    match node
    case Word(token) =>
      WordTexts(node, rest);
      BracketsOnly(opener, closer);
      CloserFirst(token.text, rest, opener, closer, depth);
    case Group(open, inside, close) =>
      var own := if open.text == opener then depth + 1 else depth;
      GroupTexts(node, rest);
      PairDiffers(node, opener, closer);
      CloserPasses(inside, [close.text] + rest, opener, closer, own);
      CloserFirst(open.text, Texts(Flatten(inside)) + ([close.text] + rest), opener, closer, depth);
      CloserFirst(close.text, rest, opener, closer, own);
  }

  /** One token more in front, or two tokens around `n`. */
  lemma Around(r: Option<nat>)
    ensures Later(r) == Beyond(1, r)
    ensures forall n: nat :: Later(Beyond(n, Later(r))) == Beyond(n + 2, r)
  {
  }

  lemma WordTexts(node: Node, rest: seq<string>)
    requires node.Word? && NodeWellFormed(node)
    ensures Texts(TokensOf(node)) + rest == [node.token.text] + rest && |TokensOf(node)| == 1 && !IsBracket(node.token.text)
  {
  }

  lemma BracketsOnly(opener: string, closer: string)
    requires IsPair(opener, closer)
    ensures forall text :: !IsBracket(text) ==> text != opener && text != closer
  {
  }

  lemma PairDiffers(node: Node, opener: string, closer: string)
    requires node.Group? && NodeWellFormed(node) && IsPair(opener, closer)
    ensures WellFormed(node.inside)
    ensures node.open.text != closer && node.close.text != opener
    ensures node.open.text == opener <==> node.close.text == closer
  {
    BracketsDiffer();
  }

  /** A group's own closing bracket is the one that closes it. */
  lemma GroupCloses(node: Node, rest: seq<string>)
    requires NodeWellFormed(node) && node.Group?
    ensures C.CloserIn(Texts(TokensOf(node)) + rest, node.open.text, node.close.text, 0) == Some(|TokensOf(node)| - 1)
  {
    BracketsDiffer();
    var opener, closer := node.open.text, node.close.text;
    var behind := [closer] + rest;
    GroupTexts(node, rest);
    CloserFirst(opener, Texts(Flatten(node.inside)) + behind, opener, closer, 0);
    CloserPasses(node.inside, behind, opener, closer, 1);
    CloserFirst(closer, rest, opener, closer, 1);
    hide C.CloserIn;
    hide Flatten;
    hide TokensOf;
  }

  lemma ItemFirst(text: string, rest: seq<string>, parens: nat, brackets: nat)
    requires parens + brackets > 0 || (text != SEMICOLON && text != CURLY)
    ensures ItemEndIn([text] + rest, parens, brackets)
      == Later(ItemEndIn(rest,
           if text == PAREN then parens + 1 else if text == UNPAREN then Less(parens) else parens,
           if text == SQUARE then brackets + 1 else if text == UNSQUARE then Less(brackets) else brackets))
  {
    BracketsDiffer();
    assert ([text] + rest)[1..] == rest;
  }

  /** Inside parentheses or brackets nothing ends an item. */
  lemma {:induction false} ItemPasses(nodes: seq<Node>, rest: seq<string>, parens: nat, brackets: nat)
    requires WellFormed(nodes) && parens + brackets > 0
    ensures ItemEndIn(Texts(Flatten(nodes)) + rest, parens, brackets)
         == Beyond(|Flatten(nodes)|, ItemEndIn(rest, parens, brackets))
    decreases nodes
  {
    if nodes == [] {
      assert Texts(Flatten(nodes)) + rest == rest;
    } else {
      NodesTexts(nodes, rest);
      ItemPassesNode(nodes[0], Texts(Flatten(nodes[1..])) + rest, parens, brackets);
      ItemPasses(nodes[1..], rest, parens, brackets);
      hide *;
      C.BeyondBoth(|TokensOf(nodes[0])|, |Flatten(nodes[1..])|, ItemEndIn(rest, parens, brackets));
    }
  }

  lemma {:induction false} ItemPassesNode(node: Node, rest: seq<string>, parens: nat, brackets: nat)
    requires NodeWellFormed(node) && (parens + brackets > 0 || !EndsItem(node))
    ensures ItemEndIn(Texts(TokensOf(node)) + rest, parens, brackets)
         == Beyond(|TokensOf(node)|, ItemEndIn(rest, parens, brackets))
    decreases node
  {
    hide *;
    Around(ItemEndIn(rest, parens, brackets));
    match node
    case Word(token) =>
      WordTexts(node, rest);
      WordInItem(node, rest, parens, brackets);
    case Group(open, inside, close) =>
      var p := if open.text == PAREN then parens + 1 else parens;
      var b := if open.text == SQUARE then brackets + 1 else brackets;
      GroupTexts(node, rest);
      GroupInItem(node, Texts(Flatten(inside)) + ([close.text] + rest), rest, parens, brackets, p, b);
      ItemPasses(inside, [close.text] + rest, p, b);
  }

  lemma WordInItem(node: Node, rest: seq<string>, parens: nat, brackets: nat)
    requires node.Word? && NodeWellFormed(node) && (parens + brackets > 0 || !EndsItem(node))
    ensures ItemEndIn([node.token.text] + rest, parens, brackets) == Later(ItemEndIn(rest, parens, brackets))
  {
    ItemFirst(node.token.text, rest, parens, brackets);
    hide ItemEndIn;
  }

  lemma GroupInItem(node: Node, behind: seq<string>, rest: seq<string>, parens: nat, brackets: nat, p: nat, b: nat)
    requires node.Group? && NodeWellFormed(node) && (parens + brackets > 0 || !EndsItem(node))
    requires p == (if node.open.text == PAREN then parens + 1 else parens)
    requires b == (if node.open.text == SQUARE then brackets + 1 else brackets)
    ensures WellFormed(node.inside) && p + b > 0
    ensures ItemEndIn([node.open.text] + behind, parens, brackets) == Later(ItemEndIn(behind, p, b))
    ensures ItemEndIn([node.close.text] + rest, p, b) == Later(ItemEndIn(rest, parens, brackets))
  {
    BracketsDiffer();
    ItemFirst(node.open.text, behind, parens, brackets);
    ItemFirst(node.close.text, rest, p, b);
    hide ItemEndIn;
  }

  // --------------------------------------------------------------- the scan, node by node

  /** Inside an item, a node is skipped; it may be the one that ends the item. */
  lemma NodeSkipped(node: Node, rest: seq<Token>)
    requires NodeWellFormed(node)
    ensures Kept(TokensOf(node) + rest, true) == Kept(rest, !EndsItem(node))
  {
    hide *;
    TextsSum(TokensOf(node), rest);
    LengthOfItem(node, Texts(rest));
    KeptItem(TokensOf(node) + rest);
    KeptItem(rest);
    BehindNode(node, rest, if EndsItem(node) then 0 else ItemLen(Texts(rest)));
  }

  lemma BehindNode(node: Node, rest: seq<Token>, n: nat)
    requires n <= |rest|
    ensures (TokensOf(node) + rest)[|TokensOf(node)| + n..] == rest[n..] && rest[0..] == rest
  {
    hide TokensOf;
  }

  lemma LengthOfItem(node: Node, rest: seq<string>)
    requires NodeWellFormed(node)
    ensures ItemLen(Texts(TokensOf(node)) + rest) == |TokensOf(node)| + (if EndsItem(node) then 0 else ItemLen(rest))
  {
    BracketsDiffer();
    if !EndsItem(node) {
      ItemPassesNode(node, rest, 0, 0);
    } else if node.Group? {
      GroupCloses(node, rest);
      GroupTexts(node, rest);
    }
    hide C.CloserIn;
    hide Flatten;
  }

  /** Outside items, a bracket that closes a group is kept; inside one it is skipped, and the item goes on. */
  lemma CloseKept(close: Token, rest: seq<Token>, inItem: bool)
    requires close.text in {UNPAREN, UNSQUARE, UNCURLY}
    ensures Kept([close] + rest, inItem) == if inItem then Kept(rest, true) else [close] + Kept(rest, false)
  {
    BracketsDiffer();
    if inItem {
      CloseLength(close, rest);
      hide *;
      KeptItem([close] + rest);
      KeptItem(rest);
      BehindNode(Word(close), rest, ItemLen(Texts(rest)));
      assert TokensOf(Word(close)) == [close];
    } else {
      FirstKept(close, rest);
    }
  }

  lemma CloseLength(close: Token, rest: seq<Token>)
    requires close.text in {UNPAREN, UNSQUARE, UNCURLY}
    ensures ItemLen(Texts([close] + rest)) == 1 + ItemLen(Texts(rest)) && TokensOf(Word(close)) == [close]
  {
    BracketsDiffer();
    TextsSum([close], rest);
    assert Texts([close]) == [close.text];
    ItemFirst(close.text, Texts(rest), 0, 0);
    hide ItemEndIn;
  }

  lemma FirstKept(token: Token, rest: seq<Token>)
    requires !OpensAttribute(Texts([token] + rest))
    ensures Kept([token] + rest, false) == [token] + Kept(rest, false)
  {
    assert ([token] + rest)[1..] == rest;
  }

  lemma FlattenOpens(nodes: seq<Node>)
    requires WellFormed(nodes) && nodes != []
    ensures Flatten(nodes) != [] && Flatten(nodes)[0] == (if nodes[0].Word? then nodes[0].token else nodes[0].open)
    ensures Flatten(nodes)[0].text == SQUARE ==> nodes[0].Group?
    ensures NodeWellFormed(nodes[0]) && WellFormed(nodes[1..])
  {
    BracketsDiffer();
  }

  lemma NoAttribute(nodes: seq<Node>, rest: seq<Token>)
    requires WellFormed(nodes) && nodes != [] && !IsAttribute(nodes) && (rest != [] ==> rest[0].text != SQUARE)
    ensures !OpensAttribute(Texts(Flatten(nodes) + rest))
  {
    BracketsDiffer();
    FlattenOpens(nodes);
    FlattenFirst(nodes);
    if nodes[0].Word? && |nodes| > 1 { FlattenOpens(nodes[1..]); }
    hide WellFormed;
    hide Flatten;
  }

  /** An attribute is a hash and a group in square brackets. */
  lemma AttributeParts(nodes: seq<Node>)
    requires IsAttribute(nodes) && WellFormed(nodes)
    ensures |nodes| > 1 && TokensOf(nodes[0]) == [nodes[0].token] && nodes[0].token.text == HASH
    ensures nodes[1].Group? && nodes[1].open.text == SQUARE && NodeWellFormed(nodes[1]) && WellFormed(nodes[2..])
  {
    assert nodes[1..][1..] == nodes[2..] && nodes[1..][0] == nodes[1];
  }

  lemma FlattenPair(nodes: seq<Node>)
    requires |nodes| > 1 && nodes[0].Word?
    ensures Flatten(nodes[..2]) == [nodes[0].token] + TokensOf(nodes[1])
  {
    var pair := nodes[..2];
    assert pair[0] == nodes[0] && pair[1..] == [nodes[1]] && pair[1..][1..] == [];
    hide TokensOf;
    assert Flatten([nodes[1]]) == TokensOf(nodes[1]) + Flatten([]);
    WordTokens(nodes[0]);
  }

  lemma WordTokens(node: Node)
    requires node.Word?
    ensures TokensOf(node) == [node.token]
  {
  }

  lemma AttributeTokens(nodes: seq<Node>, rest: seq<Token>)
    requires IsAttribute(nodes) && WellFormed(nodes)
    ensures |nodes| > 1 && Flatten(nodes[..2]) == [nodes[0].token] + TokensOf(nodes[1])
    ensures Flatten(nodes) + rest == Flatten(nodes[..2]) + (Flatten(nodes[2..]) + rest)
    ensures NodeWellFormed(nodes[1]) && WellFormed(nodes[2..])
  {
    AttributeParts(nodes);
    hide *;
    FlattenPair(nodes);
    FlattenFirst(nodes);
    FlattenFirst(nodes[1..]);
    assert nodes[1..][1..] == nodes[2..] && nodes[1..][0] == nodes[1];
    Regroup([nodes[0].token], TokensOf(nodes[1]), Flatten(nodes[2..]));
    Regroup(Flatten(nodes[..2]), Flatten(nodes[2..]), rest);
  }

  lemma AttributeOpens(nodes: seq<Node>, rest: seq<Token>)
    requires IsAttribute(nodes) && WellFormed(nodes)
    ensures OpensAttribute(Texts(Flatten(nodes[..2]) + rest))
  {
    FlattenPair(nodes);
    hide Flatten;
  }

  lemma AttributeLength(nodes: seq<Node>, rest: seq<Token>)
    requires IsAttribute(nodes) && WellFormed(nodes)
    requires OpensAttribute(Texts(Flatten(nodes[..2]) + rest))
    ensures AttributeLen(Texts(Flatten(nodes[..2]) + rest)) == |Flatten(nodes[..2])|
  {
    AttributeTokens(nodes, []);
    BracketsDiffer();
    var all := Flatten(nodes[..2]) + rest;
    TextsSum([nodes[0].token], TokensOf(nodes[1]) + rest);
    TextsSum(TokensOf(nodes[1]), rest);
    assert all == [nodes[0].token] + (TokensOf(nodes[1]) + rest);
    assert Texts(all)[1..] == Texts(TokensOf(nodes[1])) + Texts(rest);
    GroupCloses(nodes[1], Texts(rest));
    hide C.CloserIn;
    hide Flatten;
  }

  lemma AttributeInFront(nodes: seq<Node>, rest: seq<Token>)
    requires IsAttribute(nodes) && WellFormed(nodes)
    requires OpensAttribute(Texts(Flatten(nodes[..2]) + rest))
    ensures Kept(Flatten(nodes[..2]) + rest, false)
      == if IsTestAttribute(nodes) && rest != [] then Kept(rest, true) else Flatten(nodes[..2]) + Kept(rest, false)
  {
    var attribute := Flatten(nodes[..2]);
    AttributeLength(nodes, rest);
    assert (attribute + rest)[..|attribute|] == attribute && (attribute + rest)[|attribute|..] == rest;
    assert IsTestAttribute(nodes) == C.TestOnly(Texts(attribute));
    hide *;
    KeptAttribute(attribute + rest, |attribute|);
  }

  predicate EndsInAttribute(nodes: seq<Node>) { |nodes| > 1 && IsAttribute(nodes[|nodes| - 2..]) }

  lemma EndsAlike(nodes: seq<Node>, n: nat)
    requires n <= |nodes|
    ensures EndsInAttribute(nodes[n..]) ==> EndsInAttribute(nodes)
    ensures IsAttribute(nodes) && nodes[2..] == [] ==> EndsInAttribute(nodes)
  {
    if n + 2 <= |nodes| { assert nodes[n..][|nodes| - n - 2..] == nodes[|nodes| - 2..]; }
    if |nodes| == 2 { assert nodes[0..] == nodes; }
  }

  /** The scan of flat tokens does to nested code what `Walk` says, whatever comes behind it. */
  lemma {:induction false} WalkIsKept(nodes: seq<Node>, inItem: bool, rest: seq<Token>)
    requires WellFormed(nodes) && (if rest == [] then !EndsInAttribute(nodes) else rest[0].text != SQUARE)
    ensures Kept(Flatten(nodes) + rest, inItem) == Walk(nodes, inItem).0 + Kept(rest, Walk(nodes, inItem).1)
    decreases nodes
  {
    hide *;
    if nodes == [] {
      WalkNothing(nodes, inItem, rest);
    } else if inItem {
      NodesFront(nodes, rest);
      EndsAlike(nodes, 1);
      WalkIsKept(nodes[1..], !EndsItem(nodes[0]), rest);
      NodeSkipped(nodes[0], Flatten(nodes[1..]) + rest);
      WalkInItem(nodes);
    } else if IsAttribute(nodes) {
      AttributeTokens(nodes, rest);
      AttributeOpens(nodes, Flatten(nodes[2..]) + rest);
      EndsAlike(nodes, 2);
      WalkIsKept(nodes[2..], IsTestAttribute(nodes), rest);
      AttributeInFront(nodes, Flatten(nodes[2..]) + rest);
      SomethingBehind(nodes, rest);
      WalkAttribute(nodes);
      Regroup(Flatten(nodes[..2]), Walk(nodes[2..], false).0, Kept(rest, Walk(nodes[2..], false).1));
    } else {
      EndsAlike(nodes, 1);
      NoAttribute(nodes, rest);
      NodesFront(nodes, rest);
      match nodes[0]
      case Word(token) =>
        WalkIsKept(nodes[1..], false, rest);
        WordKept(nodes, token, rest);
        WalkWord(nodes);
        Regroup([token], Walk(nodes[1..], false).0, Kept(rest, Walk(nodes[1..], false).1));
      case Group(open, inside, close) =>
        var behind := Flatten(nodes[1..]) + rest;
        var (kept, running) := Walk(inside, false);
        GroupParts(nodes[0], behind);
        WalkIsKept(inside, false, [close] + behind);
        WalkIsKept(nodes[1..], running, rest);
        FirstKept(open, Flatten(inside) + ([close] + behind));
        CloseKept(close, behind, running);
        WalkGroup(nodes);
        FivePieces(open, kept, if running then [] else [close], Walk(nodes[1..], running).0, Kept(rest, Walk(nodes[1..], running).1));
    }
  }

  lemma WalkNothing(nodes: seq<Node>, inItem: bool, rest: seq<Token>)
    requires nodes == []
    ensures Kept(Flatten(nodes) + rest, inItem) == Walk(nodes, inItem).0 + Kept(rest, Walk(nodes, inItem).1)
  {
    assert Flatten(nodes) + rest == rest;
    hide Kept;
  }

  lemma NodesFront(nodes: seq<Node>, rest: seq<Token>)
    requires nodes != [] && WellFormed(nodes)
    ensures Flatten(nodes) + rest == TokensOf(nodes[0]) + (Flatten(nodes[1..]) + rest)
    ensures NodeWellFormed(nodes[0]) && WellFormed(nodes[1..])
  {
    FlattenFirst(nodes);
    Regroup(TokensOf(nodes[0]), Flatten(nodes[1..]), rest);
    hide Flatten;
    hide TokensOf;
  }

  lemma SomethingBehind(nodes: seq<Node>, rest: seq<Token>)
    requires WellFormed(nodes) && IsAttribute(nodes) && (rest == [] ==> !EndsInAttribute(nodes))
    ensures Flatten(nodes[2..]) + rest != []
  {
    AttributeTokens(nodes, rest);
    EndsAlike(nodes, 2);
    if nodes[2..] != [] { FlattenOpens(nodes[2..]); }
    hide *;
  }

  lemma GroupParts(node: Node, behind: seq<Token>)
    requires node.Group? && NodeWellFormed(node)
    ensures TokensOf(node) + behind == [node.open] + (Flatten(node.inside) + ([node.close] + behind))
    ensures WellFormed(node.inside) && node.close.text in {UNPAREN, UNSQUARE, UNCURLY} && node.close.text != SQUARE
    ensures [node.close] + behind != [] && ([node.close] + behind)[0] == node.close
  {
    BracketsDiffer();
    hide Flatten;
  }

  lemma FivePieces<T>(a: T, b: seq<T>, c: seq<T>, d: seq<T>, e: seq<T>)
    ensures [a] + (b + (c + (d + e))) == [a] + b + c + d + e
    ensures c == [] ==> c + (d + e) == d + e
  {
  }

  lemma WordKept(nodes: seq<Node>, token: Token, rest: seq<Token>)
    requires nodes != [] && nodes[0] == Word(token) && !OpensAttribute(Texts(Flatten(nodes) + rest))
    ensures Kept(Flatten(nodes) + rest, false) == [token] + Kept(Flatten(nodes[1..]) + rest, false)
  {
    FlattenFirst(nodes);
    var behind := Flatten(nodes[1..]) + rest;
    assert Flatten(nodes) + rest == [token] + behind;
    FirstKept(token, behind);
    hide *;
  }

  lemma WalkInItem(nodes: seq<Node>)
    requires nodes != []
    ensures Walk(nodes, true) == Walk(nodes[1..], !EndsItem(nodes[0]))
  {
  }

  lemma WalkAttribute(nodes: seq<Node>)
    requires IsAttribute(nodes)
    ensures IsTestAttribute(nodes) ==> Walk(nodes, false) == Walk(nodes[2..], true)
    ensures !IsTestAttribute(nodes) ==>
      Walk(nodes, false) == (Flatten(nodes[..2]) + Walk(nodes[2..], false).0, Walk(nodes[2..], false).1)
  {
    hide C.TestOnly;
    hide Flatten;
  }

  lemma WalkWord(nodes: seq<Node>)
    requires nodes != [] && nodes[0].Word? && !IsAttribute(nodes)
    ensures Walk(nodes, false) == ([nodes[0].token] + Walk(nodes[1..], false).0, Walk(nodes[1..], false).1)
  {
    hide C.TestOnly;
    hide Flatten;
  }

  lemma WalkGroup(nodes: seq<Node>)
    requires nodes != [] && nodes[0].Group? && !IsAttribute(nodes)
    ensures var (kept, running) := Walk(nodes[0].inside, false);
      Walk(nodes, false)
      == ([nodes[0].open] + kept + (if running then [] else [nodes[0].close]) + Walk(nodes[1..], running).0, Walk(nodes[1..], running).1)
  {
    hide C.TestOnly;
    hide Flatten;
  }

  lemma FileIsWalk(nodes: seq<Node>)
    requires WellFormed(nodes) && !EndsInAttribute(nodes)
    ensures Kept(Flatten(nodes), false) == Walk(nodes, false).0
  {
    WalkIsKept(nodes, false, []);
    NothingKept(Walk(nodes, false).1);
    hide *;
    assert Flatten(nodes) + [] == Flatten(nodes);
    assert Walk(nodes, false).0 + [] == Walk(nodes, false).0;
  }

  lemma NothingKept(inItem: bool)
    ensures Kept([], inItem) == []
  {
  }

  /** What is kept stands in the code. */
  lemma {:induction false} WalkWithin(nodes: seq<Node>, inItem: bool)
    ensures forall t :: t in Walk(nodes, inItem).0 ==> t in Flatten(nodes)
    decreases nodes
  {
    hide *;
    if nodes == [] {
      WalkedNothing(nodes, inItem);
    } else if inItem {
      FlattenFirst(nodes);
      WalkInItem(nodes);
      WalkWithin(nodes[1..], !EndsItem(nodes[0]));
    } else if IsAttribute(nodes) {
      LongEnough(nodes);
      FlattenSplit(nodes, 2);
      WalkAttribute(nodes);
      WalkWithin(nodes[2..], IsTestAttribute(nodes));
    } else if nodes[0].Word? {
      FlattenFirst(nodes);
      WordTokens(nodes[0]);
      WalkWord(nodes);
      WalkWithin(nodes[1..], false);
    } else {
      var (kept, running) := Walk(nodes[0].inside, false);
      FlattenFirst(nodes);
      GroupTokens(nodes[0]);
      WalkGroup(nodes);
      WalkWithin(nodes[0].inside, false);
      WalkWithin(nodes[1..], running);
    }
  }

  lemma WalkedNothing(nodes: seq<Node>, inItem: bool)
    requires nodes == []
    ensures Walk(nodes, inItem) == ([], inItem) && Flatten(nodes) == []
  {
  }

  lemma LongEnough(nodes: seq<Node>)
    requires IsAttribute(nodes)
    ensures |nodes| > 1
  {
  }

  lemma GroupTokens(node: Node)
    requires node.Group?
    ensures TokensOf(node) == [node.open] + Flatten(node.inside) + [node.close]
  {
    hide Flatten;
  }

  lemma {:induction false} FlattenSum(a: seq<Node>, b: seq<Node>)
    ensures Flatten(a + b) == Flatten(a) + Flatten(b)
    decreases |a|
  {
    hide TokensOf;
    if a == [] {
      assert a + b == b;
    } else {
      assert (a + b)[0] == a[0] && (a + b)[1..] == a[1..] + b;
      FlattenSum(a[1..], b);
    }
  }

  lemma FlattenSplit(nodes: seq<Node>, n: nat)
    requires n <= |nodes|
    ensures Flatten(nodes) == Flatten(nodes[..n]) + Flatten(nodes[n..])
  {
    assert nodes == nodes[..n] + nodes[n..];
    FlattenSum(nodes[..n], nodes[n..]);
    hide Flatten;
  }

  lemma {:induction false} WellFormedSum(a: seq<Node>, b: seq<Node>)
    ensures WellFormed(a + b) == (WellFormed(a) && WellFormed(b))
    decreases |a|
  {
    hide NodeWellFormed;
    if a == [] {
      assert a + b == b;
    } else {
      assert (a + b)[0] == a[0] && (a + b)[1..] == a[1..] + b;
      WellFormedSum(a[1..], b);
    }
  }
}
