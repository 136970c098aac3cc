/**
 What the scan for forbidden identifiers is for: to look at production code, all of it and nothing
 else. Here code says itself what is gated: a test-only attribute comes with the element it gates,
 however far that element reaches. The scan has its own idea of where it ends, the first semicolon
 or block beside the attribute; the theorems say exactly when the two agree.
 */
module ProductionCode {
  import opened Options
  import opened Sequences
  import opened RustLexer
  import opened TestOnlyItems
  import opened NestedScan
  import C = CfgExpression

  datatype Code =
    | Plain(token: Token)
    | Block(open: Token, inside: seq<Code>, close: Token)
    | Gated(hash: Token, gate: Node, body: seq<Node>)

  /** The code as it stands in the file. */
  function Erase(code: seq<Code>): seq<Node>
    decreases code
  {
    if code == [] then [] else EraseOne(code[0]) + Erase(code[1..])
  }

  function EraseOne(c: Code): seq<Node>
    decreases c
  {
    match c
    case Plain(token) => [Word(token)]
    case Block(open, inside, close) => [Group(open, Erase(inside), close)]
    case Gated(hash, gate, body) => [Word(hash), gate] + body
  }

  /** What is compiled without `test`: everything outside the gated elements. */
  function Production(code: seq<Code>): seq<Token>
    decreases code
  {
    if code == [] then [] else ProductionOf(code[0]) + Production(code[1..])
  }

  function ProductionOf(c: Code): seq<Token>
    decreases c
  {
    match c
    case Plain(token) => [token]
    case Block(open, inside, close) => [open] + Production(inside) + [close]
    case Gated(_, _, _) => []
  }

  predicate Ungated(code: seq<Code>)
    decreases code
  {
    code == [] || (!code[0].Gated? && (code[0].Block? ==> Ungated(code[0].inside)) && Ungated(code[1..]))
  }

  /** An attribute that gates nothing: `#[...]` in front of production code. */
  predicate AttributeAt(code: seq<Code>) {
    && |code| > 1 && code[0].Plain? && code[0].token.text == HASH
    && code[1].Block? && code[1].open.text == SQUARE
  }

  /** A gate in front of an element: the element is not empty, does not stop at the hash of an
      attribute, and has no further test-only attribute behind something that ends an item. */
  predicate GatesElement(hash: Token, gate: Node, body: seq<Node>) {
    && IsTestAttribute([Word(hash), gate]) && body != []
    && !(body[|body| - 1].Word? && body[|body| - 1].token.text == HASH)
    && forall i, j :: 0 <= i < j < |body| && EndsItem(body[i]) ==> !IsTestAttribute(body[j..])
  }

  /** Every test-only attribute is a gate, and an attribute that is none contains no gate. */
  predicate Annotated(code: seq<Code>)
    decreases code
  {
    if code == [] then true
    else if AttributeAt(code) then
      !IsTestAttribute(Erase(code[..2])) && Ungated(code[1].inside) && Annotated(code[2..])
    else
      && (match code[0]
          case Plain(_) => true
          case Block(_, inside, _) => Annotated(inside)
          case Gated(hash, gate, body) => GatesElement(hash, gate, body))
      && Annotated(code[1..])
  }

  // ------------------------------------------------------- where the scan ends an item

  predicate EndsEarly(body: seq<Node>) { exists i :: 0 <= i < |body| - 1 && EndsItem(body[i]) }

  predicate EndsAtLast(body: seq<Node>) { body != [] && EndsItem(body[|body| - 1]) }

  /** No gated element holds an item end before its last node, and wherever production code follows
      a gated element, or the group around it closes, its last node ends an item. */
  predicate Exact(code: seq<Code>, followed: bool)
    decreases code
  {
    if code == [] then true else
    && (match code[0]
        case Plain(_) => true
        case Block(_, inside, _) => Exact(inside, true)
        case Gated(_, _, body) =>
          !EndsEarly(body) && (EndsAtLast(body) || (if |code| > 1 then code[1].Gated? else !followed)))
    && Exact(code[1..], followed)
  }

  /** Whether the last element is still under way behind `code`. */
  predicate Pending(code: seq<Code>, inItem: bool) {
    if code == [] then inItem
    else var last := code[|code| - 1]; last.Gated? && !EndsAtLast(last.body)
  }

  // ------------------------------------------------------------ how erased code walks

  lemma EraseFirst(code: seq<Code>)
    requires code != []
    ensures Erase(code) == EraseOne(code[0]) + Erase(code[1..])
    ensures code[0].Plain? ==> Erase(code) == [Word(code[0].token)] + Erase(code[1..])
    ensures code[0].Block? ==> Erase(code) == [Group(code[0].open, Erase(code[0].inside), code[0].close)] + Erase(code[1..])
    ensures code[0].Gated? ==> Erase(code) == [Word(code[0].hash), code[0].gate] + (code[0].body + Erase(code[1..]))
  {
    if code[0].Gated? { Regroup([Word(code[0].hash), code[0].gate], code[0].body, Erase(code[1..])); }
  }

  lemma ProductionFirst(code: seq<Code>)
    requires code != []
    ensures code[0].Plain? ==> Production(code) == [code[0].token] + Production(code[1..])
    ensures code[0].Block? ==>
      Production(code) == [code[0].open] + Production(code[0].inside) + [code[0].close] + Production(code[1..])
    ensures code[0].Gated? ==> Production(code) == Production(code[1..])
  {
  }

  lemma FrontOf<T>(a: seq<T>, b: seq<T>)
    requires a != []
    ensures (a + b)[0] == a[0] && (a + b)[1..] == a[1..] + b
    ensures |a| == 1 ==> (a + b)[1..] == b
    ensures |a| == 2 ==> (a + b)[2..] == b && (a + b)[..2] == a
  {
  }

  /** Erasing neither makes nor breaks attributes between production code. */
  lemma AttributeErased(code: seq<Code>)
    requires code != [] && !code[0].Gated? && Annotated(code)
    ensures IsAttribute(Erase(code)) <==> AttributeAt(code)
  {
    BracketsDiffer();
    EraseFirst(code);
    if |code| > 1 {
      EraseFirst(code[1..]);
      if code[1].Gated? { assert Erase(code[1..])[0] == Word(code[1].hash); }
      assert Erase(code)[1] == Erase(code[1..])[0];
    }
    hide Erase;
    hide Annotated;
  }

  lemma {:induction false} EraseSum(a: seq<Code>, b: seq<Code>)
    ensures Erase(a + b) == Erase(a) + Erase(b)
    ensures Production(a + b) == Production(a) + Production(b)
    decreases |a|
  {
    hide EraseOne;
    hide ProductionOf;
    if a == [] {
      assert a + b == b;
    } else {
      assert (a + b)[0] == a[0] && (a + b)[1..] == a[1..] + b;
      EraseSum(a[1..], b);
    }
  }

  /** The two nodes of a production attribute. */
  lemma PairErased(code: seq<Code>)
    requires AttributeAt(code)
    ensures |code| > 1 && code == code[..2] + code[2..]
    ensures Erase(code[..2]) == [Word(code[0].token), Group(code[1].open, Erase(code[1].inside), code[1].close)]
    ensures Ungated(code[1].inside) ==> Ungated(code[..2])
  {
    var pair := code[..2];
    assert pair[0] == code[0] && pair[1..] == [code[1]];
    assert [code[1]][1..] == [] && Ungated([]) && Erase([]) == [];
    EraseFirst(pair);
    EraseFirst([code[1]]);
    hide Erase;
    hide EraseOne;
  }

  lemma TwoErased(code: seq<Code>)
    requires AttributeAt(code)
    ensures |Erase(code)| >= 2 && Erase(code)[..2] == Erase(code[..2]) && Erase(code)[2..] == Erase(code[2..])
    ensures Erase(code) == Erase(code[..2]) + Erase(code[2..]) && Production(code) == Production(code[..2]) + Production(code[2..])
  {
    hide *;
    PairErased(code);
    EraseSum(code[..2], code[2..]);
    FrontOf(Erase(code[..2]), Erase(code[2..]));
  }

  lemma {:induction false} UngatedIsWhole(code: seq<Code>)
    requires Ungated(code)
    ensures Production(code) == Flatten(Erase(code))
    decreases code
  {
    if code != [] {
      UngatedIsWhole(code[1..]);
      EraseFirst(code);
      ProductionFirst(code);
      FlattenFirst(Erase(code));
      FrontOf(EraseOne(code[0]), Erase(code[1..]));
      if code[0].Block? { UngatedIsWhole(code[0].inside); }
      hide Flatten;
      hide Erase;
      hide Production;
    }
  }

  /** A production attribute is kept whole. */
  lemma AttributeWalks(code: seq<Code>)
    requires AttributeAt(code) && Annotated(code)
    ensures Walk(Erase(code), false)
         == (Production(code[..2]) + Walk(Erase(code[2..]), false).0, Walk(Erase(code[2..]), false).1)
    ensures Production(code) == Production(code[..2]) + Production(code[2..])
    ensures Flatten(Erase(code)) == Production(code[..2]) + Flatten(Erase(code[2..]))
  {
    ErasedAttribute(code);
    hide *;
    PairErased(code);
    TwoErased(code);
    AnnotatedFirst(code);
    UngatedIsWhole(code[..2]);
    FlattenSplit(Erase(code), 2);
    WalkAttribute(Erase(code));
  }

  lemma ErasedAttribute(code: seq<Code>)
    requires AttributeAt(code) && Annotated(code)
    ensures IsAttribute(Erase(code)) && !IsTestAttribute(Erase(code))
  {
    AttributeErased(code);
    PairErased(code);
    TwoErased(code);
    AnnotatedFirst(code);
    assert Erase(code[..2])[..2] == Erase(code[..2]);
    hide Erase;
    hide Annotated;
    hide C.TestOnly;
    hide Flatten;
  }

  /** A gate opens an item, whether or not one is under way. */
  lemma GateWalks(code: seq<Code>, inItem: bool)
    requires code != [] && code[0].Gated? && GatesElement(code[0].hash, code[0].gate, code[0].body)
    ensures Walk(Erase(code), inItem) == Walk(code[0].body + Erase(code[1..]), true)
  {
    BracketsDiffer();
    EraseFirst(code);
    var gate := [Word(code[0].hash), code[0].gate];
    var nodes, rest := Erase(code), code[0].body + Erase(code[1..]);
    FrontOf(gate, rest);
    assert nodes[..2] == gate && nodes[2..] == rest && nodes[1..][1..] == rest && nodes[1..][0] == code[0].gate;
    if inItem {
      WalkInItem(nodes);
      WalkInItem(nodes[1..]);
    } else {
      assert gate[..2] == gate;
      WalkAttribute(nodes);
    }
    hide Walk;
    hide Erase;
    hide C.TestOnly;
    hide Flatten;
  }

  /** An element that is not ended early is skipped whole; only its last node can end the item. */
  lemma {:induction false} BodySkipped(body: seq<Node>, rest: seq<Node>)
    requires body != [] && !EndsEarly(body)
    ensures Walk(body + rest, true) == Walk(rest, !EndsAtLast(body))
    decreases |body|
  {
    FrontOf(body, rest);
    WalkInItem(body + rest);
    if |body| > 1 {
      assert !EndsItem(body[0]);
      assert forall i :: 0 <= i < |body| - 2 ==> body[1..][i] == body[i + 1];
      BodySkipped(body[1..], rest);
    } else {
      assert body[1..] + rest == rest;
    }
    hide Walk;
    hide EndsItem;
  }

  /** The walk goes on behind the first node that ends an item. */
  lemma {:induction false} BodyEnds(body: seq<Node>, rest: seq<Node>, n: nat)
    requires n < |body| && EndsItem(body[n]) && forall i :: 0 <= i < n ==> !EndsItem(body[i])
    ensures Walk(body + rest, true) == Walk(body[n + 1..] + rest, false)
    decreases n
  {
    FrontOf(body, rest);
    WalkInItem(body + rest);
    if n > 0 {
      BodyEnds(body[1..], rest, n - 1);
      assert body[1..][n..] == body[n + 1..];
    }
    hide Walk;
    hide EndsItem;
  }

  // -------------------------------------------------- where the condition holds: exact

  lemma ExactFirst(code: seq<Code>, followed: bool)
    requires code != []
    ensures Exact(code, followed) ==
      ((code[0].Block? ==> Exact(code[0].inside, true))
       && (code[0].Gated? ==>
             (!EndsEarly(code[0].body)
              && (EndsAtLast(code[0].body) || (if |code| > 1 then code[1].Gated? else !followed))))
       && Exact(code[1..], followed))
  {
    hide EndsEarly;
    hide EndsAtLast;
  }

  lemma {:induction false} UngatedIsExact(code: seq<Code>, followed: bool)
    requires Ungated(code)
    ensures Exact(code, followed)
    decreases code
  {
    if code != [] {
      if code[0].Block? { UngatedIsExact(code[0].inside, true); }
      UngatedIsExact(code[1..], followed);
    }
  }

  lemma PendingRest(code: seq<Code>, inItem: bool)
    requires code != []
    ensures Pending(code, inItem) == Pending(code[1..], code[0].Gated? && !EndsAtLast(code[0].body))
    ensures |code| > 1 ==> Pending(code, inItem) == Pending(code[1..], false)
    ensures AttributeAt(code) ==> Pending(code, inItem) == Pending(code[2..], false)
  {
    hide EndsAtLast;
    if |code| > 1 { assert code[1..][|code| - 2] == code[|code| - 1]; }
    if |code| > 2 { assert code[2..][|code| - 3] == code[|code| - 1]; }
  }

  lemma AnnotatedFirst(code: seq<Code>)
    requires code != [] && Annotated(code)
    ensures AttributeAt(code) ==>
      |code| > 1 && !IsTestAttribute(Erase(code[..2])) && Ungated(code[1].inside) && Annotated(code[2..])
    ensures !AttributeAt(code) ==>
      && Annotated(code[1..])
      && (code[0].Block? ==> Annotated(code[0].inside))
      && (code[0].Gated? ==> GatesElement(code[0].hash, code[0].gate, code[0].body))
  {
    hide GatesElement;
    hide C.TestOnly;
  }

  /** Where the condition holds, the scan keeps exactly the production code. */
  lemma {:induction false} ExactWalk(code: seq<Code>, inItem: bool, followed: bool)
    requires Annotated(code) && Exact(code, followed)
    requires inItem ==> if code == [] then !followed else code[0].Gated?
    ensures Walk(Erase(code), inItem) == (Production(code), Pending(code, inItem))
    ensures followed ==> !Pending(code, inItem)
    decreases code
  {
    hide *;
    if code == [] {
      NothingWalks(code, inItem);
    } else {
      AnnotatedFirst(code);
      ExactFirst(code, followed);
      PendingRest(code, inItem);
      if AttributeAt(code) {
        AttributePlain(code);
        ExactBehind(code, followed);
        ExactWalk(code[2..], false, followed);
        AttributeWalks(code);
      } else if code[0].Plain? {
        ExactWalk(code[1..], false, followed);
        PlainWalks(code);
        ProductionFirst(code);
      } else if code[0].Block? {
        ExactWalk(code[0].inside, false, true);
        ExactWalk(code[1..], false, followed);
        BlockWalks(code);
        ProductionFirst(code);
      } else {
        ExactWalk(code[1..], !EndsAtLast(code[0].body), followed);
        GateWalks(code, inItem);
        GateHasElement(code);
        BodySkipped(code[0].body, Erase(code[1..]));
        ProductionFirst(code);
      }
    }
  }

  lemma NothingWalks(code: seq<Code>, inItem: bool)
    requires code == []
    ensures Walk(Erase(code), inItem) == (Production(code), Pending(code, inItem)) == ([], inItem)
  {
  }

  lemma GateHasElement(code: seq<Code>)
    requires code != [] && code[0].Gated? && GatesElement(code[0].hash, code[0].gate, code[0].body)
    ensures code[0].body != []
  {
  }

  lemma AttributePlain(code: seq<Code>)
    requires AttributeAt(code)
    ensures |code| > 1 && code[0].Plain? && code[1].Block?
  {
  }

  lemma ExactBehind(code: seq<Code>, followed: bool)
    requires AttributeAt(code) && Ungated(code[1].inside)
    ensures Exact(code, followed) == Exact(code[2..], followed)
  {
    AttributePlain(code);
    ExactFirst(code, followed);
    ExactFirst(code[1..], followed);
    UngatedIsExact(code[1].inside, true);
    assert code[1..][1..] == code[2..] && code[1..][0] == code[1];
    hide *;
  }

  lemma PlainWalks(code: seq<Code>)
    requires code != [] && code[0].Plain? && !AttributeAt(code) && Annotated(code)
    ensures Walk(Erase(code), false)
         == ([code[0].token] + Walk(Erase(code[1..]), false).0, Walk(Erase(code[1..]), false).1)
  {
    AttributeErased(code);
    EraseFirst(code);
    FrontOf([Word(code[0].token)], Erase(code[1..]));
    WalkWord(Erase(code));
    hide Walk;
    hide Erase;
    hide Annotated;
  }

  lemma BlockWalks(code: seq<Code>)
    requires code != [] && code[0].Block? && Annotated(code)
    ensures var (kept, running) := Walk(Erase(code[0].inside), false);
      Walk(Erase(code), false)
      == ([code[0].open] + kept + (if running then [] else [code[0].close]) + Walk(Erase(code[1..]), running).0,
          Walk(Erase(code[1..]), running).1)
  {
    AttributeErased(code);
    EraseFirst(code);
    FrontOf([Group(code[0].open, Erase(code[0].inside), code[0].close)], Erase(code[1..]));
    WalkGroup(Erase(code));
    hide Walk;
    hide Erase;
    hide Annotated;
  }

  // ------------------------------------------------- where the condition fails: not exact

  /** In a file every token stands in its own place. */
  predicate Distinct(tokens: seq<Token>) { forall i, j :: 0 <= i < j < |tokens| ==> tokens[i] != tokens[j] }

  lemma OrderedIsDistinct(tokens: seq<Token>)
    requires Ordered(tokens)
    ensures Distinct(tokens)
  {
  }

  lemma DistinctSplit(a: seq<Token>, b: seq<Token>)
    requires Distinct(a + b)
    ensures Distinct(a) && Distinct(b) && forall t :: t in a ==> t !in b
  {
    forall i, j | 0 <= i < j < |a| ensures a[i] != a[j] { assert (a + b)[i] == a[i] && (a + b)[j] == a[j]; }
    forall i, j | 0 <= i < j < |b| ensures b[i] != b[j] { assert (a + b)[|a| + i] == b[i] && (a + b)[|a| + j] == b[j]; }
    forall t | t in a ensures t !in b {
      var i :| 0 <= i < |a| && a[i] == t;
      assert forall j :: 0 <= j < |b| ==> (a + b)[|a| + j] == b[j] && (a + b)[i] != (a + b)[|a| + j];
    }
  }

  lemma FlattenErased(code: seq<Code>)
    requires code != []
    ensures code[0].Plain? ==> Flatten(Erase(code)) == [code[0].token] + Flatten(Erase(code[1..]))
    ensures code[0].Block? ==>
      Flatten(Erase(code)) == [code[0].open] + Flatten(Erase(code[0].inside)) + [code[0].close] + Flatten(Erase(code[1..]))
    ensures code[0].Gated? ==>
      Flatten(Erase(code)) == Flatten([Word(code[0].hash), code[0].gate]) + (Flatten(code[0].body) + Flatten(Erase(code[1..])))
  {
    EraseFirst(code);
    if code[0].Gated? {
      FlattenSum([Word(code[0].hash), code[0].gate], code[0].body + Erase(code[1..]));
      FlattenSum(code[0].body, Erase(code[1..]));
    } else {
      FlattenFirst(Erase(code));
      FrontOf(EraseOne(code[0]), Erase(code[1..]));
    }
    hide Erase;
    hide Flatten;
  }

  lemma {:induction false} ProductionWithin(code: seq<Code>)
    ensures forall t :: t in Production(code) ==> t in Flatten(Erase(code))
    decreases code
  {
    hide *;
    if code == [] {
      NoProduction(code);
    } else {
      ProductionFirst(code);
      FlattenErased(code);
      ProductionWithin(code[1..]);
      if code[0].Block? { ProductionWithin(code[0].inside); }
    }
  }

  lemma NoProduction(code: seq<Code>)
    requires code == []
    ensures Production(code) == []
  {
  }

  /** Something is kept that is no production code, or the other way round. */
  ghost predicate Differs(kept: seq<Token>, production: seq<Token>) {
    (exists t :: t in production && t !in kept) || (exists t :: t in kept && t !in production)
  }

  /** A difference inside a stretch of its own stays one whatever stands around it. */
  lemma DiffersInside(before: seq<Token>, kept: seq<Token>, behind: seq<Token>,
                      before': seq<Token>, production: seq<Token>, behind': seq<Token>, own: seq<Token>)
    requires Differs(kept, production) && forall t :: t in kept || t in production ==> t in own
    requires forall t :: t in own ==> t !in before && t !in behind && t !in before' && t !in behind'
    ensures Differs(before + kept + behind, before' + production + behind')
  {
    if t :| t in production && t !in kept {
      assert t in before' + production + behind' && t !in before + kept + behind;
    } else {
      var t :| t in kept && t !in production;
      assert t in before + kept + behind && t !in before' + production + behind';
    }
  }

  function Head(node: Node): Token { if node.Word? then node.token else node.open }

  lemma HeadStands(nodes: seq<Node>)
    requires nodes != []
    ensures Flatten(nodes) != [] && Flatten(nodes)[0] == Head(nodes[0])
  {
  }

  lemma HeadIsKept(nodes: seq<Node>)
    requires nodes != [] && !IsTestAttribute(nodes)
    ensures Head(nodes[0]) in Walk(nodes, false).0
  {
    if IsAttribute(nodes) {
      HeadStands(nodes[..2]);
      WalkAttribute(nodes);
    } else if nodes[0].Word? {
      WalkWord(nodes);
    } else {
      WalkGroup(nodes);
    }
    hide Walk;
    hide Flatten;
    hide C.TestOnly;
  }

  /** An element ended early: what stands behind the end is looked at. */
  lemma EarlyEndLeaks(code: seq<Code>, inItem: bool)
    requires code != [] && code[0].Gated? && GatesElement(code[0].hash, code[0].gate, code[0].body) && EndsEarly(code[0].body)
    requires Distinct(Flatten(Erase(code)))
    ensures exists t :: t in Flatten(code[0].body) && t in Walk(Erase(code), inItem).0 && t !in Production(code)
  {
    var body, rest := code[0].body, Erase(code[1..]);
    var n := FirstEnd(body);
    GateWalks(code, inItem);
    BodyEnds(body, rest, n);
    NoGateBehind(body, n + 1, rest, code[0].hash, code[0].gate);
    var t := Head(body[n + 1]);
    FrontOf(body[n + 1..], rest);
    HeadIsKept(body[n + 1..] + rest);
    HeadInside(body, n + 1);
    assert t !in Production(code) by {
      ProductionFirst(code);
      ProductionWithin(code[1..]);
      FlattenErased(code);
      DistinctSplit(Flatten([Word(code[0].hash), code[0].gate]), Flatten(body) + Flatten(rest));
      DistinctSplit(Flatten(body), Flatten(rest));
    }
    hide *;
  }

  lemma FirstEnd(body: seq<Node>) returns (n: nat)
    requires EndsEarly(body)
    ensures n + 1 < |body| && EndsItem(body[n]) && forall i :: 0 <= i < n ==> !EndsItem(body[i])
  {
    n := 0;
    while !EndsItem(body[n])
      invariant n + 1 < |body| && forall i :: 0 <= i < n ==> !EndsItem(body[i])
      decreases |body| - n
    {
      n := n + 1;
    }
  }

  lemma HeadInside(body: seq<Node>, n: nat)
    requires n < |body|
    ensures Head(body[n]) in Flatten(body)
  {
    FlattenSplit(body, n);
    HeadStands(body[n..]);
    hide Flatten;
  }

  lemma NoGateBehind(body: seq<Node>, m: nat, rest: seq<Node>, hash: Token, gate: Node)
    requires GatesElement(hash, gate, body) && 0 < m < |body| && EndsItem(body[m - 1])
    ensures !IsTestAttribute(body[m..] + rest)
  {
    var tail := body[m..];
    assert !IsTestAttribute(tail);
    if |tail| > 1 {
      assert (tail + rest)[..2] == tail[..2];
    } else {
      assert tail[0] == body[|body| - 1];
    }
    hide C.TestOnly;
    hide Flatten;
  }

  /** An element not ended where production code follows: the next node is skipped. */
  lemma OpenItemLoses(code: seq<Code>)
    requires code != [] && !code[0].Gated? && Distinct(Flatten(Erase(code)))
    ensures exists t :: t in Production(code) && t !in Walk(Erase(code), true).0
  {
    EraseFirst(code);
    FrontOf(EraseOne(code[0]), Erase(code[1..]));
    ProductionFirst(code);
    FlattenErased(code);
    var nodes := Erase(code);
    WalkInItem(nodes);
    WalkWithin(Erase(code[1..]), !EndsItem(nodes[0]));
    var t := if code[0].Plain? then code[0].token else code[0].open;
    var own := if code[0].Plain? then [t] else [t] + Flatten(Erase(code[0].inside)) + [code[0].close];
    DistinctSplit(own, Flatten(Erase(code[1..])));
    assert t in own && t in Production(code);
    hide Erase;
    hide Production;
    hide Flatten;
    hide Walk;
  }

  lemma PlainDistinct(code: seq<Code>)
    requires code != [] && code[0].Plain? && Distinct(Flatten(Erase(code)))
    ensures Distinct(Flatten(Erase(code[1..]))) && code[0].token !in Flatten(Erase(code[1..]))
  {
    FlattenErased(code);
    hide *;
    DistinctSplit([code[0].token], Flatten(Erase(code[1..])));
    assert code[0].token in [code[0].token];
  }

  lemma BlockDistinct(code: seq<Code>)
    requires code != [] && code[0].Block? && Distinct(Flatten(Erase(code)))
    ensures Distinct(Flatten(Erase(code[1..])))
    ensures var inner, rest := Flatten(Erase(code[0].inside)), Flatten(Erase(code[1..]));
      && Distinct(inner) && code[0].open !in inner && code[0].close !in inner && code[0].open != code[0].close
      && code[0].open !in rest && code[0].close !in rest && forall t :: t in inner ==> t !in rest
  {
    FlattenErased(code);
    hide *;
    var open, inner, close := [code[0].open], Flatten(Erase(code[0].inside)), [code[0].close];
    DistinctSplit(open + inner + close, Flatten(Erase(code[1..])));
    DistinctSplit(open + inner, close);
    DistinctSplit(open, inner);
    assert code[0].open in open && code[0].close in close && code[0].open in open + inner;
    assert code[0].open in open + inner + close && code[0].close in open + inner + close;
    assert forall t :: t in inner ==> t in open + inner + close;
  }

  lemma GateDistinct(code: seq<Code>)
    requires code != [] && code[0].Gated? && Distinct(Flatten(Erase(code)))
    ensures Distinct(Flatten(Erase(code[1..])))
  {
    FlattenErased(code);
    hide *;
    DistinctSplit(Flatten([Word(code[0].hash), code[0].gate]), Flatten(code[0].body) + Flatten(Erase(code[1..])));
    DistinctSplit(Flatten(code[0].body), Flatten(Erase(code[1..])));
  }

  lemma AttributeDistinct(code: seq<Code>)
    requires AttributeAt(code) && Annotated(code) && Distinct(Flatten(Erase(code)))
    ensures Distinct(Flatten(Erase(code[2..])))
    ensures forall t :: t in Flatten(Erase(code[2..])) ==> t !in Production(code[..2])
  {
    AttributeWalks(code);
    hide *;
    DistinctSplit(Production(code[..2]), Flatten(Erase(code[2..])));
  }

  /** Where the condition fails, the scan and the production code differ, or the scan is still
      skipping although something follows. */
  lemma {:induction false} InexactDiffers(code: seq<Code>, inItem: bool, followed: bool)
    requires Annotated(code) && !Exact(code, followed) && Distinct(Flatten(Erase(code)))
    requires inItem ==> code != [] && code[0].Gated?
    ensures Differs(Walk(Erase(code), inItem).0, Production(code)) || (followed && Walk(Erase(code), inItem).1)
    decreases code, 1
  {
    hide *;
    SomethingThere(code, followed);
    AnnotatedFirst(code);
    if AttributeAt(code) {
      InexactAttribute(code, followed);
    } else if code[0].Plain? {
      InexactPlain(code, followed);
    } else if code[0].Block? {
      InexactBlock(code, followed);
    } else {
      InexactGate(code, inItem, followed);
    }
  }

  lemma SomethingThere(code: seq<Code>, followed: bool)
    requires !Exact(code, followed)
    ensures code != [] && (AttributeAt(code) ==> |code| > 1 && code[0].Plain?)
  {
  }

  lemma {:induction false} InexactAttribute(code: seq<Code>, followed: bool)
    requires AttributeAt(code) && Annotated(code) && !Exact(code, followed) && Distinct(Flatten(Erase(code)))
    ensures Differs(Walk(Erase(code), false).0, Production(code)) || (followed && Walk(Erase(code), false).1)
    decreases code, 0
  {
    hide *;
    AttributePlain(code);
    AnnotatedFirst(code);
    ExactBehind(code, followed);
    AttributeDistinct(code);
    AttributeWalks(code);
    InexactDiffers(code[2..], false, followed);
    var own := Flatten(Erase(code[2..]));
    var kept, production, pair := Walk(Erase(code[2..]), false).0, Production(code[2..]), Production(code[..2]);
    if Differs(kept, production) {
      WalkWithin(Erase(code[2..]), false);
      ProductionWithin(code[2..]);
      DiffersInside(pair, kept, [], pair, production, [], own);
      NothingBehindBoth(pair + kept, pair + production);
    }
  }

  lemma NothingBehindBoth(a: seq<Token>, b: seq<Token>)
    ensures a + [] == a && b + [] == b
  {
  }

  lemma {:induction false} InexactPlain(code: seq<Code>, followed: bool)
    requires Annotated(code) && !Exact(code, followed) && Distinct(Flatten(Erase(code)))
    requires code != [] && code[0].Plain? && !AttributeAt(code)
    ensures Differs(Walk(Erase(code), false).0, Production(code)) || (followed && Walk(Erase(code), false).1)
    decreases code, 0
  {
    hide *;
    AnnotatedFirst(code);
    ExactFirst(code, followed);
    PlainDistinct(code);
    PlainWalks(code);
    ProductionFirst(code);
    InexactDiffers(code[1..], false, followed);
    var kept, production, own := Walk(Erase(code[1..]), false).0, Production(code[1..]), Flatten(Erase(code[1..]));
    if Differs(kept, production) {
      WalkWithin(Erase(code[1..]), false);
      ProductionWithin(code[1..]);
      DiffersInside([code[0].token], kept, [], [code[0].token], production, [], own);
      NothingBehindBoth([code[0].token] + kept, [code[0].token] + production);
    }
  }

  lemma {:induction false} InexactBlock(code: seq<Code>, followed: bool)
    requires Annotated(code) && !Exact(code, followed) && Distinct(Flatten(Erase(code)))
    requires code != [] && code[0].Block? && !AttributeAt(code)
    ensures Differs(Walk(Erase(code), false).0, Production(code)) || (followed && Walk(Erase(code), false).1)
    decreases code, 0
  {
    hide *;
    AnnotatedFirst(code);
    ExactFirst(code, followed);
    BlockDistinct(code);
    BlockWalks(code);
    ProductionFirst(code);
    var open, close, rest := [code[0].open], [code[0].close], Flatten(Erase(code[1..]));
    var (inside, running) := Walk(Erase(code[0].inside), false);
    var more := Walk(Erase(code[1..]), running).0;
    WalkWithin(Erase(code[0].inside), false);
    WalkWithin(Erase(code[1..]), running);
    ProductionWithin(code[0].inside);
    ProductionWithin(code[1..]);
    if !Exact(code[0].inside, true) {
      InexactDiffers(code[0].inside, false, true);
      if running {
        CloseIsLost(open, inside, more, open + Production(code[0].inside), Production(code[1..]), code[0].close);
      } else {
        DiffersInside(open, inside, close + more, open, Production(code[0].inside), close + Production(code[1..]), Flatten(Erase(code[0].inside)));
        Apart(open, inside, close, more);
        Apart(open, Production(code[0].inside), close, Production(code[1..]));
      }
    } else {
      ExactWalk(code[0].inside, false, true);
      InexactDiffers(code[1..], false, followed);
      if Differs(more, Production(code[1..])) {
        var front := open + inside + close;
        DiffersInside(front, more, [], front, Production(code[1..]), [], rest);
        NothingBehindBoth(front + more, front + Production(code[1..]));
      }
    }
  }

  lemma Apart(a: seq<Token>, b: seq<Token>, c: seq<Token>, d: seq<Token>)
    ensures a + b + (c + d) == a + b + c + d
  {
  }

  lemma CloseIsLost(open: seq<Token>, inside: seq<Token>, more: seq<Token>, front: seq<Token>, rest: seq<Token>, close: Token)
    requires close !in open && close !in inside && close !in more
    ensures Differs(open + inside + [] + more, front + [close] + rest)
  {
    assert close in front + [close] + rest && close !in open + inside + [] + more;
  }

  lemma {:induction false} InexactGate(code: seq<Code>, inItem: bool, followed: bool)
    requires Annotated(code) && !Exact(code, followed) && Distinct(Flatten(Erase(code)))
    requires code != [] && code[0].Gated? && !AttributeAt(code)
    ensures Differs(Walk(Erase(code), inItem).0, Production(code)) || (followed && Walk(Erase(code), inItem).1)
    decreases code, 0
  {
    hide *;
    AnnotatedFirst(code);
    ExactFirst(code, followed);
    GateDistinct(code);
    GateHasElement(code);
    ProductionFirst(code);
    var body := code[0].body;
    if EndsEarly(body) {
      EarlyEndLeaks(code, inItem);
      KeptDiffers(Walk(Erase(code), inItem).0, Production(code));
    } else {
      GateWalks(code, inItem);
      BodySkipped(body, Erase(code[1..]));
      if EndsAtLast(body) || (|code| > 1 && code[1].Gated?) {
        LastIsGate(code, followed);
        InexactDiffers(code[1..], !EndsAtLast(body), followed);
      } else if |code| > 1 {
        OpenItemLoses(code[1..]);
        LostDiffers(Walk(Erase(code), inItem).0, Production(code));
      } else {
        NothingElse(code, followed);
        NothingWalks(code[1..], true);
      }
    }
  }

  lemma NothingElse(code: seq<Code>, followed: bool)
    requires |code| == 1
    ensures code[1..] == [] && Exact(code[1..], followed)
  {
  }

  lemma KeptDiffers(kept: seq<Token>, production: seq<Token>)
    requires exists t :: t in kept && t !in production
    ensures Differs(kept, production)
  {
  }

  lemma LostDiffers(kept: seq<Token>, production: seq<Token>)
    requires exists t :: t in production && t !in kept
    ensures Differs(kept, production)
  {
  }

  lemma LastIsGate(code: seq<Code>, followed: bool)
    requires code != [] && !Exact(code[1..], followed)
    ensures |code| > 1
  {
  }

  // ---------------------------------------------------------------- main results

  /** Of a file: the scan looks at exactly the production code if and only if no gated element ends
      an item before its last node, and its last node does wherever production code follows. */
  lemma ScanIsExact(code: seq<Code>)
    requires WellFormed(Erase(code)) && !EndsInAttribute(Erase(code)) && Annotated(code) && Ordered(Flatten(Erase(code)))
    ensures Kept(Flatten(Erase(code)), false) == Production(code) <==> Exact(code, false)
  {
    OrderedIsDistinct(Flatten(Erase(code)));
    FileIsWalk(Erase(code));
    if Exact(code, false) {
      ExactWalk(code, false, false);
    } else {
      InexactDiffers(code, false, false);
    }
    hide Exact;
    hide Annotated;
    hide Erase;
    hide Production;
    hide Kept;
    hide Walk;
    hide Flatten;
    hide WellFormed;
    hide Ordered;
  }

  /** No gated element outside another is ended before its last node. */
  predicate NoneEndsEarly(code: seq<Code>)
    decreases code
  {
    code == [] ||
    ((code[0].Block? ==> NoneEndsEarly(code[0].inside)) && (code[0].Gated? ==> !EndsEarly(code[0].body)) && NoneEndsEarly(code[1..]))
  }

  /** Then the scan looks at nothing but production code, whatever it may lose. */
  lemma {:induction false} NothingGatedIsKept(code: seq<Code>, inItem: bool)
    requires Annotated(code) && NoneEndsEarly(code)
    ensures multiset(Walk(Erase(code), inItem).0) <= multiset(Production(code))
    decreases code
  {
    hide *;
    if code == [] {
      NothingWalks(code, inItem);
    } else {
      AnnotatedFirst(code);
      NoneEarlyFirst(code);
      ProductionFirst(code);
      if code[0].Gated? {
        NothingGatedIsKept(code[1..], !EndsAtLast(code[0].body));
        GateWalks(code, inItem);
        GateHasElement(code);
        BodySkipped(code[0].body, Erase(code[1..]));
      } else if AttributeAt(code) {
        AttributePlain(code);
        NoneEarlyBehind(code);
        NothingGatedIsKept(code[2..], inItem);
        AttributeWalks(code);
        if inItem { AttributeSkipped(code); }
      } else if inItem {
        NodeOfCodeSkipped(code);
        NothingGatedIsKept(code[1..], !EndsItem(EraseOne(code[0])[0]));
      } else if code[0].Plain? {
        NothingGatedIsKept(code[1..], false);
        PlainWalks(code);
      } else {
        NothingGatedIsKept(code[0].inside, false);
        NothingGatedIsKept(code[1..], Walk(Erase(code[0].inside), false).1);
        BlockWalks(code);
      }
    }
  }

  lemma NoneEarlyFirst(code: seq<Code>)
    requires code != [] && NoneEndsEarly(code)
    ensures NoneEndsEarly(code[1..]) && (code[0].Block? ==> NoneEndsEarly(code[0].inside))
    ensures code[0].Gated? ==> !EndsEarly(code[0].body) && !AttributeAt(code)
  {
    hide EndsEarly;
  }

  lemma NoneEarlyBehind(code: seq<Code>)
    requires AttributeAt(code) && NoneEndsEarly(code)
    ensures NoneEndsEarly(code[2..])
  {
    assert code[1..][1..] == code[2..];
    hide EndsEarly;
  }

  lemma NodeOfCodeSkipped(code: seq<Code>)
    requires code != [] && !code[0].Gated?
    ensures EraseOne(code[0]) != []
    ensures Walk(Erase(code), true) == Walk(Erase(code[1..]), !EndsItem(EraseOne(code[0])[0]))
  {
    EraseFirst(code);
    FrontOf(EraseOne(code[0]), Erase(code[1..]));
    WalkInItem(Erase(code));
    hide Walk;
    hide Erase;
  }

  lemma AttributeSkipped(code: seq<Code>)
    requires AttributeAt(code)
    ensures Walk(Erase(code), true) == Walk(Erase(code[2..]), true)
  {
    BracketsDiffer();
    assert code[1..][0] == code[1] && code[1..][1..] == code[2..];
    NodeOfCodeSkipped(code);
    NodeOfCodeSkipped(code[1..]);
    hide Walk;
    hide Erase;
  }

  /** No test-only attribute where the scan would see one. */
  predicate Inert(nodes: seq<Node>)
    decreases nodes
  {
    if nodes == [] then true
    else if IsAttribute(nodes) then !IsTestAttribute(nodes) && Inert(nodes[2..])
    else (nodes[0].Group? ==> Inert(nodes[0].inside)) && Inert(nodes[1..])
  }

  /** Some node of the element ends an item, and what is left of the element opens none. */
  ghost predicate Ends(body: seq<Node>) {
    exists n :: 0 <= n < |body| && EndsItem(body[n]) && (forall i :: 0 <= i < n ==> !EndsItem(body[i])) && Inert(body[n + 1..])
  }

  /** Every gated element outside another has its end somewhere in itself. */
  ghost predicate AllEnd(code: seq<Code>)
    decreases code
  {
    code == [] ||
    ((code[0].Block? ==> AllEnd(code[0].inside)) && (code[0].Gated? ==> Ends(code[0].body)) && AllEnd(code[1..]))
  }

  predicate StopsAtHash(nodes: seq<Node>) {
    nodes != [] && nodes[|nodes| - 1].Word? && nodes[|nodes| - 1].token.text == HASH
  }

  lemma FrontAttribute(nodes: seq<Node>, rest: seq<Node>)
    requires nodes != [] && (rest == [] || !StopsAtHash(nodes))
    ensures IsAttribute(nodes + rest) <==> IsAttribute(nodes)
    ensures IsAttribute(nodes) ==>
      |nodes| > 1 && IsTestAttribute(nodes + rest) == IsTestAttribute(nodes)
      && (nodes + rest)[..2] == nodes[..2] && (nodes + rest)[2..] == nodes[2..] + rest
    ensures (nodes + rest)[0] == nodes[0] && (nodes + rest)[1..] == nodes[1..] + rest
  {
    if |nodes| > 1 { assert (nodes + rest)[..2] == nodes[..2] && (nodes + rest)[1] == nodes[1]; }
    if |nodes| == 1 { assert nodes[|nodes| - 1] == nodes[0]; }
    hide Flatten;
    hide C.TestOnly;
  }

  lemma InertFirst(nodes: seq<Node>)
    requires nodes != [] && Inert(nodes)
    ensures IsAttribute(nodes) ==> |nodes| > 1 && !IsTestAttribute(nodes) && Inert(nodes[2..])
    ensures !IsAttribute(nodes) ==> Inert(nodes[1..]) && (nodes[0].Group? ==> Inert(nodes[0].inside))
  {
    hide Flatten;
    hide C.TestOnly;
  }

  lemma StopsLater(nodes: seq<Node>, n: nat)
    requires n <= |nodes| && StopsAtHash(nodes[n..])
    ensures StopsAtHash(nodes)
  {
  }

  /** Code without gates is kept whole. */
  lemma {:induction false} InertWalks(nodes: seq<Node>, rest: seq<Node>)
    requires Inert(nodes) && (rest == [] || !StopsAtHash(nodes))
    ensures Walk(nodes + rest, false) == (Flatten(nodes) + Walk(rest, false).0, Walk(rest, false).1)
    decreases nodes
  {
    hide *;
    if nodes == [] {
      NoNodes(nodes, rest);
    } else {
      InertFirst(nodes);
      FrontAttribute(nodes, rest);
      if IsAttribute(nodes) {
        if rest != [] && StopsAtHash(nodes[2..]) { StopsLater(nodes, 2); }
        InertWalks(nodes[2..], rest);
        WalkAttribute(nodes + rest);
        FlattenSplit(nodes, 2);
        Regroup(Flatten(nodes[..2]), Flatten(nodes[2..]), Walk(rest, false).0);
      } else {
        if rest != [] && StopsAtHash(nodes[1..]) { StopsLater(nodes, 1); }
        InertWalks(nodes[1..], rest);
        FlattenFirst(nodes);
        if nodes[0].Word? {
          WalkWord(nodes + rest);
          WordTokens(nodes[0]);
        } else {
          InertWalks(nodes[0].inside, []);
          NoRest(nodes[0].inside);
          WalkGroup(nodes + rest);
          GroupTokens(nodes[0]);
        }
        Regroup(TokensOf(nodes[0]), Flatten(nodes[1..]), Walk(rest, false).0);
      }
    }
  }

  lemma NoNodes(nodes: seq<Node>, rest: seq<Node>)
    requires nodes == []
    ensures nodes + rest == rest && Flatten(nodes) + Walk(rest, false).0 == Walk(rest, false).0
  {
    hide Walk;
  }

  lemma NoRest(nodes: seq<Node>)
    ensures nodes + [] == nodes && Walk([], false) == ([], false) && Flatten(nodes) + [] == Flatten(nodes)
  {
    hide Flatten;
  }

  /** An element that has its end: behind it the scan is looking again. */
  lemma EndedBody(code: seq<Code>) returns (leaked: seq<Token>)
    requires code != [] && code[0].Gated? && GatesElement(code[0].hash, code[0].gate, code[0].body) && Ends(code[0].body)
    ensures Walk(Erase(code), false) == (leaked + Walk(Erase(code[1..]), false).0, Walk(Erase(code[1..]), false).1)
  {
    hide *;
    var body, rest := code[0].body, Erase(code[1..]);
    var n := EndOf(body);
    TailGoesOn(code[0].hash, code[0].gate, body, n + 1);
    GateWalks(code, false);
    BodyEnds(body, rest, n);
    InertWalks(body[n + 1..], rest);
    leaked := Flatten(body[n + 1..]);
  }

  lemma EndOf(body: seq<Node>) returns (n: nat)
    requires Ends(body)
    ensures n < |body| && EndsItem(body[n]) && (forall i :: 0 <= i < n ==> !EndsItem(body[i])) && Inert(body[n + 1..])
  {
    n :| n < |body| && EndsItem(body[n]) && (forall i :: 0 <= i < n ==> !EndsItem(body[i])) && Inert(body[n + 1..]);
  }

  lemma TailGoesOn(hash: Token, gate: Node, body: seq<Node>, n: nat)
    requires GatesElement(hash, gate, body) && n <= |body|
    ensures !StopsAtHash(body[n..])
  {
    if StopsAtHash(body[n..]) { StopsLater(body, n); }
    hide C.TestOnly;
    hide Flatten;
  }

  lemma AllEndFirst(code: seq<Code>)
    requires code != [] && AllEnd(code)
    ensures AllEnd(code[1..]) && (code[0].Block? ==> AllEnd(code[0].inside))
    ensures code[0].Gated? ==> Ends(code[0].body) && !AttributeAt(code)
    ensures AttributeAt(code) ==> AllEnd(code[2..])
  {
    if AttributeAt(code) { assert code[1..][1..] == code[2..]; }
    hide Ends;
  }

  /** Then the scan loses no production code, whatever else it may look at. */
  lemma {:induction false} NoProductionIsLost(code: seq<Code>)
    requires Annotated(code) && AllEnd(code)
    ensures multiset(Production(code)) <= multiset(Walk(Erase(code), false).0) && !Walk(Erase(code), false).1
    decreases code
  {
    hide *;
    if code == [] {
      NothingWalks(code, false);
    } else {
      AnnotatedFirst(code);
      AllEndFirst(code);
      ProductionFirst(code);
      if AttributeAt(code) {
        AttributePlain(code);
        NoProductionIsLost(code[2..]);
        AttributeWalks(code);
      } else if code[0].Plain? {
        NoProductionIsLost(code[1..]);
        PlainWalks(code);
      } else if code[0].Block? {
        NoProductionIsLost(code[0].inside);
        NoProductionIsLost(code[1..]);
        BlockWalks(code);
      } else {
        NoProductionIsLost(code[1..]);
        var leaked := EndedBody(code);
      }
    }
  }
}
