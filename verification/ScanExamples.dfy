/**
 Three files the scan for forbidden identifiers gets wrong, each inside the domain of `ScanIsExact`:
 a gated field in front of a function, a gated match arm in front of an arm with a block, and a
 gated statement whose `if` has an `else`.
 */
module ScanExamples {
  import opened Options
  import opened Sequences
  import opened RustLexer
  import opened TestOnlyItems
  import opened NestedScan
  import opened ProductionCode
  import C = CfgExpression

  /** The token at a place of its own. */
  function At(text: string, place: nat): Token { Token(text, 2 * place, 2 * place + 1, 1) }

  function Leaf(text: string, place: nat): Code { Plain(At(text, place)) }

  function Braces(place: nat, inside: seq<Code>, last: nat): Code { Block(At(CURLY, place), inside, At(UNCURLY, last)) }

  /** `[cfg(test)]` */
  function Gate(place: nat): Node {
    Group(At(SQUARE, place),
          [Word(At("cfg", place + 1)), Group(At(PAREN, place + 2), [Word(At("test", place + 3))], At(UNPAREN, place + 4))],
          At(UNSQUARE, place + 5))
  }

  /** `#[cfg(test)]` in front of the code from `place + 7` on. */
  function Element(place: nat, element: seq<Code>): Code { Gated(At(HASH, place), Gate(place + 1), Erase(element)) }

  /** `{ execute }` */
  function Call(place: nat): Code { Braces(place, [Leaf("execute", place + 1)] + [], place + 2) }

  function FieldAndComma(): seq<Code> { [Leaf("field", 8)] + ([Leaf(",", 9)] + []) }

  /** `{ #[cfg(test)] field, } fn { execute }` */
  function FieldBeforeFunction(): seq<Code> {
    [Braces(0, [Element(1, FieldAndComma())] + [], 10)] + ([Leaf("fn", 11)] + ([Call(12)] + []))
  }

  /** `{ #[cfg(test)] field, _ { execute } }` */
  function ArmBeforeArm(): seq<Code> {
    [Braces(0, [Element(1, FieldAndComma())] + ([Leaf("_", 10)] + ([Call(11)] + [])), 14)] + []
  }

  function IfElse(): seq<Code> {
    [Leaf("if", 7)] + ([Braces(8, [], 9)] + ElseCall())
  }

  function ElseCall(): seq<Code> { [Leaf("else", 10)] + ([Call(11)] + ([Leaf(SEMICOLON, 14)] + [])) }

  /** `#[cfg(test)] if { } else { execute } ;` */
  function GatedIfElse(): seq<Code> { [Element(0, IfElse())] + [] }

  // ------------------------------------------------------------- files as the scan sees them

  ghost predicate Placed(tokens: seq<Token>, from: nat, to: nat) {
    Ordered(tokens) && from <= to && forall i :: 0 <= i < |tokens| ==> 2 * from <= tokens[i].start && tokens[i].end <= 2 * to
  }

  /** Code from `from` up to `to` that meets what the theorems ask of a file. */
  ghost predicate Sound(code: seq<Code>, from: nat, to: nat) {
    WellFormed(Erase(code)) && Annotated(code) && Placed(Flatten(Erase(code)), from, to)
  }

  ghost predicate IsFile(code: seq<Code>) {
    WellFormed(Erase(code)) && !EndsInAttribute(Erase(code)) && Annotated(code) && Ordered(Flatten(Erase(code)))
  }

  lemma PlacedSum(a: seq<Token>, b: seq<Token>, from: nat, mid: nat, to: nat)
    requires Placed(a, from, mid) && Placed(b, mid, to)
    ensures Placed(a + b, from, to)
  {
  }

  lemma PlacedOne(text: string, place: nat)
    ensures Placed([At(text, place)], place, place + 1)
  {
  }

  lemma SoundNothing(place: nat)
    ensures Sound([], place, place)
  {
  }

  lemma AnnotatedFront(c: Code, rest: seq<Code>)
    requires Annotated(rest) && !c.Gated? && (c.Plain? ==> c.token.text != HASH) && (c.Block? ==> Annotated(c.inside))
    ensures Annotated([c] + rest)
  {
    assert ([c] + rest)[1..] == rest;
    hide C.TestOnly;
  }

  lemma SoundLeaf(text: string, place: nat, rest: seq<Code>, to: nat)
    requires !IsBracket(text) && text != HASH && Sound(rest, place + 1, to)
    ensures Sound([Leaf(text, place)] + rest, place, to)
  {
    var code, word := [Leaf(text, place)] + rest, [Word(At(text, place))];
    assert code[1..] == rest && word[1..] == [] && WellFormed(word);
    AnnotatedFront(Leaf(text, place), rest);
    EraseFirst(code);
    WellFormedSum(word, Erase(rest));
    FlattenErased(code);
    PlacedOne(text, place);
    PlacedSum([At(text, place)], Flatten(Erase(rest)), place, place + 1, to);
    hide *;
  }

  lemma SoundBraces(place: nat, inside: seq<Code>, last: nat, rest: seq<Code>, to: nat)
    requires Sound(inside, place + 1, last) && Sound(rest, last + 1, to)
    ensures Sound([Braces(place, inside, last)] + rest, place, to)
  {
    hide *;
    var code := [Braces(place, inside, last)] + rest;
    assert code[1..] == rest;
    SoundParts(inside, place + 1, last);
    SoundParts(rest, last + 1, to);
    BracesParts(place, inside, last);
    AnnotatedFront(Braces(place, inside, last), rest);
    EraseFirst(code);
    WellFormedSum([Group(At(CURLY, place), Erase(inside), At(UNCURLY, last))], Erase(rest));
    FlattenErased(code);
    var open, inner, close := [At(CURLY, place)], Flatten(Erase(inside)), [At(UNCURLY, last)];
    PlacedOne(CURLY, place);
    PlacedOne(UNCURLY, last);
    PlacedSum(open, inner, place, place + 1, last);
    PlacedSum(open + inner, close, place, last, last + 1);
    PlacedSum(open + inner + close, Flatten(Erase(rest)), place, last + 1, to);
    SoundWhole(code, place, to);
  }

  lemma SoundParts(code: seq<Code>, from: nat, to: nat)
    requires Sound(code, from, to)
    ensures WellFormed(Erase(code)) && Annotated(code) && Placed(Flatten(Erase(code)), from, to)
  {
    hide Erase;
    hide Annotated;
    hide Placed;
    hide WellFormed;
    hide Flatten;
  }

  lemma SoundWhole(code: seq<Code>, from: nat, to: nat)
    requires WellFormed(Erase(code)) && Annotated(code) && Placed(Flatten(Erase(code)), from, to)
    ensures Sound(code, from, to)
  {
  }

  lemma BracesParts(place: nat, inside: seq<Code>, last: nat)
    requires WellFormed(Erase(inside))
    ensures var b := Braces(place, inside, last);
      b.Block? && b.inside == inside && b.open == At(CURLY, place) && b.close == At(UNCURLY, last)
    ensures WellFormed([Group(At(CURLY, place), Erase(inside), At(UNCURLY, last))])
  {
    assert [Group(At(CURLY, place), Erase(inside), At(UNCURLY, last))][1..] == [];
    hide Erase;
  }

  lemma GateIsTest(place: nat)
    ensures IsTestAttribute([Word(At(HASH, place)), Gate(place + 1)])
    ensures WellFormed([Word(At(HASH, place)), Gate(place + 1)])
    ensures Placed(Flatten([Word(At(HASH, place)), Gate(place + 1)]), place, place + 7)
  {
    GateTokens(place);
    GateIsWellFormed(place);
    var pair := [Word(At(HASH, place)), Gate(place + 1)];
    var t := C.Atom(C.TEST, "test", false);
    assert |"test"| == 4 && |C.OPEN| == 1 && |C.SHUT| == 1 && |C.COMMA| == 1;
    C.AttributeReadsTree(t, false);
    assert !C.FlagsOf(t).0;
    assert pair[..2] == pair;
    hide C.TestOnly;
    hide Flatten;
  }

  lemma GateTokens(place: nat)
    ensures var gate := [Word(At(HASH, place)), Gate(place + 1)];
      var tokens := [At(HASH, place), At(SQUARE, place + 1), At("cfg", place + 2), At(PAREN, place + 3), At("test", place + 4),
                     At(UNPAREN, place + 5), At(UNSQUARE, place + 6)];
      Flatten(gate) == tokens && Texts(tokens) == C.CfgAttribute(C.Atom(C.TEST, "test", false), false)
  {
    var test := Word(At("test", place + 4));
    var argument := Group(At(PAREN, place + 3), [test], At(UNPAREN, place + 5));
    var inside := [Word(At("cfg", place + 2)), argument];
    var pair := [Word(At(HASH, place)), Gate(place + 1)];
    hide C.CfgAttribute;
    GateTexts(place);
    assert [test][1..] == [] && Flatten([test]) == [test.token];
    FlattenPair(inside);
    FlattenPair(pair);
    assert inside[..2] == inside && pair[..2] == pair;
    hide Flatten;
    hide Texts;
  }

  lemma GateTexts(place: nat)
    ensures Texts([At(HASH, place), At(SQUARE, place + 1), At("cfg", place + 2), At(PAREN, place + 3), At("test", place + 4),
                   At(UNPAREN, place + 5), At(UNSQUARE, place + 6)])
         == C.CfgAttribute(C.Atom(C.TEST, "test", false), false)
  {
    assert C.Print(C.Atom(C.TEST, "test", false)) == ["test"];
  }

  lemma GateIsWellFormed(place: nat)
    ensures WellFormed([Word(At(HASH, place)), Gate(place + 1)])
  {
    ExampleWords();
    var test := Word(At("test", place + 4));
    OnePair(test, test);
    var argument := Group(At(PAREN, place + 3), [test], At(UNPAREN, place + 5));
    OnePair(Word(At("cfg", place + 2)), argument);
    OnePair(Word(At(HASH, place)), Gate(place + 1));
  }

  lemma OnePair(a: Node, b: Node)
    requires NodeWellFormed(a) && NodeWellFormed(b)
    ensures WellFormed([a, b]) && WellFormed([a])
  {
    assert [a, b][1..] == [b] && [b][1..] == [] && [a][1..] == [];
  }

  lemma ExampleWords()
    ensures forall text :: text in {"cfg", "test", "field", ",", "fn", "_", "if", "else", "execute"} ==> !IsBracket(text) && text != SEMICOLON && text != HASH
    ensures forall text :: text in {"field", ",", "fn", "_", "if", "else", CURLY, UNCURLY, SEMICOLON} ==> !RawWrite(text)
    ensures RawWrite("execute") && !IsBracket(HASH) && !IsBracket(SEMICOLON) && SEMICOLON != HASH
  {
    BracketsDiffer();
    assert ","[0] == ',' && "_"[0] == '_' && PAREN[0] == '(' && UNPAREN[0] == ')' && SQUARE[0] == '[' && UNSQUARE[0] == ']' && CURLY[0] == '{' && UNCURLY[0] == '}';
    assert SEMICOLON[0] == ';' && HASH[0] == '#' && |"cfg"| == 3 && |"test"| == 4 && |"field"| == 5 && |"fn"| == 2 && |"execute"| == 7;
    assert |"if"| == 2 && |"else"| == 4 && |"execute_batch"| == 13 && |"transaction"| == 11 && |","| == 1 && |"_"| == 1;
  }

  /** Nodes none of which is a hash. */
  predicate NoHash(nodes: seq<Node>) { forall i :: 0 <= i < |nodes| && nodes[i].Word? ==> nodes[i].token.text != HASH }

  lemma SoundElement(place: nat, element: seq<Code>, last: nat, rest: seq<Code>, to: nat)
    requires Sound(element, place + 7, last) && Erase(element) != [] && NoHash(Erase(element)) && Sound(rest, last, to)
    ensures Sound([Element(place, element)] + rest, place, to)
    ensures GatesElement(At(HASH, place), Gate(place + 1), Erase(element))
  {
    var code, body := [Element(place, element)] + rest, Erase(element);
    var gate := [Word(At(HASH, place)), Gate(place + 1)];
    assert code[1..] == rest;
    GateIsTest(place);
    assert GatesElement(At(HASH, place), Gate(place + 1), body);
    EraseFirst(code);
    WellFormedSum(body, Erase(rest));
    WellFormedSum(gate, body + Erase(rest));
    FlattenErased(code);
    PlacedSum(Flatten(body), Flatten(Erase(rest)), place + 7, last, to);
    PlacedSum(Flatten(gate), Flatten(body) + Flatten(Erase(rest)), place, place + 7, to);
    AnnotatedGate(code);
    hide *;
  }

  lemma AnnotatedGate(code: seq<Code>)
    requires code != [] && code[0].Gated? && GatesElement(code[0].hash, code[0].gate, code[0].body) && Annotated(code[1..])
    ensures Annotated(code)
  {
    hide GatesElement;
  }

  lemma CallIsSound(place: nat, rest: seq<Code>, to: nat)
    requires Sound(rest, place + 3, to)
    ensures Sound([Call(place)] + rest, place, to)
  {
    ExampleWords();
    SoundNothing(place + 2);
    SoundLeaf("execute", place + 1, [], place + 2);
    SoundBraces(place, [Leaf("execute", place + 1)] + [], place + 2, rest, to);
    hide Sound;
  }

  lemma NoAttributeAtEnd(nodes: seq<Node>)
    requires nodes != [] && (nodes[|nodes| - 1].Group? ==> nodes[|nodes| - 1].open.text != SQUARE)
    ensures !EndsInAttribute(nodes)
  {
  }

  // ------------------------------------------------------------------------ the elements

  lemma FieldNodes()
    ensures Erase(FieldAndComma()) == [Word(At("field", 8)), Word(At(",", 9))] && Sound(FieldAndComma(), 8, 10)
    ensures NoHash(Erase(FieldAndComma())) && !EndsEarly(Erase(FieldAndComma())) && !EndsAtLast(Erase(FieldAndComma()))
  {
    ExampleWords();
    SoundNothing(10);
    SoundLeaf(",", 9, [], 10);
    SoundLeaf("field", 8, [Leaf(",", 9)] + [], 10);
    EraseFirst(FieldAndComma());
    EraseFirst([Leaf(",", 9)] + []);
    hide Sound;
  }

  /** A gated field: nothing in it ends an item. */
  lemma FieldStaysOpen(rest: seq<Code>, to: nat)
    requires Sound(rest, 10, to)
    ensures Sound([Element(1, FieldAndComma())] + rest, 1, to)
    ensures Walk(Erase([Element(1, FieldAndComma())] + rest), false) == Walk(Erase(rest), true)
    ensures Production([Element(1, FieldAndComma())] + rest) == Production(rest)
  {
    hide *;
    var code, body := [Element(1, FieldAndComma())] + rest, Erase(FieldAndComma());
    FieldNodes();
    SoundElement(1, FieldAndComma(), 10, rest, to);
    ElementParts(1, FieldAndComma());
    assert code[1..] == rest;
    GateWalks(code, false);
    BodySkipped(body, Erase(rest));
    ProductionFirst(code);
  }

  lemma ElementParts(place: nat, element: seq<Code>)
    ensures var e := Element(place, element);
      e.Gated? && e.hash == At(HASH, place) && e.gate == Gate(place + 1) && e.body == Erase(element)
  {
    hide Erase;
  }

  lemma LeafSkipped(text: string, place: nat, rest: seq<Code>)
    requires text != SEMICOLON
    ensures Walk(Erase([Leaf(text, place)] + rest), true) == Walk(Erase(rest), true)
    ensures Production([Leaf(text, place)] + rest) == [At(text, place)] + Production(rest)
  {
    var code := [Leaf(text, place)] + rest;
    assert code[1..] == rest && EraseOne(code[0]) == [Word(At(text, place))];
    NodeOfCodeSkipped(code);
    ProductionFirst(code);
    hide Walk;
    hide Erase;
    hide Production;
  }

  function CallTokens(place: nat): seq<Token> { [At(CURLY, place), At("execute", place + 1), At(UNCURLY, place + 2)] }

  lemma CallSkipped(place: nat, rest: seq<Code>)
    ensures Walk(Erase([Call(place)] + rest), true) == Walk(Erase(rest), false)
    ensures Production([Call(place)] + rest) == CallTokens(place) + Production(rest)
    ensures EraseOne(Call(place)) == [Group(At(CURLY, place), [Word(At("execute", place + 1))], At(UNCURLY, place + 2))]
  {
    var code := [Call(place)] + rest;
    var inside := [Leaf("execute", place + 1)] + [];
    assert code[1..] == rest && inside[1..] == [] && Erase([]) == [] && Production([]) == [];
    EraseFirst(inside);
    assert Erase(inside) == [Word(At("execute", place + 1))];
    assert EraseOne(code[0]) == [Group(At(CURLY, place), Erase(inside), At(UNCURLY, place + 2))];
    NodeOfCodeSkipped(code);
    ProductionFirst(code);
    ProductionFirst(inside);
    hide Walk;
    hide Erase;
    hide Production;
  }

  lemma NothingWalked()
    ensures Walk(Erase([]), true) == ([], true) && Walk(Erase([]), false) == ([], false) && Production([]) == []
  {
  }

  /** Braces around code that the scan leaves with an item under way, or not. */
  lemma BracesWalked(place: nat, inside: seq<Code>, last: nat, rest: seq<Code>, to: nat)
    requires Sound([Braces(place, inside, last)] + rest, place, to)
    ensures var (kept, running) := Walk(Erase(inside), false);
      Walk(Erase([Braces(place, inside, last)] + rest), false)
      == ([At(CURLY, place)] + kept + (if running then [] else [At(UNCURLY, last)]) + Walk(Erase(rest), running).0, Walk(Erase(rest), running).1)
    ensures Production([Braces(place, inside, last)] + rest)
         == [At(CURLY, place)] + Production(inside) + [At(UNCURLY, last)] + Production(rest)
  {
    var code := [Braces(place, inside, last)] + rest;
    assert code[1..] == rest;
    SoundParts(code, place, to);
    BlockWalks(code);
    ProductionFirst(code);
    hide Walk;
    hide Erase;
    hide Production;
    hide Sound;
  }

  /** A file that ends in braces or a semicolon does not end in an attribute. */
  lemma LastIsNone(front: seq<Code>, last: Code)
    requires (last.Block? && last.open.text == CURLY) || (last.Gated? && EndsAtLast(last.body))
    ensures !EndsInAttribute(Erase(front + [last]))
  {
    EraseSum(front, [last]);
    EraseAlone(last);
    LastNode(last);
    var nodes, tail := Erase(front + [last]), EraseOne(last);
    assert nodes[|nodes| - 1] == tail[|tail| - 1];
    NoAttributeAtEnd(nodes);
    hide *;
  }

  lemma EraseAlone(c: Code)
    ensures Erase([c]) == EraseOne(c)
  {
    EraseFirst([c]);
    assert [c][1..] == [] && Erase([]) == [];
    hide EraseOne;
  }

  lemma LastNode(last: Code)
    requires (last.Block? && last.open.text == CURLY) || (last.Gated? && EndsAtLast(last.body))
    ensures var tail := EraseOne(last);
      tail != [] && (tail[|tail| - 1].Group? ==> tail[|tail| - 1].open.text != SQUARE)
  {
    BracketsDiffer();
    hide Erase;
  }

  // --------------------------------------------------------------- what goes wrong

  lemma {:induction false} ViolationsSum(a: seq<Token>, b: seq<Token>)
    ensures ViolationsOf(a + b) == ViolationsOf(a) + ViolationsOf(b)
  {
    hide RawWrite;
    if a == [] {
      assert a + b == b;
    } else {
      assert (a + b)[0] == a[0] && (a + b)[1..] == a[1..] + b;
      ViolationsSum(a[1..], b);
    }
  }

  lemma NoViolation(text: string, place: nat)
    requires !RawWrite(text)
    ensures ViolationsOf([At(text, place)]) == []
  {
    assert [At(text, place)][1..] == [];
  }

  lemma CallViolation(place: nat)
    ensures ViolationsOf(CallTokens(place)) == [Violation(1, "execute")]
  {
    ExampleWords();
    NoViolation(CURLY, place);
    NoViolation(UNCURLY, place + 2);
    assert [At("execute", place + 1)][1..] == [] && ViolationsOf([]) == [];
    assert CallTokens(place) == [At(CURLY, place)] + ([At("execute", place + 1)] + [At(UNCURLY, place + 2)]);
    ViolationsSum([At("execute", place + 1)], [At(UNCURLY, place + 2)]);
    ViolationsSum([At(CURLY, place)], [At("execute", place + 1)] + [At(UNCURLY, place + 2)]);
    hide RawWrite;
  }

  /** What the scan keeps of a file, and that this is wrong. */
  lemma Judged(file: seq<Code>, to: nat)
    requires Sound(file, 0, to) && !EndsInAttribute(Erase(file))
    requires Walk(Erase(file), false).0 != Production(file)
    ensures IsFile(file) && !Exact(file, false)
    ensures Kept(Flatten(Erase(file)), false) == Walk(Erase(file), false).0
  {
    SoundParts(file, 0, to);
    FileIsWalk(Erase(file));
    assert Ordered(Flatten(Erase(file)));
    ScanIsExact(file);
    hide Walk;
    hide Erase;
    hide Production;
    hide Sound;
    hide Exact;
    hide Annotated;
    hide Kept;
    hide Flatten;
    hide WellFormed;
    hide Ordered;
  }

  /** A gated field hides the function behind its struct: the forbidden call there is not reported. */
  lemma FieldHidesFunction()
    ensures IsFile(FieldBeforeFunction()) && !Exact(FieldBeforeFunction(), false)
    ensures ViolationsOf(Kept(Flatten(Erase(FieldBeforeFunction())), false)) == []
    ensures ViolationsOf(Production(FieldBeforeFunction())) == [Violation(1, "execute")]
  {
    hide *;
    FieldSound();
    FieldSeen();
    var open, close, fn := [At(CURLY, 0)], [At(UNCURLY, 10)], [At("fn", 11)];
    Judged(FieldBeforeFunction(), 15);
    ExampleWords();
    NoViolation(CURLY, 0);
    NoViolation(UNCURLY, 10);
    NoViolation("fn", 11);
    CallViolation(12);
    ViolationsSum(fn, CallTokens(12));
    ViolationsSum(close, fn + CallTokens(12));
    ViolationsSum(open, close + (fn + CallTokens(12)));
  }

  lemma FieldSound()
    ensures Sound(FieldBeforeFunction(), 0, 15) && !EndsInAttribute(Erase(FieldBeforeFunction()))
  {
    hide *;
    var call := [Call(12)] + [];
    var fields, behind := [Element(1, FieldAndComma())] + [], [Leaf("fn", 11)] + call;
    FieldFile();
    ExampleWords();
    SoundNothing(10);
    SoundNothing(15);
    CallIsSound(12, [], 15);
    SoundLeaf("fn", 11, call, 15);
    FieldStaysOpen([], 10);
    SoundBraces(0, fields, 10, behind, 15);
    CallIsBlock(12);
    LastIsNone([Braces(0, fields, 10), Leaf("fn", 11)], Call(12));
  }

  lemma FieldSeen()
    ensures Walk(Erase(FieldBeforeFunction()), false).0 == [At(CURLY, 0)]
    ensures Production(FieldBeforeFunction()) == [At(CURLY, 0)] + ([At(UNCURLY, 10)] + ([At("fn", 11)] + CallTokens(12)))
    ensures Production(FieldBeforeFunction()) != [At(CURLY, 0)]
  {
    hide *;
    var call := [Call(12)] + [];
    var fields, behind := [Element(1, FieldAndComma())] + [], [Leaf("fn", 11)] + call;
    FieldFile();
    FieldSound();
    ExampleWords();
    SoundNothing(10);
    FieldStaysOpen([], 10);
    BracesWalked(0, fields, 10, behind, 15);
    LeafSkipped("fn", 11, call);
    CallSkipped(12, []);
    NothingWalked();
    FieldPieces([At(CURLY, 0)], [At(UNCURLY, 10)], [At("fn", 11)], CallTokens(12));
  }

  lemma FieldPieces<T>(a: seq<T>, b: seq<T>, c: seq<T>, d: seq<T>)
    requires b != []
    ensures a + [] + b + (c + (d + [])) == a + (b + (c + d)) != a
    ensures a + [] + [] + [] == a
  {
    assert |a + (b + (c + d))| > |a|;
  }

  lemma FieldFile()
    ensures var call := [Call(12)] + [];
      var fields, behind := [Element(1, FieldAndComma())] + [], [Leaf("fn", 11)] + call;
      && FieldBeforeFunction() == [Braces(0, fields, 10)] + behind
      && [Braces(0, fields, 10)] + behind == [Braces(0, fields, 10), Leaf("fn", 11)] + [Call(12)]
  {
    hide Call;
    hide Braces;
    hide Leaf;
    hide Element;
  }

  lemma CallIsBlock(place: nat)
    ensures Call(place).Block? && Call(place).open.text == CURLY
  {
  }

  /** A gated arm hides the arm behind it. */
  lemma ArmHidesArm()
    ensures IsFile(ArmBeforeArm()) && !Exact(ArmBeforeArm(), false)
    ensures ViolationsOf(Kept(Flatten(Erase(ArmBeforeArm())), false)) == []
    ensures ViolationsOf(Production(ArmBeforeArm())) == [Violation(1, "execute")]
  {
    hide *;
    ArmSound();
    ArmSeen();
    var open, close, pattern := [At(CURLY, 0)], [At(UNCURLY, 14)], [At("_", 10)];
    Judged(ArmBeforeArm(), 15);
    ExampleWords();
    NoViolation(CURLY, 0);
    NoViolation(UNCURLY, 14);
    NoViolation("_", 10);
    CallViolation(11);
    ViolationsSum(open, close);
    ViolationsSum(CallTokens(11), close);
    ViolationsSum(pattern, CallTokens(11) + close);
    ViolationsSum(open, pattern + (CallTokens(11) + close));
  }

  lemma ArmFile()
    ensures var call := [Call(11)] + [];
      var arm := [Leaf("_", 10)] + call;
      var arms := [Element(1, FieldAndComma())] + arm;
      && ArmBeforeArm() == [Braces(0, arms, 14)] + [] == [] + [Braces(0, arms, 14)]
      && Braces(0, arms, 14).Block? && Braces(0, arms, 14).open.text == CURLY
  {
    hide Call;
    hide Leaf;
    hide Element;
  }

  lemma ArmSound()
    ensures Sound(ArmBeforeArm(), 0, 15) && !EndsInAttribute(Erase(ArmBeforeArm()))
    ensures Sound([Leaf("_", 10)] + ([Call(11)] + []), 10, 14)
  {
    hide *;
    var call := [Call(11)] + [];
    var arm := [Leaf("_", 10)] + call;
    var arms := [Element(1, FieldAndComma())] + arm;
    ArmFile();
    ExampleWords();
    SoundNothing(14);
    SoundNothing(15);
    CallIsSound(11, [], 14);
    SoundLeaf("_", 10, call, 14);
    FieldStaysOpen(arm, 14);
    SoundBraces(0, arms, 14, [], 15);
    LastIsNone([], Braces(0, arms, 14));
  }

  lemma ArmSeen()
    ensures Walk(Erase(ArmBeforeArm()), false).0 == [At(CURLY, 0)] + [At(UNCURLY, 14)]
    ensures Production(ArmBeforeArm()) == [At(CURLY, 0)] + ([At("_", 10)] + (CallTokens(11) + [At(UNCURLY, 14)]))
    ensures Walk(Erase(ArmBeforeArm()), false).0 != Production(ArmBeforeArm())
  {
    hide *;
    var call := [Call(11)] + [];
    var arm := [Leaf("_", 10)] + call;
    var arms := [Element(1, FieldAndComma())] + arm;
    ArmFile();
    ArmSound();
    ExampleWords();
    FieldStaysOpen(arm, 14);
    BracesWalked(0, arms, 14, [], 15);
    LeafSkipped("_", 10, call);
    CallSkipped(11, []);
    NothingWalked();
    ArmPieces([At(CURLY, 0)], [At("_", 10)], CallTokens(11), [At(UNCURLY, 14)]);
  }

  lemma ArmPieces<T>(a: seq<T>, b: seq<T>, c: seq<T>, d: seq<T>)
    requires b != []
    ensures a + (b + (c + [])) + d + [] == a + (b + (c + d)) != a + d
    ensures a + [] + d + [] == a + d
  {
    assert |a + (b + (c + d))| > |a + d|;
  }

  lemma IfElseNodes()
    ensures Sound(IfElse(), 7, 15) && NoHash(Erase(IfElse()))
    ensures Erase(IfElse()) == [Word(At("if", 7)), Group(At(CURLY, 8), [], At(UNCURLY, 9))] + Erase(ElseCall())
    ensures Erase(ElseCall())
         == [Word(At("else", 10)), Group(At(CURLY, 11), [Word(At("execute", 12))], At(UNCURLY, 13)), Word(At(SEMICOLON, 14))]
  {
    hide *;
    ElseNodes();
    IfNodes();
    IfElseHasNoHash(Erase(ElseCall()), Erase(IfElse()));
  }

  lemma IfElseHasNoHash(tail: seq<Node>, nodes: seq<Node>)
    requires tail == [Word(At("else", 10)), Group(At(CURLY, 11), [Word(At("execute", 12))], At(UNCURLY, 13)), Word(At(SEMICOLON, 14))]
    requires nodes == [Word(At("if", 7)), Group(At(CURLY, 8), [], At(UNCURLY, 9))] + tail
    ensures NoHash(nodes)
  {
    ExampleWords();
  }

  lemma IfNodes()
    requires Sound(ElseCall(), 10, 15)
    ensures Sound(IfElse(), 7, 15)
    ensures Erase(IfElse()) == [Word(At("if", 7)), Group(At(CURLY, 8), [], At(UNCURLY, 9))] + Erase(ElseCall())
  {
    var block := [Braces(8, [], 9)] + ElseCall();
    ExampleWords();
    SoundNothing(9);
    SoundBraces(8, [], 9, ElseCall(), 15);
    SoundLeaf("if", 7, block, 15);
    EraseFirst(block);
    EraseFirst(IfElse());
    assert block[1..] == ElseCall() && IfElse()[1..] == block && Erase([]) == [];
    hide Sound;
    hide ElseCall;
    hide Erase;
  }

  lemma ElseNodes()
    ensures Sound(ElseCall(), 10, 15)
    ensures Erase(ElseCall())
         == [Word(At("else", 10)), Group(At(CURLY, 11), [Word(At("execute", 12))], At(UNCURLY, 13)), Word(At(SEMICOLON, 14))]
  {
    hide *;
    var end := [Leaf(SEMICOLON, 14)] + [];
    var otherwise := [Call(11)] + end;
    ExampleWords();
    ElseCallIs(otherwise, end);
    SoundNothing(15);
    SoundLeaf(SEMICOLON, 14, [], 15);
    CallIsSound(11, end, 15);
    SoundLeaf("else", 10, otherwise, 15);
    ElseErased(otherwise, end);
  }

  lemma ElseCallIs(otherwise: seq<Code>, end: seq<Code>)
    requires end == [Leaf(SEMICOLON, 14)] + [] && otherwise == [Call(11)] + end
    ensures ElseCall() == [Leaf("else", 10)] + otherwise
  {
  }

  lemma ElseErased(otherwise: seq<Code>, end: seq<Code>)
    requires end == [Leaf(SEMICOLON, 14)] + [] && otherwise == [Call(11)] + end && ElseCall() == [Leaf("else", 10)] + otherwise
    ensures Erase(ElseCall())
         == [Word(At("else", 10)), Group(At(CURLY, 11), [Word(At("execute", 12))], At(UNCURLY, 13)), Word(At(SEMICOLON, 14))]
  {
    EraseFirst(end);
    CallSkipped(11, end);
    EraseFirst(otherwise);
    EraseFirst(ElseCall());
    assert otherwise[1..] == end && end[1..] == [] && ElseCall()[1..] == otherwise && Erase([]) == [];
    hide Walk;
    hide Production;
    hide Erase;
    hide Call;
  }

  lemma ElseIsInert()
    ensures Inert(Erase(ElseCall())) && Flatten(Erase(ElseCall())) == [At("else", 10)] + (CallTokens(11) + [At(SEMICOLON, 14)])
  {
    ExampleWords();
    IfElseNodes();
    var execute, end := [Word(At("execute", 12))], [Word(At(SEMICOLON, 14))];
    var nodes := [Word(At("else", 10)), Group(At(CURLY, 11), execute, At(UNCURLY, 13)), Word(At(SEMICOLON, 14))];
    assert execute[1..] == [] && end[1..] == [] && nodes[1..][1..] == end;
    assert Inert([]) && Flatten([]) == [] && Inert(execute) && Inert(end);
    assert Flatten(execute) == [At("execute", 12)] && Flatten(end) == [At(SEMICOLON, 14)];
    assert !IsAttribute(nodes) && !IsAttribute(nodes[1..]);
    FlattenFirst(nodes);
    FlattenFirst(nodes[1..]);
    assert Inert(nodes[1..]);
    hide C.TestOnly;
    hide Erase;
    hide Sound;
    hide Flatten;
  }

  lemma IfElseEnds()
    ensures var body := Erase(IfElse());
      && |body| > 2 && EndsItem(body[1]) && !EndsItem(body[0]) && body[2..] == Erase(ElseCall()) && EndsAtLast(body)
      && !StopsAtHash(Erase(ElseCall()))
    ensures GatedIfElse() == [Element(0, IfElse())] + [] == [] + [Element(0, IfElse())]
    ensures GatedIfElse()[0] == Element(0, IfElse()) && GatedIfElse()[1..] == []
  {
    IfElseNodes();
    ExampleWords();
    hide Erase;
    hide Sound;
    hide Element;
  }

  /** The first block of a gated `if` ends the item for the scan: the call in the `else` is reported,
      though no production code is there at all. */
  lemma ElseIsReported()
    ensures IsFile(GatedIfElse()) && !Exact(GatedIfElse(), false)
    ensures ViolationsOf(Kept(Flatten(Erase(GatedIfElse())), false)) == [Violation(1, "execute")]
    ensures Production(GatedIfElse()) == []
  {
    hide *;
    ElseSeen();
    Judged(GatedIfElse(), 15);
    ExampleWords();
    NoViolation("else", 10);
    NoViolation(SEMICOLON, 14);
    CallViolation(11);
    ViolationsSum(CallTokens(11), [At(SEMICOLON, 14)]);
    ViolationsSum([At("else", 10)], CallTokens(11) + [At(SEMICOLON, 14)]);
  }

  lemma ElseSeen()
    ensures Sound(GatedIfElse(), 0, 15) && !EndsInAttribute(Erase(GatedIfElse()))
    ensures Walk(Erase(GatedIfElse()), false).0 == [At("else", 10)] + (CallTokens(11) + [At(SEMICOLON, 14)])
    ensures Production(GatedIfElse()) == [] != Walk(Erase(GatedIfElse()), false).0
  {
    hide *;
    var file, body := GatedIfElse(), Erase(IfElse());
    IfElseNodes();
    ElseIsInert();
    IfElseEnds();
    SoundNothing(15);
    SoundElement(0, IfElse(), 15, [], 15);
    ElementParts(0, IfElse());
    NothingErased();
    GateWalks(file, false);
    BodyEnds(body, [], 1);
    InertWalks(Erase(ElseCall()), []);
    NothingWalked();
    ProductionFirst(file);
    LastIsNone([], Element(0, IfElse()));
  }

  lemma NothingErased()
    ensures Erase([]) == []
  {
  }
}
