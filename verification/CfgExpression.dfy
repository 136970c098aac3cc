/**
 The abstract evaluation of `cfg(...)` by which the writer check decides that an item exists only
 in test builds. A tree prints to tokens as the lexer leaves them: string literals are gone, so a
 valued predicate such as `feature = "x"` is a name and an equals sign.
 */
module CfgExpression {
  import opened Options
  import opened Sequences

  type Id = nat

  /** The identity of the bare `test` predicate. */
  const TEST: Id := 0

  datatype Cfg =
    | Atom(id: Id, name: string, valued: bool)
    | All(children: seq<Cfg>, trailing: bool)
    | Any(children: seq<Cfg>, trailing: bool)
    | Not(child: Cfg, trailing: bool)
    | Other(id: Id, name: string, arguments: seq<Cfg>, trailing: bool)

  const OPEN := "("
  const SHUT := ")"
  const COMMA := ","

  predicate Plain(name: string) { name != "(" && name != ")" && name != "," }

  predicate Combinator(name: string) { name == "all" || name == "any" || name == "not" }

  /** Names are identifiers; `test` without a value is the atom TEST and no other is. */
  predicate WellFormed(t: Cfg)
    decreases t
  {
    match t
    case Atom(id, name, valued) => Plain(name) && (id == TEST <==> name == "test" && !valued)
    case All(children, _) => AllWellFormed(children)
    case Any(children, _) => AllWellFormed(children)
    case Not(child, _) => WellFormed(child)
    case Other(id, name, arguments, _) => Plain(name) && !Combinator(name) && id != TEST && AllWellFormed(arguments)
  }

  predicate AllWellFormed(ts: seq<Cfg>)
    decreases ts
  {
    ts == [] || (WellFormed(ts[0]) && AllWellFormed(ts[1..]))
  }

  // -------------------------------------------------------------------- printing

  function Print(t: Cfg): (r: seq<string>)
    ensures r != []
    decreases t
  {
    match t
    case Atom(_, name, valued) => [name] + (if valued then ["="] else [])
    case All(children, trailing) => ["all", "("] + PrintList(children, trailing) + [")"]
    case Any(children, trailing) => ["any", "("] + PrintList(children, trailing) + [")"]
    case Not(child, trailing) => ["not", "("] + Print(child) + (if trailing then [","] else []) + [")"]
    case Other(_, name, arguments, trailing) => [name, "("] + PrintList(arguments, trailing) + [")"]
  }

  function PrintList(ts: seq<Cfg>, trailing: bool): seq<string>
    decreases ts
  {
    if ts == [] then []
    else Print(ts[0]) + (if |ts| > 1 || trailing then [","] else []) + PrintList(ts[1..], trailing)
  }

  // --------------------------------------------------------------------- meaning

  /** Truth under the set of predicates that hold. */
  predicate Eval(t: Cfg, holds: set<Id>)
    decreases t
  {
    match t
    case Atom(id, _, _) => id in holds
    case All(children, _) => EvalAll(children, holds)
    case Any(children, _) => EvalAny(children, holds)
    case Not(child, _) => !Eval(child, holds)
    case Other(id, _, _, _) => id in holds
  }

  predicate EvalAll(ts: seq<Cfg>, holds: set<Id>)
    decreases ts
  {
    ts == [] || (Eval(ts[0], holds) && EvalAll(ts[1..], holds))
  }

  predicate EvalAny(ts: seq<Cfg>, holds: set<Id>)
    decreases ts
  {
    ts != [] && (Eval(ts[0], holds) || EvalAny(ts[1..], holds))
  }

  // ------------------------------------------------------------------ the parser

  /** Can be true, can be false, while `test` is false. */
  type Flags = (bool, bool)

  function AllFirst(fs: seq<Flags>): bool { fs == [] || (fs[0].0 && AllFirst(fs[1..])) }
  function AnyFirst(fs: seq<Flags>): bool { fs != [] && (fs[0].0 || AnyFirst(fs[1..])) }
  function AllSecond(fs: seq<Flags>): bool { fs == [] || (fs[0].1 && AllSecond(fs[1..])) }
  function AnySecond(fs: seq<Flags>): bool { fs != [] && (fs[0].1 || AnySecond(fs[1..])) }

  function Combine(name: string, children: seq<Flags>): Flags {
    if name == "all" then (AllFirst(children), AnySecond(children))
    else if name == "any" then (AnyFirst(children), AllSecond(children))
    else if name == "not" && |children| == 1 then (children[0].1, children[0].0)
    else (true, true)
  }

  /** What is left from the next comma or closing parenthesis on. */
  function SkipArgument(rest: seq<string>): (r: seq<string>)
    ensures |r| <= |rest|
  {
    if rest == [] || rest[0] == COMMA || rest[0] == SHUT then rest else SkipArgument(rest[1..])
  }

  function DropComma(rest: seq<string>): (r: seq<string>)
    ensures |r| <= |rest|
  {
    if rest != [] && rest[0] == COMMA then rest[1..] else rest
  }

  function DropShut(rest: seq<string>): (r: seq<string>)
    ensures |r| <= |rest|
  {
    if rest != [] && rest[0] == SHUT then rest[1..] else rest
  }

  /** The flags of the expression in front of `rest`, and what follows it. */
  function ParseOf(rest: seq<string>): (r: (Flags, seq<string>))
    ensures |r.1| <= |rest| && (rest != [] ==> |r.1| < |rest|)
    decreases |rest|, 0
  {
    if rest == [] then ((true, true), []) else
    var name, after := rest[0], rest[1..];
    if after != [] && after[0] == OPEN then
      var (children, behind) := ParseChildrenOf(after[1..]);
      (Combine(name, children), DropShut(behind))
    else (if name == "test" then (false, true) else (true, true), SkipArgument(after))
  }

  function ParseChildrenOf(rest: seq<string>): (r: (seq<Flags>, seq<string>))
    ensures |r.1| <= |rest|
    decreases |rest|, 1
  {
    if rest == [] || rest[0] == SHUT then ([], rest) else
    var (first, after) := ParseOf(rest);
    var (more, behind) := ParseChildrenOf(DropComma(SkipArgument(after)));
    ([first] + more, behind)
  }

  class Parser {
    const tokens: seq<string>
    var index: nat

    ghost predicate Valid()
      reads this
    {
      index <= |tokens|
    }

    constructor (tokens: seq<string>)
      ensures Valid() && this.tokens == tokens && index == 0
    {
      this.tokens, index := tokens, 0;
    }

    /** The inner skipping loop, used behind atoms and behind children. */
    method SkipToSeparator()
      requires Valid()
      modifies this
      ensures Valid() && index >= old(index) && tokens[index..] == SkipArgument(tokens[old(index)..])
    {
      while index < |tokens| && tokens[index] != COMMA && tokens[index] != SHUT
        invariant old(index) <= index <= |tokens| && SkipArgument(tokens[index..]) == SkipArgument(tokens[old(index)..])
        decreases |tokens| - index
      {
        assert tokens[index..][1..] == tokens[index + 1..];
        index := index + 1;
      }
    }

    method Parse() returns (canBeTrue: bool, canBeFalse: bool)
      requires Valid()
      modifies this
      ensures Valid() && index >= old(index) && (old(index) < |tokens| ==> index > old(index))
      ensures ((canBeTrue, canBeFalse), tokens[index..]) == ParseOf(tokens[old(index)..])
      decreases |tokens| - index, 0, 0
    {
      if index >= |tokens| { return true, true; }
      ghost var rest := tokens[index..];
      var name := tokens[index];
      index := index + 1;
      assert rest[1..] == tokens[index..];
      if index < |tokens| && tokens[index] == OPEN {
        index := index + 1;
        assert rest[1..][1..] == tokens[index..];
        var children := ParseChildren();
        assert tokens[index..] == ParseChildrenOf(rest[1..][1..]).1;
        if index < |tokens| && tokens[index] == SHUT {
          assert tokens[index..][1..] == tokens[index + 1..];
          index := index + 1;
        }
        return Combine(name, children).0, Combine(name, children).1;
      }
      SkipToSeparator();
      canBeTrue, canBeFalse := name != "test", true;
    }

    method ParseChildren() returns (children: seq<Flags>)
      requires Valid()
      modifies this
      ensures Valid() && index >= old(index)
      ensures (children, tokens[index..]) == ParseChildrenOf(tokens[old(index)..])
      decreases |tokens| - index, 1, 0
    {
      children := [];
      ghost var goal := ParseChildrenOf(tokens[index..]);
      hide SkipArgument;
      hide DropComma;
      ChildrenSoFar([], tokens[index..]);
      while index < |tokens| && tokens[index] != SHUT
        invariant old(index) <= index <= |tokens| && goal == Continued(children, tokens[index..])
        decreases |tokens| - index
      {
        hide Continued;
        ghost var rest := tokens[index..];
        assert rest != [] && rest[0] != SHUT;
        var canBeTrue, canBeFalse := ParseChild();
        NextChild(children, rest, (canBeTrue, canBeFalse), tokens[index..]);
        children := children + [(canBeTrue, canBeFalse)];
      }
      LastChild(children, tokens[index..]);
    }

    /** One child, and the comma behind it. */
    method ParseChild() returns (canBeTrue: bool, canBeFalse: bool)
      requires Valid() && index < |tokens|
      modifies this
      ensures Valid() && index > old(index)
      ensures var (flags, after) := ParseOf(tokens[old(index)..]);
        (canBeTrue, canBeFalse) == flags && tokens[index..] == DropComma(SkipArgument(after))
      decreases |tokens| - index, 0, 1
    {
      canBeTrue, canBeFalse := Parse();
      SkipToSeparator();
      hide ParseOf;
      hide SkipArgument;
      if index < |tokens| && tokens[index] == COMMA {
        assert tokens[index..][1..] == tokens[index + 1..];
        index := index + 1;
      }
    }
  }

  function Continued(children: seq<Flags>, rest: seq<string>): (seq<Flags>, seq<string>) {
    (children + ParseChildrenOf(rest).0, ParseChildrenOf(rest).1)
  }

  lemma ChildrenSoFar(none: seq<Flags>, rest: seq<string>)
    requires none == []
    ensures Continued(none, rest) == ParseChildrenOf(rest)
  {
    assert [] + ParseChildrenOf(rest).0 == ParseChildrenOf(rest).0;
  }

  lemma NextChild(children: seq<Flags>, rest: seq<string>, child: Flags, behind: seq<string>)
    requires rest != [] && rest[0] != SHUT
    requires child == ParseOf(rest).0 && behind == DropComma(SkipArgument(ParseOf(rest).1))
    ensures Continued(children, rest) == Continued(children + [child], behind)
  {
    hide ParseOf;
    hide SkipArgument;
    hide DropComma;
    assert children + ([child] + ParseChildrenOf(behind).0) == children + [child] + ParseChildrenOf(behind).0;
  }

  lemma LastChild(children: seq<Flags>, rest: seq<string>)
    requires rest == [] || rest[0] == SHUT
    ensures Continued(children, rest) == (children, rest)
  {
    assert children + [] == children;
  }

  // ------------------------------------------------------- it consumes the tree

  /** The flags a tree deserves by its structure. */
  function FlagsOf(t: Cfg): Flags
    decreases t
  {
    match t
    case Atom(_, name, _) => if name == "test" then (false, true) else (true, true)
    case All(children, _) => (AllFirst(FlagsOfList(children)), AnySecond(FlagsOfList(children)))
    case Any(children, _) => (AnyFirst(FlagsOfList(children)), AllSecond(FlagsOfList(children)))
    case Not(child, _) => (FlagsOf(child).1, FlagsOf(child).0)
    case Other(_, _, _, _) => (true, true)
  }

  function FlagsOfList(ts: seq<Cfg>): (r: seq<Flags>)
    ensures |r| == |ts|
    decreases ts
  {
    if ts == [] then [] else [FlagsOf(ts[0])] + FlagsOfList(ts[1..])
  }

  predicate Stops(rest: seq<string>) { rest == [] || rest[0] == COMMA || rest[0] == SHUT }

  lemma ParseNamed(name: string, body: seq<string>, rest: seq<string>, children: seq<Flags>)
    requires ParseChildrenOf(body + ([SHUT] + rest)) == (children, [SHUT] + rest)
    ensures ParseOf([name, OPEN] + body + [SHUT] + rest) == (Combine(name, children), rest)
  {
    var all := [name, OPEN] + body + [SHUT] + rest;
    assert all[0] == name && all[1..][0] == OPEN && all[1..][1..] == body + ([SHUT] + rest);
    assert ([SHUT] + rest)[1..] == rest;
    hide ParseChildrenOf;
    hide Combine;
  }

  lemma SeparatorsDiffer()
    ensures OPEN != SHUT && OPEN != COMMA && SHUT != COMMA
    ensures "=" != OPEN && "=" != SHUT && "=" != COMMA
  {
    assert OPEN[0] != SHUT[0] && OPEN[0] != COMMA[0] && SHUT[0] != COMMA[0];
    assert "="[0] != OPEN[0] && "="[0] != SHUT[0] && "="[0] != COMMA[0];
  }

  lemma ParseAtom(name: string, valued: bool, rest: seq<string>)
    requires Plain(name) && Stops(rest)
    ensures ParseOf([name] + (if valued then ["="] else []) + rest) == (if name == "test" then (false, true) else (true, true), rest)
  {
    var all := [name] + (if valued then ["="] else []) + rest;
    SeparatorsDiffer();
    if valued {
      assert all[1..] == ["="] + rest;
      assert (["="] + rest)[1..] == rest;
      assert SkipArgument(["="] + rest) == SkipArgument(rest) == rest;
    } else {
      assert all[1..] == rest;
    }
  }

  /** On the tokens of a tree the parser consumes exactly the tree and returns its flags. */
  lemma {:induction false} ParseConsumesTree(t: Cfg, rest: seq<string>)
    requires WellFormed(t) && Stops(rest)
    ensures ParseOf(Print(t) + rest) == (FlagsOf(t), rest)
    decreases t, 4
  {
    hide ParseOf;
    hide ParseChildrenOf;
    match t
    case Atom(_, name, valued) => ParseAtom(name, valued, rest);
    case All(children, trailing) =>
      ParseConsumesList(children, trailing, rest);
      hide PrintList;
      ParseNamed("all", PrintList(children, trailing), rest, FlagsOfList(children));
    case Any(children, trailing) =>
      ParseConsumesList(children, trailing, rest);
      hide PrintList;
      assert "any" != "all";
      ParseNamed("any", PrintList(children, trailing), rest, FlagsOfList(children));
    case Not(child, trailing) =>
      ParseConsumesNot(child, trailing, rest);
    case Other(_, name, arguments, trailing) =>
      ParseConsumesList(arguments, trailing, rest);
      hide PrintList;
      ParseNamed(name, PrintList(arguments, trailing), rest, FlagsOfList(arguments));
  }

  lemma {:induction false} ParseConsumesNot(child: Cfg, trailing: bool, rest: seq<string>)
    requires WellFormed(child) && Stops(rest)
    ensures ParseOf(Print(Not(child, trailing)) + rest) == ((FlagsOf(child).1, FlagsOf(child).0), rest)
    decreases child, 6
  {
    var end := [SHUT] + rest;
    ParseConsumesChild(child, trailing, end);
    assert ParseChildrenOf(end) == ([], end);
    hide ParseOf;
    hide ParseChildrenOf;
    var body := Print(child) + (if trailing then [COMMA] else []);
    assert [FlagsOf(child)] + [] == [FlagsOf(child)];
    PrintNot(child, trailing);
    CombineNot(FlagsOf(child));
    hide *;
    ParseNamed("not", body, rest, [FlagsOf(child)]);
  }

  lemma PrintNot(child: Cfg, trailing: bool)
    ensures Print(Not(child, trailing)) == ["not", OPEN] + (Print(child) + (if trailing then [COMMA] else [])) + [SHUT]
  {
    assert ["not", OPEN] + Print(child) + (if trailing then [COMMA] else [])
        == ["not", OPEN] + (Print(child) + (if trailing then [COMMA] else []));
  }

  lemma CombineNot(child: Flags)
    ensures Combine("not", [child]) == (child.1, child.0)
  {
    assert "not"[0] == 'n' && "all"[0] == 'a' && "any"[0] == 'a';
  }

  /** A child, with the comma behind it if there is one, in front of what its siblings parse to. */
  lemma {:induction false} ParseConsumesChild(child: Cfg, comma: bool, rest: seq<string>)
    requires WellFormed(child) && rest != [] && (comma || rest[0] == SHUT)
    ensures ParseChildrenOf(Print(child) + (if comma then [COMMA] else []) + rest)
         == ([FlagsOf(child)] + ParseChildrenOf(rest).0, ParseChildrenOf(rest).1)
    decreases child, 5
  {
    var behind := (if comma then [COMMA] else []) + rest;
    var all := Print(child) + (if comma then [COMMA] else []) + rest;
    assert all == Print(child) + behind;
    ParseConsumesTree(child, behind);
    PrintOpens(child);
    assert SkipArgument(behind) == behind;
    assert DropComma(behind) == rest by { if comma { assert behind[1..] == rest; } else { assert behind == rest; } }
    hide ParseOf;
  }

  lemma PrintOpens(t: Cfg)
    requires WellFormed(t)
    ensures Plain(Print(t)[0])
  {
  }

  lemma {:induction false} ParseConsumesList(ts: seq<Cfg>, trailing: bool, rest: seq<string>)
    requires AllWellFormed(ts)
    ensures ParseChildrenOf(PrintList(ts, trailing) + ([SHUT] + rest)) == (FlagsOfList(ts), [SHUT] + rest)
    decreases ts, 0
  {
    var end := [SHUT] + rest;
    if ts == [] {
      assert PrintList(ts, trailing) + end == end;
    } else {
      var comma := |ts| > 1 || trailing;
      var more := PrintList(ts[1..], trailing) + end;
      assert PrintList(ts, trailing) + end == Print(ts[0]) + (if comma then [COMMA] else []) + more;
      if |ts| == 1 { assert more == end; }
      ParseConsumesList(ts[1..], trailing, rest);
      ParseConsumesChild(ts[0], comma, more);
    }
  }

  // -------------------------------------------------------- soundness, exactness

  /** The valued predicates called `test`, which the parser takes for the bare one. */
  function Misread(t: Cfg): set<Id>
    decreases t
  {
    match t
    case Atom(id, name, valued) => if name == "test" && valued then {id} else {}
    case All(children, _) => AllMisread(children)
    case Any(children, _) => AllMisread(children)
    case Not(child, _) => Misread(child)
    case Other(_, _, _, _) => {}
  }

  function AllMisread(ts: seq<Cfg>): set<Id>
    decreases ts
  {
    if ts == [] then {} else Misread(ts[0]) + AllMisread(ts[1..])
  }

  /** The flags a tree would get if only the bare `test` were taken for it. */
  function TrueFlags(t: Cfg): Flags
    decreases t
  {
    match t
    case Atom(id, _, _) => if id == TEST then (false, true) else (true, true)
    case All(children, _) => (AllFirst(TrueFlagsOfList(children)), AnySecond(TrueFlagsOfList(children)))
    case Any(children, _) => (AnyFirst(TrueFlagsOfList(children)), AllSecond(TrueFlagsOfList(children)))
    case Not(child, _) => (TrueFlags(child).1, TrueFlags(child).0)
    case Other(_, _, _, _) => (true, true)
  }

  function TrueFlagsOfList(ts: seq<Cfg>): (r: seq<Flags>)
    ensures |r| == |ts|
    decreases ts
  {
    if ts == [] then [] else [TrueFlags(ts[0])] + TrueFlagsOfList(ts[1..])
  }

  /** Where nothing is misread the parser's flags are the true ones. */
  lemma {:induction false} FlagsAreTrue(t: Cfg)
    requires WellFormed(t) && Misread(t) == {}
    ensures FlagsOf(t) == TrueFlags(t)
    decreases t, 1
  {
    match t
    case Atom(_, _, _) =>
    case All(children, _) => ListFlagsAreTrue(children);
    case Any(children, _) => ListFlagsAreTrue(children);
    case Not(child, _) => FlagsAreTrue(child);
    case Other(_, _, _, _) =>
  }

  lemma {:induction false} ListFlagsAreTrue(ts: seq<Cfg>)
    requires AllWellFormed(ts) && AllMisread(ts) == {}
    ensures FlagsOfList(ts) == TrueFlagsOfList(ts)
    decreases ts, 0
  {
    if ts != [] {
      FlagsAreTrue(ts[0]);
      ListFlagsAreTrue(ts[1..]);
    }
  }

  /** Whatever holds besides `test`: a value the tree takes is a value its true flags allow. */
  lemma {:induction false} FlagsAreSound(t: Cfg, holds: set<Id>)
    requires WellFormed(t) && TEST !in holds
    ensures if Eval(t, holds) then TrueFlags(t).0 else TrueFlags(t).1
    decreases t, 1
  {
    match t
    case Atom(_, _, _) =>
    case All(children, _) => ListFlagsAreSound(children, holds);
    case Any(children, _) => ListFlagsAreSound(children, holds);
    case Not(child, _) => FlagsAreSound(child, holds);
    case Other(_, _, _, _) =>
  }

  lemma {:induction false} ListFlagsAreSound(ts: seq<Cfg>, holds: set<Id>)
    requires AllWellFormed(ts) && TEST !in holds
    ensures if EvalAll(ts, holds) then AllFirst(TrueFlagsOfList(ts)) else AnySecond(TrueFlagsOfList(ts))
    ensures if EvalAny(ts, holds) then AnyFirst(TrueFlagsOfList(ts)) else AllSecond(TrueFlagsOfList(ts))
    decreases ts, 0
  {
    if ts != [] {
      FlagsAreSound(ts[0], holds);
      ListFlagsAreSound(ts[1..], holds);
      assert TrueFlagsOfList(ts)[1..] == TrueFlagsOfList(ts[1..]);
    }
  }

  /** The predicates a tree mentions, `test` apart. */
  function Atoms(t: Cfg): set<Id>
    decreases t
  {
    match t
    case Atom(id, _, _) => {id} - {TEST}
    case All(children, _) => AtomsOfList(children)
    case Any(children, _) => AtomsOfList(children)
    case Not(child, _) => Atoms(child)
    case Other(id, _, _, _) => {id}
  }

  function AtomsOfList(ts: seq<Cfg>): set<Id>
    decreases ts
  {
    if ts == [] then {} else Atoms(ts[0]) + AtomsOfList(ts[1..])
  }

  predicate ReadOnce(t: Cfg)
    decreases t
  {
    match t
    case Atom(_, _, _) => true
    case All(children, _) => ListReadOnce(children)
    case Any(children, _) => ListReadOnce(children)
    case Not(child, _) => ReadOnce(child)
    case Other(_, _, _, _) => true
  }

  predicate ListReadOnce(ts: seq<Cfg>)
    decreases ts
  {
    ts == [] || (ReadOnce(ts[0]) && ListReadOnce(ts[1..]) && Atoms(ts[0]) !! AtomsOfList(ts[1..]))
  }

  /** A tree looks only at its own predicates. */
  lemma {:induction false} EvalIsLocal(t: Cfg, a: set<Id>, b: set<Id>)
    requires WellFormed(t) && TEST !in a && TEST !in b && forall x :: x in Atoms(t) ==> (x in a <==> x in b)
    ensures Eval(t, a) == Eval(t, b)
    decreases t, 1
  {
    match t
    case Atom(_, _, _) =>
    case All(children, _) => EvalListIsLocal(children, a, b);
    case Any(children, _) => EvalListIsLocal(children, a, b);
    case Not(child, _) => EvalIsLocal(child, a, b);
    case Other(_, _, _, _) =>
  }

  lemma {:induction false} EvalListIsLocal(ts: seq<Cfg>, a: set<Id>, b: set<Id>)
    requires AllWellFormed(ts) && TEST !in a && TEST !in b && forall x :: x in AtomsOfList(ts) ==> (x in a <==> x in b)
    ensures EvalAll(ts, a) == EvalAll(ts, b) && EvalAny(ts, a) == EvalAny(ts, b)
    decreases ts, 0
  {
    if ts != [] {
      EvalIsLocal(ts[0], a, b);
      EvalListIsLocal(ts[1..], a, b);
    }
  }

  /** On read-once trees the true flags are exact: each value they allow is taken for some choice of
      the other predicates. */
  lemma {:induction false} FlagsAreExact(t: Cfg, value: bool) returns (holds: set<Id>)
    requires WellFormed(t) && ReadOnce(t) && (if value then TrueFlags(t).0 else TrueFlags(t).1)
    ensures holds <= Atoms(t) && TEST !in holds && Eval(t, holds) == value
    decreases t, 1
  {
    match t
    case Atom(id, name, valued) => holds := if value then {id} else {};
    case All(children, _) =>
      if value { holds := AllCanBe(children, true); } else { holds := SomeCanBe(children, false); }
    case Any(children, _) =>
      if value { holds := SomeCanBe(children, true); } else { holds := AllCanBe(children, false); }
    case Not(child, _) => holds := FlagsAreExact(child, !value);
    case Other(id, _, _, _) => holds := if value then {id} else {};
  }

  /** Every child takes the value at once: their predicates are disjoint. */
  lemma {:induction false} AllCanBe(ts: seq<Cfg>, value: bool) returns (holds: set<Id>)
    requires AllWellFormed(ts) && ListReadOnce(ts)
    requires if value then AllFirst(TrueFlagsOfList(ts)) else AllSecond(TrueFlagsOfList(ts))
    ensures holds <= AtomsOfList(ts) && TEST !in holds
    ensures if value then EvalAll(ts, holds) else !EvalAny(ts, holds)
    decreases ts, 0
  {
    holds := {};
    if ts != [] {
      assert TrueFlagsOfList(ts)[1..] == TrueFlagsOfList(ts[1..]);
      var first := FlagsAreExact(ts[0], value);
      var more := AllCanBe(ts[1..], value);
      holds := first + more;
      EvalIsLocal(ts[0], first, holds);
      EvalListIsLocal(ts[1..], more, holds);
    }
  }

  /** One child that can take the value decides. */
  lemma {:induction false} SomeCanBe(ts: seq<Cfg>, value: bool) returns (holds: set<Id>)
    requires AllWellFormed(ts) && ListReadOnce(ts)
    requires if value then AnyFirst(TrueFlagsOfList(ts)) else AnySecond(TrueFlagsOfList(ts))
    ensures holds <= AtomsOfList(ts) && TEST !in holds
    ensures if value then EvalAny(ts, holds) else !EvalAll(ts, holds)
    decreases ts, 0
  {
    assert TrueFlagsOfList(ts)[1..] == TrueFlagsOfList(ts[1..]);
    if (if value then TrueFlags(ts[0]).0 else TrueFlags(ts[0]).1) {
      holds := FlagsAreExact(ts[0], value);
    } else {
      holds := SomeCanBe(ts[1..], value);
    }
  }

  /** Reading twice loses exactness: this tree is never true, yet flagged as possibly true. */
  lemma ReadTwiceIsInexact(a: Id, holds: set<Id>)
    requires a != TEST
    ensures var unix := Atom(a, "unix", false); var t := All([unix, Not(unix, false)], false);
      WellFormed(t) && FlagsOf(t).0 && !Eval(t, holds)
  {
    var unix := Atom(a, "unix", false);
    var second := Not(unix, false);
    var cs := [unix, second];
    assert cs[1..] == [second] && [second][1..] == [];
    PlainUnix();
    assert WellFormed(unix) && WellFormed(second);
    assert AllWellFormed([second]) by { assert AllWellFormed([second][1..]); }
    assert AllWellFormed(cs);
    assert FlagsOf(unix) == (true, true) && FlagsOf(second) == (true, true);
    assert FlagsOfList([second]) == [(true, true)] + FlagsOfList([]);
    assert FlagsOfList(cs) == [(true, true), (true, true)];
    assert [(true, true), (true, true)][1..] == [(true, true)];
    assert EvalAll(cs, holds) == (Eval(unix, holds) && EvalAll([second], holds));
    assert EvalAll([second], holds) == (Eval(second, holds) && EvalAll([], holds));
  }

  lemma PlainUnix()
    ensures Plain("unix") && "unix" != "test"
  {
    assert "unix"[0] == 'u' && "test"[0] == 't' && OPEN[0] == '(' && SHUT[0] == ')' && COMMA[0] == ',';
  }

  /** A valued predicate called `test` is taken for the bare one: the item is treated as test-only
      although it is compiled whenever that value is set. */
  lemma ValuedTestIsMisread(a: Id)
    requires a != TEST
    ensures var t := Atom(a, "test", true);
      WellFormed(t) && ParseOf(Print(t)) == ((false, true), []) && Eval(t, {a}) && TEST !in {a}
      && !FlagsOf(t).0 && TrueFlags(t).0
  {
    ParseAtom("test", true, []);
    assert Print(Atom(a, "test", true)) + [] == Print(Atom(a, "test", true));
  }

  // --------------------------------------------- which attributes gate test builds

  /** The offset in `rest` of the parenthesis that closes `depth` open ones. */
  function CloserIn(rest: seq<string>, opener: string, closer: string, depth: int): (r: Option<nat>)
    ensures r.Some? ==> r.value < |rest|
  {
    if rest == [] then None
    else if rest[0] == opener then Later(CloserIn(rest[1..], opener, closer, depth + 1))
    else if rest[0] == closer then
      if depth == 1 then Some(0) else Later(CloserIn(rest[1..], opener, closer, depth - 1))
    else Later(CloserIn(rest[1..], opener, closer, depth))
  }

  /** The index of the matching closer, or of the last token when there is none. */
  method Matching(tokens: seq<string>, start: nat, opener: string, closer: string) returns (index: int)
    requires opener != closer && start <= |tokens|
    ensures var found := CloserIn(tokens[start..], opener, closer, 0);
      index == if found.Some? then start + found.value else |tokens| - 1
  {
    var depth := 0;
    ghost var goal := CloserIn(tokens[start..], opener, closer, 0);
    assert goal == Beyond(0, goal);
    var i := start;
    while i < |tokens|
      invariant start <= i <= |tokens| && goal == Beyond(i - start, CloserIn(tokens[i..], opener, closer, depth))
    {
      CloserNext(tokens, i, opener, closer, depth, i - start);
      if tokens[i] == opener {
        depth := depth + 1;
      } else if tokens[i] == closer {
        depth := depth - 1;
        if depth == 0 { return i; }
      }
      i := i + 1;
    }
    index := |tokens| - 1;
  }

  lemma CloserNext(tokens: seq<string>, i: nat, opener: string, closer: string, depth: int, n: nat)
    requires i < |tokens| && opener != closer
    ensures Beyond(n, CloserIn(tokens[i..], opener, closer, depth))
      == if tokens[i] == opener then Beyond(n + 1, CloserIn(tokens[i + 1..], opener, closer, depth + 1))
         else if tokens[i] == closer then
           (if depth == 1 then Some(n) else Beyond(n + 1, CloserIn(tokens[i + 1..], opener, closer, depth - 1)))
         else Beyond(n + 1, CloserIn(tokens[i + 1..], opener, closer, depth))
  {
    assert tokens[i..][1..] == tokens[i + 1..];
  }

  /** `attribute` is `# [ ... ]`; only `cfg(...)` gates an item, never `cfg_attr(...)`. */
  method IsTestOnlyCfg(attribute: seq<string>) returns (testOnly: bool)
    ensures testOnly == TestOnly(attribute)
  {
    var inner := Inner(attribute);
    if |inner| < 3 || inner[0] != "cfg" || inner[1] != OPEN { return false; }
    SeparatorsDiffer();
    var close := Matching(inner, 1, OPEN, SHUT);
    var argument := if close < 2 then [] else inner[2..close];
    var parser := new Parser(argument);
    assert argument[0..] == argument;
    var canBeTrue, canBeFalse := parser.Parse();
    testOnly := !canBeTrue;
  }

  function Inner(attribute: seq<string>): seq<string> {
    if |attribute| < 3 then [] else attribute[2..|attribute| - 1]
  }

  function TestOnly(attribute: seq<string>): bool {
    var inner := Inner(attribute);
    if |inner| < 3 || inner[0] != "cfg" || inner[1] != OPEN then false else
    var found := CloserIn(inner[1..], OPEN, SHUT, 0);
    var close := if found.Some? then 1 + found.value else |inner| - 1;
    !ParseOf(if close < 2 then [] else inner[2..close]).0.0
  }

  /** A printed tree is balanced: it leaves any depth as it was. */
  lemma {:induction false} CloserBehindTree(t: Cfg, rest: seq<string>, depth: int)
    requires WellFormed(t) && depth >= 1
    ensures CloserIn(Print(t) + rest, OPEN, SHUT, depth) == Beyond(|Print(t)|, CloserIn(rest, OPEN, SHUT, depth))
    decreases t, 1
  {
    SeparatorsDiffer();
    match t
    case Atom(_, name, valued) => CloserBehindAtom(name, valued, rest, depth);
    case All(children, trailing) =>
      CloserBehindList(children, trailing, [SHUT] + rest, depth + 1);
      hide PrintList;
      NamesDiffer();
      CloserBehindParens("all", PrintList(children, trailing), rest, depth);
    case Any(children, trailing) =>
      CloserBehindList(children, trailing, [SHUT] + rest, depth + 1);
      hide PrintList;
      NamesDiffer();
      CloserBehindParens("any", PrintList(children, trailing), rest, depth);
    case Not(child, trailing) =>
      CloserBehindChild(child, trailing, [SHUT] + rest, depth + 1);
      NamesDiffer();
      PrintNot(child, trailing);
      CloserBehindParens("not", Print(child) + (if trailing then [COMMA] else []), rest, depth);
    case Other(_, name, arguments, trailing) =>
      CloserBehindList(arguments, trailing, [SHUT] + rest, depth + 1);
      hide PrintList;
      CloserBehindParens(name, PrintList(arguments, trailing), rest, depth);
  }

  lemma NamesDiffer()
    ensures Plain("all") && Plain("any") && Plain("not")
  {
    assert "all"[0] == 'a' && "any"[0] == 'a' && "not"[0] == 'n' && OPEN[0] == '(' && SHUT[0] == ')' && COMMA[0] == ',';
  }

  lemma CloserBehindAtom(name: string, valued: bool, rest: seq<string>, depth: int)
    requires Plain(name)
    ensures var atom := [name] + (if valued then ["="] else []);
      CloserIn(atom + rest, OPEN, SHUT, depth) == Beyond(|atom|, CloserIn(rest, OPEN, SHUT, depth))
  {
    SeparatorsDiffer();
    if valued {
      var all := [name] + ["="] + rest;
      assert all[1..] == ["="] + rest && all[1..][1..] == rest;
      assert CloserIn(all[1..], OPEN, SHUT, depth) == Later(CloserIn(rest, OPEN, SHUT, depth));
    } else {
      var all := [name] + [] + rest;
      assert all[1..] == rest;
    }
  }

  lemma CloserBehindParens(name: string, body: seq<string>, rest: seq<string>, depth: int)
    requires Plain(name) && depth >= 1
    requires CloserIn(body + ([SHUT] + rest), OPEN, SHUT, depth + 1) == Beyond(|body|, CloserIn([SHUT] + rest, OPEN, SHUT, depth + 1))
    ensures CloserIn([name, OPEN] + body + [SHUT] + rest, OPEN, SHUT, depth)
         == Beyond(|[name, OPEN] + body + [SHUT]|, CloserIn(rest, OPEN, SHUT, depth))
  {
    SeparatorsDiffer();
    var all, end := [name, OPEN] + body + [SHUT] + rest, [SHUT] + rest;
    assert all[1..][1..] == body + end && end[1..] == rest;
    assert CloserIn(end, OPEN, SHUT, depth + 1) == Later(CloserIn(rest, OPEN, SHUT, depth));
    assert CloserIn(all[1..], OPEN, SHUT, depth) == Later(CloserIn(body + end, OPEN, SHUT, depth + 1));
    assert CloserIn(all, OPEN, SHUT, depth) == Later(CloserIn(all[1..], OPEN, SHUT, depth));
    hide CloserIn;
  }

  lemma {:induction false} CloserBehindChild(child: Cfg, comma: bool, rest: seq<string>, depth: int)
    requires WellFormed(child) && depth >= 1
    ensures var printed := Print(child) + (if comma then [COMMA] else []);
      CloserIn(printed + rest, OPEN, SHUT, depth) == Beyond(|printed|, CloserIn(rest, OPEN, SHUT, depth))
    decreases child, 2
  {
    SeparatorsDiffer();
    var end := (if comma then [COMMA] else []) + rest;
    assert Print(child) + (if comma then [COMMA] else []) + rest == Print(child) + end;
    CloserBehindTree(child, end, depth);
    if comma {
      assert end[1..] == rest;
      assert CloserIn(end, OPEN, SHUT, depth) == Later(CloserIn(rest, OPEN, SHUT, depth));
    } else {
      assert end == rest;
    }
    hide CloserIn;
  }

  lemma BeyondBoth(n: nat, m: nat, r: Option<nat>)
    ensures Beyond(n, Beyond(m, r)) == Beyond(n + m, r)
  {
  }

  lemma {:induction false} CloserBehindList(ts: seq<Cfg>, trailing: bool, rest: seq<string>, depth: int)
    requires AllWellFormed(ts) && depth >= 1
    ensures CloserIn(PrintList(ts, trailing) + rest, OPEN, SHUT, depth)
         == Beyond(|PrintList(ts, trailing)|, CloserIn(rest, OPEN, SHUT, depth))
    decreases ts, 0
  {
    hide *;
    if ts == [] {
      NoListTexts(ts, trailing, rest, CloserIn(rest, OPEN, SHUT, depth));
    } else {
      var comma := |ts| > 1 || trailing;
      var first, more := Print(ts[0]) + (if comma then [COMMA] else []), PrintList(ts[1..], trailing);
      ListTexts(ts, trailing, rest);
      ListRest(ts);
      CloserBehindChild(ts[0], comma, more + rest, depth);
      CloserBehindList(ts[1..], trailing, rest, depth);
      BeyondBoth(|first|, |more|, CloserIn(rest, OPEN, SHUT, depth));
    }
  }

  lemma ListRest(ts: seq<Cfg>)
    requires AllWellFormed(ts) && ts != []
    ensures WellFormed(ts[0]) && AllWellFormed(ts[1..])
  {
  }

  lemma NoListTexts(ts: seq<Cfg>, trailing: bool, rest: seq<string>, closer: Option<nat>)
    requires ts == []
    ensures PrintList(ts, trailing) + rest == rest && closer == Beyond(|PrintList(ts, trailing)|, closer)
  {
  }

  lemma ListTexts(ts: seq<Cfg>, trailing: bool, rest: seq<string>)
    requires ts != []
    ensures var first, more := Print(ts[0]) + (if |ts| > 1 || trailing then [COMMA] else []), PrintList(ts[1..], trailing);
      && PrintList(ts, trailing) + rest == first + (more + rest)
      && |PrintList(ts, trailing)| == |first| + |more|
  {
    var first, more := Print(ts[0]) + (if |ts| > 1 || trailing then [COMMA] else []), PrintList(ts[1..], trailing);
    assert PrintList(ts, trailing) == first + more;
    hide *;
    Regroup(first, more, rest);
  }

  function CfgAttribute(t: Cfg, trailing: bool): seq<string> {
    ["#", "[", "cfg", OPEN] + (Print(t) + (if trailing then [COMMA] else [])) + [SHUT, "]"]
  }

  /** The parenthesis behind the printed tree is the one that closes the attribute's argument. */
  lemma ArgumentEnds(t: Cfg, trailing: bool)
    requires WellFormed(t)
    ensures var printed := Print(t) + (if trailing then [COMMA] else []);
      CloserIn([OPEN] + (printed + [SHUT]), OPEN, SHUT, 0) == Some(|printed| + 1)
  {
    SeparatorsDiffer();
    var printed := Print(t) + (if trailing then [COMMA] else []);
    assert ([OPEN] + (printed + [SHUT]))[1..] == printed + [SHUT];
    CloserBehindChild(t, trailing, [SHUT], 1);
    assert CloserIn([SHUT], OPEN, SHUT, 1) == Some(0);
    hide Print;
  }

  /** On a `#[cfg(...)]` attribute the check decides by the flags of the tree. */
  lemma AttributeReadsTree(t: Cfg, trailing: bool)
    requires WellFormed(t)
    ensures TestOnly(CfgAttribute(t, trailing)) == !FlagsOf(t).0
  {
    hide *;
    var printed := Print(t) + (if trailing then [COMMA] else []);
    InnerOfAttribute(t, trailing);
    ArgumentEnds(t, trailing);
    TestOnlyReads(CfgAttribute(t, trailing), printed);
    ParseConsumesTree(t, if trailing then [COMMA] else []);
  }

  lemma InnerOfAttribute(t: Cfg, trailing: bool)
    ensures Inner(CfgAttribute(t, trailing)) == ["cfg", OPEN] + (Print(t) + (if trailing then [COMMA] else [])) + [SHUT]
    ensures Stops(if trailing then [COMMA] else [])
  {
    hide Print;
  }

  lemma TestOnlyReads(attribute: seq<string>, printed: seq<string>)
    requires Inner(attribute) == ["cfg", OPEN] + printed + [SHUT]
    requires CloserIn([OPEN] + (printed + [SHUT]), OPEN, SHUT, 0) == Some(|printed| + 1)
    ensures TestOnly(attribute) == !ParseOf(printed).0.0
  {
    var inner := Inner(attribute);
    assert inner[1..] == [OPEN] + (printed + [SHUT]);
    assert inner[2..|printed| + 2] == printed;
    hide Inner;
    hide CloserIn;
    hide ParseOf;
  }

  /** An item the check ignores is never compiled into a build without `test`, unless the parser's
      flags allow no truth where the true flags do; and where the condition mentions nothing twice,
      that exception is exactly when it goes wrong. Likewise, on such a condition, an item that is
      never compiled without `test` is missed exactly when the flags err the other way. */
  lemma TestOnlyMeans(t: Cfg, trailing: bool)
    requires WellFormed(t)
    ensures var never := forall holds: set<Id> :: TEST !in holds ==> !Eval(t, holds);
      var verdict := TestOnly(CfgAttribute(t, trailing));
      && (FlagsOf(t).0 || !TrueFlags(t).0 ==> (verdict ==> never))
      && (ReadOnce(t) ==> ((verdict ==> never) <==> (FlagsOf(t).0 || !TrueFlags(t).0)))
      && (ReadOnce(t) ==> ((never ==> verdict) <==> (TrueFlags(t).0 || !FlagsOf(t).0)))
      && (Misread(t) == {} ==> FlagsOf(t) == TrueFlags(t))
  {
    AttributeReadsTree(t, trailing);
    hide TestOnly;
    if Misread(t) == {} { FlagsAreTrue(t); }
    forall holds: set<Id> | TEST !in holds && !TrueFlags(t).0 ensures !Eval(t, holds) { FlagsAreSound(t, holds); }
    if ReadOnce(t) && TrueFlags(t).0 {
      var holds := FlagsAreExact(t, true);
      assert Eval(t, holds);
    }
  }

  /** A misreading need not do harm: `all(test, test = "x")` is ignored, and rightly. */
  lemma MisreadingMayBeHarmless(a: Id)
    requires a != TEST
    ensures var t := All([Atom(TEST, "test", false), Atom(a, "test", true)], false);
      Misread(t) == {a} && !FlagsOf(t).0 && !TrueFlags(t).0
  {
    var cs := [Atom(TEST, "test", false), Atom(a, "test", true)];
    assert cs[1..] == [cs[1]] && cs[1..][1..] == [];
    assert FlagsOfList(cs)[0] == (false, true) && TrueFlagsOfList(cs)[0] == (false, true);
    assert Misread(cs[0]) == {} && Misread(cs[1]) == {a};
    assert AllMisread(cs[1..]) == {a} && AllMisread(cs) == {a};
  }
}
