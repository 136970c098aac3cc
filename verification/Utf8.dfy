/** Well-formed UTF-8, as in section 4 of RFC 3629: its syntax, and that the texts of this syntax
    are exactly the encodings of sequences of code points. */
module Utf8 {
  type Byte = bv8
  type Bytes = seq<Byte>

  function Number(b: Byte): int { b as int }

  function Numbers(s: Bytes): (r: seq<int>)
    ensures |r| == |s| && forall i :: 0 <= i < |s| ==> r[i] == Number(s[i])
  {
    seq(|s|, i requires 0 <= i < |s| => Number(s[i]))
  }

  /** How long an encoding is, by its first byte; 0 for a byte that begins none. */
  function Lead(b: int): nat {
    if 0 <= b < 0x80 then 1 else if 0xC2 <= b < 0xE0 then 2 else if 0xE0 <= b < 0xF0 then 3 else if 0xF0 <= b < 0xF5 then 4 else 0
  }

  predicate Tail(b: int) { 0x80 <= b < 0xC0 }

  /** The syntax of one encoding. */
  predicate Syntax(ns: seq<int>) {
    && ns != [] && |ns| == Lead(ns[0]) && (forall i :: 0 < i < |ns| ==> Tail(ns[i]))
    && (ns[0] == 0xE0 ==> ns[1] >= 0xA0) && (ns[0] == 0xED ==> ns[1] < 0xA0)
    && (ns[0] == 0xF0 ==> ns[1] >= 0x90) && (ns[0] == 0xF4 ==> ns[1] < 0x90)
  }

  predicate Valid(s: Bytes)
    decreases |s|
  {
    s == [] ||
    (var n := Lead(Number(s[0])); 0 < n <= |s| && Syntax(Numbers(s[..n])) && Valid(s[n..]))
  }

  // ------------------------------------------------------------------ code points

  /** Code points without the surrogates. */
  predicate Scalar(c: int) { 0 <= c < 0x110000 && !(0xD800 <= c < 0xE000) }

  /** The numbers of the bytes that encode a code point. */
  function Encoding(c: int): (r: seq<int>)
    requires Scalar(c)
    ensures 1 <= |r| <= 4
  {
    if c < 0x80 then [c]
    else if c < 0x800 then [0xC0 + c / 0x40, 0x80 + c % 0x40]
    else if c < 0x10000 then [0xE0 + c / 0x1000, 0x80 + c / 0x40 % 0x40, 0x80 + c % 0x40]
    else [0xF0 + c / 0x40000, 0x80 + c / 0x1000 % 0x40, 0x80 + c / 0x40 % 0x40, 0x80 + c % 0x40]
  }

  /** `s` encodes these code points, one after the other. */
  predicate Encodes(s: Bytes, points: seq<int>)
    decreases |points|
  {
    if points == [] then s == [] else
    && Scalar(points[0]) && |Encoding(points[0])| <= |s|
    && Numbers(s[..|Encoding(points[0])|]) == Encoding(points[0]) && Encodes(s[|Encoding(points[0])|..], points[1..])
  }

  function Point(ns: seq<int>): int {
    match |ns|
    case 1 => ns[0]
    case 2 => (ns[0] - 0xC0) * 0x40 + (ns[1] - 0x80)
    case 3 => (ns[0] - 0xE0) * 0x1000 + (ns[1] - 0x80) * 0x40 + (ns[2] - 0x80)
    case 4 => (ns[0] - 0xF0) * 0x40000 + (ns[1] - 0x80) * 0x1000 + (ns[2] - 0x80) * 0x40 + (ns[3] - 0x80)
    case _ => 0
  }

  lemma Digits(a: int, b: int)
    requires 0 <= b < 0x40
    ensures (a * 0x40 + b) / 0x40 == a && (a * 0x40 + b) % 0x40 == b
  {
  }

  lemma Shifts(c: int)
    ensures c / 0x1000 == c / 0x40 / 0x40 && c / 0x40000 == c / 0x40 / 0x40 / 0x40
  {
  }

  /** What has the syntax encodes a code point, and what encodes one has the syntax. */
  lemma SyntaxEncodes(ns: seq<int>)
    requires Syntax(ns)
    ensures Scalar(Point(ns)) && Encoding(Point(ns)) == ns
  {
    assert forall i :: 0 < i < |ns| ==> Tail(ns[i]);
    match |ns| {
      case 1 => {}
      case 2 => { Digits(ns[0] - 0xC0, ns[1] - 0x80); }
      case 3 => { ThreeEncode(ns[0] - 0xE0, ns[1] - 0x80, ns[2] - 0x80, ns); }
      case 4 => { FourEncode(ns[0] - 0xF0, ns[1] - 0x80, ns[2] - 0x80, ns[3] - 0x80, ns); }
      case _ => {}
    }
  }

  lemma ThreeEncode(a: int, b: int, d: int, ns: seq<int>)
    requires 0 <= a < 16 && 0 <= b < 0x40 && 0 <= d < 0x40 && ns == [0xE0 + a, 0x80 + b, 0x80 + d]
    requires (a == 0 ==> b >= 0x20) && (a == 13 ==> b < 0x20)
    ensures Point(ns) == a * 0x1000 + b * 0x40 + d && Scalar(Point(ns)) && Encoding(Point(ns)) == ns
  {
    var c := a * 0x1000 + b * 0x40 + d;
    Digits(a * 0x40 + b, d);
    Digits(a, b);
    Shifts(c);
    assert c == (a * 0x40 + b) * 0x40 + d;
  }

  lemma FourEncode(a: int, b: int, d: int, e: int, ns: seq<int>)
    requires 0 <= a < 5 && 0 <= b < 0x40 && 0 <= d < 0x40 && 0 <= e < 0x40 && ns == [0xF0 + a, 0x80 + b, 0x80 + d, 0x80 + e]
    requires (a == 0 ==> b >= 0x10) && (a == 4 ==> b < 0x10)
    ensures Point(ns) == a * 0x40000 + b * 0x1000 + d * 0x40 + e && Scalar(Point(ns)) && Encoding(Point(ns)) == ns
  {
    var c := a * 0x40000 + b * 0x1000 + d * 0x40 + e;
    Digits((a * 0x40 + b) * 0x40 + d, e);
    Digits(a * 0x40 + b, d);
    Digits(a, b);
    Shifts(c);
    assert c == ((a * 0x40 + b) * 0x40 + d) * 0x40 + e;
  }

  lemma EncodingHasSyntax(c: int)
    requires Scalar(c)
    ensures Syntax(Encoding(c))
  {
  }

  // -------------------------------------------------------------------- texts

  lemma NumbersAre(s: Bytes, n: nat)
    requires n <= |s|
    ensures |Numbers(s[..n])| == n && forall i :: 0 <= i < n ==> Numbers(s[..n])[i] == Number(s[i])
  {
  }

  lemma ValidFirst(s: Bytes)
    requires s != []
    ensures var n := Lead(Number(s[0])); Valid(s) <==> 0 < n <= |s| && Syntax(Numbers(s[..n])) && Valid(s[n..])
  {
    hide Syntax;
    hide Lead;
    hide Number;
  }

  lemma EncodingLength(c: int)
    requires Scalar(c)
    ensures Encoding(c) != [] && |Encoding(c)| == Lead(Encoding(c)[0])
  {
  }

  lemma EncodesFirst(s: Bytes, points: seq<int>)
    requires points != []
    ensures Encodes(s, points) <==>
      && Scalar(points[0]) && |Encoding(points[0])| <= |s|
      && Numbers(s[..|Encoding(points[0])|]) == Encoding(points[0]) && Encodes(s[|Encoding(points[0])|..], points[1..])
  {
    hide Encoding;
    hide Numbers;
  }

  /** Encodings are well-formed ... */
  lemma {:induction false} EncodedIsValid(s: Bytes, points: seq<int>)
    requires Encodes(s, points)
    ensures Valid(s)
    decreases |points|
  {
    hide *;
    if points == [] {
      NothingEncoded(s, points);
    } else {
      EncodesFirst(s, points);
      var n := |Encoding(points[0])|;
      EncodingHasSyntax(points[0]);
      EncodingLength(points[0]);
      NumbersAre(s, n);
      EncodedIsValid(s[n..], points[1..]);
      ValidFirst(s);
    }
  }

  lemma NothingEncoded(s: Bytes, points: seq<int>)
    requires Encodes(s, points) && points == []
    ensures Valid(s)
  {
  }

  /** ... and nothing else is. */
  lemma {:induction false} ValidIsEncoded(s: Bytes) returns (points: seq<int>)
    requires Valid(s)
    ensures Encodes(s, points)
    decreases |s|
  {
    hide *;
    if s == [] {
      points := [];
      EncodesNothing(s);
    } else {
      ValidFirst(s);
      var n := Lead(Number(s[0]));
      SyntaxEncodes(Numbers(s[..n]));
      NumbersAre(s, n);
      var rest := ValidIsEncoded(s[n..]);
      points := [Point(Numbers(s[..n]))] + rest;
      assert points[1..] == rest;
      EncodesFirst(s, points);
    }
  }

  lemma EncodesNothing(s: Bytes)
    requires s == []
    ensures Encodes(s, [])
  {
  }

  /** A text is well-formed if and only if it encodes some sequence of code points. */
  lemma ValidExactly(s: Bytes)
    ensures Valid(s) <==> exists points :: Encodes(s, points)
  {
    hide *;
    if Valid(s) { var points := ValidIsEncoded(s); }
    if points :| Encodes(s, points) { EncodedIsValid(s, points); }
  }

  lemma {:induction false} AsciiIsValid(s: Bytes)
    requires forall i :: 0 <= i < |s| ==> s[i] < 0x80
    ensures Valid(s)
    decreases |s|
  {
    hide *;
    if s == [] {
      EncodesNothing(s);
      EncodedIsValid(s, []);
    } else {
      AsciiNumber(s[0]);
      NumbersAre(s, 1);
      OneByte(Numbers(s[..1]));
      AsciiIsValid(s[1..]);
      ValidFirst(s);
    }
  }

  lemma AsciiNumber(b: Byte)
    requires b < 0x80
    ensures 0 <= Number(b) < 0x80 && Lead(Number(b)) == 1
  {
  }

  lemma OneByte(ns: seq<int>)
    requires |ns| == 1 && 0 <= ns[0] < 0x80
    ensures Syntax(ns)
  {
  }
}
