/** What the renderer writes, and the small string builders it writes with:
    the chunks of the output sink, strings.Join, tagWithAttributes and the
    decimal rendering of fmt's %d verb. */
module Markup {

  /** One write to the output sink: a string (outs/out), or the line break `cr`
      asks for (its exact bytes are decided by a helper that is not part of this model). */
  datatype Chunk = Piece(s: string) | NewLine

  /** A write of a string; an empty write leaves no trace in the stream */
  function Put(s: string): seq<Chunk> {
    if s == "" then [] else [Piece(s)]
  }

  /** The opening text on entering, the closing text on exiting */
  function OneOf(first: bool, a: string, b: string): seq<Chunk> {
    Put(if first then a else b)
  }

  /** As OneOf, with a line break before the opening text and after the closing one */
  function OneOfCr(first: bool, a: string, b: string): seq<Chunk> {
    if first then [NewLine] + Put(a) else Put(b) + [NewLine]
  }

  /** Writing `b` then `c` after `a` is writing `b + c` after it */
  lemma AppendAssoc(a: seq<Chunk>, b: seq<Chunk>, c: seq<Chunk>)
    ensures a + b + c == a + (b + c)
  {
  }

  /** The strings written, in order, line breaks dropped */
  function Pieces(cs: seq<Chunk>): seq<string> {
    if cs == [] then []
    else (if cs[0].Piece? then [cs[0].s] else []) + Pieces(cs[1..])
  }

  /** One chunk in front */
  lemma PiecesCons(c: Chunk, cs: seq<Chunk>)
    ensures Pieces([c] + cs) == (if c.Piece? then [c.s] else []) + Pieces(cs)
  {
    assert ([c] + cs)[1..] == cs;
  }

  lemma {:induction false} PiecesAppend(a: seq<Chunk>, b: seq<Chunk>)
    ensures Pieces(a + b) == Pieces(a) + Pieces(b)
  {
    if a == [] {
      assert a + b == b;
    } else {
      assert (a + b)[1..] == a[1..] + b;
      PiecesAppend(a[1..], b);
    }
  }

  /** strings.Join */
  function Join(xs: seq<string>, sep: string): string {
    if |xs| == 0 then ""
    else if |xs| == 1 then xs[0]
    else xs[0] + sep + Join(xs[1..], sep)
  }

  /** Appending one more element puts it after a separator at the end */
  lemma {:induction false} JoinAppend(xs: seq<string>, x: string, sep: string)
    requires |xs| > 0
    ensures Join(xs + [x], sep) == Join(xs, sep) + sep + x
  {
    if |xs| > 1 {
      assert (xs + [x])[1..] == xs[1..] + [x];
      JoinAppend(xs[1..], x, sep);
    }
  }

  /** tagWithAttributes (xml2/renderer.go:672-678); outTag writes the same text */
  function TagWithAttributes(name: string, attrs: seq<string>): (r: string)
    ensures |r| > |name| && r[..|name|] == name && r[|r| - 1] == '>'
    ensures r == name + ">" <==> |attrs| == 0
  {
    var s := if |attrs| > 0 then name + " " + Join(attrs, " ") else name;
    s + ">"
  }

  /** Adding one attribute at the end of the slice inserts it, after a space,
      just before the closing '>' */
  lemma TagWithAttributesAppend(name: string, attrs: seq<string>, a: string)
    ensures TagWithAttributes(name, attrs + [a])
         == TagWithAttributes(name, attrs)[..|TagWithAttributes(name, attrs)| - 1] + " " + a + ">"
  {
    var t := TagWithAttributes(name, attrs);
    if |attrs| > 0 {
      JoinAppend(attrs, a, " ");
      assert t[..|t| - 1] == name + " " + Join(attrs, " ");
    } else {
      assert [a] == attrs + [a];
      assert t[..|t| - 1] == name;
    }
  }

  function Digit(d: nat): char
    requires d < 10
  {
    "0123456789"[d]
  }

  function DigitValue(c: char): nat {
    if '0' <= c <= '9' then (c - '0') as nat else 0
  }

  /** The text fmt's %d verb prints for a non-negative integer */
  function DecimalString(n: nat): (r: string)
    ensures |r| > 0
    ensures forall i | 0 <= i < |r| :: '0' <= r[i] <= '9'
    ensures r[0] == '0' ==> n == 0
  {
    if n < 10 then [Digit(n)] else DecimalString(n / 10) + [Digit(n % 10)]
  }

  /** Reads a string of decimal digits back as a number */
  function DecimalValue(s: string): nat {
    if |s| == 0 then 0 else DecimalValue(s[..|s| - 1]) * 10 + DigitValue(s[|s| - 1])
  }

  /** %d loses nothing: the printed digits read back as the number */
  lemma {:induction false} DecimalRoundTrip(n: nat)
    ensures DecimalValue(DecimalString(n)) == n
  {
    var r := DecimalString(n);
    if n < 10 {
      assert r[..|r| - 1] == [];
    } else {
      assert r[..|r| - 1] == DecimalString(n / 10);
      DecimalRoundTrip(n / 10);
    }
  }
}
