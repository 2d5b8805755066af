/**
 * The standard base64 encoding of section 4 of RFC 4648, with `=` padding
 * (Go's `base64.StdEncoding`), and a decoder that serves as its inverse.
 */
module Base64 {
  import opened Prelude

  /** Table 1 of RFC 4648: the symbol for a 6-bit value. */
  function Sym(i: nat): (c: char)
    requires i < 64
  {
    if i < 26 then ('A' as int + i) as char
    else if i < 52 then ('a' as int + i - 26) as char
    else if i < 62 then ('0' as int + i - 52) as char
    else if i == 62 then '+'
    else '/'
  }

  /** The 6-bit value of an alphabet symbol; `None` for anything else, `=` included. */
  function Index(c: char): (r: Option<nat>)
    ensures r.Some? ==> r.value < 64 && Sym(r.value) == c
  {
    if 'A' <= c <= 'Z' then Some(c as int - 'A' as int)
    else if 'a' <= c <= 'z' then Some(c as int - 'a' as int + 26)
    else if '0' <= c <= '9' then Some(c as int - '0' as int + 52)
    else if c == '+' then Some(62)
    else if c == '/' then Some(63)
    else None
  }

  lemma IndexSym(i: nat)
    requires i < 64
    ensures Index(Sym(i)) == Some(i)
  {
  }

  predicate IsSymbol(c: char) {
    Index(c).Some? || c == '='
  }

  /** Encodes three bytes at a time; a final group of one or two bytes is padded with `=`. */
  function Encode(b: seq<Byte>): (s: string)
    ensures |s| == 4 * ((|b| + 2) / 3)
    decreases |b|
  {
    if |b| == 0 then ""
    else if |b| == 1 then
      [Sym(b[0] / 4), Sym((b[0] % 4) * 16), '=', '=']
    else if |b| == 2 then
      [Sym(b[0] / 4), Sym((b[0] % 4) * 16 + b[1] / 16), Sym((b[1] % 16) * 4), '=']
    else Group(b[0], b[1], b[2]) + Encode(b[3..])
  }

  /** The four symbols for a full group of three bytes. */
  function Group(x: Byte, y: Byte, z: Byte): (g: string)
    ensures |g| == 4
  {
    [Sym(x / 4), Sym((x % 4) * 16 + y / 16), Sym((y % 16) * 4 + z / 64), Sym(z % 64)]
  }

  /** An encoding is made of alphabet symbols and padding only. */
  lemma {:induction false} EncodeSymbols(b: seq<Byte>)
    ensures forall k :: 0 <= k < |Encode(b)| ==> IsSymbol(Encode(b)[k])
    decreases |b|
  {
    if |b| >= 3 {
      EncodeSymbols(b[3..]);
    }
  }

  /** Decodes one four-symbol group into one, two or three bytes. */
  function DecodeGroup(g: string): (r: Option<seq<Byte>>)
    requires |g| == 4
    ensures r.Some? ==> 1 <= |r.value| <= 3
  {
    var i0, i1, i2, i3 := Index(g[0]), Index(g[1]), Index(g[2]), Index(g[3]);
    if i0.None? || i1.None? then None
    else if g[2] == '=' && g[3] == '=' then
      Some([i0.value * 4 + i1.value / 16])
    else if i2.None? then None
    else if g[3] == '=' then
      Some([i0.value * 4 + i1.value / 16, (i1.value % 16) * 16 + i2.value / 4])
    else if i3.None? then None
    else
      Some([i0.value * 4 + i1.value / 16, (i1.value % 16) * 16 + i2.value / 4, (i2.value % 4) * 64 + i3.value])
  }

  /** Decodes padded base64; only the last group may carry padding. */
  function Decode(s: string): Option<seq<Byte>>
    decreases |s|
  {
    if s == [] then Some([])
    else if |s| < 4 then None
    else
      match DecodeGroup(s[..4])
      case None => None
      case Some(head) =>
        if |head| < 3 && |s| > 4 then None
        else
          match Decode(s[4..])
          case None => None
          case Some(tail) => Some(head + tail)
  }

  lemma SplitFirst(x: Byte, y: Byte)
    ensures ((x % 4) * 16 + y / 16) / 16 == x % 4
    ensures ((x % 4) * 16 + y / 16) % 16 == y / 16
  {
  }

  lemma SplitSecond(y: Byte, z: Byte)
    ensures ((y % 16) * 4 + z / 64) / 4 == y % 16
    ensures ((y % 16) * 4 + z / 64) % 4 == z / 64
  {
  }

  lemma DecodeOne(x: Byte)
    ensures DecodeGroup([Sym(x / 4), Sym((x % 4) * 16), '=', '=']) == Some([x])
  {
    IndexSym(x / 4);
    IndexSym((x % 4) * 16);
  }

  lemma DecodeTwo(x: Byte, y: Byte)
    ensures DecodeGroup([Sym(x / 4), Sym((x % 4) * 16 + y / 16), Sym((y % 16) * 4), '=']) == Some([x, y])
  {
    IndexSym(x / 4);
    IndexSym((x % 4) * 16 + y / 16);
    IndexSym((y % 16) * 4);
    SplitFirst(x, y);
  }

  lemma DecodeThree(x: Byte, y: Byte, z: Byte)
    ensures DecodeGroup(Group(x, y, z)) == Some([x, y, z])
  {
    IndexSym(x / 4);
    IndexSym((x % 4) * 16 + y / 16);
    IndexSym((y % 16) * 4 + z / 64);
    IndexSym(z % 64);
    SplitFirst(x, y);
    SplitSecond(y, z);
  }

  /** Decoding reads a leading group and then the rest. */
  lemma DecodeAppend(g: string, rest: string, head: seq<Byte>, tail: seq<Byte>)
    requires |g| == 4 && DecodeGroup(g) == Some(head)
    requires |head| == 3 || rest == []
    requires Decode(rest) == Some(tail)
    ensures Decode(g + rest) == Some(head + tail)
  {
    assert (g + rest)[..4] == g;
    assert (g + rest)[4..] == rest;
  }

  /** A single group decodes on its own. */
  lemma DecodeLast(g: string, head: seq<Byte>)
    requires |g| == 4 && DecodeGroup(g) == Some(head)
    ensures Decode(g) == Some(head)
  {
    assert g[..4] == g;
    assert g[4..] == [];
    assert head + [] == head;
  }

  lemma EncodeOne(b: seq<Byte>)
    requires |b| == 1
    ensures Decode(Encode(b)) == Some(b)
  {
    var g := [Sym(b[0] / 4), Sym((b[0] % 4) * 16), '=', '='];
    DecodeOne(b[0]);
    DecodeLast(g, [b[0]]);
    assert Encode(b) == g;
    assert [b[0]] == b;
  }

  lemma EncodeTwo(b: seq<Byte>)
    requires |b| == 2
    ensures Decode(Encode(b)) == Some(b)
  {
    var g := [Sym(b[0] / 4), Sym((b[0] % 4) * 16 + b[1] / 16), Sym((b[1] % 16) * 4), '='];
    DecodeTwo(b[0], b[1]);
    DecodeLast(g, [b[0], b[1]]);
    assert Encode(b) == g;
    assert [b[0], b[1]] == b;
  }

  /** A full group followed by a decodable rest decodes to the group's bytes and the rest's. */
  lemma DecodeCons(b: seq<Byte>, e: string, rest: string)
    requires |b| > 2 && e == Group(b[0], b[1], b[2]) + rest
    requires Decode(rest) == Some(b[3..])
    ensures Decode(e) == Some(b)
  {
    DecodeThree(b[0], b[1], b[2]);
    DecodeAppend(Group(b[0], b[1], b[2]), rest, [b[0], b[1], b[2]], b[3..]);
    assert [b[0], b[1], b[2]] + b[3..] == b;
  }

  lemma EncodeMore(b: seq<Byte>)
    requires |b| > 2
    requires Decode(Encode(b[3..])) == Some(b[3..])
    ensures Decode(Encode(b)) == Some(b)
  {
    EncodeStep(b);
    DecodeCons(b, Encode(b), Encode(b[3..]));
  }

  lemma EncodeStep(b: seq<Byte>)
    requires |b| > 2
    ensures Encode(b) == Group(b[0], b[1], b[2]) + Encode(b[3..])
  {
  }

  /** Round trip: decoding an encoding gives back the bytes. */
  lemma {:induction false} DecodeEncode(b: seq<Byte>)
    ensures Decode(Encode(b)) == Some(b)
    decreases |b|
  {
    if |b| == 0 {
    } else if |b| == 1 {
      EncodeOne(b);
    } else if |b| == 2 {
      EncodeTwo(b);
    } else {
      DecodeEncode(b[3..]);
      EncodeMore(b);
    }
  }

  /** No two byte strings share an encoding. */
  lemma EncodeInjective(a: seq<Byte>, b: seq<Byte>)
    requires Encode(a) == Encode(b)
    ensures a == b
  {
    DecodeEncode(a);
    DecodeEncode(b);
  }
}
