/** Base64 as in section 4 of RFC 4648: the form in which a document's bytes sit in Redis. */
module Base64 {
  import opened Wrappers

  type Byte = b: int | 0 <= b < 256
  type Sextet = n: int | 0 <= n < 64

  function CharOf(n: Sextet): char {
    if n < 26 then ('A' as int + n) as char
    else if n < 52 then ('a' as int + (n - 26)) as char
    else if n < 62 then ('0' as int + (n - 52)) as char
    else if n == 62 then '+' else '/'
  }

  function SextetOf(c: char): Option<Sextet> {
    if 'A' <= c <= 'Z' then Some(c as int - 'A' as int)
    else if 'a' <= c <= 'z' then Some(c as int - 'a' as int + 26)
    else if '0' <= c <= '9' then Some(c as int - '0' as int + 52)
    else if c == '+' then Some(62)
    else if c == '/' then Some(63)
    else None
  }

  /** The alphabet: each sextet has one character, no other character stands for one, and none is the padding. */
  lemma AlphabetIsOneToOne(n: Sextet, c: char)
    ensures SextetOf(CharOf(n)) == Some(n) && CharOf(n) != '='
    ensures SextetOf(c) == Some(n) <==> CharOf(n) == c
  {
  }

  /** The values of the characters, as in table 1 of RFC 4648: upper case, lower case, digits, plus and slash. */
  lemma CharacterValues(n: Sextet)
    ensures CharOf(0) == 'A' && CharOf(26) == 'a' && CharOf(52) == '0' && CharOf(62) == '+' && CharOf(63) == '/'
    ensures n < 61 && n != 25 && n != 51 ==> CharOf(n + 1) as int == CharOf(n) as int + 1
  {
  }

  /** Three bytes as four sextets. */
  function Group(a: Byte, b: Byte, c: Byte): (Sextet, Sextet, Sextet, Sextet) {
    (a / 4, a % 4 * 16 + b / 16, b % 16 * 4 + c / 64, c % 64)
  }

  function Ungroup(p: Sextet, q: Sextet, r: Sextet, s: Sextet): (Byte, Byte, Byte) {
    (p * 4 + q / 16, q % 16 * 16 + r / 4, r % 4 * 64 + s)
  }

  /** A number put together from two parts, the lower one `low` wide, comes apart again. */
  lemma Apart(high: nat, part: nat, low: nat)
    requires (low == 4 || low == 16 || low == 64) && part < low
    ensures (high * low + part) / low == high && (high * low + part) % low == part
  {
  }

  lemma GroupRoundTrip(a: Byte, b: Byte, c: Byte)
    ensures var g := Group(a, b, c); Ungroup(g.0, g.1, g.2, g.3) == (a, b, c)
  {
  }

  lemma UngroupRoundTrip(p: Sextet, q: Sextet, r: Sextet, s: Sextet)
    ensures var u := Ungroup(p, q, r, s); Group(u.0, u.1, u.2) == (p, q, r, s)
  {
    Apart(p, q / 16, 4);
    Apart(q % 16, r / 4, 16);
    Apart(r % 4, s, 64);
  }

  function Encode(bs: seq<Byte>): string {
    if bs == [] then ""
    else if |bs| == 1 then
      var g := Group(bs[0], 0, 0);
      [CharOf(g.0), CharOf(g.1), '=', '=']
    else if |bs| == 2 then
      var g := Group(bs[0], bs[1], 0);
      [CharOf(g.0), CharOf(g.1), CharOf(g.2), '=']
    else
      var g := Group(bs[0], bs[1], bs[2]);
      [CharOf(g.0), CharOf(g.1), CharOf(g.2), CharOf(g.3)] + Encode(bs[3..])
  }

  /** Four characters that all stand for sextets. */
  function Quad(t: string): Option<(Byte, Byte, Byte)>
    requires |t| == 4
  {
    match (SextetOf(t[0]), SextetOf(t[1]), SextetOf(t[2]), SextetOf(t[3]))
    case (Some(p), Some(q), Some(r), Some(s)) => Some(Ungroup(p, q, r, s))
    case _ => None
  }

  /** The last four characters: one or two bytes and padding, the unused bits zero. */
  function Tail(t: string): Option<seq<Byte>>
    requires |t| == 4
  {
    if t[2] == '=' && t[3] == '=' then
      match (SextetOf(t[0]), SextetOf(t[1]))
      case (Some(p), Some(q)) => if q % 16 == 0 then Some([Ungroup(p, q, 0, 0).0]) else None
      case _ => None
    else if t[3] == '=' then
      match (SextetOf(t[0]), SextetOf(t[1]), SextetOf(t[2]))
      case (Some(p), Some(q), Some(r)) =>
        var u := Ungroup(p, q, r, 0);
        if r % 4 == 0 then Some([u.0, u.1]) else None
      case _ => None
    else
      match Quad(t)
      case Some(u) => Some([u.0, u.1, u.2])
      case None => None
  }

  /** `None` for text that is not the encoding of anything. */
  function Decode(t: string): Option<seq<Byte>> {
    if t == "" then Some([])
    else if |t| < 4 then None
    else if |t| == 4 then Tail(t)
    else
      match (Quad(t[..4]), Decode(t[4..]))
      case (Some(u), Some(rest)) => Some([u.0, u.1, u.2] + rest)
      case _ => None
  }

  lemma QuadOfGroup(a: Byte, b: Byte, c: Byte)
    ensures var g := Group(a, b, c);
            var t := [CharOf(g.0), CharOf(g.1), CharOf(g.2), CharOf(g.3)];
            Quad(t) == Some((a, b, c)) && Tail(t) == Some([a, b, c])
  {
    var g := Group(a, b, c);
    GroupRoundTrip(a, b, c);
    AlphabetIsOneToOne(g.0, '=');
    AlphabetIsOneToOne(g.1, '=');
    AlphabetIsOneToOne(g.2, '=');
    AlphabetIsOneToOne(g.3, '=');
  }

  lemma OneByteRoundTrip(a: Byte)
    ensures |Encode([a])| == 4 && Decode(Encode([a])) == Some([a])
  {
  }

  lemma TwoByteRoundTrip(a: Byte, b: Byte)
    ensures |Encode([a, b])| == 4 && Decode(Encode([a, b])) == Some([a, b])
  {
    var g := Group(a, b, 0);
    AlphabetIsOneToOne(g.0, '=');
    AlphabetIsOneToOne(g.1, '=');
    AlphabetIsOneToOne(g.2, '=');
    GroupRoundTrip(a, b, 0);
  }

  /** A group of three more bytes in front. */
  lemma GroupThenRest(a: Byte, b: Byte, c: Byte, rest: seq<Byte>)
    requires Decode(Encode(rest)) == Some(rest)
    ensures Decode(Encode([a, b, c] + rest)) == Some([a, b, c] + rest)
    ensures |Encode([a, b, c] + rest)| == 4 + |Encode(rest)|
  {
    var bs := [a, b, c] + rest;
    var g := Group(a, b, c);
    var front := [CharOf(g.0), CharOf(g.1), CharOf(g.2), CharOf(g.3)];
    QuadOfGroup(a, b, c);
    assert bs[3..] == rest;
    assert Encode(bs) == front + Encode(rest);
    assert Encode(bs)[..4] == front && Encode(bs)[4..] == Encode(rest);
    if Encode(rest) == "" {
      assert rest == [] && bs == [a, b, c];
      assert Encode(bs) == front;
    }
  }

  /** Decoding an encoding gives the bytes back, for every length and both kinds of padding. */
  lemma {:induction false} DecodeEncode(bs: seq<Byte>)
    ensures Decode(Encode(bs)) == Some(bs)
  {
    if bs == [] {
      assert Encode(bs) == "";
    } else if |bs| == 1 {
      OneByteRoundTrip(bs[0]);
      assert bs == [bs[0]];
    } else if |bs| == 2 {
      TwoByteRoundTrip(bs[0], bs[1]);
      assert bs == [bs[0], bs[1]];
    } else {
      var rest := bs[3..];
      DecodeEncode(rest);
      GroupThenRest(bs[0], bs[1], bs[2], rest);
      assert bs == [bs[0], bs[1], bs[2]] + rest;
    }
  }

  lemma EncodeOfTwoPads(t: string)
    requires |t| == 4 && t[2] == '=' && t[3] == '=' && Tail(t).Some?
    ensures Encode(Tail(t).value) == t
  {
    var p, q := SextetOf(t[0]).value, SextetOf(t[1]).value;
    AlphabetIsOneToOne(p, t[0]);
    AlphabetIsOneToOne(q, t[1]);
    UngroupRoundTrip(p, q, 0, 0);
  }

  lemma EncodeOfOnePad(t: string)
    requires |t| == 4 && t[2] != '=' && t[3] == '=' && Tail(t).Some?
    ensures Encode(Tail(t).value) == t
  {
    var p, q, r := SextetOf(t[0]).value, SextetOf(t[1]).value, SextetOf(t[2]).value;
    AlphabetIsOneToOne(p, t[0]);
    AlphabetIsOneToOne(q, t[1]);
    AlphabetIsOneToOne(r, t[2]);
    UngroupRoundTrip(p, q, r, 0);
  }

  lemma EncodeOfTail(t: string)
    requires |t| == 4 && Tail(t).Some?
    ensures Encode(Tail(t).value) == t
  {
    if t[3] != '=' {
      EncodeOfQuad(t, []);
    } else if t[2] == '=' {
      EncodeOfTwoPads(t);
    } else {
      EncodeOfOnePad(t);
    }
  }

  lemma EncodeOfQuad(t: string, rest: seq<Byte>)
    requires |t| == 4 && Quad(t).Some?
    ensures var u := Quad(t).value; Encode([u.0, u.1, u.2] + rest) == t + Encode(rest)
  {
    var p, q, r, s := SextetOf(t[0]).value, SextetOf(t[1]).value, SextetOf(t[2]).value, SextetOf(t[3]).value;
    AlphabetIsOneToOne(p, t[0]);
    AlphabetIsOneToOne(q, t[1]);
    AlphabetIsOneToOne(r, t[2]);
    AlphabetIsOneToOne(s, t[3]);
    UngroupRoundTrip(p, q, r, s);
    var u := Quad(t).value;
    assert ([u.0, u.1, u.2] + rest)[3..] == rest;
  }

  /** Text that decodes is the encoding of what it decodes to: different texts never give the same bytes. */
  lemma {:induction false} EncodeDecode(t: string)
    requires Decode(t).Some?
    ensures Encode(Decode(t).value) == t
  {
    if t == "" {
    } else if |t| == 4 {
      EncodeOfTail(t);
    } else {
      EncodeDecode(t[4..]);
      EncodeOfQuad(t[..4], Decode(t[4..]).value);
      assert t == t[..4] + t[4..];
    }
  }

  /** Test vectors of section 10 of RFC 4648, one for each padding: "f", "fo" and "foo". */
  lemma OneByteVector()
    ensures Encode([102]) == ['Z', 'g', '=', '=']
  {
    var bs: seq<Byte> := [102];
    var g := Group(102, 0, 0);
    assert g.0 == 25 && g.1 == 32;
    assert bs[0] == 102 && Encode(bs) == [CharOf(g.0), CharOf(g.1), '=', '='];
  }

  lemma TwoByteVector()
    ensures Encode([102, 111]) == ['Z', 'm', '8', '=']
  {
    assert Group(102, 111, 0) == (25, 38, 60, 0);
  }

  lemma ThreeByteVector()
    ensures Encode([102, 111, 111]) == ['Z', 'm', '9', 'v']
  {
    assert Group(102, 111, 111) == (25, 38, 61, 47);
    assert [102, 111, 111][3..] == [] && Encode([]) == "";
  }
}
