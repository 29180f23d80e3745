/** URL-safe base64 (section 5 of RFC 4648) as the audit cursor uses it: encoded, stripped of
    its padding, padded again and decoded leniently. */
module Base64 {
  import opened Wrappers

  type Byte = n: nat | n < 256
  type Sextet = n: nat | n < 64

  function Letter(n: Sextet): char {
    if n < 26 then 'A' + n as char
    else if n < 52 then 'a' + (n - 26) as char
    else if n < 62 then '0' + (n - 52) as char
    else if n == 62 then '-' else '_'
  }

  /** The decoder first turns '-' and '_' into '+' and '/', so it reads both alphabets. */
  function SextetOf(c: char): Option<Sextet> {
    if 'A' <= c <= 'Z' then Some((c - 'A') as nat)
    else if 'a' <= c <= 'z' then Some((c - 'a') as nat + 26)
    else if '0' <= c <= '9' then Some((c - '0') as nat + 52)
    else if c == '-' || c == '+' then Some(62)
    else if c == '_' || c == '/' then Some(63)
    else None
  }

  lemma LetterIsRead(n: Sextet)
    ensures SextetOf(Letter(n)) == Some(n) && Letter(n) != '=' && Letter(n) < '\U{80}'
  {
  }

  // The last group of one or two bytes, without padding.
  function Tail(bs: seq<Byte>): string
    requires |bs| < 3
  {
    if |bs| == 0 then ""
    else if |bs| == 1 then [Letter(bs[0] / 4), Letter(bs[0] % 4 * 16)]
    else [Letter(bs[0] / 4), Letter(bs[0] % 4 * 16 + bs[1] / 16), Letter(bs[1] % 16 * 4)]
  }

  function Quad(a: Byte, b: Byte, c: Byte): string {
    [Letter(a / 4), Letter(a % 4 * 16 + b / 16), Letter(b % 16 * 4 + c / 64), Letter(c % 64)]
  }

  function Pad(n: nat): string {
    if n == 0 then "" else "=" + Pad(n - 1)
  }

  function Encode(bs: seq<Byte>): string {
    if |bs| == 0 then ""
    else if |bs| < 3 then Tail(bs) + Pad(3 - |bs|)
    else Quad(bs[0], bs[1], bs[2]) + Encode(bs[3..])
  }

  function StripPadding(s: string): string {
    if s != "" && s[|s| - 1] == '=' then StripPadding(s[..|s| - 1]) else s
  }

  /** Python's `-n % 4`, which is never negative. */
  function Missing(n: nat): nat {
    (-(n as int)) % 4
  }

  function Repad(s: string): string {
    s + Pad(Missing(|s|))
  }

  // ---- the decoder: one character at a time ----------------------------------------------

  datatype Decoder = Decoder(pos: nat, left: nat, pads: nat, out: seq<Byte>, done: bool)

  ghost predicate Running(d: Decoder) {
    d.pos < 4 && d.left < (if d.pos == 0 then 1 else if d.pos == 1 then 64 else if d.pos == 2 then 16 else 4)
  }

  // Six more bits.
  function Take(d: Decoder, v: Sextet): (r: Decoder)
    requires Running(d)
    ensures Running(r)
  {
    if d.pos == 0 then Decoder(1, v, 0, d.out, false)
    else if d.pos == 1 then Decoder(2, v % 16, 0, d.out + [d.left * 4 + v / 16], false)
    else if d.pos == 2 then Decoder(3, v % 4, 0, d.out + [d.left * 16 + v / 4], false)
    else Decoder(0, 0, 0, d.out + [d.left * 64 + v], false)
  }

  /** Padding ends the input once it completes a group; characters outside the alphabet are
      skipped; everything else adds six bits. */
  function Feed(d: Decoder, c: char): (r: Decoder)
    requires Running(d)
    ensures Running(r)
  {
    if d.done then d
    else if c == '=' then
      if d.pos < 2 then d
      else if d.pos + d.pads + 1 >= 4 then d.(pads := d.pads + 1, done := true)
      else d.(pads := d.pads + 1)
    else
      var v := SextetOf(c);
      if v.None? then d else Take(d, v.value)
  }

  function Run(d: Decoder, s: string): (r: Decoder)
    requires Running(d)
    ensures Running(r)
    decreases |s|
  {
    if s == "" then d else Run(Feed(d, s[0]), s[1..])
  }

  predicate Ascii(s: string) {
    forall c :: c in s ==> c < '\U{80}'
  }

  const START := Decoder(0, 0, 0, [], false)

  /** The bytes of a string, or None where the library raises. */
  function Decode(s: string): Option<seq<Byte>> {
    var d := Run(START, s);
    if Ascii(s) && (d.done || d.pos == 0) then Some(d.out) else None
  }

  // ---- exactness --------------------------------------------------------------------------

  lemma {:induction false} RunConcat(d: Decoder, a: string, b: string)
    requires Running(d)
    ensures Run(d, a + b) == Run(Run(d, a), b)
    decreases |a|
  {
    if a == "" {
      assert a + b == b;
    } else {
      assert (a + b)[1..] == a[1..] + b;
      RunConcat(Feed(d, a[0]), a[1..], b);
    }
  }

  lemma FeedLetter(d: Decoder, v: Sextet)
    requires Running(d) && !d.done
    ensures Feed(d, Letter(v)) == Take(d, v)
  {
    LetterIsRead(v);
  }

  lemma RunFour(d: Decoder, s: string)
    requires Running(d) && |s| == 4
    ensures Run(d, s) == Feed(Feed(Feed(Feed(d, s[0]), s[1]), s[2]), s[3])
  {
    var d1 := Feed(d, s[0]);
    var d2 := Feed(d1, s[1]);
    var d3 := Feed(d2, s[2]);
    assert Run(d, s) == Run(d1, s[1..]);
    assert s[1..][1..] == s[2..] && Run(d1, s[1..]) == Run(d2, s[2..]);
    assert s[2..][1..] == s[3..] && Run(d2, s[2..]) == Run(d3, s[3..]);
    assert s[3..][1..] == "" && Run(d3, s[3..]) == Run(Feed(d3, s[3]), "");
  }

  // Two neighbouring groups of six bits give the byte back.
  lemma Regroup(a: Byte, b: Byte, c: Byte)
    ensures (a / 4) * 4 + (a % 4 * 16 + b / 16) / 16 == a && (a % 4 * 16 + b / 16) % 16 == b / 16
    ensures (b / 16) * 16 + (b % 16 * 4 + c / 64) / 4 == b && (b % 16 * 4 + c / 64) % 4 == c / 64
    ensures (c / 64) * 64 + c % 64 == c
  {
  }

  lemma QuadIsRead(a: Byte, b: Byte, c: Byte, out: seq<Byte>)
    ensures Run(Decoder(0, 0, 0, out, false), Quad(a, b, c)) == Decoder(0, 0, 0, out + [a, b, c], false)
  {
    var w, x, y, z := a / 4, a % 4 * 16 + b / 16, b % 16 * 4 + c / 64, c % 64;
    var d0 := Decoder(0, 0, 0, out, false);
    var d1 := Take(d0, w);
    var d2 := Take(d1, x);
    var d3 := Take(d2, y);
    FeedLetter(d0, w);
    FeedLetter(d1, x);
    FeedLetter(d2, y);
    FeedLetter(d3, z);
    RunFour(d0, [Letter(w), Letter(x), Letter(y), Letter(z)]);
    Regroup(a, b, c);
    assert Take(d3, z).out == out + [a] + [b] + [c] == out + [a, b, c];
  }

  lemma OneByteIsRead(a: Byte, s: string, out: seq<Byte>)
    requires |s| == 4 && s[0] == Letter(a / 4) && s[1] == Letter(a % 4 * 16) && s[2] == '=' && s[3] == '='
    ensures var d := Run(Decoder(0, 0, 0, out, false), s); d.done && d.out == out + [a]
  {
    var d0, w, x := Decoder(0, 0, 0, out, false), a / 4, a % 4 * 16;
    FeedLetter(d0, w);
    FeedLetter(Take(d0, w), x);
    Regroup(a, 0, 0);
    RunFour(d0, s);
  }

  lemma TwoBytesAreRead(a: Byte, b: Byte, s: string, out: seq<Byte>)
    requires |s| == 4 && s[0] == Letter(a / 4) && s[1] == Letter(a % 4 * 16 + b / 16)
    requires s[2] == Letter(b % 16 * 4) && s[3] == '='
    ensures var d := Run(Decoder(0, 0, 0, out, false), s); d.done && d.out == out + [a] + [b]
  {
    var d0, w, x, y := Decoder(0, 0, 0, out, false), a / 4, a % 4 * 16 + b / 16, b % 16 * 4;
    var d1 := Take(d0, w);
    var d2 := Take(d1, x);
    FeedLetter(d0, w);
    FeedLetter(d1, x);
    FeedLetter(d2, y);
    Regroup(a, b, 0);
    RunFour(d0, s);
  }

  lemma Pads()
    ensures Pad(1) == ['='] && Pad(2) == ['=', '=']
  {
    assert Pad(1) == "=" + Pad(0) && Pad(2) == "=" + Pad(1);
  }

  // The last group with its padding, as a string to be read.
  predicate LastGroup(s: string, bs: seq<Byte>)
    requires 0 < |bs| < 3
  {
    s == Tail(bs) + Pad(3 - |bs|)
  }

  lemma TailIsRead(bs: seq<Byte>, s: string, out: seq<Byte>)
    requires 0 < |bs| < 3 && LastGroup(s, bs)
    ensures var d := Run(Decoder(0, 0, 0, out, false), s); d.done && d.out == out + bs
  {
    Pads();
    if |bs| == 1 {
      OneByteIsRead(bs[0], s, out);
      assert bs == [bs[0]];
    } else {
      TwoBytesAreRead(bs[0], bs[1], s, out);
      assert bs == [bs[0]] + [bs[1]];
    }
  }

  lemma {:induction false} EncodedIsRead(bs: seq<Byte>, out: seq<Byte>)
    ensures var d := Run(Decoder(0, 0, 0, out, false), Encode(bs)); (d.done || d.pos == 0) && d.out == out + bs
    decreases |bs|
  {
    if 0 < |bs| < 3 {
      TailIsRead(bs, Encode(bs), out);
    } else if |bs| >= 3 {
      var q := Quad(bs[0], bs[1], bs[2]);
      QuadIsRead(bs[0], bs[1], bs[2], out);
      RunConcat(Decoder(0, 0, 0, out, false), q, Encode(bs[3..]));
      EncodedIsRead(bs[3..], out + [bs[0], bs[1], bs[2]]);
      assert out + [bs[0], bs[1], bs[2]] + bs[3..] == out + bs;
    }
  }

  lemma {:induction false} EncodedIsAscii(bs: seq<Byte>)
    ensures Ascii(Encode(bs))
    decreases |bs|
  {
    if |bs| == 1 {
      assert Pad(2) == "=" + Pad(1) && Pad(1) == "=" + Pad(0);
    } else if |bs| == 2 {
      assert Pad(1) == "=" + Pad(0);
    } else if |bs| >= 3 {
      EncodedIsAscii(bs[3..]);
    }
  }

  // What is left of the encoding once its padding is gone.
  function Body(bs: seq<Byte>): string {
    if |bs| < 3 then Tail(bs) else Quad(bs[0], bs[1], bs[2]) + Body(bs[3..])
  }

  lemma MissingStep(n: nat)
    ensures Missing(n + 4) == Missing(n)
    ensures Missing(2) == 2 && Missing(3) == 1 && Missing(0) == 0
  {
  }

  lemma {:induction false} EncodeIsBodyPadded(bs: seq<Byte>)
    ensures Encode(bs) == Repad(Body(bs))
    decreases |bs|
  {
    if |bs| < 3 {
      MissingStep(0);
    } else {
      EncodeIsBodyPadded(bs[3..]);
      var q, b := Quad(bs[0], bs[1], bs[2]), Body(bs[3..]);
      MissingStep(|b|);
      assert q + (b + Pad(Missing(|b|))) == (q + b) + Pad(Missing(|b|));
    }
  }

  lemma {:induction false} BodyEndsInLetter(bs: seq<Byte>)
    ensures Body(bs) != "" ==> Body(bs)[|Body(bs)| - 1] != '='
    decreases |bs|
  {
    if |bs| == 1 {
      LetterIsRead(bs[0] % 4 * 16);
    } else if |bs| == 2 {
      LetterIsRead(bs[1] % 16 * 4);
    } else if |bs| >= 3 {
      LetterIsRead(bs[2] % 64);
      BodyEndsInLetter(bs[3..]);
    }
  }

  lemma {:induction false} StripUndoesPad(s: string, n: nat)
    requires s != "" ==> s[|s| - 1] != '='
    ensures StripPadding(s + Pad(n)) == s
    decreases n
  {
    if n == 0 {
      assert s + Pad(0) == s;
    } else {
      PadEndsInEquals(n);
      var t := s + Pad(n);
      assert t[..|t| - 1] == s + Pad(n - 1);
      StripUndoesPad(s, n - 1);
    }
  }

  lemma {:induction false} PadEndsInEquals(n: nat)
    requires n > 0
    ensures Pad(n) == Pad(n - 1) + "="
  {
    if n > 1 { PadEndsInEquals(n - 1); }
  }

  /** Stripping the padding and adding `-len % 4` of it back gives the encoding again, for
      every number of bytes. */
  lemma RepadIsExact(bs: seq<Byte>)
    ensures Repad(StripPadding(Encode(bs))) == Encode(bs)
  {
    EncodeIsBodyPadded(bs);
    BodyEndsInLetter(bs);
    StripUndoesPad(Body(bs), Missing(|Body(bs)|));
  }

  /** What is sent without padding decodes to the bytes it was made from. */
  lemma DecodeOfEncode(bs: seq<Byte>)
    ensures Decode(Repad(StripPadding(Encode(bs)))) == Some(bs)
  {
    RepadIsExact(bs);
    EncodedIsRead(bs, []);
    EncodedIsAscii(bs);
    assert [] + bs == bs;
  }

  // ---- the standard's own terms -----------------------------------------------------------------

  /** A full group is the 24 bits of its three bytes, six to a letter, the highest first. */
  lemma QuadIsBits(a: Byte, b: Byte, c: Byte) returns (w: Sextet, x: Sextet, y: Sextet, z: Sextet)
    ensures Quad(a, b, c) == [Letter(w), Letter(x), Letter(y), Letter(z)]
    ensures ((w * 64 + x) * 64 + y) * 64 + z == (a * 256 + b) * 256 + c
  {
    w, x, y, z := a / 4, a % 4 * 16 + b / 16, b % 16 * 4 + c / 64, c % 64;
    assert a == w * 4 + a % 4 && b == b / 16 * 16 + b % 16 && c == c / 64 * 64 + z;
  }

  /** A short group is the start of one with zeros after it: two letters for one byte, three for
      two, and four characters with the padding. */
  lemma TailIsBits(a: Byte, b: Byte)
    ensures Encode([a]) == Quad(a, 0, 0)[..2] + "==" && Encode([a, b]) == Quad(a, b, 0)[..3] + "="
  {
    Pads();
  }
}
