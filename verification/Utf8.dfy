/** What the budgets of the prompt count: the bytes of the stored text in UTF-8 (section 3
    of RFC 3629), which is what Go's len counts. */
module Utf8 {
  import opened History

  type Byte = x: int | 0 <= x < 256

  /** One character, in the fewest bytes that hold it. */
  function Encode(c: char): (b: seq<Byte>)
    ensures 1 <= |b| <= 4
  {
    var n := c as int;
    if n < 0x80 then [n]
    else if n < 0x800 then [0xC0 + n / 64, 0x80 + n % 64]
    else if n < 0x1_0000 then [0xE0 + n / 4096, 0x80 + n / 64 % 64, 0x80 + n % 64]
    else [0xF0 + n / 262144, 0x80 + n / 4096 % 64, 0x80 + n / 64 % 64, 0x80 + n % 64]
  }

  function EncodeAll(s: string): seq<Byte> {
    if s == "" then [] else Encode(s[0]) + EncodeAll(s[1..])
  }

  /** How many bytes the character takes that begins with b. */
  function Width(b: Byte): nat {
    if b < 0x80 then 1 else if b < 0xE0 then 2 else if b < 0xF0 then 3 else 4
  }

  /** The code point at the front. */
  function Decode(bs: seq<Byte>): int
    requires bs != [] && Width(bs[0]) <= |bs|
  {
    match Width(bs[0])
    case 1 => bs[0]
    case 2 => (bs[0] as int - 0xC0) * 64 + bs[1] as int - 0x80
    case 3 => (bs[0] as int - 0xE0) * 4096 + (bs[1] as int - 0x80) * 64 + bs[2] as int - 0x80
    case _ => (bs[0] as int - 0xF0) * 262144 + (bs[1] as int - 0x80) * 4096 + (bs[2] as int - 0x80) * 64 + bs[3] as int - 0x80
  }

  lemma Digits(n: nat)
    ensures n == n / 4096 * 4096 + n / 64 % 64 * 64 + n % 64
    ensures n == n / 262144 * 262144 + n / 4096 % 64 * 4096 + n / 64 % 64 * 64 + n % 64
  {
    var q1 := n / 64;
    var q2 := q1 / 64;
    assert q2 == n / 4096 && q2 / 64 == n / 262144;
    assert n == q1 * 64 + n % 64 && q1 == q2 * 64 + q1 % 64 && q2 == q2 / 64 * 64 + q2 % 64;
  }

  /** Nothing is lost: the bytes at the front say how many they are and which character. */
  lemma DecodeFront(c: char, rest: seq<Byte>)
    ensures var bs := Encode(c) + rest;
      Width(bs[0]) == |Encode(c)| && Decode(bs) == c as int
  {
    Digits(c as int);
  }

  /** Different texts have different bytes. */
  lemma {:induction false} EncodeInjective(s: string, t: string)
    requires EncodeAll(s) == EncodeAll(t)
    ensures s == t
  {
    if s != "" && t != "" {
      DecodeFront(s[0], EncodeAll(s[1..]));
      DecodeFront(t[0], EncodeAll(t[1..]));
      assert s[0] == t[0];
      var n := |Encode(s[0])|;
      assert EncodeAll(s)[n..] == EncodeAll(s[1..]) && EncodeAll(t)[n..] == EncodeAll(t[1..]);
      EncodeInjective(s[1..], t[1..]);
      assert s == [s[0]] + s[1..] && t == [t[0]] + t[1..];
    }
  }

  lemma {:induction false} ByteLenExact(s: string)
    ensures ByteLen(s) == |EncodeAll(s)|
  {
    if s != "" { ByteLenExact(s[1..]); }
  }

  /** All that is stored of these turns, one after another: prompt, response. */
  function Transcript(h: seq<ConvTurn>): string {
    if h == [] then "" else h[0].prompt + h[0].response + Transcript(h[1..])
  }

  lemma {:induction false} EncodeConcat(s: string, t: string)
    ensures EncodeAll(s + t) == EncodeAll(s) + EncodeAll(t)
  {
    if s == "" {
      assert s + t == t;
    } else {
      assert (s + t)[1..] == s[1..] + t;
      EncodeConcat(s[1..], t);
    }
  }

  /** The size of stored turns in bytes. */
  function Bytes(h: seq<ConvTurn>): nat { |EncodeAll(Transcript(h))| }

  /** What the program adds up is the size of the transcript, prompts and responses. */
  lemma {:induction false} CharsAreBytes(h: seq<ConvTurn>)
    ensures Chars(h) == Bytes(h)
  {
    if h != [] {
      CharsAreBytes(h[1..]);
      ByteLenExact(h[0].prompt);
      ByteLenExact(h[0].response);
      EncodeConcat(h[0].prompt, h[0].response);
      EncodeConcat(h[0].prompt + h[0].response, Transcript(h[1..]));
    }
  }
}
