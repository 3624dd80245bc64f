/**
 UTF-8 as the agent, the SDK and the services use it (section 3 of RFC 3629): encoding of
 characters, strict decoding, and decoding that silently drops ill-formed bytes.
 */
module Utf8 {
  import opened Wrappers

  type Byte = x: int | 0 <= x < 256

  /** The one to four bytes that stand for a character. */
  function EncodeChar(c: char): (bytes: seq<Byte>)
    ensures 1 <= |bytes| <= 4
  {
    var n := c as int;
    if n < 0x80 then [n]
    else if n < 0x800 then [0xC0 + n / 64, 0x80 + n % 64]
    else if n < 0x10000 then [0xE0 + n / 4096, 0x80 + n / 64 % 64, 0x80 + n % 64]
    else [0xF0 + n / 262144, 0x80 + n / 4096 % 64, 0x80 + n / 64 % 64, 0x80 + n % 64]
  }

  function Encode(s: string): (bytes: seq<Byte>)
    ensures |s| <= |bytes| <= 4 * |s|
  {
    if s == [] then [] else EncodeChar(s[0]) + Encode(s[1..])
  }

  function Size(s: string): nat {
    |Encode(s)|
  }

  /** How many bytes a sequence starting with this byte has; 0 for a byte that starts none. */
  function SequenceLength(first: Byte): (length: nat)
    ensures length <= 4
  {
    if first < 0x80 then 1
    else if first < 0xC2 then 0
    else if first < 0xE0 then 2
    else if first < 0xF0 then 3
    else if first < 0xF5 then 4
    else 0
  }

  /** Whether a byte may stand at position i, 1 <= i, of a sequence starting with first. */
  predicate Continues(first: Byte, i: nat, b: Byte) {
    if i == 1 && first == 0xE0 then 0xA0 <= b < 0xC0
    else if i == 1 && first == 0xED then 0x80 <= b < 0xA0
    else if i == 1 && first == 0xF0 then 0x90 <= b < 0xC0
    else if i == 1 && first == 0xF4 then 0x80 <= b < 0x90
    else 0x80 <= b < 0xC0
  }

  /** The length of the longest prefix of bytes that could still begin one encoded character. */
  function WellFormedPrefix(bytes: seq<Byte>): (length: nat)
    ensures length <= |bytes|
    ensures bytes != [] ==> length <= SequenceLength(bytes[0])
  {
    if bytes == [] || SequenceLength(bytes[0]) == 0 then 0
    else
      var need := SequenceLength(bytes[0]);
      if |bytes| == 1 || need == 1 || !Continues(bytes[0], 1, bytes[1]) then 1
      else if |bytes| == 2 || need == 2 || !Continues(bytes[0], 2, bytes[2]) then 2
      else if |bytes| == 3 || need == 3 || !Continues(bytes[0], 3, bytes[3]) then 3
      else 4
  }

  /** Whether bytes begins with a whole encoded character. */
  predicate StartsWithChar(bytes: seq<Byte>) {
    bytes != [] && SequenceLength(bytes[0]) != 0 && WellFormedPrefix(bytes) == SequenceLength(bytes[0])
  }

  /** The six bits a continuation byte carries. */
  function Payload(bytes: seq<Byte>, i: nat): int
    requires i < |bytes|
  {
    var b: int := bytes[i];
    b - 0x80
  }

  /** The character that well-formed bytes begin with. */
  function FirstChar(bytes: seq<Byte>): char
    requires StartsWithChar(bytes)
  {
    var lead: int := bytes[0];
    match SequenceLength(bytes[0])
    case 1 => lead as char
    case 2 => ((lead - 0xC0) * 64 + Payload(bytes, 1)) as char
    case 3 => ((lead - 0xE0) * 4096 + Payload(bytes, 1) * 64 + Payload(bytes, 2)) as char
    case _ => ((lead - 0xF0) * 262144 + Payload(bytes, 1) * 4096 + Payload(bytes, 2) * 64 + Payload(bytes, 3)) as char
  }

  /** Strict decoding: None stands for the decode error. */
  function Decode(bytes: seq<Byte>): Option<string> {
    if bytes == [] then Some("")
    else if !StartsWithChar(bytes) then None
    else
      match Decode(bytes[SequenceLength(bytes[0])..])
      case None => None
      case Some(rest) => Some([FirstChar(bytes)] + rest)
  }

  /**
   Decoding with errors ignored: a byte that starts nothing is skipped, and so is the longest
   well-formed beginning of a character that breaks off.
   */
  function DecodeIgnore(bytes: seq<Byte>): string {
    if bytes == [] then ""
    else if StartsWithChar(bytes) then [FirstChar(bytes)] + DecodeIgnore(bytes[SequenceLength(bytes[0])..])
    else
      var skip := WellFormedPrefix(bytes);
      DecodeIgnore(bytes[if skip == 0 then 1 else skip..])
  }

  /** The digits of a code point in base 64. */
  lemma CodePointDigits(n: nat)
    ensures n == n / 64 * 64 + n % 64
    ensures n / 64 == n / 4096 * 64 + n / 64 % 64
    ensures n / 4096 == n / 262144 * 64 + n / 4096 % 64
  {
    assert n / 4096 == n / 64 / 64;
    assert n / 262144 == n / 4096 / 64;
  }

  /** An encoded character is recognised, whole and alone, whatever follows it. */
  lemma EncodedCharIsRead(c: char, rest: seq<Byte>)
    ensures var bytes := EncodeChar(c) + rest;
            StartsWithChar(bytes) && SequenceLength(bytes[0]) == |EncodeChar(c)| && FirstChar(bytes) == c
  {
    var n := c as int;
    var e := EncodeChar(c);
    var bytes := e + rest;
    CodePointDigits(n);
    assert bytes[0] == e[0];
    if n < 0x80 {
    } else if n < 0x800 {
      assert bytes[1] == e[1];
    } else if n < 0x10000 {
      assert bytes[1] == e[1] && bytes[2] == e[2];
    } else {
      assert bytes[1] == e[1] && bytes[2] == e[2] && bytes[3] == e[3];
    }
  }

  /** The base-64 digits of a number built from them. */
  lemma DigitsOf(high: nat, low: nat)
    requires low < 64
    ensures (high * 64 + low) / 64 == high && (high * 64 + low) % 64 == low
  {
  }

  lemma ReadThreeBytes(bytes: seq<Byte>)
    requires StartsWithChar(bytes) && SequenceLength(bytes[0]) == 3
    ensures EncodeChar(FirstChar(bytes)) == bytes[..3]
  {
    var lead: int := bytes[0];
    var top := (lead - 0xE0) * 64 + Payload(bytes, 1);
    DigitsOf(lead - 0xE0, Payload(bytes, 1));
    DigitsOf(top, Payload(bytes, 2));
    CodePointDigits(FirstChar(bytes) as int);
  }

  lemma ReadFourBytes(bytes: seq<Byte>)
    requires StartsWithChar(bytes) && SequenceLength(bytes[0]) == 4
    ensures EncodeChar(FirstChar(bytes)) == bytes[..4]
  {
    var lead: int := bytes[0];
    var top := (lead - 0xF0) * 64 + Payload(bytes, 1);
    DigitsOf(lead - 0xF0, Payload(bytes, 1));
    DigitsOf(top, Payload(bytes, 2));
    DigitsOf(top * 64 + Payload(bytes, 2), Payload(bytes, 3));
    CodePointDigits(FirstChar(bytes) as int);
  }

  /** What begins with a whole character begins with the encoding of that character. */
  lemma ReadCharIsEncoded(bytes: seq<Byte>)
    requires StartsWithChar(bytes)
    ensures EncodeChar(FirstChar(bytes)) == bytes[..SequenceLength(bytes[0])]
  {
    var lead: int := bytes[0];
    match SequenceLength(bytes[0]) {
      case 1 =>
      case 2 => DigitsOf(lead - 0xC0, Payload(bytes, 1));
      case 3 => ReadThreeBytes(bytes);
      case _ => ReadFourBytes(bytes);
    }
  }

  /** Strict decoding accepts exactly the encodings of texts, and gives back the text. */
  lemma {:induction false} DecodeInvertsEncode(s: string)
    ensures Decode(Encode(s)) == Some(s)
  {
    if s != "" {
      EncodedCharIsRead(s[0], Encode(s[1..]));
      assert Encode(s)[|EncodeChar(s[0])|..] == Encode(s[1..]);
      DecodeInvertsEncode(s[1..]);
      assert s == [s[0]] + s[1..];
    }
  }

  lemma {:induction false} DecodedIsEncoded(bytes: seq<Byte>)
    ensures Decode(bytes).Some? ==> Encode(Decode(bytes).value) == bytes
  {
    if bytes != [] && Decode(bytes).Some? {
      var n := SequenceLength(bytes[0]);
      ReadCharIsEncoded(bytes);
      DecodedIsEncoded(bytes[n..]);
      var text := Decode(bytes).value;
      assert text[1..] == Decode(bytes[n..]).value;
      assert bytes == bytes[..n] + bytes[n..];
    }
  }

  lemma {:induction false} EncodeConcat(s: string, t: string)
    ensures Encode(s + t) == Encode(s) + Encode(t)
  {
    if s == "" {
      assert s + t == t;
    } else {
      assert (s + t)[1..] == s[1..] + t;
      EncodeConcat(s[1..], t);
    }
  }

  function Concat(texts: seq<string>): string {
    if texts == [] then "" else texts[0] + Concat(texts[1..])
  }

  lemma {:induction false} ConcatAppend(texts: seq<string>, last: string)
    ensures Concat(texts + [last]) == Concat(texts) + last
  {
    if texts == [] {
      assert [last][1..] == [];
      assert texts + [last] == [last];
    } else {
      assert (texts + [last])[1..] == texts[1..] + [last];
      ConcatAppend(texts[1..], last);
    }
  }
}
