// Node's "hex" encoding of buffers.
module Hex {
  import opened Wrappers

  const HEX := "0123456789abcdef"

  function HexDigit(d: int): char {
    if 0 <= d < 16 then HEX[d] else '0'
  }

  function HexByte(b: Byte): string {
    [HexDigit(b / 16), HexDigit(b % 16)]
  }

  function ToHex(data: seq<Byte>): string {
    if data == [] then "" else HexByte(data[0]) + ToHex(data[1..])
  }

  /** The value of a hex digit in either case. */
  function Unhex(c: char): Option<nat> {
    if '0' <= c <= '9' then Some(c as nat - 48)
    else if 'a' <= c <= 'f' then Some(c as nat - 87)
    else if 'A' <= c <= 'F' then Some(c as nat - 55)
    else None
  }

  /** Decoding stops, without an error, at the first pair that is not hex or not complete. */
  function FromHex(s: string): seq<Byte> {
    if |s| >= 2 && Unhex(s[0]).Some? && Unhex(s[1]).Some? then
      HexPairIsByte(s[0], s[1]);
      [Unhex(s[0]).value * 16 + Unhex(s[1]).value] + FromHex(s[2..])
    else []
  }

  lemma HexPairIsByte(a: char, b: char)
    requires Unhex(a).Some? && Unhex(b).Some?
    ensures 0 <= Unhex(a).value * 16 + Unhex(b).value < 256
  {
  }

  lemma HexDigitValue(d: int)
    requires 0 <= d < 16
    ensures Unhex(HexDigit(d)) == Some(d)
  {
  }

  lemma HexByteThenRest(b: Byte, rest: string)
    ensures FromHex(HexByte(b) + rest) == [b] + FromHex(rest)
  {
    HexDigitValue(b / 16);
    HexDigitValue(b % 16);
    assert (HexByte(b) + rest)[2..] == rest;
  }

  lemma {:induction false} HexRoundTrip(data: seq<Byte>)
    ensures FromHex(ToHex(data)) == data
  {
    if data != [] {
      HexRoundTrip(data[1..]);
      HexByteThenRest(data[0], ToHex(data[1..]));
    }
  }

  /** Each byte is two digits, the high one first. */
  lemma {:induction false} HexOfByte(data: seq<Byte>, i: nat)
    requires i < |data|
    ensures |ToHex(data)| == 2 * |data|
    ensures ToHex(data)[2 * i] == "0123456789abcdef"[data[i] / 16]
    ensures ToHex(data)[2 * i + 1] == "0123456789abcdef"[data[i] % 16]
  {
    HexCharacters(data);
    if i > 0 {
      HexOfByte(data[1..], i - 1);
    }
  }

  /** The same text with its hex digits in lower case. */
  function Lowered(s: string): (r: string)
    ensures |r| == |s|
    ensures forall i :: 0 <= i < |s| ==> r[i] == if 'A' <= s[i] <= 'F' then (s[i] as int + 32) as char else s[i]
  {
    if s == "" then "" else [if 'A' <= s[0] <= 'F' then (s[0] as int + 32) as char else s[0]] + Lowered(s[1..])
  }

  /** Decoding reads either case alike. */
  lemma {:induction false} HexIgnoresCase(s: string)
    ensures FromHex(Lowered(s)) == FromHex(s)
  {
    if |s| >= 2 {
      assert Unhex(Lowered(s)[0]) == Unhex(s[0]) && Unhex(Lowered(s)[1]) == Unhex(s[1]);
      assert Lowered(s)[2..] == Lowered(s[2..]);
      HexIgnoresCase(s[2..]);
    }
  }

  /** After what was encoded, decoding goes on with what follows. */
  lemma {:induction false} HexThenRest(data: seq<Byte>, rest: string)
    ensures FromHex(ToHex(data) + rest) == data + FromHex(rest)
  {
    if data == [] {
      assert ToHex(data) + rest == rest;
    } else {
      HexThenRest(data[1..], rest);
      HexFirst(data[0], data[1..], rest);
      assert [data[0]] + data[1..] == data;
    }
  }

  lemma HexFirst(b: Byte, data: seq<Byte>, rest: string)
    requires FromHex(ToHex(data) + rest) == data + FromHex(rest)
    ensures FromHex(ToHex([b] + data) + rest) == [b] + data + FromHex(rest)
  {
    var tail, more := ToHex(data) + rest, FromHex(rest);
    assert ([b] + data)[1..] == data;
    assert ToHex([b] + data) + rest == HexByte(b) + tail;
    HexByteThenRest(b, tail);
    Prepend(b, data, more);
  }

  lemma Prepend(b: Byte, data: seq<Byte>, more: seq<Byte>)
    ensures [b] + (data + more) == [b] + data + more
  {
  }

  lemma {:induction false} HexCharacters(data: seq<Byte>)
    ensures |ToHex(data)| == 2 * |data|
    ensures forall i :: 0 <= i < |ToHex(data)| ==> Unhex(ToHex(data)[i]).Some?
    ensures forall i :: 0 <= i < |ToHex(data)| ==> '0' <= ToHex(data)[i] <= '9' || 'a' <= ToHex(data)[i] <= 'f'
  {
    if data != [] {
      HexDigitValue(data[0] / 16);
      HexDigitValue(data[0] % 16);
      HexCharacters(data[1..]);
    }
  }
}
