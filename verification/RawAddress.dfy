/**
 Raw addresses of the node: a network ID byte, a version byte and the rest, printed as one
 character, two hex digits and Base58.
 */
module RawAddress {
  import opened Wrappers
  import Base58
  import CryptoAddress
  import Digits
  import Hex

  /** A lone byte read as UTF-8: anything that is not ASCII becomes the replacement character. */
  function Utf8Char(b: Byte): char {
    if b < 128 then b as char else '\U{FFFD}'
  }

  function Utf8Bytes(c: char): seq<Byte> {
    var n := c as int;
    if n < 0x80 then [n]
    else if n < 0x800 then [0xC0 + n / 64, 0x80 + n % 64]
    else if n < 0x1_0000 then [0xE0 + n / 4096, 0x80 + n / 64 % 64, 0x80 + n % 64]
    else [0xF0 + n / 262144 % 8, 0x80 + n / 4096 % 64, 0x80 + n / 64 % 64, 0x80 + n % 64]
  }

  /** `slice`, which clips its bounds. */
  function Slice<T>(s: seq<T>, from: nat, to: nat): seq<T>
    requires from <= to
  {
    if |s| <= from then [] else if |s| <= to then s[from..] else s[from..to]
  }

  function EncodeRaw(raw: seq<Byte>): string {
    var network: string := if raw == [] then "" else [Utf8Char(raw[0])];
    network + Hex.ToHex(Slice(raw, 1, 2)) + Base58.Encoded(Slice(raw, 2, |raw| + 2))
  }

  function DecodeRaw(s: string): Result<seq<Byte>, Base58.Error> {
    var network: seq<Byte> := if s == "" then [] else Utf8Bytes(s[0]);
    match Base58.DecodedExactly(Slice(s, 3, |s| + 3))
    case Failure(e) => Failure(e)
    case Success(rest) => Success(network + Hex.FromHex(Slice(s, 1, 3)) + rest)
  }

  lemma SliceAfter(a: string, b: string, c: string)
    requires |a| == 1 && |b| == 2
    ensures Slice(a + b + c, 1, 3) == b && Slice(a + b + c, 3, |a + b + c| + 3) == c
  {
    assert (a + b + c)[1..] == b + c;
  }

  /** The parts of an encoded address can be told apart again. */
  lemma PartsOfEncoded(raw: seq<Byte>)
    ensures var s := EncodeRaw(raw);
            && (raw == [] <==> s == "")
            && (raw != [] ==> s[0] == Utf8Char(raw[0]))
            && Slice(s, 1, 3) == Hex.ToHex(Slice(raw, 1, 2))
            && Slice(s, 3, |s| + 3) == Base58.Encoded(Slice(raw, 2, |raw| + 2))
  {
    var hex, rest := Hex.ToHex(Slice(raw, 1, 2)), Base58.Encoded(Slice(raw, 2, |raw| + 2));
    Hex.HexCharacters(Slice(raw, 1, 2));
    if |raw| >= 2 {
      SliceAfter([Utf8Char(raw[0])], hex, rest);
    } else {
      assert rest == "" by {
        assert Base58.Encoded([]) == "";
      }
      assert hex == "";
    }
  }

  /** The first byte as it comes back: outside ASCII, as the three bytes of the replacement character. */
  function NetworkAgain(raw: seq<Byte>): (r: seq<Byte>)
    ensures raw != [] ==> r == if raw[0] < 128 then [raw[0]] else [0xEF, 0xBF, 0xBD]
  {
    if raw == [] then [] else Utf8Bytes(Utf8Char(raw[0]))
  }

  lemma DecodeParts(raw: seq<Byte>)
    ensures DecodeRaw(EncodeRaw(raw)) ==
            Success(NetworkAgain(raw) + Slice(raw, 1, 2) + Slice(raw, 2, |raw| + 2))
  {
    PartsOfEncoded(raw);
    Hex.HexRoundTrip(Slice(raw, 1, 2));
    Base58.DecodeOfEncode(Slice(raw, 2, |raw| + 2));
  }

  lemma VersionAndRest(raw: seq<Byte>)
    ensures Slice(raw, 1, 2) + Slice(raw, 2, |raw| + 2) == Slice(raw, 1, |raw| + 1)
  {
  }

  lemma Associates(a: seq<Byte>, b: seq<Byte>, c: seq<Byte>)
    ensures a + b + c == a + (b + c)
  {
  }

  /** What decoding an encoded address gives: all bytes back, except for a mangled first one. */
  lemma DecodeOfEncode(raw: seq<Byte>)
    ensures DecodeRaw(EncodeRaw(raw)) == Success(NetworkAgain(raw) + Slice(raw, 1, |raw| + 1))
  {
    DecodeParts(raw);
    Associates(NetworkAgain(raw), Slice(raw, 1, 2), Slice(raw, 2, |raw| + 2));
    VersionAndRest(raw);
  }

  lemma NetworkSurvives(raw: seq<Byte>)
    ensures NetworkAgain(raw) + Slice(raw, 1, |raw| + 1) == raw <==> raw == [] || raw[0] < 128
  {
    if raw != [] {
      assert Slice(raw, 1, |raw| + 1) == raw[1..];
      if raw[0] >= 128 {
        assert |NetworkAgain(raw)| == 3;
      }
    }
  }

  /** A raw address survives exactly when its network ID is ASCII. */
  lemma RawRoundTrip(raw: seq<Byte>)
    ensures DecodeRaw(EncodeRaw(raw)) == Success(raw) <==> raw == [] || raw[0] < 128
  {
    DecodeOfEncode(raw);
    NetworkSurvives(raw);
  }

  /** Addresses whose encoding neither is mangled nor contains the separator of the cache keys. */
  predicate WellFormed(raw: seq<Byte>) {
    raw == [] || (raw[0] < 128 && raw[0] != ':' as int)
  }

  lemma AlphabetHasNoColon()
    ensures !Base58.InAlphabet(':') && Hex.Unhex(':').None?
  {
    Base58.RunsAreConsecutive();
  }

  lemma NoColonAfterNetwork(raw: seq<Byte>)
    ensures forall i :: 1 <= i < |EncodeRaw(raw)| ==> EncodeRaw(raw)[i] != ':'
  {
    AlphabetHasNoColon();
    Hex.HexCharacters(Slice(raw, 1, 2));
    Base58.DecodeOfEncode(Slice(raw, 2, |raw| + 2));
    PartsOfEncoded(raw);
    var s, hex, rest := EncodeRaw(raw), Hex.ToHex(Slice(raw, 1, 2)), Base58.Encoded(Slice(raw, 2, |raw| + 2));
    forall i | 1 <= i < |s|
      ensures s[i] != ':'
    {
      if i < 3 {
        assert s[i] == Slice(s, 1, 3)[i - 1] == hex[i - 1];
        assert Hex.Unhex(hex[i - 1]).Some?;
      } else {
        assert s[i] == Slice(s, 3, |s| + 3)[i - 3] == rest[i - 3];
        assert Base58.InAlphabet(rest[i - 3]);
      }
    }
  }

  // Addresses as objects

  type Checksum = CryptoAddress.Checksum

  datatype Address = Address(networkId: string, virtualChainId: string, accountId: seq<Byte>, checksum: Checksum)

  datatype Parsed = Parsed(address: Address) | Undefined | RangeError

  const VERSION: Byte := 0

  function NetworkBytes(networkId: string): seq<Byte> {
    if networkId == "" then [] else Utf8Bytes(networkId[0]) + NetworkBytes(networkId[1..])
  }

  function FullAddress(networkId: string, virtualChainId: string, accountId: seq<Byte>): seq<Byte> {
    NetworkBytes(networkId) + [VERSION] + Hex.FromHex(virtualChainId) + accountId
  }

  /** The constructor, given an account ID. */
  function MakeAddress(crc32: seq<Byte> -> Checksum, virtualChainId: string, networkId: string,
                       accountId: seq<Byte>): Address {
    Address(networkId, virtualChainId, accountId, crc32(FullAddress(networkId, virtualChainId, accountId)))
  }

  function ToBuffer(a: Address): seq<Byte> {
    FullAddress(a.networkId, a.virtualChainId, a.accountId) + a.checksum
  }

  /** Parsing without a public key.  Reads past the end of a short buffer throw. */
  function FromBuffer(crc32: seq<Byte> -> Checksum, raw: seq<Byte>, validateChecksum: bool): Parsed {
    if |raw| < 2 then RangeError
    else
      var networkId := [Utf8Char(raw[0])];
      var virtualChainId := Hex.ToHex(Slice(raw, 2, 5));
      var address := MakeAddress(crc32, virtualChainId, networkId, Slice(raw, 5, 25));
      if !validateChecksum then Parsed(address)
      else if |raw| < 29 then RangeError
      else if address.checksum != raw[25..29] then Undefined
      else Parsed(address)
  }

  lemma SingleNetworkByte(c: char)
    ensures NetworkBytes([c]) == Utf8Bytes(c)
  {
    assert [c][1..] == "";
  }

  lemma HexOfSlice(raw: seq<Byte>)
    requires |raw| >= 25
    ensures Hex.FromHex(Hex.ToHex(Slice(raw, 2, 5))) + Slice(raw, 5, 25) == raw[2..25]
  {
    SlicesMeet(raw);
    Hex.HexRoundTrip(Slice(raw, 2, 5));
  }

  lemma SlicesMeet(raw: seq<Byte>)
    requires |raw| >= 25
    ensures Slice(raw, 2, 5) + Slice(raw, 5, 25) == raw[2..25]
  {
  }

  /** The address of a buffer, serialised without its checksum. */
  lemma FullAddressOfBuffer(raw: seq<Byte>)
    requires |raw| >= 25
    ensures FullAddress([Utf8Char(raw[0])], Hex.ToHex(Slice(raw, 2, 5)), Slice(raw, 5, 25)) ==
            NetworkAgain(raw) + [VERSION] + raw[2..25]
  {
    HexOfSlice(raw);
    SingleNetworkByte(Utf8Char(raw[0]));
    Associates(NetworkAgain(raw) + [VERSION], Hex.FromHex(Hex.ToHex(Slice(raw, 2, 5))), Slice(raw, 5, 25));
  }

  /**
   Parsing a buffer succeeds exactly when it is long enough and its checksum fits it, with the version
   byte taken as 0 and the network byte as it reads; it then gives back that buffer.
   */
  lemma FromBufferThenToBuffer(crc32: seq<Byte> -> Checksum, raw: seq<Byte>)
    ensures FromBuffer(crc32, raw, true).Parsed? <==>
            |raw| >= 29 && raw[25..29] == crc32(NetworkAgain(raw) + [VERSION] + raw[2..25])
    ensures FromBuffer(crc32, raw, true).Parsed? ==>
              ToBuffer(FromBuffer(crc32, raw, true).address) == NetworkAgain(raw) + [VERSION] + raw[2..29]
  {
    if |raw| >= 29 {
      FullAddressOfBuffer(raw);
      Associates(NetworkAgain(raw) + [VERSION], raw[2..25], raw[25..29]);
      assert raw[2..25] + raw[25..29] == raw[2..29];
    }
  }

  /**
   Parsing throws exactly when a read passes the end of the buffer, refuses exactly a checksum that does
   not fit, and without validation puts in the checksum that does.
   */
  lemma ParseOutcome(crc32: seq<Byte> -> Checksum, raw: seq<Byte>, validateChecksum: bool)
    ensures FromBuffer(crc32, raw, validateChecksum) == RangeError <==> |raw| < if validateChecksum then 29 else 2
    ensures FromBuffer(crc32, raw, validateChecksum) == Undefined <==>
            validateChecksum && |raw| >= 29 && raw[25..29] != crc32(NetworkAgain(raw) + [VERSION] + raw[2..25])
    ensures !validateChecksum && |raw| >= 25 ==>
              var parsed := FromBuffer(crc32, raw, validateChecksum);
              && parsed.Parsed?
              && var fullAddress := NetworkAgain(raw) + [VERSION] + raw[2..25];
                 ToBuffer(parsed.address) == fullAddress + crc32(fullAddress)
  {
    if |raw| >= 25 {
      FullAddressOfBuffer(raw);
    }
  }

  /** The parts of an address that fit the fields of a buffer. */
  predicate Fits(virtualChainId: string, networkId: string, accountId: seq<Byte>) {
    && |networkId| == 1 && networkId[0] < '\U{80}'
    && |Hex.FromHex(virtualChainId)| == 3 && Hex.ToHex(Hex.FromHex(virtualChainId)) == virtualChainId
    && |accountId| == 20
  }

  lemma FittingAddressReturns(crc32: seq<Byte> -> Checksum, virtualChainId: string, networkId: string,
                              accountId: seq<Byte>)
    requires Fits(virtualChainId, networkId, accountId)
    ensures var a := MakeAddress(crc32, virtualChainId, networkId, accountId);
            FromBuffer(crc32, ToBuffer(a), true) == Parsed(a)
  {
    var a := MakeAddress(crc32, virtualChainId, networkId, accountId);
    var chain := Hex.FromHex(virtualChainId);
    assert networkId == [networkId[0]];
    SingleNetworkByte(networkId[0]);
    var raw := ToBuffer(a);
    assert raw == Utf8Bytes(networkId[0]) + [VERSION] + chain + accountId + a.checksum;
    assert Slice(raw, 2, 5) == chain && Slice(raw, 5, 25) == accountId && raw[25..29] == a.checksum;
  }

  /** What comes out of a buffer fits, except for the network ID a mangled byte reads as. */
  lemma ParsedFits(crc32: seq<Byte> -> Checksum, raw: seq<Byte>)
    requires FromBuffer(crc32, raw, true).Parsed?
    ensures var a := FromBuffer(crc32, raw, true).address;
            a.networkId == "\U{FFFD}" || Fits(a.virtualChainId, a.networkId, a.accountId)
  {
    Hex.HexRoundTrip(Slice(raw, 2, 5));
  }

  /**
   Serialising an address and parsing the buffer changes nothing if and only if its network ID is one
   ASCII character, its chain ID three bytes in lower-case hex and its account ID 20 bytes.
   */
  lemma ToBufferThenFromBuffer(crc32: seq<Byte> -> Checksum, virtualChainId: string, networkId: string,
                               accountId: seq<Byte>)
    requires networkId != "\U{FFFD}"
    ensures var a := MakeAddress(crc32, virtualChainId, networkId, accountId);
            FromBuffer(crc32, ToBuffer(a), true) == Parsed(a) <==> Fits(virtualChainId, networkId, accountId)
  {
    var a := MakeAddress(crc32, virtualChainId, networkId, accountId);
    if Fits(virtualChainId, networkId, accountId) {
      FittingAddressReturns(crc32, virtualChainId, networkId, accountId);
    } else if FromBuffer(crc32, ToBuffer(a), true) == Parsed(a) {
      ParsedFits(crc32, ToBuffer(a));
      assert false;
    }
  }

  // Both languages

  lemma TextOfParts(network: Byte, version: Byte, rest: seq<Byte>)
    ensures EncodeRaw([network] + [version] + rest) ==
            [Utf8Char(network)] + Hex.HexByte(version) + Base58.Encoded(rest)
  {
    var raw := [network] + [version] + rest;
    assert Slice(raw, 1, 2) == [version] && Slice(raw, 2, |raw| + 2) == rest;
    assert [version][1..] == [];
    assert Hex.ToHex([version]) == Hex.HexByte(version) + Hex.ToHex([]);
  }

  lemma Regroup(a: seq<Byte>, b: seq<Byte>, c: seq<Byte>, d: seq<Byte>, e: seq<Byte>)
    ensures a + b + c + d + e == a + b + (c + d + e)
  {
  }

  lemma FullAddressOfParts(networkId: Byte, chain: seq<Byte>, account: seq<Byte>)
    requires networkId < 128
    ensures FullAddress([networkId as char], Hex.ToHex(chain), account) == [networkId] + [VERSION] + chain + account
    ensures [networkId] + [VERSION] == [networkId, 0]
  {
    Hex.HexRoundTrip(chain);
    SingleNetworkByte(networkId as char);
  }

  lemma BufferOfParts(crc32: seq<Byte> -> Checksum, networkId: Byte, chain: seq<Byte>, account: seq<Byte>)
    requires networkId < 128
    ensures var a := MakeAddress(crc32, Hex.ToHex(chain), [networkId as char], account);
            ToBuffer(a) == [networkId] + [VERSION] + (chain + account + crc32([networkId, 0] + chain + account))
  {
    FullAddressOfParts(networkId, chain, account);
    Regroup([networkId], [VERSION], chain, account, crc32([networkId, 0] + chain + account));
  }

  /**
   The node and the C++ SDK print the address of a public key alike: the same network, chain ID, account ID
   and checksum in the same text.
   */
  lemma PrintsAsSdk(h: CryptoAddress.Hashes, networkId: Byte, chain: seq<Byte>, publicKey: seq<Byte>)
    requires networkId < 128
    ensures var account := h.ripemd160(h.sha256(publicKey));
            var a := MakeAddress(h.crc32, Hex.ToHex(chain), [networkId as char], account);
            EncodeRaw(ToBuffer(a)) ==
            CryptoAddress.Text(networkId, chain + account + h.crc32([networkId, 0] + chain + account))
  {
    var account := h.ripemd160(h.sha256(publicKey));
    BufferOfParts(h.crc32, networkId, chain, account);
    TextOfParts(networkId, VERSION, chain + account + h.crc32([networkId, 0] + chain + account));
  }
}
