/**
 Addresses of the crypto SDK: 32 bytes of public key become the 40 characters
 network ID [1] + version [2] + Base58 of (virtual chain ID + account ID + checksum) [37].
 */
module CryptoAddress {
  import opened Wrappers
  import opened Digits
  import Base58
  import Hex

  const MAIN_NETWORK_ID: Byte := 0x4d // "M"
  const TEST_NETWORK_ID: Byte := 0x54 // "T"
  const VERSION: Byte := 0
  const PUBLIC_KEY_SIZE := 32
  const NETWORK_ID_SIZE := 1
  const VERSION_SIZE := 2
  const VIRTUAL_CHAIN_ID_SIZE := 3
  const VIRTUAL_CHAIN_ID_MSB: Byte := 0x08
  const ACCOUNT_ID_SIZE := 20
  const CHECKSUM_SIZE := 4
  const ADDRESS_LENGTH := 40
  const RAW_SIZE := 27

  type AccountId = s: seq<Byte> | |s| == 20 witness seq(20, _ => 0)
  type Checksum = s: seq<Byte> | |s| == 4 witness seq(4, _ => 0)

  /** The hash functions, of which only the output lengths matter here. */
  datatype Hashes = Hashes(sha256: seq<Byte> -> seq<Byte>,
                           ripemd160: seq<Byte> -> AccountId,
                           crc32: seq<Byte> -> Checksum)

  datatype Error = InvalidPublicKeyLength | InvalidVirtualChainId | InvalidNetworkId

  predicate IsValidNetworkId(networkId: int) {
    MAIN_NETWORK_ID == networkId || TEST_NETWORK_ID == networkId
  }

  predicate IsValidVersion(version: int) {
    0 == version
  }

  predicate IsValidVirtualChainId(virtualChainId: seq<Byte>) {
    |virtualChainId| == VIRTUAL_CHAIN_ID_SIZE && virtualChainId[0] >= VIRTUAL_CHAIN_ID_MSB
  }

  // What an address means, without the object

  function AccountIdOf(h: Hashes, publicKey: seq<Byte>): AccountId {
    h.ripemd160(h.sha256(publicKey))
  }

  function ChecksumOf(h: Hashes, networkId: Byte, virtualChainId: seq<Byte>, accountId: seq<Byte>): Checksum {
    h.crc32([networkId, VERSION] + virtualChainId + accountId)
  }

  /** The printed form of a raw address tail. */
  function Text(networkId: Byte, raw: seq<Byte>): string {
    [networkId as char] + Hex.HexByte(VERSION) + Base58.Encoded(raw)
  }

  /** The 27 bytes that some address could carry: a valid chain ID and a checksum that matches. */
  ghost predicate IsRawAddress(h: Hashes, networkId: Byte, raw: seq<Byte>) {
    && |raw| == RAW_SIZE
    && IsValidVirtualChainId(raw[..VIRTUAL_CHAIN_ID_SIZE])
    && raw[RAW_SIZE - CHECKSUM_SIZE..] ==
       ChecksumOf(h, networkId, raw[..VIRTUAL_CHAIN_ID_SIZE], raw[VIRTUAL_CHAIN_ID_SIZE..RAW_SIZE - CHECKSUM_SIZE])
  }

  // The length of the printed form

  lemma LeadingDigitBounds(s: seq<int>, base: nat)
    requires InBase(s, base) && s != []
    ensures s[0] * Pow(base, |s| - 1) <= Value(s, base) < (s[0] + 1) * Pow(base, |s| - 1)
  {
    assert s == [s[0]] + s[1..];
    ValueConcat([s[0]], s[1..], base);
    ValueOfSingle(s[0], base);
    ValueBound(s[1..], base);
    OneMore(s[0], Pow(base, |s| - 1));
  }

  lemma OneMore(d: int, p: int)
    ensures (d + 1) * p == d * p + p
  {
  }

  lemma EncodedLength(raw: seq<Byte>)
    ensures Value(raw, 256) >= 0
    ensures |Base58.Encoded(raw)| == LeadingZeros(raw) + |ToDigits(Value(raw, 256), 58)|
  {
    ValueBound(raw, 256);
  }

  /** 27 bytes with a first byte print to 37 characters exactly when they reach 58^36. */
  lemma LengthByValue(raw: seq<Byte>)
    requires |raw| == RAW_SIZE && raw[0] != 0
    ensures |Base58.Encoded(raw)| <= 37
    ensures |Base58.Encoded(raw)| == 37 <==> Value(raw, 256) >= Pow(58, 36)
  {
    EncodedLength(raw);
    ValueBound(raw, 256);
    Base58.PowersOf58();
    Base58.PowersOf256();
    DigitCount(Value(raw, 256), 58, 36);
    DigitCount(Value(raw, 256), 58, 37);
  }

  lemma LengthFromMsb(raw: seq<Byte>)
    requires |raw| == RAW_SIZE && raw[0] >= VIRTUAL_CHAIN_ID_MSB
    ensures |Base58.Encoded(raw)| == 37
  {
    LengthByValue(raw);
    LeadingDigitBounds(raw, 256);
    Base58.PowersOf58();
    Base58.PowersOf256();
    MulMonotone(8, raw[0], Pow(256, 26));
  }

  /** A raw address that starts with msb and is zero otherwise: too short for every smaller msb. */
  lemma ShortBelowMsb(msb: Byte)
    requires msb < VIRTUAL_CHAIN_ID_MSB
    ensures |Base58.Encoded([msb] + seq(26, _ => 0))| < 37
  {
    var raw: seq<Byte> := [msb] + seq(26, _ => 0);
    assert raw[1..] == Zeros(26);
    if msb == 0 {
      assert raw == Zeros(27);
      LeadingZerosUnique(raw, 27);
      ValueOfZeros(27, 256);
      EncodedLength(raw);
    } else {
      assert raw == [msb as int] + Zeros(26);
      ValueConcat([msb as int], Zeros(26), 256);
      ValueOfSingle(msb, 256);
      ValueOfZeros(26, 256);
      Base58.PowersOf58();
      Base58.PowersOf256();
      MulMonotone(msb, 7, Pow(256, 26));
      LengthByValue(raw);
    }
  }

  /** 0x08 is the least most significant byte that fixes the length at 37 characters. */
  lemma MsbIsTight(msb: Byte)
    ensures (forall raw: seq<Byte> :: |raw| == RAW_SIZE && raw[0] == msb ==> |Base58.Encoded(raw)| == 37)
       <==> msb >= VIRTUAL_CHAIN_ID_MSB
  {
    if msb >= VIRTUAL_CHAIN_ID_MSB {
      forall raw: seq<Byte> | |raw| == RAW_SIZE && raw[0] == msb
        ensures |Base58.Encoded(raw)| == 37
      {
        LengthFromMsb(raw);
      }
    } else {
      ShortBelowMsb(msb);
    }
  }

  // Reading the version out of a text

  predicate IsSpace(c: char) {
    c == ' ' || '\t' <= c <= '\r'
  }

  function SkipSpaces(s: string): string {
    if s != "" && IsSpace(s[0]) then SkipSpaces(s[1..]) else s
  }

  /** The decimal digits at the front of s, read after `acc`. */
  function ReadDigits(s: string, acc: nat): nat {
    if s != "" && '0' <= s[0] <= '9' then ReadDigits(s[1..], acc * 10 + (s[0] as nat - 48)) else acc
  }

  /**
   `Utils::FromString<int>`: a stream extraction whose failure is not looked at.  Without any
   digit the stream stores 0; without any character at all it stores nothing, and what comes back
   is whatever the uninitialised variable held.
   */
  function ParseInt(s: string, uninitialised: int): int {
    var t := SkipSpaces(s);
    if t == "" then uninitialised
    else if t[0] == '-' then -(ReadDigits(t[1..], 0) as int)
    else if t[0] == '+' then ReadDigits(t[1..], 0)
    else ReadDigits(t, 0)
  }

  /** The int cut down to a `uint8_t`. */
  function ParseVersion(s: string, uninitialised: int): Byte {
    ParseInt(s, uninitialised) % 256
  }

  // Validation

  /** A text that differs from the print of some raw address in the two version characters at most. */
  ghost predicate Accepted(h: Hashes, s: string, uninitialised: int) {
    && |s| == ADDRESS_LENGTH
    && IsValidNetworkId(s[0] as int)
    && IsValidVersion(ParseVersion(s[1..3], uninitialised))
    && exists raw: seq<Byte> :: IsRawAddress(h, s[0] as int, raw) && s[3..] == Base58.Encoded(raw)
  }

  lemma {:induction false} TrimmedOfFullLength(s: string)
    ensures |Base58.Trimmed(s)| <= |s|
    ensures |Base58.Trimmed(s)| == |s| ==> Base58.Trimmed(s) == s
  {
    TrimLeftShorter(s);
  }

  lemma {:induction false} TrimLeftShorter(s: string)
    ensures |Base58.TrimLeft(s)| <= |s|
    ensures |Base58.TrimLeft(s)| == |s| ==> Base58.TrimLeft(s) == s
  {
    if s != "" {
      TrimLeftShorter(s[1..]);
    }
  }

  /** A 37-character tail that decodes to a raw address is its only encoding: nothing was trimmed. */
  lemma CanonicalTail(tail: string)
    requires |tail| == 37
    requires Base58.Decoded(tail).Success?
    requires |Base58.Decoded(tail).value| == RAW_SIZE
    requires Base58.Decoded(tail).value[0] >= VIRTUAL_CHAIN_ID_MSB
    ensures Base58.Encoded(Base58.Decoded(tail).value) == tail
  {
    Base58.EncodeOfDecode(tail);
    LengthFromMsb(Base58.Decoded(tail).value);
    TrimmedOfFullLength(tail);
  }

  lemma AcceptedIffTailDecodes(h: Hashes, s: string, uninitialised: int)
    requires |s| == ADDRESS_LENGTH && IsValidNetworkId(s[0] as int)
    requires IsValidVersion(ParseVersion(s[1..3], uninitialised))
    ensures Accepted(h, s, uninitialised) <==>
            && Base58.Decoded(s[3..]).Success?
            && IsRawAddress(h, s[0] as int, Base58.Decoded(s[3..]).value)
  {
    var tail := s[3..];
    if Base58.Decoded(tail).Success? && IsRawAddress(h, s[0] as int, Base58.Decoded(tail).value) {
      CanonicalTail(tail);
    }
    forall raw: seq<Byte> | tail == Base58.Encoded(raw)
      ensures Base58.Decoded(tail) == Success(raw)
    {
      Base58.DecodeOfEncode(raw);
    }
  }

  lemma SplitFields(networkId: Byte, decoded: seq<Byte>)
    requires |decoded| == RAW_SIZE
    ensures [networkId] + [VERSION] + decoded[..23] == [networkId, VERSION] + decoded[..3] + decoded[3..23]
  {
    assert decoded[..23] == decoded[..3] + decoded[3..23];
  }

  method IsValid(h: Hashes, address: string, uninitialised: int) returns (valid: bool)
    ensures valid <==> Accepted(h, address, uninitialised)
  {
    if |address| != ADDRESS_LENGTH {
      return false;
    }
    var offset := 0;
    var networkId := address[offset] as int;
    if !IsValidNetworkId(networkId) {
      return false;
    }
    offset := offset + NETWORK_ID_SIZE;
    var version := ParseVersion(address[offset..offset + VERSION_SIZE], uninitialised);
    if !IsValidVersion(version) {
      return false;
    }
    offset := offset + VERSION_SIZE;
    AcceptedIffTailDecodes(h, address, uninitialised);

    var decoding := Base58.Decode(address[offset..]);
    if decoding.Failure? {
      return false;
    }
    var decoded := decoding.value;
    if |decoded| != VIRTUAL_CHAIN_ID_SIZE + ACCOUNT_ID_SIZE + CHECKSUM_SIZE {
      return false;
    }
    if !IsValidVirtualChainId(decoded[..VIRTUAL_CHAIN_ID_SIZE]) {
      return false;
    }
    var rawAddress: seq<Byte> := [networkId];
    rawAddress := rawAddress + [version];
    rawAddress := rawAddress + decoded[..|decoded| - CHECKSUM_SIZE];
    SplitFields(networkId, decoded);
    var checksum := decoded[|decoded| - CHECKSUM_SIZE..];
    return checksum == h.crc32(rawAddress);
  }

  // The object

  class Address {
    const publicKey: seq<Byte>
    const virtualChainId: seq<Byte>
    const networkId: Byte
    var version: Byte
    var accountId: seq<Byte>
    var checksum: seq<Byte>

    constructor (publicKey: seq<Byte>, virtualChainId: seq<Byte>, networkId: Byte)
      ensures this.publicKey == publicKey && this.virtualChainId == virtualChainId && this.networkId == networkId
    {
      this.publicKey, this.virtualChainId, this.networkId := publicKey, virtualChainId, networkId;
    }

    /** What `Init` leaves behind when it does not throw. */
    ghost predicate Initialised(h: Hashes)
      reads this
    {
      && |publicKey| == PUBLIC_KEY_SIZE
      && IsValidVirtualChainId(virtualChainId)
      && IsValidNetworkId(networkId)
      && version == VERSION
      && accountId == AccountIdOf(h, publicKey)
      && checksum == ChecksumOf(h, networkId, virtualChainId, accountId)
    }

    function Raw(): seq<Byte>
      reads this
    {
      virtualChainId + accountId + checksum
    }

    method Init(h: Hashes) returns (error: Option<Error>)
      modifies this
      ensures error == if |publicKey| != PUBLIC_KEY_SIZE then Some(InvalidPublicKeyLength)
                       else if !IsValidVirtualChainId(virtualChainId) then Some(InvalidVirtualChainId)
                       else if !IsValidNetworkId(networkId) then Some(InvalidNetworkId)
                       else None
      ensures error.None? ==>
                && Initialised(h)
                && accountId == h.ripemd160(h.sha256(publicKey))
                && checksum == h.crc32([networkId, 0] + virtualChainId + h.ripemd160(h.sha256(publicKey)))
    {
      if |publicKey| != PUBLIC_KEY_SIZE {
        return Some(InvalidPublicKeyLength);
      }
      if !IsValidVirtualChainId(virtualChainId) {
        return Some(InvalidVirtualChainId);
      }
      if !IsValidNetworkId(networkId) {
        return Some(InvalidNetworkId);
      }
      version := VERSION;
      accountId := h.ripemd160(h.sha256(publicKey));
      assert |accountId| == ACCOUNT_ID_SIZE;

      var prefixedAccountId: seq<Byte> := [networkId];
      prefixedAccountId := prefixedAccountId + [version];
      prefixedAccountId := prefixedAccountId + virtualChainId;
      prefixedAccountId := prefixedAccountId + accountId;
      checksum := h.crc32(prefixedAccountId);
      assert |checksum| == CHECKSUM_SIZE;
      assert prefixedAccountId == [networkId, VERSION] + virtualChainId + accountId;
      return None;
    }

    /** Every constructible address prints to 40 characters, which validation accepts. */
    method ToString(h: Hashes) returns (str: string)
      requires Initialised(h)
      ensures str == Text(networkId, Raw())
      ensures var account := h.ripemd160(h.sha256(publicKey));
              str == [networkId as char] + "00" +
                     Base58.Encoded(virtualChainId + account + h.crc32([networkId, 0] + virtualChainId + account))
      ensures |str| == ADDRESS_LENGTH
      ensures forall uninitialised :: Accepted(h, str, uninitialised)
    {
      str := [networkId as char] + Hex.HexByte(version);
      var rawAddress: seq<Byte> := [];
      rawAddress := rawAddress + virtualChainId;
      rawAddress := rawAddress + accountId;
      rawAddress := rawAddress + checksum;
      assert rawAddress == Raw();
      var tail := Base58.Encode(rawAddress);
      str := str + tail;
      assert Raw()[..3] == virtualChainId && Raw()[3..23] == accountId && Raw()[23..] == checksum;
      TextIsAccepted(h, networkId, Raw());
    }
  }

  /** Printing any raw address gives an accepted text of the full length. */
  lemma TextIsAccepted(h: Hashes, networkId: Byte, raw: seq<Byte>)
    requires IsValidNetworkId(networkId) && IsRawAddress(h, networkId, raw)
    ensures |Text(networkId, raw)| == ADDRESS_LENGTH
    ensures forall uninitialised :: Accepted(h, Text(networkId, raw), uninitialised)
  {
    LengthFromMsb(raw);
    var s := Text(networkId, raw);
    assert s[1..3] == "00" && s[3..] == Base58.Encoded(raw);
    assert s[0] as int == networkId;
    VersionZeroZero();
  }

  lemma VersionZeroZero()
    ensures forall uninitialised :: ParseVersion("00", uninitialised) == 0
  {
    assert ReadDigits("00", 0) == ReadDigits("0", 0) == ReadDigits("", 0) == 0 by {
      assert "00"[1..] == "0" && "0"[1..] == "";
    }
  }

  lemma PrintsAlikeIffVersion(s: string, t: string)
    requires |s| == ADDRESS_LENGTH && t == [s[0]] + "00" + s[3..]
    ensures s == t <==> s[1..3] == "00"
  {
    assert s == [s[0]] + s[1..3] + s[3..];
    assert t[1..3] == "00";
  }

  lemma AcceptedTail(h: Hashes, s: string, uninitialised: int)
    requires Accepted(h, s, uninitialised)
    ensures Base58.Decoded(s[3..]).Success?
    ensures Base58.Encoded(Base58.Decoded(s[3..]).value) == s[3..]
  {
    var raw: seq<Byte> :| IsRawAddress(h, s[0] as int, raw) && s[3..] == Base58.Encoded(raw);
    Base58.DecodeOfEncode(raw);
  }

  /**
   An accepted text is the print of the raw address its tail decodes to exactly when its version
   reads "00"; any other version text that parses to 0 is let through as well.
   */
  lemma AcceptedIsPrintIffVersion(h: Hashes, s: string, uninitialised: int)
    requires Accepted(h, s, uninitialised)
    ensures Base58.Decoded(s[3..]).Success?
    ensures s == Text(s[0] as int, Base58.Decoded(s[3..]).value) <==> s[1..3] == "00"
  {
    AcceptedTail(h, s, uninitialised);
    PrintsAlikeIffVersion(s, Text(s[0] as int, Base58.Decoded(s[3..]).value));
  }

  /** What validation accepts, down to the checksum: that of network ID, version 0, chain ID and account ID. */
  lemma AcceptedDirectly(h: Hashes, s: string, uninitialised: int)
    ensures Accepted(h, s, uninitialised) <==>
            && |s| == 40 && (s[0] == 'M' || s[0] == 'T')
            && ParseVersion(s[1..3], uninitialised) == 0
            && exists chain: seq<Byte>, account: seq<Byte> ::
                 && |chain| == 3 && chain[0] >= 8 && |account| == 20
                 && s[3..] == Base58.Encoded(chain + account + h.crc32([s[0] as int, 0] + chain + account))
  {
    if Accepted(h, s, uninitialised) {
      var raw: seq<Byte> :| IsRawAddress(h, s[0] as int, raw) && s[3..] == Base58.Encoded(raw);
      RawOfParts(raw);
    }
    if && |s| == 40 && (s[0] == 'M' || s[0] == 'T') && ParseVersion(s[1..3], uninitialised) == 0 {
      forall chain: seq<Byte>, account: seq<Byte> | && |chain| == 3 && chain[0] >= 8 && |account| == 20
        ensures IsRawAddress(h, s[0] as int, chain + account + h.crc32([s[0] as int, 0] + chain + account))
      {
        PartsOfRaw(chain, account, h.crc32([s[0] as int, 0] + chain + account));
      }
    }
  }

  lemma RawOfParts(raw: seq<Byte>)
    requires |raw| == RAW_SIZE
    ensures raw == raw[..3] + raw[3..23] + raw[23..]
  {
  }

  lemma PartsOfRaw(chain: seq<Byte>, account: seq<Byte>, checksum: seq<Byte>)
    requires |chain| == 3 && |account| == 20 && |checksum| == 4
    ensures var raw := chain + account + checksum;
            |raw| == RAW_SIZE && raw[..3] == chain && raw[3..23] == account && raw[23..] == checksum
  {
  }

  // Which version texts are let through

  predicate IsDigit(c: char) {
    '0' <= c <= '9'
  }

  /** The one digit of a character, 0 if it is none. */
  function DigitOr0(c: char): nat {
    if IsDigit(c) then c as nat - 48 else 0
  }

  lemma ReadOneDigit(b: char, acc: nat)
    ensures ReadDigits([b], acc) == if IsDigit(b) then acc * 10 + DigitOr0(b) else acc
  {
    assert [b][1..] == "";
  }

  lemma ReadTwoDigits(a: char, b: char)
    ensures ReadDigits([a, b], 0) ==
            if !IsDigit(a) then 0 else if IsDigit(b) then DigitOr0(a) * 10 + DigitOr0(b) else DigitOr0(a)
  {
    assert [a, b][1..] == [b];
    if IsDigit(a) {
      ReadOneDigit(b, DigitOr0(a));
    }
  }

  lemma SkipOne(b: char)
    ensures SkipSpaces([b]) == if IsSpace(b) then "" else [b]
  {
    assert [b][1..] == "";
    assert SkipSpaces("") == "";
  }

  lemma SkipFirst(a: char, b: char)
    ensures SkipSpaces([a, b]) == if IsSpace(a) then SkipSpaces([b]) else [a, b]
  {
    assert [a, b][1..] == [b];
  }

  lemma ParseAfterSpace(a: char, b: char, uninitialised: int)
    requires IsSpace(a)
    ensures ParseInt([a, b], uninitialised) == if IsSpace(b) then uninitialised else DigitOr0(b)
  {
    SkipFirst(a, b);
    SkipOne(b);
    ReadOneDigit(b, 0);
    assert [b][1..] == "" && ReadDigits("", 0) == 0;
  }

  lemma ParseAtOnce(a: char, b: char, uninitialised: int)
    requires !IsSpace(a)
    ensures ParseInt([a, b], uninitialised) ==
            if a == '-' then 0 - DigitOr0(b)
            else if a == '+' then DigitOr0(b)
            else if IsDigit(a) && IsDigit(b) then DigitOr0(a) * 10 + DigitOr0(b)
            else DigitOr0(a)
  {
    SkipFirst(a, b);
    assert [a, b][1..] == [b];
    ReadOneDigit(b, 0);
    ReadTwoDigits(a, b);
  }

  /** Two characters read as version 0 unless a digit other than 0 is among those read. */
  lemma VersionReadsZeroIff(a: char, b: char, uninitialised: int)
    ensures var blank := (c: char) => c == ' ' || 9 <= c as int <= 13;
            ParseVersion([a, b], uninitialised) == 0 <==>
            if blank(a) && blank(b) then uninitialised % 256 == 0
            else if '0' <= a <= '9' then a == '0' && !('1' <= b <= '9')
            else if blank(a) || a == '-' || a == '+' then !('1' <= b <= '9')
            else true
  {
    if IsSpace(a) {
      ParseAfterSpace(a, b, uninitialised);
    } else {
      ParseAtOnce(a, b, uninitialised);
    }
  }

  /** A version that is no number at all is accepted: validation is looser than printing. */
  lemma VersionTextIsLoose(h: Hashes, networkId: Byte, raw: seq<Byte>, uninitialised: int)
    requires IsValidNetworkId(networkId) && IsRawAddress(h, networkId, raw)
    ensures var s := [networkId as char] + "xy" + Base58.Encoded(raw);
            Accepted(h, s, uninitialised) && s != Text(networkId, raw)
  {
    LengthFromMsb(raw);
    var s := [networkId as char] + "xy" + Base58.Encoded(raw);
    assert s[1..3] == "xy" && s[3..] == Base58.Encoded(raw);
    assert s[0] as int == networkId;
    assert Text(networkId, raw)[1] == '0';
  }
}
