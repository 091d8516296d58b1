/**
 Keys of the contract state, and the two texts the node turns them into: "address:key" in the
 caches of the virtual machine and "hex.key" in the state storage.
 */
module StateKeys {
  import opened Wrappers
  import Base58
  import Hex
  import RawAddress

  datatype StateKey = StateKey(contractAddress: seq<Byte>, key: string)

  /** An entry of a state diff. */
  datatype Modified = Modified(key: StateKey, value: string)

  // Splitting at a separator

  function Before(s: string, c: char): (r: string)
    ensures c !in r
    ensures c !in s ==> r == s
  {
    if s == "" || s[0] == c then "" else [s[0]] + Before(s[1..], c)
  }

  function After(s: string, c: char): string {
    if s == "" then "" else if s[0] == c then s[1..] else After(s[1..], c)
  }

  lemma {:induction false} SplitAt(a: string, b: string, c: char)
    requires c !in a
    ensures Before(a + [c] + b, c) == a && After(a + [c] + b, c) == b
  {
    var s := a + [c] + b;
    if a != "" {
      assert a[0] != c && c !in a[1..];
      assert s[1..] == a[1..] + [c] + b;
      SplitAt(a[1..], b, c);
    } else {
      assert s[1..] == b;
    }
  }

  // Cache keys

  function EncodeMapKey(k: StateKey): string {
    RawAddress.EncodeRaw(k.contractAddress) + ":" + k.key
  }

  /** The first two parts of the text split at its colons; what follows a second colon is lost. */
  function DecodeMapKey(encodedKey: string): Result<StateKey, Base58.Error> {
    match RawAddress.DecodeRaw(Before(encodedKey, ':'))
    case Failure(e) => Failure(e)
    case Success(address) => Success(StateKey(address, Before(After(encodedKey, ':'), ':')))
  }

  lemma ColonOnlyInNetwork(raw: seq<Byte>)
    ensures RawAddress.WellFormed(raw) ==> ':' !in RawAddress.EncodeRaw(raw)
    ensures raw != [] && raw[0] == ':' as int ==> RawAddress.EncodeRaw(raw) != "" && RawAddress.EncodeRaw(raw)[0] == ':'
    ensures raw != [] && raw[0] >= 128 ==> ':' !in RawAddress.EncodeRaw(raw)
  {
    RawAddress.NoColonAfterNetwork(raw);
    RawAddress.PartsOfEncoded(raw);
  }

  lemma SplitOfEncoded(k: StateKey)
    requires ':' !in RawAddress.EncodeRaw(k.contractAddress)
    ensures Before(EncodeMapKey(k), ':') == RawAddress.EncodeRaw(k.contractAddress)
    ensures After(EncodeMapKey(k), ':') == k.key
  {
    SplitAt(RawAddress.EncodeRaw(k.contractAddress), k.key, ':');
  }

  lemma NothingIsNoAddress()
    ensures RawAddress.DecodeRaw("") == Success([])
  {
    RawAddress.PartsOfEncoded([]);
    RawAddress.RawRoundTrip([]);
  }

  /** Decoding never fails on a key that was encoded, and always yields a key without a colon. */
  lemma DecodeOfEncoded(k: StateKey)
    ensures DecodeMapKey(EncodeMapKey(k)).Success?
    ensures ':' !in DecodeMapKey(EncodeMapKey(k)).value.key
    ensures RawAddress.WellFormed(k.contractAddress) ==>
              DecodeMapKey(EncodeMapKey(k)).value == StateKey(k.contractAddress, Before(k.key, ':'))
  {
    var raw := k.contractAddress;
    ColonOnlyInNetwork(raw);
    if ':' !in RawAddress.EncodeRaw(raw) {
      SplitOfEncoded(k);
      RawAddress.DecodeOfEncode(raw);
      RawAddress.RawRoundTrip(raw);
    } else {
      assert EncodeMapKey(k)[0] == ':';
      NothingIsNoAddress();
    }
  }

  /** A cache key survives decoding exactly when its address is well formed and its key has no colon. */
  lemma CacheKeyRoundTrip(k: StateKey)
    ensures DecodeMapKey(EncodeMapKey(k)) == Success(k) <==>
            RawAddress.WellFormed(k.contractAddress) && ':' !in k.key
  {
    DecodeOfEncoded(k);
    var raw := k.contractAddress;
    if !RawAddress.WellFormed(raw) {
      ColonOnlyInNetwork(raw);
      if raw[0] == ':' as int {
        assert EncodeMapKey(k)[0] == ':';
        assert Before(EncodeMapKey(k), ':') == "";
        NothingIsNoAddress();
      } else {
        SplitOfEncoded(k);
        RawAddress.RawRoundTrip(raw);
      }
    }
  }

  /** Well-formed addresses, with any keys, never share a cache key. */
  lemma CacheKeyInjective(a: StateKey, b: StateKey)
    requires RawAddress.WellFormed(a.contractAddress) && RawAddress.WellFormed(b.contractAddress)
    requires EncodeMapKey(a) == EncodeMapKey(b)
    ensures a == b
  {
    ColonOnlyInNetwork(a.contractAddress);
    ColonOnlyInNetwork(b.contractAddress);
    SplitOfEncoded(a);
    SplitOfEncoded(b);
    RawAddress.RawRoundTrip(a.contractAddress);
    RawAddress.RawRoundTrip(b.contractAddress);
  }

  /** Two addresses that differ in a network ID outside ASCII do share all their cache keys. */
  lemma CacheKeysCollide(n: Byte, m: Byte, rest: seq<Byte>, key: string)
    requires n >= 128 && m >= 128
    ensures EncodeMapKey(StateKey([n] + rest, key)) == EncodeMapKey(StateKey([m] + rest, key))
  {
    var a, b := [n] + rest, [m] + rest;
    assert RawAddress.Slice(a, 1, 2) == RawAddress.Slice(b, 1, 2);
    assert RawAddress.Slice(a, 2, |a| + 2) == RawAddress.Slice(b, 2, |b| + 2);
  }

  // Storage keys

  function GenerateMapKeyString(k: StateKey): string {
    Hex.ToHex(k.contractAddress) + "." + k.key
  }

  /** What stands before the first dot is the address in hex, what stands after it the key. */
  lemma StoreKeyReads(k: StateKey)
    ensures Hex.FromHex(Before(GenerateMapKeyString(k), '.')) == k.contractAddress
    ensures After(GenerateMapKeyString(k), '.') == k.key
  {
    Hex.HexCharacters(k.contractAddress);
    SplitAt(Hex.ToHex(k.contractAddress), k.key, '.');
    Hex.HexRoundTrip(k.contractAddress);
  }

  /** Storage keys never collide, whatever the addresses and keys. */
  lemma StoreKeyInjective(a: StateKey, b: StateKey)
    requires GenerateMapKeyString(a) == GenerateMapKeyString(b)
    ensures a == b
  {
    StoreKeyReads(a);
    StoreKeyReads(b);
  }
}
