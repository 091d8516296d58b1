// The state cache of the virtual machine.
module StateCaches {
  import opened Wrappers
  import opened StateKeys
  import opened CacheContents
  import RawAddress

  function EncodedItems(items: seq<Modified>): (r: seq<Entry>)
    ensures |r| == |items|
    ensures forall i :: 0 <= i < |r| ==> r[i] == Entry(EncodeMapKey(items[i].key), items[i].value)
  {
    seq(|items|, i requires 0 <= i < |items| => Entry(EncodeMapKey(items[i].key), items[i].value))
  }

  function SetAll(c: Contents, items: seq<Modified>): Contents {
    SetEntries(c, EncodedItems(items))
  }

  lemma SetAllOneMore(c: Contents, items: seq<Modified>)
    requires items != []
    ensures var n := |items| - 1;
            SetAll(c, items) == SetKey(SetAll(c, items[..n]), EncodeMapKey(items[n].key), items[n].value)
  {
    assert EncodedItems(items)[..|items| - 1] == EncodedItems(items[..|items| - 1]);
  }

  /** Every cached key can be decoded. */
  ghost predicate Decodable(c: Contents) {
    Consistent(c) && forall k :: k in c.cache ==> DecodeMapKey(k).Success?
  }

  function Decode(e: Entry): Modified
    requires DecodeMapKey(e.encodedKey).Success?
  {
    Modified(DecodeMapKey(e.encodedKey).value, e.value)
  }

  function ModifiedItems(c: Contents): (r: seq<Modified>)
    requires Decodable(c)
    ensures |r| == |c.modified|
    ensures forall i :: 0 <= i < |r| ==>
              DecodeMapKey(c.modified[i]).Success? && r[i] == Decode(ModifiedEntries(c)[i])
  {
    var entries := ModifiedEntries(c);
    seq(|entries|, i requires 0 <= i < |entries| => Decode(entries[i]))
  }

  lemma ItemAt(c: Contents, i: nat)
    requires Decodable(c) && i < |c.modified|
    ensures c.modified[i] in c.cache && DecodeMapKey(c.modified[i]).Success?
    ensures ModifiedItems(c)[i] == Modified(DecodeMapKey(c.modified[i]).value, c.cache[c.modified[i]])
  {
    assert c.modified[i] in c.modified;
  }

  /** A cache key that decoding and encoding again leaves as it is. */
  ghost predicate Faithful(encodedKey: string) {
    DecodeMapKey(encodedKey).Success? && EncodeMapKey(DecodeMapKey(encodedKey).value) == encodedKey
  }

  lemma SetKeepsDecodable(c: Contents, key: StateKey, value: string)
    requires Decodable(c)
    ensures Decodable(SetKey(c, EncodeMapKey(key), value))
  {
    DecodeOfEncoded(key);
  }

  lemma SetAllKeepsDecodable(c: Contents, items: seq<Modified>)
    requires Decodable(c)
    ensures Decodable(SetAll(c, items))
  {
    SetEntriesKeeps(c, EncodedItems(items));
    forall k | k in SetAll(c, items).cache
      ensures DecodeMapKey(k).Success?
    {
      KeysAfterSets(c, EncodedItems(items), k);
      if k !in c.cache {
        var i :| 0 <= i < |items| && k == EncodedItems(items)[i].encodedKey;
        DecodeOfEncoded(items[i].key);
      }
    }
  }

  /** Keys that were encoded from well-formed addresses and keys without a colon are faithful. */
  lemma PlainKeysAreFaithful(k: StateKey)
    requires RawAddress.WellFormed(k.contractAddress) && ':' !in k.key
    ensures Faithful(EncodeMapKey(k))
  {
    CacheKeyRoundTrip(k);
  }

  lemma FaithfulItem(e: Entry)
    requires Faithful(e.encodedKey)
    ensures Entry(EncodeMapKey(Decode(e).key), Decode(e).value) == e
  {
  }

  lemma ItemsAreEntries(c: Contents)
    requires Decodable(c)
    requires forall k :: k in c.modified ==> Faithful(k)
    ensures EncodedItems(ModifiedItems(c)) == ModifiedEntries(c)
  {
    forall i | 0 <= i < |c.modified|
      ensures EncodedItems(ModifiedItems(c))[i] == ModifiedEntries(c)[i]
    {
      assert c.modified[i] in c.modified;
      FaithfulItem(ModifiedEntries(c)[i]);
    }
  }

  /**
   The fork law: whatever is set on a fork, merging its modified keys leaves the parent with the
   fork's cache, provided the keys set have well-formed addresses and no colon.
   */
  lemma ForkLaw(parent: Contents, sets: seq<Modified>)
    requires Decodable(parent)
    requires forall i :: 0 <= i < |sets| ==>
               RawAddress.WellFormed(sets[i].key.contractAddress) && ':' !in sets[i].key.key
    ensures var f := SetAll(Forked(parent), sets);
            Decodable(f) && SetAll(parent, ModifiedItems(f)).cache == f.cache
  {
    var f := SetAll(Forked(parent), sets);
    ForkRunStaysFork(parent, EncodedItems(sets));
    SetAllKeepsDecodable(Forked(parent), sets);
    forall k | k in f.modified
      ensures Faithful(k)
    {
      KeysAfterSets(Forked(parent), EncodedItems(sets), k);
      var i :| 0 <= i < |sets| && k == EncodedItems(sets)[i].encodedKey;
      PlainKeysAreFaithful(sets[i].key);
    }
    ItemsAreEntries(f);
    MergeCompletes(f, parent);
  }

  lemma ColonIsUnfaithful(k: StateKey)
    requires RawAddress.WellFormed(k.contractAddress) && ':' in k.key
    ensures !Faithful(EncodeMapKey(k))
  {
    DecodeOfEncoded(k);
    if EncodeMapKey(DecodeMapKey(EncodeMapKey(k)).value) == EncodeMapKey(k) {
      CacheKeyInjective(DecodeMapKey(EncodeMapKey(k)).value, k);
    }
  }

  lemma ModifiedWasSet(parent: Contents, sets: seq<Modified>, e: string) returns (j: nat)
    requires e in SetAll(Forked(parent), sets).modified
    ensures j < |sets| && e == EncodeMapKey(sets[j].key)
  {
    KeysAfterSets(Forked(parent), EncodedItems(sets), e);
    j :| 0 <= j < |sets| && e == EncodedItems(sets)[j].encodedKey;
  }

  /** The item of a key that was set is faithful when encoded again. */
  lemma ItemIsFaithful(f: Contents, i: nat, k: StateKey)
    requires Decodable(f) && i < |f.modified| && f.modified[i] == EncodeMapKey(k)
    requires RawAddress.WellFormed(k.contractAddress)
    ensures Faithful(EncodeMapKey(ModifiedItems(f)[i].key))
  {
    ItemAt(f, i);
    DecodeOfEncoded(k);
    PlainKeysAreFaithful(ModifiedItems(f)[i].key);
  }

  lemma MergedKey(parent: Contents, items: seq<Modified>, e: string) returns (i: nat)
    requires e in SetAll(parent, items).cache && e !in parent.cache
    ensures i < |items| && e == EncodeMapKey(items[i].key)
  {
    KeysAfterSets(parent, EncodedItems(items), e);
    i :| 0 <= i < |items| && e == EncodedItems(items)[i].encodedKey;
  }

  /** Whatever was set on a fork, merging it sets faithful keys only. */
  lemma MergedIsFaithful(parent: Contents, sets: seq<Modified>, f: Contents, e: string)
    requires f == SetAll(Forked(parent), sets) && Decodable(f)
    requires forall k :: k in parent.cache ==> Faithful(k)
    requires forall i :: 0 <= i < |sets| ==> RawAddress.WellFormed(sets[i].key.contractAddress)
    requires e in SetAll(parent, ModifiedItems(f)).cache
    ensures Faithful(e)
  {
    if e !in parent.cache {
      var i := MergedKey(parent, ModifiedItems(f), e);
      assert f.modified[i] in f.modified;
      var j := ModifiedWasSet(parent, sets, f.modified[i]);
      ItemIsFaithful(f, i, sets[j].key);
    }
  }

  lemma SetKeyIsCached(c: Contents, sets: seq<Modified>, i: nat)
    requires i < |sets|
    ensures EncodeMapKey(sets[i].key) in SetAll(c, sets).cache
  {
    var e := EncodeMapKey(sets[i].key);
    KeysAfterSets(c, EncodedItems(sets), e);
    assert EncodedItems(sets)[i].encodedKey == e;
  }

  /** On well-formed addresses and a faithful parent, the fork law holds exactly when no key set has a colon. */
  lemma ForkLawIff(parent: Contents, sets: seq<Modified>)
    requires Decodable(parent) && forall k :: k in parent.cache ==> Faithful(k)
    requires forall i :: 0 <= i < |sets| ==> RawAddress.WellFormed(sets[i].key.contractAddress)
    ensures var f := SetAll(Forked(parent), sets);
            && Decodable(f)
            && (SetAll(parent, ModifiedItems(f)).cache == f.cache <==>
                  forall i :: 0 <= i < |sets| ==> ':' !in sets[i].key.key)
  {
    SetAllKeepsDecodable(Forked(parent), sets);
    var f := SetAll(Forked(parent), sets);
    if i :| 0 <= i < |sets| && ':' in sets[i].key.key {
      SetKeyIsCached(Forked(parent), sets, i);
      ColonIsUnfaithful(sets[i].key);
      if SetAll(parent, ModifiedItems(f)).cache == f.cache {
        MergedIsFaithful(parent, sets, f, EncodeMapKey(sets[i].key));
      }
    } else {
      ForkLaw(parent, sets);
    }
  }

  /** The cache of a block marks all its keys as modified, whatever is set or merged. */
  lemma BlockCacheIsAllModified(items: seq<Modified>, k: string)
    ensures k in SetAll(EMPTY, items).modified <==> k in SetAll(EMPTY, items).cache
  {
    RootStaysRoot(EMPTY, EncodedItems(items));
  }

  /** The modified keys are listed once each, with the value last set. */
  lemma EachKeyOnce(c: Contents)
    requires Decodable(c)
    requires forall k :: k in c.modified ==> Faithful(k)
    ensures var items := ModifiedItems(c);
            && (forall i, j :: 0 <= i < j < |items| ==> items[i].key != items[j].key)
            && (forall i :: 0 <= i < |items| ==>
                  && EncodeMapKey(items[i].key) in c.modified
                  && items[i].value == c.cache[EncodeMapKey(items[i].key)])
  {
    var items := ModifiedItems(c);
    forall i | 0 <= i < |items|
      ensures EncodeMapKey(items[i].key) == c.modified[i] && c.modified[i] in c.cache
    {
      assert Faithful(c.modified[i]);
    }
  }

  // The object

  class StateCache {
    var cache: map<string, string>
    var modifiedKeys: seq<string>

    constructor (cache: map<string, string>)
      ensures this.cache == cache && modifiedKeys == []
    {
      this.cache, modifiedKeys := cache, [];
    }

    function State(): Contents
      reads this
    {
      Contents(cache, modifiedKeys)
    }

    method Get(key: StateKey) returns (value: Option<string>)
      ensures value == if EncodeMapKey(key) in cache then Some(cache[EncodeMapKey(key)]) else None
    {
      var encodedKey := EncodeMapKey(key);
      value := if encodedKey in cache then Some(cache[encodedKey]) else None;
    }

    method Set(key: StateKey, value: string, markIfModified: bool := true)
      modifies this
      ensures markIfModified ==> State() == SetKey(old(State()), EncodeMapKey(key), value)
      ensures !markIfModified ==> State() == old(State()).(cache := old(cache)[EncodeMapKey(key) := value])
    {
      var encodedKey := EncodeMapKey(key);
      if markIfModified {
        var oldValue := if encodedKey in cache then Some(cache[encodedKey]) else None;
        if Some(value) != oldValue {
          modifiedKeys := Insert(modifiedKeys, encodedKey);
        }
      }
      cache := cache[encodedKey := value];
    }

    method GetModifiedKeys() returns (res: seq<Modified>)
      requires Decodable(State())
      ensures res == ModifiedItems(State())
    {
      res := [];
      ghost var items := ModifiedItems(State());
      for i := 0 to |modifiedKeys|
        invariant res == items[..i]
      {
        ItemAt(State(), i);
        var key := modifiedKeys[i];
        res := res + [Modified(DecodeMapKey(key).value, cache[key])];
      }
    }

    method Fork() returns (f: StateCache)
      ensures fresh(f) && f.State() == Forked(State())
    {
      f := new StateCache(cache);
    }

    method Merge(items: seq<Modified>)
      modifies this
      ensures State() == SetAll(old(State()), items)
    {
      ghost var entries := EncodedItems(items);
      ghost var before := State();
      for i := 0 to |items|
        invariant State() == SetEntries(before, entries[..i])
      {
        Set(items[i].key, items[i].value);
        SetOneMore(before, entries, i);
      }
      assert entries[..|items|] == entries;
    }
  }
}
