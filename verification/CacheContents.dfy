/**
 The contents of a state cache as a value: the cached texts by encoded key, and the encoded keys
 modified, in the order in which they first were.  Nothing here depends on how keys are encoded.
 */
module CacheContents {

  datatype Contents = Contents(cache: map<string, string>, modified: seq<string>)

  datatype Entry = Entry(encodedKey: string, value: string)

  const EMPTY := Contents(map[], [])

  predicate Distinct(s: seq<string>) {
    forall i, j :: 0 <= i < j < |s| ==> s[i] != s[j]
  }

  /** Adding to a set that remembers the order of insertion. */
  function Insert(s: seq<string>, x: string): (r: seq<string>)
    ensures x in r && forall y :: y in r <==> y in s || y == x
    ensures Distinct(s) ==> Distinct(r)
  {
    if x in s then s else s + [x]
  }

  function SetKey(c: Contents, encodedKey: string, value: string): Contents {
    Contents(c.cache[encodedKey := value],
             if encodedKey in c.cache && c.cache[encodedKey] == value then c.modified
             else Insert(c.modified, encodedKey))
  }

  function SetEntries(c: Contents, entries: seq<Entry>): Contents {
    if entries == [] then c
    else
      var last := entries[|entries| - 1];
      SetKey(SetEntries(c, entries[..|entries| - 1]), last.encodedKey, last.value)
  }

  lemma SetOneMore(c: Contents, entries: seq<Entry>, i: nat)
    requires i < |entries|
    ensures SetEntries(c, entries[..i + 1]) ==
            SetKey(SetEntries(c, entries[..i]), entries[i].encodedKey, entries[i].value)
  {
    assert entries[..i + 1][..i] == entries[..i];
  }

  function Forked(c: Contents): Contents {
    Contents(c.cache, [])
  }

  /** Modified keys are cached and listed once. */
  ghost predicate Consistent(c: Contents) {
    Distinct(c.modified) && forall k :: k in c.modified ==> k in c.cache
  }

  function ModifiedEntries(c: Contents): (r: seq<Entry>)
    requires Consistent(c)
    ensures |r| == |c.modified|
    ensures forall i :: 0 <= i < |r| ==>
              c.modified[i] in c.cache && r[i] == Entry(c.modified[i], c.cache[c.modified[i]])
  {
    seq(|c.modified|, i requires 0 <= i < |c.modified| =>
      assert c.modified[i] in c.modified;
      Entry(c.modified[i], c.cache[c.modified[i]]))
  }

  lemma {:induction false} SetEntriesKeeps(c: Contents, entries: seq<Entry>)
    requires Consistent(c)
    ensures Consistent(SetEntries(c, entries))
  {
    if entries != [] {
      SetEntriesKeeps(c, entries[..|entries| - 1]);
    }
  }

  /** Exactly the keys set are cached besides those cached before, and only they are marked. */
  lemma {:induction false} KeysAfterSets(c: Contents, entries: seq<Entry>, k: string)
    ensures k in SetEntries(c, entries).cache <==>
            k in c.cache || exists i :: 0 <= i < |entries| && k == entries[i].encodedKey
    ensures k in SetEntries(c, entries).modified ==>
              k in c.modified || exists i :: 0 <= i < |entries| && k == entries[i].encodedKey
  {
    if entries != [] {
      var n := |entries| - 1;
      KeysAfterSets(c, entries[..n], k);
      if i :| 0 <= i < n && k == entries[..n][i].encodedKey {
        assert entries[..n][i] == entries[i];
      }
      if i :| 0 <= i < n && k == entries[i].encodedKey {
        assert entries[..n][i] == entries[i];
      }
    }
  }

  /** Sets mark a key exactly when one of them changes its value; what was marked before comes first. */
  lemma {:induction false} MarksChanges(c: Contents, entries: seq<Entry>, k: string)
    ensures c.modified <= SetEntries(c, entries).modified
    ensures k in SetEntries(c, entries).modified <==>
            k in c.modified || exists i :: 0 <= i < |entries| && Changes(c, entries, i, k)
  {
    if entries != [] {
      var n := |entries| - 1;
      MarksChanges(c, entries[..n], k);
      forall i | 0 <= i < n
        ensures Changes(c, entries[..n], i, k) <==> Changes(c, entries, i, k)
      {
        assert entries[..n][..i] == entries[..i];
      }
      assert Changes(c, entries, n, k) <==>
             k == entries[n].encodedKey
             && !(k in SetEntries(c, entries[..n]).cache && SetEntries(c, entries[..n]).cache[k] == entries[n].value);
    }
  }

  /** The i-th set is of the key, to a text other than the one cached until then. */
  ghost predicate Changes(c: Contents, entries: seq<Entry>, i: nat, k: string)
    requires i < |entries|
  {
    var before := SetEntries(c, entries[..i]).cache;
    entries[i].encodedKey == k && !(k in before && before[k] == entries[i].value)
  }

  /** The cache of a block: everything in it is marked as modified. */
  ghost predicate IsRoot(c: Contents) {
    Consistent(c) && forall k :: k in c.modified <==> k in c.cache
  }

  lemma {:induction false} RootStaysRoot(c: Contents, entries: seq<Entry>)
    requires IsRoot(c)
    ensures IsRoot(SetEntries(c, entries))
  {
    if entries != [] {
      RootStaysRoot(c, entries[..|entries| - 1]);
    }
  }

  /** A fork holds all keys of its parent and marks at least those it changed. */
  ghost predicate IsForkOf(f: Contents, parent: Contents) {
    && Consistent(f)
    && (forall k :: k in parent.cache ==> k in f.cache)
    && (forall k :: k in f.cache && k !in f.modified ==> k in parent.cache && f.cache[k] == parent.cache[k])
  }

  lemma ForkIsFork(parent: Contents)
    requires Consistent(parent)
    ensures IsForkOf(Forked(parent), parent)
  {
  }

  lemma ForkStaysFork(f: Contents, parent: Contents, encodedKey: string, value: string)
    requires IsForkOf(f, parent)
    ensures IsForkOf(SetKey(f, encodedKey, value), parent)
  {
  }

  lemma {:induction false} ForkRunStaysFork(parent: Contents, entries: seq<Entry>)
    requires Consistent(parent)
    ensures IsForkOf(SetEntries(Forked(parent), entries), parent)
  {
    if entries != [] {
      ForkRunStaysFork(parent, entries[..|entries| - 1]);
    }
  }

  /** The parent's cache with the first n modified keys of a fork copied over it. */
  ghost predicate IsMerged(f: Contents, parent: Contents, n: nat, merged: map<string, string>)
    requires Consistent(f) && n <= |f.modified|
  {
    && (forall k :: k in merged <==> k in parent.cache || k in f.modified[..n])
    && (forall k :: k in merged ==> merged[k] == if k in f.modified[..n] then f.cache[k] else parent.cache[k])
  }

  lemma MergeOne(f: Contents, parent: Contents, n: nat, before: Contents)
    requires Consistent(f) && n < |f.modified| && IsMerged(f, parent, n, before.cache)
    ensures f.modified[n] in f.cache
    ensures IsMerged(f, parent, n + 1, SetKey(before, f.modified[n], f.cache[f.modified[n]]).cache)
  {
    assert f.modified[n] in f.modified;
    assert f.modified[..n + 1] == f.modified[..n] + [f.modified[n]];
  }

  /** Merging the first n modified keys of a fork copies exactly these. */
  lemma {:induction false} MergedSoFar(f: Contents, parent: Contents, n: nat)
    requires Consistent(f) && n <= |f.modified|
    ensures IsMerged(f, parent, n, SetEntries(parent, ModifiedEntries(f)[..n]).cache)
  {
    if n > 0 {
      MergedSoFar(f, parent, n - 1);
      SetOneMore(parent, ModifiedEntries(f), n - 1);
      MergeOne(f, parent, n - 1, SetEntries(parent, ModifiedEntries(f)[..n - 1]));
    }
  }

  lemma AllMerged(f: Contents, parent: Contents, merged: map<string, string>)
    requires IsForkOf(f, parent) && IsMerged(f, parent, |f.modified|, merged)
    ensures merged == f.cache
  {
    assert f.modified[..|f.modified|] == f.modified;
  }

  /** Merging a fork into its parent gives the parent the fork's cache. */
  lemma MergeCompletes(f: Contents, parent: Contents)
    requires IsForkOf(f, parent)
    ensures SetEntries(parent, ModifiedEntries(f)).cache == f.cache
  {
    MergedSoFar(f, parent, |f.modified|);
    assert ModifiedEntries(f)[..|f.modified|] == ModifiedEntries(f);
    AllMerged(f, parent, SetEntries(parent, ModifiedEntries(f)).cache);
  }
}
