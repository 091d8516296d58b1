/**
 What the virtual machine computes: every call of an ordered set runs on a fork of the set's cache,
 and only the modified keys of calls that succeed are merged back.  It is proved to refine running
 the calls one after another on a single state.
 */
module CachedRuns {
  import opened Wrappers
  import opened StateKeys
  import opened CacheContents
  import opened StateCaches
  import opened Contracts
  import opened StateDiffs
  import opened Types
  import RawAddress

  // Caches over a storage

  function View(cache: map<string, string>, storage: Ledger, k: StateKey): Option<string> {
    if EncodeMapKey(k) in cache then Some(cache[EncodeMapKey(k)]) else Get(storage, k)
  }

  /** Looking a key up in the cache first and the storage second is looking it up in the ledger. */
  ghost predicate Represents(cache: map<string, string>, storage: Ledger, ledger: Ledger) {
    forall k: StateKey :: Get(ledger, k) ==
      if RawAddress.WellFormed(k.contractAddress) then View(cache, storage, k) else Get(storage, k)
  }

  /** The cache holds the keys written, encoded, and no others. */
  ghost predicate HoldsKeys(cache: map<string, string>, written: set<StateKey>) {
    && (forall k :: k in written ==> RawAddress.WellFormed(k.contractAddress) && EncodeMapKey(k) in cache)
    && (forall e :: e in cache ==> exists k :: k in written && e == EncodeMapKey(k))
  }

  ghost predicate NoColons(written: set<StateKey>) {
    forall k :: k in written ==> ':' !in k.key
  }

  lemma StoreRepresentsOnly(cache: map<string, string>, storage: Ledger, ledger: Ledger, k: StateKey, value: string)
    requires RawAddress.WellFormed(k.contractAddress)
    requires Represents(cache, storage, ledger)
    ensures Represents(cache[EncodeMapKey(k) := value], storage, ledger[k := value])
  {
    var cache', ledger' := cache[EncodeMapKey(k) := value], ledger[k := value];
    forall j: StateKey
      ensures Get(ledger', j) ==
        if RawAddress.WellFormed(j.contractAddress) then View(cache', storage, j) else Get(storage, j)
    {
      if j != k && RawAddress.WellFormed(j.contractAddress) && EncodeMapKey(j) == EncodeMapKey(k) {
        CacheKeyInjective(j, k);
      }
      assert Get(ledger, j) ==
             if RawAddress.WellFormed(j.contractAddress) then View(cache, storage, j) else Get(storage, j);
    }
  }

  lemma StoreHoldsKeys(cache: map<string, string>, written: set<StateKey>, k: StateKey, value: string)
    requires RawAddress.WellFormed(k.contractAddress)
    requires HoldsKeys(cache, written)
    ensures HoldsKeys(cache[EncodeMapKey(k) := value], written + {k})
  {
    var encodedKey := EncodeMapKey(k);
    var cache' := cache[encodedKey := value];
    forall e | e in cache'
      ensures exists j :: j in written + {k} && e == EncodeMapKey(j)
    {
      if e == encodedKey {
        assert k in written + {k};
      } else {
        var j :| j in written && e == EncodeMapKey(j);
        assert j in written + {k};
      }
    }
  }

  lemma StoreRepresents(cache: map<string, string>, storage: Ledger, ledger: Ledger, written: set<StateKey>,
                        k: StateKey, value: string)
    requires RawAddress.WellFormed(k.contractAddress)
    requires Represents(cache, storage, ledger) && HoldsKeys(cache, written)
    ensures Represents(cache[EncodeMapKey(k) := value], storage, ledger[k := value])
    ensures HoldsKeys(cache[EncodeMapKey(k) := value], written + {k})
  {
    StoreRepresentsOnly(cache, storage, ledger, k, value);
    StoreHoldsKeys(cache, written, k, value);
  }

  lemma HeldKeysAreFaithful(c: Contents, written: set<StateKey>)
    requires Consistent(c) && HoldsKeys(c.cache, written) && NoColons(written)
    ensures forall e :: e in c.cache ==> Faithful(e)
  {
    forall e | e in c.cache
      ensures Faithful(e)
    {
      var k :| k in written && e == EncodeMapKey(k);
      PlainKeysAreFaithful(k);
    }
  }

  // One call

  datatype CachedRun = CachedRun(outcome: Outcome, contents: Contents)

  /** Running a call of one contract on a cache over the storage. */
  function RunCached(p: Program, env: Env, contract: seq<Byte>, c: Contents, storage: Ledger): CachedRun
    decreases p
  {
    match p
    case Succeed => CachedRun(Succeeded, c)
    case Throw(expected) => CachedRun(if expected then Rejected else Crashed, c)
    case Load(key, next) =>
      RunCached(next, env + [View(c.cache, storage, StateKey(contract, key(env)))], contract, c, storage)
    case Store(key, value, next) =>
      RunCached(next, env, contract, SetKey(c, EncodeMapKey(StateKey(contract, key(env))), value(env)), storage)
    case Branch(condition, yes, no) =>
      RunCached(if condition(env) then yes else no, env, contract, c, storage)
  }

  /** What a contract's cache is while the contract runs: a fork of `parent` that stands for `ledger`. */
  ghost predicate Stands(c: Contents, parent: Contents, storage: Ledger, ledger: Ledger, written: set<StateKey>) {
    && IsForkOf(c, parent)
    && Decodable(c)
    && Represents(c.cache, storage, ledger)
    && HoldsKeys(c.cache, written)
  }

  lemma StoreStands(c: Contents, parent: Contents, storage: Ledger, ledger: Ledger, written: set<StateKey>, k: StateKey,
                    value: string)
    requires RawAddress.WellFormed(k.contractAddress)
    requires Stands(c, parent, storage, ledger, written)
    ensures Stands(SetKey(c, EncodeMapKey(k), value), parent, storage, ledger[k := value], written + {k})
  {
    ForkStaysFork(c, parent, EncodeMapKey(k), value);
    SetKeepsDecodable(c, k, value);
    StoreRepresents(c.cache, storage, ledger, written, k, value);
  }

  lemma {:induction false} RunCachedKeepsDecodable(p: Program, env: Env, contract: seq<Byte>, c: Contents,
                                                   storage: Ledger)
    requires Decodable(c)
    ensures Decodable(RunCached(p, env, contract, c, storage).contents)
    decreases p
  {
    match p
    case Succeed =>
    case Throw(_) =>
    case Load(key, next) =>
      RunCachedKeepsDecodable(next, env + [View(c.cache, storage, StateKey(contract, key(env)))], contract, c, storage);
    case Store(key, value, next) =>
      var k := StateKey(contract, key(env));
      SetKeepsDecodable(c, k, value(env));
      RunCachedKeepsDecodable(next, env, contract, SetKey(c, EncodeMapKey(k), value(env)), storage);
    case Branch(condition, yes, no) =>
      RunCachedKeepsDecodable(if condition(env) then yes else no, env, contract, c, storage);
  }

  /** Running a program on a cache does what running it on the state itself does. */
  lemma {:induction false} RunCachedStands(p: Program, env: Env, contract: seq<Byte>, c: Contents, parent: Contents,
                                           storage: Ledger, ledger: Ledger, written: set<StateKey>)
    requires p.Throw? || RawAddress.WellFormed(contract)
    requires Stands(c, parent, storage, ledger, written)
    ensures var x, y := Run(p, env, contract, ledger, written), RunCached(p, env, contract, c, storage);
            y.outcome == x.outcome && Stands(y.contents, parent, storage, x.ledger, x.written)
    decreases p
  {
    match p
    case Succeed =>
    case Throw(_) =>
    case Load(key, next) =>
      var k := StateKey(contract, key(env));
      assert View(c.cache, storage, k) == Get(ledger, k);
      RunCachedStands(next, env + [Get(ledger, k)], contract, c, parent, storage, ledger, written);
    case Store(key, value, next) =>
      var k := StateKey(contract, key(env));
      StoreStands(c, parent, storage, ledger, written, k, value(env));
      RunCachedStands(next, env, contract, SetKey(c, EncodeMapKey(k), value(env)), parent, storage,
                      ledger[k := value(env)], written + {k});
    case Branch(condition, yes, no) =>
      RunCachedStands(if condition(env) then yes else no, env, contract, c, parent, storage, ledger, written);
  }

  // Merging a call's fork

  lemma RepresentsOne(cache: map<string, string>, storage: Ledger, a: Ledger, b: Ledger)
    requires Represents(cache, storage, a) && Represents(cache, storage, b)
    ensures a == b
  {
    SameLedger(a, b);
  }

  lemma HeldKeysWithin(cache: map<string, string>, v: set<StateKey>, w: set<StateKey>)
    requires HoldsKeys(cache, v) && HoldsKeys(cache, w)
    ensures v <= w
  {
    forall k | k in v
      ensures k in w
    {
      var j :| j in w && EncodeMapKey(k) == EncodeMapKey(j);
      CacheKeyInjective(k, j);
    }
  }

  lemma MergeOneMore(c: Contents, next: Contents, storage: Ledger, ledger: Ledger, written: set<StateKey>,
                     item: Modified)
    requires RawAddress.WellFormed(item.key.contractAddress)
    requires Represents(c.cache, storage, ledger) && HoldsKeys(c.cache, written)
    requires next == SetKey(c, EncodeMapKey(item.key), item.value)
    ensures Represents(next.cache, storage, ledger[item.key := item.value])
    ensures HoldsKeys(next.cache, written + {item.key})
  {
    StoreRepresents(c.cache, storage, ledger, written, item.key, item.value);
  }

  lemma {:induction false} MergeRepresents(parent: Contents, items: seq<Modified>, storage: Ledger, ledger: Ledger,
                                           written: set<StateKey>)
    requires forall i :: 0 <= i < |items| ==> RawAddress.WellFormed(items[i].key.contractAddress)
    requires Represents(parent.cache, storage, ledger) && HoldsKeys(parent.cache, written)
    ensures Represents(SetAll(parent, items).cache, storage, Apply(ledger, items))
    ensures HoldsKeys(SetAll(parent, items).cache, written + KeysOf(items))
  {
    if items == [] {
      assert written + KeysOf(items) == written;
    } else {
      var n := |items| - 1;
      var init, last := items[..n], items[n];
      MergeRepresents(parent, init, storage, ledger, written);
      SetAllOneMore(parent, items);
      MergeOneMore(SetAll(parent, init), SetAll(parent, items), storage, Apply(ledger, init), written + KeysOf(init),
                   last);
      WithKeysOfOneMore(written, items);
    }
  }

  /** Whatever a call stored, the keys it hands over for merging are plain. */
  lemma HandedKeysArePlain(f: Contents, written: set<StateKey>)
    requires Decodable(f) && HoldsKeys(f.cache, written)
    ensures forall i :: 0 <= i < |ModifiedItems(f)| ==>
              RawAddress.WellFormed(ModifiedItems(f)[i].key.contractAddress) && ':' !in ModifiedItems(f)[i].key.key
  {
    var items := ModifiedItems(f);
    forall i | 0 <= i < |items|
      ensures RawAddress.WellFormed(items[i].key.contractAddress) && ':' !in items[i].key.key
    {
      var e := f.modified[i];
      assert e in f.modified;
      var k :| k in written && e == EncodeMapKey(k);
      DecodeOfEncoded(k);
    }
  }

  /** The cache of the set between two calls. */
  ghost predicate BlockStands(c: Contents, storage: Ledger, ledger: Ledger, written: set<StateKey>) {
    && IsRoot(c)
    && Decodable(c)
    && Represents(c.cache, storage, ledger)
    && HoldsKeys(c.cache, written)
    && NoColons(written)
  }

  /** Merging keeps the set's cache well kept, and is exact unless the call wrote a colon. */
  lemma MergeStep(parent: Contents, f: Contents, storage: Ledger, ledger: Ledger, written: set<StateKey>,
                  runLedger: Ledger, runWritten: set<StateKey>)
    requires BlockStands(parent, storage, ledger, written)
    requires Stands(f, parent, storage, runLedger, runWritten)
    ensures var items := ModifiedItems(f);
            BlockStands(SetAll(parent, items), storage, Apply(ledger, items), written + KeysOf(items))
    ensures NoColons(runWritten) ==>
              Apply(ledger, ModifiedItems(f)) == runLedger && written + KeysOf(ModifiedItems(f)) == runWritten
  {
    var items := ModifiedItems(f);
    HandedKeysArePlain(f, runWritten);
    RootStaysRoot(parent, EncodedItems(items));
    SetAllKeepsDecodable(parent, items);
    MergeRepresents(parent, items, storage, ledger, written);
    if NoColons(runWritten) {
      HeldKeysAreFaithful(f, runWritten);
      ItemsAreEntries(f);
      MergeCompletes(f, parent);
      RepresentsOne(f.cache, storage, Apply(ledger, items), runLedger);
      HeldKeysWithin(f.cache, written + KeysOf(items), runWritten);
      HeldKeysWithin(f.cache, runWritten, written + KeysOf(items));
    }
  }

  /** An item names a key written, with the value it has. */
  lemma ItemIsHeld(c: Contents, storage: Ledger, ledger: Ledger, written: set<StateKey>, i: nat)
    requires BlockStands(c, storage, ledger, written) && i < |c.modified|
    ensures ModifiedItems(c)[i].key in written
    ensures Get(ledger, ModifiedItems(c)[i].key) == Some(ModifiedItems(c)[i].value)
  {
    var e := c.modified[i];
    assert e in c.modified;
    var k :| k in written && e == EncodeMapKey(k);
    CacheKeyRoundTrip(k);
    assert ModifiedItems(c)[i].key == k && Get(ledger, k) == View(c.cache, storage, k);
  }

  /** A key written has an item. */
  lemma HeldHasItem(c: Contents, storage: Ledger, ledger: Ledger, written: set<StateKey>, k: StateKey)
    requires BlockStands(c, storage, ledger, written) && k in written
    ensures k in KeysOf(ModifiedItems(c))
  {
    assert EncodeMapKey(k) in c.modified;
    var i :| 0 <= i < |c.modified| && c.modified[i] == EncodeMapKey(k);
    CacheKeyRoundTrip(k);
    assert ModifiedItems(c)[i].key == k;
  }

  lemma DiffOfItems(items: seq<Modified>, ledger: Ledger, written: set<StateKey>)
    requires forall i, j :: 0 <= i < j < |items| ==> items[i].key != items[j].key
    requires forall i :: 0 <= i < |items| ==>
               items[i].key in written && Get(ledger, items[i].key) == Some(items[i].value)
    requires forall k :: k in written ==> k in KeysOf(items)
    ensures IsDiff(items, ledger, written)
  {
  }

  lemma BlockDiff(c: Contents, storage: Ledger, ledger: Ledger, written: set<StateKey>)
    requires BlockStands(c, storage, ledger, written)
    ensures IsDiff(ModifiedItems(c), ledger, written)
  {
    HeldKeysAreFaithful(c, written);
    EachKeyOnce(c);
    var items := ModifiedItems(c);
    forall i | 0 <= i < |items|
      ensures items[i].key in written && Get(ledger, items[i].key) == Some(items[i].value)
    {
      ItemIsHeld(c, storage, ledger, written, i);
    }
    forall k | k in written
      ensures k in KeysOf(items)
    {
      HeldHasItem(c, storage, ledger, written, k);
    }
    DiffOfItems(items, ledger, written);
  }

  // Ordered sets of calls

  datatype UnexpectedError = UnexpectedError(txHash: seq<Byte>)

  /** The cache and the receipts of a set, or of its part before the call that threw unexpectedly. */
  datatype CachedSet = CachedSet(contents: Contents, receipts: seq<TransactionReceipt>, error: Option<UnexpectedError>)

  function CachedNext(before: CachedSet, call: Call, storage: Ledger): (after: CachedSet)
    requires Decodable(before.contents)
    ensures Decodable(after.contents)
  {
    var x := RunCached(call.program, [], call.contractAddress, Forked(before.contents), storage);
    RunCachedKeepsDecodable(call.program, [], call.contractAddress, Forked(before.contents), storage);
    match x.outcome
    case Succeeded =>
      SetAllKeepsDecodable(before.contents, ModifiedItems(x.contents));
      CachedSet(SetAll(before.contents, ModifiedItems(x.contents)),
                before.receipts + [TransactionReceipt(call.txHash, true)], None)
    case Rejected => before.(receipts := before.receipts + [TransactionReceipt(call.txHash, false)])
    case Crashed => before.(error := Some(UnexpectedError(call.txHash)))
  }

  function RunSetCached(calls: seq<Call>, storage: Ledger): (r: CachedSet)
    ensures Decodable(r.contents)
  {
    if calls == [] then CachedSet(EMPTY, [], None)
    else
      var before := RunSetCached(calls[..|calls| - 1], storage);
      if before.error.Some? then before
      else CachedNext(before, calls[|calls| - 1], storage)
  }

  lemma RunSetCachedNext(calls: seq<Call>, n: nat, storage: Ledger)
    requires n < |calls|
    ensures RunSetCached(calls[..n + 1], storage) ==
            var before := RunSetCached(calls[..n], storage);
            if before.error.Some? then before else CachedNext(before, calls[n], storage)
  {
    assert calls[..n + 1][..n] == calls[..n];
  }

  /** After an unexpected error nothing more happens. */
  lemma {:induction false} RunSetCachedStops(calls: seq<Call>, n: nat, storage: Ledger)
    requires n <= |calls| && RunSetCached(calls[..n], storage).error.Some?
    ensures RunSetCached(calls, storage) == RunSetCached(calls[..n], storage)
    decreases |calls| - n
  {
    if n == |calls| {
      assert calls[..n] == calls;
    } else {
      RunSetCachedNext(calls, n, storage);
      RunSetCachedStops(calls, n + 1, storage);
    }
  }

  /** The diff a set reports. */
  function DiffOf(calls: seq<Call>, storage: Ledger): seq<Modified> {
    ModifiedItems(RunSetCached(calls, storage).contents)
  }

  /** Only calls of well-formed addresses do anything but throw. */
  ghost predicate CallWellFormed(call: Call) {
    RawAddress.WellFormed(call.contractAddress) || call.program.Throw?
  }

  ghost predicate CallsWellFormed(calls: seq<Call>) {
    forall i :: 0 <= i < |calls| ==> CallWellFormed(calls[i])
  }

  /** As long as no colon was written, a set of calls on caches has done what the run did. */
  ghost predicate Agrees(run: SetRun, cached: CachedSet, ledger: Ledger, written: set<StateKey>) {
    NoColons(run.written) ==>
      && (run.crashed <==> cached.error.Some?)
      && cached.receipts == run.receipts
      && ledger == run.ledger
      && written == run.written
  }

  lemma EmptyStands(storage: Ledger)
    ensures BlockStands(EMPTY, storage, storage, {})
  {
  }

  lemma ForkStands(c: Contents, storage: Ledger, ledger: Ledger, written: set<StateKey>)
    requires BlockStands(c, storage, ledger, written)
    ensures Stands(Forked(c), c, storage, ledger, written)
  {
    ForkIsFork(c);
  }

  /** One call keeps the set's cache a picture of some state: of the state after it, unless it wrote a colon. */
  lemma NextStands(before: CachedSet, call: Call, storage: Ledger, ledger: Ledger, written: set<StateKey>)
    returns (ledger': Ledger, written': set<StateKey>)
    requires CallWellFormed(call) && before.error.None?
    requires BlockStands(before.contents, storage, ledger, written)
    ensures BlockStands(CachedNext(before, call, storage).contents, storage, ledger', written')
    ensures Agrees(RunNext(SetRun(ledger, written, before.receipts, false), call),
                   CachedNext(before, call, storage), ledger', written')
  {
    var parent := before.contents;
    ForkStands(parent, storage, ledger, written);
    RunCachedStands(call.program, [], call.contractAddress, Forked(parent), parent, storage, ledger, written);
    ledger', written' := ledger, written;
    var x := RunCached(call.program, [], call.contractAddress, Forked(parent), storage);
    var y := Run(call.program, [], call.contractAddress, ledger, written);
    if x.outcome == Succeeded {
      MergeStep(parent, x.contents, storage, ledger, written, y.ledger, y.written);
      var items := ModifiedItems(x.contents);
      ledger', written' := Apply(ledger, items), written + KeysOf(items);
    }
  }

  /** The cache of a set always stands for a state with the colon-free keys it holds; which one, `Agrees` says. */
  lemma {:induction false} SetStands(calls: seq<Call>, storage: Ledger) returns (ledger: Ledger, written: set<StateKey>)
    requires CallsWellFormed(calls)
    ensures BlockStands(RunSetCached(calls, storage).contents, storage, ledger, written)
    ensures Agrees(RunSet(calls, storage), RunSetCached(calls, storage), ledger, written)
  {
    if calls == [] {
      EmptyStands(storage);
      ledger, written := storage, {};
    } else {
      var n := |calls| - 1;
      var run, cached := RunSet(calls[..n], storage), RunSetCached(calls[..n], storage);
      ledger, written := SetStands(calls[..n], storage);
      RunSetExtends(calls, n, storage);
      if cached.error.None? {
        ledger, written := NextStands(cached, calls[n], storage, ledger, written);
      }
    }
  }

  /** The receipts and unexpected errors of a set are those of sequential execution unless a colon was written. */
  lemma ReceiptsAgree(calls: seq<Call>, storage: Ledger)
    requires CallsWellFormed(calls)
    ensures var run, cached := RunSet(calls, storage), RunSetCached(calls, storage);
            NoColons(run.written) ==>
              (run.crashed <==> cached.error.Some?) && cached.receipts == run.receipts
  {
    var ledger, written := SetStands(calls, storage);
  }

  /** The diff of a set is the diff of sequential execution exactly when no colon was written. */
  lemma DiffIffPlain(calls: seq<Call>, storage: Ledger)
    requires CallsWellFormed(calls)
    ensures var run := RunSet(calls, storage);
            IsDiff(DiffOf(calls, storage), run.ledger, run.written) <==> NoColons(run.written)
  {
    var ledger, written := SetStands(calls, storage);
    BlockDiff(RunSetCached(calls, storage).contents, storage, ledger, written);
  }

  /** Whatever was written, the diff names no key with a colon. */
  lemma DiffIsPlain(calls: seq<Call>, storage: Ledger)
    requires CallsWellFormed(calls)
    ensures NoColons(KeysOf(DiffOf(calls, storage)))
  {
    var ledger, written := SetStands(calls, storage);
    BlockDiff(RunSetCached(calls, storage).contents, storage, ledger, written);
  }

  /** Applying the diff of a set to the storage gives the state sequential execution ends in. */
  lemma DiffReachesFinalState(calls: seq<Call>, storage: Ledger)
    requires CallsWellFormed(calls) && NoColons(RunSet(calls, storage).written)
    ensures Apply(storage, DiffOf(calls, storage)) == RunSet(calls, storage).ledger
  {
    var run := RunSet(calls, storage);
    DiffIffPlain(calls, storage);
    RunSetFrame(calls, storage);
    ApplyDiffOfRun(storage, DiffOf(calls, storage), run.ledger, run.written);
  }

  /** A replica never learns of a key with a colon, so a new value for one is lost. */
  lemma ColonKeyIsLost(calls: seq<Call>, storage: Ledger, k: StateKey)
    requires CallsWellFormed(calls) && ':' in k.key
    ensures Get(Apply(storage, DiffOf(calls, storage)), k) == Get(storage, k)
    ensures Get(RunSet(calls, storage).ledger, k) != Get(storage, k) ==>
              Apply(storage, DiffOf(calls, storage)) != RunSet(calls, storage).ledger
  {
    DiffIsPlain(calls, storage);
    ApplyFrame(storage, DiffOf(calls, storage), k);
  }

  // Sets of one call

  /** A call on an empty cache over the storage. */
  lemma AloneStands(call: Call, storage: Ledger)
    requires CallWellFormed(call)
    ensures var x := RunCached(call.program, [], call.contractAddress, EMPTY, storage);
            var run := Run(call.program, [], call.contractAddress, storage, {});
            && x.outcome == run.outcome
            && BlockStands(EMPTY, storage, storage, {})
            && Stands(x.contents, EMPTY, storage, run.ledger, run.written)
  {
    EmptyStands(storage);
    ForkStands(EMPTY, storage, storage, {});
    assert Forked(EMPTY) == EMPTY;
    RunCachedStands(call.program, [], call.contractAddress, EMPTY, EMPTY, storage, storage, {});
  }

  lemma SetOfOne(call: Call, storage: Ledger)
    ensures RunSetCached([call], storage) == CachedNext(CachedSet(EMPTY, [], None), call, storage)
  {
    assert [call][..0] == [];
    assert RunSetCached([], storage) == CachedSet(EMPTY, [], None);
  }

  // The hashes in the receipts

  lemma ReceiptOfNext(before: CachedSet, call: Call, storage: Ledger)
    requires Decodable(before.contents) && CachedNext(before, call, storage).error.None?
    ensures exists r :: CachedNext(before, call, storage).receipts == before.receipts + [r] && r.txHash == call.txHash
  {
    var after := CachedNext(before, call, storage);
    if after.receipts == before.receipts + [TransactionReceipt(call.txHash, true)] {
    } else {
      assert after.receipts == before.receipts + [TransactionReceipt(call.txHash, false)];
    }
  }

  /** One receipt per call, in order. */
  ghost predicate NamesCalls(receipts: seq<TransactionReceipt>, calls: seq<Call>) {
    |receipts| == |calls| && forall i :: 0 <= i < |calls| ==> receipts[i].txHash == calls[i].txHash
  }

  lemma NamesOneMore(receipts: seq<TransactionReceipt>, calls: seq<Call>, before: CachedSet, storage: Ledger)
    requires calls != [] && Decodable(before.contents) && NamesCalls(before.receipts, calls[..|calls| - 1])
    requires CachedNext(before, calls[|calls| - 1], storage).error.None?
    requires receipts == CachedNext(before, calls[|calls| - 1], storage).receipts
    ensures NamesCalls(receipts, calls)
  {
    ReceiptOfNext(before, calls[|calls| - 1], storage);
  }

  lemma {:induction false} CachedReceiptsName(calls: seq<Call>, storage: Ledger)
    requires RunSetCached(calls, storage).error.None?
    ensures NamesCalls(RunSetCached(calls, storage).receipts, calls)
  {
    if calls != [] {
      var before := RunSetCached(calls[..|calls| - 1], storage);
      CachedReceiptsName(calls[..|calls| - 1], storage);
      NamesOneMore(RunSetCached(calls, storage).receipts, calls, before, storage);
    }
  }

  // Reading the storage

  /** The call reads a key that its cache does not hold. */
  predicate Loads(p: Program, env: Env, contract: seq<Byte>, c: Contents, storage: Ledger)
    decreases p
  {
    match p
    case Succeed => false
    case Throw(_) => false
    case Load(key, next) =>
      var k := StateKey(contract, key(env));
      EncodeMapKey(k) !in c.cache || Loads(next, env + [View(c.cache, storage, k)], contract, c, storage)
    case Store(key, value, next) =>
      Loads(next, env, contract, SetKey(c, EncodeMapKey(StateKey(contract, key(env))), value(env)), storage)
    case Branch(condition, yes, no) =>
      Loads(if condition(env) then yes else no, env, contract, c, storage)
  }

  /** Some call of the set reads a key that no earlier one has cached. */
  predicate SetLoads(calls: seq<Call>, storage: Ledger) {
    calls != [] &&
    var n := |calls| - 1;
    var before := RunSetCached(calls[..n], storage);
    || SetLoads(calls[..n], storage)
    || (before.error.None? && Loads(calls[n].program, [], calls[n].contractAddress, Forked(before.contents), storage))
  }

  /** A call that reads nothing from the storage does the same whatever is stored. */
  lemma {:induction false} LoadsNothing(p: Program, env: Env, contract: seq<Byte>, c: Contents, a: Ledger, b: Ledger)
    requires !Loads(p, env, contract, c, a)
    ensures RunCached(p, env, contract, c, a) == RunCached(p, env, contract, c, b)
    decreases p
  {
    match p
    case Succeed =>
    case Throw(_) =>
    case Load(key, next) =>
      var k := StateKey(contract, key(env));
      assert View(c.cache, a, k) == View(c.cache, b, k);
      LoadsNothing(next, env + [View(c.cache, a, k)], contract, c, a, b);
    case Store(key, value, next) =>
      LoadsNothing(next, env, contract, SetKey(c, EncodeMapKey(StateKey(contract, key(env))), value(env)), a, b);
    case Branch(condition, yes, no) =>
      LoadsNothing(if condition(env) then yes else no, env, contract, c, a, b);
  }

  lemma NextLoadsNothing(before: CachedSet, call: Call, a: Ledger, b: Ledger)
    requires Decodable(before.contents)
    requires !Loads(call.program, [], call.contractAddress, Forked(before.contents), a)
    ensures CachedNext(before, call, a) == CachedNext(before, call, b)
  {
    LoadsNothing(call.program, [], call.contractAddress, Forked(before.contents), a, b);
  }

  /** Nor does a set. */
  lemma {:induction false} SetLoadsNothing(calls: seq<Call>, a: Ledger, b: Ledger)
    requires !SetLoads(calls, a)
    ensures RunSetCached(calls, a) == RunSetCached(calls, b)
  {
    if calls != [] {
      var n := |calls| - 1;
      var before := RunSetCached(calls[..n], a);
      SetLoadsNothing(calls[..n], a, b);
      if before.error.None? {
        NextLoadsNothing(before, calls[n], a, b);
      }
    }
  }
}
