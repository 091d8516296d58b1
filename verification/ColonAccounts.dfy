/**
 What becomes of a transfer to an account whose name has a colon: the virtual machine pays the account
 named by the part before the colon, by overwriting its balance.
 */
module ColonAccounts {
  import opened Wrappers
  import opened StateKeys
  import opened CacheContents
  import opened StateCaches
  import opened Contracts
  import opened StateDiffs
  import opened Types
  import opened CachedRuns
  import opened KinAtn
  import RawAddress

  /** The key that is left of a key once it has been through a cache. */
  function Cut(k: StateKey): StateKey {
    StateKey(k.contractAddress, Before(k.key, ':'))
  }

  lemma CutOfAccount(contract: seq<Byte>, x: string, y: string)
    requires ':' !in x
    ensures Cut(AccountKey(contract, x + ":" + y)) == AccountKey(contract, x)
  {
    assert BalanceKey(x + ":" + y) == BalanceKey(x) + ":" + y;
    assert ':' !in BalanceKey(x);
    SplitAt(BalanceKey(x), y, ':');
  }

  lemma KeyOfItem(f: Contents, j: nat, k: StateKey)
    requires Decodable(f) && j < |f.modified| && f.modified[j] == EncodeMapKey(k)
    requires RawAddress.WellFormed(k.contractAddress)
    ensures ModifiedItems(f)[j].key == Cut(k)
  {
    DecodeOfEncoded(k);
  }

  lemma IsHeld(cache: map<string, string>, written: set<StateKey>, k: StateKey)
    requires HoldsKeys(cache, written) && k in written
    ensures RawAddress.WellFormed(k.contractAddress) && EncodeMapKey(k) in cache
  {
  }

  /** The item a call that stored k hands over. */
  lemma ItemOf(f: Contents, storage: Ledger, ledger: Ledger, written: set<StateKey>, k: StateKey) returns (i: nat)
    requires Stands(f, EMPTY, storage, ledger, written) && k in written && k in ledger
    ensures i < |f.modified| && f.modified[i] == EncodeMapKey(k)
    ensures ModifiedItems(f)[i] == Modified(Cut(k), ledger[k])
  {
    IsHeld(f.cache, written, k);
    assert EncodeMapKey(k) in f.modified;
    i :| 0 <= i < |f.modified| && f.modified[i] == EncodeMapKey(k);
    KeyOfItem(f, i, k);
    assert Get(ledger, k) == View(f.cache, storage, k);
  }

  lemma HeldBy(cache: map<string, string>, k: StateKey, other: StateKey, e: string)
    requires HoldsKeys(cache, {k, other}) && e in cache && e != EncodeMapKey(k)
    ensures e == EncodeMapKey(other)
  {
    var m :| m in {k, other} && e == EncodeMapKey(m);
    assert m != k;
  }

  lemma OtherItem(f: Contents, storage: Ledger, ledger: Ledger, k: StateKey, other: StateKey, j: nat)
    requires Stands(f, EMPTY, storage, ledger, {k, other})
    requires j < |f.modified| && f.modified[j] != EncodeMapKey(k)
    ensures ModifiedItems(f)[j].key == Cut(other)
  {
    assert f.modified[j] in f.modified;
    HeldBy(f.cache, k, other, f.modified[j]);
    IsHeld(f.cache, {k, other}, other);
    KeyOfItem(f, j, other);
  }

  /** Merging a call that stored two keys, where these do not become the same key. */
  lemma ItemHits(f: Contents, storage: Ledger, ledger: Ledger, k: StateKey, other: StateKey)
    requires Stands(f, EMPTY, storage, ledger, {k, other}) && k in ledger && Cut(k) != Cut(other)
    ensures Get(Apply(storage, ModifiedItems(f)), Cut(k)) == Some(ledger[k])
  {
    var items := ModifiedItems(f);
    var i := ItemOf(f, storage, ledger, {k, other}, k);
    forall j | i < j < |items|
      ensures items[j].key != items[i].key
    {
      OtherItem(f, storage, ledger, k, other, j);
    }
    ApplyHit(storage, items, i);
  }

  /** Applying items, and applying the diff of the state they lead to. */
  lemma DiffOfApplied(storage: Ledger, items: seq<Modified>, diff: seq<Modified>, written: set<StateKey>)
    requires written == {} + KeysOf(items) && IsDiff(diff, Apply(storage, items), written)
    ensures Apply(storage, diff) == Apply(storage, items)
  {
    forall k | k !in written
      ensures Get(Apply(storage, items), k) == Get(storage, k)
    {
      ApplyFrame(storage, items, k);
    }
    ApplyDiffOfRun(storage, diff, Apply(storage, items), written);
  }

  /** A set of one call that succeeds is that call's fork merged into an empty cache. */
  lemma OneMerged(call: Call, storage: Ledger, f: Contents)
    requires Decodable(f)
    requires RunCached(call.program, [], call.contractAddress, EMPTY, storage) == CachedRun(Succeeded, f)
    ensures RunSetCached([call], storage).receipts == [TransactionReceipt(call.txHash, true)]
    ensures RunSetCached([call], storage).contents == SetAll(EMPTY, ModifiedItems(f))
  {
    SetOfOne(call, storage);
    assert Forked(EMPTY) == EMPTY;
  }

  lemma DiffOfMerged(f: Contents, storage: Ledger, runLedger: Ledger, runWritten: set<StateKey>)
    requires BlockStands(EMPTY, storage, storage, {}) && Stands(f, EMPTY, storage, runLedger, runWritten)
    ensures Decodable(SetAll(EMPTY, ModifiedItems(f)))
    ensures Apply(storage, ModifiedItems(SetAll(EMPTY, ModifiedItems(f)))) == Apply(storage, ModifiedItems(f))
  {
    MergeStep(EMPTY, f, storage, storage, {}, runLedger, runWritten);
    var items := ModifiedItems(f);
    BlockDiff(SetAll(EMPTY, items), storage, Apply(storage, items), {} + KeysOf(items));
    DiffOfApplied(storage, items, ModifiedItems(SetAll(EMPTY, items)), {} + KeysOf(items));
  }

  /** The diff of a set of one call merges that call's items. */
  lemma DiffOfOne(call: Call, storage: Ledger, f: Contents)
    requires RunCached(call.program, [], call.contractAddress, EMPTY, storage) == CachedRun(Succeeded, f)
    requires RawAddress.WellFormed(call.contractAddress)
    ensures Decodable(f)
    ensures Apply(storage, DiffOf([call], storage)) == Apply(storage, ModifiedItems(f))
    ensures RunSetCached([call], storage).receipts == [TransactionReceipt(call.txHash, true)]
  {
    var run := Run(call.program, [], call.contractAddress, storage, {});
    AloneStands(call, storage);
    DiffOfMerged(f, storage, run.ledger, run.written);
    OneMerged(call, storage, f);
  }

  lemma CutOfSender(contract: seq<Byte>, sender: string)
    requires ':' !in sender
    ensures Cut(AccountKey(contract, sender)) == AccountKey(contract, sender)
  {
  }

  lemma ColonInAccount(contract: seq<Byte>, x: string, y: string)
    ensures ':' in AccountKey(contract, x + ":" + y).key
  {
    assert BalanceKey(x + ":" + y) == BalanceKey(x) + ":" + y;
  }

  /** What is committed of a call that stores two keys, where these do not become the same key. */
  lemma CommittedOfTwo(call: Call, storage: Ledger, ledger: Ledger, k: StateKey, other: StateKey)
    requires RawAddress.WellFormed(call.contractAddress)
    requires Run(call.program, [], call.contractAddress, storage, {}) == Execution(Succeeded, ledger, {k, other})
    requires k in ledger && Cut(k) != Cut(other)
    ensures RunSetCached([call], storage).receipts == [TransactionReceipt(call.txHash, true)]
    ensures Get(Apply(storage, DiffOf([call], storage)), Cut(k)) == Some(ledger[k])
  {
    AloneStands(call, storage);
    var f := RunCached(call.program, [], call.contractAddress, EMPTY, storage).contents;
    DiffOfOne(call, storage, f);
    ItemHits(f, storage, ledger, k, other);
  }

  lemma StoredNumber(codec: Codec, ledger: Ledger, k: StateKey, n: int)
    requires RoundTrips(codec) && Get(ledger, k) == Some(codec.stringify(n))
    ensures At(codec, ledger, k) == n
  {
  }

  /** The run of a covered transfer on the state. */
  lemma TransferRun(codec: Codec, sender: string, recipient: string, amount: int, contract: seq<Byte>, storage: Ledger,
                    x: Execution, from: StateKey, m: int, to: StateKey, n: int)
    requires Sound(codec, contract, storage)
    requires Covered(codec, contract, storage, sender, Text(recipient), Amount(amount))
    requires x == Run(Transfer(codec, sender, Text(recipient), Amount(amount)), [], contract, storage, {})
    requires from == AccountKey(contract, sender) && to == AccountKey(contract, recipient)
    requires m == At(codec, storage, from) - amount && n == At(codec, storage, to) + amount
    ensures x.outcome == Succeeded && x.written == {from, to}
    ensures x.ledger == storage[from := codec.stringify(m)][to := codec.stringify(n)]
  {
    RunTransfer(codec, sender, Text(recipient), Amount(amount), contract, storage, {});
  }

  /** What is committed of a call that stores two numbers. */
  lemma CommittedNumbers(codec: Codec, call: Call, storage: Ledger, x: Execution, a: StateKey, m: int, b: StateKey,
                         n: int)
    requires RoundTrips(codec) && RawAddress.WellFormed(call.contractAddress) && Cut(a) != Cut(b)
    requires x == Run(call.program, [], call.contractAddress, storage, {})
    requires x.outcome == Succeeded && x.written == {a, b}
    requires x.ledger == storage[a := codec.stringify(m)][b := codec.stringify(n)]
    ensures var committed := Apply(storage, DiffOf([call], storage));
            && RunSetCached([call], storage).receipts == [TransactionReceipt(call.txHash, true)]
            && At(codec, committed, Cut(a)) == m
            && At(codec, committed, Cut(b)) == n
  {
    CommittedOfTwo(call, storage, x.ledger, a, b);
    assert {a, b} == {b, a};
    CommittedOfTwo(call, storage, x.ledger, b, a);
    var committed := Apply(storage, DiffOf([call], storage));
    StoredNumber(codec, committed, Cut(a), m);
    StoredNumber(codec, committed, Cut(b), n);
  }

  lemma ColonKeys(contract: seq<Byte>, sender: string, x: string, y: string)
    requires ':' !in sender && ':' !in x && sender != x
    ensures var from, to := AccountKey(contract, sender), AccountKey(contract, x + ":" + y);
            && Cut(from) == from
            && Cut(to) == AccountKey(contract, x) != from
            && ':' in to.key
  {
    CutOfSender(contract, sender);
    CutOfAccount(contract, x, y);
    DifferentAccounts(contract, sender, x);
    ColonInAccount(contract, x, y);
  }

  /** What is committed of a transfer whose recipient's key is cut, to a key other than the sender's. */
  lemma CommittedTransfer(codec: Codec, sender: string, recipient: string, amount: int, call: Call, storage: Ledger,
                          from: StateKey, m: int, to: StateKey, n: int)
    requires RoundTrips(codec) && RawAddress.WellFormed(call.contractAddress)
    requires Sound(codec, call.contractAddress, storage)
    requires Covered(codec, call.contractAddress, storage, sender, Text(recipient), Amount(amount))
    requires call.program == Transfer(codec, sender, Text(recipient), Amount(amount))
    requires from == AccountKey(call.contractAddress, sender) && to == AccountKey(call.contractAddress, recipient)
    requires m == At(codec, storage, from) - amount && n == At(codec, storage, to) + amount
    requires Cut(from) != Cut(to)
    ensures var committed := Apply(storage, DiffOf([call], storage));
            && RunSetCached([call], storage).receipts == [TransactionReceipt(call.txHash, true)]
            && At(codec, committed, Cut(from)) == m
            && At(codec, committed, Cut(to)) == n
  {
    var x := Run(call.program, [], call.contractAddress, storage, {});
    TransferRun(codec, sender, recipient, amount, call.contractAddress, storage, x, from, m, to, n);
    CommittedNumbers(codec, call, storage, x, from, m, to, n);
  }

  lemma ColonKeyStays(codec: Codec, call: Call, storage: Ledger, k: StateKey)
    requires RawAddress.WellFormed(call.contractAddress) && ':' in k.key
    ensures At(codec, Apply(storage, DiffOf([call], storage)), k) == At(codec, storage, k)
  {
    ColonKeyIsLost([call], storage, k);
  }

  /**
   A covered transfer to `x:y` succeeds and debits the sender, but what is committed leaves `x:y` as it
   was and overwrites the balance of `x` with what `x:y` should have.
   */
  lemma ColonTransferOverwrites(codec: Codec, sender: string, x: string, y: string, amount: int, call: Call,
                                storage: Ledger)
    requires RoundTrips(codec) && RawAddress.WellFormed(call.contractAddress)
    requires Sound(codec, call.contractAddress, storage)
    requires ':' !in sender && ':' !in x && sender != x
    requires Covered(codec, call.contractAddress, storage, sender, Text(x + ":" + y), Amount(amount))
    requires call.program == Transfer(codec, sender, Text(x + ":" + y), Amount(amount))
    ensures var from, to := AccountKey(call.contractAddress, sender), AccountKey(call.contractAddress, x + ":" + y);
            var committed := Apply(storage, DiffOf([call], storage));
            && RunSetCached([call], storage).receipts == [TransactionReceipt(call.txHash, true)]
            && At(codec, committed, from) == At(codec, storage, from) - amount
            && At(codec, committed, to) == At(codec, storage, to)
            && At(codec, committed, AccountKey(call.contractAddress, x)) == At(codec, storage, to) + amount
  {
    var from, to := AccountKey(call.contractAddress, sender), AccountKey(call.contractAddress, x + ":" + y);
    ColonKeys(call.contractAddress, sender, x, y);
    CommittedTransfer(codec, sender, x + ":" + y, amount, call, storage,
                      from, At(codec, storage, from) - amount, to, At(codec, storage, to) + amount);
    ColonKeyStays(codec, call, storage, to);
  }
}
