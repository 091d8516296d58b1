/**
 What an ordered set reports, told transaction by transaction from their headers: whose state each one
 runs on, which receipt it gets, and whose keys the diff names.
 */
module SetOutputs {
  import opened Wrappers
  import opened StateKeys
  import opened CacheContents
  import opened StateCaches
  import opened Contracts
  import opened StateDiffs
  import opened Types
  import opened CachedRuns
  import opened VirtualMachines
  import RawAddress

  // A single transaction

  lemma CallsOfOne(processor: Processor, e: TransactionEntry)
    ensures CallsOf(processor, [e]) ==
            [Call(e.txHash, e.transaction.header.contractAddress, processor(e.transaction))]
  {
  }

  lemma RunOfOne(call: Call, storage: Ledger)
    ensures RunSet([call], storage) == RunNext(SetRun(storage, {}, [], false), call)
  {
    assert [call][..0] == [];
    assert RunSet([], storage) == SetRun(storage, {}, [], false);
  }

  lemma OneCallOutput(call: Call, storage: Ledger)
    requires CallWellFormed(call)
    ensures var x := Run(call.program, [], call.contractAddress, storage, {});
            var output := OutputOf(RunSetCached([call], storage));
            match x.outcome
            case Crashed => output == Failure(UnexpectedError(call.txHash))
            case Rejected => output == Success(SetOutput([TransactionReceipt(call.txHash, false)], []))
            case Succeeded =>
              output.Success? && output.value.transactionReceipts == [TransactionReceipt(call.txHash, true)]
  {
    AloneStands(call, storage);
    SetOfOne(call, storage);
    assert Forked(EMPTY) == EMPTY;
    assert Decodable(EMPTY) && ModifiedItems(EMPTY) == [];
    forall success: bool
      ensures [] + [TransactionReceipt(call.txHash, success)] == [TransactionReceipt(call.txHash, success)]
    {
    }
  }

  lemma OneCallDiff(call: Call, storage: Ledger)
    requires CallWellFormed(call)
    requires var x := Run(call.program, [], call.contractAddress, storage, {});
             x.outcome == Succeeded && NoColons(x.written)
    ensures var x := Run(call.program, [], call.contractAddress, storage, {});
            IsDiff(DiffOf([call], storage), x.ledger, x.written) && Apply(storage, DiffOf([call], storage)) == x.ledger
  {
    RunOfOne(call, storage);
    assert CallsWellFormed([call]);
    DiffIffPlain([call], storage);
    DiffReachesFinalState([call], storage);
  }

  /**
   A set of one transaction runs its program on the state of the contract its header names: an unexpected
   error fails the set, an expected one leaves only a receipt, and a success is reported with the keys
   written there.
   */
  lemma OneEntry(processor: Processor, e: TransactionEntry, storage: Ledger)
    requires RegistersWellFormed(processor)
    ensures var x := Run(processor(e.transaction), [], e.transaction.header.contractAddress, storage, {});
            var output := Processed(processor, [e], storage);
            match x.outcome
            case Crashed => output == Failure(UnexpectedError(e.txHash))
            case Rejected => output == Success(SetOutput([TransactionReceipt(e.txHash, false)], []))
            case Succeeded =>
              && output.Success?
              && output.value.transactionReceipts == [TransactionReceipt(e.txHash, true)]
              && (NoColons(x.written) ==>
                    && IsDiff(output.value.stateDiff, x.ledger, x.written)
                    && Apply(storage, output.value.stateDiff) == x.ledger)
  {
    var call := Call(e.txHash, e.transaction.header.contractAddress, processor(e.transaction));
    CallsOfOne(processor, e);
    OneCallOutput(call, storage);
    var x := Run(call.program, [], call.contractAddress, storage, {});
    if x.outcome == Succeeded && NoColons(x.written) {
      OneCallDiff(call, storage);
    }
  }

  // Lists of transactions

  lemma CallsOfPrefixes(processor: Processor, entries: seq<TransactionEntry>, i: nat)
    requires i <= |entries|
    ensures CallsOf(processor, entries[..i]) == CallsOf(processor, entries)[..i]
  {
  }

  lemma CallAt(processor: Processor, entries: seq<TransactionEntry>, i: nat)
    requires i < |entries|
    ensures CallsOf(processor, entries)[i] ==
            Call(entries[i].txHash, entries[i].transaction.header.contractAddress, processor(entries[i].transaction))
  {
  }

  lemma {:induction false} NotCrashedBefore(calls: seq<Call>, i: nat, storage: Ledger)
    requires i <= |calls| && !RunSet(calls, storage).crashed
    ensures !RunSet(calls[..i], storage).crashed
    ensures |RunSet(calls[..i], storage).receipts| == i
    ensures RunSet(calls[..i], storage).receipts <= RunSet(calls, storage).receipts
  {
    RunSetExtends(calls, i, storage);
    RunSetFrame(calls[..i], storage);
    RunSetAppend(calls[..i], calls[i..], storage);
    assert calls[..i] + calls[i..] == calls;
  }

  /** One call of a run that does not crash, on the state the calls before leave. */
  lemma CallInTurn(calls: seq<Call>, i: nat, storage: Ledger)
    requires i < |calls| && !RunSet(calls, storage).crashed
    ensures var before := RunSet(calls[..i], storage).ledger;
            var x := Run(calls[i].program, [], calls[i].contractAddress, before, {});
            && x.outcome != Crashed
            && i < |RunSet(calls, storage).receipts|
            && RunSet(calls, storage).receipts[i] == TransactionReceipt(calls[i].txHash, x.outcome == Succeeded)
            && RunSet(calls[..i + 1], storage).ledger == if x.outcome == Succeeded then x.ledger else before
  {
    NotCrashedBefore(calls, i, storage);
    NotCrashedBefore(calls, i + 1, storage);
    RunSetNext(calls, i, storage);
    var before := RunSet(calls[..i], storage);
    assert before.written + {} == before.written;
    RunAddsWritten(calls[i].program, [], calls[i].contractAddress, before.ledger, before.written, {});
    assert RunSet(calls[..i + 1], storage).receipts[i] == RunSet(calls, storage).receipts[i];
  }

  /**
   In every set without colons the i-th transaction runs its program, on the state of the contract its
   header names, as the transactions before it left it; the i-th receipt names it and tells whether it
   succeeded, and what it did stays exactly if it did.
   */
  lemma EntryInTurn(processor: Processor, entries: seq<TransactionEntry>, storage: Ledger, i: nat)
    requires RegistersWellFormed(processor) && i < |entries|
    requires NoColons(RunSet(CallsOf(processor, entries), storage).written)
    requires Processed(processor, entries, storage).Success?
    ensures var before := RunSet(CallsOf(processor, entries[..i]), storage).ledger;
            var after := RunSet(CallsOf(processor, entries[..i + 1]), storage).ledger;
            var header := entries[i].transaction.header;
            var x := Run(processor(entries[i].transaction), [], header.contractAddress, before, {});
            var receipts := Processed(processor, entries, storage).value.transactionReceipts;
            && x.outcome != Crashed
            && i < |receipts| && receipts[i] == TransactionReceipt(entries[i].txHash, x.outcome == Succeeded)
            && after == if x.outcome == Succeeded then x.ledger else before
  {
    ReceiptsAgree(CallsOf(processor, entries), storage);
    CallsOfPrefixes(processor, entries, i);
    CallsOfPrefixes(processor, entries, i + 1);
    CallAt(processor, entries, i);
    CallInTurn(CallsOf(processor, entries), i, storage);
  }

  // The first unexpected error

  /** Where an error came from: the first call that threw unexpectedly. */
  lemma {:induction false} ErrorAt(calls: seq<Call>, storage: Ledger) returns (i: nat)
    requires RunSetCached(calls, storage).error.Some?
    ensures i < |calls| && RunSetCached(calls[..i], storage).error.None?
    ensures RunSetCached(calls[..i + 1], storage).error == Some(UnexpectedError(calls[i].txHash))
    ensures RunSetCached(calls, storage) == RunSetCached(calls[..i + 1], storage)
  {
    var n := |calls| - 1;
    if RunSetCached(calls[..n], storage).error.Some? {
      i := ErrorAt(calls[..n], storage);
      assert calls[..n][..i] == calls[..i] && calls[..n][..i + 1] == calls[..i + 1];
    } else {
      i := n;
      assert calls[..n + 1] == calls;
    }
  }

  lemma PrefixAgrees(calls: seq<Call>, i: nat, storage: Ledger)
    requires i <= |calls| && CallsWellFormed(calls) && NoColons(RunSet(calls, storage).written)
    ensures RunSet(calls[..i], storage).crashed <==> RunSetCached(calls[..i], storage).error.Some?
  {
    RunSetExtends(calls, i, storage);
    assert CallsWellFormed(calls[..i]);
    ReceiptsAgree(calls[..i], storage);
  }

  /** Once the calls before have gone through, the next one fails the set exactly if it throws unexpectedly. */
  lemma NextFailsIff(calls: seq<Call>, i: nat, storage: Ledger)
    requires i < |calls| && CallsWellFormed(calls) && NoColons(RunSet(calls, storage).written)
    requires RunSetCached(calls[..i], storage).error.None?
    ensures var before := RunSet(calls[..i], storage).ledger;
            Run(calls[i].program, [], calls[i].contractAddress, before, {}).outcome == Crashed <==>
            RunSetCached(calls[..i + 1], storage).error == Some(UnexpectedError(calls[i].txHash))
  {
    PrefixAgrees(calls, i, storage);
    PrefixAgrees(calls, i + 1, storage);
    RunSetNext(calls, i, storage);
    RunSetCachedNext(calls, i, storage);
    var before := RunSet(calls[..i], storage);
    assert before.written + {} == before.written;
    RunAddsWritten(calls[i].program, [], calls[i].contractAddress, before.ledger, before.written, {});
  }

  /** The transactions before go through, and this one's program throws unexpectedly on what they leave. */
  ghost predicate CrashesFirst(processor: Processor, entries: seq<TransactionEntry>, storage: Ledger, i: int) {
    && 0 <= i < |entries|
    && Processed(processor, entries[..i], storage).Success?
    && var before := RunSet(CallsOf(processor, entries[..i]), storage).ledger;
       var transaction := entries[i].transaction;
       Run(processor(transaction), [], transaction.header.contractAddress, before, {}).outcome == Crashed
  }

  lemma FailureHasCrash(processor: Processor, entries: seq<TransactionEntry>, storage: Ledger) returns (i: nat)
    requires RegistersWellFormed(processor) && Processed(processor, entries, storage).Failure?
    requires NoColons(RunSet(CallsOf(processor, entries), storage).written)
    ensures CrashesFirst(processor, entries, storage, i)
    ensures Processed(processor, entries, storage) == Failure(UnexpectedError(entries[i].txHash))
  {
    var calls := CallsOf(processor, entries);
    i := ErrorAt(calls, storage);
    CallsOfPrefixes(processor, entries, i);
    CallAt(processor, entries, i);
    NextFailsIff(calls, i, storage);
  }

  lemma CrashFails(processor: Processor, entries: seq<TransactionEntry>, storage: Ledger, i: nat)
    requires RegistersWellFormed(processor) && CrashesFirst(processor, entries, storage, i)
    requires NoColons(RunSet(CallsOf(processor, entries), storage).written)
    ensures Processed(processor, entries, storage) == Failure(UnexpectedError(entries[i].txHash))
  {
    var calls := CallsOf(processor, entries);
    CallsOfPrefixes(processor, entries, i);
    CallAt(processor, entries, i);
    NextFailsIff(calls, i, storage);
    RunSetCachedStops(calls, i + 1, storage);
  }

  /** As long as no colon is written, a set fails exactly at the first unexpected error, and names it. */
  lemma FailureIsFirstCrash(processor: Processor, entries: seq<TransactionEntry>, storage: Ledger, txHash: seq<Byte>)
    requires RegistersWellFormed(processor)
    requires NoColons(RunSet(CallsOf(processor, entries), storage).written)
    ensures Processed(processor, entries, storage) == Failure(UnexpectedError(txHash)) <==>
            exists i :: CrashesFirst(processor, entries, storage, i) && entries[i].txHash == txHash
  {
    if Processed(processor, entries, storage).Failure? {
      var i := FailureHasCrash(processor, entries, storage);
    }
    forall i | CrashesFirst(processor, entries, storage, i)
      ensures Processed(processor, entries, storage) == Failure(UnexpectedError(entries[i].txHash))
    {
      CrashFails(processor, entries, storage, i);
    }
  }

  // Whose keys the diff names

  /** A call marks keys of its own contract only. */
  lemma {:induction false} RunCachedMarks(p: Program, env: Env, contract: seq<Byte>, c: Contents, storage: Ledger,
                                          e: string)
    requires e in RunCached(p, env, contract, c, storage).contents.modified
    ensures e in c.modified || exists key :: e == EncodeMapKey(StateKey(contract, key))
    decreases p
  {
    match p
    case Succeed =>
    case Throw(_) =>
    case Load(key, next) =>
      RunCachedMarks(next, env + [View(c.cache, storage, StateKey(contract, key(env)))], contract, c, storage, e);
    case Store(key, value, next) =>
      var encodedKey := EncodeMapKey(StateKey(contract, key(env)));
      RunCachedMarks(next, env, contract, SetKey(c, encodedKey, value(env)), storage, e);
    case Branch(condition, yes, no) =>
      RunCachedMarks(if condition(env) then yes else no, env, contract, c, storage, e);
  }

  /** The encoded key is one of a contract whose call the receipt calls a success. */
  ghost predicate MarkedBy(calls: seq<Call>, receipts: seq<TransactionReceipt>, e: string) {
    exists i, key :: MarkedByCall(calls, receipts, e, i, key)
  }

  ghost predicate MarkedByCall(calls: seq<Call>, receipts: seq<TransactionReceipt>, e: string, i: int, key: string) {
    && 0 <= i < |calls| && i < |receipts| && receipts[i].success
    && RawAddress.WellFormed(calls[i].contractAddress)
    && e == EncodeMapKey(StateKey(calls[i].contractAddress, key))
  }

  lemma MarkedLonger(calls: seq<Call>, receipts: seq<TransactionReceipt>, more: seq<Call>,
                     moreReceipts: seq<TransactionReceipt>, e: string)
    requires MarkedBy(calls, receipts, e) && calls <= more && receipts <= moreReceipts
    ensures MarkedBy(more, moreReceipts, e)
  {
    var i, key :| MarkedByCall(calls, receipts, e, i, key);
    assert MarkedByCall(more, moreReceipts, e, i, key);
  }

  /** The encoded key is one of the contract. */
  ghost predicate OwnKey(contract: seq<Byte>, e: string) {
    exists key :: e == EncodeMapKey(StateKey(contract, key))
  }

  /** Merging a call's fork marks the call's own keys, besides those marked before. */
  lemma MergeMarks(before: Contents, f: Contents, contract: seq<Byte>, e: string)
    requires Decodable(f) && RawAddress.WellFormed(contract)
    requires forall m :: m in f.modified ==> OwnKey(contract, m)
    requires e in SetAll(before, ModifiedItems(f)).modified && e !in before.modified
    ensures OwnKey(contract, e)
  {
    KeysAfterSets(before, EncodedItems(ModifiedItems(f)), e);
    var j :| 0 <= j < |ModifiedItems(f)| && e == EncodedItems(ModifiedItems(f))[j].encodedKey;
    assert f.modified[j] in f.modified;
    var key :| f.modified[j] == EncodeMapKey(StateKey(contract, key));
    ItemAt(f, j);
    DecodeOfEncoded(StateKey(contract, key));
    assert e == EncodeMapKey(StateKey(contract, Before(key, ':')));
  }

  /** All keys a call marks on a fork are its own. */
  lemma ForkMarks(call: Call, before: Contents, storage: Ledger, f: Contents)
    requires f == RunCached(call.program, [], call.contractAddress, Forked(before), storage).contents
    ensures forall m :: m in f.modified ==> OwnKey(call.contractAddress, m)
  {
    forall m | m in f.modified
      ensures OwnKey(call.contractAddress, m)
    {
      RunCachedMarks(call.program, [], call.contractAddress, Forked(before), storage, m);
    }
  }

  /** Only a call that succeeds changes the set's cache. */
  lemma NextSucceeded(before: CachedSet, call: Call, storage: Ledger, f: Contents)
    requires Decodable(before.contents) && CachedNext(before, call, storage).contents != before.contents
    requires f == RunCached(call.program, [], call.contractAddress, Forked(before.contents), storage).contents
    ensures Decodable(f) && !call.program.Throw?
    ensures CachedNext(before, call, storage).contents == SetAll(before.contents, ModifiedItems(f))
    ensures CachedNext(before, call, storage).receipts == before.receipts + [TransactionReceipt(call.txHash, true)]
  {
    RunCachedKeepsDecodable(call.program, [], call.contractAddress, Forked(before.contents), storage);
  }

  lemma NextMarks(before: CachedSet, call: Call, storage: Ledger, e: string)
    requires CallWellFormed(call) && Decodable(before.contents)
    requires e in CachedNext(before, call, storage).contents.modified && e !in before.contents.modified
    ensures CachedNext(before, call, storage).receipts == before.receipts + [TransactionReceipt(call.txHash, true)]
    ensures RawAddress.WellFormed(call.contractAddress) && OwnKey(call.contractAddress, e)
  {
    var f := RunCached(call.program, [], call.contractAddress, Forked(before.contents), storage).contents;
    NextSucceeded(before, call, storage, f);
    ForkMarks(call, before.contents, storage, f);
    MergeMarks(before.contents, f, call.contractAddress, e);
  }

  lemma LastMarks(calls: seq<Call>, receipts: seq<TransactionReceipt>, e: string)
    requires calls != [] && |receipts| == |calls| && receipts[|calls| - 1].success
    requires RawAddress.WellFormed(calls[|calls| - 1].contractAddress) && OwnKey(calls[|calls| - 1].contractAddress, e)
    ensures MarkedBy(calls, receipts, e)
  {
    var n := |calls| - 1;
    var key :| e == EncodeMapKey(StateKey(calls[n].contractAddress, key));
    assert MarkedByCall(calls, receipts, e, n, key);
  }

  lemma StepMarks(calls: seq<Call>, before: CachedSet, after: CachedSet, storage: Ledger, e: string)
    requires calls != [] && CallWellFormed(calls[|calls| - 1]) && Decodable(before.contents)
    requires after == CachedNext(before, calls[|calls| - 1], storage) && after.error.None?
    requires e in after.contents.modified && NamesCalls(before.receipts, calls[..|calls| - 1])
    requires e in before.contents.modified ==> MarkedBy(calls[..|calls| - 1], before.receipts, e)
    ensures MarkedBy(calls, after.receipts, e)
  {
    var n := |calls| - 1;
    ReceiptOfNext(before, calls[n], storage);
    if e in before.contents.modified {
      MarkedLonger(calls[..n], before.receipts, calls, after.receipts, e);
    } else {
      NextMarks(before, calls[n], storage, e);
      LastMarks(calls, after.receipts, e);
    }
  }

  lemma {:induction false} SetMarks(calls: seq<Call>, storage: Ledger, e: string)
    requires CallsWellFormed(calls) && RunSetCached(calls, storage).error.None?
    requires e in RunSetCached(calls, storage).contents.modified
    ensures MarkedBy(calls, RunSetCached(calls, storage).receipts, e)
  {
    if calls != [] {
      var before := RunSetCached(calls[..|calls| - 1], storage);
      if e in before.contents.modified {
        SetMarks(calls[..|calls| - 1], storage, e);
      }
      CachedReceiptsName(calls[..|calls| - 1], storage);
      StepMarks(calls, before, RunSetCached(calls, storage), storage, e);
    }
  }

  /** Colons or not, every key of the diff is one of a contract that a successful transaction names. */
  lemma DiffNamesCalled(processor: Processor, entries: seq<TransactionEntry>, storage: Ledger, m: nat)
    requires RegistersWellFormed(processor) && Processed(processor, entries, storage).Success?
    requires m < |Processed(processor, entries, storage).value.stateDiff|
    ensures var output := Processed(processor, entries, storage).value;
            exists i :: 0 <= i < |entries| && i < |output.transactionReceipts|
                     && output.transactionReceipts[i].success
                     && entries[i].transaction.header.contractAddress == output.stateDiff[m].key.contractAddress
  {
    var calls := CallsOf(processor, entries);
    var cached := RunSetCached(calls, storage);
    var e := cached.contents.modified[m];
    SetMarks(calls, storage, e);
    var i, key :| MarkedByCall(calls, cached.receipts, e, i, key);
    CallAt(processor, entries, i);
    ItemAt(cached.contents, m);
    DecodeOfEncoded(StateKey(calls[i].contractAddress, key));
  }

  /** A call of an address that is not registered fails the set. */
  lemma UnregisteredFails(registry: map<string, Processor>, e: TransactionEntry, storage: Ledger)
    requires RegistersWellFormed(ProcessorOf(registry))
    requires RawAddress.EncodeRaw(e.transaction.header.contractAddress) !in registry
    ensures Processed(ProcessorOf(registry), [e], storage) == Failure(UnexpectedError(e.txHash))
  {
    OneEntry(ProcessorOf(registry), e, storage);
  }
}
