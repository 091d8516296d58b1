/**
 The virtual machine: the objects that run an ordered set of transactions, proved to compute what
 `CachedRuns` describes.
 */
module VirtualMachines {
  import opened Wrappers
  import opened StateKeys
  import opened CacheContents
  import opened StateCaches
  import opened Contracts
  import opened StateDiffs
  import opened Types
  import opened CachedRuns
  import RawAddress

  // The registry

  /** Contracts by the text of their address; a call of anything else throws, unexpectedly. */
  function ProcessorOf(registry: map<string, Processor>): Processor {
    (transaction: Transaction) =>
      var address := RawAddress.EncodeRaw(transaction.header.contractAddress);
      if address in registry then registry[address](transaction) else Throw(false)
  }

  /** Only calls of well-formed addresses do anything but throw. */
  ghost predicate RegistersWellFormed(processor: Processor) {
    forall transaction: Transaction ::
      RawAddress.WellFormed(transaction.header.contractAddress) || processor(transaction) == Throw(false)
  }

  /** An address is well formed if its text is that of a well-formed address. */
  lemma SameTextSameForm(raw: seq<Byte>, other: seq<Byte>)
    requires RawAddress.WellFormed(raw) && RawAddress.EncodeRaw(raw) == RawAddress.EncodeRaw(other)
    ensures RawAddress.WellFormed(other)
  {
    RawAddress.PartsOfEncoded(raw);
    RawAddress.PartsOfEncoded(other);
  }

  /** It is enough that the contracts are registered under well-formed addresses, whatever is then called. */
  lemma RegistryIsWellFormed(registry: map<string, Processor>)
    requires forall address :: address in registry ==>
               exists raw :: RawAddress.WellFormed(raw) && address == RawAddress.EncodeRaw(raw)
    ensures RegistersWellFormed(ProcessorOf(registry))
  {
    forall transaction: Transaction
      ensures RawAddress.WellFormed(transaction.header.contractAddress)
           || ProcessorOf(registry)(transaction) == Throw(false)
    {
      var address := RawAddress.EncodeRaw(transaction.header.contractAddress);
      if address in registry {
        var raw :| RawAddress.WellFormed(raw) && address == RawAddress.EncodeRaw(raw);
        SameTextSameForm(raw, transaction.header.contractAddress);
      }
    }
  }

  // Reading and writing the state from inside a contract

  class ContractStateAccessor {
    const contractAddress: seq<Byte>
    const stateCache: StateCache
    const storage: Ledger

    constructor (contractAddress: seq<Byte>, stateCache: StateCache, storage: Ledger)
      ensures this.contractAddress == contractAddress && this.stateCache == stateCache && this.storage == storage
    {
      this.contractAddress, this.stateCache, this.storage := contractAddress, stateCache, storage;
    }

    method Load(key: string) returns (value: Option<string>)
      ensures value == View(stateCache.cache, storage, StateKey(contractAddress, key))
    {
      value := stateCache.Get(StateKey(contractAddress, key));
      if value != None {
        return;
      }
      value := Get(storage, StateKey(contractAddress, key));
    }

    method Store(key: string, value: string)
      modifies stateCache
      ensures stateCache.State() == SetKey(old(stateCache.State()), EncodeMapKey(StateKey(contractAddress, key)), value)
    {
      stateCache.Set(StateKey(contractAddress, key), value);
    }
  }

  /** Running a program against the cache of an accessor. */
  method Execute(p: Program, env: Env, state: ContractStateAccessor) returns (outcome: Outcome)
    modifies state.stateCache
    ensures CachedRun(outcome, state.stateCache.State()) ==
            RunCached(p, env, state.contractAddress, old(state.stateCache.State()), state.storage)
    decreases p
  {
    match p
    case Succeed =>
      outcome := Succeeded;
    case Throw(expected) =>
      outcome := if expected then Rejected else Crashed;
    case Load(key, next) =>
      var value := state.Load(key(env));
      outcome := Execute(next, env + [value], state);
    case Store(key, value, next) =>
      state.Store(key(env), value(env));
      outcome := Execute(next, env, state);
    case Branch(condition, yes, no) =>
      if condition(env) {
        outcome := Execute(yes, env, state);
      } else {
        outcome := Execute(no, env, state);
      }
  }

  // Ordered sets of transactions

  datatype SetOutput = SetOutput(transactionReceipts: seq<TransactionReceipt>, stateDiff: seq<Modified>)

  /** What a set on caches amounts to. */
  function OutputOf(cached: CachedSet): Result<SetOutput, UnexpectedError>
    requires Decodable(cached.contents)
  {
    match cached.error
    case Some(e) => Failure(e)
    case None => Success(SetOutput(cached.receipts, ModifiedItems(cached.contents)))
  }

  /** What an ordered set of transactions comes to. */
  function Processed(processor: Processor, entries: seq<TransactionEntry>,
                     storage: Ledger): Result<SetOutput, UnexpectedError> {
    OutputOf(RunSetCached(CallsOf(processor, entries), storage))
  }

  class VirtualMachine {
    const processor: Processor

    constructor (processor: Processor)
      ensures this.processor == processor
    {
      this.processor := processor;
    }

    /** One call on a fork of the set's cache, merged back if it succeeds. */
    method ProcessTransaction(entry: TransactionEntry, stateCache: StateCache, receipts: seq<TransactionReceipt>,
                              storage: Ledger)
      returns (receipts': seq<TransactionReceipt>, error: Option<UnexpectedError>)
      requires Decodable(stateCache.State())
      modifies stateCache
      ensures CachedSet(stateCache.State(), receipts', error) ==
              CachedNext(CachedSet(old(stateCache.State()), receipts, None), CallOf(processor, entry), storage)
    {
      var transaction := entry.transaction;
      var scope := stateCache.Fork();
      var state := new ContractStateAccessor(transaction.header.contractAddress, scope, storage);
      ghost var forked := scope.State();
      var outcome := Execute(processor(transaction), [], state);
      RunCachedKeepsDecodable(processor(transaction), [], transaction.header.contractAddress, forked, storage);
      receipts', error := receipts, None;
      match outcome {
        case Succeeded =>
          var modified := scope.GetModifiedKeys();
          stateCache.Merge(modified);
          receipts' := receipts + [TransactionReceipt(entry.txHash, true)];
        case Rejected =>
          receipts' := receipts + [TransactionReceipt(entry.txHash, false)];
        case Crashed =>
          error := Some(UnexpectedError(entry.txHash));
      }
    }

    /**
     Receipts and diff are those of the calls run on caches.  Unless a call that succeeds writes a key
     with a colon, these are the receipts of sequential execution and the diff lists exactly the keys
     written, with their final values; the call throws exactly when sequential execution meets an
     unexpected error.
     */
    method ProcessTransactionSet(entries: seq<TransactionEntry>, storage: Ledger)
      returns (output: Result<SetOutput, UnexpectedError>)
      ensures output == Processed(processor, entries, storage)
      ensures RegistersWellFormed(processor) ==>
                var run := RunSet(CallsOf(processor, entries), storage);
                && (NoColons(run.written) ==>
                     && (output.Failure? <==> run.crashed)
                     && (output.Success? ==> output.value.transactionReceipts == run.receipts))
                && (output.Success? ==>
                     (IsDiff(output.value.stateDiff, run.ledger, run.written) <==> NoColons(run.written)))
    {
      var stateCache := new StateCache(map[]);
      var receipts: seq<TransactionReceipt> := [];
      ghost var calls := CallsOf(processor, entries);
      assert calls[..0] == [];
      if RegistersWellFormed(processor) {
        ReceiptsAgree(calls, storage);
        DiffIffPlain(calls, storage);
      }
      for i := 0 to |entries|
        invariant fresh(stateCache)
        invariant CachedSet(stateCache.State(), receipts, None) == RunSetCached(calls[..i], storage)
      {
        assert calls[i] == CallOf(processor, entries[i]);
        RunSetCachedNext(calls, i, storage);
        var error;
        receipts, error := ProcessTransaction(entries[i], stateCache, receipts, storage);
        if error.Some? {
          RunSetCachedStops(calls, i + 1, storage);
          return Failure(error.value);
        }
      }
      assert calls[..|entries|] == calls;
      var stateDiff := stateCache.GetModifiedKeys();
      output := Success(SetOutput(receipts, stateDiff));
    }
  }
}
