/**
 The block builder: polls the pending transactions, executes them and builds the next block on the
 last block it knows of, which it caches.
 */
module BlockBuilders {
  import opened Wrappers
  import opened Types
  import opened Contracts
  import opened StateDiffs
  import opened StateCaches
  import opened Chains
  import opened CachedRuns
  import opened VirtualMachines
  import opened Replication
  import StateStorages

  const DEFAULT_BLOCK_SIZE_LIMIT: nat := 2000

  /** Signing, when it is configured. */
  datatype Signer = Unsigned | Signer(sign: seq<Byte> -> seq<Byte>, nodeName: string)

  function Signed(hash: HashFunction, signer: Signer, block: Block): (r: Block)
    ensures SameContent(r, block)
    ensures signer.Unsigned? ==> r == block
  {
    match signer
    case Unsigned => block
    case Signer(sign, nodeName) => SignBlock(block, sign(CalculateBlockHash(hash, block)), nodeName)
  }

  /** The transactions a block takes from the pending ones. */
  function Capped(pending: seq<TransactionEntry>, limit: nat): seq<TransactionEntry> {
    if |pending| <= limit then pending else pending[..limit]
  }

  /** They are the first ones, as many as there are or as the limit allows. */
  lemma CappedAreFirst(pending: seq<TransactionEntry>, limit: nat)
    ensures |Capped(pending, limit)| == if |pending| < limit then |pending| else limit
    ensures Capped(pending, limit) <= pending
  {
  }

  function TransactionsOf(entries: seq<TransactionEntry>): (r: seq<Transaction>)
    ensures |r| == |entries| && forall i :: 0 <= i < |r| ==> r[i] == entries[i].transaction
  {
    seq(|entries|, i requires 0 <= i < |entries| => entries[i].transaction)
  }

  /** The transactions are the first pending ones, as many as there are or as the limit allows. */
  ghost predicate TakesFirst(transactions: seq<Transaction>, pending: seq<TransactionEntry>, limit: nat) {
    && |transactions| == (if |pending| < limit then |pending| else limit)
    && forall i :: 0 <= i < |transactions| ==> transactions[i] == pending[i].transaction
  }

  /** A block signed with a key passes verification with that key. */
  lemma SignedVerifies(hash: HashFunction, signer: Signer, block: Block, verify: (seq<Byte>, seq<Byte>, string) -> bool)
    requires signer.Signer? && forall message: seq<Byte> :: verify(message, signer.sign(message), signer.nodeName)
    ensures var r := Signed(hash, signer, block);
            verify(CalculateBlockHash(hash, r), r.signatureData.signature, r.signatureData.signatory)
  {
  }

  /** What the virtual machine makes of the entries. */
  function RunEntries(processor: Processor, entries: seq<TransactionEntry>, storage: Ledger): (r: CachedSet)
    ensures Decodable(r.contents)
  {
    RunSetCached(CallsOf(processor, entries), storage)
  }

  function BodyOf(processor: Processor, entries: seq<TransactionEntry>, storage: Ledger): BlockBody {
    var cached := RunEntries(processor, entries, storage);
    BlockBody(TransactionsOf(entries), cached.receipts, ModifiedItems(cached.contents))
  }

  /** The receipts of a body name the transactions of the entries by their hashes. */
  lemma BodyHasEntries(processor: Processor, entries: seq<TransactionEntry>, storage: Ledger)
    requires RunEntries(processor, entries, storage).error.None?
    ensures var body := BodyOf(processor, entries, storage);
            |body.transactionReceipts| == |body.transactions| && EntriesOf(body) == entries
  {
    CachedReceiptsName(CallsOf(processor, entries), storage);
    var body := BodyOf(processor, entries, storage);
    forall i | 0 <= i < |entries|
      ensures body.transactionReceipts[i].txHash == entries[i].txHash
    {
      assert CallsOf(processor, entries)[i].txHash == entries[i].txHash;
    }
    assert |EntriesOf(body)| == |entries|;
  }

  /** Unless a colon was written, the body tells what executing its transactions did. */
  lemma BodyIsExecuted(processor: Processor, entries: seq<TransactionEntry>, storage: Ledger)
    requires RegistersWellFormed(processor) && RunEntries(processor, entries, storage).error.None?
    requires NoColons(RunSet(CallsOf(processor, entries), storage).written)
    ensures Executed(processor, storage, BodyOf(processor, entries, storage))
    ensures EntriesOf(BodyOf(processor, entries, storage)) == entries
  {
    var calls := CallsOf(processor, entries);
    ReceiptsAgree(calls, storage);
    DiffIffPlain(calls, storage);
    BodyHasEntries(processor, entries, storage);
  }

  class BlockBuilder {
    const virtualMachine: VirtualMachine
    const hash: HashFunction
    const signer: Signer
    const blockSizeLimit: nat
    var lastBlock: Option<Block>
    var polling: bool

    constructor (virtualMachine: VirtualMachine, hash: HashFunction, signer: Signer, blockSizeLimit: nat)
      ensures this.virtualMachine == virtualMachine && this.hash == hash && this.signer == signer
      ensures this.blockSizeLimit == if blockSizeLimit == 0 then 2000 else blockSizeLimit
      ensures lastBlock == None && !polling
    {
      this.virtualMachine, this.hash, this.signer := virtualMachine, hash, signer;
      this.blockSizeLimit := if blockSizeLimit == 0 then DEFAULT_BLOCK_SIZE_LIMIT else blockSizeLimit;
      lastBlock, polling := None, false;
    }

    method Start()
      modifies this`polling
      ensures polling
    {
      polling := true;
    }

    method Stop()
      modifies this`polling
      ensures !polling
    {
      polling := false;
    }

    /** `stored` is the answer of the block storage: only a stored block becomes the last one. */
    method CommitBlock(block: Block, stored: bool) returns (ok: bool)
      modifies this`lastBlock
      ensures ok == stored && lastBlock == if stored then Some(block) else old(lastBlock)
    {
      if !stored {
        return false;
      }
      lastBlock := Some(block);
      return true;
    }

    method GetOrFetchLastBlock(fetched: Option<Block>) returns (last: Option<Block>)
      modifies this`lastBlock
      ensures last == lastBlock == if old(lastBlock).None? then fetched else old(lastBlock)
    {
      if lastBlock.None? {
        lastBlock := fetched;
      }
      last := lastBlock;
    }

    method BuildBlockFromPendingTransactions(last: Option<Block>, pending: seq<TransactionEntry>, storage: Ledger)
      returns (built: Result<Option<Block>, UnexpectedError>)
      ensures built == Success(None) <==> Capped(pending, blockSizeLimit) == []
      ensures var entries := Capped(pending, blockSizeLimit);
              var error := RunEntries(virtualMachine.processor, entries, storage).error;
              entries != [] ==>
                && (error.Some? ==> built == Failure(error.value))
                && (error.None? ==>
                      && built.Success? && built.value.Some?
                      && SameContent(built.value.value,
                                     BuildNextBlock(hash, BodyOf(virtualMachine.processor, entries, storage), last)))
      ensures built.Success? && built.value.Some? ==>
                && TakesFirst(built.value.value.body.transactions, pending, blockSizeLimit)
                && (signer.Signer? ==>
                      built.value.value.signatureData ==
                      BlockSignatureData(signer.sign(CalculateBlockHash(hash, built.value.value)), signer.nodeName))
    {
      var capped := Capped(pending, blockSizeLimit);
      CappedAreFirst(pending, blockSizeLimit);
      if |capped| == 0 {
        return Success(None);
      }
      var output := virtualMachine.ProcessTransactionSet(capped, storage);
      if output.Failure? {
        return Failure(output.error);
      }
      var body := BlockBody(TransactionsOf(capped), output.value.transactionReceipts, output.value.stateDiff);
      var block := BuildNextBlock(hash, body, last);
      built := Success(Some(Signed(hash, signer, block)));
    }

    /**
     One turn of the poll.  A block built continues the last block; polling stops exactly when one
     was built, and goes on after an empty pool or an error.
     */
    method AppendNextBlock(fetched: Option<Block>, pending: seq<TransactionEntry>, storage: Ledger)
      returns (built: Result<Option<Block>, UnexpectedError>)
      modifies this
      ensures lastBlock == if old(lastBlock).None? then fetched else old(lastBlock)
      ensures polling <==> !(built.Success? && built.value.Some?)
      ensures pending == [] ==> built == Success(None)
      ensures built.Success? && built.value.Some? ==>
                var block := built.value.value;
                var entries := Capped(pending, blockSizeLimit);
                && RunEntries(virtualMachine.processor, entries, storage).error.None?
                && SameContent(block,
                               BuildNextBlock(hash, BodyOf(virtualMachine.processor, entries, storage), lastBlock))
    {
      Stop();
      var last := GetOrFetchLastBlock(fetched);
      built := BuildBlockFromPendingTransactions(last, pending, storage);
      if built.Failure? || built.value.None? {
        Start();
      }
    }
  }

  /** A chain of executed blocks grows by a block whose body was executed on its last state. */
  lemma BuiltChainGrows(processor: Processor, chain: seq<Block>, block: Block)
    requires chain != [] && BuiltChain(processor, chain)
    requires Executed(processor, StateStorages.StateAt(chain, |chain| - 1), block.body)
    ensures BuiltChain(processor, chain + [block])
  {
    ghost var Q := (state: Ledger, body: BlockBody) => Executed(processor, state, body);
    forall h | 0 < h < |chain|
      ensures StateStorages.BodyAt(chain, h, Q)
    {
      assert ExecutedAt(processor, chain, h);
    }
    StateStorages.EveryBodyGrows(chain, block, Q);
    forall h | 0 < h < |chain + [block]|
      ensures ExecutedAt(processor, chain + [block], h)
    {
      assert StateStorages.BodyAt(chain + [block], h, Q);
    }
  }
}
