/**
 The block builder on top of the pools: blocks are built out of pending transactions, and storing a
 block reports its receipts back.  No transaction gets into two blocks as long as the committed pool
 remembers it until it has expired.
 */
module CommittedOnce {
  import opened Wrappers
  import opened Types
  import opened Contracts
  import opened StateCaches
  import opened CachedRuns
  import opened BlockBuilders
  import opened TransactionPools
  import Hex

  /** Some pending transactions, each once, under the hashes their IDs stand for. */
  ghost predicate DrawnFrom(pending: map<string, Transaction>, entries: seq<TransactionEntry>) {
    && (forall i :: 0 <= i < |entries| ==>
          Hex.ToHex(entries[i].txHash) in pending && pending[Hex.ToHex(entries[i].txHash)] == entries[i].transaction)
    && (forall i, j :: 0 <= i < j < |entries| ==> entries[i].txHash != entries[j].txHash)
  }

  /** The receipts of a block built out of pending transactions. */
  ghost predicate ReceiptsOfBlock(processor: Processor, p: Pools, receipts: seq<TransactionReceipt>) {
    exists entries, state :: BlockHasReceipts(processor, p, entries, state, receipts)
  }

  ghost predicate BlockHasReceipts(processor: Processor, p: Pools, entries: seq<TransactionEntry>, state: Ledger,
                                   receipts: seq<TransactionReceipt>) {
    && DrawnFrom(p.pending, entries)
    && RunEntries(processor, entries, state).error.None?
    && receipts == BodyOf(processor, entries, state).transactionReceipts
  }

  /** What the block builder builds out of the transactions it is given is such a block. */
  lemma BuilderReports(processor: Processor, p: Pools, pending: seq<TransactionEntry>, limit: nat, state: Ledger)
    requires DrawnFrom(p.pending, pending) && RunEntries(processor, Capped(pending, limit), state).error.None?
    ensures ReceiptsOfBlock(processor, p, BodyOf(processor, Capped(pending, limit), state).transactionReceipts)
  {
    var entries := Capped(pending, limit);
    assert BlockHasReceipts(processor, p, entries, state, BodyOf(processor, entries, state).transactionReceipts);
  }

  /** Receipts are only ever reported for blocks built. */
  ghost predicate OnlyBuiltBlocks(cfg: Config, processor: Processor, p: Pools, run: seq<Timed>) {
    forall i :: 0 <= i < |run| && run[i].op.Mark? ==>
      ReceiptsOfBlock(processor, RunPools(cfg, p, run[..i]), run[i].op.receipts)
  }

  /** A block has one receipt per transaction, and all of these were pending when it was built. */
  lemma BlockIsPending(processor: Processor, p: Pools, receipts: seq<TransactionReceipt>)
    requires ReceiptsOfBlock(processor, p, receipts)
    ensures forall i, j :: 0 <= i < j < |receipts| ==> receipts[i].txHash != receipts[j].txHash
    ensures IdsOf(receipts) <= p.pending.Keys
  {
    var entries: seq<TransactionEntry>, state: Ledger :| BlockHasReceipts(processor, p, entries, state, receipts);
    CachedReceiptsName(CallsOf(processor, entries), state);
    assert |receipts| == |entries|;
    forall i | 0 <= i < |receipts|
      ensures receipts[i].txHash == entries[i].txHash
    {
      assert CallsOf(processor, entries)[i].txHash == entries[i].txHash;
    }
  }

  lemma {:induction false} RunPoolsAppend(cfg: Config, p: Pools, a: seq<Timed>, b: seq<Timed>)
    ensures RunPools(cfg, RunPools(cfg, p, a), b) == RunPools(cfg, p, a + b)
  {
    if b == [] {
      assert a + b == a;
    } else {
      var n := |b| - 1;
      RunPoolsAppend(cfg, p, a, b[..n]);
      assert (a + b)[..|a + b| - 1] == a + b[..n];
    }
  }

  lemma RunPoolsAfter(cfg: Config, p: Pools, run: seq<Timed>, i: nat, j: nat)
    requires i < j <= |run|
    ensures RunPools(cfg, Step(cfg, RunPools(cfg, p, run[..i]), run[i]), run[i + 1..j]) == RunPools(cfg, p, run[..j])
  {
    RunPoolsAppend(cfg, p, run[..i + 1], run[i + 1..j]);
    assert run[..i + 1] + run[i + 1..j] == run[..j];
    assert run[..i + 1][..i] == run[..i];
  }

  /** Once committed, a transaction is not pending again. */
  lemma NotPendingAfter(cfg: Config, p: Pools, run: seq<Timed>, stamp: string -> int, i: nat, j: nat, id: string,
                        start: int)
    requires Stamped(cfg, stamp) && Ordered(run, start) && i < j <= |run|
    requires run[i].op.Mark? && id in IdsOf(run[i].op.receipts)
    requires stamp(id) + cfg.pendingLifespan <= run[i].now + cfg.committedLifespan
    ensures id !in RunPools(cfg, p, run[..j]).pending
  {
    var before := RunPools(cfg, p, run[..i]);
    var marked := Step(cfg, before, run[i]);
    ReceiptsEntered(before.committed, run[i].op.receipts, run[i].now);
    RunKeepsSettled(cfg, marked, id, stamp, run[i].now, run[i + 1..j]);
    RunPoolsAfter(cfg, p, run, i, j);
  }

  /**
   No transaction is in two blocks, provided that its pending lifetime does not outlast its committed
   entry.
   */
  lemma NoneCommittedTwice(cfg: Config, processor: Processor, p: Pools, run: seq<Timed>, stamp: string -> int,
                           i: nat, j: nat, id: string, start: int)
    requires Stamped(cfg, stamp) && Ordered(run, start) && OnlyBuiltBlocks(cfg, processor, p, run)
    requires i < j < |run| && run[i].op.Mark? && run[j].op.Mark? && id in IdsOf(run[i].op.receipts)
    requires stamp(id) + cfg.pendingLifespan <= run[i].now + cfg.committedLifespan
    ensures id !in IdsOf(run[j].op.receipts)
  {
    NotPendingAfter(cfg, p, run, stamp, i, j, id, start);
    BlockIsPending(processor, RunPools(cfg, p, run[..j]), run[j].op.receipts);
  }

  /** A run that begins with a block's commit and ends with the commit of a block with the same ID. */
  ghost predicate CommitsAgain(cfg: Config, processor: Processor, p: Pools, run: seq<Timed>,
                               receipts: seq<TransactionReceipt>, commit: int, id: string) {
    && |run| >= 2 && run[0] == At(commit, Mark(receipts))
    && Ordered(run, commit) && OnlyBuiltBlocks(cfg, processor, p, run)
    && run[|run| - 1].op.Mark? && id in IdsOf(run[|run| - 1].op.receipts)
  }

  /** The pools after the commit, the cleanup of the committed pool and the second submission. */
  lemma PendingAgain(cfg: Config, p: Pools, receipts: seq<TransactionReceipt>, commit: int, transaction: Transaction)
    requires cfg.valid(transaction) && TransactionId(cfg, transaction) in IdsOf(receipts)
    requires transaction.header.timestamp + cfg.pendingLifespan > commit + cfg.committedLifespan
    ensures var now := transaction.header.timestamp + cfg.pendingLifespan;
            var q := Step(cfg, Step(cfg, Step(cfg, p, At(commit, Mark(receipts))), At(now, CleanCommitted)),
                          At(now, Submit(transaction)));
            var id := TransactionId(cfg, transaction);
            id in q.pending && q.pending[id] == transaction
  {
    ReceiptsEntered(p.committed, receipts, commit);
  }

  /** A block of one transaction that is pending. */
  lemma OneEntryBlock(cfg: Config, processor: Processor, p: Pools, transaction: Transaction, state: Ledger,
                      receipts: seq<TransactionReceipt>)
    requires var id := TransactionId(cfg, transaction); id in p.pending && p.pending[id] == transaction
    requires var entries := [TransactionEntry(cfg.hash(transaction), transaction)];
             && RunEntries(processor, entries, state).error.None?
             && receipts == BodyOf(processor, entries, state).transactionReceipts
    ensures ReceiptsOfBlock(processor, p, receipts) && TransactionId(cfg, transaction) in IdsOf(receipts)
  {
    var entries := [TransactionEntry(cfg.hash(transaction), transaction)];
    assert BlockHasReceipts(processor, p, entries, state, receipts);
    CachedReceiptsName(CallsOf(processor, entries), state);
    assert |receipts| == 1 && receipts[0].txHash == cfg.hash(transaction);
  }

  lemma FourSteps(cfg: Config, p: Pools, a: Timed, b: Timed, c: Timed, d: Timed)
    ensures RunPools(cfg, p, [a, b, c, d][..0]) == p
    ensures RunPools(cfg, p, [a, b, c, d][..3]) == Step(cfg, Step(cfg, Step(cfg, p, a), b), c)
  {
    var run := [a, b, c, d];
    assert run[..1] == [a] && run[..2] == [a, b] && run[..3] == [a, b, c];
    assert [a][..0] == [] && [a, b][..1] == [a] && [a, b, c][..2] == [a, b];
    assert RunPools(cfg, p, [a]) == Step(cfg, p, a);
    assert RunPools(cfg, p, [a, b]) == Step(cfg, Step(cfg, p, a), b);
  }

  /** A run of a commit, two steps that are none, and another commit. */
  lemma TwoCommits(cfg: Config, processor: Processor, p: Pools, a: Timed, b: Timed, c: Timed, d: Timed)
    requires a.op.Mark? && !b.op.Mark? && !c.op.Mark? && d.op.Mark?
    requires ReceiptsOfBlock(processor, p, a.op.receipts)
    requires ReceiptsOfBlock(processor, Step(cfg, Step(cfg, Step(cfg, p, a), b), c), d.op.receipts)
    ensures OnlyBuiltBlocks(cfg, processor, p, [a, b, c, d])
  {
    FourSteps(cfg, p, a, b, c, d);
    var run := [a, b, c, d];
    forall i | 0 <= i < |run| && run[i].op.Mark?
      ensures ReceiptsOfBlock(processor, RunPools(cfg, p, run[..i]), run[i].op.receipts)
    {
      assert i == 0 || i == 3;
    }
  }

  lemma IsCommitAgain(cfg: Config, processor: Processor, p: Pools, a: Timed, b: Timed, c: Timed, d: Timed, id: string)
    requires a.op.Mark? && d.op.Mark? && id in IdsOf(d.op.receipts)
    requires a.now <= b.now <= c.now <= d.now && OnlyBuiltBlocks(cfg, processor, p, [a, b, c, d])
    ensures CommitsAgain(cfg, processor, p, [a, b, c, d], a.op.receipts, a.now, id)
  {
  }

  lemma CommitAgain(cfg: Config, processor: Processor, p: Pools, receipts: seq<TransactionReceipt>, commit: int,
                    transaction: Transaction, state: Ledger, again: seq<TransactionReceipt>) returns (run: seq<Timed>)
    requires cfg.valid(transaction) && ReceiptsOfBlock(processor, p, receipts)
    requires TransactionId(cfg, transaction) in IdsOf(receipts)
    requires var entries := [TransactionEntry(cfg.hash(transaction), transaction)];
             && RunEntries(processor, entries, state).error.None?
             && again == BodyOf(processor, entries, state).transactionReceipts
    requires transaction.header.timestamp + cfg.pendingLifespan > commit + cfg.committedLifespan
    ensures CommitsAgain(cfg, processor, p, run, receipts, commit, TransactionId(cfg, transaction))
  {
    var now := transaction.header.timestamp + cfg.pendingLifespan;
    var first, clean := At(commit, Mark(receipts)), At(now, CleanCommitted);
    var submit, last := At(now, Submit(transaction)), At(now, Mark(again));
    PendingAgain(cfg, p, receipts, commit, transaction);
    var pending := Step(cfg, Step(cfg, Step(cfg, p, first), clean), submit);
    OneEntryBlock(cfg, processor, pending, transaction, state, again);
    TwoCommits(cfg, processor, p, first, clean, submit, last);
    IsCommitAgain(cfg, processor, p, first, clean, submit, last, TransactionId(cfg, transaction));
    run := [first, clean, submit, last];
  }

  /**
   A valid transaction in a block can be committed in another block after that if and only if its
   pending lifetime outlasts its committed entry.
   */
  lemma CommittedTwiceIff(cfg: Config, processor: Processor, p: Pools, receipts: seq<TransactionReceipt>, commit: int,
                          transaction: Transaction, state: Ledger, stamp: string -> int)
    requires Stamped(cfg, stamp) && cfg.valid(transaction) && ReceiptsOfBlock(processor, p, receipts)
    requires TransactionId(cfg, transaction) in IdsOf(receipts)
    requires RunEntries(processor, [TransactionEntry(cfg.hash(transaction), transaction)], state).error.None?
    ensures (exists run :: CommitsAgain(cfg, processor, p, run, receipts, commit, TransactionId(cfg, transaction)))
       <==> transaction.header.timestamp + cfg.pendingLifespan > commit + cfg.committedLifespan
  {
    var id := TransactionId(cfg, transaction);
    if transaction.header.timestamp + cfg.pendingLifespan > commit + cfg.committedLifespan {
      var again := BodyOf(processor, [TransactionEntry(cfg.hash(transaction), transaction)], state).transactionReceipts;
      var run := CommitAgain(cfg, processor, p, receipts, commit, transaction, state, again);
    } else {
      assert transaction.header.timestamp == stamp(id);
      forall run | CommitsAgain(cfg, processor, p, run, receipts, commit, id)
        ensures false
      {
        NoneCommittedTwice(cfg, processor, p, run, stamp, 0, |run| - 1, id, commit);
      }
    }
  }
}
