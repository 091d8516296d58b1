/**
 The pools of pending and of committed transactions.  Both forget entries after a lifespan: pending
 ones counted from the transaction's own timestamp, committed ones from the time of the commit.
 */
module TransactionPools {
  import opened Wrappers
  import opened Types
  import Hex

  datatype PoolError = AlreadyPending | AlreadyCommitted | Expired | Invalid

  datatype Entry = Entry(receipt: TransactionReceipt, entryTimestamp: int)

  datatype TransactionStatus = NotFound | Pending | Committed

  /** The hash of a transaction, the verdict of the validator, and the two lifespans. */
  datatype Config = Config(hash: Transaction -> seq<Byte>, valid: Transaction -> bool,
                           pendingLifespan: nat, committedLifespan: nat)

  datatype Pools = Pools(pending: map<string, Transaction>, committed: map<string, Entry>)

  function TransactionId(cfg: Config, transaction: Transaction): string {
    Hex.ToHex(cfg.hash(transaction))
  }

  predicate IsExpired(timestamp: int, lifespan: nat, now: int) {
    timestamp + lifespan < now
  }

  function IdsOf(receipts: seq<TransactionReceipt>): (r: set<string>)
    ensures forall id :: id in r <==> exists i :: 0 <= i < |receipts| && Hex.ToHex(receipts[i].txHash) == id
  {
    set i | 0 <= i < |receipts| :: Hex.ToHex(receipts[i].txHash)
  }

  /** Later receipts of the same transaction overwrite earlier ones. */
  function WithReceipts(committed: map<string, Entry>, receipts: seq<TransactionReceipt>,
                        now: int): map<string, Entry> {
    if receipts == [] then committed
    else
      var last := receipts[|receipts| - 1];
      WithReceipts(committed, receipts[..|receipts| - 1], now)[Hex.ToHex(last.txHash) := Entry(last, now)]
  }

  lemma {:induction false} ReceiptsEntered(committed: map<string, Entry>, receipts: seq<TransactionReceipt>, now: int)
    ensures var r := WithReceipts(committed, receipts, now);
            && (forall id :: id in r <==> id in committed || id in IdsOf(receipts))
            && (forall id :: id in IdsOf(receipts) ==> r[id].entryTimestamp == now)
            && (forall id :: id in committed && id !in IdsOf(receipts) ==> r[id] == committed[id])
  {
    if receipts != [] {
      var n := |receipts| - 1;
      ReceiptsEntered(committed, receipts[..n], now);
      IdsOfOneMore(receipts);
    }
  }

  /** No later receipt has the same ID. */
  ghost predicate IsLast(receipts: seq<TransactionReceipt>, i: nat)
    requires i < |receipts|
  {
    forall j :: i < j < |receipts| ==> Hex.ToHex(receipts[j].txHash) != Hex.ToHex(receipts[i].txHash)
  }

  /** Every receipt is entered unchanged, the last one where there are several with the same ID. */
  lemma {:induction false} ReceiptsKept(committed: map<string, Entry>, receipts: seq<TransactionReceipt>, now: int,
                                        i: nat)
    requires i < |receipts|
    requires IsLast(receipts, i)
    ensures var r := WithReceipts(committed, receipts, now);
            var id := Hex.ToHex(receipts[i].txHash);
            id in r && r[id].receipt == receipts[i] && r[id].entryTimestamp == now
  {
    var n := |receipts| - 1;
    if i < n {
      assert receipts[..n][i] == receipts[i];
      ReceiptsKept(committed, receipts[..n], now, i);
    }
  }

  lemma IdsOfOneMore(receipts: seq<TransactionReceipt>)
    requires receipts != []
    ensures var n := |receipts| - 1;
            IdsOf(receipts) == IdsOf(receipts[..n]) + {Hex.ToHex(receipts[n].txHash)}
  {
    var n := |receipts| - 1;
    var init := receipts[..n];
    forall id | id in IdsOf(receipts)
      ensures id in IdsOf(init) + {Hex.ToHex(receipts[n].txHash)}
    {
      var i :| 0 <= i < |receipts| && Hex.ToHex(receipts[i].txHash) == id;
      assert i < n ==> init[i] == receipts[i];
    }
    forall id | id in IdsOf(init)
      ensures id in IdsOf(receipts)
    {
      var i :| 0 <= i < |init| && Hex.ToHex(init[i].txHash) == id;
      assert receipts[i] == init[i];
    }
  }

  // The pools as a step system

  datatype Operation =
    | Submit(transaction: Transaction)
    | Mark(receipts: seq<TransactionReceipt>)
    | CleanPending
    | CleanCommitted

  datatype Timed = At(now: int, op: Operation)

  /** Why a transaction is refused. */
  function Refusal(cfg: Config, p: Pools, transaction: Transaction, now: int): Option<PoolError> {
    var id := TransactionId(cfg, transaction);
    if id in p.pending then Some(AlreadyPending)
    else if id in p.committed then Some(AlreadyCommitted)
    else if IsExpired(transaction.header.timestamp, cfg.pendingLifespan, now) then Some(Expired)
    else if !cfg.valid(transaction) then Some(Invalid)
    else None
  }

  function UnexpiredPending(cfg: Config, pending: map<string, Transaction>, now: int): map<string, Transaction> {
    map id | id in pending && !IsExpired(pending[id].header.timestamp, cfg.pendingLifespan, now) :: pending[id]
  }

  function UnexpiredCommitted(cfg: Config, committed: map<string, Entry>, now: int): map<string, Entry> {
    map id | id in committed && !IsExpired(committed[id].entryTimestamp, cfg.committedLifespan, now) :: committed[id]
  }

  function Step(cfg: Config, p: Pools, at: Timed): Pools {
    match at.op
    case Submit(transaction) =>
      if Refusal(cfg, p, transaction, at.now).Some? then p
      else p.(pending := p.pending[TransactionId(cfg, transaction) := transaction])
    case Mark(receipts) => Pools(p.pending - IdsOf(receipts), WithReceipts(p.committed, receipts, at.now))
    case CleanPending => p.(pending := UnexpiredPending(cfg, p.pending, at.now))
    case CleanCommitted => p.(committed := UnexpiredCommitted(cfg, p.committed, at.now))
  }

  function RunPools(cfg: Config, p: Pools, run: seq<Timed>): Pools {
    if run == [] then p else Step(cfg, RunPools(cfg, p, run[..|run| - 1]), run[|run| - 1])
  }

  /** The clock never goes back, from `start` on. */
  ghost predicate Ordered(run: seq<Timed>, start: int) {
    && (forall i :: 0 <= i < |run| ==> start <= run[i].now)
    && (forall i, j :: 0 <= i < j < |run| ==> run[i].now <= run[j].now)
  }

  ghost predicate Disjoint(p: Pools) {
    forall id :: id in p.pending ==> id !in p.committed
  }

  /** No transaction is ever in both pools, whatever the clock and the lifespans. */
  lemma {:induction false} PoolsStayDisjoint(cfg: Config, p: Pools, run: seq<Timed>)
    requires Disjoint(p)
    ensures Disjoint(RunPools(cfg, p, run))
  {
    if run != [] {
      var n := |run| - 1;
      PoolsStayDisjoint(cfg, p, run[..n]);
      var q := RunPools(cfg, p, run[..n]);
      match run[n].op
      case Submit(transaction) =>
      case Mark(receipts) => ReceiptsEntered(q.committed, receipts, run[n].now);
      case CleanPending =>
      case CleanCommitted =>
    }
  }

  // Committed transactions

  /** The id of a transaction fixes its timestamp: the hash covers it. */
  ghost predicate Stamped(cfg: Config, stamp: string -> int) {
    forall transaction: Transaction :: transaction.header.timestamp == stamp(TransactionId(cfg, transaction))
  }

  /** The id cannot come back at `now` or later. */
  ghost predicate Settled(cfg: Config, p: Pools, id: string, stamp: int, commit: int, now: int) {
    && id !in p.pending
    && ((id in p.committed && commit <= p.committed[id].entryTimestamp) || IsExpired(stamp, cfg.pendingLifespan, now))
  }

  lemma StepKeepsSettled(cfg: Config, p: Pools, id: string, stamp: string -> int, commit: int, now: int, at: Timed)
    requires Stamped(cfg, stamp) && now <= at.now && commit <= at.now
    requires stamp(id) + cfg.pendingLifespan <= commit + cfg.committedLifespan
    requires Settled(cfg, p, id, stamp(id), commit, now)
    ensures Settled(cfg, Step(cfg, p, at), id, stamp(id), commit, at.now)
  {
    match at.op
    case Submit(transaction) =>
      if TransactionId(cfg, transaction) == id {
        assert transaction.header.timestamp == stamp(id);
      }
    case Mark(receipts) => ReceiptsEntered(p.committed, receipts, at.now);
    case CleanPending =>
    case CleanCommitted =>
  }

  lemma {:induction false} RunKeepsSettled(cfg: Config, p: Pools, id: string, stamp: string -> int, commit: int,
                                           run: seq<Timed>)
    requires Stamped(cfg, stamp) && Ordered(run, commit)
    requires stamp(id) + cfg.pendingLifespan <= commit + cfg.committedLifespan
    requires Settled(cfg, p, id, stamp(id), commit, commit)
    ensures Settled(cfg, RunPools(cfg, p, run), id, stamp(id), commit, if run == [] then commit else run[|run| - 1].now)
  {
    if run != [] {
      var n := |run| - 1;
      RunKeepsSettled(cfg, p, id, stamp, commit, run[..n]);
      StepKeepsSettled(cfg, RunPools(cfg, p, run[..n]), id, stamp, commit, if n == 0 then commit else run[n - 1].now,
                       run[n]);
    }
  }

  /** Some run after the commit makes the id pending again. */
  ghost predicate MayReturn(cfg: Config, p: Pools, id: string, commit: int) {
    exists run :: Ordered(run, commit) && id in RunPools(cfg, p, run).pending
  }

  /** Committing, waiting until the committed pool has forgotten, and submitting once more. */
  lemma ResubmittedAfterCleanup(cfg: Config, p: Pools, transaction: Transaction, commit: int)
    requires cfg.valid(transaction)
    requires var id := TransactionId(cfg, transaction);
             id !in p.pending && id in p.committed && p.committed[id].entryTimestamp == commit
    requires transaction.header.timestamp + cfg.pendingLifespan > commit + cfg.committedLifespan
    ensures MayReturn(cfg, p, TransactionId(cfg, transaction), commit)
  {
    var id := TransactionId(cfg, transaction);
    var now := transaction.header.timestamp + cfg.pendingLifespan;
    var one := [At(now, CleanCommitted)];
    var two := one + [At(now, Submit(transaction))];
    assert one[..0] == [] && two[..1] == one;
    assert RunPools(cfg, p, one) == Step(cfg, p, At(now, CleanCommitted));
    assert id !in RunPools(cfg, p, one).committed;
    assert id in RunPools(cfg, p, two).pending;
    assert Ordered(two, commit);
  }

  /**
   A transaction marked as committed can become pending again exactly when its pending lifetime
   outlasts its committed entry: never, if it is not stamped later than its commit and pending
   transactions do not live longer than committed entries.
   */
  lemma CommittedMayReturnIff(cfg: Config, p: Pools, transaction: Transaction, receipts: seq<TransactionReceipt>,
                              commit: int, stamp: string -> int)
    requires Stamped(cfg, stamp) && cfg.valid(transaction)
    requires TransactionId(cfg, transaction) in IdsOf(receipts)
    ensures MayReturn(cfg, Step(cfg, p, At(commit, Mark(receipts))), TransactionId(cfg, transaction), commit)
       <==> transaction.header.timestamp + cfg.pendingLifespan > commit + cfg.committedLifespan
  {
    var id := TransactionId(cfg, transaction);
    var q := Step(cfg, p, At(commit, Mark(receipts)));
    ReceiptsEntered(p.committed, receipts, commit);
    if transaction.header.timestamp + cfg.pendingLifespan > commit + cfg.committedLifespan {
      ResubmittedAfterCleanup(cfg, q, transaction, commit);
    } else {
      assert transaction.header.timestamp == stamp(id);
      forall run | Ordered(run, commit)
        ensures id !in RunPools(cfg, q, run).pending
      {
        RunKeepsSettled(cfg, q, id, stamp, commit, run);
      }
    }
  }

  /** A committed transaction submitted again is refused: as committed, or as expired by then. */
  lemma ResubmissionIsRefused(cfg: Config, p: Pools, transaction: Transaction, receipts: seq<TransactionReceipt>,
                              commit: int, stamp: string -> int, run: seq<Timed>, now: int)
    requires Stamped(cfg, stamp) && Ordered(run + [At(now, Submit(transaction))], commit)
    requires TransactionId(cfg, transaction) in IdsOf(receipts)
    requires transaction.header.timestamp <= commit && cfg.pendingLifespan <= cfg.committedLifespan
    ensures var q := RunPools(cfg, Step(cfg, p, At(commit, Mark(receipts))), run);
            Refusal(cfg, q, transaction, now) in {Some(AlreadyCommitted), Some(Expired)}
  {
    var id := TransactionId(cfg, transaction);
    var start := Step(cfg, p, At(commit, Mark(receipts)));
    ReceiptsEntered(p.committed, receipts, commit);
    assert transaction.header.timestamp == stamp(id);
    var whole := run + [At(now, Submit(transaction))];
    assert Ordered(run, commit) by {
      assert forall i :: 0 <= i < |run| ==> whole[i] == run[i];
    }
    RunKeepsSettled(cfg, start, id, stamp, commit, run);
    if run != [] {
      assert whole[|run| - 1].now <= whole[|run|].now;
    } else {
      assert commit <= whole[0].now;
    }
  }

  // Receipts

  /** Nothing in the run makes the pools forget or replace the receipt of an ID committed at a time. */
  ghost predicate LeavesReceipt(cfg: Config, run: seq<Timed>, id: string, commit: int) {
    forall i :: 0 <= i < |run| ==>
      match run[i].op
      case Mark(receipts) => id !in IdsOf(receipts)
      case CleanCommitted => run[i].now <= commit + cfg.committedLifespan
      case CleanPending => true
      case Submit(_) => true
  }

  ghost predicate HasReceipt(p: Pools, id: string, receipt: TransactionReceipt, commit: int) {
    && id !in p.pending
    && id in p.committed && p.committed[id].receipt == receipt && p.committed[id].entryTimestamp == commit
  }

  lemma StepKeepsReceipt(cfg: Config, p: Pools, at: Timed, id: string, receipt: TransactionReceipt, commit: int)
    requires HasReceipt(p, id, receipt, commit) && LeavesReceipt(cfg, [at], id, commit)
    ensures HasReceipt(Step(cfg, p, at), id, receipt, commit)
  {
    assert [at][0] == at;
    match at.op
    case Submit(transaction) =>
    case Mark(receipts) => ReceiptsEntered(p.committed, receipts, at.now);
    case CleanPending =>
    case CleanCommitted =>
  }

  lemma {:induction false} RunKeepsReceipt(cfg: Config, p: Pools, run: seq<Timed>, id: string,
                                           receipt: TransactionReceipt, commit: int)
    requires HasReceipt(p, id, receipt, commit) && LeavesReceipt(cfg, run, id, commit)
    ensures HasReceipt(RunPools(cfg, p, run), id, receipt, commit)
  {
    if run != [] {
      var n := |run| - 1;
      RunKeepsReceipt(cfg, p, run[..n], id, receipt, commit);
      StepKeepsReceipt(cfg, RunPools(cfg, p, run[..n]), run[n], id, receipt, commit);
    }
  }

  /**
   A receipt marked as committed is the one kept, until its entry expires or another receipt of that ID is
   marked: the transaction is in no other pool, and its receipt is unchanged.
   */
  lemma ReceiptLasts(cfg: Config, p: Pools, receipts: seq<TransactionReceipt>, commit: int, i: nat, run: seq<Timed>)
    requires i < |receipts|
    requires IsLast(receipts, i)
    requires LeavesReceipt(cfg, run, Hex.ToHex(receipts[i].txHash), commit)
    ensures HasReceipt(RunPools(cfg, Step(cfg, p, At(commit, Mark(receipts))), run),
                       Hex.ToHex(receipts[i].txHash), receipts[i], commit)
  {
    ReceiptsKept(p.committed, receipts, commit, i);
    assert Hex.ToHex(receipts[i].txHash) in IdsOf(receipts);
    RunKeepsReceipt(cfg, Step(cfg, p, At(commit, Mark(receipts))), run, Hex.ToHex(receipts[i].txHash), receipts[i],
                    commit);
  }

  lemma LastReceiptsLast(cfg: Config, p: Pools, receipts: seq<TransactionReceipt>, now: int)
    ensures forall i :: 0 <= i < |receipts| && IsLast(receipts, i) ==>
              HasReceipt(Step(cfg, p, At(now, Mark(receipts))), Hex.ToHex(receipts[i].txHash), receipts[i], now)
  {
    forall i | 0 <= i < |receipts| && IsLast(receipts, i)
      ensures HasReceipt(Step(cfg, p, At(now, Mark(receipts))), Hex.ToHex(receipts[i].txHash), receipts[i], now)
    {
      ReceiptLasts(cfg, p, receipts, now, i, []);
    }
  }

  // The objects

  class PendingTransactionPool {
    const cfg: Config
    var pendingTransactions: map<string, Transaction>

    constructor (cfg: Config)
      ensures this.cfg == cfg && pendingTransactions == map[]
    {
      this.cfg, pendingTransactions := cfg, map[];
    }

    predicate HasTransactionWithId(txid: string)
      reads this
    {
      txid in pendingTransactions
    }

    method StorePendingTransaction(transaction: Transaction, now: int) returns (r: Result<string, PoolError>)
      modifies this
      ensures r == if transaction.header.timestamp + cfg.pendingLifespan < now then Failure(Expired)
                   else if !cfg.valid(transaction) then Failure(Invalid)
                   else Success(Hex.ToHex(cfg.hash(transaction)))
      ensures pendingTransactions ==
              if r.Success? then old(pendingTransactions)[r.value := transaction] else old(pendingTransactions)
    {
      if IsExpired(transaction.header.timestamp, cfg.pendingLifespan, now) {
        return Failure(Expired);
      }
      if !cfg.valid(transaction) {
        return Failure(Invalid);
      }
      var txid := TransactionId(cfg, transaction);
      pendingTransactions := pendingTransactions[txid := transaction];
      return Success(txid);
    }

    method ClearExpiredTransactions(now: int) returns (count: nat)
      modifies this
      ensures pendingTransactions == UnexpiredPending(cfg, old(pendingTransactions), now)
      ensures forall id :: id in pendingTransactions <==>
                           id in old(pendingTransactions)
                           && old(pendingTransactions)[id].header.timestamp + cfg.pendingLifespan >= now
      ensures forall id :: id in pendingTransactions ==> pendingTransactions[id] == old(pendingTransactions)[id]
      ensures count == |old(pendingTransactions)| - |pendingTransactions|
    {
      ghost var before := pendingTransactions;
      count := 0;
      var left := pendingTransactions.Keys;
      while left != {}
        invariant left <= before.Keys && pendingTransactions.Keys <= before.Keys
        invariant forall id :: id in left ==> id in pendingTransactions
        invariant forall id :: id in before && id !in left ==>
                    (id in pendingTransactions <==> !IsExpired(before[id].header.timestamp, cfg.pendingLifespan, now))
        invariant forall id :: id in pendingTransactions ==> pendingTransactions[id] == before[id]
        invariant count == |before| - |pendingTransactions|
        decreases left
      {
        var txid :| txid in left;
        if IsExpired(pendingTransactions[txid].header.timestamp, cfg.pendingLifespan, now) {
          count := count + 1;
          assert pendingTransactions.Keys == (pendingTransactions - {txid}).Keys + {txid};
          pendingTransactions := pendingTransactions - {txid};
        }
        left := left - {txid};
      }
    }

    method ClearCommittedTransactions(receipts: seq<TransactionReceipt>)
      modifies this
      ensures pendingTransactions == old(pendingTransactions) - IdsOf(receipts)
    {
      ghost var before := pendingTransactions;
      for i := 0 to |receipts|
        invariant pendingTransactions == before - IdsOf(receipts[..i])
      {
        pendingTransactions := pendingTransactions - {Hex.ToHex(receipts[i].txHash)};
        IdsOfOneMore(receipts[..i + 1]);
        assert receipts[..i + 1][..i] == receipts[..i];
      }
      assert receipts[..|receipts|] == receipts;
    }
  }

  class CommittedTransactionPool {
    const cfg: Config
    var committedTransactions: map<string, Entry>

    constructor (cfg: Config)
      ensures this.cfg == cfg && committedTransactions == map[]
    {
      this.cfg, committedTransactions := cfg, map[];
    }

    predicate HasTransactionWithId(txid: string)
      reads this
    {
      txid in committedTransactions
    }

    method AddCommittedTransactions(receipts: seq<TransactionReceipt>, now: int)
      modifies this
      ensures committedTransactions == WithReceipts(old(committedTransactions), receipts, now)
      ensures forall i :: 0 <= i < |receipts| && IsLast(receipts, i) ==>
                && Hex.ToHex(receipts[i].txHash) in committedTransactions
                && committedTransactions[Hex.ToHex(receipts[i].txHash)] == Entry(receipts[i], now)
    {
      ghost var before := committedTransactions;
      for i := 0 to |receipts|
        invariant committedTransactions == WithReceipts(before, receipts[..i], now)
      {
        var txid := Hex.ToHex(receipts[i].txHash);
        committedTransactions := committedTransactions[txid := Entry(receipts[i], now)];
        assert receipts[..i + 1][..i] == receipts[..i];
      }
      assert receipts[..|receipts|] == receipts;
      forall i | 0 <= i < |receipts| && IsLast(receipts, i)
        ensures Hex.ToHex(receipts[i].txHash) in committedTransactions
        ensures committedTransactions[Hex.ToHex(receipts[i].txHash)] == Entry(receipts[i], now)
      {
        ReceiptsKept(before, receipts, now, i);
      }
    }

    method ClearExpiredTransactions(now: int) returns (count: nat)
      modifies this
      ensures committedTransactions == UnexpiredCommitted(cfg, old(committedTransactions), now)
      ensures forall id :: id in committedTransactions <==>
                           id in old(committedTransactions)
                           && old(committedTransactions)[id].entryTimestamp + cfg.committedLifespan >= now
      ensures forall id :: id in committedTransactions ==> committedTransactions[id] == old(committedTransactions)[id]
      ensures count == |old(committedTransactions)| - |committedTransactions|
    {
      ghost var before := committedTransactions;
      count := 0;
      var left := committedTransactions.Keys;
      while left != {}
        invariant left <= before.Keys && committedTransactions.Keys <= before.Keys
        invariant forall id :: id in left ==> id in committedTransactions
        invariant forall id :: id in before && id !in left ==>
                    (id in committedTransactions <==> !IsExpired(before[id].entryTimestamp, cfg.committedLifespan, now))
        invariant forall id :: id in committedTransactions ==> committedTransactions[id] == before[id]
        invariant count == |before| - |committedTransactions|
        decreases left
      {
        var txid :| txid in left;
        if IsExpired(committedTransactions[txid].entryTimestamp, cfg.committedLifespan, now) {
          assert committedTransactions.Keys == (committedTransactions - {txid}).Keys + {txid};
          committedTransactions := committedTransactions - {txid};
          count := count + 1;
        }
        left := left - {txid};
      }
    }
  }

  /** The service in front of the two pools; every call is one step of the step system. */
  class TransactionPoolService {
    const cfg: Config
    const pendingTransactionPool: PendingTransactionPool
    const committedTransactionPool: CommittedTransactionPool

    constructor (cfg: Config)
      ensures this.cfg == cfg && fresh(pendingTransactionPool) && fresh(committedTransactionPool)
      ensures Consistent() && State() == Pools(map[], map[])
    {
      this.cfg := cfg;
      pendingTransactionPool := new PendingTransactionPool(cfg);
      committedTransactionPool := new CommittedTransactionPool(cfg);
    }

    ghost predicate Consistent() {
      pendingTransactionPool.cfg == cfg && committedTransactionPool.cfg == cfg
    }

    function State(): Pools
      reads pendingTransactionPool, committedTransactionPool
    {
      Pools(pendingTransactionPool.pendingTransactions, committedTransactionPool.committedTransactions)
    }

    method ValidateTransactionUnique(transaction: Transaction) returns (error: Option<PoolError>)
      ensures error == if TransactionId(cfg, transaction) in State().pending then Some(AlreadyPending)
                       else if TransactionId(cfg, transaction) in State().committed then Some(AlreadyCommitted)
                       else None
    {
      var txid := TransactionId(cfg, transaction);
      if pendingTransactionPool.HasTransactionWithId(txid) {
        return Some(AlreadyPending);
      } else if committedTransactionPool.HasTransactionWithId(txid) {
        return Some(AlreadyCommitted);
      } else {
        return None;
      }
    }

    method MarkCommittedTransactions(receipts: seq<TransactionReceipt>, now: int)
      modifies pendingTransactionPool, committedTransactionPool
      ensures State() == Step(cfg, old(State()), At(now, Mark(receipts)))
      ensures forall i :: 0 <= i < |receipts| && IsLast(receipts, i) ==>
                HasReceipt(State(), Hex.ToHex(receipts[i].txHash), receipts[i], now)
    {
      LastReceiptsLast(cfg, State(), receipts, now);
      committedTransactionPool.AddCommittedTransactions(receipts, now);
      pendingTransactionPool.ClearCommittedTransactions(receipts);
    }

    /** Submission by a client; a broadcast from another node takes the same way. */
    method AddNewPendingTransaction(transaction: Transaction, now: int) returns (r: Result<string, PoolError>)
      requires Consistent()
      modifies pendingTransactionPool
      ensures State() == Step(cfg, old(State()), At(now, Submit(transaction)))
      ensures r == match Refusal(cfg, old(State()), transaction, now)
                   case Some(e) => Failure(e)
                   case None => Success(TransactionId(cfg, transaction))
    {
      var error := ValidateTransactionUnique(transaction);
      if error.Some? {
        return Failure(error.value);
      }
      r := pendingTransactionPool.StorePendingTransaction(transaction, now);
    }

    method GetTransactionStatus(txid: string) returns (status: TransactionStatus, receipt: Option<TransactionReceipt>)
      ensures status == if txid in State().pending then Pending
                        else if txid in State().committed then Committed
                        else NotFound
      ensures receipt == if txid in State().committed && status == Committed then Some(State().committed[txid].receipt)
                         else None
    {
      if pendingTransactionPool.HasTransactionWithId(txid) {
        return Pending, None;
      }
      if committedTransactionPool.HasTransactionWithId(txid) {
        return Committed, Some(committedTransactionPool.committedTransactions[txid].receipt);
      }
      return NotFound, None;
    }
  }
}
