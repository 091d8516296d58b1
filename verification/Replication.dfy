/**
 State machine replication: replaying the state diffs of a chain whose blocks were built by
 execution gives the state of executing all its transactions one after another.
 */
module Replication {
  import opened Wrappers
  import opened Types
  import opened StateKeys
  import opened Contracts
  import opened StateDiffs
  import opened Chains
  import opened StateStorages
  import KinAtn

  /** The transactions of a body with the hashes its receipts give them. */
  function EntriesOf(body: BlockBody): (r: seq<TransactionEntry>)
    requires |body.transactionReceipts| == |body.transactions|
    ensures |r| == |body.transactions|
  {
    seq(|body.transactions|, i requires 0 <= i < |body.transactions| =>
      TransactionEntry(body.transactionReceipts[i].txHash, body.transactions[i]))
  }

  function CallsIn(processor: Processor, body: BlockBody): seq<Call> {
    if |body.transactionReceipts| == |body.transactions| then CallsOf(processor, EntriesOf(body)) else []
  }

  /** The body tells what running its transactions on the state did. */
  ghost predicate Executed(processor: Processor, state: Ledger, body: BlockBody) {
    && |body.transactionReceipts| == |body.transactions|
    && var run := RunSet(CallsIn(processor, body), state);
       && !run.crashed
       && body.transactionReceipts == run.receipts
       && IsDiff(body.stateDiff, run.ledger, run.written)
  }

  /** Every block after the genesis block was executed on the state the blocks before lead to. */
  ghost predicate BuiltChain(processor: Processor, chain: seq<Block>) {
    forall h {:trigger ExecutedAt(processor, chain, h)} :: 0 < h < |chain| ==> ExecutedAt(processor, chain, h)
  }

  ghost predicate ExecutedAt(processor: Processor, chain: seq<Block>, h: nat)
    requires 0 < h < |chain|
  {
    Executed(processor, StateAt(chain, h - 1), chain[h].body)
  }

  /** All calls of the blocks 1 to h, in order. */
  function CallsUpTo(processor: Processor, chain: seq<Block>, h: nat): seq<Call>
    requires h == 0 || h < |chain|
  {
    if h == 0 then [] else CallsUpTo(processor, chain, h - 1) + CallsIn(processor, chain[h].body)
  }

  /** Executing all of them one after another from the empty state. */
  function ExecutedUpTo(processor: Processor, chain: seq<Block>, h: nat): SetRun
    requires h == 0 || h < |chain|
  {
    RunSet(CallsUpTo(processor, chain, h), map[])
  }

  lemma ExecutedApplies(processor: Processor, state: Ledger, body: BlockBody)
    requires Executed(processor, state, body)
    ensures Apply(state, body.stateDiff) == RunSet(CallsIn(processor, body), state).ledger
  {
    var calls := CallsIn(processor, body);
    var run := RunSet(calls, state);
    RunSetFrame(calls, state);
    ApplyDiffOfRun(state, body.stateDiff, run.ledger, run.written);
  }

  /** The diffs up to a height lead where executing the calls up to it does. */
  ghost predicate ReplaysTo(processor: Processor, chain: seq<Block>, h: nat, state: Ledger)
    requires h == 0 || h < |chain|
  {
    !ExecutedUpTo(processor, chain, h).crashed && state == ExecutedUpTo(processor, chain, h).ledger
  }

  /** One more block: what its diff adds is what running its calls adds. */
  lemma ReplayStep(processor: Processor, chain: seq<Block>, h: nat, state: Ledger)
    requires 0 < h < |chain| && Executed(processor, state, chain[h].body)
    requires ReplaysTo(processor, chain, h - 1, state)
    ensures ReplaysTo(processor, chain, h, Apply(state, chain[h].body.stateDiff))
  {
    ExecutedApplies(processor, state, chain[h].body);
    RunSetAppend(CallsUpTo(processor, chain, h - 1), CallsIn(processor, chain[h].body), map[]);
  }

  lemma ReplayOnce(processor: Processor, chain: seq<Block>, h: nat)
    requires 0 < h < |chain| && ExecutedAt(processor, chain, h)
    requires ReplaysTo(processor, chain, h - 1, StateAt(chain, h - 1))
    ensures ReplaysTo(processor, chain, h, StateAt(chain, h))
  {
    ReplayStep(processor, chain, h, StateAt(chain, h - 1));
  }

  lemma {:induction false} HeightInduction(P: nat -> bool, top: nat, h: nat)
    requires P(0) && h <= top
    requires forall k: nat :: k < top && P(k) ==> P(k + 1)
    ensures P(h)
  {
    if h > 0 {
      HeightInduction(P, top, h - 1);
      assert P(h - 1 + 1);
    }
  }

  lemma ReplaysFromStart(processor: Processor, chain: seq<Block>)
    ensures ReplaysTo(processor, chain, 0, StateAt(chain, 0))
  {
  }

  lemma ReplaysAll(processor: Processor, chain: seq<Block>, h: nat)
    requires BuiltChain(processor, chain) && (h == 0 || h < |chain|)
    ensures ReplaysTo(processor, chain, h, StateAt(chain, h))
  {
    ghost var P := (k: nat) => (k == 0 || k < |chain|) && ReplaysTo(processor, chain, k, StateAt(chain, k));
    forall k: nat | k < h && P(k)
      ensures P(k + 1)
    {
      assert ExecutedAt(processor, chain, k + 1);
      ReplayOnce(processor, chain, k + 1);
    }
    ReplaysFromStart(processor, chain);
    HeightInduction(P, h, h);
  }

  /** The diffs of a built chain replay the sequential execution of all its transactions. */
  lemma ReplayIsExecution(processor: Processor, chain: seq<Block>, h: nat)
    requires BuiltChain(processor, chain) && (h == 0 || h < |chain|)
    ensures StateAt(chain, h) == ExecutedUpTo(processor, chain, h).ledger
    ensures !ExecutedUpTo(processor, chain, h).crashed
  {
    ReplaysAll(processor, chain, h);
  }

  /** A store synced to a height holds, for every key, what sequential execution left there. */
  lemma SyncedStoreIsExecution(processor: Processor, chain: seq<Block>, s: Synced, k: StateKey)
    requires BuiltChain(processor, chain) && InSync(chain, s)
    ensures Lookup(s.store, k) == Get(ExecutedUpTo(processor, chain, s.lastBlockHeight).ledger, k)
  {
    ReplayIsExecution(processor, chain, s.lastBlockHeight);
  }

  /** Two nodes synced to the same height of chains with the same contents hold the same state. */
  lemma {:induction false} SameContentsSameState(a: seq<Block>, b: seq<Block>, h: nat)
    requires h == 0 || (h < |a| && h < |b|)
    requires forall i :: 0 <= i <= h && i < |a| && i < |b| ==> SameContent(a[i], b[i])
    ensures StateAt(a, h) == StateAt(b, h)
  {
    if h > 0 {
      SameContentsSameState(a, b, h - 1);
      assert SameContent(a[h], b[h]);
    }
  }

  /**
   Two nodes whose blocks at a height have equal hashes hold the same value for every key once both
   are synced to that height, or the hash collides on two of their blocks.
   */
  lemma NodesAgree(hash: HashFunction, a: seq<Block>, s: Synced, b: seq<Block>, t: Synced, h: nat, k: StateKey)
    requires Linked(hash, a) && Linked(hash, b) && h < |a| && h < |b|
    requires CalculateBlockHash(hash, a[h]) == CalculateBlockHash(hash, b[h])
    requires InSync(a, s) && InSync(b, t) && s.lastBlockHeight == t.lastBlockHeight == h
    ensures Lookup(s.store, k) == Lookup(t.store, k) || exists i :: 0 <= i <= h && Collide(hash, a[i], b[i])
  {
    Agreement(hash, a, b, h);
    if forall i :: 0 <= i <= h ==> SameContent(a[i], b[i]) {
      SameContentsSameState(a, b, h);
    }
  }

  /**
   The token on a replicated chain on which it only ever served requests: sound in every synced store,
   and without any money while it was never asked to finance an account or to pay the sender.
   */
  lemma TokenOnChain(processor: Processor, chain: seq<Block>, s: Synced,
                     codec: KinAtn.Codec, contract: seq<Byte>, requests: seq<KinAtn.Request>, ledger: Ledger)
    requires BuiltChain(processor, chain) && InSync(chain, s) && KinAtn.RoundTrips(codec)
    requires Mirrors(s.store, ledger)
    requires var calls := CallsUpTo(processor, chain, s.lastBlockHeight);
             && |requests| == |calls|
             && forall i :: 0 <= i < |calls| ==> KinAtn.Serves(codec, contract, calls[i], requests[i])
    ensures KinAtn.Sound(codec, contract, ledger)
    ensures var calls := CallsUpTo(processor, chain, s.lastBlockHeight);
            (forall i :: 0 <= i < |calls| && calls[i].contractAddress == contract ==> KinAtn.Conserves(requests[i])) ==>
            KinAtn.TotalOf(codec, contract, ledger) == 0
  {
    var calls := CallsUpTo(processor, chain, s.lastBlockHeight);
    var final := RunSet(calls, map[]).ledger;
    ReplayIsExecution(processor, chain, s.lastBlockHeight);
    KinAtn.EmptyIsSound(codec, contract);
    KinAtn.TokenRun(codec, contract, calls, requests, map[]);
    forall k: StateKey
      ensures Get(ledger, k) == Get(final, k)
    {
      assert Lookup(s.store, k) == Get(ledger, k) == Get(final, k);
    }
    KinAtn.SoundFrame(codec, contract, final, ledger);
  }
}
