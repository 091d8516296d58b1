/**
 Chains whose blocks the virtual machine made: every body is what it makes of some entries in the state
 the blocks before lead to.  Their diffs replay sequential execution exactly when no call writes a
 colon.
 */
module MadeChains {
  import opened Wrappers
  import opened Types
  import opened StateKeys
  import opened Contracts
  import opened StateDiffs
  import opened Chains
  import opened CachedRuns
  import opened VirtualMachines
  import opened StateStorages
  import opened Replication
  import opened BlockBuilders

  ghost predicate MadeOf(processor: Processor, entries: seq<TransactionEntry>, state: Ledger, body: BlockBody) {
    RunEntries(processor, entries, state).error.None? && body == BodyOf(processor, entries, state)
  }

  ghost predicate Made(processor: Processor, state: Ledger, body: BlockBody) {
    exists entries :: MadeOf(processor, entries, state, body)
  }

  ghost predicate MadeAt(processor: Processor, chain: seq<Block>, h: nat)
    requires 0 < h < |chain|
  {
    Made(processor, StateAt(chain, h - 1), chain[h].body)
  }

  ghost predicate MadeChain(processor: Processor, chain: seq<Block>) {
    forall h {:trigger MadeAt(processor, chain, h)} :: 0 < h < |chain| ==> MadeAt(processor, chain, h)
  }

  /** A made chain grows by a block made on its last state. */
  lemma MadeChainGrows(processor: Processor, chain: seq<Block>, block: Block)
    requires chain != [] && MadeChain(processor, chain) && Made(processor, TipState(chain), block.body)
    ensures MadeChain(processor, chain + [block])
  {
    ghost var Q := (state: Ledger, body: BlockBody) => Made(processor, state, body);
    forall h | 0 < h < |chain|
      ensures BodyAt(chain, h, Q)
    {
      assert MadeAt(processor, chain, h);
    }
    EveryBodyGrows(chain, block, Q);
    forall h | 0 < h < |chain + [block]|
      ensures MadeAt(processor, chain + [block], h)
    {
      assert BodyAt(chain + [block], h, Q);
    }
  }

  /** The calls of a made block are those of its entries, whatever they wrote. */
  lemma MadeCalls(processor: Processor, entries: seq<TransactionEntry>, state: Ledger, body: BlockBody)
    requires MadeOf(processor, entries, state, body)
    ensures CallsIn(processor, body) == CallsOf(processor, entries)
  {
    BodyHasEntries(processor, entries, state);
  }

  lemma {:induction false} CallsOfPrefix(processor: Processor, chain: seq<Block>, longer: seq<Block>, h: nat)
    requires chain <= longer && (h == 0 || h < |chain|)
    ensures CallsUpTo(processor, chain, h) == CallsUpTo(processor, longer, h)
  {
    if h > 0 {
      CallsOfPrefix(processor, chain, longer, h - 1);
    }
  }

  // Execution

  /** Executing more calls writes at least as much. */
  lemma PrefixIsPlain(calls: seq<Call>, more: seq<Call>, ledger: Ledger)
    requires NoColons(RunSet(calls + more, ledger).written)
    ensures NoColons(RunSet(calls, ledger).written)
  {
    assert (calls + more)[..|calls|] == calls;
    RunSetExtends(calls + more, |calls|, ledger);
  }

  /** One block more: unless its calls write a colon, its diff does what running them does. */
  lemma MadeAgrees(processor: Processor, calls: seq<Call>, entries: seq<TransactionEntry>, state: Ledger)
    requires RegistersWellFormed(processor) && RunEntries(processor, entries, state).error.None?
    requires var run := RunSet(calls, map[]); !run.crashed && run.ledger == state
    requires NoColons(RunSet(calls + CallsOf(processor, entries), map[]).written)
    ensures NoColons(RunSet(CallsOf(processor, entries), state).written)
    ensures var run := RunSet(calls + CallsOf(processor, entries), map[]);
            !run.crashed && run.ledger == Apply(state, DiffOf(CallsOf(processor, entries), state))
  {
    var more := CallsOf(processor, entries);
    RunSetAppend(calls, more, map[]);
    ReceiptsAgree(more, state);
    DiffReachesFinalState(more, state);
  }

  /** Up to a height, the diffs lead where executing the calls does, if these write no colon. */
  ghost predicate PlainReplays(processor: Processor, chain: seq<Block>, h: nat)
    requires h == 0 || h < |chain|
  {
    NoColons(ExecutedUpTo(processor, chain, h).written) ==> ReplaysTo(processor, chain, h, StateAt(chain, h))
  }

  lemma PlainBefore(processor: Processor, chain: seq<Block>, h: nat)
    requires 0 < h < |chain| && NoColons(ExecutedUpTo(processor, chain, h).written)
    ensures NoColons(ExecutedUpTo(processor, chain, h - 1).written)
  {
    PrefixIsPlain(CallsUpTo(processor, chain, h - 1), CallsIn(processor, chain[h].body), map[]);
  }

  lemma MadeOnce(processor: Processor, chain: seq<Block>, h: nat)
    requires 0 < h < |chain| && RegistersWellFormed(processor)
    requires MadeAt(processor, chain, h) && PlainReplays(processor, chain, h - 1)
    ensures PlainReplays(processor, chain, h)
    ensures NoColons(ExecutedUpTo(processor, chain, h).written) ==> ExecutedAt(processor, chain, h)
  {
    if NoColons(ExecutedUpTo(processor, chain, h).written) {
      var state := StateAt(chain, h - 1);
      var entries: seq<TransactionEntry> :| MadeOf(processor, entries, state, chain[h].body);
      PlainBefore(processor, chain, h);
      MadeCalls(processor, entries, state, chain[h].body);
      MadeAgrees(processor, CallsUpTo(processor, chain, h - 1), entries, state);
      BodyIsExecuted(processor, entries, state);
    }
  }

  lemma PlainReplaysFromStart(processor: Processor, chain: seq<Block>)
    ensures PlainReplays(processor, chain, 0)
  {
  }

  lemma PlainReplaysAll(processor: Processor, chain: seq<Block>, h: nat)
    requires MadeChain(processor, chain) && RegistersWellFormed(processor) && (h == 0 || h < |chain|)
    ensures PlainReplays(processor, chain, h)
  {
    ghost var P := (k: nat) => (k == 0 || k < |chain|) && PlainReplays(processor, chain, k);
    forall k: nat | k < h && P(k)
      ensures P(k + 1)
    {
      assert MadeAt(processor, chain, k + 1);
      MadeOnce(processor, chain, k + 1);
    }
    PlainReplaysFromStart(processor, chain);
    HeightInduction(P, h, h);
  }

  /** Executing the calls up to a height writes no colon. */
  ghost predicate PlainTo(processor: Processor, chain: seq<Block>, h: nat) {
    h < |chain| && NoColons(ExecutedUpTo(processor, chain, h).written)
  }

  lemma {:induction false} HeightDescent(P: nat -> bool, h: nat, top: nat)
    requires P(top) && h <= top
    requires forall k: nat :: k < top && P(k + 1) ==> P(k)
    ensures P(h)
    decreases top - h
  {
    if h < top {
      HeightDescent(P, h + 1, top);
    }
  }

  lemma PlainStep(processor: Processor, chain: seq<Block>, h: nat)
    requires PlainTo(processor, chain, h + 1)
    ensures PlainTo(processor, chain, h)
  {
    PlainBefore(processor, chain, h + 1);
  }

  lemma PlainUpTo(processor: Processor, chain: seq<Block>, h: nat, top: nat)
    requires h <= top && PlainTo(processor, chain, top)
    ensures PlainTo(processor, chain, h)
  {
    ghost var P := (k: nat) => PlainTo(processor, chain, k);
    forall k: nat | k < top && P(k + 1)
      ensures P(k)
    {
      PlainStep(processor, chain, k);
    }
    HeightDescent(P, h, top);
  }

  lemma MadeIsBuiltAt(processor: Processor, chain: seq<Block>, h: nat)
    requires MadeChain(processor, chain) && RegistersWellFormed(processor)
    requires 0 < h && PlainTo(processor, chain, h)
    ensures ExecutedAt(processor, chain, h)
  {
    assert MadeAt(processor, chain, h);
    PlainReplaysAll(processor, chain, h - 1);
    MadeOnce(processor, chain, h);
  }

  /** A made chain whose calls wrote no colon is a chain of executed blocks. */
  lemma MadeIsBuilt(processor: Processor, chain: seq<Block>)
    requires MadeChain(processor, chain) && RegistersWellFormed(processor)
    requires chain != [] && PlainTo(processor, chain, |chain| - 1)
    ensures BuiltChain(processor, chain)
  {
    forall h | 0 < h < |chain|
      ensures ExecutedAt(processor, chain, h)
    {
      PlainUpTo(processor, chain, h, |chain| - 1);
      MadeIsBuiltAt(processor, chain, h);
    }
  }

  // Colons

  lemma MadeIsPlain(processor: Processor, state: Ledger, body: BlockBody, k: StateKey)
    requires RegistersWellFormed(processor) && Made(processor, state, body) && ':' in k.key
    ensures Get(Apply(state, body.stateDiff), k) == Get(state, k)
  {
    var entries: seq<TransactionEntry> :| MadeOf(processor, entries, state, body);
    DiffIsPlain(CallsOf(processor, entries), state);
    ApplyFrame(state, body.stateDiff, k);
  }

  /** Whatever was executed, the diffs of a made chain never lead to a key with a colon. */
  lemma {:induction false} MadeStateIsPlain(processor: Processor, chain: seq<Block>, h: nat, k: StateKey)
    requires MadeChain(processor, chain) && RegistersWellFormed(processor) && (h == 0 || h < |chain|)
    requires ':' in k.key
    ensures Get(StateAt(chain, h), k) == None
  {
    if h > 0 {
      MadeStateIsPlain(processor, chain, h - 1, k);
      assert MadeAt(processor, chain, h);
      MadeIsPlain(processor, StateAt(chain, h - 1), chain[h].body, k);
    }
  }

  lemma WrittenIsThere(calls: seq<Call>, k: StateKey)
    requires k in RunSet(calls, map[]).written
    ensures Get(RunSet(calls, map[]).ledger, k) != None
  {
    RunSetFrame(calls, map[]);
  }

  /** The diffs of a made chain lead where sequential execution does exactly when no colon was written. */
  lemma MadeReplaysIff(processor: Processor, chain: seq<Block>, h: nat)
    requires MadeChain(processor, chain) && RegistersWellFormed(processor) && (h == 0 || h < |chain|)
    ensures var run := ExecutedUpTo(processor, chain, h);
            StateAt(chain, h) == run.ledger <==> NoColons(run.written)
  {
    var run := ExecutedUpTo(processor, chain, h);
    if NoColons(run.written) {
      PlainReplaysAll(processor, chain, h);
    } else {
      var k :| k in run.written && ':' in k.key;
      MadeStateIsPlain(processor, chain, h, k);
      WrittenIsThere(CallsUpTo(processor, chain, h), k);
    }
  }

  // Stores

  /** A store answers every read as a ledger does. */
  ghost predicate Answers(store: map<string, string>, ledger: Ledger) {
    forall k: StateKey :: Lookup(store, k) == Get(ledger, k)
  }

  lemma MirrorsOne(store: map<string, string>, a: Ledger, b: Ledger)
    requires Mirrors(store, a)
    ensures Answers(store, b) <==> a == b
  {
    if Answers(store, b) {
      forall k: StateKey
        ensures Get(a, k) == Get(b, k)
      {
        assert Lookup(store, k) == Get(a, k) && Lookup(store, k) == Get(b, k);
      }
      SameLedger(a, b);
    }
  }

  /**
   A store in sync with a made chain answers every read with what executing the calls up to its height
   left there, if and only if none of these calls wrote a key with a colon.
   */
  lemma SyncedStoreIff(processor: Processor, chain: seq<Block>, s: Synced)
    requires MadeChain(processor, chain) && RegistersWellFormed(processor) && InSync(chain, s)
    ensures var run := ExecutedUpTo(processor, chain, s.lastBlockHeight);
            Answers(s.store, run.ledger) <==> NoColons(run.written)
  {
    MadeReplaysIff(processor, chain, s.lastBlockHeight);
    MirrorsOne(s.store, StateAt(chain, s.lastBlockHeight), ExecutedUpTo(processor, chain, s.lastBlockHeight).ledger);
  }
}
