/**
 A node that builds blocks and replays them: its block builder executes pending transactions on what
 the state storage answers, its block storage takes the blocks, and its state storage polls them
 back.  Whatever the order of builds and polls, the store is the fold of the chain's diffs; it is what
 executing the committed transactions one after another leaves exactly when these write no colon.
 */
module NodeRuns {
  import opened Wrappers
  import opened Types
  import opened StateKeys
  import opened Contracts
  import opened StateDiffs
  import opened Chains
  import opened Paging
  import opened CachedRuns
  import opened VirtualMachines
  import opened StateStorages
  import opened Replication
  import opened BlockBuilders
  import opened MadeChains

  datatype Node = Node(chain: seq<Block>, synced: Synced)

  /** `state` is the ledger the virtual machine reads from the store while it executes the entries. */
  datatype Event =
    | BlockBuilt(entries: seq<TransactionEntry>, state: Ledger, block: Block)
    | StoragePolled(views: Views, bound: nat)

  /**
   A block is built on the last one, out of what the virtual machine makes of its entries in the
   state the store holds.  Reads of the store are answered only once it has reached the last block; a
   block whose calls read nothing from it can be built before.
   */
  ghost predicate CanHappen(processor: Processor, hash: HashFunction, n: Node, e: Event) {
    match e
    case BlockBuilt(entries, state, block) =>
      && n.chain != []
      && Mirrors(n.synced.store, state)
      && (n.synced.lastBlockHeight >= |n.chain| - 1 || !SetLoads(CallsOf(processor, entries), state))
      && RunEntries(processor, entries, state).error.None?
      && SameContent(block, BuildNextBlock(hash, BodyOf(processor, entries, state), Some(n.chain[|n.chain| - 1])))
    case StoragePolled(views, bound) =>
      Bounded(views, bound) && forall k: nat :: views(k) <= n.chain
  }

  ghost function NextNode(processor: Processor, hash: HashFunction, n: Node, e: Event): Node
    requires CanHappen(processor, hash, n, e)
  {
    match e
    case BlockBuilt(_, _, block) => n.(chain := n.chain + [block])
    case StoragePolled(views, bound) => n.(synced := Polled(n.synced, Poll(views, bound, n.chain)))
  }

  ghost predicate Leads(processor: Processor, hash: HashFunction, before: Node, e: Event, n: Node) {
    CanHappen(processor, hash, before, e) && n == NextNode(processor, hash, before, e)
  }

  /** The node starts with the genesis block and an empty store, and ends as `n` after the events. */
  ghost predicate Reaches(processor: Processor, hash: HashFunction, events: seq<Event>, n: Node)
    decreases |events|
  {
    if events == [] then n == Node([GenesisBlock(hash)], Synced(map[], 0))
    else
      var e := events[|events| - 1];
      exists before :: Reaches(processor, hash, events[..|events| - 1], before) && Leads(processor, hash, before, e, n)
  }

  /** The calls of all transactions committed, in order. */
  function CommittedCalls(processor: Processor, events: seq<Event>): seq<Call> {
    if events == [] then []
    else
      var before, e := CommittedCalls(processor, events[..|events| - 1]), events[|events| - 1];
      if e.BlockBuilt? then before + CallsOf(processor, e.entries) else before
  }

  /** Running them all, one after another, from the empty state. */
  function CommittedRun(processor: Processor, events: seq<Event>): SetRun {
    RunSet(CommittedCalls(processor, events), map[])
  }

  // What always holds

  /** The chain is linked, and the store is the fold of the diffs up to the height reached. */
  ghost predicate KeepsSync(hash: HashFunction, n: Node) {
    n.chain != [] && Linked(hash, n.chain) && InSync(n.chain, n.synced)
  }

  lemma CaughtUpMirrorsTip(hash: HashFunction, n: Node)
    requires KeepsSync(hash, n) && n.synced.lastBlockHeight >= |n.chain| - 1
    ensures Mirrors(n.synced.store, TipState(n.chain))
  {
    assert n.synced.lastBlockHeight == |n.chain| - 1;
  }

  /** A store that lags behind is not looked at, so that every block is made on the last state. */
  lemma BuildIsMade(processor: Processor, hash: HashFunction, n: Node, e: Event)
    requires KeepsSync(hash, n) && e.BlockBuilt? && CanHappen(processor, hash, n, e)
    ensures MadeOf(processor, e.entries, TipState(n.chain), e.block.body)
  {
    if n.synced.lastBlockHeight >= |n.chain| - 1 {
      CaughtUpMirrorsTip(hash, n);
      MirrorsOne(n.synced.store, TipState(n.chain), e.state);
    } else {
      SetLoadsNothing(CallsOf(processor, e.entries), e.state, TipState(n.chain));
    }
  }

  lemma BuildKeepsSync(processor: Processor, hash: HashFunction, n: Node, e: Event)
    requires KeepsSync(hash, n) && e.BlockBuilt? && CanHappen(processor, hash, n, e)
    ensures KeepsSync(hash, NextNode(processor, hash, n, e))
  {
    NextBlockContinues(hash, n.chain, e.block.body);
    LinkedGrows(hash, n.chain, e.block);
    StateOfPrefix(n.chain, n.chain + [e.block], n.synced.lastBlockHeight);
  }

  lemma PollKeepsSync(processor: Processor, hash: HashFunction, n: Node, e: Event)
    requires KeepsSync(hash, n) && e.StoragePolled? && CanHappen(processor, hash, n, e)
    ensures KeepsSync(hash, NextNode(processor, hash, n, e))
  {
    var from := n.synced.lastBlockHeight;
    VisitedAreOnChain(e.views, 0, from, POLL_LIMIT, e.bound, n.chain);
    FoldKeepsSync(hash, n.chain, n.synced, Visited(e.views, 0, from, POLL_LIMIT, e.bound).blocks);
  }

  lemma StartKeepsSync(hash: HashFunction)
    ensures KeepsSync(hash, Node([GenesisBlock(hash)], Synced(map[], 0)))
  {
  }

  /** Every interleaving of builds and polls keeps the chain linked and the store in sync with it. */
  lemma {:induction false} RunKeepsSync(processor: Processor, hash: HashFunction, events: seq<Event>, n: Node)
    requires Reaches(processor, hash, events, n)
    ensures KeepsSync(hash, n)
    decreases |events|
  {
    if events == [] {
      StartKeepsSync(hash);
    } else {
      var init, e := events[..|events| - 1], events[|events| - 1];
      var before :| Reaches(processor, hash, init, before) && Leads(processor, hash, before, e, n);
      RunKeepsSync(processor, hash, init, before);
      if e.BlockBuilt? {
        BuildKeepsSync(processor, hash, before, e);
      } else {
        PollKeepsSync(processor, hash, before, e);
      }
    }
  }

  // Execution

  /** The virtual machine made the chain, out of the calls committed. */
  ghost predicate KeepsMade(processor: Processor, calls: seq<Call>, chain: seq<Block>) {
    chain != [] && MadeChain(processor, chain) && CallsUpTo(processor, chain, |chain| - 1) == calls
  }

  lemma BuildKeepsMade(processor: Processor, calls: seq<Call>, chain: seq<Block>, entries: seq<TransactionEntry>,
                       block: Block)
    requires KeepsMade(processor, calls, chain) && MadeOf(processor, entries, TipState(chain), block.body)
    ensures KeepsMade(processor, calls + CallsOf(processor, entries), chain + [block])
  {
    assert Made(processor, TipState(chain), block.body);
    MadeChainGrows(processor, chain, block);
    MadeCalls(processor, entries, TipState(chain), block.body);
    CallsOfPrefix(processor, chain, chain + [block], |chain| - 1);
    assert (chain + [block])[|chain|] == block;
  }

  lemma {:induction false} RunKeepsMade(processor: Processor, hash: HashFunction, events: seq<Event>, n: Node)
    requires Reaches(processor, hash, events, n)
    ensures KeepsMade(processor, CommittedCalls(processor, events), n.chain)
    decreases |events|
  {
    if events != [] {
      var init, e := events[..|events| - 1], events[|events| - 1];
      var before :| Reaches(processor, hash, init, before) && Leads(processor, hash, before, e, n);
      RunKeepsMade(processor, hash, init, before);
      if e.BlockBuilt? {
        RunKeepsSync(processor, hash, init, before);
        BuildIsMade(processor, hash, before, e);
        BuildKeepsMade(processor, CommittedCalls(processor, init), before.chain, e.entries, e.block);
      }
    }
  }

  lemma MadeTip(processor: Processor, calls: seq<Call>, chain: seq<Block>)
    requires KeepsMade(processor, calls, chain) && RegistersWellFormed(processor)
    ensures var run := RunSet(calls, map[]);
            && (TipState(chain) == run.ledger <==> NoColons(run.written))
            && (NoColons(run.written) ==> !run.crashed)
  {
    MadeReplaysIff(processor, chain, |chain| - 1);
    PlainReplaysAll(processor, chain, |chain| - 1);
  }

  /** The diffs of the chain lead where executing the committed calls does, exactly if these wrote no colon. */
  lemma RunReplicates(processor: Processor, hash: HashFunction, events: seq<Event>, n: Node)
    requires Reaches(processor, hash, events, n) && RegistersWellFormed(processor)
    ensures n.chain != []
    ensures var run := CommittedRun(processor, events);
            && (TipState(n.chain) == run.ledger <==> NoColons(run.written))
            && (NoColons(run.written) ==> !run.crashed)
  {
    RunKeepsMade(processor, hash, events, n);
    MadeTip(processor, CommittedCalls(processor, events), n.chain);
  }

  /** Whatever was committed, the store never holds a key with a colon. */
  lemma StoreIsPlain(processor: Processor, hash: HashFunction, events: seq<Event>, n: Node, k: StateKey)
    requires Reaches(processor, hash, events, n) && RegistersWellFormed(processor) && ':' in k.key
    ensures Lookup(n.synced.store, k) == None
  {
    RunKeepsSync(processor, hash, events, n);
    RunKeepsMade(processor, hash, events, n);
    MadeStateIsPlain(processor, n.chain, n.synced.lastBlockHeight, k);
  }

  /**
   State machine replication: a store that has caught up with its chain answers every read with what
   executing all committed calls one after another, from the empty state, left there, if and only if
   none of these calls wrote a key with a colon.
   */
  lemma StoreIsExecutionIff(processor: Processor, hash: HashFunction, events: seq<Event>, n: Node)
    requires Reaches(processor, hash, events, n) && RegistersWellFormed(processor)
    requires n.synced.lastBlockHeight >= |n.chain| - 1
    ensures var run := CommittedRun(processor, events);
            Answers(n.synced.store, run.ledger) <==> NoColons(run.written)
  {
    RunKeepsSync(processor, hash, events, n);
    CaughtUpMirrorsTip(hash, n);
    RunReplicates(processor, hash, events, n);
    MirrorsOne(n.synced.store, TipState(n.chain), CommittedRun(processor, events).ledger);
  }

  // Catching up

  /** A poll that finds the chain as it is. */
  function QuietPoll(n: Node): Event {
    StoragePolled(_ => n.chain, |n.chain|)
  }

  lemma QuietPollCanHappen(processor: Processor, hash: HashFunction, n: Node)
    ensures CanHappen(processor, hash, n, QuietPoll(n))
  {
  }

  lemma QuietPollCatchesUp(processor: Processor, hash: HashFunction, n: Node)
    requires KeepsSync(hash, n) && CanHappen(processor, hash, n, QuietPoll(n))
    ensures NextNode(processor, hash, n, QuietPoll(n)).synced.lastBlockHeight == |n.chain| - 1
  {
    var views, bound := QuietPoll(n).views, QuietPoll(n).bound;
    PagingIsComplete(views, n.chain, 0, n.synced.lastBlockHeight, POLL_LIMIT, bound);
    FoldCatchesUp(hash, n.chain, n.synced);
  }

  lemma ReachesOneMore(processor: Processor, hash: HashFunction, events: seq<Event>, n: Node, e: Event)
    requires Reaches(processor, hash, events, n) && CanHappen(processor, hash, n, e)
    ensures Reaches(processor, hash, events + [e], NextNode(processor, hash, n, e))
  {
    var longer := events + [e];
    assert longer[..|longer| - 1] == events;
    assert Reaches(processor, hash, longer[..|longer| - 1], n);
    assert Leads(processor, hash, n, longer[|longer| - 1], NextNode(processor, hash, n, e));
  }

  /** Whatever happened before, one undisturbed poll catches up, so that the next block can be built. */
  lemma OnePollCatchesUp(processor: Processor, hash: HashFunction, events: seq<Event>, n: Node)
    requires Reaches(processor, hash, events, n)
    ensures CanHappen(processor, hash, n, QuietPoll(n))
    ensures var m := NextNode(processor, hash, n, QuietPoll(n));
            && Reaches(processor, hash, events + [QuietPoll(n)], m)
            && m.chain == n.chain && m.synced.lastBlockHeight == |n.chain| - 1
  {
    QuietPollCanHappen(processor, hash, n);
    ReachesOneMore(processor, hash, events, n, QuietPoll(n));
    RunKeepsSync(processor, hash, events, n);
    QuietPollCatchesUp(processor, hash, n);
  }
}
