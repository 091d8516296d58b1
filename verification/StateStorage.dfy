/**
 The state storage: a key-value store that replays the state diffs of the block storage, one block
 after another, and answers reads once it has caught up.
 */
module StateStorages {
  import opened Wrappers
  import opened Types
  import opened StateKeys
  import opened Contracts
  import opened StateDiffs
  import opened Chains
  import opened Paging

  // The store

  function Lookup(store: map<string, string>, k: StateKey): Option<string> {
    if GenerateMapKeyString(k) in store then Some(store[GenerateMapKeyString(k)]) else None
  }

  /** The store holds the ledger, under storage keys. */
  ghost predicate Mirrors(store: map<string, string>, ledger: Ledger) {
    forall k: StateKey :: Lookup(store, k) == Get(ledger, k)
  }

  function StoreDiff(store: map<string, string>, diff: seq<Modified>): map<string, string> {
    if diff == [] then store
    else
      var last := diff[|diff| - 1];
      StoreDiff(store, diff[..|diff| - 1])[GenerateMapKeyString(last.key) := last.value]
  }

  lemma SetMirrors(store: map<string, string>, ledger: Ledger, k: StateKey, value: string)
    requires Mirrors(store, ledger)
    ensures Mirrors(store[GenerateMapKeyString(k) := value], ledger[k := value])
  {
    var store', ledger' := store[GenerateMapKeyString(k) := value], ledger[k := value];
    forall j: StateKey
      ensures Lookup(store', j) == Get(ledger', j)
    {
      assert Lookup(store, j) == Get(ledger, j);
      if GenerateMapKeyString(j) == GenerateMapKeyString(k) {
        StoreKeyInjective(j, k);
      }
    }
  }

  lemma {:induction false} StoreDiffMirrors(store: map<string, string>, ledger: Ledger, diff: seq<Modified>)
    requires Mirrors(store, ledger)
    ensures Mirrors(StoreDiff(store, diff), Apply(ledger, diff))
  {
    if diff != [] {
      var init, last := diff[..|diff| - 1], diff[|diff| - 1];
      StoreDiffMirrors(store, ledger, init);
      SetMirrors(StoreDiff(store, init), Apply(ledger, init), last.key, last.value);
    }
  }

  class InMemoryKVStore {
    var storeMap: map<string, string>

    constructor ()
      ensures storeMap == map[]
    {
      storeMap := map[];
    }

    method GetSync(k: StateKey) returns (value: Option<string>)
      ensures value == Lookup(storeMap, k)
    {
      var mapKey := GenerateMapKeyString(k);
      value := if mapKey in storeMap then Some(storeMap[mapKey]) else None;
    }

    method SetSync(k: StateKey, value: string)
      modifies this
      ensures storeMap == old(storeMap)[GenerateMapKeyString(k) := value]
    {
      storeMap := storeMap[GenerateMapKeyString(k) := value];
    }

    /** The keys asked for that are there, with their values. */
    method GetMany(contractAddress: seq<Byte>, keys: seq<string>) returns (values: map<string, string>)
      ensures forall key :: key in values <==> key in keys && Lookup(storeMap, StateKey(contractAddress, key)).Some?
      ensures forall key :: key in values ==> Lookup(storeMap, StateKey(contractAddress, key)) == Some(values[key])
    {
      values := map[];
      for i := 0 to |keys|
        invariant forall key :: key in values <==>
                    key in keys[..i] && Lookup(storeMap, StateKey(contractAddress, key)).Some?
        invariant forall key :: key in values ==> Lookup(storeMap, StateKey(contractAddress, key)) == Some(values[key])
      {
        var value := GetSync(StateKey(contractAddress, keys[i]));
        if value.Some? {
          values := values[keys[i] := value.value];
        }
        assert keys[..i + 1] == keys[..i] + [keys[i]];
      }
      assert keys[..|keys|] == keys;
    }
  }

  // Syncing

  datatype Synced = Synced(store: map<string, string>, lastBlockHeight: nat)

  /** Taking one block: only the next one is accepted. */
  function SyncStep(s: Synced, block: Block): (Synced, bool) {
    if block.header.height == s.lastBlockHeight + 1 then
      (Synced(StoreDiff(s.store, block.body.stateDiff), s.lastBlockHeight + 1), true)
    else (s, false)
  }

  /** The contract state after the blocks 1 to h. */
  function StateAt(chain: seq<Block>, h: nat): Ledger
    requires h == 0 || h < |chain|
  {
    if h == 0 then map[] else Apply(StateAt(chain, h - 1), chain[h].body.stateDiff)
  }

  /** The store is the state of the chain at the height reached. */
  ghost predicate InSync(chain: seq<Block>, s: Synced) {
    && (s.lastBlockHeight == 0 || s.lastBlockHeight < |chain|)
    && Mirrors(s.store, StateAt(chain, s.lastBlockHeight))
  }

  lemma {:induction false} StateOfPrefix(chain: seq<Block>, longer: seq<Block>, h: nat)
    requires chain <= longer && (h == 0 || h < |chain|)
    ensures StateAt(chain, h) == StateAt(longer, h)
  {
    if h > 0 {
      StateOfPrefix(chain, longer, h - 1);
    }
  }

  /** The state the diffs of the whole chain lead to. */
  function TipState(chain: seq<Block>): Ledger
    requires chain != []
  {
    StateAt(chain, |chain| - 1)
  }

  /** A property of every block's body and the state it was built on. */
  ghost predicate EveryBody(chain: seq<Block>, Q: (Ledger, BlockBody) -> bool) {
    forall h {:trigger BodyAt(chain, h, Q)} :: 0 < h < |chain| ==> BodyAt(chain, h, Q)
  }

  ghost predicate BodyAt(chain: seq<Block>, h: nat, Q: (Ledger, BlockBody) -> bool)
    requires 0 < h < |chain|
  {
    Q(StateAt(chain, h - 1), chain[h].body)
  }

  lemma EveryBodyGrows(chain: seq<Block>, block: Block, Q: (Ledger, BlockBody) -> bool)
    requires chain != [] && EveryBody(chain, Q) && Q(TipState(chain), block.body)
    ensures EveryBody(chain + [block], Q)
  {
    var longer := chain + [block];
    forall h | 0 < h < |longer|
      ensures BodyAt(longer, h, Q)
    {
      StateOfPrefix(chain, longer, h - 1);
      if h < |chain| {
        assert BodyAt(chain, h, Q);
      }
    }
  }

  lemma StepKeepsSync(hash: HashFunction, chain: seq<Block>, s: Synced, block: Block)
    requires Linked(hash, chain) && InSync(chain, s) && block in chain
    ensures InSync(chain, SyncStep(s, block).0)
    ensures s.lastBlockHeight <= SyncStep(s, block).0.lastBlockHeight
  {
    if block.header.height == s.lastBlockHeight + 1 {
      assert block == chain[s.lastBlockHeight + 1];
      StoreDiffMirrors(s.store, StateAt(chain, s.lastBlockHeight), block.body.stateDiff);
    }
  }

  /** Whatever blocks of the chain come in whatever order, the store stays the state of the height reached. */
  lemma {:induction false} FoldKeepsSync(hash: HashFunction, chain: seq<Block>, s: Synced, blocks: seq<Block>)
    requires Linked(hash, chain) && InSync(chain, s) && forall b :: b in blocks ==> b in chain
    ensures InSync(chain, FoldUntil(SyncStep, s, blocks).0)
    ensures s.lastBlockHeight <= FoldUntil(SyncStep, s, blocks).0.lastBlockHeight
    decreases |blocks|
  {
    if blocks != [] {
      StepKeepsSync(hash, chain, s, blocks[0]);
      var (s', ok) := SyncStep(s, blocks[0]);
      if ok {
        FoldKeepsSync(hash, chain, s', blocks[1..]);
      }
    }
  }

  /** The blocks after the height reached are all taken. */
  lemma {:induction false} FoldCatchesUp(hash: HashFunction, chain: seq<Block>, s: Synced)
    requires Linked(hash, chain) && s.lastBlockHeight < |chain|
    ensures var (s', ok) := FoldUntil(SyncStep, s, chain[s.lastBlockHeight + 1..]);
            ok && s'.lastBlockHeight == |chain| - 1
    decreases |chain| - s.lastBlockHeight
  {
    var rest := chain[s.lastBlockHeight + 1..];
    if rest != [] {
      var s' := SyncStep(s, rest[0]).0;
      assert rest[1..] == chain[s'.lastBlockHeight + 1..];
      FoldCatchesUp(hash, chain, s');
    }
  }

  /** The blocks have the heights that follow a height, one after another. */
  ghost predicate InSequence(height: int, blocks: seq<Block>) {
    forall i :: 0 <= i < |blocks| ==> blocks[i].header.height == height + 1 + i
  }

  lemma RestInSequence(height: int, blocks: seq<Block>)
    requires blocks != [] && blocks[0].header.height == height + 1
    ensures InSequence(height, blocks) <==> InSequence(height + 1, blocks[1..])
  {
    if InSequence(height + 1, blocks[1..]) {
      forall i | 0 <= i < |blocks|
        ensures blocks[i].header.height == height + 1 + i
      {
        if i > 0 {
          assert blocks[1..][i - 1] == blocks[i];
        }
      }
    }
  }

  /** Blocks are taken to the end exactly when their heights follow the height reached without a gap. */
  lemma {:induction false} FoldTakesSequences(s: Synced, blocks: seq<Block>)
    ensures FoldUntil(SyncStep, s, blocks).1 <==> InSequence(s.lastBlockHeight, blocks)
    decreases |blocks|
  {
    if blocks != [] {
      if blocks[0].header.height == s.lastBlockHeight + 1 {
        RestInSequence(s.lastBlockHeight, blocks);
        FoldTakesSequences(SyncStep(s, blocks[0]).0, blocks[1..]);
      } else {
        assert !InSequence(s.lastBlockHeight, blocks);
        assert !SyncStep(s, blocks[0]).1;
      }
    }
  }

  lemma StoreDiffMirrorsAll(store: map<string, string>, diff: seq<Modified>)
    ensures forall ledger :: Mirrors(store, ledger) ==> Mirrors(StoreDiff(store, diff), Apply(ledger, diff))
  {
    forall ledger | Mirrors(store, ledger)
      ensures Mirrors(StoreDiff(store, diff), Apply(ledger, diff))
    {
      StoreDiffMirrors(store, ledger, diff);
    }
  }

  const POLL_LIMIT: nat := 500

  /** The first page of a poll, and the first block of the second one. */
  lemma TwoPages(views: Views, bound: nat, from: nat, first: seq<Block>, second: seq<Block>)
    requires Bounded(views, bound) && views(0) == first && views(1) == second
    requires from < |first| - 1 < from + POLL_LIMIT < |second| - 1
    ensures var blocks := Visited(views, 0, from, POLL_LIMIT, bound).blocks;
            && first[from + 1..] <= blocks
            && |blocks| > |first| - 1 - from
            && blocks[|first| - 1 - from] == second[from + POLL_LIMIT + 1]
  {
    VisitedPage(views, 0, from, POLL_LIMIT, bound);
    VisitedPage(views, 1, from + POLL_LIMIT, POLL_LIMIT, bound);
    assert PageOf(first, from, POLL_LIMIT).value == first[from + 1..];
    assert PageOf(second, from + POLL_LIMIT, POLL_LIMIT).value[0] == second[from + POLL_LIMIT + 1];
  }

  /** A chain that grows beyond the limit after a short page makes the poll throw. */
  lemma GrowthPastShortPageThrows(hash: HashFunction, views: Views, bound: nat, s: Synced, first: seq<Block>,
                                  second: seq<Block>)
    requires Bounded(views, bound) && views(0) == first && views(1) == second
    requires Linked(hash, second)
    requires s.lastBlockHeight < |first| - 1 < s.lastBlockHeight + 500 < |second| - 1
    ensures !InSequence(s.lastBlockHeight, Visited(views, 0, s.lastBlockHeight, 500, bound).blocks)
    ensures Mapped(SyncStep, s, Visited(views, 0, s.lastBlockHeight, 500, bound)).1 == Refused
  {
    var blocks := Visited(views, 0, s.lastBlockHeight, POLL_LIMIT, bound).blocks;
    TwoPages(views, bound, s.lastBlockHeight, first, second);
    assert blocks[|first| - 1 - s.lastBlockHeight].header.height == s.lastBlockHeight + POLL_LIMIT + 1;
    FoldTakesSequences(s, blocks);
  }

  /** A poll of a chain that stays as it is reaches its end. */
  lemma QuietPollEnds(views: Views, bound: nat, hash: HashFunction, chain: seq<Block>, s: Synced)
    requires Bounded(views, bound) && Linked(hash, chain) && InSync(chain, s)
    ensures chain != [] && (forall k: nat :: views(k) == chain) ==>
              var (s', outcome) := Mapped(SyncStep, s, Visited(views, 0, s.lastBlockHeight, POLL_LIMIT, bound));
              outcome == Done && s'.lastBlockHeight == |chain| - 1
  {
    if chain != [] && forall k: nat :: views(k) == chain {
      PagingIsComplete(views, chain, 0, s.lastBlockHeight, POLL_LIMIT, bound);
      FoldCatchesUp(hash, chain, s);
    }
  }

  class StateStorage {
    const kvstore: InMemoryKVStore
    var lastBlockHeight: nat
    var polling: bool
    var engineRunning: bool

    constructor ()
      ensures fresh(kvstore) && State() == Synced(map[], 0) && polling && engineRunning
    {
      kvstore := new InMemoryKVStore();
      lastBlockHeight, engineRunning, polling := 0, true, true;
    }

    function State(): Synced
      reads this, kvstore
    {
      Synced(kvstore.storeMap, lastBlockHeight)
    }

    method Stop()
      modifies this`engineRunning, this`polling
      ensures !engineRunning && !polling
    {
      engineRunning := false;
      StopPolling();
    }

    method StartPolling()
      modifies this`polling
      ensures polling == (engineRunning || old(polling))
    {
      if engineRunning {
        polling := true;
      }
    }

    method StopPolling()
      modifies this`polling
      ensures !polling
    {
      polling := false;
    }

    method SyncNextBlock(block: Block) returns (ok: bool)
      modifies this`lastBlockHeight, kvstore
      ensures (State(), ok) == SyncStep(old(State()), block)
      ensures ok <==> block.header.height == old(lastBlockHeight) + 1
      ensures ok ==>
                && lastBlockHeight == block.header.height
                && forall ledger :: Mirrors(old(kvstore.storeMap), ledger) ==>
                                      Mirrors(kvstore.storeMap, Apply(ledger, block.body.stateDiff))
      ensures !ok ==> State() == old(State())
    {
      if block.header.height == lastBlockHeight + 1 {
        var diff := block.body.stateDiff;
        StoreDiffMirrorsAll(kvstore.storeMap, diff);
        ghost var before := kvstore.storeMap;
        for i := 0 to |diff|
          invariant kvstore.storeMap == StoreDiff(before, diff[..i])
        {
          kvstore.SetSync(diff[i].key, diff[i].value);
          assert diff[..i + 1][..i] == diff[..i];
        }
        assert diff[..|diff|] == diff;
        lastBlockHeight := block.header.height;
        return true;
      } else {
        return false;
      }
    }

    /** The inner loop of a poll: one page, block by block.  The store is in sync after each of them. */
    method SyncPage(blocks: seq<Block>, ghost hash: HashFunction, ghost chain: seq<Block>) returns (ok: bool)
      requires Linked(hash, chain) && InSync(chain, State()) && forall b :: b in blocks ==> b in chain
      modifies this`lastBlockHeight, kvstore
      ensures InSync(chain, State()) && old(lastBlockHeight) <= lastBlockHeight
      ensures (State(), ok) == FoldUntil(SyncStep, old(State()), blocks)
    {
      ghost var start := State();
      for i := 0 to |blocks|
        invariant InSync(chain, State()) && start.lastBlockHeight <= lastBlockHeight
        invariant FoldUntil(SyncStep, start, blocks) == FoldUntil(SyncStep, State(), blocks[i..])
      {
        assert blocks[i..][0] == blocks[i] && blocks[i..][1..] == blocks[i + 1..];
        StepKeepsSync(hash, chain, State(), blocks[i]);
        var taken := SyncNextBlock(blocks[i]);
        if !taken {
          return false;
        }
      }
      return true;
    }

    /** One turn of the paging loop; `ended` says how the poll ends, if it does. */
    method SyncNextPage(views: Views, k: nat, blockHeight: nat, ghost bound: nat, ghost hash: HashFunction,
                        ghost chain: seq<Block>,
                        ghost result: (Synced, MapOutcome))
      returns (ended: Option<MapOutcome>)
      requires Bounded(views, bound)
      requires Linked(hash, chain) && views(k) <= chain && InSync(chain, State())
      requires result == MapFrom(SyncStep, State(), views, k, blockHeight, POLL_LIMIT, bound)
      modifies this`lastBlockHeight, kvstore
      ensures InSync(chain, State()) && old(lastBlockHeight) <= lastBlockHeight
      ensures ended.Some? ==> result == (State(), ended.value)
      ensures ended.None? ==>
                && blockHeight < bound
                && result == MapFrom(SyncStep, State(), views, k + 1, blockHeight + POLL_LIMIT, POLL_LIMIT, bound)
    {
      assert |views(k)| <= bound;
      var page := PageOf(views(k), blockHeight, POLL_LIMIT);
      if page.None? {
        return Some(ReferenceError);
      }
      if page.value == [] {
        return Some(Done);
      }
      PageIsOnChain(views(k), blockHeight, POLL_LIMIT, chain);
      var ok := SyncPage(page.value, hash, chain);
      ended := if ok then None else Some(Refused);
    }

    /**
     The paging loop of a poll.  However the chain grows between the pages, the store is in sync after
     every page.
     */
    method SyncPages(views: Views, ghost bound: nat, ghost hash: HashFunction,
                     ghost chain: seq<Block>) returns (outcome: MapOutcome)
      requires Bounded(views, bound)
      requires Linked(hash, chain) && (forall k: nat :: views(k) <= chain) && InSync(chain, State())
      modifies this`lastBlockHeight, kvstore
      ensures InSync(chain, State()) && old(lastBlockHeight) <= lastBlockHeight
      ensures (State(), outcome) == MapFrom(SyncStep, old(State()), views, 0, old(lastBlockHeight), POLL_LIMIT, bound)
    {
      ghost var start := lastBlockHeight;
      ghost var result := MapFrom(SyncStep, State(), views, 0, lastBlockHeight, POLL_LIMIT, bound);
      var blockHeight, k := lastBlockHeight, 0;
      while true
        invariant InSync(chain, State()) && start <= lastBlockHeight
        invariant result == MapFrom(SyncStep, State(), views, k, blockHeight, POLL_LIMIT, bound)
        decreases bound - blockHeight
      {
        var ended := SyncNextPage(views, k, blockHeight, bound, hash, chain, result);
        if ended.Some? {
          return ended.value;
        }
        blockHeight, k := blockHeight + POLL_LIMIT, k + 1;
      }
    }

    /**
     One poll.  A block that does not fit ends it with an error, an uninitialised block storage does not.
     On a chain that does not grow meanwhile it reaches the end.
     */
    method PollBlockStorage(views: Views, ghost bound: nat, ghost hash: HashFunction,
                            ghost chain: seq<Block>) returns (thrown: bool)
      requires Bounded(views, bound)
      requires Linked(hash, chain) && (forall k: nat :: views(k) <= chain) && InSync(chain, State())
      modifies this, kvstore
      ensures InSync(chain, State()) && old(lastBlockHeight) <= lastBlockHeight
      ensures State() == Polled(old(State()), Poll(views, bound, chain))
      ensures chain != [] && (forall k: nat :: views(k) == chain) ==> !thrown && lastBlockHeight == |chain| - 1
      ensures polling == engineRunning == old(engineRunning)
      ensures thrown <==>
              !InSequence(old(lastBlockHeight), Visited(views, 0, old(lastBlockHeight), POLL_LIMIT, bound).blocks)
    {
      StopPolling();
      FoldTakesSequences(State(), Visited(views, 0, lastBlockHeight, POLL_LIMIT, bound).blocks);
      QuietPollEnds(views, bound, hash, chain, State());
      MapFromIsMapped(SyncStep, State(), views, 0, lastBlockHeight, POLL_LIMIT, bound);
      var outcome := SyncPages(views, bound, hash, chain);
      thrown := outcome == Refused;
      StartPolling();
    }

    /**
     Waiting for the state of a block: the height reached is looked at every 200 ms, 25 times in all.
     `heights` is what it is at each look; pages are synced in the background.
     */
    method WaitForBlockState(height: int, heights: nat -> int, timeout: int := 5000) returns (ok: bool)
      ensures ok <==> exists k: nat :: k * 200 < timeout && height <= heights(k)
    {
      var left, k := timeout, 0;
      while left > 0
        invariant left == timeout - k * 200
        invariant forall j: nat :: j < k ==> height > heights(j)
        decreases left
      {
        if height <= heights(k) {
          return true;
        }
        left, k := left - 200, k + 1;
      }
      return false;
    }
  }

  // Many polls

  /** A poll of a run: what it sees of the chain, and the chain as it is when the poll ends. */
  datatype Poll = Poll(views: Views, bound: nat, chain: seq<Block>)

  ghost function Polled(s: Synced, poll: Poll): Synced
    requires Bounded(poll.views, poll.bound)
  {
    Mapped(SyncStep, s, Visited(poll.views, 0, s.lastBlockHeight, POLL_LIMIT, poll.bound)).0
  }

  /** Polls of a chain that only grows, each seeing some of what is there by its end. */
  ghost predicate PollsOfGrowingChain(hash: HashFunction, polls: seq<Poll>) {
    && (forall i :: 0 <= i < |polls| ==>
          && Bounded(polls[i].views, polls[i].bound)
          && Linked(hash, polls[i].chain)
          && forall k: nat :: polls[i].views(k) <= polls[i].chain)
    && (forall i, j :: 0 <= i < j < |polls| ==> polls[i].chain <= polls[j].chain)
  }

  ghost function RunPolls(hash: HashFunction, s: Synced, polls: seq<Poll>): Synced
    requires PollsOfGrowingChain(hash, polls)
  {
    if polls == [] then s else Polled(RunPolls(hash, s, polls[..|polls| - 1]), polls[|polls| - 1])
  }

  /** One poll more, of a chain that has grown since the last one. */
  lemma PollStaysInSync(hash: HashFunction, known: seq<Block>, s: Synced, poll: Poll)
    requires InSync(known, s) && known <= poll.chain
    requires Bounded(poll.views, poll.bound) && Linked(hash, poll.chain) && forall k: nat :: poll.views(k) <= poll.chain
    ensures InSync(poll.chain, Polled(s, poll))
  {
    StateOfPrefix(known, poll.chain, s.lastBlockHeight);
    VisitedAreOnChain(poll.views, 0, s.lastBlockHeight, POLL_LIMIT, poll.bound, poll.chain);
    FoldKeepsSync(hash, poll.chain, s, Visited(poll.views, 0, s.lastBlockHeight, POLL_LIMIT, poll.bound).blocks);
  }

  /** The chain as it was at the end of the last poll. */
  function LastChain(polls: seq<Poll>): seq<Block> {
    if polls == [] then [] else polls[|polls| - 1].chain
  }

  lemma EarlierPolls(hash: HashFunction, polls: seq<Poll>)
    requires polls != [] && PollsOfGrowingChain(hash, polls)
    ensures var n := |polls| - 1;
            && PollsOfGrowingChain(hash, polls[..n])
            && LastChain(polls[..n]) <= polls[n].chain
            && Bounded(polls[n].views, polls[n].bound)
            && Linked(hash, polls[n].chain)
            && forall k: nat :: polls[n].views(k) <= polls[n].chain
  {
    var n := |polls| - 1;
    if n > 0 {
      assert polls[..n][n - 1] == polls[n - 1];
    }
  }

  /** Over any run of polls while the chain grows, the store is the state of the height reached. */
  lemma {:induction false} PollsStayInSync(hash: HashFunction, polls: seq<Poll>)
    requires PollsOfGrowingChain(hash, polls)
    ensures InSync(LastChain(polls), RunPolls(hash, Synced(map[], 0), polls))
  {
    if polls != [] {
      var init, poll := polls[..|polls| - 1], polls[|polls| - 1];
      EarlierPolls(hash, polls);
      PollsStayInSync(hash, init);
      PollStaysInSync(hash, LastChain(init), RunPolls(hash, Synced(map[], 0), init), poll);
    }
  }
}
