/**
 The sync queue of the block storage: blocks as received, in any order and any number of times,
 are deduplicated by height, sorted, and offered to the storage one by one.
 */
module BlockStorageSyncs {
  import opened Wrappers
  import opened Types
  import opened Chains
  import opened BlockStorages

  // Deduplicating and sorting

  predicate HasHeight(s: seq<Block>, h: int) {
    exists i :: 0 <= i < |s| && s[i].header.height == h
  }

  /** `uniqBy`: of blocks with equal heights the first one stays. */
  function UniqByHeight(s: seq<Block>): (r: seq<Block>)
    ensures forall i :: 0 <= i < |r| ==> r[i] in s
    ensures forall i, j :: 0 <= i < j < |r| ==> r[i].header.height != r[j].header.height
  {
    if s == [] then []
    else
      var init, last := UniqByHeight(s[..|s| - 1]), s[|s| - 1];
      if HasHeight(init, last.header.height) then init else init + [last]
  }

  /** `sortBy`: stable, by ascending height. */
  function InsertByHeight(s: seq<Block>, b: Block): (r: seq<Block>)
    ensures |r| == |s| + 1
    ensures forall x :: x in r <==> x in s || x == b
  {
    if s == [] || s[|s| - 1].header.height <= b.header.height then s + [b]
    else InsertByHeight(s[..|s| - 1], b) + [s[|s| - 1]]
  }

  function SortByHeight(s: seq<Block>): (r: seq<Block>)
    ensures forall x :: x in r <==> x in s
  {
    if s == [] then [] else InsertByHeight(SortByHeight(s[..|s| - 1]), s[|s| - 1])
  }

  ghost predicate Ascending(s: seq<Block>) {
    forall i, j :: 0 <= i < j < |s| ==> s[i].header.height < s[j].header.height
  }

  lemma {:induction false} InsertAscending(s: seq<Block>, b: Block)
    requires Ascending(s) && forall x :: x in s ==> x.header.height != b.header.height
    ensures Ascending(InsertByHeight(s, b))
  {
    if s != [] && s[|s| - 1].header.height > b.header.height {
      var init, last := s[..|s| - 1], s[|s| - 1];
      InsertAscending(init, b);
      var r := InsertByHeight(init, b);
      forall i | 0 <= i < |r|
        ensures r[i].header.height < last.header.height
      {
        assert r[i] in r;
      }
    } else {
      forall i | 0 <= i < |s|
        ensures s[i].header.height < b.header.height
      {
        assert s[i] in s && s[|s| - 1] in s;
      }
    }
  }

  lemma {:induction false} SortAscending(s: seq<Block>)
    requires forall i, j :: 0 <= i < j < |s| ==> s[i].header.height != s[j].header.height
    ensures Ascending(SortByHeight(s))
  {
    if s != [] {
      SortAscending(s[..|s| - 1]);
      InsertAscending(SortByHeight(s[..|s| - 1]), s[|s| - 1]);
    }
  }

  function Reversed(s: seq<Block>): (r: seq<Block>)
    ensures |r| == |s| && forall i :: 0 <= i < |s| ==> r[i] == s[|s| - 1 - i]
  {
    if s == [] then [] else [s[|s| - 1]] + Reversed(s[..|s| - 1])
  }

  /** The block of a height that was received last. */
  function Latest(queue: seq<Block>, h: int): (b: Option<Block>)
    ensures b.Some? ==> b.value in queue && b.value.header.height == h
    ensures b.None? ==> forall x :: x in queue ==> x.header.height != h
  {
    if queue == [] then None
    else if queue[|queue| - 1].header.height == h then Some(queue[|queue| - 1])
    else Latest(queue[..|queue| - 1], h)
  }

  function First(s: seq<Block>, h: int): (b: Option<Block>)
    ensures b.Some? ==> b.value in s && b.value.header.height == h
    ensures b.None? ==> forall x :: x in s ==> x.header.height != h
  {
    if s == [] then None
    else if s[0].header.height == h then Some(s[0])
    else First(s[1..], h)
  }

  lemma {:induction false} FirstOfReversed(queue: seq<Block>, h: int)
    ensures First(Reversed(queue), h) == Latest(queue, h)
  {
    if queue != [] {
      var r := Reversed(queue);
      assert r[1..] == Reversed(queue[..|queue| - 1]);
      FirstOfReversed(queue[..|queue| - 1], h);
    }
  }

  lemma {:induction false} FirstOfAppend(s: seq<Block>, b: Block, h: int)
    ensures First(s + [b], h) == if First(s, h).Some? then First(s, h) else First([b], h)
  {
    if s == [] {
      assert s + [b] == [b];
    } else {
      assert (s + [b])[1..] == s[1..] + [b];
      FirstOfAppend(s[1..], b, h);
    }
  }

  /** Deduplicating keeps the first block of every height. */
  lemma {:induction false} UniqKeepsFirst(s: seq<Block>, h: int)
    ensures First(UniqByHeight(s), h) == First(s, h)
  {
    if s != [] {
      var init, last := s[..|s| - 1], s[|s| - 1];
      assert s == init + [last];
      UniqKeepsFirst(init, h);
      FirstOfAppend(init, last, h);
      FirstOfAppend(UniqByHeight(init), last, h);
      if First(UniqByHeight(init), h).None? && last.header.height == h {
        assert !HasHeight(UniqByHeight(init), h);
      }
    }
  }

  /** The blocks offered to the storage: ascending, and of every height received the latest. */
  function Offered(queue: seq<Block>): seq<Block> {
    SortByHeight(UniqByHeight(Reversed(queue)))
  }

  lemma FirstIfOnly(s: seq<Block>, b: Block)
    requires forall i, j :: 0 <= i < j < |s| ==> s[i].header.height != s[j].header.height
    ensures b in s <==> First(s, b.header.height) == Some(b)
  {
    if b in s {
      var f := First(s, b.header.height).value;
      var i :| 0 <= i < |s| && s[i] == b;
      var j :| 0 <= j < |s| && s[j] == f;
    }
  }

  lemma OfferedIsLatest(queue: seq<Block>)
    ensures Ascending(Offered(queue))
    ensures forall b :: b in Offered(queue) <==> Latest(queue, b.header.height) == Some(b)
  {
    var unique := UniqByHeight(Reversed(queue));
    SortAscending(unique);
    forall b: Block
      ensures b in Offered(queue) <==> Latest(queue, b.header.height) == Some(b)
    {
      FirstOfReversed(queue, b.header.height);
      UniqKeepsFirst(Reversed(queue), b.header.height);
      FirstIfOnly(unique, b);
    }
  }

  // The run of blocks that link up

  /** The block the queue has for the next height, if the storage takes it and the pool acknowledges it. */
  function Next(rules: Rules, reports: Block -> bool, chain: seq<Block>, queue: seq<Block>): Option<Block> {
    var b := Latest(queue, |chain|);
    if b.Some? && Objection(rules, chain, b.value).None? && reports(b.value) then b else None
  }

  /** How many heights the queue still has at h or above. */
  function HeightsFrom(queue: seq<Block>, h: int): nat {
    if queue == [] then 0
    else HeightsFrom(queue[..|queue| - 1], h) + if queue[|queue| - 1].header.height >= h then 1 else 0
  }

  lemma {:induction false} FewerHeights(queue: seq<Block>, h: int)
    ensures HeightsFrom(queue, h + 1) <= HeightsFrom(queue, h)
    ensures Latest(queue, h).Some? ==> HeightsFrom(queue, h + 1) < HeightsFrom(queue, h)
  {
    if queue != [] {
      FewerHeights(queue[..|queue| - 1], h);
    }
  }

  /** The longest run of received blocks that link up with the chain. */
  function LinkingRun(rules: Rules, reports: Block -> bool, chain: seq<Block>, queue: seq<Block>): seq<Block>
    decreases HeightsFrom(queue, |chain|)
  {
    match Next(rules, reports, chain, queue)
    case None => []
    case Some(b) =>
      FewerHeights(queue, |chain|);
      [b] + LinkingRun(rules, reports, chain + [b], queue)
  }

  lemma AcceptedGrows(rules: Rules, chain: seq<Block>, block: Block)
    requires Linked(rules.hash, chain) && Objection(rules, chain, block).None?
    ensures Linked(rules.hash, chain + [block]) && block.header.height == |chain|
  {
    LinkedGrows(rules.hash, chain, block);
  }

  lemma {:induction false} RunLinks(rules: Rules, reports: Block -> bool, chain: seq<Block>, queue: seq<Block>)
    requires Linked(rules.hash, chain)
    ensures Linked(rules.hash, chain + LinkingRun(rules, reports, chain, queue))
    decreases HeightsFrom(queue, |chain|)
  {
    match Next(rules, reports, chain, queue)
    case None =>
      assert chain + [] == chain;
    case Some(b) =>
      FewerHeights(queue, |chain|);
      AcceptedGrows(rules, chain, b);
      RunLinks(rules, reports, chain + [b], queue);
      var rest := LinkingRun(rules, reports, chain + [b], queue);
      assert chain + ([b] + rest) == chain + [b] + rest;
  }

  /** Nothing received could follow the run. */
  lemma {:induction false} RunIsMaximal(rules: Rules, reports: Block -> bool, chain: seq<Block>, queue: seq<Block>)
    ensures Next(rules, reports, chain + LinkingRun(rules, reports, chain, queue), queue) == None
    decreases HeightsFrom(queue, |chain|)
  {
    match Next(rules, reports, chain, queue)
    case None =>
      assert chain + [] == chain;
    case Some(b) =>
      FewerHeights(queue, |chain|);
      RunIsMaximal(rules, reports, chain + [b], queue);
      var rest := LinkingRun(rules, reports, chain + [b], queue);
      assert chain + ([b] + rest) == chain + [b] + rest;
  }

  /** Every block of the run was the latest received for its height and was taken on the chain so far. */
  lemma {:induction false} RunIsTaken(rules: Rules, reports: Block -> bool, chain: seq<Block>, queue: seq<Block>,
                                      i: nat)
    requires i < |LinkingRun(rules, reports, chain, queue)|
    ensures var run := LinkingRun(rules, reports, chain, queue);
            Next(rules, reports, chain + run[..i], queue) == Some(run[i])
    decreases i
  {
    var run := LinkingRun(rules, reports, chain, queue);
    var b := Next(rules, reports, chain, queue).value;
    if i == 0 {
      assert chain + run[..0] == chain;
    } else {
      RunIsTaken(rules, reports, chain + [b], queue, i - 1);
      assert chain + run[..i] == chain + [b] + run[1..][..i - 1];
    }
  }

  /** A segment the storage would take block after block. */
  ghost predicate Follows(rules: Rules, reports: Block -> bool, chain: seq<Block>, segment: seq<Block>) {
    && chain != []
    && forall i :: 0 <= i < |segment| ==>
         Objection(rules, chain + segment[..i], segment[i]).None? && reports(segment[i])
  }

  /** The queue holds the segment in some order, repeated at will, among blocks already stored or too far ahead. */
  ghost predicate Delivers(queue: seq<Block>, chain: seq<Block>, segment: seq<Block>) {
    && (forall b :: b in segment ==> b in queue)
    && (forall b :: b in queue && |chain| <= b.header.height <= |chain| + |segment| ==> b in segment)
  }

  lemma {:induction false} SegmentLinked(rules: Rules, reports: Block -> bool, chain: seq<Block>, segment: seq<Block>,
                                         i: nat)
    requires Linked(rules.hash, chain) && Follows(rules, reports, chain, segment) && i <= |segment|
    ensures Linked(rules.hash, chain + segment[..i])
    ensures i < |segment| ==> segment[i].header.height == |chain| + i
  {
    if i == 0 {
      assert chain + segment[..0] == chain;
    } else {
      SegmentLinked(rules, reports, chain, segment, i - 1);
      AcceptedGrows(rules, chain + segment[..i - 1], segment[i - 1]);
      assert chain + segment[..i] == chain + segment[..i - 1] + [segment[i - 1]];
    }
    if i < |segment| {
      AcceptedGrows(rules, chain + segment[..i], segment[i]);
    }
  }

  lemma RestFollows(rules: Rules, reports: Block -> bool, chain: seq<Block>, segment: seq<Block>)
    requires Follows(rules, reports, chain, segment) && segment != []
    ensures Follows(rules, reports, chain + [segment[0]], segment[1..])
  {
    var chain', rest := chain + [segment[0]], segment[1..];
    forall i | 0 <= i < |rest|
      ensures Objection(rules, chain' + rest[..i], rest[i]).None? && reports(rest[i])
    {
      assert chain' + rest[..i] == chain + segment[..i + 1];
    }
  }

  lemma RestDelivers(queue: seq<Block>, chain: seq<Block>, segment: seq<Block>, b: Block)
    requires segment != [] && Delivers(queue, chain, segment)
    requires forall i :: 0 <= i < |segment| ==> segment[i].header.height == |chain| + i
    ensures Delivers(queue, chain + [b], segment[1..])
    ensures Latest(queue, |chain|) == Some(segment[0])
  {
    var rest := segment[1..];
    forall b | b in queue && |chain| + 1 <= b.header.height <= |chain| + 1 + |rest|
      ensures b in rest
    {
      var i :| 0 <= i < |segment| && segment[i] == b;
      assert rest[i - 1] == b;
    }
    assert segment[0] in queue;
    var latest := Latest(queue, |chain|);
    var i :| 0 <= i < |segment| && segment[i] == latest.value;
  }

  lemma SegmentHeights(rules: Rules, reports: Block -> bool, chain: seq<Block>, segment: seq<Block>)
    requires Linked(rules.hash, chain) && Follows(rules, reports, chain, segment)
    ensures forall i :: 0 <= i < |segment| ==> segment[i].header.height == |chain| + i
  {
    forall i | 0 <= i < |segment|
      ensures segment[i].header.height == |chain| + i
    {
      SegmentLinked(rules, reports, chain, segment, i);
    }
  }

  /** The next block taken out of the queue is the first one of the segment, and the rest remains to be taken. */
  lemma FirstIsNext(rules: Rules, reports: Block -> bool, chain: seq<Block>, segment: seq<Block>, queue: seq<Block>)
    requires Linked(rules.hash, chain) && Follows(rules, reports, chain, segment) && Delivers(queue, chain, segment)
    requires segment != []
    ensures var chain' := chain + [segment[0]];
            && Next(rules, reports, chain, queue) == Some(segment[0])
            && Linked(rules.hash, chain')
            && Follows(rules, reports, chain', segment[1..])
            && Delivers(queue, chain', segment[1..])
  {
    assert chain + segment[..0] == chain;
    AcceptedGrows(rules, chain, segment[0]);
    SegmentHeights(rules, reports, chain, segment);
    RestFollows(rules, reports, chain, segment);
    RestDelivers(queue, chain, segment, segment[0]);
  }

  /**
   The order of arrival does not matter: every queue that holds a valid segment leads to the chain
   extended by exactly that segment.
   */
  lemma {:induction false} AnyOrderSameRun(rules: Rules, reports: Block -> bool, chain: seq<Block>, segment: seq<Block>,
                                           queue: seq<Block>)
    requires Linked(rules.hash, chain) && Follows(rules, reports, chain, segment) && Delivers(queue, chain, segment)
    ensures LinkingRun(rules, reports, chain, queue) == segment
    decreases |segment|
  {
    if segment == [] {
      assert Latest(queue, |chain|).None?;
    } else {
      FirstIsNext(rules, reports, chain, segment, queue);
      AnyOrderSameRun(rules, reports, chain + [segment[0]], segment[1..], queue);
      assert segment == [segment[0]] + segment[1..];
    }
  }

  // Offering the blocks

  /** The storage after some of the offered blocks: either past all of them, or stuck. */
  ghost predicate Progress(rules: Rules, reports: Block -> bool, start: seq<Block>, chain: seq<Block>,
                           queue: seq<Block>, offered: seq<Block>, i: nat)
    requires i <= |offered|
  {
    && Linked(rules.hash, chain)
    && chain + LinkingRun(rules, reports, chain, queue) == start + LinkingRun(rules, reports, start, queue)
    && (Next(rules, reports, chain, queue) == None || forall j :: 0 <= j < i ==> offered[j].header.height < |chain|)
  }

  lemma OfferTaken(rules: Rules, reports: Block -> bool, start: seq<Block>, chain: seq<Block>, queue: seq<Block>,
                   offered: seq<Block>, i: nat)
    requires i < |offered| && Ascending(offered) && Latest(queue, offered[i].header.height) == Some(offered[i])
    requires Progress(rules, reports, start, chain, queue, offered, i)
    requires Objection(rules, chain, offered[i]).None? && reports(offered[i])
    ensures Progress(rules, reports, start, chain + [offered[i]], queue, offered, i + 1)
  {
    var b := offered[i];
    AcceptedGrows(rules, chain, b);
    assert Next(rules, reports, chain, queue) == Some(b);
    var rest := LinkingRun(rules, reports, chain + [b], queue);
    assert chain + ([b] + rest) == chain + [b] + rest;
    forall j | 0 <= j < i + 1
      ensures offered[j].header.height < |chain + [b]|
    {
    }
  }

  lemma OfferRefused(rules: Rules, reports: Block -> bool, start: seq<Block>, chain: seq<Block>, queue: seq<Block>,
                     offered: seq<Block>, i: nat)
    requires offered == Offered(queue) && i < |offered|
    requires Progress(rules, reports, start, chain, queue, offered, i)
    requires Next(rules, reports, chain, queue) != Some(offered[i])
    ensures Progress(rules, reports, start, chain, queue, offered, i + 1)
  {
    var next := Next(rules, reports, chain, queue);
    if next.Some? {
      OfferedIsLatest(queue);
      assert next.value in offered;
      var j :| 0 <= j < |offered| && offered[j] == next.value;
    }
  }

  lemma OfferOne(rules: Rules, reports: Block -> bool, start: seq<Block>, chain: seq<Block>, queue: seq<Block>,
                 offered: seq<Block>, i: nat)
    requires offered == Offered(queue) && i < |offered|
    requires Progress(rules, reports, start, chain, queue, offered, i)
    ensures var taken := Objection(rules, chain, offered[i]).None? && reports(offered[i]);
            Progress(rules, reports, start, if taken then chain + [offered[i]] else chain, queue, offered, i + 1)
  {
    OfferedIsLatest(queue);
    var b := offered[i];
    assert b in offered;
    if Objection(rules, chain, b).None? && reports(b) {
      OfferTaken(rules, reports, start, chain, queue, offered, i);
    } else {
      OfferRefused(rules, reports, start, chain, queue, offered, i);
    }
  }

  lemma OfferedAll(rules: Rules, reports: Block -> bool, start: seq<Block>, chain: seq<Block>, queue: seq<Block>,
                   offered: seq<Block>)
    requires offered == Offered(queue)
    requires Progress(rules, reports, start, chain, queue, offered, |offered|)
    ensures chain == start + LinkingRun(rules, reports, start, queue)
  {
    OfferedIsLatest(queue);
    var latest := Latest(queue, |chain|);
    assert latest.Some? ==> latest.value in offered;
    assert chain + [] == chain;
  }

  /** Adding the first i blocks one after another; `reports` says which ones the pool acknowledges. */
  function AddFirst(rules: Rules, reports: Block -> bool, d: Disk, blocks: seq<Block>, i: nat): Disk
    requires i <= |blocks|
  {
    if i == 0 then d
    else Added(rules, AddFirst(rules, reports, d, blocks, i - 1), blocks[i - 1], reports(blocks[i - 1]))
  }

  function AddAll(rules: Rules, reports: Block -> bool, d: Disk, blocks: seq<Block>): Disk {
    AddFirst(rules, reports, d, blocks, |blocks|)
  }

  lemma AddFirstNext(rules: Rules, reports: Block -> bool, d: Disk, blocks: seq<Block>, i: nat)
    requires i < |blocks|
    ensures AddFirst(rules, reports, d, blocks, i + 1) ==
            Added(rules, AddFirst(rules, reports, d, blocks, i), blocks[i], reports(blocks[i]))
  {
  }

  /** What holds before any block is added and is kept by each of them holds in the end. */
  lemma {:induction false} AddFirstKeeps(rules: Rules, reports: Block -> bool, d: Disk, blocks: seq<Block>, i: nat,
                                         P: (Disk, nat) -> bool)
    requires i <= |blocks| && P(d, 0)
    requires forall x: Disk, k: nat :: k < |blocks| && P(x, k) ==>
               P(Added(rules, x, blocks[k], reports(blocks[k])), k + 1)
    ensures P(AddFirst(rules, reports, d, blocks, i), i)
  {
    if i > 0 {
      AddFirstKeeps(rules, reports, d, blocks, i - 1, P);
      assert P(AddFirst(rules, reports, d, blocks, i - 1), i - 1);
    }
  }

  lemma AddedOneMore(rules: Rules, reports: Block -> bool, start: seq<Block>, before: Disk, queue: seq<Block>,
                     offered: seq<Block>, i: nat)
    requires offered == Offered(queue) && i < |offered|
    requires Sane(rules, before) && Progress(rules, reports, start, Visible(before), queue, offered, i)
    ensures var after := Added(rules, before, offered[i], reports(offered[i]));
            Sane(rules, after) && Progress(rules, reports, start, Visible(after), queue, offered, i + 1)
  {
    AddedKeepsSane(rules, before, offered[i], reports(offered[i]));
    OfferOne(rules, reports, start, Visible(before), queue, offered, i);
  }

  lemma AddedAll(rules: Rules, reports: Block -> bool, d: Disk, queue: seq<Block>, offered: seq<Block>)
    requires Sane(rules, d) && offered == Offered(queue)
    ensures var now := AddAll(rules, reports, d, offered);
            Sane(rules, now) && Progress(rules, reports, Visible(d), Visible(now), queue, offered, |offered|)
  {
    ghost var P := (x: Disk, k: nat) =>
      k <= |offered| && Sane(rules, x) && Progress(rules, reports, Visible(d), Visible(x), queue, offered, k);
    VisibleIsLinked(rules, d);
    forall x: Disk, k: nat | k < |offered| && P(x, k)
      ensures P(Added(rules, x, offered[k], reports(offered[k])), k + 1)
    {
      AddedOneMore(rules, reports, Visible(d), x, queue, offered, k);
    }
    AddFirstKeeps(rules, reports, d, offered, |offered|, P);
  }

  /** Offering the queue's blocks to a storage grows its chain by the longest linking run. */
  lemma OfferedRun(rules: Rules, reports: Block -> bool, d: Disk, queue: seq<Block>)
    requires Sane(rules, d)
    ensures var after := AddAll(rules, reports, d, Offered(queue));
            Sane(rules, after) && Visible(after) == Visible(d) + LinkingRun(rules, reports, Visible(d), queue)
  {
    var offered := Offered(queue);
    AddedAll(rules, reports, d, queue, offered);
    OfferedAll(rules, reports, Visible(d), Visible(AddAll(rules, reports, d, offered)), queue, offered);
  }

  /** Moving an array to the end of another, last element first. */
  method CopyArray(source: seq<Block>, destination: seq<Block>) returns (source': seq<Block>, destination': seq<Block>)
    ensures source' == [] && destination' == destination + Reversed(source)
  {
    source', destination' := source, destination;
    while |source'| > 0
      invariant destination' + Reversed(source') == destination + Reversed(source)
    {
      var popped := source'[|source'| - 1];
      source' := source'[..|source'| - 1];
      destination' := destination' + [popped];
    }
  }

  class BlockStorageSync {
    const blockStorage: BlockStorage
    var queue: seq<Block>
    var node: Option<string>

    constructor (blockStorage: BlockStorage)
      ensures this.blockStorage == blockStorage && queue == [] && node == None
    {
      this.blockStorage, queue, node := blockStorage, [], None;
    }

    method OnReceiveBlock(block: Block)
      modifies this`queue
      ensures queue == old(queue) + [block]
    {
      queue := queue + [block];
    }

    /** The loop of `AppendBlocks`: a block that is refused is skipped. */
    method AddBlocks(sortedBlocks: seq<Block>, reports: Block -> bool)
      requires blockStorage.Valid()
      modifies blockStorage
      ensures blockStorage.Valid()
      ensures blockStorage.State() == AddAll(blockStorage.rules, reports, old(blockStorage.State()), sortedBlocks)
    {
      ghost var before, rules := blockStorage.State(), blockStorage.rules;
      for i := 0 to |sortedBlocks|
        invariant blockStorage.Valid()
        invariant blockStorage.State() == AddFirst(rules, reports, before, sortedBlocks, i)
      {
        AddFirstNext(rules, reports, before, sortedBlocks, i);
        var error := blockStorage.AddBlock(sortedBlocks[i], reports(sortedBlocks[i]));
      }
    }

    /** Grows the storage by the longest linking run and leaves nothing in the queue. */
    method AppendBlocks(reports: Block -> bool)
      requires blockStorage.Valid()
      modifies this`queue, blockStorage
      ensures blockStorage.Valid() && queue == []
      ensures blockStorage.State() ==
              AddAll(blockStorage.rules, reports, old(blockStorage.State()), Offered(old(queue)))
      ensures blockStorage.Chain() ==
              old(blockStorage.Chain()) + LinkingRun(blockStorage.rules, reports, old(blockStorage.Chain()), old(queue))
    {
      ghost var received := queue;
      OfferedRun(blockStorage.rules, reports, blockStorage.State(), received);
      var data: seq<Block> := [];
      queue, data := CopyArray(queue, data);
      assert data == Reversed(received);
      var uniqueBlocks := UniqByHeight(data);
      var sortedBlocks := SortByHeight(uniqueBlocks);
      AddBlocks(sortedBlocks, reports);
    }

    method GetQueueSize() returns (size: nat)
      ensures size == |queue|
    {
      size := |queue|;
    }

    predicate IsSyncing()
      reads this
    {
      node.Some?
    }

    predicate IsSyncingWith(peer: string)
      reads this
    {
      node == Some(peer)
    }

    method On(peer: string)
      modifies this`node
      ensures IsSyncingWith(peer)
    {
      node := Some(peer);
    }

    method Off()
      modifies this`node
      ensures !IsSyncing()
    {
      node := None;
    }
  }
}
