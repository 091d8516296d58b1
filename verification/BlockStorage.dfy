/**
 The block storage: a database of blocks by height with the height of the last one, and the last
 block in memory.  Adding a block writes the database first, then reports the block's transactions
 to the pool, and only then moves the last block; when the report fails, the database is one block
 ahead of memory.
 */
module BlockStorages {
  import opened Wrappers
  import opened Types
  import opened Chains
  import opened Paging

  datatype AddError =
    | NotLoaded
    | InvalidSignature
    | InvalidVersion
    | InvalidHeight
    | InvalidPrevBlockHash
    | ReportFailed

  /** What does not change: the hash, and which blocks pass the signature check (all, if it is off). */
  datatype Rules = Rules(hash: HashFunction, signed: Block -> bool)

  /** The blocks in the database, and how many of them memory knows of: none before loading. */
  datatype Disk = Disk(stored: seq<Block>, visible: nat)

  function Visible(d: Disk): seq<Block> {
    if d.visible <= |d.stored| then d.stored[..d.visible] else d.stored
  }

  /** Why a block would not be appended to the chain, first reason first. */
  function Objection(rules: Rules, chain: seq<Block>, block: Block): Option<AddError> {
    if !rules.signed(block) then Some(InvalidSignature)
    else if block.header.version != 0 then Some(InvalidVersion)
    else if chain == [] then Some(NotLoaded)
    else if block.header.height != chain[|chain| - 1].header.height + 1 then Some(InvalidHeight)
    else
      var lastBlockHash := CalculateBlockHash(rules.hash, chain[|chain| - 1]);
      if block.header.prevBlockHash != lastBlockHash then Some(InvalidPrevBlockHash) else None
  }

  function Loaded(rules: Rules, d: Disk): Disk {
    if d.stored == [] then Disk([GenesisBlock(rules.hash)], 1) else Disk(d.stored, |d.stored|)
  }

  function Added(rules: Rules, d: Disk, block: Block, reported: bool): Disk {
    var chain := Visible(d);
    if Objection(rules, chain, block).Some? then d
    else Disk(chain + [block], if reported then |chain| + 1 else |chain|)
  }

  /** The database is a linked chain, and memory is at most one block behind it. */
  ghost predicate Sane(rules: Rules, d: Disk) {
    Linked(rules.hash, d.stored) && (d.visible == 0 || d.visible <= |d.stored| <= d.visible + 1)
  }

  lemma AddedKeepsSane(rules: Rules, d: Disk, block: Block, reported: bool)
    requires Sane(rules, d)
    ensures Sane(rules, Added(rules, d, block, reported))
    ensures Visible(Added(rules, d, block, reported)) ==
            if Objection(rules, Visible(d), block).None? && reported then Visible(d) + [block] else Visible(d)
  {
    var chain := Visible(d);
    LinkedPrefix(rules.hash, d.stored, |chain|);
    if Objection(rules, chain, block).None? {
      LinkedGrows(rules.hash, chain, block);
    }
  }

  // Runs

  datatype Operation = Load | Add(block: Block, reported: bool)

  function DiskStep(rules: Rules, d: Disk, op: Operation): Disk {
    match op
    case Load => Loaded(rules, d)
    case Add(block, reported) => Added(rules, d, block, reported)
  }

  function RunOps(rules: Rules, d: Disk, ops: seq<Operation>): Disk {
    if ops == [] then d else DiskStep(rules, RunOps(rules, d, ops[..|ops| - 1]), ops[|ops| - 1])
  }

  lemma VisibleIsLinked(rules: Rules, d: Disk)
    requires Sane(rules, d)
    ensures Linked(rules.hash, Visible(d))
  {
    LinkedPrefix(rules.hash, d.stored, |Visible(d)|);
  }

  lemma DiskStepKeepsSane(rules: Rules, d: Disk, op: Operation)
    requires Sane(rules, d)
    ensures Sane(rules, DiskStep(rules, d, op)) && Visible(d) <= Visible(DiskStep(rules, d, op))
  {
    match op
    case Load =>
    case Add(block, reported) => AddedKeepsSane(rules, d, block, reported);
  }

  /**
   Over every run of loads and of added or rejected blocks, the chain in memory stays linked from
   the genesis block on and only ever grows at its end: no block in it changes.
   */
  lemma {:induction false} ChainOnlyGrows(rules: Rules, d: Disk, ops: seq<Operation>)
    requires Sane(rules, d)
    ensures Sane(rules, RunOps(rules, d, ops))
    ensures Linked(rules.hash, Visible(RunOps(rules, d, ops)))
    ensures Visible(d) <= Visible(RunOps(rules, d, ops))
  {
    if ops != [] {
      var n := |ops| - 1;
      ChainOnlyGrows(rules, d, ops[..n]);
      DiskStepKeepsSane(rules, RunOps(rules, d, ops[..n]), ops[n]);
    }
    VisibleIsLinked(rules, RunOps(rules, d, ops));
  }

  /** Every block but the genesis block carries a valid signature, and all have version 0. */
  ghost predicate AllChecked(rules: Rules, chain: seq<Block>) {
    && (forall i :: 0 < i < |chain| ==> rules.signed(chain[i]))
    && (forall i :: 0 <= i < |chain| ==> chain[i].header.version == 0)
  }

  lemma AddedKeepsChecked(rules: Rules, d: Disk, block: Block, reported: bool)
    requires AllChecked(rules, d.stored)
    ensures AllChecked(rules, Added(rules, d, block, reported).stored)
  {
  }

  /** Over every run that begins with an empty database, no block that fails a check is ever stored. */
  lemma {:induction false} StoredAreChecked(rules: Rules, ops: seq<Operation>)
    ensures AllChecked(rules, RunOps(rules, Disk([], 0), ops).stored)
  {
    if ops != [] {
      var n := |ops| - 1;
      StoredAreChecked(rules, ops[..n]);
      match ops[n]
      case Load =>
      case Add(block, reported) => AddedKeepsChecked(rules, RunOps(rules, Disk([], 0), ops[..n]), block, reported);
    }
  }

  /** After a load everything stored is in memory, and something is. */
  lemma LoadShowsStored(rules: Rules, d: Disk)
    ensures Visible(Loaded(rules, d)) == Loaded(rules, d).stored != []
    ensures d.stored <= Loaded(rules, d).stored
    ensures d.stored != [] ==> Loaded(rules, d).stored == d.stored
  {
  }

  /** Which objection is raised: the first of the checks that fails, in the order of the code. */
  lemma ObjectionIsFirst(rules: Rules, chain: seq<Block>, block: Block)
    requires chain != []
    ensures var last := chain[|chain| - 1];
            var signed, current := rules.signed(block), block.header.version == 0;
            var follows, linked := block.header.height == last.header.height + 1,
                                   block.header.prevBlockHash == rules.hash(last.header, last.body);
            var objection := Objection(rules, chain, block);
            && (objection == Some(InvalidSignature) <==> !signed)
            && (objection == Some(InvalidVersion) <==> signed && !current)
            && (objection == Some(InvalidHeight) <==> signed && current && !follows)
            && (objection == Some(InvalidPrevBlockHash) <==> signed && current && follows && !linked)
            && (objection == None <==> signed && current && follows && linked)
  {
  }

  /** The block is written over another one, whose report failed. */
  predicate Overwrites(rules: Rules, d: Disk, op: Operation) {
    && op.Add?
    && Objection(rules, Visible(d), op.block).None?
    && d.stored != Visible(d)
    && d.stored != Visible(d) + [op.block]
  }

  /** A step keeps all that is stored exactly when it does not write over an unreported block. */
  lemma StoredIsKeptIff(rules: Rules, d: Disk, op: Operation)
    requires Sane(rules, d)
    ensures d.stored <= DiskStep(rules, d, op).stored <==> !Overwrites(rules, d, op)
  {
    if op.Add? && Objection(rules, Visible(d), op.block).None? {
      var chain := Visible(d);
      assert d.visible == |chain| && chain <= d.stored;
      assert |d.stored| == |chain| ==> d.stored == chain;
      assert d.stored <= chain + [op.block] && |d.stored| == |chain| + 1 ==> d.stored == chain + [op.block];
    }
  }

  /** What the database holds after the first i operations. */
  function StoredAfter(rules: Rules, d: Disk, ops: seq<Operation>, i: nat): seq<Block>
    requires i <= |ops|
  {
    RunOps(rules, d, ops[..i]).stored
  }

  predicate OverwritesAt(rules: Rules, d: Disk, ops: seq<Operation>, i: nat)
    requires i < |ops|
  {
    Overwrites(rules, RunOps(rules, d, ops[..i]), ops[i])
  }

  /** What is stored grows at its end only, from every moment of a run to every later one. */
  ghost predicate StoredOnlyGrows(rules: Rules, d: Disk, ops: seq<Operation>) {
    forall i, j :: 0 <= i <= j <= |ops| ==> StoredAfter(rules, d, ops, i) <= StoredAfter(rules, d, ops, j)
  }

  ghost predicate NeverOverwrites(rules: Rules, d: Disk, ops: seq<Operation>) {
    forall i :: 0 <= i < |ops| ==> !OverwritesAt(rules, d, ops, i)
  }

  lemma StoredGrowsOnceIff(rules: Rules, d: Disk, ops: seq<Operation>, i: nat)
    requires Sane(rules, d) && i < |ops|
    ensures StoredAfter(rules, d, ops, i) <= StoredAfter(rules, d, ops, i + 1) <==> !OverwritesAt(rules, d, ops, i)
  {
    ChainOnlyGrows(rules, d, ops[..i]);
    assert ops[..i + 1][..i] == ops[..i];
    StoredIsKeptIff(rules, RunOps(rules, d, ops[..i]), ops[i]);
  }

  lemma {:induction false} StoredGrowsBetween(rules: Rules, d: Disk, ops: seq<Operation>, i: nat, j: nat)
    requires Sane(rules, d) && NeverOverwrites(rules, d, ops) && i <= j <= |ops|
    ensures StoredAfter(rules, d, ops, i) <= StoredAfter(rules, d, ops, j)
    decreases j
  {
    if i < j {
      StoredGrowsBetween(rules, d, ops, i, j - 1);
      StoredGrowsOnceIff(rules, d, ops, j - 1);
    }
  }

  /**
   Over every run, no block once stored is ever lost or changed if and only if no block is added over
   another one that the pool has not acknowledged.
   */
  lemma {:induction false} StoredOnlyGrowsIff(rules: Rules, d: Disk, ops: seq<Operation>)
    requires Sane(rules, d)
    ensures StoredOnlyGrows(rules, d, ops) <==> NeverOverwrites(rules, d, ops)
  {
    if NeverOverwrites(rules, d, ops) {
      forall i, j | 0 <= i <= j <= |ops|
        ensures StoredAfter(rules, d, ops, i) <= StoredAfter(rules, d, ops, j)
      {
        StoredGrowsBetween(rules, d, ops, i, j);
      }
    } else {
      var i :| 0 <= i < |ops| && OverwritesAt(rules, d, ops, i);
      StoredGrowsOnceIff(rules, d, ops, i);
    }
  }

  /** The input on which a stored block is lost: a failed report, and then another block. */
  lemma UnreportedBlockIsReplaced(rules: Rules, d: Disk, a: Block, b: Block)
    requires Sane(rules, d) && a != b
    requires Objection(rules, Visible(d), a).None? && Objection(rules, Visible(d), b).None?
    ensures var run := RunOps(rules, d, [Add(a, false), Add(b, true)]);
            && RunOps(rules, d, [Add(a, false)]).stored == Visible(d) + [a]
            && run.stored == Visible(run) == Visible(d) + [b]
            && !NeverOverwrites(rules, d, [Add(a, false), Add(b, true)])
  {
    var chain, one := Visible(d), [Add(a, false)];
    var two := one + [Add(b, true)];
    assert one[..0] == [] && two[..1] == one && two == [Add(a, false), Add(b, true)];
    var mid := Added(rules, d, a, false);
    assert RunOps(rules, d, one) == mid && RunOps(rules, d, two) == Added(rules, mid, b, true);
    AddedKeepsSane(rules, d, a, false);
    assert OverwritesAt(rules, d, two, 1) by {
      assert (chain + [a])[|chain|] != (chain + [b])[|chain|];
    }
  }

  // The object

  /** The database as a sequence, for a last height and the blocks stored. */
  ghost function InOrder(last: Option<int>, blocks: map<int, Block>): (r: seq<Block>)
    ensures last.Some? && last.value >= 0 && (forall i :: 0 <= i <= last.value ==> i in blocks) ==>
              |r| == last.value + 1 && forall i :: 0 <= i <= last.value ==> r[i] == blocks[i]
  {
    if last.Some? && last.value >= 0 && forall i :: 0 <= i <= last.value ==> i in blocks then
      seq(last.value + 1, i requires 0 <= i <= last.value => blocks[i])
    else []
  }

  /** What the fields of a storage stand for. */
  ghost function DiskOf(lastBlock: Option<Block>, last: Option<int>, blocks: map<int, Block>): Disk {
    Disk(InOrder(last, blocks),
         if lastBlock.Some? && lastBlock.value.header.height >= 0 then lastBlock.value.header.height + 1 else 0)
  }

  ghost predicate Consistent(rules: Rules, lastBlock: Option<Block>, last: Option<int>, blocks: map<int, Block>) {
    var d := DiskOf(lastBlock, last, blocks);
    && Sane(rules, d)
    && (last.None? ==> blocks == map[])
    && (last.Some? ==> last.value >= 0 && forall i :: i in blocks <==> 0 <= i <= last.value)
    && (lastBlock.Some? ==> d.visible > 0 && lastBlock.value == d.stored[d.visible - 1])
  }

  /** The blocks known of are those in the database, by height, up to the last one. */
  lemma VisibleIsStored(rules: Rules, lastBlock: Option<Block>, last: Option<int>, blocks: map<int, Block>)
    requires Consistent(rules, lastBlock, last, blocks)
    ensures var chain := Visible(DiskOf(lastBlock, last, blocks));
            && (lastBlock.None? <==> chain == [])
            && (lastBlock.Some? ==>
                  lastBlock.value.header.height == |chain| - 1 && lastBlock.value == chain[|chain| - 1])
            && forall h: nat :: h < |chain| ==> h in blocks && blocks[h] == chain[h]
  {
    var d := DiskOf(lastBlock, last, blocks);
    if lastBlock.Some? {
      assert d.visible == lastBlock.value.header.height + 1 <= |d.stored|;
    }
  }

  lemma InOrderAfterPut(last: int, blocks: map<int, Block>, n: nat, block: Block)
    requires 0 < n && n - 1 <= last <= n && forall i :: i in blocks <==> 0 <= i <= last
    ensures |InOrder(Some(last), blocks)| == last + 1
    ensures var after := blocks[n := block];
            && (forall i :: i in after <==> 0 <= i <= n)
            && InOrder(Some(n), after) == InOrder(Some(last), blocks)[..n] + [block]
  {
  }

  lemma PutStores(rules: Rules, lastBlock: Option<Block>, last: Option<int>, blocks: map<int, Block>, block: Block)
    requires Consistent(rules, lastBlock, last, blocks)
    requires Objection(rules, Visible(DiskOf(lastBlock, last, blocks)), block).None?
    ensures var n, after := block.header.height, blocks[block.header.height := block];
            && n == |Visible(DiskOf(lastBlock, last, blocks))|
            && (forall i :: i in after <==> 0 <= i <= n)
            && InOrder(Some(n), after) == Visible(DiskOf(lastBlock, last, blocks)) + [block]
  {
    VisibleIsStored(rules, lastBlock, last, blocks);
    var d := DiskOf(lastBlock, last, blocks);
    assert d.visible == |Visible(d)| && Visible(d) == d.stored[..d.visible];
    InOrderAfterPut(last.value, blocks, d.visible, block);
  }

  /** Writing a block nothing objects to, with the last block still the old one or already the new one. */
  lemma WriteKeepsConsistent(rules: Rules, lastBlock: Option<Block>, last: Option<int>, blocks: map<int, Block>,
                             block: Block, lastBlock': Option<Block>, reported: bool)
    requires Consistent(rules, lastBlock, last, blocks)
    requires Objection(rules, Visible(DiskOf(lastBlock, last, blocks)), block).None?
    requires lastBlock' == if reported then Some(block) else lastBlock
    ensures Consistent(rules, lastBlock', Some(block.header.height), blocks[block.header.height := block])
    ensures DiskOf(lastBlock', Some(block.header.height), blocks[block.header.height := block]) ==
            Added(rules, DiskOf(lastBlock, last, blocks), block, reported)
    ensures var chain := Visible(DiskOf(lastBlock, last, blocks));
            Visible(DiskOf(lastBlock', Some(block.header.height), blocks[block.header.height := block])) ==
            if reported then chain + [block] else chain
  {
    var d := DiskOf(lastBlock, last, blocks);
    VisibleIsStored(rules, lastBlock, last, blocks);
    PutStores(rules, lastBlock, last, blocks, block);
    AddedKeepsSane(rules, d, block, reported);
    assert d.visible == |Visible(d)|;
  }

  class BlockStorage {
    const rules: Rules
    var lastBlock: Option<Block>
    // The database: the height under the key "last", and the blocks under their heights.
    var last: Option<int>
    var blocks: map<int, Block>

    constructor (rules: Rules)
      ensures this.rules == rules && Valid() && State() == Disk([], 0)
    {
      this.rules, lastBlock, last, blocks := rules, None, None, map[];
    }

    ghost function State(): Disk
      reads this
    {
      DiskOf(lastBlock, last, blocks)
    }

    ghost predicate Valid()
      reads this
    {
      Consistent(rules, lastBlock, last, blocks)
    }

    ghost function Chain(): seq<Block>
      reads this
    {
      Visible(State())
    }

    method PutBlock(block: Block)
      modifies this`blocks
      ensures blocks == old(blocks)[block.header.height := block]
    {
      blocks := blocks[block.header.height := block];
    }

    method Load()
      requires Valid()
      modifies this
      ensures Valid() && State() == Loaded(rules, old(State()))
    {
      var lastBlockHeight: int;
      if last.Some? {
        lastBlockHeight := last.value;
      } else {
        var genesisBlock := GenesisBlock(rules.hash);
        last := Some(genesisBlock.header.height);
        PutBlock(genesisBlock);
        lastBlockHeight := genesisBlock.header.height;
      }
      lastBlock := Some(blocks[lastBlockHeight]);
      assert InOrder(last, blocks)[lastBlockHeight] == blocks[lastBlockHeight];
    }

    method VerifyNewBlock(block: Block) returns (error: Option<AddError>)
      requires Valid()
      ensures error == Objection(rules, Chain(), block)
    {
      if !rules.signed(block) {
        return Some(InvalidSignature);
      }
      if block.header.version != 0 {
        return Some(InvalidVersion);
      }
      if lastBlock.None? {
        return Some(NotLoaded);
      }
      if block.header.height != lastBlock.value.header.height + 1 {
        return Some(InvalidHeight);
      }
      var lastBlockHash := CalculateBlockHash(rules.hash, lastBlock.value);
      if block.header.prevBlockHash != lastBlockHash {
        return Some(InvalidPrevBlockHash);
      }
      return None;
    }

    /** `reported` is the pool's answer to the report of the block's transactions. */
    method AddBlock(block: Block, reported: bool) returns (error: Option<AddError>)
      requires Valid()
      modifies this
      ensures Valid() && State() == Added(rules, old(State()), block, reported)
      ensures error == match Objection(rules, old(Chain()), block)
                       case Some(e) => Some(e)
                       case None => if reported then None else Some(ReportFailed)
      ensures Chain() == if error.None? then old(Chain()) + [block] else old(Chain())
    {
      error := VerifyNewBlock(block);
      if error.Some? {
        return;
      }
      WriteKeepsConsistent(rules, lastBlock, last, blocks, block, if reported then Some(block) else lastBlock,
                           reported);
      last := Some(block.header.height);
      PutBlock(block);
      if !reported {
        return Some(ReportFailed);
      }
      lastBlock := Some(block);
    }

    /** The blocks after a height, or None (a ReferenceError) before anything is loaded. */
    method GetBlocks(fromLastBlockHeight: nat, limit: nat) returns (page: Option<seq<Block>>)
      requires Valid()
      ensures page == PageOf(Chain(), fromLastBlockHeight, limit)
    {
      VisibleIsStored(rules, lastBlock, last, blocks);
      if lastBlock.None? {
        return None;
      }
      ghost var chain := Chain();
      var height := lastBlock.value.header.height;
      var lastBlockHeight := if fromLastBlockHeight + limit >= height then height else fromLastBlockHeight + limit;
      var res: seq<Block> := [];
      var i: int := fromLastBlockHeight;
      while i < lastBlockHeight
        invariant fromLastBlockHeight <= i && |res| == i - fromLastBlockHeight
        invariant i <= lastBlockHeight || i == fromLastBlockHeight
        invariant forall m :: 0 <= m < |res| ==> res[m] == chain[fromLastBlockHeight + 1 + m]
      {
        res := res + [blocks[i + 1]];
        i := i + 1;
      }
      assert fromLastBlockHeight < lastBlockHeight ==> res == chain[fromLastBlockHeight + 1..lastBlockHeight + 1];
      page := Some(res);
    }
  }
}
