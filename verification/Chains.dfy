/**
 Chains of blocks linked by the hash of the block before.  The hash covers header and body, not the
 signature; it is a parameter, and where agreement is claimed the alternative is a collision.
 */
module Chains {
  import opened Wrappers
  import opened Types

  type HashFunction = (BlockHeader, BlockBody) -> seq<Byte>

  function CalculateBlockHash(hash: HashFunction, block: Block): seq<Byte> {
    hash(block.header, block.body)
  }

  function BuildBlock(header: BlockHeader, body: BlockBody): Block {
    Block(header, body, BlockSignatureData([], "none"))
  }

  function BuildNextBlock(hash: HashFunction, body: BlockBody, prevBlock: Option<Block>): Block {
    match prevBlock
    case Some(prev) => BuildBlock(BlockHeader(0, CalculateBlockHash(hash, prev), prev.header.height + 1), body)
    case None => BuildBlock(BlockHeader(0, [], 0), body)
  }

  function SignBlock(block: Block, signature: seq<Byte>, nodeName: string): Block {
    block.(signatureData := BlockSignatureData(signature, nodeName))
  }

  function GenesisBlock(hash: HashFunction): Block {
    BuildNextBlock(hash, BlockBody([], [], []), None)
  }

  /** The genesis block: nothing before it, nothing in it, nobody's signature. */
  lemma GenesisIsEmpty(hash: HashFunction)
    ensures GenesisBlock(hash) == Block(BlockHeader(0, [], 0), BlockBody([], [], []), BlockSignatureData([], "none"))
  {
  }

  /** The next block: version 0, the hash of the block before and the height after it. */
  lemma NextBlockNamesLast(hash: HashFunction, body: BlockBody, last: Block)
    ensures BuildNextBlock(hash, body, Some(last)) ==
            Block(BlockHeader(0, hash(last.header, last.body), last.header.height + 1), body,
                  BlockSignatureData([], "none"))
  {
  }

  /** Heights without a gap from the genesis block on, and every block naming the one before. */
  ghost predicate Linked(hash: HashFunction, chain: seq<Block>) {
    && (chain != [] ==> chain[0] == GenesisBlock(hash))
    && (forall i :: 0 <= i < |chain| ==> chain[i].header.height == i)
    && (forall i :: 0 < i < |chain| ==> chain[i].header.prevBlockHash == CalculateBlockHash(hash, chain[i - 1]))
  }

  /** The block continues the chain. */
  predicate Continues(hash: HashFunction, chain: seq<Block>, block: Block) {
    && chain != []
    && block.header.height == chain[|chain| - 1].header.height + 1
    && block.header.prevBlockHash == CalculateBlockHash(hash, chain[|chain| - 1])
  }

  lemma LinkedGrows(hash: HashFunction, chain: seq<Block>, block: Block)
    requires Linked(hash, chain) && Continues(hash, chain, block)
    ensures Linked(hash, chain + [block]) && block.header.height == |chain|
  {
  }

  lemma LinkedPrefix(hash: HashFunction, chain: seq<Block>, n: nat)
    requires Linked(hash, chain) && n <= |chain|
    ensures Linked(hash, chain[..n])
  {
  }

  lemma NextBlockContinues(hash: HashFunction, chain: seq<Block>, body: BlockBody)
    requires chain != []
    ensures Continues(hash, chain, BuildNextBlock(hash, body, Some(chain[|chain| - 1])))
  {
  }

  /** Same header and body: what the hash is meant to identify. */
  predicate SameContent(a: Block, b: Block) {
    a.header == b.header && a.body == b.body
  }

  ghost predicate Collide(hash: HashFunction, a: Block, b: Block) {
    !SameContent(a, b) && CalculateBlockHash(hash, a) == CalculateBlockHash(hash, b)
  }

  /**
   Two chains with equal hashes at a height agree on every header and body up to that height, or
   else they hold two blocks of equal height on which the hash collides.
   */
  lemma {:induction false} Agreement(hash: HashFunction, a: seq<Block>, b: seq<Block>, h: nat)
    requires Linked(hash, a) && Linked(hash, b) && h < |a| && h < |b|
    requires CalculateBlockHash(hash, a[h]) == CalculateBlockHash(hash, b[h])
    ensures (forall i :: 0 <= i <= h ==> SameContent(a[i], b[i]))
         || (exists i :: 0 <= i <= h && Collide(hash, a[i], b[i]))
  {
    if SameContent(a[h], b[h]) {
      if h > 0 {
        Agreement(hash, a, b, h - 1);
      }
    } else {
      assert Collide(hash, a[h], b[h]);
    }
  }
}
