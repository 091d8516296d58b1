/**
 Stub consensus: a fixed leader builds blocks and broadcasts them; the others commit what links up
 and report their height.  The network may drop, duplicate and reorder messages.
 */
module StubConsensuses {
  import opened Wrappers
  import opened Types
  import opened Chains
  import opened BlockStorages
  import opened BlockStorageSyncs
  import opened BlockBuilders

  // The heartbeat gate

  /** The nodes whose last report is another height. */
  function Unsynced(reports: map<string, int>, height: int): set<string> {
    set n | n in reports && reports[n] != height
  }

  function InStep(reports: map<string, int>, height: int): set<string> {
    set n | n in reports && reports[n] == height
  }

  /** Enough nodes have reported, and no more than acceptable reported another height. */
  predicate EnoughSynced(reports: map<string, int>, clusterSize: nat, acceptable: nat, height: int) {
    |reports| >= clusterSize - acceptable - 1 && |Unsynced(reports, height)| <= acceptable
  }

  /** With enough reports, the gate is open exactly while no more nodes than acceptable are out of step. */
  lemma GateToleratesIff(reports: map<string, int>, clusterSize: nat, acceptable: nat, height: int, unsynced: nat)
    requires |reports| + acceptable + 1 >= clusterSize
    requires unsynced == |set n | n in reports && reports[n] != height|
    ensures EnoughSynced(reports, clusterSize, acceptable, height) <==> unsynced <= acceptable
  {
    assert Unsynced(reports, height) == set n | n in reports && reports[n] != height;
  }

  /** With fewer reports it is closed. */
  lemma GateNeedsReports(reports: map<string, int>, clusterSize: nat, acceptable: nat, height: int)
    requires |reports| + acceptable + 1 < clusterSize
    ensures !EnoughSynced(reports, clusterSize, acceptable, height)
  {
  }

  lemma GateCounts(reports: map<string, int>, clusterSize: nat, acceptable: nat, height: int)
    requires EnoughSynced(reports, clusterSize, acceptable, height)
    ensures |InStep(reports, height)| >= clusterSize - 1 - 2 * acceptable
  {
    var all := reports.Keys;
    assert all == InStep(reports, height) + Unsynced(reports, height);
  }

  class StubConsensus {
    const nodeName: string
    const leaderNodeName: string
    const clusterSize: nat
    const acceptableUnsyncedNodes: nat
    const blockBuilder: BlockBuilder
    var lastBlockHeightByNodeName: map<string, int>

    constructor (nodeName: string, leaderNodeName: string, clusterSize: nat, acceptableUnsyncedNodes: nat,
                 blockBuilder: BlockBuilder)
      ensures this.nodeName == nodeName && this.leaderNodeName == leaderNodeName && this.clusterSize == clusterSize
      ensures this.acceptableUnsyncedNodes == acceptableUnsyncedNodes && this.blockBuilder == blockBuilder
      ensures lastBlockHeightByNodeName == map[]
    {
      this.nodeName, this.leaderNodeName, this.clusterSize := nodeName, leaderNodeName, clusterSize;
      this.acceptableUnsyncedNodes, this.blockBuilder := acceptableUnsyncedNodes, blockBuilder;
      lastBlockHeightByNodeName := map[];
    }

    predicate IsLeader() {
      nodeName == leaderNodeName
    }

    method AreEnoughNodesSynced(height: int) returns (enough: bool)
      ensures enough <==> EnoughSynced(lastBlockHeightByNodeName, clusterSize, acceptableUnsyncedNodes, height)
      ensures var reports := lastBlockHeightByNodeName;
              enough <==>
              && |reports| + acceptableUnsyncedNodes + 1 >= clusterSize
              && |set n | n in reports && reports[n] != height| <= acceptableUnsyncedNodes
    {
      var reports := lastBlockHeightByNodeName;
      if |reports| < clusterSize - acceptableUnsyncedNodes - 1 {
        return false;
      }
      enough := true;
      var howManyNodesAreNotSynced := 0;
      var left := reports.Keys;
      while left != {}
        invariant left <= reports.Keys
        invariant howManyNodesAreNotSynced == |Unsynced(reports, height) - left|
        invariant enough <==> howManyNodesAreNotSynced <= acceptableUnsyncedNodes
        decreases left
      {
        var node :| node in left;
        if reports[node] != height {
          assert Unsynced(reports, height) - (left - {node}) == (Unsynced(reports, height) - left) + {node};
          howManyNodesAreNotSynced := howManyNodesAreNotSynced + 1;
        } else {
          assert Unsynced(reports, height) - (left - {node}) == Unsynced(reports, height) - left;
        }
        if howManyNodesAreNotSynced > acceptableUnsyncedNodes {
          enough := false;
        }
        left := left - {node};
      }
      assert Unsynced(reports, height) - {} == Unsynced(reports, height);
    }

    /** Starts the block builder when the gate is open, and otherwise broadcasts the last block again. */
    method OnLeaderHeartbeatTick(lastBlock: Option<Block>) returns (broadcast: Option<Block>)
      modifies blockBuilder`polling
      ensures lastBlock.None? ==> broadcast == None && blockBuilder.polling == old(blockBuilder.polling)
      ensures lastBlock.Some? ==>
                var height := lastBlock.value.header.height;
                var open := EnoughSynced(lastBlockHeightByNodeName, clusterSize, acceptableUnsyncedNodes, height);
                && broadcast == (if open then None else lastBlock)
                && blockBuilder.polling == (open || old(blockBuilder.polling))
    {
      if lastBlock.None? {
        return None;
      }
      var enough := AreEnoughNodesSynced(lastBlock.value.header.height);
      if enough {
        blockBuilder.Start();
        return None;
      }
      return lastBlock;
    }

    method OnMyLastBlockHeight(fromAddress: string, height: int)
      modifies this`lastBlockHeightByNodeName
      ensures lastBlockHeightByNodeName == old(lastBlockHeightByNodeName)[fromAddress := height]
    {
      lastBlockHeightByNodeName := lastBlockHeightByNodeName[fromAddress := height];
    }
  }

  // The cluster as a step system

  datatype Report = Report(node: string, height: int)

  datatype Config = Config(rules: Rules, signer: Signer, leader: string, clusterSize: nat, acceptable: nat)

  /**
   The block storage of every node, all block and height messages ever sent, and what the leader last
   heard.  Delivering a message leaves it where it is: it may come again, later, or never.
   */
  datatype Cluster =
    Cluster(disks: map<string, Disk>, commits: set<Block>, heights: set<Report>, reports: map<string, int>)

  datatype Event =
    | Build(body: BlockBody, reported: bool)
    | Heartbeat
    | DeliverCommit(node: string, block: Block, reported: bool)
    | DeliverHeight(report: Report)
    | Sync(node: string, queue: seq<Block>, unreported: set<Block>)
    | Reload(node: string)
    | ForgetReports

  function NextBlock(cfg: Config, chain: seq<Block>, body: BlockBody): Block {
    var last := if chain == [] then None else Some(chain[|chain| - 1]);
    Signed(cfg.rules.hash, cfg.signer, BuildNextBlock(cfg.rules.hash, body, last))
  }

  function Tip(chain: seq<Block>): set<Block> {
    if chain == [] then {} else {chain[|chain| - 1]}
  }

  function LeaderChain(cfg: Config, s: Cluster): seq<Block>
    requires cfg.leader in s.disks
  {
    Visible(s.disks[cfg.leader])
  }

  /** The leader builds a block, adds it to its own storage and broadcasts it whether or not that went through. */
  function Built(cfg: Config, s: Cluster, body: BlockBody, reported: bool): Cluster
    requires cfg.leader in s.disks
  {
    var block := NextBlock(cfg, LeaderChain(cfg, s), body);
    var after := Added(cfg.rules, s.disks[cfg.leader], block, reported);
    s.(disks := s.disks[cfg.leader := after], commits := s.commits + {block})
  }

  /** A node adds a block broadcast by the leader to its storage and reports its height. */
  function Delivered(cfg: Config, s: Cluster, node: string, block: Block, reported: bool): Cluster {
    if node == cfg.leader || node !in s.disks || block !in s.commits then s
    else
      var after := Added(cfg.rules, s.disks[node], block, reported);
      Reported(s.(disks := s.disks[node := after]), node, |Visible(after)| - 1)
  }

  function Reported(s: Cluster, node: string, height: int): Cluster {
    s.(heights := s.heights + {Report(node, height)})
  }

  /** A node appends what peers have sent it. */
  function Appended(cfg: Config, s: Cluster, node: string, queue: seq<Block>, unreported: set<Block>): Cluster {
    if node !in s.disks || !FromPeers(s, queue) then s
    else s.(disks := s.disks[node := Synchronised(cfg.rules, s.disks[node], queue, unreported)])
  }

  /** A node's storage is loaded from disk. */
  function Reloaded(cfg: Config, s: Cluster, node: string): Cluster {
    if node !in s.disks then s else s.(disks := s.disks[node := Loaded(cfg.rules, s.disks[node])])
  }

  function Step(cfg: Config, s: Cluster, e: Event): Cluster {
    if cfg.leader !in s.disks then s
    else
      match e
      case Build(body, reported) => Built(cfg, s, body, reported)
      case Heartbeat =>
        var chain := LeaderChain(cfg, s);
        if EnoughSynced(s.reports, cfg.clusterSize, cfg.acceptable, |chain| - 1) then s
        else s.(commits := s.commits + Tip(chain))
      case DeliverCommit(node, block, reported) => Delivered(cfg, s, node, block, reported)
      case DeliverHeight(report) =>
        if report in s.heights then s.(reports := s.reports[report.node := report.height]) else s
      case Sync(node, queue, unreported) => Appended(cfg, s, node, queue, unreported)
      case Reload(node) => Reloaded(cfg, s, node)
      case ForgetReports => s.(reports := map[])
  }

  /** Blocks that peers hold, which is what the block storages send each other. */
  predicate FromPeers(s: Cluster, queue: seq<Block>) {
    forall i :: 0 <= i < |queue| ==> exists n :: n in s.disks && queue[i] in Visible(s.disks[n])
  }

  /** A storage after its sync queue has been appended. */
  function Synchronised(rules: Rules, d: Disk, queue: seq<Block>, unreported: set<Block>): Disk {
    AddAll(rules, Reports(unreported), d, Offered(queue))
  }

  function Reports(unreported: set<Block>): Block -> bool {
    b => b !in unreported
  }

  function Steps(cfg: Config, s: Cluster, events: seq<Event>): Cluster {
    if events == [] then s else Step(cfg, Steps(cfg, s, events[..|events| - 1]), events[|events| - 1])
  }

  /** Every node holds the genesis block, and nothing has been sent. */
  ghost predicate Initial(cfg: Config, s: Cluster) {
    && cfg.leader in s.disks
    && (forall n :: n in s.disks ==> s.disks[n] == Disk([GenesisBlock(cfg.rules.hash)], 1))
    && s.commits == {} && s.heights == {} && s.reports == map[]
  }

  /** The leader's pool acknowledges the block built, unless nobody would take that block anyway. */
  ghost predicate LeaderKeepsUp(cfg: Config, s: Cluster, e: Event) {
    e.Build? && cfg.leader in s.disks ==>
      e.reported || !cfg.rules.signed(NextBlock(cfg, LeaderChain(cfg, s), e.body))
  }

  ghost predicate LeaderAlwaysKeepsUp(cfg: Config, s: Cluster, events: seq<Event>) {
    forall i :: 0 <= i < |events| ==> LeaderKeepsUp(cfg, Steps(cfg, s, events[..i]), events[i])
  }

  // Safety

  ghost predicate PrefixOfLeader(cfg: Config, s: Cluster) {
    && cfg.leader in s.disks
    && forall n :: n in s.disks ==> Visible(s.disks[n]) != [] && Visible(s.disks[n]) <= LeaderChain(cfg, s)
  }

  /** Every block after the genesis block passes verification on the chain before it. */
  ghost predicate Verified(rules: Rules, chain: seq<Block>) {
    && Linked(rules.hash, chain)
    && forall i :: 0 < i < |chain| ==> Objection(rules, chain[..i], chain[i]).None?
  }

  /** A storage that holds nothing, on disk or in memory, that the leader's chain does not hold. */
  ghost predicate Inside(rules: Rules, d: Disk, leader: seq<Block>) {
    Sane(rules, d) && Visible(d) != [] && d.stored <= leader
  }

  /** A height a node other than the leader has reached. */
  ghost predicate Reached(cfg: Config, s: Cluster, node: string, height: int) {
    node in s.disks && node != cfg.leader && height < |Visible(s.disks[node])|
  }

  ghost predicate Safe(cfg: Config, s: Cluster) {
    && cfg.leader in s.disks
    && Verified(cfg.rules, LeaderChain(cfg, s))
    && (forall n :: n in s.disks ==> Inside(cfg.rules, s.disks[n], LeaderChain(cfg, s)))
    && (forall b :: b in s.commits ==> b in LeaderChain(cfg, s) || !cfg.rules.signed(b))
    && (forall r :: r in s.heights ==> Reached(cfg, s, r.node, r.height))
    && (forall n :: n in s.reports ==> Reached(cfg, s, n, s.reports[n]))
  }

  lemma SafeKeepsPrefixes(cfg: Config, s: Cluster)
    requires Safe(cfg, s)
    ensures PrefixOfLeader(cfg, s)
    ensures s.disks[cfg.leader].stored == LeaderChain(cfg, s)
  {
    assert Inside(cfg.rules, s.disks[cfg.leader], LeaderChain(cfg, s));
    forall n | n in s.disks
      ensures Visible(s.disks[n]) != [] && Visible(s.disks[n]) <= LeaderChain(cfg, s)
    {
      assert Inside(cfg.rules, s.disks[n], LeaderChain(cfg, s));
    }
  }

  /** A storage inside the leader's chain takes no block of it but its next one. */
  lemma AddedStaysInside(rules: Rules, d: Disk, leader: seq<Block>, block: Block, reported: bool)
    requires Linked(rules.hash, leader) && Inside(rules, d, leader)
    requires block in leader || !rules.signed(block)
    ensures Inside(rules, Added(rules, d, block, reported), leader)
    ensures Visible(d) <= Visible(Added(rules, d, block, reported))
  {
    AddedKeepsSane(rules, d, block, reported);
    var chain := Visible(d);
    if Objection(rules, chain, block).None? {
      var i :| 0 <= i < |leader| && leader[i] == block;
      assert chain[|chain| - 1] == leader[|chain| - 1];
      assert leader[..|chain| + 1] == chain + [block];
    }
  }

  lemma {:induction false} AddFirstStaysInside(rules: Rules, reports: Block -> bool, d: Disk, leader: seq<Block>,
                                               blocks: seq<Block>, i: nat)
    requires Linked(rules.hash, leader) && Inside(rules, d, leader) && i <= |blocks|
    requires forall b :: b in blocks ==> b in leader
    ensures Inside(rules, AddFirst(rules, reports, d, blocks, i), leader)
    ensures Visible(d) <= Visible(AddFirst(rules, reports, d, blocks, i))
  {
    if i > 0 {
      AddFirstStaysInside(rules, reports, d, leader, blocks, i - 1);
      var before := AddFirst(rules, reports, d, blocks, i - 1);
      AddedStaysInside(rules, before, leader, blocks[i - 1], reports(blocks[i - 1]));
    }
  }

  lemma LoadedStaysInside(rules: Rules, d: Disk, leader: seq<Block>)
    requires Inside(rules, d, leader)
    ensures Inside(rules, Loaded(rules, d), leader)
    ensures Visible(d) <= Visible(Loaded(rules, d))
  {
  }

  lemma ReachedStays(cfg: Config, s: Cluster, t: Cluster)
    requires s.disks.Keys == t.disks.Keys && s.heights == t.heights && s.reports == t.reports
    requires forall n :: n in s.disks ==> |Visible(s.disks[n])| <= |Visible(t.disks[n])|
    requires forall r :: r in s.heights ==> Reached(cfg, s, r.node, r.height)
    requires forall n :: n in s.reports ==> Reached(cfg, s, n, s.reports[n])
    ensures forall r :: r in t.heights ==> Reached(cfg, t, r.node, r.height)
    ensures forall n :: n in t.reports ==> Reached(cfg, t, n, t.reports[n])
  {
  }

  lemma AllInside(cfg: Config, s: Cluster, node: string, disk: Disk)
    requires cfg.leader in s.disks && node in s.disks
    requires forall n :: n in s.disks ==> Inside(cfg.rules, s.disks[n], LeaderChain(cfg, s))
    requires Inside(cfg.rules, disk, LeaderChain(cfg, s)) && Visible(s.disks[node]) <= Visible(disk)
    ensures var t := s.(disks := s.disks[node := disk]);
            && LeaderChain(cfg, t) == LeaderChain(cfg, s)
            && (forall n :: n in t.disks ==> Inside(cfg.rules, t.disks[n], LeaderChain(cfg, t)))
            && (forall n :: n in s.disks ==> |Visible(s.disks[n])| <= |Visible(t.disks[n])|)
  {
    assert Visible(disk) <= disk.stored;
  }

  lemma SafeWithDisks(cfg: Config, s: Cluster, t: Cluster)
    requires Safe(cfg, s) && cfg.leader in t.disks && LeaderChain(cfg, t) == LeaderChain(cfg, s)
    requires t.commits == s.commits && t.heights == s.heights && t.reports == s.reports && t.disks.Keys == s.disks.Keys
    requires forall n :: n in t.disks ==> Inside(cfg.rules, t.disks[n], LeaderChain(cfg, t))
    requires forall n :: n in s.disks ==> |Visible(s.disks[n])| <= |Visible(t.disks[n])|
    ensures Safe(cfg, t)
  {
    ReachedStays(cfg, s, t);
  }

  lemma DiskGrows(cfg: Config, s: Cluster, node: string, disk: Disk)
    requires Safe(cfg, s) && node in s.disks
    requires Inside(cfg.rules, disk, LeaderChain(cfg, s)) && Visible(s.disks[node]) <= Visible(disk)
    ensures Safe(cfg, s.(disks := s.disks[node := disk]))
  {
    AllInside(cfg, s, node, disk);
    SafeWithDisks(cfg, s, s.(disks := s.disks[node := disk]));
  }

  /** A node may report the height it has. */
  lemma ReportKeepsSafe(cfg: Config, s: Cluster, node: string, height: int)
    requires Safe(cfg, s) && Reached(cfg, s, node, height)
    ensures Safe(cfg, Reported(s, node, height))
  {
    var t := Reported(s, node, height);
    forall r | r in t.heights
      ensures Reached(cfg, t, r.node, r.height)
    {
    }
    forall n | n in t.reports
      ensures Reached(cfg, t, n, t.reports[n])
    {
      assert Reached(cfg, s, n, s.reports[n]);
    }
  }

  lemma VerifiedGrows(rules: Rules, chain: seq<Block>, block: Block)
    requires Verified(rules, chain) && Objection(rules, chain, block).None?
    ensures Verified(rules, chain + [block])
  {
    AcceptedGrows(rules, chain, block);
    var longer := chain + [block];
    forall i | 0 < i < |longer|
      ensures Objection(rules, longer[..i], longer[i]).None?
    {
      if i < |chain| {
        assert longer[..i] == chain[..i];
      } else {
        assert longer[..i] == chain;
      }
    }
  }

  lemma InsideLonger(rules: Rules, d: Disk, leader: seq<Block>, block: Block)
    requires Inside(rules, d, leader)
    ensures Inside(rules, d, leader + [block])
  {
  }

  /** The leader's chain growing at its end, by a block it then broadcasts, keeps the cluster safe. */
  lemma LeaderGrows(cfg: Config, s: Cluster, block: Block)
    requires Safe(cfg, s) && Objection(cfg.rules, LeaderChain(cfg, s), block).None?
    ensures var after := Added(cfg.rules, s.disks[cfg.leader], block, true);
            Safe(cfg, s.(disks := s.disks[cfg.leader := after], commits := s.commits + {block}))
  {
    var chain := LeaderChain(cfg, s);
    var after := Added(cfg.rules, s.disks[cfg.leader], block, true);
    var s' := s.(disks := s.disks[cfg.leader := after], commits := s.commits + {block});
    VerifiedGrows(cfg.rules, chain, block);
    AddedKeepsSane(cfg.rules, s.disks[cfg.leader], block, true);
    assert LeaderChain(cfg, s') == chain + [block] == after.stored;
    forall n | n in s'.disks
      ensures Inside(cfg.rules, s'.disks[n], LeaderChain(cfg, s'))
    {
      if n != cfg.leader {
        InsideLonger(cfg.rules, s.disks[n], chain, block);
      }
    }
    forall n, h | Reached(cfg, s, n, h)
      ensures Reached(cfg, s', n, h)
    {
    }
  }

  lemma NextBlockObjection(cfg: Config, chain: seq<Block>, body: BlockBody)
    requires chain != []
    ensures Objection(cfg.rules, chain, NextBlock(cfg, chain, body)).None? <==>
            cfg.rules.signed(NextBlock(cfg, chain, body))
  {
    NextBlockContinues(cfg.rules.hash, chain, body);
  }

  /** A block that nobody takes may be broadcast. */
  lemma RefusedKeepsSafe(cfg: Config, s: Cluster, block: Block)
    requires Safe(cfg, s) && !cfg.rules.signed(block)
    ensures Safe(cfg, s.(commits := s.commits + {block}))
  {
    var s' := s.(commits := s.commits + {block});
    forall n, h | Reached(cfg, s, n, h)
      ensures Reached(cfg, s', n, h)
    {
    }
  }

  lemma BuildKeepsSafe(cfg: Config, s: Cluster, body: BlockBody, reported: bool)
    requires Safe(cfg, s) && LeaderKeepsUp(cfg, s, Build(body, reported))
    ensures Safe(cfg, Built(cfg, s, body, reported))
  {
    SafeKeepsPrefixes(cfg, s);
    var chain := LeaderChain(cfg, s);
    var block := NextBlock(cfg, chain, body);
    NextBlockObjection(cfg, chain, body);
    if cfg.rules.signed(block) {
      LeaderGrows(cfg, s, block);
    } else {
      assert s.disks[cfg.leader := Added(cfg.rules, s.disks[cfg.leader], block, reported)] == s.disks;
      RefusedKeepsSafe(cfg, s, block);
    }
  }

  lemma DeliveredStaysInside(cfg: Config, s: Cluster, node: string, block: Block, reported: bool)
    requires Safe(cfg, s) && node in s.disks && block in s.commits
    ensures var after := Added(cfg.rules, s.disks[node], block, reported);
            Inside(cfg.rules, after, LeaderChain(cfg, s)) && Visible(s.disks[node]) <= Visible(after)
  {
    assert Inside(cfg.rules, s.disks[node], LeaderChain(cfg, s));
    AddedStaysInside(cfg.rules, s.disks[node], LeaderChain(cfg, s), block, reported);
  }

  lemma DeliveredIs(cfg: Config, s: Cluster, node: string, block: Block, reported: bool, after: Disk)
    requires node != cfg.leader && node in s.disks && block in s.commits
    requires after == Added(cfg.rules, s.disks[node], block, reported)
    ensures Delivered(cfg, s, node, block, reported) ==
            Reported(s.(disks := s.disks[node := after]), node, |Visible(after)| - 1)
  {
  }

  /** A node's storage grows inside the leader's chain, and the node reports its height. */
  lemma GrowAndReport(cfg: Config, s: Cluster, node: string, after: Disk)
    requires Safe(cfg, s) && node != cfg.leader && node in s.disks
    requires Inside(cfg.rules, after, LeaderChain(cfg, s)) && Visible(s.disks[node]) <= Visible(after)
    ensures Safe(cfg, Reported(s.(disks := s.disks[node := after]), node, |Visible(after)| - 1))
  {
    DiskGrows(cfg, s, node, after);
    ReportKeepsSafe(cfg, s.(disks := s.disks[node := after]), node, |Visible(after)| - 1);
  }

  lemma DeliverKeepsSafe(cfg: Config, s: Cluster, node: string, block: Block, reported: bool)
    requires Safe(cfg, s)
    ensures Safe(cfg, Delivered(cfg, s, node, block, reported))
  {
    if node != cfg.leader && node in s.disks && block in s.commits {
      DeliveredStaysInside(cfg, s, node, block, reported);
      var after := Added(cfg.rules, s.disks[node], block, reported);
      GrowAndReport(cfg, s, node, after);
      DeliveredIs(cfg, s, node, block, reported, after);
    }
  }

  lemma OfferedWereReceived(queue: seq<Block>, b: Block)
    requires b in Offered(queue)
    ensures b in queue
  {
    OfferedIsLatest(queue);
    assert Latest(queue, b.header.height) == Some(b);
  }

  lemma PeersAreInside(cfg: Config, s: Cluster, queue: seq<Block>)
    requires Safe(cfg, s) && FromPeers(s, queue)
    ensures forall b :: b in queue ==> b in LeaderChain(cfg, s)
  {
    SafeKeepsPrefixes(cfg, s);
    forall i | 0 <= i < |queue|
      ensures queue[i] in LeaderChain(cfg, s)
    {
      var n :| n in s.disks && queue[i] in Visible(s.disks[n]);
      assert Visible(s.disks[n]) <= LeaderChain(cfg, s);
    }
  }

  lemma SyncedStaysInside(cfg: Config, s: Cluster, node: string, queue: seq<Block>, unreported: set<Block>)
    requires Safe(cfg, s) && node in s.disks && FromPeers(s, queue)
    ensures var after := Synchronised(cfg.rules, s.disks[node], queue, unreported);
            Inside(cfg.rules, after, LeaderChain(cfg, s)) && Visible(s.disks[node]) <= Visible(after)
  {
    PeersAreInside(cfg, s, queue);
    forall b | b in Offered(queue)
      ensures b in LeaderChain(cfg, s)
    {
      OfferedWereReceived(queue, b);
    }
    AddFirstStaysInside(cfg.rules, Reports(unreported), s.disks[node], LeaderChain(cfg, s), Offered(queue),
                        |Offered(queue)|);
  }

  lemma SyncKeepsSafe(cfg: Config, s: Cluster, node: string, queue: seq<Block>, unreported: set<Block>)
    requires Safe(cfg, s)
    ensures Safe(cfg, Appended(cfg, s, node, queue, unreported))
  {
    if node in s.disks && FromPeers(s, queue) {
      SyncedStaysInside(cfg, s, node, queue, unreported);
      DiskGrows(cfg, s, node, Synchronised(cfg.rules, s.disks[node], queue, unreported));
    }
  }

  lemma ReloadKeepsSafe(cfg: Config, s: Cluster, node: string)
    requires Safe(cfg, s)
    ensures Safe(cfg, Reloaded(cfg, s, node))
  {
    if node in s.disks {
      LoadedStaysInside(cfg.rules, s.disks[node], LeaderChain(cfg, s));
      DiskGrows(cfg, s, node, Loaded(cfg.rules, s.disks[node]));
    }
  }

  lemma MessagesKeepSafe(cfg: Config, s: Cluster, e: Event)
    requires Safe(cfg, s) && (e.Heartbeat? || e.DeliverHeight? || e.ForgetReports?)
    ensures Safe(cfg, Step(cfg, s, e))
  {
    var s' := Step(cfg, s, e);
    forall n, h | Reached(cfg, s, n, h)
      ensures Reached(cfg, s', n, h)
    {
    }
  }

  lemma StepKeepsSafe(cfg: Config, s: Cluster, e: Event)
    requires Safe(cfg, s) && LeaderKeepsUp(cfg, s, e)
    ensures Safe(cfg, Step(cfg, s, e))
  {
    match e
    case Build(body, reported) => BuildKeepsSafe(cfg, s, body, reported);
    case DeliverCommit(node, block, reported) => DeliverKeepsSafe(cfg, s, node, block, reported);
    case Sync(node, queue, unreported) => SyncKeepsSafe(cfg, s, node, queue, unreported);
    case Reload(node) => ReloadKeepsSafe(cfg, s, node);
    case Heartbeat => MessagesKeepSafe(cfg, s, e);
    case DeliverHeight(_) => MessagesKeepSafe(cfg, s, e);
    case ForgetReports => MessagesKeepSafe(cfg, s, e);
  }

  lemma EarlierKeepsUp(cfg: Config, s: Cluster, events: seq<Event>)
    requires events != [] && LeaderAlwaysKeepsUp(cfg, s, events)
    ensures var n := |events| - 1;
            && LeaderAlwaysKeepsUp(cfg, s, events[..n])
            && LeaderKeepsUp(cfg, Steps(cfg, s, events[..n]), events[n])
  {
    var n := |events| - 1;
    forall i | 0 <= i < n
      ensures LeaderKeepsUp(cfg, Steps(cfg, s, events[..n][..i]), events[..n][i])
    {
      assert events[..n][..i] == events[..i];
      assert LeaderKeepsUp(cfg, Steps(cfg, s, events[..i]), events[i]);
    }
  }

  lemma {:induction false} StepsKeepSafe(cfg: Config, s: Cluster, events: seq<Event>)
    requires Safe(cfg, s) && LeaderAlwaysKeepsUp(cfg, s, events)
    ensures Safe(cfg, Steps(cfg, s, events))
  {
    if events != [] {
      EarlierKeepsUp(cfg, s, events);
      StepsKeepSafe(cfg, s, events[..|events| - 1]);
      StepKeepsSafe(cfg, Steps(cfg, s, events[..|events| - 1]), events[|events| - 1]);
    }
  }

  lemma InitialIsSafe(cfg: Config, s: Cluster)
    requires Initial(cfg, s)
    ensures Safe(cfg, s)
  {
  }

  /**
   Prefix safety: as long as the leader's commits of its own blocks go through, every node's chain is
   a prefix of the leader's in every reachable state, whatever the network does and whoever restarts.
   */
  lemma PrefixSafety(cfg: Config, s: Cluster, events: seq<Event>)
    requires Initial(cfg, s) && LeaderAlwaysKeepsUp(cfg, s, events)
    ensures Safe(cfg, Steps(cfg, s, events)) && PrefixOfLeader(cfg, Steps(cfg, s, events))
  {
    InitialIsSafe(cfg, s);
    StepsKeepSafe(cfg, s, events);
    SafeKeepsPrefixes(cfg, Steps(cfg, s, events));
  }

  // The gate

  /** The nodes other than the leader that hold exactly its chain. */
  function Followers(cfg: Config, s: Cluster): set<string>
    requires cfg.leader in s.disks
  {
    set n | n in s.disks && n != cfg.leader && Visible(s.disks[n]) == LeaderChain(cfg, s)
  }

  /**
   The gate: whenever it is open in a safe state, at least clusterSize - 1 - 2 * acceptable other nodes
   hold exactly the leader's chain, however late or out of order their reports came.
   */
  lemma OpenGateMeansFollowers(cfg: Config, s: Cluster)
    requires Safe(cfg, s)
    requires EnoughSynced(s.reports, cfg.clusterSize, cfg.acceptable, |LeaderChain(cfg, s)| - 1)
    ensures |Followers(cfg, s)| >= cfg.clusterSize - 1 - 2 * cfg.acceptable
  {
    var height := |LeaderChain(cfg, s)| - 1;
    SafeKeepsPrefixes(cfg, s);
    GateCounts(s.reports, cfg.clusterSize, cfg.acceptable, height);
    forall n | n in InStep(s.reports, height)
      ensures n in Followers(cfg, s)
    {
      assert Reached(cfg, s, n, s.reports[n]);
      assert Visible(s.disks[n]) <= LeaderChain(cfg, s);
    }
    SubsetSize(InStep(s.reports, height), Followers(cfg, s));
  }

  lemma SubsetSize(a: set<string>, b: set<string>)
    requires a <= b
    ensures |a| <= |b|
  {
    assert b == a + (b - a);
  }

  /** Nodes that lag behind, nodes that have not reported, and nodes that follow, besides the leader. */
  ghost predicate Divided(cfg: Config, lagging: set<string>, silent: set<string>, following: set<string>) {
    && lagging !! silent && lagging !! following && silent !! following
    && cfg.leader !in lagging + silent + following
    && |lagging| == |silent| == cfg.acceptable
    && |lagging| + |silent| + |following| == cfg.clusterSize - 1
  }

  /** A leader that is one block ahead of all nodes but those following. */
  function Uneven(cfg: Config, lagging: set<string>, silent: set<string>, following: set<string>,
                  block: Block): Cluster {
    var genesis := GenesisBlock(cfg.rules.hash);
    var behind, ahead := Disk([genesis], 1), Disk([genesis, block], 2);
    Cluster(map n | n in {cfg.leader} + lagging + silent + following ::
              if n in lagging + silent then behind else ahead,
            {block}, {},
            map n | n in lagging + following :: if n in lagging then 0 else 1)
  }

  lemma TwoDisks(rules: Rules, genesis: Block, block: Block)
    requires genesis == GenesisBlock(rules.hash) && Objection(rules, [genesis], block).None?
    ensures Verified(rules, [genesis, block])
    ensures Inside(rules, Disk([genesis], 1), [genesis, block])
    ensures Inside(rules, Disk([genesis, block], 2), [genesis, block])
  {
    assert [genesis] + [block] == [genesis, block];
    VerifiedGrows(rules, [genesis], block);
  }

  lemma UnevenIsSafe(cfg: Config, lagging: set<string>, silent: set<string>, following: set<string>, block: Block)
    requires Divided(cfg, lagging, silent, following)
    requires Objection(cfg.rules, [GenesisBlock(cfg.rules.hash)], block).None?
    ensures var s := Uneven(cfg, lagging, silent, following, block);
            Safe(cfg, s) && LeaderChain(cfg, s) == [GenesisBlock(cfg.rules.hash), block]
  {
    var genesis, s := GenesisBlock(cfg.rules.hash), Uneven(cfg, lagging, silent, following, block);
    TwoDisks(cfg.rules, genesis, block);
    assert LeaderChain(cfg, s) == [genesis, block];
    assert forall n :: n in s.disks ==> s.disks[n] in {Disk([genesis], 1), Disk([genesis, block], 2)};
    forall n | n in s.reports
      ensures Reached(cfg, s, n, s.reports[n])
    {
    }
  }

  lemma UnevenGate(cfg: Config, lagging: set<string>, silent: set<string>, following: set<string>, block: Block)
    requires Divided(cfg, lagging, silent, following)
    ensures EnoughSynced(Uneven(cfg, lagging, silent, following, block).reports, cfg.clusterSize, cfg.acceptable, 1)
  {
    var reports := Uneven(cfg, lagging, silent, following, block).reports;
    assert reports.Keys == lagging + following;
    assert |reports| == |reports.Keys| == |lagging| + |following|;
    assert Unsynced(reports, 1) == lagging;
  }

  /**
   The bound of the gate is attained: in every cluster, of which the numbers of lagging and of silent nodes
   are both those acceptable, the gate is open while exactly clusterSize - 1 - 2 * acceptable others follow.
   */
  lemma GateBoundIsAttained(cfg: Config, lagging: set<string>, silent: set<string>, following: set<string>,
                            block: Block)
    requires Divided(cfg, lagging, silent, following)
    requires Objection(cfg.rules, [GenesisBlock(cfg.rules.hash)], block).None?
    ensures var s := Uneven(cfg, lagging, silent, following, block);
            && Safe(cfg, s)
            && EnoughSynced(s.reports, cfg.clusterSize, cfg.acceptable, |LeaderChain(cfg, s)| - 1)
            && |Followers(cfg, s)| == cfg.clusterSize - 1 - 2 * cfg.acceptable
  {
    UnevenIsSafe(cfg, lagging, silent, following, block);
    UnevenGate(cfg, lagging, silent, following, block);
    assert Followers(cfg, Uneven(cfg, lagging, silent, following, block)) == following;
  }

  lemma LackingTakesLast(rules: Rules, d: Disk, leader: seq<Block>)
    requires Verified(rules, leader) && Inside(rules, d, leader) && |Visible(d)| == |leader| - 1
    ensures Visible(Added(rules, d, leader[|leader| - 1], true)) == leader
  {
    var n := |leader| - 1;
    assert Visible(d) == leader[..n] && leader[..n] + [leader[n]] == leader;
    AddedKeepsSane(rules, d, leader[n], true);
  }

  lemma DeliveredTo(cfg: Config, s: Cluster, node: string, block: Block)
    requires cfg.leader in s.disks && node in s.disks && node != cfg.leader && block in s.commits
    ensures var end := Delivered(cfg, s, node, block, true);
            && cfg.leader in end.disks && LeaderChain(cfg, end) == LeaderChain(cfg, s)
            && node in end.disks && end.disks[node] == Added(cfg.rules, s.disks[node], block, true)
  {
  }

  /** A node that lacks only the leader's last block gets it by the next heartbeat, if the gate is shut. */
  lemma HeartbeatRepairs(cfg: Config, s: Cluster, node: string)
    requires Safe(cfg, s) && node in s.disks && node != cfg.leader
    requires var leader := LeaderChain(cfg, s);
             && |Visible(s.disks[node])| == |leader| - 1
             && !EnoughSynced(s.reports, cfg.clusterSize, cfg.acceptable, |leader| - 1)
    ensures var leader := LeaderChain(cfg, s);
            var end := Steps(cfg, s, [Heartbeat, DeliverCommit(node, leader[|leader| - 1], true)]);
            && cfg.leader in end.disks && LeaderChain(cfg, end) == leader
            && node in end.disks && Visible(end.disks[node]) == leader
  {
    var leader := LeaderChain(cfg, s);
    var last := leader[|leader| - 1];
    TwoSteps(cfg, s, Heartbeat, DeliverCommit(node, last, true));
    LackingTakesLast(cfg.rules, s.disks[node], leader);
    var mid := s.(commits := s.commits + Tip(leader));
    assert Step(cfg, s, Heartbeat) == mid && last in mid.commits;
    DeliveredTo(cfg, mid, node, last);
  }

  lemma LoadedAfterFailure(rules: Rules, d: Disk, block: Block)
    requires d.stored != [] && Visible(d) == d.stored && d.visible <= |d.stored|
    ensures Loaded(rules, Added(rules, d, block, false)) == Added(rules, d, block, true)
  {
  }

  lemma LeaderDisk(cfg: Config, s: Cluster)
    requires Safe(cfg, s)
    ensures var d := s.disks[cfg.leader]; d.stored != [] && Visible(d) == d.stored && d.visible <= |d.stored|
  {
    assert Inside(cfg.rules, s.disks[cfg.leader], LeaderChain(cfg, s));
  }

  lemma LoadedLeader(cfg: Config, s: Cluster, body: BlockBody)
    requires cfg.leader in s.disks
    requires var d := s.disks[cfg.leader]; d.stored != [] && Visible(d) == d.stored && d.visible <= |d.stored|
    ensures Reloaded(cfg, Built(cfg, s, body, false), cfg.leader) == Built(cfg, s, body, true)
  {
    var block := NextBlock(cfg, LeaderChain(cfg, s), body);
    LoadedAfterFailure(cfg.rules, s.disks[cfg.leader], block);
    SetTwice(s.disks, cfg.leader, Added(cfg.rules, s.disks[cfg.leader], block, false),
             Added(cfg.rules, s.disks[cfg.leader], block, true));
  }

  lemma SetTwice(disks: map<string, Disk>, node: string, first: Disk, second: Disk)
    ensures disks[node := first][node := second] == disks[node := second]
  {
  }

  /** A restarted leader has heard of nobody: its gate is shut unless all other nodes may be out of step. */
  lemma RestartedLeaderWaits(cfg: Config, s: Cluster, height: int)
    requires cfg.leader in s.disks && cfg.clusterSize > cfg.acceptable + 1
    ensures !EnoughSynced(Step(cfg, s, ForgetReports).reports, cfg.clusterSize, cfg.acceptable, height)
  {
  }

  /** A restart of the leader makes up for a failed commit: all is as if its pool had answered. */
  lemma RestartHeals(cfg: Config, s: Cluster, body: BlockBody)
    requires Safe(cfg, s)
    ensures Steps(cfg, s, [Build(body, false), Reload(cfg.leader)]) == Step(cfg, s, Build(body, true))
    ensures Safe(cfg, Steps(cfg, s, [Build(body, false), Reload(cfg.leader)]))
  {
    TwoSteps(cfg, s, Build(body, false), Reload(cfg.leader));
    LeaderDisk(cfg, s);
    LoadedLeader(cfg, s, body);
    StepKeepsSafe(cfg, s, Build(body, true));
  }

  // When chains may diverge

  /** Some future in which the leader keeps up again leads to a chain that is no prefix of the leader's. */
  ghost predicate MayDiverge(cfg: Config, s: Cluster) {
    exists events :: LeaderAlwaysKeepsUp(cfg, s, events) && !PrefixOfLeader(cfg, Steps(cfg, s, events))
  }

  lemma SafeNeverDiverges(cfg: Config, s: Cluster)
    requires Safe(cfg, s)
    ensures !MayDiverge(cfg, s)
  {
    forall events | LeaderAlwaysKeepsUp(cfg, s, events)
      ensures PrefixOfLeader(cfg, Steps(cfg, s, events))
    {
      StepsKeepSafe(cfg, s, events);
      SafeKeepsPrefixes(cfg, Steps(cfg, s, events));
    }
  }

  /** A cluster of the leader only. */
  ghost predicate Alone(cfg: Config, s: Cluster) {
    s.disks.Keys == {cfg.leader} && Sane(cfg.rules, s.disks[cfg.leader]) && LeaderChain(cfg, s) != []
  }

  lemma {:induction false} AddFirstKeepsSane(rules: Rules, reports: Block -> bool, d: Disk, blocks: seq<Block>, i: nat)
    requires Sane(rules, d) && i <= |blocks|
    ensures var after := AddFirst(rules, reports, d, blocks, i);
            Sane(rules, after) && Visible(d) <= Visible(after)
  {
    if i > 0 {
      AddFirstKeepsSane(rules, reports, d, blocks, i - 1);
      AddedKeepsSane(rules, AddFirst(rules, reports, d, blocks, i - 1), blocks[i - 1], reports(blocks[i - 1]));
    }
  }

  lemma StepKeepsAlone(cfg: Config, s: Cluster, e: Event)
    requires Alone(cfg, s)
    ensures Alone(cfg, Step(cfg, s, e))
  {
    var d := s.disks[cfg.leader];
    match e
    case Build(body, reported) => AddedKeepsSane(cfg.rules, d, NextBlock(cfg, Visible(d), body), reported);
    case DeliverCommit(node, block, reported) =>
    case Sync(node, queue, unreported) =>
      AddFirstKeepsSane(cfg.rules, Reports(unreported), d, Offered(queue), |Offered(queue)|);
    case Reload(node) =>
    case Heartbeat =>
    case DeliverHeight(_) =>
    case ForgetReports =>
  }

  lemma {:induction false} StepsKeepAlone(cfg: Config, s: Cluster, events: seq<Event>)
    requires Alone(cfg, s)
    ensures Alone(cfg, Steps(cfg, s, events)) && PrefixOfLeader(cfg, Steps(cfg, s, events))
  {
    if events != [] {
      StepsKeepAlone(cfg, s, events[..|events| - 1]);
      StepKeepsAlone(cfg, Steps(cfg, s, events[..|events| - 1]), events[|events| - 1]);
    }
  }

  lemma TwoSteps(cfg: Config, s: Cluster, a: Event, b: Event)
    ensures Steps(cfg, s, [a, b]) == Step(cfg, Step(cfg, s, a), b)
  {
    assert [a, b][..1] == [a] && [a][..0] == [];
    assert Steps(cfg, s, [a]) == Step(cfg, Steps(cfg, s, []), a);
  }

  lemma VerifiedFollows(rules: Rules, leader: seq<Block>, n: nat)
    requires Verified(rules, leader) && 0 < n <= |leader|
    ensures Linked(rules.hash, leader[..n]) && Follows(rules, Reports({}), leader[..n], leader[n..])
  {
    LinkedPrefix(rules.hash, leader, n);
    var chain, rest := leader[..n], leader[n..];
    forall i | 0 <= i < |rest|
      ensures Objection(rules, chain + rest[..i], rest[i]).None? && Reports({})(rest[i])
    {
      assert chain + rest[..i] == leader[..n + i];
    }
  }

  lemma SegmentIsRun(rules: Rules, chain: seq<Block>, segment: seq<Block>)
    requires Linked(rules.hash, chain) && Follows(rules, Reports({}), chain, segment)
    ensures LinkingRun(rules, Reports({}), chain, segment) == segment
  {
    AnyOrderSameRun(rules, Reports({}), chain, segment, segment);
  }

  /** A follower that syncs what it lacks of a verified chain holds all of it. */
  lemma SyncCatchesUp(rules: Rules, d: Disk, leader: seq<Block>)
    requires Verified(rules, leader) && Inside(rules, d, leader)
    ensures var after := Synchronised(rules, d, leader[|Visible(d)|..], {});
            Sane(rules, after) && Visible(after) == leader
  {
    var n := |Visible(d)|;
    assert leader[..n] == Visible(d) && leader[..n] + leader[n..] == leader;
    VerifiedFollows(rules, leader, n);
    SegmentIsRun(rules, leader[..n], leader[n..]);
    OfferedRun(rules, Reports({}), d, leader[n..]);
  }

  /** After a failed commit the block is on its way, and the leader's chain is there to be synced. */
  lemma UnreportedBuild(cfg: Config, s: Cluster, node: string, body: BlockBody, lacking: seq<Block>)
    requires Safe(cfg, s) && node in s.disks && node != cfg.leader
    requires cfg.rules.signed(NextBlock(cfg, LeaderChain(cfg, s), body))
    requires forall b :: b in lacking ==> b in LeaderChain(cfg, s)
    ensures var leader, built := LeaderChain(cfg, s), Built(cfg, s, body, false);
            && LeaderChain(cfg, built) == leader
            && built.disks[node] == s.disks[node]
            && NextBlock(cfg, leader, body) in built.commits
            && FromPeers(built, lacking)
  {
    SafeKeepsPrefixes(cfg, s);
    var leader, built := LeaderChain(cfg, s), Built(cfg, s, body, false);
    assert Inside(cfg.rules, s.disks[cfg.leader], leader);
    AddedKeepsSane(cfg.rules, s.disks[cfg.leader], NextBlock(cfg, leader, body), false);
    assert LeaderChain(cfg, built) == leader;
    forall i | 0 <= i < |lacking|
      ensures exists n :: n in built.disks && lacking[i] in Visible(built.disks[n])
    {
      assert cfg.leader in built.disks && lacking[i] in Visible(built.disks[cfg.leader]);
    }
  }

  /** A node that holds the leader's chain takes a block that continues it. */
  lemma TakesNext(cfg: Config, s: Cluster, node: string, leader: seq<Block>, block: Block)
    requires cfg.leader in s.disks && LeaderChain(cfg, s) == leader
    requires node in s.disks && node != cfg.leader && block in s.commits
    requires Sane(cfg.rules, s.disks[node]) && Visible(s.disks[node]) == leader
    requires Objection(cfg.rules, leader, block).None?
    ensures var end := Delivered(cfg, s, node, block, true);
            && cfg.leader in end.disks && LeaderChain(cfg, end) == leader
            && node in end.disks && Visible(end.disks[node]) == leader + [block]
  {
    AddedKeepsSane(cfg.rules, s.disks[node], block, true);
  }

  lemma OtherDisk(cfg: Config, s: Cluster, node: string, disk: Disk, after: Cluster)
    requires cfg.leader in s.disks && node in s.disks && node != cfg.leader
    requires after == s.(disks := s.disks[node := disk])
    ensures after.commits == s.commits
    ensures cfg.leader in after.disks && LeaderChain(cfg, after) == LeaderChain(cfg, s)
    ensures node in after.disks && after.disks[node] == disk
  {
  }

  lemma SyncsUp(cfg: Config, s: Cluster, node: string, leader: seq<Block>, d: Disk)
    requires cfg.leader in s.disks && LeaderChain(cfg, s) == leader && node in s.disks && node != cfg.leader
    requires s.disks[node] == d && Verified(cfg.rules, leader) && Inside(cfg.rules, d, leader)
    requires FromPeers(s, leader[|Visible(d)|..])
    ensures var after := Appended(cfg, s, node, leader[|Visible(d)|..], {});
            && after.commits == s.commits
            && cfg.leader in after.disks && LeaderChain(cfg, after) == leader
            && node in after.disks && Sane(cfg.rules, after.disks[node]) && Visible(after.disks[node]) == leader
  {
    var disk := Synchronised(cfg.rules, d, leader[|Visible(d)|..], {});
    assert Sane(cfg.rules, disk) && Visible(disk) == leader by {
      SyncCatchesUp(cfg.rules, d, leader);
    }
    OtherDisk(cfg, s, node, disk, s.(disks := s.disks[node := disk]));
  }

  /** What a cluster becomes when a leader's commit fails, a follower syncs and then gets the block. */
  function Overtaken(cfg: Config, s: Cluster, node: string, body: BlockBody): Cluster
    requires cfg.leader in s.disks && node in s.disks && |Visible(s.disks[node])| <= |LeaderChain(cfg, s)|
  {
    var leader := LeaderChain(cfg, s);
    var synced := Appended(cfg, Built(cfg, s, body, false), node, leader[|Visible(s.disks[node])|..], {});
    Delivered(cfg, synced, node, NextBlock(cfg, leader, body), true)
  }

  /** A failed commit of the leader lets any follower sync up and then overtake it. */
  lemma FollowerOvertakes(cfg: Config, s: Cluster, node: string, body: BlockBody)
    requires Safe(cfg, s) && node in s.disks && node != cfg.leader
    requires cfg.rules.signed(NextBlock(cfg, LeaderChain(cfg, s), body))
    ensures |Visible(s.disks[node])| <= |LeaderChain(cfg, s)|
    ensures var leader, end := LeaderChain(cfg, s), Overtaken(cfg, s, node, body);
            && cfg.leader in end.disks && LeaderChain(cfg, end) == leader
            && node in end.disks && Visible(end.disks[node]) == leader + [NextBlock(cfg, leader, body)]
  {
    var leader, d := LeaderChain(cfg, s), s.disks[node];
    assert leader != [] && Inside(cfg.rules, d, leader) && |Visible(d)| <= |leader| by {
      SafeKeepsPrefixes(cfg, s);
    }
    var lacking, built := leader[|Visible(d)|..], Built(cfg, s, body, false);
    UnreportedBuild(cfg, s, node, body, lacking);
    SyncsUp(cfg, built, node, leader, d);
    NextBlockObjection(cfg, leader, body);
    TakesNext(cfg, Appended(cfg, built, node, lacking, {}), node, leader, NextBlock(cfg, leader, body));
  }

  lemma OvertakenBySteps(cfg: Config, s: Cluster, node: string, body: BlockBody)
    requires cfg.leader in s.disks && node in s.disks && |Visible(s.disks[node])| <= |LeaderChain(cfg, s)|
    ensures var leader := LeaderChain(cfg, s);
            var sync := Sync(node, leader[|Visible(s.disks[node])|..], {});
            var deliver := DeliverCommit(node, NextBlock(cfg, leader, body), true);
            Steps(cfg, Step(cfg, s, Build(body, false)), [sync, deliver]) == Overtaken(cfg, s, node, body)
  {
    var leader := LeaderChain(cfg, s);
    var lacking, built := leader[|Visible(s.disks[node])|..], Built(cfg, s, body, false);
    assert cfg.leader in built.disks && cfg.leader in Appended(cfg, built, node, lacking, {}).disks;
    TwoSteps(cfg, built, Sync(node, lacking, {}), DeliverCommit(node, NextBlock(cfg, leader, body), true));
  }

  lemma LongerDiverges(cfg: Config, s: Cluster, a: Event, b: Event, end: Cluster, node: string, block: Block)
    requires !a.Build? && !b.Build? && end == Steps(cfg, s, [a, b])
    requires cfg.leader in end.disks && node in end.disks && Visible(end.disks[node]) == LeaderChain(cfg, end) + [block]
    ensures MayDiverge(cfg, s)
  {
    assert LeaderAlwaysKeepsUp(cfg, s, [a, b]);
    assert !(Visible(end.disks[node]) <= LeaderChain(cfg, end));
  }

  lemma FollowerMakesDiverge(cfg: Config, s: Cluster, node: string, body: BlockBody)
    requires Safe(cfg, s) && node in s.disks && node != cfg.leader
    requires cfg.rules.signed(NextBlock(cfg, LeaderChain(cfg, s), body))
    ensures MayDiverge(cfg, Step(cfg, s, Build(body, false)))
  {
    FollowerOvertakes(cfg, s, node, body);
    OvertakenBySteps(cfg, s, node, body);
    var leader := LeaderChain(cfg, s);
    var block := NextBlock(cfg, leader, body);
    LongerDiverges(cfg, Step(cfg, s, Build(body, false)), Sync(node, leader[|Visible(s.disks[node])|..], {}),
                   DeliverCommit(node, block, true), Overtaken(cfg, s, node, body), node, block);
  }

  lemma LoneLeaderNeverDiverges(cfg: Config, s: Cluster, body: BlockBody, reported: bool)
    requires Safe(cfg, s) && forall n :: n in s.disks ==> n == cfg.leader
    ensures !MayDiverge(cfg, Step(cfg, s, Build(body, reported)))
  {
    assert Alone(cfg, s) by {
      SafeKeepsPrefixes(cfg, s);
      assert s.disks.Keys == {cfg.leader};
    }
    StepKeepsAlone(cfg, s, Build(body, reported));
    forall events
      ensures PrefixOfLeader(cfg, Steps(cfg, Step(cfg, s, Build(body, reported)), events))
    {
      StepsKeepAlone(cfg, Step(cfg, s, Build(body, reported)), events);
    }
  }

  /**
   When prefix safety is lost: in any state reached with the leader keeping up, building a block makes
   it possible for chains to diverge if and only if the leader's pool fails to acknowledge the block,
   the block is one the nodes accept, and there is a node besides the leader.
   */
  lemma MayDivergeIff(cfg: Config, s: Cluster, events: seq<Event>, body: BlockBody, reported: bool)
    requires Initial(cfg, s) && LeaderAlwaysKeepsUp(cfg, s, events)
    ensures var now := Steps(cfg, s, events);
            && cfg.leader in now.disks
            && (MayDiverge(cfg, Step(cfg, now, Build(body, reported))) <==>
                && !reported
                && cfg.rules.signed(NextBlock(cfg, LeaderChain(cfg, now), body))
                && exists n :: n in now.disks && n != cfg.leader)
  {
    var now := Steps(cfg, s, events);
    PrefixSafety(cfg, s, events);
    if reported || !cfg.rules.signed(NextBlock(cfg, LeaderChain(cfg, now), body)) {
      BuildKeepsSafe(cfg, now, body, reported);
      SafeNeverDiverges(cfg, Step(cfg, now, Build(body, reported)));
    } else if n :| n in now.disks && n != cfg.leader {
      FollowerMakesDiverge(cfg, now, n, body);
    } else {
      LoneLeaderNeverDiverges(cfg, now, body, reported);
    }
  }

  /** Two nodes that have just started, and a first block that the leader's pool does not acknowledge. */
  lemma OvertakenAtStart(cfg: Config, s: Cluster, follower: string, body: BlockBody)
    requires follower != cfg.leader && cfg.rules.signed(NextBlock(cfg, [GenesisBlock(cfg.rules.hash)], body))
    requires var disk := Disk([GenesisBlock(cfg.rules.hash)], 1);
             s == Cluster(map[cfg.leader := disk, follower := disk], {}, {}, map[])
    ensures Initial(cfg, s) && MayDiverge(cfg, Step(cfg, s, Build(body, false)))
  {
    InitialIsSafe(cfg, s);
    FollowerMakesDiverge(cfg, s, follower, body);
  }
}
