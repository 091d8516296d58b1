/**
 Replication over the whole cluster: whatever the network does, every node's state storage holds what
 executing the transactions of the leader's chain one after another leaves.
 */
module ClusterReplication {
  import opened Wrappers
  import opened Types
  import opened StateKeys
  import opened Contracts
  import opened StateDiffs
  import opened Chains
  import opened BlockStorages
  import opened BlockStorageSyncs
  import opened StateStorages
  import opened Replication
  import opened BlockBuilders
  import opened CachedRuns
  import opened VirtualMachines
  import opened MadeChains
  import opened StubConsensuses

  /** A property of chains that every block built keeps, if it is added to the leader's chain. */
  ghost predicate BuildsKeep(cfg: Config, s: Cluster, events: seq<Event>, Q: seq<Block> -> bool) {
    forall i :: 0 <= i < |events| && events[i].Build? ==> BuildKeeps(cfg, Steps(cfg, s, events[..i]), events[i].body, Q)
  }

  ghost predicate BuildKeeps(cfg: Config, s: Cluster, body: BlockBody, Q: seq<Block> -> bool) {
    cfg.leader in s.disks && LeaderChain(cfg, s) != [] && Q(LeaderChain(cfg, s)) ==>
      Q(LeaderChain(cfg, s) + [NextBlock(cfg, LeaderChain(cfg, s), body)])
  }

  /** The leader's own storage, changed inside the leader's chain, still shows that chain. */
  lemma InsideShowsSame(rules: Rules, before: Disk, after: Disk)
    requires Inside(rules, after, Visible(before)) && Visible(before) <= Visible(after)
    ensures Visible(after) == Visible(before)
  {
  }

  lemma SyncKeepsLeaderChain(cfg: Config, s: Cluster, node: string, queue: seq<Block>, unreported: set<Block>)
    requires Safe(cfg, s)
    ensures cfg.leader in Appended(cfg, s, node, queue, unreported).disks
    ensures LeaderChain(cfg, Appended(cfg, s, node, queue, unreported)) == LeaderChain(cfg, s)
  {
    if node == cfg.leader && FromPeers(s, queue) {
      SyncedStaysInside(cfg, s, node, queue, unreported);
      InsideShowsSame(cfg.rules, s.disks[node], Synchronised(cfg.rules, s.disks[node], queue, unreported));
    }
  }

  lemma ReloadKeepsLeaderChain(cfg: Config, s: Cluster, node: string)
    requires Safe(cfg, s)
    ensures cfg.leader in Reloaded(cfg, s, node).disks
    ensures LeaderChain(cfg, Reloaded(cfg, s, node)) == LeaderChain(cfg, s)
  {
    if node == cfg.leader {
      assert Inside(cfg.rules, s.disks[node], LeaderChain(cfg, s));
      LoadedStaysInside(cfg.rules, s.disks[node], LeaderChain(cfg, s));
      InsideShowsSame(cfg.rules, s.disks[node], Loaded(cfg.rules, s.disks[node]));
    }
  }

  /** Only building changes the chain of a leader that keeps up. */
  lemma OthersKeepLeaderChain(cfg: Config, s: Cluster, e: Event)
    requires Safe(cfg, s) && !e.Build?
    ensures cfg.leader in Step(cfg, s, e).disks && LeaderChain(cfg, Step(cfg, s, e)) == LeaderChain(cfg, s)
  {
    match e
    case Sync(node, queue, unreported) => SyncKeepsLeaderChain(cfg, s, node, queue, unreported);
    case Reload(node) => ReloadKeepsLeaderChain(cfg, s, node);
    case DeliverCommit(_, _, _) =>
    case DeliverHeight(_) =>
    case Heartbeat =>
    case ForgetReports =>
  }

  lemma LeaderChainAfterBuild(cfg: Config, s: Cluster, body: BlockBody, reported: bool)
    requires Safe(cfg, s)
    ensures var chain := LeaderChain(cfg, s);
            LeaderChain(cfg, Step(cfg, s, Build(body, reported))) in {chain, chain + [NextBlock(cfg, chain, body)]}
  {
    SafeKeepsPrefixes(cfg, s);
    assert Inside(cfg.rules, s.disks[cfg.leader], LeaderChain(cfg, s));
    AddedKeepsSane(cfg.rules, s.disks[cfg.leader], NextBlock(cfg, LeaderChain(cfg, s), body), reported);
  }

  lemma EarlierKeep(cfg: Config, s: Cluster, events: seq<Event>, Q: seq<Block> -> bool)
    requires events != [] && BuildsKeep(cfg, s, events, Q)
    ensures BuildsKeep(cfg, s, events[..|events| - 1], Q)
  {
    var init := events[..|events| - 1];
    forall i | 0 <= i < |init| && init[i].Build?
      ensures BuildKeeps(cfg, Steps(cfg, s, init[..i]), init[i].body, Q)
    {
      assert init[..i] == events[..i];
      assert events[i].Build?;
    }
  }

  lemma OneMoreKeeps(cfg: Config, s: Cluster, e: Event, Q: seq<Block> -> bool)
    requires Safe(cfg, s) && Q(LeaderChain(cfg, s))
    requires e.Build? ==> BuildKeeps(cfg, s, e.body, Q)
    ensures cfg.leader in Step(cfg, s, e).disks && Q(LeaderChain(cfg, Step(cfg, s, e)))
  {
    SafeKeepsPrefixes(cfg, s);
    if e.Build? {
      LeaderChainAfterBuild(cfg, s, e.body, e.reported);
    } else {
      OthersKeepLeaderChain(cfg, s, e);
    }
  }

  /** What the genesis block has and every block built keeps, the leader's chain always has. */
  lemma {:induction false} LeaderChainKeeps(cfg: Config, s: Cluster, events: seq<Event>, Q: seq<Block> -> bool)
    requires Initial(cfg, s) && LeaderAlwaysKeepsUp(cfg, s, events)
    requires Q([GenesisBlock(cfg.rules.hash)]) && BuildsKeep(cfg, s, events, Q)
    ensures Safe(cfg, Steps(cfg, s, events)) && Q(LeaderChain(cfg, Steps(cfg, s, events)))
  {
    PrefixSafety(cfg, s, events);
    if events == [] {
      assert LeaderChain(cfg, s) == [GenesisBlock(cfg.rules.hash)];
    } else {
      var n := |events| - 1;
      EarlierKeepsUp(cfg, s, events);
      EarlierKeep(cfg, s, events, Q);
      LeaderChainKeeps(cfg, s, events[..n], Q);
      OneMoreKeeps(cfg, Steps(cfg, s, events[..n]), events[n], Q);
    }
  }

  // Blocks of which it is only known that their bodies tell what executing them did

  /** Every body tells what executing it on the last state of the leader's chain did. */
  ghost predicate BuildsExecuted(cfg: Config, processor: Processor, s: Cluster, events: seq<Event>) {
    forall i :: 0 <= i < |events| && events[i].Build? ==>
      BuildExecuted(cfg, processor, Steps(cfg, s, events[..i]), events[i].body)
  }

  ghost predicate BuildExecuted(cfg: Config, processor: Processor, s: Cluster, body: BlockBody) {
    cfg.leader in s.disks && LeaderChain(cfg, s) != [] ==> Executed(processor, TipState(LeaderChain(cfg, s)), body)
  }

  lemma LeaderChainIsBuilt(cfg: Config, processor: Processor, s: Cluster, events: seq<Event>)
    requires Initial(cfg, s) && LeaderAlwaysKeepsUp(cfg, s, events) && BuildsExecuted(cfg, processor, s, events)
    ensures Safe(cfg, Steps(cfg, s, events))
    ensures BuiltChain(processor, LeaderChain(cfg, Steps(cfg, s, events)))
  {
    ghost var Q := (chain: seq<Block>) => BuiltChain(processor, chain);
    forall i | 0 <= i < |events| && events[i].Build?
      ensures BuildKeeps(cfg, Steps(cfg, s, events[..i]), events[i].body, Q)
    {
      var now := Steps(cfg, s, events[..i]);
      assert BuildExecuted(cfg, processor, now, events[i].body);
      if cfg.leader in now.disks && LeaderChain(cfg, now) != [] && Q(LeaderChain(cfg, now)) {
        BuiltChainGrows(processor, LeaderChain(cfg, now), NextBlock(cfg, LeaderChain(cfg, now), events[i].body));
      }
    }
    LeaderChainKeeps(cfg, s, events, Q);
  }

  lemma FollowersSync(cfg: Config, s: Cluster, node: string, synced: Synced)
    requires Safe(cfg, s) && node in s.disks && InSync(Visible(s.disks[node]), synced)
    ensures InSync(LeaderChain(cfg, s), synced)
  {
    SafeKeepsPrefixes(cfg, s);
    assert Visible(s.disks[node]) <= LeaderChain(cfg, s);
    StateOfPrefix(Visible(s.disks[node]), LeaderChain(cfg, s), synced.lastBlockHeight);
  }

  /**
   In every reachable cluster the store of every node, synced to whatever height its chain allows,
   answers every read with what executing the leader's transactions up to that height left there.
   */
  lemma EveryNodeReplicates(cfg: Config, processor: Processor, s: Cluster, events: seq<Event>,
                            node: string, synced: Synced)
    requires Initial(cfg, s) && LeaderAlwaysKeepsUp(cfg, s, events) && BuildsExecuted(cfg, processor, s, events)
    requires var now := Steps(cfg, s, events); node in now.disks && InSync(Visible(now.disks[node]), synced)
    ensures var now, h := Steps(cfg, s, events), synced.lastBlockHeight;
            && cfg.leader in now.disks && (h == 0 || h < |LeaderChain(cfg, now)|)
            && Answers(synced.store, ExecutedUpTo(processor, LeaderChain(cfg, now), h).ledger)
  {
    var now := Steps(cfg, s, events);
    LeaderChainIsBuilt(cfg, processor, s, events);
    FollowersSync(cfg, now, node, synced);
    forall k: StateKey
      ensures Lookup(synced.store, k) ==
              Get(ExecutedUpTo(processor, LeaderChain(cfg, now), synced.lastBlockHeight).ledger, k)
    {
      SyncedStoreIsExecution(processor, LeaderChain(cfg, now), synced, k);
    }
  }

  // Blocks the virtual machine made

  /** Every body is what the virtual machine made of some entries on the last state of the leader's chain. */
  ghost predicate BuildsMade(cfg: Config, processor: Processor, s: Cluster, events: seq<Event>) {
    forall i :: 0 <= i < |events| && events[i].Build? ==>
      BuildMade(cfg, processor, Steps(cfg, s, events[..i]), events[i].body)
  }

  ghost predicate BuildMade(cfg: Config, processor: Processor, s: Cluster, body: BlockBody) {
    cfg.leader in s.disks && LeaderChain(cfg, s) != [] ==> Made(processor, TipState(LeaderChain(cfg, s)), body)
  }

  lemma LeaderChainIsMade(cfg: Config, processor: Processor, s: Cluster, events: seq<Event>)
    requires Initial(cfg, s) && LeaderAlwaysKeepsUp(cfg, s, events) && BuildsMade(cfg, processor, s, events)
    ensures Safe(cfg, Steps(cfg, s, events))
    ensures MadeChain(processor, LeaderChain(cfg, Steps(cfg, s, events)))
  {
    ghost var Q := (chain: seq<Block>) => MadeChain(processor, chain);
    forall i | 0 <= i < |events| && events[i].Build?
      ensures BuildKeeps(cfg, Steps(cfg, s, events[..i]), events[i].body, Q)
    {
      var now := Steps(cfg, s, events[..i]);
      assert BuildMade(cfg, processor, now, events[i].body);
      if cfg.leader in now.disks && LeaderChain(cfg, now) != [] && Q(LeaderChain(cfg, now)) {
        MadeChainGrows(processor, LeaderChain(cfg, now), NextBlock(cfg, LeaderChain(cfg, now), events[i].body));
      }
    }
    LeaderChainKeeps(cfg, s, events, Q);
  }

  /**
   In every reachable cluster the store of every node, synced to whatever height its chain allows,
   answers every read with what executing the leader's transactions up to that height left there, if
   and only if none of these wrote a key with a colon.
   */
  lemma EveryNodeReplicatesIff(cfg: Config, processor: Processor, s: Cluster, events: seq<Event>,
                               node: string, synced: Synced)
    requires Initial(cfg, s) && LeaderAlwaysKeepsUp(cfg, s, events) && BuildsMade(cfg, processor, s, events)
    requires RegistersWellFormed(processor)
    requires var now := Steps(cfg, s, events); node in now.disks && InSync(Visible(now.disks[node]), synced)
    ensures var now, h := Steps(cfg, s, events), synced.lastBlockHeight;
            && cfg.leader in now.disks && (h == 0 || h < |LeaderChain(cfg, now)|)
            && var run := ExecutedUpTo(processor, LeaderChain(cfg, now), h);
               Answers(synced.store, run.ledger) <==> NoColons(run.written)
  {
    var now := Steps(cfg, s, events);
    LeaderChainIsMade(cfg, processor, s, events);
    FollowersSync(cfg, now, node, synced);
    SyncedStoreIff(processor, LeaderChain(cfg, now), synced);
  }
}
