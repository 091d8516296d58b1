/**
 Progress of stub consensus: from every safe state, heartbeats, block synchronisation and messages that
 do arrive can bring every node to the leader's chain and open the gate, if the cluster has enough
 nodes for it to open at all.
 */
module ClusterProgress {
  import opened Wrappers
  import opened Types
  import opened Chains
  import opened BlockStorages
  import opened BlockStorageSyncs
  import opened StubConsensuses

  /** An event that only passes on what there is. */
  predicate Quiet(e: Event) {
    e.Heartbeat? || e.Sync? || e.DeliverCommit? || e.DeliverHeight?
  }

  predicate AllQuiet(events: seq<Event>) {
    forall i :: 0 <= i < |events| ==> Quiet(events[i])
  }

  function Others(cfg: Config, s: Cluster): set<string> {
    s.disks.Keys - {cfg.leader}
  }

  /** Every node holds the leader's chain. */
  ghost predicate Level(cfg: Config, s: Cluster) {
    cfg.leader in s.disks && forall n :: n in s.disks ==> Visible(s.disks[n]) == LeaderChain(cfg, s)
  }

  predicate GateOpen(cfg: Config, s: Cluster) {
    && cfg.leader in s.disks
    && EnoughSynced(s.reports, cfg.clusterSize, cfg.acceptable, |LeaderChain(cfg, s)| - 1)
  }

  lemma StepsNext(cfg: Config, s: Cluster, events: seq<Event>, e: Event)
    ensures Steps(cfg, s, events + [e]) == Step(cfg, Steps(cfg, s, events), e)
  {
    assert (events + [e])[..|events|] == events;
  }

  lemma {:induction false} StepsAppend(cfg: Config, s: Cluster, a: seq<Event>, b: seq<Event>)
    ensures Steps(cfg, Steps(cfg, s, a), b) == Steps(cfg, s, a + b)
  {
    if b == [] {
      assert a + b == a;
    } else {
      var n := |b| - 1;
      StepsAppend(cfg, s, a, b[..n]);
      assert (a + b)[..|a + b| - 1] == a + b[..n];
    }
  }

  // Synchronising every node

  /** The same cluster but for what the nodes other than the leader hold. */
  ghost predicate Alike(cfg: Config, s: Cluster, t: Cluster) {
    && cfg.leader in s.disks && cfg.leader in t.disks
    && t.disks.Keys == s.disks.Keys && LeaderChain(cfg, t) == LeaderChain(cfg, s)
    && t.commits == s.commits && t.reports == s.reports
  }

  lemma LeaderIsPeer(cfg: Config, s: Cluster, queue: seq<Block>)
    requires cfg.leader in s.disks && forall b :: b in queue ==> b in LeaderChain(cfg, s)
    ensures FromPeers(s, queue)
  {
    forall i | 0 <= i < |queue|
      ensures exists n :: n in s.disks && queue[i] in Visible(s.disks[n])
    {
      assert queue[i] in queue;
      assert cfg.leader in s.disks && queue[i] in Visible(s.disks[cfg.leader]);
    }
  }

  lemma AppendedIsAlike(cfg: Config, s: Cluster, node: string, queue: seq<Block>, unreported: set<Block>)
    requires cfg.leader in s.disks && node in Others(cfg, s)
    ensures Alike(cfg, s, Appended(cfg, s, node, queue, unreported))
    ensures forall n :: n in s.disks && n != node ==> Appended(cfg, s, node, queue, unreported).disks[n] == s.disks[n]
  {
  }

  lemma SyncOne(cfg: Config, s: Cluster, node: string) returns (e: Event)
    requires Safe(cfg, s) && node in Others(cfg, s)
    ensures Quiet(e)
    ensures var t := Step(cfg, s, e);
            && Safe(cfg, t) && Alike(cfg, s, t)
            && Visible(t.disks[node]) == LeaderChain(cfg, s)
            && forall n :: n in s.disks && n != node ==> t.disks[n] == s.disks[n]
  {
    var leader, d := LeaderChain(cfg, s), s.disks[node];
    assert Inside(cfg.rules, d, leader) && |Visible(d)| <= |leader| by {
      SafeKeepsPrefixes(cfg, s);
    }
    var lacking := leader[|Visible(d)|..];
    LeaderIsPeer(cfg, s, lacking);
    SyncsUp(cfg, s, node, leader, d);
    SyncKeepsSafe(cfg, s, node, lacking, {});
    AppendedIsAlike(cfg, s, node, lacking, {});
    e := Sync(node, lacking, {});
  }

  lemma QuietMore(events: seq<Event>, more: seq<Event>)
    requires AllQuiet(events) && AllQuiet(more)
    ensures AllQuiet(events + more)
  {
  }

  /** The nodes in `done` have been synchronised since `s`. */
  ghost predicate SyncedSince(cfg: Config, s: Cluster, t: Cluster, done: set<string>) {
    && Safe(cfg, t) && Alike(cfg, s, t)
    && forall n :: n in done ==> n in t.disks && Visible(t.disks[n]) == LeaderChain(cfg, s)
  }

  lemma OneMoreSynced(cfg: Config, s: Cluster, mid: Cluster, t: Cluster, done: set<string>, node: string)
    requires Alike(cfg, s, mid) && Alike(cfg, mid, t)
    requires forall n :: n in done ==> n in mid.disks && Visible(mid.disks[n]) == LeaderChain(cfg, s)
    requires node in mid.disks && Visible(t.disks[node]) == LeaderChain(cfg, mid)
    requires forall n :: n in mid.disks && n != node ==> t.disks[n] == mid.disks[n]
    ensures Alike(cfg, s, t)
    ensures forall n :: n in done + {node} ==> n in t.disks && Visible(t.disks[n]) == LeaderChain(cfg, s)
  {
  }

  lemma OneStep(cfg: Config, s: Cluster, e: Event)
    ensures Steps(cfg, s, [e]) == Step(cfg, s, e)
  {
    assert [e][..0] == [];
  }

  lemma SyncBySteps(cfg: Config, s: Cluster, node: string) returns (events: seq<Event>, t: Cluster)
    requires Safe(cfg, s) && node in Others(cfg, s)
    ensures AllQuiet(events) && t == Steps(cfg, s, events)
    ensures Safe(cfg, t) && Alike(cfg, s, t) && Visible(t.disks[node]) == LeaderChain(cfg, s)
    ensures forall n :: n in s.disks && n != node ==> t.disks[n] == s.disks[n]
  {
    var e := SyncOne(cfg, s, node);
    OneStep(cfg, s, e);
    events, t := [e], Step(cfg, s, e);
  }

  lemma SyncAdvances(cfg: Config, s: Cluster, mid: Cluster, done: set<string>, node: string)
    returns (events: seq<Event>, t: Cluster)
    requires SyncedSince(cfg, s, mid, done) && node in Others(cfg, s)
    ensures AllQuiet(events) && t == Steps(cfg, mid, events) && SyncedSince(cfg, s, t, done + {node})
  {
    events, t := SyncBySteps(cfg, mid, node);
    OneMoreSynced(cfg, s, mid, t, done, node);
  }

  // One node after another

  /** Some quiet events advance the property P from the nodes done to one more. */
  ghost predicate Advances(cfg: Config, mid: Cluster, done: set<string>, node: string,
                           P: (Cluster, set<string>) -> bool) {
    exists events :: AllQuiet(events) && P(Steps(cfg, mid, events), done + {node})
  }

  lemma {:induction false} OneAfterAnother(cfg: Config, s: Cluster, todo: set<string>, all: set<string>,
                                           P: (Cluster, set<string>) -> bool) returns (events: seq<Event>)
    requires todo <= all && P(s, {})
    requires forall mid: Cluster, done: set<string>, node: string ::
               P(mid, done) && node in all ==> Advances(cfg, mid, done, node, P)
    ensures AllQuiet(events) && P(Steps(cfg, s, events), todo)
    decreases todo
  {
    if todo == {} {
      events := [];
    } else {
      var node :| node in todo;
      var before := OneAfterAnother(cfg, s, todo - {node}, all, P);
      var mid := Steps(cfg, s, before);
      assert Advances(cfg, mid, todo - {node}, node, P);
      var more :| AllQuiet(more) && P(Steps(cfg, mid, more), todo - {node} + {node});
      assert todo - {node} + {node} == todo;
      StepsAppend(cfg, s, before, more);
      QuietMore(before, more);
      events := before + more;
    }
  }

  lemma NothingSynced(cfg: Config, s: Cluster)
    requires Safe(cfg, s)
    ensures SyncedSince(cfg, s, s, {})
  {
  }

  lemma AdvancesBy(cfg: Config, mid: Cluster, done: set<string>, node: string, P: (Cluster, set<string>) -> bool,
                   events: seq<Event>)
    requires AllQuiet(events) && P(Steps(cfg, mid, events), done + {node})
    ensures Advances(cfg, mid, done, node, P)
  {
  }

  lemma SyncAll(cfg: Config, s: Cluster) returns (events: seq<Event>)
    requires Safe(cfg, s)
    ensures AllQuiet(events) && SyncedSince(cfg, s, Steps(cfg, s, events), Others(cfg, s))
  {
    ghost var P := (t: Cluster, done: set<string>) => SyncedSince(cfg, s, t, done);
    forall mid: Cluster, done: set<string>, node: string | P(mid, done) && node in Others(cfg, s)
      ensures Advances(cfg, mid, done, node, P)
    {
      var more, t := SyncAdvances(cfg, s, mid, done, node);
      AdvancesBy(cfg, mid, done, node, P, more);
    }
    NothingSynced(cfg, s);
    events := OneAfterAnother(cfg, s, Others(cfg, s), Others(cfg, s), P);
  }

  lemma AllSyncedIsLevel(cfg: Config, s: Cluster, t: Cluster)
    requires Alike(cfg, s, t) && forall n :: n in Others(cfg, s) ==> Visible(t.disks[n]) == LeaderChain(cfg, s)
    ensures Level(cfg, t)
  {
    forall n | n in t.disks
      ensures Visible(t.disks[n]) == LeaderChain(cfg, t)
    {
      if n != cfg.leader {
        assert n in Others(cfg, s);
      }
    }
  }

  // Reporting every height

  lemma TipIsOld(rules: Rules, chain: seq<Block>)
    requires Linked(rules.hash, chain) && chain != []
    ensures Objection(rules, chain, chain[|chain| - 1]).Some?
  {
  }

  lemma OldBlockReports(cfg: Config, s: Cluster, node: string, block: Block)
    requires cfg.leader in s.disks && node in Others(cfg, s) && block in s.commits
    requires Objection(cfg.rules, Visible(s.disks[node]), block).Some?
    ensures Delivered(cfg, s, node, block, true) == Reported(s, node, |Visible(s.disks[node])| - 1)
  {
    assert s.disks[node := s.disks[node]] == s.disks;
    assert s.(disks := s.disks[node := s.disks[node]]) == s;
  }

  /** A node that is level gets the last block again, and its report of the leader's height arrives. */
  lemma ReportOne(cfg: Config, s: Cluster, node: string) returns (a: Event, b: Event)
    requires Safe(cfg, s) && Level(cfg, s) && node in Others(cfg, s) && Tip(LeaderChain(cfg, s)) <= s.commits
    ensures Quiet(a) && Quiet(b)
    ensures var height := |LeaderChain(cfg, s)| - 1;
            Step(cfg, Step(cfg, s, a), b) ==
            s.(heights := s.heights + {Report(node, height)}, reports := s.reports[node := height])
  {
    SafeKeepsPrefixes(cfg, s);
    var chain := LeaderChain(cfg, s);
    var tip := chain[|chain| - 1];
    assert Visible(s.disks[node]) == chain && tip in Tip(chain);
    TipIsOld(cfg.rules, chain);
    OldBlockReports(cfg, s, node, tip);
    a, b := DeliverCommit(node, tip, true), DeliverHeight(Report(node, |chain| - 1));
  }

  /** The same cluster but for the heights reported. */
  ghost predicate AlikeButReports(s: Cluster, t: Cluster) {
    t.disks == s.disks && t.commits == s.commits
  }

  lemma QuietKeepsSafe(cfg: Config, s: Cluster, e: Event)
    requires Safe(cfg, s) && Quiet(e)
    ensures Safe(cfg, Step(cfg, s, e))
  {
    StepKeepsSafe(cfg, s, e);
  }

  /** The nodes in `done` have reported the height of the leader's chain since `s`. */
  ghost predicate ReportedSince(cfg: Config, s: Cluster, t: Cluster, done: set<string>, height: int) {
    && Safe(cfg, t) && AlikeButReports(s, t)
    && t.reports.Keys == s.reports.Keys + done
    && forall n :: n in done ==> n in t.reports && t.reports[n] == height
  }

  lemma OneMoreReported(s: Cluster, mid: Cluster, t: Cluster, done: set<string>, height: int, node: string)
    requires AlikeButReports(s, mid)
    requires mid.reports.Keys == s.reports.Keys + done
    requires forall n :: n in done ==> n in mid.reports && mid.reports[n] == height
    requires t == mid.(heights := mid.heights + {Report(node, height)}, reports := mid.reports[node := height])
    ensures AlikeButReports(s, t)
    ensures t.reports.Keys == s.reports.Keys + (done + {node})
    ensures forall n :: n in done + {node} ==> n in t.reports && t.reports[n] == height
  {
  }

  lemma StaysLevel(cfg: Config, s: Cluster, t: Cluster)
    requires Level(cfg, s) && AlikeButReports(s, t)
    ensures Level(cfg, t) && LeaderChain(cfg, t) == LeaderChain(cfg, s) && Others(cfg, t) == Others(cfg, s)
  {
  }

  lemma ReportBySteps(cfg: Config, s: Cluster, node: string, height: int) returns (events: seq<Event>, t: Cluster)
    requires Safe(cfg, s) && Level(cfg, s) && node in Others(cfg, s)
    requires Tip(LeaderChain(cfg, s)) <= s.commits && height == |LeaderChain(cfg, s)| - 1
    ensures AllQuiet(events) && t == Steps(cfg, s, events) && Safe(cfg, t)
    ensures t == s.(heights := s.heights + {Report(node, height)}, reports := s.reports[node := height])
  {
    var a, b := ReportOne(cfg, s, node);
    QuietKeepsSafe(cfg, s, a);
    QuietKeepsSafe(cfg, Step(cfg, s, a), b);
    TwoSteps(cfg, s, a, b);
    events, t := [a, b], Step(cfg, Step(cfg, s, a), b);
  }

  lemma ReportAdvances(cfg: Config, s: Cluster, mid: Cluster, done: set<string>, height: int, node: string)
    returns (events: seq<Event>, t: Cluster)
    requires Level(cfg, s) && Tip(LeaderChain(cfg, s)) <= s.commits && height == |LeaderChain(cfg, s)| - 1
    requires ReportedSince(cfg, s, mid, done, height) && node in Others(cfg, s)
    ensures AllQuiet(events) && t == Steps(cfg, mid, events) && ReportedSince(cfg, s, t, done + {node}, height)
  {
    StaysLevel(cfg, s, mid);
    events, t := ReportBySteps(cfg, mid, node, height);
    OneMoreReported(s, mid, t, done, height, node);
  }

  lemma NothingReported(cfg: Config, s: Cluster, height: int)
    requires Safe(cfg, s)
    ensures ReportedSince(cfg, s, s, {}, height)
  {
  }

  lemma ReportAll(cfg: Config, s: Cluster, height: int) returns (events: seq<Event>)
    requires Safe(cfg, s) && Level(cfg, s)
    requires Tip(LeaderChain(cfg, s)) <= s.commits && height == |LeaderChain(cfg, s)| - 1
    ensures AllQuiet(events) && ReportedSince(cfg, s, Steps(cfg, s, events), Others(cfg, s), height)
  {
    ghost var P := (t: Cluster, done: set<string>) => ReportedSince(cfg, s, t, done, height);
    forall mid: Cluster, done: set<string>, node: string | P(mid, done) && node in Others(cfg, s)
      ensures Advances(cfg, mid, done, node, P)
    {
      var more, t := ReportAdvances(cfg, s, mid, done, height, node);
      AdvancesBy(cfg, mid, done, node, P, more);
    }
    NothingReported(cfg, s, height);
    events := OneAfterAnother(cfg, s, Others(cfg, s), Others(cfg, s), P);
  }

  lemma CountOthers(cfg: Config, s: Cluster)
    requires cfg.leader in s.disks
    ensures |Others(cfg, s)| == |s.disks| - 1
  {
    assert s.disks.Keys == Others(cfg, s) + {cfg.leader};
    assert |s.disks.Keys| == |s.disks|;
  }

  lemma AllAgreeOpens(reports: map<string, int>, nodes: set<string>, clusterSize: nat, acceptable: nat, height: int)
    requires reports.Keys == nodes && |nodes| >= clusterSize - acceptable - 1
    requires forall n :: n in nodes ==> reports[n] == height
    ensures EnoughSynced(reports, clusterSize, acceptable, height)
  {
    assert Unsynced(reports, height) == {};
    assert |reports.Keys| == |reports|;
  }

  lemma ReportersAreOthers(cfg: Config, s: Cluster)
    requires Safe(cfg, s)
    ensures s.reports.Keys <= Others(cfg, s)
  {
    forall n | n in s.reports
      ensures n in Others(cfg, s)
    {
      assert Reached(cfg, s, n, s.reports[n]);
    }
  }

  // Progress

  /** A closed gate makes the leader broadcast its last block. */
  lemma HeartbeatBroadcasts(cfg: Config, s: Cluster)
    requires cfg.leader in s.disks && !GateOpen(cfg, s)
    ensures Step(cfg, s, Heartbeat) == s.(commits := s.commits + Tip(LeaderChain(cfg, s)))
  {
  }

  lemma EverybodyReported(cfg: Config, s: Cluster, reports: map<string, int>, height: int)
    requires Safe(cfg, s) && |s.disks| >= cfg.clusterSize - cfg.acceptable
    requires reports.Keys == s.reports.Keys + Others(cfg, s)
    requires forall n :: n in Others(cfg, s) ==> n in reports && reports[n] == height
    ensures EnoughSynced(reports, cfg.clusterSize, cfg.acceptable, height)
  {
    var others := Others(cfg, s);
    assert reports.Keys == others && |others| == |s.disks| - 1 by {
      ReportersAreOthers(cfg, s);
      CountOthers(cfg, s);
    }
    AllAgreeOpens(reports, others, cfg.clusterSize, cfg.acceptable, height);
  }

  /** A level cluster whose gate is closed: the leader broadcasts its last block, and everybody reports. */
  lemma OpensWhenLevel(cfg: Config, s: Cluster) returns (events: seq<Event>)
    requires Safe(cfg, s) && Level(cfg, s) && !GateOpen(cfg, s)
    requires |s.disks| >= cfg.clusterSize - cfg.acceptable
    ensures AllQuiet(events) && Steps(cfg, s, events).disks == s.disks && GateOpen(cfg, Steps(cfg, s, events))
  {
    var beat := Step(cfg, s, Heartbeat);
    HeartbeatBroadcasts(cfg, s);
    QuietKeepsSafe(cfg, s, Heartbeat);
    SameNodesLevel(cfg, s, beat);
    var rest := OpensAfterBroadcast(cfg, beat);
    OneThenMore(cfg, s, Heartbeat, rest);
    QuietMore([Heartbeat], rest);
    events := [Heartbeat] + rest;
  }

  lemma OpensAfterBroadcast(cfg: Config, s: Cluster) returns (events: seq<Event>)
    requires Safe(cfg, s) && Level(cfg, s) && Tip(LeaderChain(cfg, s)) <= s.commits
    requires |s.disks| >= cfg.clusterSize - cfg.acceptable
    ensures AllQuiet(events) && Steps(cfg, s, events).disks == s.disks && GateOpen(cfg, Steps(cfg, s, events))
  {
    var height := |LeaderChain(cfg, s)| - 1;
    events := ReportAll(cfg, s, height);
    var end := Steps(cfg, s, events);
    EverybodyReported(cfg, s, end.reports, height);
    StaysLevel(cfg, s, end);
  }

  lemma OneThenMore(cfg: Config, s: Cluster, e: Event, more: seq<Event>)
    ensures Steps(cfg, s, [e] + more) == Steps(cfg, Step(cfg, s, e), more)
  {
    StepsNext(cfg, s, [], e);
    assert [] + [e] == [e];
    StepsAppend(cfg, s, [e], more);
  }

  lemma SameNodesLevel(cfg: Config, s: Cluster, t: Cluster)
    requires Level(cfg, s) && t.disks == s.disks
    ensures Level(cfg, t) && LeaderChain(cfg, t) == LeaderChain(cfg, s)
  {
  }

  lemma AlikeCount(cfg: Config, s: Cluster, t: Cluster)
    requires t.disks.Keys == s.disks.Keys
    ensures |t.disks| == |s.disks|
  {
    assert |t.disks.Keys| == |t.disks| && |s.disks.Keys| == |s.disks|;
  }

  /** From every safe state of a cluster with enough nodes, all can catch up and the gate can open. */
  lemma ClusterRecovers(cfg: Config, s: Cluster) returns (events: seq<Event>)
    requires Safe(cfg, s) && |s.disks| >= cfg.clusterSize - cfg.acceptable
    ensures AllQuiet(events)
    ensures var t := Steps(cfg, s, events);
            && Level(cfg, t) && GateOpen(cfg, t)
            && cfg.leader in s.disks && LeaderChain(cfg, t) == LeaderChain(cfg, s)
  {
    events := SyncAll(cfg, s);
    var level := Steps(cfg, s, events);
    AllSyncedIsLevel(cfg, s, level);
    if !GateOpen(cfg, level) {
      AlikeCount(cfg, s, level);
      var more := OpensWhenLevel(cfg, level);
      StepsAppend(cfg, s, events, more);
      QuietMore(events, more);
      SameNodesLevel(cfg, level, Steps(cfg, level, more));
      events := events + more;
    }
  }

  lemma QuietKeepsNodes(cfg: Config, s: Cluster, e: Event)
    ensures Step(cfg, s, e).disks.Keys == s.disks.Keys
  {
  }

  lemma {:induction false} AllQuietKeepSafe(cfg: Config, s: Cluster, events: seq<Event>)
    requires Safe(cfg, s) && AllQuiet(events)
    ensures Safe(cfg, Steps(cfg, s, events)) && Steps(cfg, s, events).disks.Keys == s.disks.Keys
  {
    if events != [] {
      var n := |events| - 1;
      AllQuietKeepSafe(cfg, s, events[..n]);
      QuietKeepsSafe(cfg, Steps(cfg, s, events[..n]), events[n]);
      QuietKeepsNodes(cfg, Steps(cfg, s, events[..n]), events[n]);
    }
  }

  lemma OpenNeedsNodes(cfg: Config, s: Cluster)
    requires Safe(cfg, s) && GateOpen(cfg, s)
    ensures |s.disks| >= cfg.clusterSize - cfg.acceptable
  {
    ReportersAreOthers(cfg, s);
    SubsetSize(s.reports.Keys, Others(cfg, s));
    CountOthers(cfg, s);
    assert |s.reports| == |s.reports.Keys|;
  }

  /** Some quiet events bring every node to the leader's chain and open the gate. */
  ghost predicate CanRecover(cfg: Config, s: Cluster) {
    exists events :: AllQuiet(events) && Level(cfg, Steps(cfg, s, events)) && GateOpen(cfg, Steps(cfg, s, events))
  }

  /**
   From every safe state all nodes can be brought to the leader's chain and the gate opened, without a
   new block, if and only if the cluster has at least clusterSize - acceptable nodes.
   */
  lemma CanRecoverIff(cfg: Config, s: Cluster)
    requires Safe(cfg, s)
    ensures CanRecover(cfg, s) <==> |s.disks| >= cfg.clusterSize - cfg.acceptable
  {
    if |s.disks| >= cfg.clusterSize - cfg.acceptable {
      var events := ClusterRecovers(cfg, s);
    } else {
      forall events | AllQuiet(events)
        ensures !GateOpen(cfg, Steps(cfg, s, events))
      {
        AllQuietKeepSafe(cfg, s, events);
        AlikeCount(cfg, s, Steps(cfg, s, events));
        if GateOpen(cfg, Steps(cfg, s, events)) {
          OpenNeedsNodes(cfg, Steps(cfg, s, events));
        }
      }
    }
  }
}
