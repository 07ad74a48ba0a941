/**
 Restart-on-new-Safe ingestion of squids/babydegen: a stream is cut after the first block that
 registers a new service, and the next stream subscribes to its safes.

 The scan that cuts is proved to stop exactly where the handlers create a service, for every way the
 stream is split into batches; so restarting index runs equal one run over the whole chain.
 */
module BasiusSources {
  import opened BasiusHandlers
  import opened BasiusBlock

  /** What a stream is started with, loaded from the database. */
  datatype Tracked = Tracked(basius: set<ServiceId>, services: set<Address>, hosts: set<Address>)

  datatype Batch = Batch(blocks: seq<seq<Log>>, head: nat)

  function TrackedOf(s: State): Tracked
  {
    Tracked(s.registrations.Keys, s.services.Keys, s.hosts)
  }

  function Blocks(batches: seq<Batch>): (r: seq<seq<Log>>)
  {
    if batches == [] then [] else Blocks(batches[..|batches| - 1]) + batches[|batches| - 1].blocks
  }

  // --- The scan as a function -------------------------------------------------------------------

  /** Whether a log deploys a Basius service to a new safe, and the Basius ids known after it. */
  function ScanLog(c: Config, services: set<Address>, basius: set<ServiceId>, l: Log): (bool, set<ServiceId>)
  {
    if l.address != c.registry then (false, basius)
    else if l.topic == RegisterTopic && l.decodes && l.params.Register? then
      (false, if l.params.agentId == c.basiusAgentId && l.params.serviceId !in c.excluded then basius + {l.params.serviceId} else basius)
    else if l.topic == CreateTopic && l.decodes && l.params.Create? then
      (l.params.createdId in basius && l.params.multisig !in services, basius)
    else (false, basius)
  }

  function Scan(c: Config, services: set<Address>, basius: set<ServiceId>, logs: seq<Log>): (bool, set<ServiceId>)
  {
    if logs == [] then (false, basius)
    else
      var (found, known) := Scan(c, services, basius, logs[..|logs| - 1]);
      if found then (true, known) else ScanLog(c, services, known, logs[|logs| - 1])
  }

  /** Index of the first block with a new service, or -1. */
  function ScanBlocks(c: Config, services: set<Address>, basius: set<ServiceId>, blocks: seq<seq<Log>>): (r: (int, set<ServiceId>))
    ensures -1 <= r.0 < |blocks|
  {
    if blocks == [] then (-1, basius)
    else
      var (at, known) := ScanBlocks(c, services, basius, blocks[..|blocks| - 1]);
      if at >= 0 then (at, known)
      else
        var (found, known') := Scan(c, services, known, SortLogs(blocks[|blocks| - 1]));
        (if found then |blocks| - 1 else -1, known')
  }

  lemma {:induction false} ScanStaysFound(c: Config, services: set<Address>, basius: set<ServiceId>, logs: seq<Log>, k: nat)
    requires k <= |logs| && Scan(c, services, basius, logs[..k]).0
    ensures Scan(c, services, basius, logs) == Scan(c, services, basius, logs[..k])
    decreases |logs|
  {
    if k < |logs| {
      assert logs[..|logs| - 1][..k] == logs[..k];
      ScanStaysFound(c, services, basius, logs[..|logs| - 1], k);
    } else {
      assert logs[..k] == logs;
    }
  }

  lemma {:induction false} ScanBlocksStaysFound(c: Config, services: set<Address>, basius: set<ServiceId>, blocks: seq<seq<Log>>, k: nat)
    requires k <= |blocks| && ScanBlocks(c, services, basius, blocks[..k]).0 >= 0
    ensures ScanBlocks(c, services, basius, blocks) == ScanBlocks(c, services, basius, blocks[..k])
    decreases |blocks|
  {
    if k < |blocks| {
      assert blocks[..|blocks| - 1][..k] == blocks[..k];
      ScanBlocksStaysFound(c, services, basius, blocks[..|blocks| - 1], k);
    } else {
      assert blocks[..k] == blocks;
    }
  }

  /** The ids collected in one batch gate the deploys of the next: scanning piecewise is scanning at once. */
  lemma {:induction false} ScanBlocksConcat(c: Config, services: set<Address>, basius: set<ServiceId>, a: seq<seq<Log>>, b: seq<seq<Log>>)
    ensures var (at, known) := ScanBlocks(c, services, basius, a);
            var (bt, known') := ScanBlocks(c, services, known, b);
            ScanBlocks(c, services, basius, a + b)
            == if at >= 0 then (at, known) else (if bt >= 0 then |a| + bt else -1, known')
    decreases |b|
  {
    if b == [] {
      assert a + b == a;
    } else {
      assert (a + b)[..|a + b| - 1] == a + b[..|b| - 1];
      ScanBlocksConcat(c, services, basius, a, b[..|b| - 1]);
    }
  }

  // --- The scan and the cut as they run ---------------------------------------------------------

  /** The known Basius ids are a set shared by the whole stream, so they are handed in and back. */
  method FirstSpawnIndex(c: Config, blocks: seq<seq<Log>>, tracked: Tracked, basius0: set<ServiceId>)
    returns (at: int, basius: set<ServiceId>)
    ensures (at, basius) == ScanBlocks(c, tracked.services, basius0, blocks)
  {
    basius := basius0;
    for b := 0 to |blocks|
      invariant ScanBlocks(c, tracked.services, basius0, blocks[..b]) == (-1, basius)
    {
      var logs := SortLogs(blocks[b]);
      ghost var known := basius;
      assert blocks[..b + 1][..b] == blocks[..b];
      for k := 0 to |logs|
        invariant Scan(c, tracked.services, known, logs[..k]) == (false, basius)
      {
        var log := logs[k];
        assert logs[..k + 1][..k] == logs[..k];
        if log.address != c.registry {
          continue;
        }
        if log.topic == RegisterTopic && log.decodes && log.params.Register? {
          if log.params.agentId == c.basiusAgentId && log.params.serviceId !in c.excluded {
            basius := basius + {log.params.serviceId};
          }
        } else if log.topic == CreateTopic && log.decodes && log.params.Create? {
          if log.params.createdId in basius && log.params.multisig !in tracked.services {
            ScanStaysFound(c, tracked.services, known, logs, k + 1);
            ScanBlocksStaysFound(c, tracked.services, basius0, blocks, b + 1);
            return b, basius;
          }
        }
      }
      assert logs[..|logs|] == logs;
    }
    assert blocks[..|blocks|] == blocks;
    return -1, basius;
  }

  /** Pass batches through up to and including the first block with a new service. */
  method CutAtSpawn(c: Config, batches: seq<Batch>, tracked: Tracked) returns (out: seq<Batch>, cut: bool)
    ensures var (at, _) := ScanBlocks(c, tracked.services, tracked.basius, Blocks(batches));
            && Blocks(out) == (if at < 0 then Blocks(batches) else Blocks(batches)[..at + 1])
            && (cut <==> at >= 0)
  {
    var basius := tracked.basius;
    out, cut := [], false;
    for k := 0 to |batches|
      invariant out == batches[..k]
      invariant ScanBlocks(c, tracked.services, tracked.basius, Blocks(batches[..k])) == (-1, basius)
    {
      var batch := batches[k];
      assert batches[..k + 1][..k] == batches[..k];
      ghost var done := Blocks(batches[..k]);
      ScanBlocksConcat(c, tracked.services, tracked.basius, done, batch.blocks);
      var at;
      at, basius := FirstSpawnIndex(c, batch.blocks, tracked, basius);
      if at < 0 {
        out := out + [batch];
        continue;
      }
      cut := true;
      out := out + [batch.(blocks := batch.blocks[..at + 1])];
      CutBatch(c, batches, k, tracked, at);
      return;
    }
    assert batches[..|batches|] == batches;
  }

  /** Cutting batch k at its first new service cuts the whole stream there. */
  lemma CutBatch(c: Config, batches: seq<Batch>, k: nat, tracked: Tracked, at: nat)
    requires k < |batches| && at < |batches[k].blocks|
    requires ScanBlocks(c, tracked.services, tracked.basius, Blocks(batches[..k])).0 < 0
    requires var basius := ScanBlocks(c, tracked.services, tracked.basius, Blocks(batches[..k])).1;
             ScanBlocks(c, tracked.services, basius, batches[k].blocks).0 == at
    ensures var whole := Blocks(batches);
            var n := ScanBlocks(c, tracked.services, tracked.basius, whole).0;
            && n >= 0
            && Blocks(batches[..k] + [batches[k].(blocks := batches[k].blocks[..at + 1])]) == whole[..n + 1]
  {
    FoundInBatch(c, batches, k, tracked, at);
    CutBlocks(batches, k, at);
  }

  lemma FoundInBatch(c: Config, batches: seq<Batch>, k: nat, tracked: Tracked, at: nat)
    requires k < |batches| && at < |batches[k].blocks|
    requires ScanBlocks(c, tracked.services, tracked.basius, Blocks(batches[..k])).0 < 0
    requires var basius := ScanBlocks(c, tracked.services, tracked.basius, Blocks(batches[..k])).1;
             ScanBlocks(c, tracked.services, basius, batches[k].blocks).0 == at
    ensures ScanBlocks(c, tracked.services, tracked.basius, Blocks(batches)).0 == |Blocks(batches[..k])| + at
  {
    var done, blocks := Blocks(batches[..k]), batches[k].blocks;
    assert batches[..k + 1][..k] == batches[..k];
    ScanBlocksConcat(c, tracked.services, tracked.basius, done, blocks);
    BlocksPrefix(batches, k + 1);
    ScanBlocksStaysFound(c, tracked.services, tracked.basius, Blocks(batches), |done + blocks|);
  }

  lemma CutBlocks(batches: seq<Batch>, k: nat, at: nat)
    requires k < |batches| && at < |batches[k].blocks|
    ensures var n := |Blocks(batches[..k])| + at;
            && n < |Blocks(batches)|
            && Blocks(batches[..k] + [batches[k].(blocks := batches[k].blocks[..at + 1])]) == Blocks(batches)[..n + 1]
  {
    var done, blocks := Blocks(batches[..k]), batches[k].blocks;
    var out := batches[..k] + [batches[k].(blocks := blocks[..at + 1])];
    assert out[..|out| - 1] == batches[..k];
    assert batches[..k + 1][..k] == batches[..k];
    BlocksPrefix(batches, k + 1);
    assert done + blocks[..at + 1] == (done + blocks)[..|done| + at + 1];
    assert Blocks(batches)[..|done + blocks|][..|done| + at + 1] == Blocks(batches)[..|done| + at + 1];
  }

  lemma {:induction false} BlocksPrefix(batches: seq<Batch>, k: nat)
    requires k <= |batches|
    ensures var p := Blocks(batches[..k]);
            |p| <= |Blocks(batches)| && Blocks(batches)[..|p|] == p
    decreases |batches|
  {
    if k < |batches| {
      assert batches[..|batches| - 1][..k] == batches[..k];
      BlocksPrefix(batches[..|batches| - 1], k);
    } else {
      assert batches[..k] == batches;
    }
  }

  // --- The scan stops where the handlers create a service ---------------------------------------

  /** The handlers over whole blocks. */
  function RunBlocks(c: Config, s: State, chain: seq<seq<Log>>): State
  {
    if chain == [] then s else BlockSpec(c, RunBlocks(c, s, chain[..|chain| - 1]), chain[|chain| - 1])
  }

  /** What the database always satisfies: excluded ids are never registered. */
  ghost predicate NoneExcluded(c: Config, s: State)
  {
    s.registrations.Keys !! c.excluded
  }

  lemma ScanLogAgrees(c: Config, s: State, hosts0: set<Address>, l: Log)
    requires NoneExcluded(c, s)
    ensures var (found, known) := ScanLog(c, s.services.Keys, s.registrations.Keys, l);
            var t := InPlaceStep(c, s, hosts0, l);
            && NoneExcluded(c, t)
            && (found <==> t.services.Keys != s.services.Keys)
            && s.services.Keys <= t.services.Keys
            && (!found ==> t.hosts == s.hosts && t.registrations.Keys == known)
  {
    DispatchGrowth(c, s, l);
    var t := Dispatch(c, s, l);
    if l.address == c.registry && l.topic == CreateTopic && l.decodes && l.params.Create? {
      if l.params.createdId in s.registrations && l.params.multisig !in s.services {
        assert l.params.multisig in t.services;
      }
    }
  }

  lemma {:induction false} ScanAgrees(c: Config, s: State, hosts0: set<Address>, logs: seq<Log>)
    requires NoneExcluded(c, s)
    ensures var (found, known) := Scan(c, s.services.Keys, s.registrations.Keys, logs);
            var t := InPlace(c, s, hosts0, logs);
            && NoneExcluded(c, t)
            && (found <==> t.services.Keys != s.services.Keys)
            && s.services.Keys <= t.services.Keys
            && (!found ==> t.hosts == s.hosts && t.registrations.Keys == known)
  {
    if logs != [] {
      ScanAgrees(c, s, hosts0, logs[..|logs| - 1]);
      ScanLogAgrees(c, InPlace(c, s, hosts0, logs[..|logs| - 1]), hosts0, logs[|logs| - 1]);
    }
  }

  lemma {:induction false} ScanReadsRegistryLogs(c: Config, services: set<Address>, basius: set<ServiceId>, logs: seq<Log>)
    ensures Scan(c, services, basius, Filter(logs, l => RegistryLog(c, l))) == Scan(c, services, basius, logs)
  {
    if logs != [] {
      var init, last := logs[..|logs| - 1], logs[|logs| - 1];
      ScanReadsRegistryLogs(c, services, basius, init);
      var r := Filter(init, l => RegistryLog(c, l));
      if RegistryLog(c, last) {
        assert (r + [last])[..|r|] == r;
      } else {
        assert r + [] == r;
      }
    }
  }

  /** The carried part of a block is scanned as the whole block would be: every stream carries all registry logs. */
  lemma ScanOfCarried(c: Config, services: set<Address>, hosts: set<Address>, basius: set<ServiceId>, block: seq<Log>, logs: seq<Log>)
    requires Increasing(block) && Carries(c, services, hosts, block, logs)
    ensures Scan(c, services, basius, SortLogs(logs)) == Scan(c, services, basius, block)
  {
    SortLogsSorts(logs);
    var a, b := Filter(SortLogs(logs), l => RegistryLog(c, l)), Filter(block, l => RegistryLog(c, l));
    FilterIncreasing(SortLogs(logs), l => RegistryLog(c, l));
    FilterIncreasing(block, l => RegistryLog(c, l));
    IncreasingUnique(a, b);
    ScanReadsRegistryLogs(c, services, basius, SortLogs(logs));
    ScanReadsRegistryLogs(c, services, basius, block);
  }

  lemma {:induction false} RunAllKeepsRegistry(c: Config, s: State, logs: seq<Log>)
    requires forall l | l in logs :: IsSafeTopic(l)
    ensures var t := RunAll(c, s, logs);
            t.registrations == s.registrations && t.services == s.services && t.hosts == s.hosts
  {
    if logs != [] {
      assert logs[|logs| - 1] in logs;
      RunAllKeepsRegistry(c, s, logs[..|logs| - 1]);
    }
  }

  lemma BlockSpecRegistry(c: Config, s: State, block: seq<Log>)
    ensures var t, mid := BlockSpec(c, s, block), InPlace(c, s, s.hosts, block);
            t.registrations == mid.registrations && t.services == mid.services && t.hosts == mid.hosts
  {
    var mid := InPlace(c, s, s.hosts, block);
    RunAllKeepsRegistry(c, mid, Filter(block, l => HostLog(mid.hosts - s.hosts, l)));
  }

  /** One block: the scan of what the stream carried says whether the handlers create a service in it. */
  lemma BlockScanAgrees(c: Config, s: State, block: seq<Log>, logs: seq<Log>)
    requires Increasing(block) && NoneExcluded(c, s) && Carries(c, s.services.Keys, s.hosts, block, logs)
    ensures var (found, known) := Scan(c, s.services.Keys, s.registrations.Keys, SortLogs(logs));
            var t := BlockSpec(c, s, block);
            && NoneExcluded(c, t)
            && (found <==> t.services.Keys != s.services.Keys)
            && (!found ==> TrackedOf(t) == Tracked(known, s.services.Keys, s.hosts))
  {
    ScanOfCarried(c, s.services.Keys, s.hosts, s.registrations.Keys, block, logs);
    ScanAgrees(c, s, s.hosts, block);
    BlockSpecRegistry(c, s, block);
  }

  /** A stream subscribed to what `tracked` lists, one carried block per block of the chain. */
  ghost predicate Streams(c: Config, tracked: Tracked, chain: seq<seq<Log>>, blocks: seq<seq<Log>>)
  {
    && |blocks| == |chain|
    && forall b | 0 <= b < |chain| :: Increasing(chain[b]) && Carries(c, tracked.services, tracked.hosts, chain[b], blocks[b])
  }

  /** Up to n blocks the handlers created no service: the database still lists the safes the stream started with. */
  ghost predicate NoNewServiceBefore(c: Config, s: State, chain: seq<seq<Log>>, n: nat)
    requires n <= |chain|
  {
    forall m: nat | m <= n ::
      var t := RunBlocks(c, s, chain[..m]);
      NoneExcluded(c, t) && t.services.Keys == s.services.Keys && t.hosts == s.hosts
  }

  /** The scanned index is that of the first block in which the handlers create a service, or -1 when they create none. */
  ghost predicate StopsAtNewService(c: Config, s: State, chain: seq<seq<Log>>, blocks: seq<seq<Log>>)
    requires |blocks| == |chain|
  {
    var (at, known) := ScanBlocks(c, s.services.Keys, s.registrations.Keys, blocks);
    && (at < 0 ==> NoNewServiceBefore(c, s, chain, |chain|) && RunBlocks(c, s, chain).registrations.Keys == known)
    && (at >= 0 ==> NoNewServiceBefore(c, s, chain, at)
                    && RunBlocks(c, s, chain[..at + 1]).services.Keys != s.services.Keys)
  }

  /** The scan of a stream stops at the first new service; up to it, the database lists what the stream was started with. */
  lemma {:induction false} CutIsFirstNewService(c: Config, s: State, chain: seq<seq<Log>>, blocks: seq<seq<Log>>)
    requires NoneExcluded(c, s) && Streams(c, TrackedOf(s), chain, blocks)
    ensures StopsAtNewService(c, s, chain, blocks)
    decreases |chain|
  {
    if chain != [] {
      var last := |chain| - 1;
      CutIsFirstNewService(c, s, chain[..last], blocks[..last]);
      if ScanBlocks(c, s.services.Keys, s.registrations.Keys, blocks[..last]).0 >= 0 {
        CutStays(c, s, chain, blocks);
      } else {
        ScanNextBlock(c, s, chain, blocks);
      }
    } else {
      assert chain[..0] == [];
    }
  }

  lemma CutStays(c: Config, s: State, chain: seq<seq<Log>>, blocks: seq<seq<Log>>)
    requires |chain| == |blocks| > 0
    requires ScanBlocks(c, s.services.Keys, s.registrations.Keys, blocks[..|blocks| - 1]).0 >= 0
    requires StopsAtNewService(c, s, chain[..|chain| - 1], blocks[..|blocks| - 1])
    ensures StopsAtNewService(c, s, chain, blocks)
  {
    var at := ScanBlocks(c, s.services.Keys, s.registrations.Keys, blocks[..|blocks| - 1]).0;
    assert ScanBlocks(c, s.services.Keys, s.registrations.Keys, blocks).0 == at;
    CutStaysAt(c, s, chain, at);
  }

  lemma CutStaysAt(c: Config, s: State, chain: seq<seq<Log>>, at: nat)
    requires at + 1 < |chain| && NoNewServiceBefore(c, s, chain[..|chain| - 1], at)
    ensures NoNewServiceBefore(c, s, chain, at) && chain[..|chain| - 1][..at + 1] == chain[..at + 1]
  {
    PrefixRuns(c, s, chain, |chain| - 1, at);
  }

  lemma LastOfPrefix(c: Config, s: State, chain: seq<seq<Log>>)
    requires NoNewServiceBefore(c, s, chain, |chain|)
    ensures var t := RunBlocks(c, s, chain);
            t.services.Keys == s.services.Keys && t.hosts == s.hosts && NoneExcluded(c, t)
  {
    assert chain[..|chain|] == chain;
  }

  lemma ScanNextBlock(c: Config, s: State, chain: seq<seq<Log>>, blocks: seq<seq<Log>>)
    requires NoneExcluded(c, s) && Streams(c, TrackedOf(s), chain, blocks) && chain != []
    requires ScanBlocks(c, s.services.Keys, s.registrations.Keys, blocks[..|blocks| - 1]).0 < 0
    requires StopsAtNewService(c, s, chain[..|chain| - 1], blocks[..|blocks| - 1])
    ensures StopsAtNewService(c, s, chain, blocks)
  {
    var last := |chain| - 1;
    var (_, known) := ScanBlocks(c, s.services.Keys, s.registrations.Keys, blocks[..last]);
    assert chain[..last][..last] == chain[..last] && chain[..last + 1] == chain;
    var t := RunBlocks(c, s, chain[..last]);
    LastOfPrefix(c, s, chain[..last]);
    BlockScanAgrees(c, t, chain[last], blocks[last]);
    PrefixRuns(c, s, chain, last, last);
    if !Scan(c, s.services.Keys, known, SortLogs(blocks[last])).0 {
      ExtendNoNewService(c, s, chain, last);
    }
  }

  lemma PrefixRuns(c: Config, s: State, chain: seq<seq<Log>>, k: nat, n: nat)
    requires n <= k <= |chain| && NoNewServiceBefore(c, s, chain[..k], n)
    ensures NoNewServiceBefore(c, s, chain, n)
  {
    forall m: nat | m <= n
      ensures chain[..k][..m] == chain[..m]
    {
    }
  }

  lemma ExtendNoNewService(c: Config, s: State, chain: seq<seq<Log>>, n: nat)
    requires n < |chain| && NoNewServiceBefore(c, s, chain, n)
    requires var t := BlockSpec(c, RunBlocks(c, s, chain[..n]), chain[n]);
             NoneExcluded(c, t) && t.services.Keys == s.services.Keys && t.hosts == s.hosts
    ensures NoNewServiceBefore(c, s, chain, n + 1)
  {
    assert chain[..n + 1][..n] == chain[..n];
  }

  // --- Runs and restarts ------------------------------------------------------------------------

  /** The node answers for every block of the chain. */
  ghost predicate AnswersChain(c: Config, chain: seq<seq<Log>>, fetch: (nat, set<Address>, set<Address>) -> seq<Log>)
  {
    forall b, services, hosts, l | 0 <= b < |chain| ::
      l in fetch(b, services, hosts) <==> l in chain[b] && (TransferLog(c, services, l) || HostLog(hosts, l))
  }

  /** Block n of the chain, its missing logs fetched from the node. */
  method ProcessFetched(c: Config, ctx: Ctx, logs: seq<Log>, stream: StreamState, n: nat,
                        fetch: (nat, set<Address>, set<Address>) -> seq<Log>, ghost chain: seq<seq<Log>>)
    requires n < |chain| && AnswersChain(c, chain, fetch)
    requires Increasing(chain[n]) && Carries(c, stream.serviceSafes, stream.safeHosts, chain[n], logs)
    requires Covers(stream.serviceSafes, stream.safeHosts, ctx.View()) && ctx.spawnedSafes == [] && ctx.newServices == []
    modifies ctx, stream
    ensures ctx.View() == BlockSpec(c, old(ctx.View()), chain[n])
    ensures ctx.spawnedSafes == [] && ctx.newServices == []
    ensures stream.serviceSafes == old(stream.serviceSafes) + ctx.services.Keys
    ensures stream.safeHosts == old(stream.safeHosts) + ctx.hosts
  {
    ProcessBlock(c, ctx, logs, stream, (services, hosts) => fetch(n, services, hosts), chain[n]);
  }

  /** How many blocks of a stream are processed: all, or those up to the cut. */
  ghost function CutLength(c: Config, tracked: Tracked, blocks: seq<seq<Log>>): (n: nat)
    ensures n <= |blocks|
  {
    var at := ScanBlocks(c, tracked.services, tracked.basius, blocks).0;
    if at < 0 then |blocks| else at + 1
  }

  /** The block at position n of a stream that started with the database at s; the subscriptions only grow at the cut. */
  method RunNext(c: Config, ctx: Ctx, logs: seq<Log>, stream: StreamState, n: nat, start: nat,
                 fetch: (nat, set<Address>, set<Address>) -> seq<Log>, ghost chain: seq<seq<Log>>, ghost carried: seq<seq<Log>>,
                 ghost s: State)
    requires start <= |chain| && AnswersChain(c, chain, fetch)
    requires Streams(c, TrackedOf(s), chain[start..], carried) && StopsAtNewService(c, s, chain[start..], carried)
    requires n < CutLength(c, TrackedOf(s), carried) && logs == carried[n]
    requires ctx.View() == RunBlocks(c, s, chain[start..][..n]) && ctx.spawnedSafes == [] && ctx.newServices == []
    requires stream.serviceSafes == s.services.Keys && stream.safeHosts == s.hosts
    modifies ctx, stream
    ensures ctx.View() == RunBlocks(c, s, chain[start..][..n + 1]) && ctx.spawnedSafes == [] && ctx.newServices == []
    ensures n + 1 < CutLength(c, TrackedOf(s), carried) ==> stream.serviceSafes == s.services.Keys && stream.safeHosts == s.hosts
  {
    NextCarried(c, s, chain[start..], carried, n);
    ProcessFetched(c, ctx, logs, stream, start + n, fetch, chain);
  }

  /** The blocks of one cut stream, one after the other. */
  method RunStream(c: Config, ctx: Ctx, blocks: seq<seq<Log>>, start: nat, fetch: (nat, set<Address>, set<Address>) -> seq<Log>,
                   ghost chain: seq<seq<Log>>, ghost carried: seq<seq<Log>>)
    requires start <= |chain| && AnswersChain(c, chain, fetch)
    requires Streams(c, TrackedOf(ctx.View()), chain[start..], carried)
    requires StopsAtNewService(c, ctx.View(), chain[start..], carried)
    requires blocks == carried[..CutLength(c, TrackedOf(ctx.View()), carried)]
    requires ctx.spawnedSafes == [] && ctx.newServices == []
    modifies ctx
    ensures ctx.View() == RunBlocks(c, old(ctx.View()), chain[start..][..|blocks|])
    ensures ctx.spawnedSafes == [] && ctx.newServices == []
  {
    ghost var s, rest := ctx.View(), chain[start..];
    var stream := new StreamState(ctx.services.Keys, ctx.hosts);
    for n := 0 to |blocks|
      invariant ctx.View() == RunBlocks(c, s, rest[..n]) && ctx.spawnedSafes == [] && ctx.newServices == []
      invariant n < |blocks| ==> stream.serviceSafes == s.services.Keys && stream.safeHosts == s.hosts
      invariant fresh(stream)
    {
      RunNext(c, ctx, blocks[n], stream, n, start, fetch, chain, carried, s);
    }
  }

  /**
   One run of the processor from block `start`: the stream is subscribed to what the database lists and
   cut at the first new service; every block up to the cut is processed as graph-node would.
   */
  method RunOnce(c: Config, ctx: Ctx, batches: seq<Batch>, start: nat, fetch: (nat, set<Address>, set<Address>) -> seq<Log>,
                 ghost chain: seq<seq<Log>>)
    returns (processed: nat, cut: bool)
    requires start <= |chain| && NoneExcluded(c, ctx.View()) && AnswersChain(c, chain, fetch)
    requires Streams(c, TrackedOf(ctx.View()), chain[start..], Blocks(batches))
    requires ctx.spawnedSafes == [] && ctx.newServices == []
    modifies ctx
    ensures start + processed <= |chain| && ctx.View() == RunBlocks(c, old(ctx.View()), chain[start..][..processed])
    ensures if cut then processed > 0 && old(ctx.services).Keys != ctx.services.Keys else start + processed == |chain|
    ensures NoneExcluded(c, ctx.View()) && ctx.spawnedSafes == [] && ctx.newServices == []
  {
    ghost var s, rest := ctx.View(), chain[start..];
    var tracked := Tracked(ctx.registrations.Keys, ctx.services.Keys, ctx.hosts);
    var out;
    out, cut := CutAtSpawn(c, batches, tracked);
    var blocks := Blocks(out);
    processed := |blocks|;
    CutIsFirstNewService(c, s, rest, Blocks(batches));
    RunStream(c, ctx, blocks, start, fetch, chain, Blocks(batches));
    RunBlocksKeepNoneExcluded(c, s, rest[..processed]);
    NewServiceAtCut(c, s, rest, Blocks(batches));
  }

  lemma NewServiceAtCut(c: Config, s: State, chain: seq<seq<Log>>, blocks: seq<seq<Log>>)
    requires |blocks| == |chain| && StopsAtNewService(c, s, chain, blocks)
    ensures var at := ScanBlocks(c, s.services.Keys, s.registrations.Keys, blocks).0;
            at >= 0 ==> RunBlocks(c, s, chain[..at + 1]).services.Keys != s.services.Keys
  {
  }

  /** Before the block at position n, not behind the cut, the stream carries what the database asks for. */
  lemma NextCarried(c: Config, s: State, chain: seq<seq<Log>>, blocks: seq<seq<Log>>, n: nat)
    requires Streams(c, TrackedOf(s), chain, blocks) && n < |chain| && StopsAtNewService(c, s, chain, blocks)
    requires var at := ScanBlocks(c, s.services.Keys, s.registrations.Keys, blocks).0;
             at >= 0 ==> n <= at
    ensures Increasing(chain[n]) && Carries(c, s.services.Keys, s.hosts, chain[n], blocks[n])
    ensures Covers(s.services.Keys, s.hosts, RunBlocks(c, s, chain[..n]))
    ensures RunBlocks(c, s, chain[..n + 1]) == BlockSpec(c, RunBlocks(c, s, chain[..n]), chain[n])
    ensures (ScanBlocks(c, s.services.Keys, s.registrations.Keys, blocks).0 < 0 && n + 1 < |chain|)
            || n < ScanBlocks(c, s.services.Keys, s.registrations.Keys, blocks).0
            ==> var t := RunBlocks(c, s, chain[..n + 1]);
                t.services.Keys == s.services.Keys && t.hosts == s.hosts
  {
    assert chain[..n + 1][..n] == chain[..n];
  }

  lemma {:induction false} RunBlocksKeepNoneExcluded(c: Config, s: State, chain: seq<seq<Log>>)
    requires NoneExcluded(c, s)
    ensures NoneExcluded(c, RunBlocks(c, s, chain))
  {
    if chain != [] {
      RunBlocksKeepNoneExcluded(c, s, chain[..|chain| - 1]);
      var t := RunBlocks(c, s, chain[..|chain| - 1]);
      ScanAgrees(c, t, t.hosts, chain[|chain| - 1]);
      BlockSpecRegistry(c, t, chain[|chain| - 1]);
    }
  }

  /** Whatever block a stream starts at and whatever safes it lists, the portal serves it in some batches. */
  ghost predicate Serves(c: Config, chain: seq<seq<Log>>, portal: (nat, Tracked) -> seq<Batch>)
  {
    forall start, tracked | 0 <= start <= |chain| :: Streams(c, tracked, chain[start..], Blocks(portal(start, tracked)))
  }

  /** The restart loop: however the portal cuts its batches, the chain is indexed as graph-node would index it. */
  method IndexChain(c: Config, ctx: Ctx, portal: (nat, Tracked) -> seq<Batch>,
                    fetch: (nat, set<Address>, set<Address>) -> seq<Log>, ghost chain: seq<seq<Log>>)
    requires NoneExcluded(c, ctx.View()) && AnswersChain(c, chain, fetch) && Serves(c, chain, portal)
    requires ctx.spawnedSafes == [] && ctx.newServices == []
    modifies ctx
    ensures ctx.View() == RunBlocks(c, old(ctx.View()), chain)
  {
    ghost var s := ctx.View();
    var next, again := 0, true;
    assert chain[..0] == [];
    while again
      invariant Indexed(c, s, chain, next, ctx.View()) && ctx.spawnedSafes == [] && ctx.newServices == []
      invariant !again ==> next == |chain|
      decreases |chain| - next, again
    {
      var tracked := Tracked(ctx.registrations.Keys, ctx.services.Keys, ctx.hosts);
      ghost var before := ctx.View();
      var processed;
      processed, again := RunOnce(c, ctx, portal(next, tracked), next, fetch, chain);
      IndexedNext(c, s, chain, next, processed, before, ctx.View());
      next := next + processed;
    }
    assert chain[..|chain|] == chain;
  }

  /** The first blocks of the chain are indexed. */
  ghost predicate Indexed(c: Config, s: State, chain: seq<seq<Log>>, next: nat, now: State)
  {
    next <= |chain| && now == RunBlocks(c, s, chain[..next]) && NoneExcluded(c, now)
  }

  lemma IndexedNext(c: Config, s: State, chain: seq<seq<Log>>, next: nat, processed: nat, before: State, now: State)
    requires Indexed(c, s, chain, next, before) && next + processed <= |chain|
    requires now == RunBlocks(c, before, chain[next..][..processed]) && NoneExcluded(c, now)
    ensures Indexed(c, s, chain, next + processed, now)
  {
    RunBlocksFrom(c, s, chain, next, processed);
  }

  lemma RunBlocksFrom(c: Config, s: State, chain: seq<seq<Log>>, next: nat, processed: nat)
    requires next + processed <= |chain|
    ensures RunBlocks(c, RunBlocks(c, s, chain[..next]), chain[next..][..processed]) == RunBlocks(c, s, chain[..next + processed])
  {
    RunBlocksConcat(c, s, chain[..next], chain[next..][..processed]);
    assert chain[next..][..processed] == chain[next..next + processed];
    assert chain[..next] + chain[next..next + processed] == chain[..next + processed];
  }

  lemma {:induction false} RunBlocksConcat(c: Config, s: State, a: seq<seq<Log>>, b: seq<seq<Log>>)
    ensures RunBlocks(c, s, a + b) == RunBlocks(c, RunBlocks(c, s, a), b)
    decreases |b|
  {
    if b == [] {
      assert a + b == a;
    } else {
      assert (a + b)[..|a + b| - 1] == a + b[..|b| - 1];
      RunBlocksConcat(c, s, a, b[..|b| - 1]);
    }
  }
}
