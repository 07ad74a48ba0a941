/**
 One block of squids/babydegen in graph-node order. The stream carries only the logs of the safes it
 knew when it started; `ProcessBlock` fetches the rest when a handler registers a new safe, and is
 proved to do what running the whole block would: `BlockSpec`.
 */
module BasiusBlock {
  import opened BasiusHandlers

  // --- Logs in order ----------------------------------------------------------------------------

  predicate Increasing(logs: seq<Log>)
  {
    forall i, j | 0 <= i < j < |logs| :: logs[i].index < logs[j].index
  }

  /** The logs satisfying p, in order. */
  function Filter(logs: seq<Log>, p: Log -> bool): (r: seq<Log>)
    ensures forall l :: l in r <==> l in logs && p(l)
  {
    if logs == [] then []
    else
      var last := logs[|logs| - 1];
      assert logs == logs[..|logs| - 1] + [last];
      Filter(logs[..|logs| - 1], p) + if p(last) then [last] else []
  }

  lemma {:induction false} FilterIncreasing(logs: seq<Log>, p: Log -> bool)
    requires Increasing(logs)
    ensures Increasing(Filter(logs, p))
  {
    if logs != [] {
      var init := logs[..|logs| - 1];
      FilterIncreasing(init, p);
      var r := Filter(init, p);
      forall i | 0 <= i < |r|
        ensures r[i].index < logs[|logs| - 1].index
      {
        assert r[i] in init;
      }
    }
  }

  /** Logs in strictly increasing order are determined by which logs they are. */
  lemma {:induction false} IncreasingUnique(a: seq<Log>, b: seq<Log>)
    requires Increasing(a) && Increasing(b) && forall l :: l in a <==> l in b
    ensures a == b
  {
    assert b != [] ==> b[0] in b;
    if a == [] {
    } else {
      assert a[0] in a;
      var x, y := a[0], b[0];
      assert x == y;
      forall l
        ensures l in a[1..] <==> l in b[1..]
      {
        if l in a[1..] {
          assert l in a && l != x by { InTailIsLater(a, l); }
        }
        if l in b[1..] {
          assert l in b && l != y by { InTailIsLater(b, l); }
        }
      }
      IncreasingUnique(a[1..], b[1..]);
    }
  }

  lemma InTailIsLater(a: seq<Log>, l: Log)
    requires Increasing(a) && a != [] && l in a[1..]
    ensures a[0].index < l.index
  {
  }

  /** Array.sort by log index. */
  function SortLogs(logs: seq<Log>): (r: seq<Log>)
  {
    if logs == [] then [] else Insert(SortLogs(logs[1..]), logs[0])
  }

  function Insert(sorted: seq<Log>, l: Log): (r: seq<Log>)
  {
    if sorted == [] || l.index <= sorted[0].index then [l] + sorted
    else [sorted[0]] + Insert(sorted[1..], l)
  }

  predicate DistinctIndexes(logs: seq<Log>)
  {
    forall i, j | 0 <= i < j < |logs| :: logs[i].index != logs[j].index
  }

  lemma {:induction false} InsertMembers(sorted: seq<Log>, l: Log)
    ensures forall x :: x in Insert(sorted, l) <==> x == l || x in sorted
  {
    if sorted == [] || l.index <= sorted[0].index {
    } else {
      InsertMembers(sorted[1..], l);
      assert sorted == [sorted[0]] + sorted[1..];
    }
  }

  lemma {:induction false} InsertIncreasing(sorted: seq<Log>, l: Log)
    requires Increasing(sorted) && forall x | x in sorted :: x.index != l.index
    ensures Increasing(Insert(sorted, l))
  {
    if sorted == [] || l.index <= sorted[0].index {
      forall x | x in sorted
        ensures l.index < x.index
      {
      }
    } else {
      InsertIncreasing(sorted[1..], l);
      InsertMembers(sorted[1..], l);
      var t := Insert(sorted[1..], l);
      forall x | x in t
        ensures sorted[0].index < x.index
      {
      }
    }
  }

  lemma {:induction false} SortLogsSorts(logs: seq<Log>)
    requires DistinctIndexes(logs)
    ensures Increasing(SortLogs(logs))
    ensures forall l :: l in SortLogs(logs) <==> l in logs
  {
    if logs != [] {
      SortLogsSorts(logs[1..]);
      InsertMembers(SortLogs(logs[1..]), logs[0]);
      InsertIncreasing(SortLogs(logs[1..]), logs[0]);
      assert logs == [logs[0]] + logs[1..];
    }
  }

  // --- What a stream carries --------------------------------------------------------------------

  predicate RegistryLog(c: Config, l: Log)
  {
    l.address == c.registry && (l.topic == RegisterTopic || l.topic == CreateTopic)
  }

  predicate TransferLog(c: Config, services: set<Address>, l: Log)
  {
    l.address in c.tokens && l.topic == TransferTopic && l.params.Transfer? &&
    (l.params.from in services || l.params.to in services)
  }

  predicate HostLog(hosts: set<Address>, l: Log)
  {
    l.address in hosts && IsSafeTopic(l)
  }

  /** The queries of a stream subscribed to these safes. */
  predicate Matches(c: Config, services: set<Address>, hosts: set<Address>, l: Log)
  {
    RegistryLog(c, l) || TransferLog(c, services, l) || HostLog(hosts, l)
  }

  /** What eth_getLogs returns for one block: transfers from, transfers to, and Safe logs, so a log can come twice. */
  function FetchMissingLogs(c: Config, block: seq<Log>, services: set<Address>, hosts: set<Address>): (r: seq<Log>)
    ensures forall l :: l in r <==> l in block && (TransferLog(c, services, l) || HostLog(hosts, l))
  {
    Filter(block, l => TransferLog(c, services, l) && l.params.from in services) +
    Filter(block, l => TransferLog(c, services, l) && l.params.to in services) +
    Filter(block, l => HostLog(hosts, l))
  }

  // --- The block as graph-node runs it ----------------------------------------------------------

  /** A Safe log is handled in place only when its host existed before the block. */
  function InPlaceStep(c: Config, s: State, hosts0: set<Address>, l: Log): State
  {
    if IsSafeTopic(l) && l.address !in hosts0 then s else Dispatch(c, s, l)
  }

  function InPlace(c: Config, s: State, hosts0: set<Address>, logs: seq<Log>): State
  {
    if logs == [] then s
    else InPlaceStep(c, InPlace(c, s, hosts0, logs[..|logs| - 1]), hosts0, logs[|logs| - 1])
  }

  function RunAll(c: Config, s: State, logs: seq<Log>): State
  {
    if logs == [] then s
    else Dispatch(c, RunAll(c, s, logs[..|logs| - 1]), logs[|logs| - 1])
  }

  /**
   Every log of the block in order, Safe logs only for hosts known before; then, in order, all Safe
   logs of the hosts created in the block.
   */
  function BlockSpec(c: Config, s: State, block: seq<Log>): State
  {
    var mid := InPlace(c, s, s.hosts, block);
    RunAll(c, mid, Filter(block, l => HostLog(mid.hosts - s.hosts, l)))
  }

  // --- The order of the handler runs ------------------------------------------------------------

  /** A Safe log that reaches its handler once its host exists. */
  predicate SafeRun(c: Config, hosts: set<Address>, l: Log)
  {
    HostLog(hosts, l) && l.decodes && l.address != c.registry
  }

  /** A log other than a Safe's that has an effect on a state: what is registered, created or transferred concerns a service. */
  predicate HandlerRun(c: Config, m: State, l: Log)
  {
    l.decodes &&
    if l.address == c.registry then
      || (l.topic == RegisterTopic && l.params.Register? && l.params.agentId == c.basiusAgentId && l.params.serviceId !in c.excluded)
      || (l.topic == CreateTopic && l.params.Create? && l.params.createdId !in c.excluded && l.params.createdId in m.registrations)
    else TransferLog(c, m.services.Keys, l)
  }

  /** Which of a block's logs other than the Safes' run: each by the state the earlier logs left. */
  ghost predicate HandlersRun(c: Config, s: State, hosts0: set<Address>, logs: seq<Log>, runs: seq<Log>)
  {
    forall k | 0 <= k < |logs| && !IsSafeTopic(logs[k]) ::
      logs[k] in runs <==> HandlerRun(c, InPlace(c, s, hosts0, logs[..k]), logs[k])
  }

  lemma HandlersRunNext(c: Config, s: State, hosts0: set<Address>, logs: seq<Log>, runs: seq<Log>, ran: seq<Log>)
    requires Increasing(logs) && logs != [] && forall l | l in runs :: l in logs[..|logs| - 1]
    requires HandlersRun(c, s, hosts0, logs[..|logs| - 1], runs)
    requires var last := logs[|logs| - 1];
             && (ran == [] || ran == [last])
             && (!IsSafeTopic(last) ==> (ran == [last] <==> HandlerRun(c, InPlace(c, s, hosts0, logs[..|logs| - 1]), last)))
    ensures HandlersRun(c, s, hosts0, logs, runs + ran)
  {
    var init, last := logs[..|logs| - 1], logs[|logs| - 1];
    EarlierThanLast(logs, runs);
    forall k | 0 <= k < |logs| && !IsSafeTopic(logs[k])
      ensures logs[k] in runs + ran <==> HandlerRun(c, InPlace(c, s, hosts0, logs[..k]), logs[k])
    {
      if k < |init| {
        assert init[k] == logs[k] && init[..k] == logs[..k] && logs[k] != last;
      } else {
        assert last !in runs;
      }
    }
  }

  lemma {:induction false} InPlaceRuns(c: Config, s: State, hosts0: set<Address>, logs: seq<Log>) returns (runs: seq<Log>)
    requires Increasing(logs) && hosts0 <= s.hosts
    ensures InPlace(c, s, hosts0, logs).trace == s.trace + runs
    ensures hosts0 <= InPlace(c, s, hosts0, logs).hosts
    ensures Increasing(runs) && forall l | l in runs :: l in logs
    ensures forall l | l in logs && IsSafeTopic(l) :: l in runs <==> SafeRun(c, hosts0, l)
    ensures HandlersRun(c, s, hosts0, logs, runs)
  {
    if logs == [] {
      runs := [];
    } else {
      var init, last := logs[..|logs| - 1], logs[|logs| - 1];
      runs := InPlaceRuns(c, s, hosts0, init);
      var ran := StepRuns(c, InPlace(c, s, hosts0, init), hosts0, last);
      EarlierThanLast(logs, runs);
      assert s.trace + runs + ran == s.trace + (runs + ran);
      HandlersRunNext(c, s, hosts0, logs, runs, ran);
      runs := runs + ran;
    }
  }

  lemma StepRuns(c: Config, s: State, hosts0: set<Address>, l: Log) returns (ran: seq<Log>)
    requires hosts0 <= s.hosts
    ensures InPlaceStep(c, s, hosts0, l).trace == s.trace + ran && hosts0 <= InPlaceStep(c, s, hosts0, l).hosts
    ensures ran == [] || ran == [l]
    ensures IsSafeTopic(l) ==> (ran == [l] <==> SafeRun(c, hosts0, l))
    ensures !IsSafeTopic(l) ==> (ran == [l] <==> HandlerRun(c, s, l))
  {
    DispatchGrowth(c, s, l);
    ran := if InPlaceStep(c, s, hosts0, l).trace == s.trace then [] else [l];
  }

  lemma EarlierThanLast(logs: seq<Log>, runs: seq<Log>)
    requires Increasing(logs) && logs != [] && forall l | l in runs :: l in logs[..|logs| - 1]
    ensures forall l | l in runs :: l.index < logs[|logs| - 1].index
    ensures forall l :: l in logs <==> l in logs[..|logs| - 1] || l == logs[|logs| - 1]
  {
    var init, last := logs[..|logs| - 1], logs[|logs| - 1];
    assert logs == init + [last];
    forall l | l in runs
      ensures l.index < last.index
    {
      var k :| 0 <= k < |init| && init[k] == l;
    }
  }

  lemma {:induction false} SafeRunsAppend(c: Config, s: State, logs: seq<Log>, hosts: set<Address>)
    requires forall l | l in logs :: HostLog(hosts, l)
    requires hosts <= s.hosts
    ensures RunAll(c, s, logs) == s.(trace := s.trace + Filter(logs, l => SafeRun(c, hosts, l)))
  {
    if logs == [] {
      assert s.trace + [] == s.trace;
    } else {
      var init, last := logs[..|logs| - 1], logs[|logs| - 1];
      assert logs == init + [last];
      SafeRunsAppend(c, s, init, hosts);
      SafeRunStep(c, RunAll(c, s, init), hosts, last);
      var done := Filter(init, l => SafeRun(c, hosts, l));
      assert s.trace + done + [last] == s.trace + (done + [last]);
      assert done + [] == done;
    }
  }

  lemma SafeRunStep(c: Config, s: State, hosts: set<Address>, l: Log)
    requires HostLog(hosts, l) && hosts <= s.hosts
    ensures Dispatch(c, s, l) == if SafeRun(c, hosts, l) then Ran(s, l) else s
  {
  }

  lemma {:induction false} FilterTwice(logs: seq<Log>, p: Log -> bool, q: Log -> bool)
    requires forall l | q(l) :: p(l)
    ensures Filter(Filter(logs, p), q) == Filter(logs, q)
  {
    if logs != [] {
      var init, last := logs[..|logs| - 1], logs[|logs| - 1];
      FilterTwice(init, p, q);
      var r := Filter(logs, p);
      if p(last) {
        assert r[..|r| - 1] == Filter(init, p);
      } else {
        assert r == Filter(init, p);
      }
    }
  }

  /**
   The handler runs of a block: first, by log index, exactly the registry and transfer logs that concern
   a service as the earlier logs left it, and the Safe logs of hosts known before; then, by log index,
   exactly the Safe logs of the hosts created in the block, earlier ones included. No log runs twice.
   */
  lemma BlockTrace(c: Config, s: State, block: seq<Log>) returns (runs: seq<Log>, late: seq<Log>)
    requires Increasing(block)
    ensures var t := BlockSpec(c, s, block);
      && t.trace == s.trace + runs + late
      && Increasing(runs) && (forall l | l in runs :: l in block)
      && (forall l | l in block && IsSafeTopic(l) :: l in runs <==> SafeRun(c, s.hosts, l))
      && HandlersRun(c, s, s.hosts, block, runs)
      && Increasing(late) && (forall l :: l in late <==> l in block && SafeRun(c, t.hosts - s.hosts, l))
      && (forall l | l in runs :: l !in late)
  {
    runs := InPlaceRuns(c, s, s.hosts, block);
    var mid := InPlace(c, s, s.hosts, block);
    var created := mid.hosts - s.hosts;
    late := Filter(block, l => SafeRun(c, created, l));
    SafeRunsAppend(c, mid, Filter(block, l => HostLog(created, l)), created);
    FilterTwice(block, l => HostLog(created, l), l => SafeRun(c, created, l));
    FilterIncreasing(block, l => SafeRun(c, created, l));
  }

  // --- The implementation -----------------------------------------------------------------------

  /** What the running stream subscribes to; grows as safes are added. */
  class StreamState {
    var serviceSafes: set<Address>
    var safeHosts: set<Address>

    constructor (services: set<Address>, hosts: set<Address>)
      ensures serviceSafes == services && safeHosts == hosts
    {
      serviceSafes, safeHosts := services, hosts;
    }
  }

  /** The stream knows at least the safes the handlers know. */
  ghost predicate Covers(services: set<Address>, hosts: set<Address>, s: State)
  {
    s.services.Keys <= services && s.hosts <= hosts
  }

  /** A log that no query of the stream matches has no effect in place. */
  lemma UnmatchedIsNoOp(c: Config, services: set<Address>, hosts: set<Address>, s: State, hosts0: set<Address>, l: Log)
    requires Covers(services, hosts, s) && hosts0 <= hosts && !Matches(c, services, hosts, l)
    ensures InPlaceStep(c, s, hosts0, l) == s
  {
  }

  lemma {:induction false} SkipUnmatched(c: Config, services: set<Address>, hosts: set<Address>, s: State, hosts0: set<Address>,
                      block: seq<Log>, d: nat, e: nat)
    requires d <= e <= |block| && hosts0 <= hosts
    requires Covers(services, hosts, InPlace(c, s, hosts0, block[..d]))
    requires forall k | d <= k < e :: !Matches(c, services, hosts, block[k])
    ensures InPlace(c, s, hosts0, block[..e]) == InPlace(c, s, hosts0, block[..d])
    decreases e
  {
    if d < e {
      SkipUnmatched(c, services, hosts, s, hosts0, block, d, e - 1);
      assert block[..e][..e - 1] == block[..e - 1];
      UnmatchedIsNoOp(c, services, hosts, InPlace(c, s, hosts0, block[..d]), hosts0, block[e - 1]);
    }
  }

  /** The queue from i on holds exactly the matching logs of block[d..]; before i, only matching logs of block[..d]. */
  ghost predicate QueueInv(c: Config, services: set<Address>, hosts: set<Address>, block: seq<Log>, d: nat,
                           queue: seq<Log>, i: nat)
  {
    && i <= |queue| && d <= |block| && Increasing(queue)
    && RestInv(c, services, hosts, block[d..], queue[i..])
    && PastInv(c, services, hosts, block[..d], queue[..i])
  }

  ghost predicate RestInv(c: Config, services: set<Address>, hosts: set<Address>, rest: seq<Log>, queued: seq<Log>)
  {
    forall l :: l in queued <==> l in rest && Matches(c, services, hosts, l)
  }

  ghost predicate PastInv(c: Config, services: set<Address>, hosts: set<Address>, past: seq<Log>, queued: seq<Log>)
  {
    forall l | l in queued :: l in past && Matches(c, services, hosts, l)
  }

  /** Exactly the matching logs have been seen. */
  ghost predicate SeenInv(c: Config, services: set<Address>, hosts: set<Address>, block: seq<Log>, seen: set<nat>)
  {
    forall l | l in block :: l.index in seen <==> Matches(c, services, hosts, l)
  }

  /** Deferred are the past Safe logs of new hosts, each once; those of other subscribed hosts are still in the queue. */
  ghost predicate DeferredInv(block: seq<Log>, d: nat, hosts: set<Address>, newHosts: set<Address>, queue: seq<Log>, i: nat,
                              deferred: seq<Log>)
  {
    && i <= |queue| && d <= |block| && newHosts <= hosts && DistinctIndexes(deferred)
    && (forall l :: l in deferred <==> l in block[..d] && HostLog(newHosts, l))
    && (forall l | l in block[..d] && HostLog(hosts, l) && l.address !in newHosts :: l in queue[..i])
  }

  lemma PositionOf(block: seq<Log>, l: Log) returns (p: nat)
    requires l in block
    ensures p < |block| && block[p] == l
  {
    p :| p < |block| && block[p] == l;
  }

  /** Logs of a block are before or after position p as their index says. */
  lemma SideOf(block: seq<Log>, p: nat, l: Log)
    requires Increasing(block) && p < |block| && l in block
    ensures l in block[..p] <==> l.index < block[p].index
    ensures l in block[p + 1..] <==> l.index > block[p].index
    ensures l.index == block[p].index ==> l == block[p]
    ensures l in block[..p + 1] <==> l.index <= block[p].index
  {
    var q := PositionOf(block, l);
    if q < p {
      assert block[..p][q] == l && block[..p + 1][q] == l;
    } else if q > p {
      assert block[p + 1..][q - p - 1] == l;
    } else {
      assert block[..p + 1][p] == l;
    }
  }

  /** The next queued log is the next matching log of the block. */
  lemma NextMatching(c: Config, services: set<Address>, hosts: set<Address>, block: seq<Log>, d: nat, queue: seq<Log>, i: nat)
    returns (p: nat)
    requires Increasing(block) && QueueInv(c, services, hosts, block, d, queue, i) && i < |queue|
    ensures d <= p < |block| && block[p] == queue[i] && Matches(c, services, hosts, queue[i])
    ensures forall k | d <= k < p :: !Matches(c, services, hosts, block[k])
    ensures QueueInv(c, services, hosts, block, p + 1, queue, i + 1)
  {
    assert queue[i] == queue[i..][0];
    assert queue[i] in block[d..];
    p := PositionOf(block[d..], queue[i]);
    p := p + d;
    forall k | d <= k < p
      ensures !Matches(c, services, hosts, block[k])
    {
      assert block[d..][k - d] == block[k];
      HeadIsLeast(queue, i, block[k]);
    }
    assert Matches(c, services, hosts, queue[i]);
    QueueAdvances(c, services, hosts, block, d, queue, i, p);
  }

  lemma HeadIsLeast(queue: seq<Log>, i: nat, l: Log)
    requires Increasing(queue) && i < |queue|
    ensures l in queue[i..] ==> queue[i].index <= l.index
  {
  }

  lemma QueueAdvances(c: Config, services: set<Address>, hosts: set<Address>, block: seq<Log>, d: nat, queue: seq<Log>, i: nat,
                      p: nat)
    requires Increasing(block) && QueueInv(c, services, hosts, block, d, queue, i) && i < |queue|
    requires d <= p < |block| && block[p] == queue[i] && Matches(c, services, hosts, queue[i])
    ensures QueueInv(c, services, hosts, block, p + 1, queue, i + 1)
  {
    forall l
      ensures l in queue[i + 1..] <==> l in block[p + 1..] && Matches(c, services, hosts, l)
    {
      RestAdvances(c, services, hosts, block, d, queue, i, p, l);
    }
    assert RestInv(c, services, hosts, block[p + 1..], queue[i + 1..]);
    PastAdvances(c, services, hosts, block, d, queue, i, p);
  }

  lemma PastAdvances(c: Config, services: set<Address>, hosts: set<Address>, block: seq<Log>, d: nat, queue: seq<Log>, i: nat,
                     p: nat)
    requires i < |queue| && d <= p < |block| && block[p] == queue[i] && Matches(c, services, hosts, queue[i])
    requires PastInv(c, services, hosts, block[..d], queue[..i])
    ensures PastInv(c, services, hosts, block[..p + 1], queue[..i + 1])
  {
    assert queue[..i + 1] == queue[..i] + [queue[i]];
    assert block[..p + 1][p] == queue[i];
    assert block[..p + 1] == block[..d] + block[d..p + 1];
  }

  lemma RestAdvances(c: Config, services: set<Address>, hosts: set<Address>, block: seq<Log>, d: nat, queue: seq<Log>, i: nat,
                     p: nat, l: Log)
    requires Increasing(block) && QueueInv(c, services, hosts, block, d, queue, i) && i < |queue|
    requires d <= p < |block| && block[p] == queue[i]
    ensures l in queue[i + 1..] <==> l in block[p + 1..] && Matches(c, services, hosts, l)
  {
    assert queue[i..] == [queue[i]] + queue[i + 1..];
    assert block == block[..d] + block[d..];
    assert block[d..] == block[d..p + 1] + block[p + 1..];
    HeadIsLess(queue, i, l);
    if l in block[d..] {
      SideOf(block, p, l);
    }
  }

  lemma HeadIsLess(queue: seq<Log>, i: nat, l: Log)
    requires Increasing(queue) && i < |queue|
    ensures l in queue[i + 1..] ==> queue[i].index < l.index
  {
  }

  /** Insert a log at its place in queue[from..]: the source's search and splice. */
  method InsertLater(queue: seq<Log>, from: nat, extra: Log) returns (r: seq<Log>)
    requires Increasing(queue) && 1 <= from <= |queue| && queue[from - 1].index < extra.index
    requires forall l | l in queue :: l.index != extra.index
    ensures Increasing(r) && from <= |r| && r[..from] == queue[..from]
    ensures forall l :: l in r[from..] <==> l in queue[from..] || l == extra
    ensures forall l :: l in r <==> l in queue || l == extra
  {
    var at := from;
    while at < |queue| && queue[at].index < extra.index
      invariant from <= at <= |queue|
      invariant forall k | 0 <= k < at :: queue[k].index < extra.index
    {
      at := at + 1;
    }
    assert at < |queue| ==> queue[at] in queue;
    r := queue[..at] + [extra] + queue[at..];
    SplicedInOrder(queue, at, extra);
    SplicedMembers(queue, from, at, extra);
  }

  lemma SplicedInOrder(queue: seq<Log>, at: nat, extra: Log)
    requires Increasing(queue) && at <= |queue| && forall k | 0 <= k < at :: queue[k].index < extra.index
    requires at < |queue| ==> extra.index < queue[at].index
    ensures Increasing(queue[..at] + [extra] + queue[at..])
  {
  }

  lemma SplicedMembers(queue: seq<Log>, from: nat, at: nat, extra: Log)
    requires from <= at <= |queue|
    ensures var r := queue[..at] + [extra] + queue[at..];
      && r[..from] == queue[..from]
      && (forall l :: l in r[from..] <==> l in queue[from..] || l == extra)
      && (forall l :: l in r <==> l in queue || l == extra)
  {
    var r := queue[..at] + [extra] + queue[at..];
    assert queue == queue[..at] + queue[at..];
    assert r[from..] == queue[from..at] + [extra] + queue[at..];
    assert queue[from..] == queue[from..at] + queue[at..];
  }

  /** Safe logs of new hosts that are already behind in the queue. */
  method CollectPast(past: seq<Log>, hosts: seq<Address>, deferred: seq<Log>) returns (r: seq<Log>)
    requires DistinctIndexes(deferred) && Increasing(past)
    requires forall l, m | l in past && m in deferred && l.address in hosts :: l.index != m.index
    ensures DistinctIndexes(r)
    ensures forall l :: l in r <==> l in deferred || (l in past && l.address in hosts && IsSafeTopic(l))
  {
    r := deferred;
    for k := 0 to |past|
      invariant DistinctIndexes(r)
      invariant forall l :: l in r <==> l in deferred || (l in past[..k] && l.address in hosts && IsSafeTopic(l))
    {
      var log := past[k];
      assert past[..k + 1] == past[..k] + [log];
      if log.address in hosts && IsSafeTopic(log) {
        assert forall l | l in past[..k] :: l.index < log.index;
        r := r + [log];
      }
    }
    assert past[..|past|] == past;
  }

  /**
   Merge the fetched logs of the added safes into the queue behind its current log, or, for Safe
   logs already past, into the deferred ones.
   */
  method MergeExtras(c: Config, extras: seq<Log>, newHosts: set<Address>, queue0: seq<Log>, from: nat, seen0: set<nat>,
                     deferred0: seq<Log>, ghost services: set<Address>, ghost hosts: set<Address>,
                     ghost addedServices: set<Address>, ghost addedHosts: set<Address>, ghost block: seq<Log>, ghost p: nat)
    returns (queue: seq<Log>, seen: set<nat>, deferred: seq<Log>)
    requires Increasing(block) && 1 <= from <= |queue0| && addedHosts <= newHosts
    requires forall l :: l in extras <==> l in block && (TransferLog(c, addedServices, l) || HostLog(addedHosts, l))
    requires p < |block| && block[p] == queue0[from - 1] && QueueInv(c, services, hosts, block, p + 1, queue0, from)
    requires SeenInv(c, services, hosts, block, seen0) && queue0[from - 1].index in seen0
    requires DistinctIndexes(deferred0) && forall l | l in deferred0 :: l in block && l.index in seen0
    ensures from <= |queue| && queue[..from] == queue0[..from] && Increasing(queue)
    ensures QueueMerged(c, services + addedServices, hosts + addedHosts, block, [], queue0[from - 1].index, queue[from..])
    ensures SeenInv(c, services + addedServices, hosts + addedHosts, block, seen)
    ensures DistinctIndexes(deferred)
    ensures forall l :: l in deferred <==>
      l in deferred0 || (l in block && l.index !in seen0 && l.index < queue0[from - 1].index && HostLog(addedHosts, l))
  {
    queue, seen, deferred := queue0, seen0, deferred0;
    ghost var pivot := queue0[from - 1].index;
    QueueAfter(c, services, hosts, block, p, queue0, from);
    for k := 0 to |extras|
      invariant from <= |queue| && queue[..from] == queue0[..from] && Increasing(queue)
      invariant forall l | l in queue :: l.index in seen
      invariant seen0 <= seen
      invariant DistinctIndexes(deferred) && forall l | l in deferred :: l.index in seen
      invariant QueueMerged(c, services, hosts, block, extras[..k], pivot, queue[from..])
      invariant SeenMerged(c, services, hosts, block, extras[..k], seen)
      invariant DeferredMerged(addedHosts, extras[..k], pivot, seen0, deferred0, deferred)
    {
      assert extras[..k + 1] == extras[..k] + [extras[k]];
      assert extras[k] in extras;
      queue, seen, deferred := MergeNext(c, extras[k], newHosts, queue, from, seen, deferred, services, hosts, addedServices,
        addedHosts, block, extras[..k], seen0, deferred0);
    }
    assert extras[..|extras|] == extras;
    AllMerged(c, services, hosts, addedServices, addedHosts, block, extras, pivot, queue[from..], seen);
  }

  method MergeNext(c: Config, extra: Log, newHosts: set<Address>, queue0: seq<Log>, from: nat, seen0: set<nat>,
                   deferred0: seq<Log>, ghost services: set<Address>, ghost hosts: set<Address>,
                   ghost addedServices: set<Address>, ghost addedHosts: set<Address>, ghost block: seq<Log>,
                   ghost done: seq<Log>, ghost firstSeen: set<nat>, ghost firstDeferred: seq<Log>)
    returns (queue: seq<Log>, seen: set<nat>, deferred: seq<Log>)
    requires Increasing(block) && extra in block && (TransferLog(c, addedServices, extra) || HostLog(addedHosts, extra))
    requires addedHosts <= newHosts && 1 <= from <= |queue0| && Increasing(queue0) && forall l | l in queue0 :: l.index in seen0
    requires DistinctIndexes(deferred0) && forall l | l in deferred0 :: l.index in seen0
    requires firstSeen <= seen0 && SeenMerged(c, services, hosts, block, [], firstSeen)
    requires QueueMerged(c, services, hosts, block, done, queue0[from - 1].index, queue0[from..])
    requires SeenMerged(c, services, hosts, block, done, seen0)
    requires DeferredMerged(addedHosts, done, queue0[from - 1].index, firstSeen, firstDeferred, deferred0)
    ensures from <= |queue| && queue[..from] == queue0[..from] && Increasing(queue)
    ensures forall l | l in queue :: l.index in seen
    ensures seen0 <= seen
    ensures DistinctIndexes(deferred) && forall l | l in deferred :: l.index in seen
    ensures QueueMerged(c, services, hosts, block, done + [extra], queue0[from - 1].index, queue[from..])
    ensures SeenMerged(c, services, hosts, block, done + [extra], seen)
    ensures DeferredMerged(addedHosts, done + [extra], queue0[from - 1].index, firstSeen, firstDeferred, deferred)
  {
    ghost var pivot := queue0[from - 1].index;
    assert queue0[from - 1] in queue0;
    queue, seen, deferred := MergeExtra(extra, newHosts, queue0, from, seen0, deferred0);
    SeenStep(c, services, hosts, block, done, seen0, extra);
    QueueStep(c, services, hosts, block, done, pivot, queue0[from..], extra, seen0, queue[from..]);
    DeferredStep(addedHosts, done, pivot, firstSeen, firstDeferred, deferred0, extra, seen0, deferred);
  }

  /** Once all fetched logs are merged, the queue and the seen set are those of the grown stream. */
  lemma AllMerged(c: Config, services: set<Address>, hosts: set<Address>, addedServices: set<Address>, addedHosts: set<Address>,
                  block: seq<Log>, extras: seq<Log>, pivot: nat, rest: seq<Log>, seen: set<nat>)
    requires forall l :: l in extras <==> l in block && (TransferLog(c, addedServices, l) || HostLog(addedHosts, l))
    requires QueueMerged(c, services, hosts, block, extras, pivot, rest)
    requires SeenMerged(c, services, hosts, block, extras, seen)
    ensures QueueMerged(c, services + addedServices, hosts + addedHosts, block, [], pivot, rest)
    ensures SeenInv(c, services + addedServices, hosts + addedHosts, block, seen)
  {
  }

  /** Behind the current log the queue holds the logs matching before and the fetched ones. */
  ghost predicate QueueMerged(c: Config, services: set<Address>, hosts: set<Address>, block: seq<Log>, done: seq<Log>,
                              pivot: nat, rest: seq<Log>)
  {
    forall l :: l in rest <==> l in block && l.index > pivot && (Matches(c, services, hosts, l) || l in done)
  }

  ghost predicate SeenMerged(c: Config, services: set<Address>, hosts: set<Address>, block: seq<Log>, done: seq<Log>, seen: set<nat>)
  {
    forall l | l in block :: l.index in seen <==> Matches(c, services, hosts, l) || l in done
  }

  ghost predicate DeferredMerged(addedHosts: set<Address>, done: seq<Log>, pivot: nat, seen0: set<nat>,
                                 deferred0: seq<Log>, deferred: seq<Log>)
  {
    forall l :: l in deferred <==>
      l in deferred0 || (l in done && l.index !in seen0 && l.index < pivot && HostLog(addedHosts, l))
  }

  lemma SameIndex(block: seq<Log>, l: Log, m: Log)
    requires Increasing(block) && l in block && m in block && l.index == m.index
    ensures l == m
  {
  }

  lemma SeenStep(c: Config, services: set<Address>, hosts: set<Address>, block: seq<Log>, done: seq<Log>, seen: set<nat>, x: Log)
    requires Increasing(block) && x in block && SeenMerged(c, services, hosts, block, done, seen)
    ensures SeenMerged(c, services, hosts, block, done + [x], seen + {x.index})
  {
    forall l | l in block
      ensures l.index in seen + {x.index} <==> Matches(c, services, hosts, l) || l in done + [x]
    {
      if l.index == x.index {
        SameIndex(block, l, x);
      }
    }
  }

  lemma QueueStep(c: Config, services: set<Address>, hosts: set<Address>, block: seq<Log>, done: seq<Log>, pivot: nat,
                  rest: seq<Log>, x: Log, seen: set<nat>, rest': seq<Log>)
    requires x in block && pivot in seen && SeenMerged(c, services, hosts, block, done, seen)
    requires QueueMerged(c, services, hosts, block, done, pivot, rest)
    requires x.index in seen || x.index < pivot ==> rest' == rest
    requires !(x.index in seen || x.index < pivot) ==> forall l :: l in rest' <==> l in rest || l == x
    ensures QueueMerged(c, services, hosts, block, done + [x], pivot, rest')
  {
    if x.index in seen || x.index < pivot {
      assert x.index > pivot ==> Matches(c, services, hosts, x) || x in done;
    }
  }

  lemma DeferredStep(addedHosts: set<Address>, done: seq<Log>, pivot: nat, seen0: set<nat>, deferred0: seq<Log>,
                     deferred: seq<Log>, x: Log, seen: set<nat>, deferred': seq<Log>)
    requires DeferredMerged(addedHosts, done, pivot, seen0, deferred0, deferred)
    requires seen0 <= seen
    requires x.index in seen && x.index !in seen0 ==> x in done
    requires deferred' == if x.index !in seen && x.index < pivot && HostLog(addedHosts, x) then deferred + [x] else deferred
    ensures DeferredMerged(addedHosts, done + [x], pivot, seen0, deferred0, deferred')
  {
  }

  method MergeExtra(extra: Log, newHosts: set<Address>, queue0: seq<Log>, from: nat, seen0: set<nat>, deferred0: seq<Log>)
    returns (queue: seq<Log>, seen: set<nat>, deferred: seq<Log>)
    requires Increasing(queue0) && 1 <= from <= |queue0| && forall l | l in queue0 :: l.index in seen0
    requires DistinctIndexes(deferred0) && forall l | l in deferred0 :: l.index in seen0
    ensures from <= |queue| && queue[..from] == queue0[..from] && Increasing(queue)
    ensures seen == seen0 + {extra.index}
    ensures extra.index in seen0 ==> queue == queue0 && deferred == deferred0
    ensures extra.index !in seen0 && extra.index < queue0[from - 1].index ==>
      queue == queue0 && deferred == if HostLog(newHosts, extra) then deferred0 + [extra] else deferred0
    ensures extra.index !in seen0 && extra.index >= queue0[from - 1].index ==> deferred == deferred0
    ensures extra.index !in seen0 && extra.index >= queue0[from - 1].index ==>
      forall l :: l in queue[from..] <==> l in queue0[from..] || l == extra
    ensures forall l | l in queue :: l.index in seen
    ensures DistinctIndexes(deferred) && forall l | l in deferred :: l.index in seen
  {
    queue, seen, deferred := queue0, seen0, deferred0;
    if extra.index in seen {
      return;
    }
    seen := seen + {extra.index};
    if extra.index < queue[from - 1].index {
      if extra.address in newHosts && IsSafeTopic(extra) {
        deferred := deferred + [extra];
      }
      return;
    }
    assert queue[from - 1] in queue;
    queue := InsertLater(queue, from, extra);
  }

  lemma QueueAfter(c: Config, services: set<Address>, hosts: set<Address>, block: seq<Log>, p: nat, queue: seq<Log>, from: nat)
    requires Increasing(block) && 1 <= from <= |queue|
    requires p < |block| && block[p] == queue[from - 1] && QueueInv(c, services, hosts, block, p + 1, queue, from)
    ensures Increasing(queue)
    ensures forall l :: l in queue[from..] <==> l in block && l.index > queue[from - 1].index && Matches(c, services, hosts, l)
    ensures forall l | l in queue :: l in block && Matches(c, services, hosts, l)
  {
    forall l
      ensures l in block[p + 1..] <==> l in block && l.index > queue[from - 1].index
    {
      assert block == block[..p + 1] + block[p + 1..];
      if l in block {
        SideOf(block, p, l);
      }
    }
    assert queue == queue[..from] + queue[from..];
    assert block == block[..p + 1] + block[p + 1..];
  }

  /** What holds between two logs of the queue. */
  ghost predicate BlockInv(c: Config, block: seq<Log>, s0: State, s: State, d: nat, services: set<Address>, hosts: set<Address>,
                           newHosts: set<Address>, queue: seq<Log>, i: nat, seen: set<nat>, deferred: seq<Log>)
  {
    && QueueInv(c, services, hosts, block, d, queue, i)
    && SeenInv(c, services, hosts, block, seen)
    && DeferredInv(block, d, hosts, newHosts, queue, i, deferred)
    && s0.hosts <= s.hosts && newHosts == s.hosts - s0.hosts
    && Covers(services, hosts, s)
    && s == InPlace(c, s0, s0.hosts, block[..d])
  }

  /** What holds when queue[i], the log at position p of the block, is about to be handled. */
  ghost predicate AtLog(c: Config, block: seq<Log>, s0: State, s: State, p: nat, services: set<Address>, hosts: set<Address>,
                        queue: seq<Log>, i: nat, seen: set<nat>, deferred: seq<Log>)
  {
    && p < |block| && i < |queue| && block[p] == queue[i] && Matches(c, services, hosts, queue[i])
    && QueueInv(c, services, hosts, block, p + 1, queue, i + 1)
    && SeenInv(c, services, hosts, block, seen)
    && DeferredInv(block, p, hosts, s.hosts - s0.hosts, queue, i, deferred)
    && s0.hosts <= s.hosts && Covers(services, hosts, s)
    && InPlace(c, s0, s0.hosts, block[..p + 1]) == InPlaceStep(c, s, s0.hosts, queue[i])
  }

  lemma DeferredSkips(c: Config, services: set<Address>, hosts: set<Address>, block: seq<Log>, d: nat, p: nat, newHosts: set<Address>,
                      queue: seq<Log>, i: nat, deferred: seq<Log>)
    requires DeferredInv(block, d, hosts, newHosts, queue, i, deferred)
    requires d <= p <= |block| && forall k | d <= k < p :: !Matches(c, services, hosts, block[k])
    ensures DeferredInv(block, p, hosts, newHosts, queue, i, deferred)
  {
    assert block[..p] == block[..d] + block[d..p];
    forall l | l in block[d..p]
      ensures !HostLog(hosts, l)
    {
      var k := PositionOf(block[d..p], l);
      assert block[d + k] == l;
    }
  }

  lemma DeferredPasses(block: seq<Log>, p: nat, hosts: set<Address>, newHosts: set<Address>, queue: seq<Log>, i: nat, deferred: seq<Log>)
    requires Increasing(block) && DeferredInv(block, p, hosts, newHosts, queue, i, deferred)
    requires p < |block| && i < |queue| && block[p] == queue[i]
    ensures !HostLog(newHosts, queue[i]) ==> DeferredInv(block, p + 1, hosts, newHosts, queue, i + 1, deferred)
    ensures HostLog(newHosts, queue[i]) ==> DeferredInv(block, p + 1, hosts, newHosts, queue, i + 1, deferred + [queue[i]])
  {
    assert block[..p + 1] == block[..p] + [block[p]];
    assert queue[..i + 1] == queue[..i] + [queue[i]];
    forall l | l in deferred
      ensures l.index < queue[i].index
    {
      var k := PositionOf(block[..p], l);
    }
  }

  lemma DeferredIsSeen(c: Config, services: set<Address>, hosts: set<Address>, block: seq<Log>, p: nat, newHosts: set<Address>,
                       queue: seq<Log>, i: nat, seen: set<nat>, deferred: seq<Log>)
    requires Increasing(block) && p < |block| && DeferredInv(block, p, hosts, newHosts, queue, i, deferred)
    requires SeenInv(c, services, hosts, block, seen)
    ensures forall l | l in deferred :: l in block && l.index in seen && l.index < block[p].index
  {
    forall l | l in deferred
      ensures l in block && l.index in seen && l.index < block[p].index
    {
      var k := PositionOf(block[..p], l);
      assert block[k] == l;
    }
  }

  /** Moving on to the next queued log, before it is handled. */
  lemma Advance(c: Config, block: seq<Log>, s0: State, s: State, d: nat, services: set<Address>, hosts: set<Address>,
                newHosts: set<Address>, queue: seq<Log>, i: nat, seen: set<nat>, deferred: seq<Log>) returns (p: nat)
    requires Increasing(block) && BlockInv(c, block, s0, s, d, services, hosts, newHosts, queue, i, seen, deferred) && i < |queue|
    ensures d <= p && AtLog(c, block, s0, s, p, services, hosts, queue, i, seen, deferred)
  {
    p := NextMatching(c, services, hosts, block, d, queue, i);
    SkipUnmatched(c, services, hosts, s0, s0.hosts, block, d, p);
    assert block[..p + 1][..p] == block[..p];
    DeferredSkips(c, services, hosts, block, d, p, newHosts, queue, i, deferred);
  }

  /** A Safe log of a host created in this block waits for the end of the block. */
  lemma AfterDeferring(c: Config, block: seq<Log>, s0: State, s: State, d: nat, services: set<Address>, hosts: set<Address>,
                       newHosts: set<Address>, queue: seq<Log>, i: nat, seen: set<nat>, deferred: seq<Log>) returns (d': nat)
    requires Increasing(block) && BlockInv(c, block, s0, s, d, services, hosts, newHosts, queue, i, seen, deferred) && i < |queue|
    requires HostLog(newHosts, queue[i])
    ensures d' > d && BlockInv(c, block, s0, s, d', services, hosts, newHosts, queue, i + 1, seen, deferred + [queue[i]])
  {
    var p := Advance(c, block, s0, s, d, services, hosts, newHosts, queue, i, seen, deferred);
    DeferredPasses(block, p, hosts, newHosts, queue, i, deferred);
    d' := p + 1;
  }

  /** Any other log is handled in place, where it has the effect the whole block gives it. */
  lemma AfterHandling(c: Config, block: seq<Log>, s0: State, s: State, d: nat, services: set<Address>, hosts: set<Address>,
                      newHosts: set<Address>, queue: seq<Log>, i: nat, seen: set<nat>, deferred: seq<Log>) returns (d': nat)
    requires Increasing(block) && BlockInv(c, block, s0, s, d, services, hosts, newHosts, queue, i, seen, deferred) && i < |queue|
    requires !HostLog(newHosts, queue[i]) && NewServices(c, s, queue[i]) == []
    ensures d' > d && BlockInv(c, block, s0, Dispatch(c, s, queue[i]), d', services, hosts, newHosts, queue, i + 1, seen, deferred)
  {
    var p := Advance(c, block, s0, s, d, services, hosts, newHosts, queue, i, seen, deferred);
    DispatchGrowth(c, s, queue[i]);
    InPlaceIsDispatch(c, s0, s, queue[i]);
    DeferredPasses(block, p, hosts, newHosts, queue, i, deferred);
    d' := p + 1;
  }

  /** Outside new hosts, the in-place rule and plain dispatch agree. */
  lemma InPlaceIsDispatch(c: Config, s0: State, s: State, l: Log)
    requires s0.hosts <= s.hosts && !HostLog(s.hosts - s0.hosts, l)
    ensures InPlaceStep(c, s, s0.hosts, l) == Dispatch(c, s, l)
  {
  }

  // --- A handler that creates safes -------------------------------------------------------------

  /** The state between a handler that created safes and the next queued log. */
  lemma AfterSpawning(c: Config, block: seq<Log>, s0: State, s: State, p: nat, services: set<Address>, hosts: set<Address>,
                      queue: seq<Log>, i: nat, seen: set<nat>, deferred: seq<Log>, past: seq<Log>,
                      queue': seq<Log>, seen': set<nat>, deferred': seq<Log>)
    requires Increasing(block) && AtLog(c, block, s0, s, p, services, hosts, queue, i, seen, deferred)
    requires !HostLog(s.hosts - s0.hosts, queue[i])
    requires NewServices(c, s, queue[i]) != []
    // the past Safe logs of the new hosts are collected from the queue
    requires forall l :: l in past <==> l in deferred || (l in queue[..i] && l.address in SpawnedSafes(c, s, queue[i]) && IsSafeTopic(l))
    // the logs of the added safes are merged
    requires i + 1 <= |queue'| && queue'[..i + 1] == queue[..i + 1] && Increasing(queue')
    requires var t := Dispatch(c, s, queue[i]);
      && QueueMerged(c, services + t.services.Keys, hosts + t.hosts, block, [], queue[i].index, queue'[i + 1..])
      && SeenInv(c, services + t.services.Keys, hosts + t.hosts, block, seen')
      && DistinctIndexes(deferred')
      && (forall l :: l in deferred' <==>
            l in past || (l in block && l.index !in seen && l.index < queue[i].index && HostLog(t.hosts - hosts, l)))
    ensures var t := Dispatch(c, s, queue[i]);
      BlockInv(c, block, s0, t, p + 1, services + t.services.Keys, hosts + t.hosts, t.hosts - s0.hosts, queue', i + 1, seen', deferred')
  {
    var t := Dispatch(c, s, queue[i]);
    DispatchGrowth(c, s, queue[i]);
    InPlaceIsDispatch(c, s0, s, queue[i]);
    QueueAfterSpawning(c, block, p, services, hosts, services + t.services.Keys, hosts + t.hosts, queue, i, queue');
    DeferredAfterSpawning(c, block, p, services, hosts, s.hosts - s0.hosts, queue, i, seen, deferred,
                          (set a | a in SpawnedSafes(c, s, queue[i])), past, queue', deferred');
    assert t.hosts - hosts == (set a | a in SpawnedSafes(c, s, queue[i])) - hosts;
    assert hosts + t.hosts == hosts + (set a | a in SpawnedSafes(c, s, queue[i]));
    assert t.hosts - s0.hosts == s.hosts - s0.hosts + (set a | a in SpawnedSafes(c, s, queue[i]));
  }

  lemma QueueAfterSpawning(c: Config, block: seq<Log>, p: nat, services: set<Address>, hosts: set<Address>,
                           services': set<Address>, hosts': set<Address>, queue: seq<Log>, i: nat, queue': seq<Log>)
    requires Increasing(block) && p < |block| && i < |queue| && block[p] == queue[i]
    requires QueueInv(c, services, hosts, block, p + 1, queue, i + 1) && services <= services' && hosts <= hosts'
    requires i + 1 <= |queue'| && queue'[..i + 1] == queue[..i + 1] && Increasing(queue')
    requires QueueMerged(c, services', hosts', block, [], queue[i].index, queue'[i + 1..])
    ensures QueueInv(c, services', hosts', block, p + 1, queue', i + 1)
  {
    assert block == block[..p + 1] + block[p + 1..];
    forall l
      ensures l in block[p + 1..] <==> l in block && l.index > queue[i].index
    {
      if l in block {
        SideOf(block, p, l);
      }
    }
    assert RestInv(c, services', hosts', block[p + 1..], queue'[i + 1..]);
    assert PastInv(c, services', hosts', block[..p + 1], queue'[..i + 1]);
  }

  lemma DeferredAfterSpawning(c: Config, block: seq<Log>, p: nat, services: set<Address>, hosts: set<Address>, newHosts: set<Address>,
                              queue: seq<Log>, i: nat, seen: set<nat>, deferred: seq<Log>, spawned: set<Address>,
                              past: seq<Log>, queue': seq<Log>, deferred': seq<Log>)
    requires Increasing(block) && p < |block| && i < |queue| && block[p] == queue[i] && !IsSafeTopic(queue[i])
    requires QueueInv(c, services, hosts, block, p + 1, queue, i + 1)
    requires SeenInv(c, services, hosts, block, seen) && DeferredInv(block, p, hosts, newHosts, queue, i, deferred)
    requires forall l :: l in past <==> l in deferred || (l in queue[..i] && l.address in spawned && IsSafeTopic(l))
    requires i + 1 <= |queue'| && queue'[..i + 1] == queue[..i + 1]
    requires DistinctIndexes(deferred') && forall l :: l in deferred' <==>
      l in past || (l in block && l.index !in seen && l.index < queue[i].index && HostLog(spawned - hosts, l))
    requires spawned !! newHosts
    ensures DeferredInv(block, p + 1, hosts + spawned, newHosts + spawned, queue', i + 1, deferred')
  {
    assert block[..p + 1] == block[..p] + [block[p]];
    assert queue[..i + 1] == queue[..i] + [queue[i]];
    forall l
      ensures l in deferred' <==> l in block[..p + 1] && HostLog(newHosts + spawned, l)
    {
      if l in block {
        SideOf(block, p, l);
      }
      if l in queue[..i] {
        assert l in queue[..i + 1];
      }
    }
  }

  // --- The whole block --------------------------------------------------------------------------

  /** Running deferred Safe logs creates nothing. */
  lemma SafeLogsCreateNothing(c: Config, s: State, l: Log)
    requires IsSafeTopic(l)
    ensures NewServices(c, s, l) == [] && SpawnedSafes(c, s, l) == []
  {
    DispatchGrowth(c, s, l);
  }

  /** At the end of the queue, the deferred logs in order are all Safe logs of the new hosts. */
  lemma BlockDone(c: Config, block: seq<Log>, s0: State, s: State, d: nat, services: set<Address>, hosts: set<Address>,
                  newHosts: set<Address>, queue: seq<Log>, seen: set<nat>, deferred: seq<Log>)
    requires Increasing(block) && BlockInv(c, block, s0, s, d, services, hosts, newHosts, queue, |queue|, seen, deferred)
    ensures s == InPlace(c, s0, s0.hosts, block)
    ensures SortLogs(deferred) == Filter(block, l => HostLog(s.hosts - s0.hosts, l))
  {
    assert queue[|queue|..] == [];
    forall k | d <= k < |block|
      ensures !Matches(c, services, hosts, block[k])
    {
      assert block[d..][k - d] == block[k];
    }
    SkipUnmatched(c, services, hosts, s0, s0.hosts, block, d, |block|);
    DeferredSkips(c, services, hosts, block, d, |block|, newHosts, queue, |queue|, deferred);
    assert block[..|block|] == block;
    var r := Filter(block, l => HostLog(s.hosts - s0.hosts, l));
    FilterIncreasing(block, l => HostLog(s.hosts - s0.hosts, l));
    SortLogsSorts(deferred);
    IncreasingUnique(SortLogs(deferred), r);
  }

  method RunDeferred(c: Config, ctx: Ctx, logs: seq<Log>)
    requires forall l | l in logs :: IsSafeTopic(l)
    modifies ctx
    ensures ctx.View() == RunAll(c, old(ctx.View()), logs)
    ensures ctx.services == old(ctx.services) && ctx.hosts == old(ctx.hosts)
    ensures ctx.spawnedSafes == old(ctx.spawnedSafes) && ctx.newServices == old(ctx.newServices)
  {
    ghost var s := ctx.View();
    assert logs[..0] == [];
    for k := 0 to |logs|
      invariant ctx.View() == RunAll(c, s, logs[..k])
      invariant ctx.services == old(ctx.services) && ctx.hosts == old(ctx.hosts)
      invariant ctx.spawnedSafes == old(ctx.spawnedSafes) && ctx.newServices == old(ctx.newServices)
    {
      SafeLogsCreateNothing(c, ctx.View(), logs[k]);
      assert logs[..k + 1][..k] == logs[..k];
      ctx.Handle(c, logs[k]);
    }
    assert logs[..|logs|] == logs;
  }

  /** The carried logs are the block's logs the stream subscribes to, each once, in any order. */
  ghost predicate Carries(c: Config, services: set<Address>, hosts: set<Address>, block: seq<Log>, logs: seq<Log>)
  {
    DistinctIndexes(logs) && forall l :: l in logs <==> l in block && Matches(c, services, hosts, l)
  }

  /** The node answers a request for the missing logs of safes with exactly those of the block. */
  ghost predicate Answers(c: Config, block: seq<Log>, fetch: (set<Address>, set<Address>) -> seq<Log>)
  {
    forall services, hosts, l :: l in fetch(services, hosts) <==> l in block && (TransferLog(c, services, l) || HostLog(hosts, l))
  }

  /** Three log requests for a block are such an answer. */
  lemma FetchAnswers(c: Config, block: seq<Log>)
    ensures Answers(c, block, (services, hosts) => FetchMissingLogs(c, block, services, hosts))
  {
  }

  lemma StartOfBlock(c: Config, block: seq<Log>, s0: State, services: set<Address>, hosts: set<Address>, logs: seq<Log>,
                     seen: set<nat>)
    requires Increasing(block) && Carries(c, services, hosts, block, logs) && Covers(services, hosts, s0)
    requires seen == set l | l in SortLogs(logs) :: l.index
    ensures BlockInv(c, block, s0, s0, 0, services, hosts, {}, SortLogs(logs), 0, seen, [])
  {
    SortLogsSorts(logs);
    var queue := SortLogs(logs);
    assert queue[0..] == queue && block[0..] == block;
    forall l | l in block
      ensures l.index in seen <==> Matches(c, services, hosts, l)
    {
      if l.index in seen {
        var m :| m in queue && m.index == l.index;
        SameIndex(block, l, m);
      }
    }
    assert block[..0] == [];
  }

  lemma PastIsDistinct(c: Config, block: seq<Log>, p: nat, services: set<Address>, hosts: set<Address>, newHosts: set<Address>,
                       queue: seq<Log>, i: nat, seen: set<nat>, deferred: seq<Log>, spawned: seq<Address>)
    requires Increasing(block) && p < |block| && i < |queue| && QueueInv(c, services, hosts, block, p + 1, queue, i + 1)
    requires SeenInv(c, services, hosts, block, seen) && DeferredInv(block, p, hosts, newHosts, queue, i, deferred)
    requires forall a | a in spawned :: a !in newHosts
    ensures forall l | l in queue[..i] || l in deferred :: l in block && l.index in seen
    ensures forall l, m | l in queue[..i] && m in deferred && l.address in spawned :: l.index != m.index
  {
    DeferredIsSeen(c, services, hosts, block, p, newHosts, queue, i, seen, deferred);
    assert queue[..i + 1] == queue[..i] + [queue[i]];
    assert block == block[..p + 1] + block[p + 1..];
    forall l, m | l in queue[..i] && m in deferred && l.address in spawned
      ensures l.index != m.index
    {
      if l.index == m.index {
        SameIndex(block, l, m);
      }
    }
  }

  /** The safes the stream misses, and their logs merged into the queue or deferred. */
  method MergeMissing(c: Config, spawned: set<Address>, added: set<Address>, services: set<Address>, hosts: set<Address>,
                      fetch: (set<Address>, set<Address>) -> seq<Log>, queue0: seq<Log>, i: nat, seen0: set<nat>,
                      newHosts: set<Address>, past: seq<Log>, ghost block: seq<Log>, ghost p: nat)
    returns (missingServices: set<Address>, missingHosts: set<Address>, queue: seq<Log>, seen: set<nat>, deferred: seq<Log>)
    requires Increasing(block) && Answers(c, block, fetch) && p < |block| && i < |queue0| && block[p] == queue0[i]
    requires QueueInv(c, services, hosts, block, p + 1, queue0, i + 1) && Matches(c, services, hosts, queue0[i])
    requires SeenInv(c, services, hosts, block, seen0)
    requires DistinctIndexes(past) && forall l | l in past :: l in block && l.index in seen0
    requires spawned <= newHosts
    ensures missingHosts == spawned - hosts && missingServices == added - services
    ensures i + 1 <= |queue| && queue[..i + 1] == queue0[..i + 1] && Increasing(queue)
    ensures QueueMerged(c, services + added, hosts + spawned, block, [], queue0[i].index, queue[i + 1..])
    ensures SeenInv(c, services + added, hosts + spawned, block, seen)
    ensures DistinctIndexes(deferred)
    ensures forall l :: l in deferred <==>
      l in past || (l in block && l.index !in seen0 && l.index < queue0[i].index && HostLog(spawned - hosts, l))
  {
    missingHosts := spawned - hosts;
    missingServices := added - services;
    assert services + missingServices == services + added && hosts + missingHosts == hosts + spawned;
    if missingHosts == {} && missingServices == {} {
      queue, seen, deferred := queue0, seen0, past;
      QueueAfter(c, services, hosts, block, p, queue0, i + 1);
    } else {
      queue, seen, deferred := MergeExtras(c, fetch(missingServices, missingHosts), newHosts, queue0, i + 1, seen0, past,
        services, hosts, missingServices, missingHosts, block, p);
    }
  }

  lemma GrowsByAnnounced(c: Config, s: State, hosts0: set<Address>, l: Log, services: set<Address>, hosts: set<Address>)
    requires Covers(services, hosts, s) && hosts0 <= s.hosts
    ensures var t, spawned, added := Dispatch(c, s, l), (set a | a in SpawnedSafes(c, s, l)), (set a | a in NewServices(c, s, l));
            && services + added == services + t.services.Keys && hosts + spawned == hosts + t.hosts
            && spawned - hosts == t.hosts - hosts && spawned <= t.hosts - hosts0
  {
    DispatchGrowth(c, s, l);
  }

  /** The deferred logs with the Safe logs of the spawned safes that the queue has passed. */
  method PastLogs(c: Config, spawned: seq<Address>, services: set<Address>, hosts: set<Address>, queue: seq<Log>, i: nat,
                  seen: set<nat>, deferred: seq<Log>, ghost block: seq<Log>, ghost s0: State, ghost s: State, ghost p: nat)
    returns (past: seq<Log>)
    requires Increasing(block) && AtLog(c, block, s0, s, p, services, hosts, queue, i, seen, deferred)
    requires spawned == SpawnedSafes(c, s, queue[i])
    ensures DistinctIndexes(past) && forall l | l in past :: l in block && l.index in seen
    ensures forall l :: l in past <==> l in deferred || (l in queue[..i] && l.address in spawned && IsSafeTopic(l))
  {
    DispatchGrowth(c, s, queue[i]);
    PastIsDistinct(c, block, p, services, hosts, s.hosts - s0.hosts, queue, i, seen, deferred, spawned);
    past := CollectPast(queue[..i], spawned, deferred);
  }

  /** Defer the past logs of the safes a handler created and merge the logs the stream misses. */
  method MergeAt(c: Config, spawned: seq<Address>, added: seq<Address>, services: set<Address>, hosts: set<Address>,
                 fetch: (set<Address>, set<Address>) -> seq<Log>, queue0: seq<Log>, i: nat, seen0: set<nat>,
                 newHosts: set<Address>, deferred0: seq<Log>, ghost block: seq<Log>, ghost s0: State, ghost s: State, ghost p: nat)
    returns (missingServices: set<Address>, missingHosts: set<Address>, queue: seq<Log>, seen: set<nat>, deferred: seq<Log>)
    requires Increasing(block) && Answers(c, block, fetch)
    requires AtLog(c, block, s0, s, p, services, hosts, queue0, i, seen0, deferred0) && !HostLog(s.hosts - s0.hosts, queue0[i])
    requires NewServices(c, s, queue0[i]) != []
    requires spawned == SpawnedSafes(c, s, queue0[i]) && added == NewServices(c, s, queue0[i])
    requires newHosts == Dispatch(c, s, queue0[i]).hosts - s0.hosts
    ensures var t := Dispatch(c, s, queue0[i]);
      && services + missingServices == services + t.services.Keys && hosts + missingHosts == hosts + t.hosts
      && BlockInv(c, block, s0, t, p + 1, services + t.services.Keys, hosts + t.hosts, newHosts, queue, i + 1, seen, deferred)
  {
    var spawnedSet, addedSet := (set a | a in spawned), (set a | a in added);
    GrowsByAnnounced(c, s, s0.hosts, queue0[i], services, hosts);
    var past := PastLogs(c, spawned, services, hosts, queue0, i, seen0, deferred0, block, s0, s, p);
    missingServices, missingHosts, queue, seen, deferred :=
      MergeMissing(c, spawnedSet, addedSet, services, hosts, fetch, queue0, i, seen0, newHosts, past, block, p);
    AfterSpawning(c, block, s0, s, p, services, hosts, queue0, i, seen0, deferred0, past, queue, seen, deferred);
  }

  method MergeSafes(c: Config, spawned: seq<Address>, added: seq<Address>, services: set<Address>, hosts: set<Address>,
                    fetch: (set<Address>, set<Address>) -> seq<Log>, queue0: seq<Log>, i: nat, seen0: set<nat>,
                    newHosts0: set<Address>, newHosts: set<Address>, deferred0: seq<Log>, ghost block: seq<Log>,
                    ghost s0: State, ghost s: State, ghost d0: nat)
    returns (missingServices: set<Address>, missingHosts: set<Address>, queue: seq<Log>, seen: set<nat>, deferred: seq<Log>,
             ghost d: nat)
    requires Increasing(block) && Answers(c, block, fetch) && i < |queue0| && !HostLog(newHosts0, queue0[i])
    requires BlockInv(c, block, s0, s, d0, services, hosts, newHosts0, queue0, i, seen0, deferred0)
    requires NewServices(c, s, queue0[i]) != []
    requires spawned == SpawnedSafes(c, s, queue0[i]) && added == NewServices(c, s, queue0[i])
    requires newHosts == Dispatch(c, s, queue0[i]).hosts - s0.hosts
    ensures var t := Dispatch(c, s, queue0[i]);
      && services + missingServices == services + t.services.Keys && hosts + missingHosts == hosts + t.hosts
      && d0 < d
      && BlockInv(c, block, s0, t, d, services + t.services.Keys, hosts + t.hosts, newHosts, queue, i + 1, seen, deferred)
  {
    ghost var p := Advance(c, block, s0, s, d0, services, hosts, newHosts0, queue0, i, seen0, deferred0);
    d := p + 1;
    missingServices, missingHosts, queue, seen, deferred :=
      MergeAt(c, spawned, added, services, hosts, fetch, queue0, i, seen0, newHosts, deferred0, block, s0, s, p);
  }

  /** Drain the safes the log at queue[i] created, and subscribe the stream to them. */
  method TakeUpSafes(c: Config, ctx: Ctx, stream: StreamState, fetch: (set<Address>, set<Address>) -> seq<Log>,
                     queue0: seq<Log>, i: nat, seen0: set<nat>, newHosts0: set<Address>, deferred0: seq<Log>,
                     ghost block: seq<Log>, ghost s0: State, ghost s: State, ghost d0: nat)
    returns (queue: seq<Log>, seen: set<nat>, newHosts: set<Address>, deferred: seq<Log>, ghost d: nat)
    requires Increasing(block) && Answers(c, block, fetch) && i < |queue0| && !HostLog(newHosts0, queue0[i])
    requires BlockInv(c, block, s0, s, d0, stream.serviceSafes, stream.safeHosts, newHosts0, queue0, i, seen0, deferred0)
    requires ctx.View() == Dispatch(c, s, queue0[i]) && ctx.newServices != []
    requires ctx.spawnedSafes == SpawnedSafes(c, s, queue0[i]) && ctx.newServices == NewServices(c, s, queue0[i])
    modifies ctx`spawnedSafes, ctx`newServices, stream
    ensures ctx.spawnedSafes == [] && ctx.newServices == []
    ensures stream.serviceSafes == old(stream.serviceSafes) + ctx.services.Keys
    ensures stream.safeHosts == old(stream.safeHosts) + ctx.hosts
    ensures d0 < d
    ensures BlockInv(c, block, s0, ctx.View(), d, stream.serviceSafes, stream.safeHosts, newHosts, queue, i + 1, seen, deferred)
  {
    var spawned, added := ctx.spawnedSafes, ctx.newServices;
    ctx.spawnedSafes, ctx.newServices := [], [];
    newHosts := newHosts0 + set a | a in spawned;
    DispatchGrowth(c, s, queue0[i]);
    assert newHosts == Dispatch(c, s, queue0[i]).hosts - s0.hosts;
    var missingServices, missingHosts;
    missingServices, missingHosts, queue, seen, deferred, d := MergeSafes(c, spawned, added, stream.serviceSafes,
      stream.safeHosts, fetch, queue0, i, seen0, newHosts0, newHosts, deferred0, block, s0, s, d0);
    stream.safeHosts := stream.safeHosts + missingHosts;
    stream.serviceSafes := stream.serviceSafes + missingServices;
  }

  /** Handle one log of the queue in place. */
  method HandleNext(c: Config, ctx: Ctx, stream: StreamState, fetch: (set<Address>, set<Address>) -> seq<Log>,
                    queue0: seq<Log>, i: nat, seen0: set<nat>, newHosts0: set<Address>, deferred0: seq<Log>,
                    ghost block: seq<Log>, ghost s0: State, ghost d0: nat)
    returns (queue: seq<Log>, seen: set<nat>, newHosts: set<Address>, deferred: seq<Log>, ghost d: nat)
    requires Increasing(block) && Answers(c, block, fetch) && i < |queue0| && !HostLog(newHosts0, queue0[i])
    requires BlockInv(c, block, s0, ctx.View(), d0, stream.serviceSafes, stream.safeHosts, newHosts0, queue0, i, seen0, deferred0)
    requires ctx.spawnedSafes == [] && ctx.newServices == []
    modifies ctx, stream
    ensures ctx.spawnedSafes == [] && ctx.newServices == []
    ensures stream.serviceSafes == old(stream.serviceSafes) + ctx.services.Keys
    ensures stream.safeHosts == old(stream.safeHosts) + ctx.hosts
    ensures BlockInv(c, block, s0, ctx.View(), d, stream.serviceSafes, stream.safeHosts, newHosts, queue, i + 1, seen, deferred)
    ensures d0 < d && old(ctx.View()).services.Keys <= ctx.services.Keys && old(ctx.View()).hosts <= ctx.hosts
  {
    ghost var s := ctx.View();
    ctx.Handle(c, queue0[i]);
    DispatchGrowth(c, s, queue0[i]);
    if ctx.spawnedSafes == [] && ctx.newServices == [] {
      queue, seen, newHosts, deferred := queue0, seen0, newHosts0, deferred0;
      d := AfterHandling(c, block, s0, s, d0, stream.serviceSafes, stream.safeHosts, newHosts0, queue0, i, seen0, deferred0);
    } else {
      queue, seen, newHosts, deferred, d := TakeUpSafes(c, ctx, stream, fetch, queue0, i, seen0, newHosts0, deferred0, block, s0, s, d0);
    }
  }

  /** Run what was deferred once the queue is drained. */
  method FinishBlock(c: Config, ctx: Ctx, deferred: seq<Log>, ghost services: set<Address>, ghost hosts: set<Address>,
                     ghost newHosts: set<Address>, ghost queue: seq<Log>, ghost seen: set<nat>, ghost block: seq<Log>,
                     ghost s0: State, ghost d: nat)
    requires Increasing(block)
    requires BlockInv(c, block, s0, ctx.View(), d, services, hosts, newHosts, queue, |queue|, seen, deferred)
    modifies ctx
    ensures ctx.View() == BlockSpec(c, s0, block)
    ensures ctx.services == old(ctx.services) && ctx.hosts == old(ctx.hosts)
    ensures ctx.spawnedSafes == old(ctx.spawnedSafes) && ctx.newServices == old(ctx.newServices)
  {
    BlockDone(c, block, s0, ctx.View(), d, services, hosts, newHosts, queue, seen, deferred);
    RunDeferred(c, ctx, SortLogs(deferred));
  }

  /**
   Whatever part of the block the stream carried, the handlers end in the state, and have run in the
   order, that the whole block gives.
   */
  method ProcessBlock(c: Config, ctx: Ctx, logs: seq<Log>, stream: StreamState,
                      fetch: (set<Address>, set<Address>) -> seq<Log>, ghost block: seq<Log>)
    requires Increasing(block) && Carries(c, stream.serviceSafes, stream.safeHosts, block, logs) && Answers(c, block, fetch)
    requires Covers(stream.serviceSafes, stream.safeHosts, ctx.View())
    requires ctx.spawnedSafes == [] && ctx.newServices == []
    modifies ctx, stream
    ensures ctx.View() == BlockSpec(c, old(ctx.View()), block)
    ensures Covers(stream.serviceSafes, stream.safeHosts, ctx.View())
    ensures ctx.spawnedSafes == [] && ctx.newServices == []
    ensures stream.serviceSafes == old(stream.serviceSafes) + ctx.services.Keys
    ensures stream.safeHosts == old(stream.safeHosts) + ctx.hosts
  {
    var queue := SortLogs(logs);
    var seen := set l | l in queue :: l.index;
    var newHosts: set<Address> := {};
    var deferred: seq<Log> := [];
    ghost var s0, d := ctx.View(), 0;
    StartOfBlock(c, block, s0, stream.serviceSafes, stream.safeHosts, logs, seen);
    var i := 0;
    while i < |queue|
      invariant BlockInv(c, block, s0, ctx.View(), d, stream.serviceSafes, stream.safeHosts, newHosts, queue, i, seen, deferred)
      invariant ctx.spawnedSafes == [] && ctx.newServices == []
      invariant stream.serviceSafes == old(stream.serviceSafes) + ctx.services.Keys
      invariant stream.safeHosts == old(stream.safeHosts) + ctx.hosts
      decreases |block| - d
    {
      if queue[i].address in newHosts && IsSafeTopic(queue[i]) {
        d := AfterDeferring(c, block, s0, ctx.View(), d, stream.serviceSafes, stream.safeHosts, newHosts, queue, i, seen, deferred);
        deferred := deferred + [queue[i]];
      } else {
        queue, seen, newHosts, deferred, d := HandleNext(c, ctx, stream, fetch, queue, i, seen, newHosts, deferred, block, s0, d);
      }
      i := i + 1;
    }
    FinishBlock(c, ctx, deferred, stream.serviceSafes, stream.safeHosts, newHosts, queue, seen, block, s0, d);
  }
}
