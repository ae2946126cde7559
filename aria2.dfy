/// The multi-process aria2 downloader (`Aria2Downloader`): how many aria2
/// processes to run and how many connections a download gets, the
/// per-instance load counters and the least-loaded selection built on
/// them, the start-up and health check that keep only live processes, and
/// the mapping of aria2's download status onto the wait loop. Processes,
/// ports and the JSON-RPC traffic are inputs.
module Aria2 {
  import opened Common
  import opened Json

  /// `usize`, the type of the load counter: its atomic add and subtract
  /// wrap around.
  const USIZE_LIMIT: nat := 0x1_0000_0000_0000_0000
  type Usize = x: int | 0 <= x < USIZE_LIMIT

  function Min(a: int, b: int): int { if a <= b then a else b }
  function Max(a: int, b: int): int { if a >= b then a else b }

  // ---------------------------------------------------------------------
  // Instance and thread arithmetic
  // ---------------------------------------------------------------------

  /// `calculate_optimal_instance_count`: one process for up to 4 threads,
  /// two up to 8, four up to 16, five up to 32, and beyond that one per six
  /// threads (rounded up) but never more than 8. No threads, no process.
  function InstanceCount(threads: nat): (n: nat)
    ensures n <= 8
    ensures n == 0 <==> threads == 0
    ensures threads > 0 ==> n <= threads
  {
    if 1 <= threads <= 4 then 1
    else if 5 <= threads <= 8 then 2
    else if 9 <= threads <= 16 then 4
    else if 17 <= threads <= 32 then 5
    else Min(8, (threads + 5) / 6)
  }

  /// More threads never means fewer processes.
  lemma InstanceCountMonotone(a: nat, b: nat)
    requires a <= b
    ensures InstanceCount(a) <= InstanceCount(b)
  {
    if a > 32 {
      assert (a + 5) / 6 <= (b + 5) / 6;
    }
  }

  /// The per-instance ceiling on connections: none below 17 threads, then
  /// 16, 20, 24 and 32 by tier (32 also for 0).
  function ThreadCap(total: nat): (cap: nat)
    ensures 1 <= total <= 16 ==> cap == total
    ensures total > 16 || total == 0 ==> 16 <= cap <= 32
  {
    if 1 <= total <= 16 then total
    else if 17 <= total <= 32 then 16
    else if 33 <= total <= 64 then 20
    else if 65 <= total <= 128 then 24
    else 32
  }

  /// `calculate_threads_per_instance`: the threads shared out evenly over
  /// the instances, rounded up, under the tier ceiling. The caller must
  /// not pass zero instances (the division would panic).
  function ThreadsPerInstance(total: nat, count: nat): (r: nat)
    requires count > 0
    ensures r <= total && r <= ThreadCap(total)
    ensures total >= 1 ==> r >= 1
    ensures r == ThreadCap(total) || (r * count >= total && (r - 1) * count < total)
  {
    var base := total / count;
    var share := if total % count > 0 then base + 1 else base;
    CeilShare(total, count, base, share);
    Min(share, ThreadCap(total))
  }

  /// The rounded-up share is the ceiling of total / count, and no more
  /// than the total.
  lemma CeilShare(total: nat, count: nat, base: nat, share: nat)
    requires count > 0 && base == total / count
    requires share == if total % count > 0 then base + 1 else base
    ensures share * count >= total && (share - 1) * count < total
    ensures share <= total && (total >= 1 ==> share >= 1)
  {
    assert total == base * count + total % count;
    CeilShareOfRemainder(total, count, base, total % count, share);
  }

  /// The same, stated on the quotient and remainder.
  lemma CeilShareOfRemainder(total: nat, count: nat, base: nat, rem: nat, share: nat)
    requires count > 0 && total == base * count + rem && rem < count
    requires share == if rem > 0 then base + 1 else base
    ensures share * count >= total && (share - 1) * count < total
    ensures share <= total && (total >= 1 ==> share >= 1)
  {
    var bc := base * count;
    assert bc >= base by {
      assert bc == base + base * (count - 1);
    }
    if rem > 0 {
      assert share * count == bc + count;
      assert (share - 1) * count == bc;
    } else {
      assert share * count == bc;
      assert (share - 1) * count == bc - count;
    }
  }

  /// The per-file ceiling by size in MiB for files up to 1000 MiB.
  function SizeTier(fileSizeMb: nat): nat
  {
    if fileSizeMb <= 2 then 1
    else if fileSizeMb <= 10 then 2
    else if fileSizeMb <= 50 then 4
    else if fileSizeMb <= 200 then 8
    else 12
  }

  /// `calculate_smart_threads_for_file`: small files get few connections
  /// (one up to 2 MiB), files up to 1000 MiB at most their tier's ceiling
  /// and never more than the instance's share, and larger files at least
  /// that share, raised towards three quarters of all threads (at most 16).
  /// Every file gets at least one connection.
  function SmartThreads(fileSizeMb: nat, base: nat, total: nat): (r: nat)
    ensures r >= 1
    ensures fileSizeMb <= 2 ==> r == 1
    ensures fileSizeMb <= 1000 ==> r <= SizeTier(fileSizeMb) && r <= Max(base, 1)
    ensures fileSizeMb > 1000 ==> base <= r <= Max(base, 16) && r <= Max(base, Max(total, 1))
  {
    var smart :=
      if fileSizeMb <= 2 then 1
      else if fileSizeMb <= 1000 then Min(base, SizeTier(fileSizeMb))
      else Max(base, Min(Min(total * 3 / 4, 16), total));
    Max(smart, 1)
  }

  /// A bigger file never gets fewer connections.
  lemma SmartThreadsGrowWithSize(a: nat, b: nat, base: nat, total: nat)
    requires a <= b
    ensures SmartThreads(a, base, total) <= SmartThreads(b, base, total)
  {
  }

  /// `add_download_task_to_instance`: the instance's share of the threads,
  /// adjusted by file size (in whole MiB) when a HEAD request reports it.
  function TaskThreads(total: nat, count: nat, fileSize: Option<nat>): (r: nat)
    requires count > 0
    ensures fileSize.None? ==> r == ThreadsPerInstance(total, count)
    ensures fileSize.Some? ==> r >= 1
    ensures total >= 1 ==> 1 <= r <= Max(total, 1)
  {
    var base := ThreadsPerInstance(total, count);
    match fileSize
    case None => base
    case Some(bytes) => SmartThreads(bytes / 1048576, base, total)
  }

  // ---------------------------------------------------------------------
  // Instances and their loads
  // ---------------------------------------------------------------------

  /// An `Aria2Instance`: its RPC endpoint, its count of active downloads
  /// and whether its process still runs (`try_wait` reports no exit).
  datatype Instance = Instance(port: nat, secret: string, load: Usize, alive: bool)

  /// `Aria2Instance::new`: a freshly spawned process with no downloads.
  function NewInstance(port: nat, secret: string): Instance
  {
    Instance(port, secret, 0, true)
  }

  /// `select_best_instance`'s `min_by_key` over the loads: the first index
  /// holding the least load.
  function FirstLeastLoaded(pool: seq<Instance>): (i: nat)
    requires |pool| > 0
    ensures i < |pool|
    ensures forall j :: 0 <= j < |pool| ==> pool[i].load <= pool[j].load
    ensures forall j :: 0 <= j < i ==> pool[i].load < pool[j].load
  {
    if |pool| == 1 then 0
    else
      var k := FirstLeastLoaded(pool[..|pool| - 1]);
      if pool[|pool| - 1].load < pool[k].load then |pool| - 1 else k
  }

  /// `select_best_instance`: an error without instances, otherwise the
  /// least-loaded one.
  function SelectBest(pool: seq<Instance>): (r: Result<nat>)
    ensures r.Err? <==> pool == []
    ensures r.Ok? ==> r.value < |pool|
  {
    if pool == [] then Err("没有可用的aria2实例") else Ok(FirstLeastLoaded(pool))
  }

  /// `increment_load` on the instance at `i`, if there is one (`fetch_add`
  /// wraps).
  function Incremented(pool: seq<Instance>, i: nat): (r: seq<Instance>)
    ensures |r| == |pool|
  {
    if i < |pool| then pool[i := pool[i].(load := (pool[i].load + 1) % USIZE_LIMIT)] else pool
  }

  /// `decrement_load` on the instance at `i`, if there is one (`fetch_sub`
  /// wraps below zero).
  function Decremented(pool: seq<Instance>, i: nat): (r: seq<Instance>)
    ensures |r| == |pool|
  {
    if i < |pool| then
      pool[i := pool[i].(load := if pool[i].load == 0 then USIZE_LIMIT - 1 else pool[i].load - 1)]
    else pool
  }

  /// A decrement undoes an increment, wrap-around included.
  lemma DecrementUndoesIncrement(pool: seq<Instance>, i: nat)
    ensures Decremented(Incremented(pool, i), i) == pool
  {
    if i < |pool| {
      var inc := Incremented(pool, i);
      assert inc[i].load == 0 ==> pool[i].load == USIZE_LIMIT - 1;
      assert Decremented(inc, i)[i] == pool[i];
      assert Decremented(inc, i) == pool;
    }
  }

  // ---------------------------------------------------------------------
  // The download: adding the task and waiting for it
  // ---------------------------------------------------------------------

  /// The reply to `aria2.addUri` or `aria2.tellStatus`: a transport or
  /// decoding failure, a JSON-RPC error member (rendered as text), or the
  /// `result` member (`null` when absent).
  datatype RpcReply = RpcFailed(message: string) | RpcError(rendered: string) | RpcResult(result: Json)

  /// `add_download_task_to_instance`'s reply handling: the task's GID, or
  /// the error.
  function AddTaskOutcome(reply: RpcReply): (r: Result<string>)
    ensures r.Ok? <==> reply.RpcResult? && reply.result.JString?
    ensures r.Ok? ==> r.value == reply.result.s
  {
    match reply
    case RpcFailed(message) => Err(message)
    case RpcError(rendered) => Err("aria2 error: " + rendered)
    case RpcResult(JString(gid)) => Ok(gid)
    case RpcResult(_) => Err("Invalid response from aria2")
  }

  /// What one status poll decides.
  datatype Step = Finished | Failed(message: string) | Waiting

  /// The `status` match of `wait_for_download_on_instance`: "complete"
  /// finishes, "error" and "removed" fail, anything else (including
  /// "active", "waiting", "paused" and a missing status) waits.
  function StatusStep(result: Json): (s: Step)
    ensures s.Finished? <==> Get(result, "status") == Some(JString("complete"))
    ensures s.Failed? <==> Get(result, "status") in {Some(JString("error")), Some(JString("removed"))}
    ensures Get(result, "status") == Some(JString("error")) ==> s.Failed? && StartsWith(s.message, "Download failed: ")
  {
    var status := AsStr(Get(result, "status")).UnwrapOr("unknown");
    if status == "complete" then Finished
    else if status == "error" then
      Failed("Download failed: " + AsStr(Get(result, "errorMessage")).UnwrapOr("Unknown error"))
    else if status == "removed" then Failed("Download was removed")
    else Waiting
  }

  /// One poll: a failed or refused request ends the wait with an error.
  function PollStep(reply: RpcReply): Step
  {
    match reply
    case RpcFailed(message) => Failed(message)
    case RpcError(rendered) => Failed("aria2 status check error: " + rendered)
    case RpcResult(result) => StatusStep(result)
  }

  /// The result a deciding step stands for.
  function StepResult(s: Step): Result<()>
    requires !s.Waiting?
  {
    if s.Finished? then Ok(()) else Err(s.message)
  }

  /// `wait_for_download_on_instance`: polls until a poll decides. Given a
  /// finite sequence of poll replies, the result is that of the first
  /// deciding poll, or None when every poll said to keep waiting (the
  /// source would go on polling).
  method WaitForDownload(polls: seq<RpcReply>) returns (r: Option<Result<()>>)
    ensures r.None? <==> forall k :: 0 <= k < |polls| ==> PollStep(polls[k]).Waiting?
    ensures r.Some? ==> exists k :: 0 <= k < |polls| && !PollStep(polls[k]).Waiting?
                                    && (forall j :: 0 <= j < k ==> PollStep(polls[j]).Waiting?)
                                    && r.value == StepResult(PollStep(polls[k]))
  {
    var k := 0;
    while k < |polls|
      invariant 0 <= k <= |polls|
      invariant forall j :: 0 <= j < k ==> PollStep(polls[j]).Waiting?
    {
      var step := PollStep(polls[k]);
      if !step.Waiting? {
        return Some(StepResult(step));
      }
      k := k + 1;
    }
    r := None;
  }

  /// What `fetch_with_aria2_fallback` meets on its way: whether the
  /// directory could be created, whether the path has a UTF-8 file name
  /// and parent, the outcome of adding the task (`AddTaskOutcome`), the
  /// outcome of the wait (`WaitForDownload`) and whether the file exists
  /// afterwards.
  datatype FetchIo = FetchIo(dirCreated: bool, pathValid: bool, added: Result<string>, waited: Result<()>, fileExists: bool)

  /// A download's result and the instances' loads after it.
  datatype Fetched = Fetched(result: Result<()>, pool: seq<Instance>)

  /// `fetch_with_aria2_fallback` as written: the load is incremented, but
  /// a failure to add the task returns through `?` before the decrement.
  function FetchAsWritten(pool: seq<Instance>, urls: seq<string>, io: FetchIo): Fetched
  {
    if urls == [] then Fetched(Err("No URLs provided"), pool)
    else if !io.dirCreated then Fetched(Err("创建目录失败"), pool)
    else if !io.pathValid then Fetched(Err("Invalid file name"), pool)
    else if pool == [] then Fetched(Err("没有可用的aria2实例"), pool)
    else
      var i := FirstLeastLoaded(pool);
      var busy := Incremented(pool, i);
      if io.added.Err? then Fetched(Err(io.added.error), busy)
      else FetchFinish(Decremented(busy, i), io)
  }

  /// The part after the decrement: the wait's error, then the file check.
  function FetchFinish(pool: seq<Instance>, io: FetchIo): Fetched
  {
    if io.waited.Err? then Fetched(Err(io.waited.error), pool)
    else if !io.fileExists then Fetched(Err("Download completed but file not found"), pool)
    else Fetched(Ok(()), pool)
  }

  /// `fetch_with_aria2_fallback` as intended: every path that incremented
  /// the load also decrements it.
  function Fetch(pool: seq<Instance>, urls: seq<string>, io: FetchIo): Fetched
  {
    if urls == [] then Fetched(Err("No URLs provided"), pool)
    else if !io.dirCreated then Fetched(Err("创建目录失败"), pool)
    else if !io.pathValid then Fetched(Err("Invalid file name"), pool)
    else if pool == [] then Fetched(Err("没有可用的aria2实例"), pool)
    else
      var i := FirstLeastLoaded(pool);
      var busy := Incremented(pool, i);
      if io.added.Err? then Fetched(Err(io.added.error), Decremented(busy, i))
      else FetchFinish(Decremented(busy, i), io)
  }

  /// Whatever happens, a download leaves every load as it found it, and it
  /// succeeds exactly when every step does.
  lemma FetchBalancesLoad(pool: seq<Instance>, urls: seq<string>, io: FetchIo)
    ensures Fetch(pool, urls, io).pool == pool
    ensures Fetch(pool, urls, io).result.Ok? <==>
              urls != [] && io.dirCreated && io.pathValid && pool != []
              && io.added.Ok? && io.waited.Ok? && io.fileExists
  {
    if urls != [] && io.dirCreated && io.pathValid && pool != [] {
      DecrementUndoesIncrement(pool, FirstLeastLoaded(pool));
    }
  }

  /// As written, a failed `aria2.addUri` leaves the chosen instance one
  /// download busier for good, so later selections avoid it.
  lemma AsWrittenLeaksLoad(pool: seq<Instance>, urls: seq<string>, io: FetchIo)
    requires urls != [] && io.dirCreated && io.pathValid && pool != [] && io.added.Err?
    ensures var i := FirstLeastLoaded(pool);
      && FetchAsWritten(pool, urls, io).result.Err?
      && FetchAsWritten(pool, urls, io).pool[i].load == (pool[i].load + 1) % USIZE_LIMIT
      && FetchAsWritten(pool, urls, io).pool != pool
  {
    var i := FirstLeastLoaded(pool);
    var after := FetchAsWritten(pool, urls, io).pool;
    assert after[i].load != pool[i].load;
  }

  /// Apart from that path the two agree.
  lemma AsWrittenOtherwiseAgrees(pool: seq<Instance>, urls: seq<string>, io: FetchIo)
    requires io.added.Ok?
    ensures FetchAsWritten(pool, urls, io) == Fetch(pool, urls, io)
  {
  }

  // ---------------------------------------------------------------------
  // Starting processes and the health check
  // ---------------------------------------------------------------------

  /// One attempt to start an aria2 process: no free port, a failed spawn,
  /// or a spawned process whose connection test passed or failed.
  datatype Attempt = NoPort(message: string) | SpawnFailed(message: string) | Spawned(port: nat, secret: string, connected: bool)

  /// The instances started by a run of attempts, and the error that ended
  /// the run early, if any.
  datatype Launches = Launches(error: Option<string>, started: seq<Instance>)

  /// The first `n` attempts: a missing port always ends the run; a failed
  /// spawn ends it when `spawnFatal` (`start_all_instances`) and is skipped
  /// otherwise (`health_check`); an instance failing its connection test
  /// is dropped. Started instances are fresh, at most one per attempt.
  function LaunchAll(attempt: nat -> Attempt, n: nat, spawnFatal: bool): (l: Launches)
    ensures |l.started| <= n
    ensures forall k :: 0 <= k < |l.started| ==> l.started[k].load == 0 && l.started[k].alive
  {
    if n == 0 then Launches(None, [])
    else
      var prev := LaunchAll(attempt, n - 1, spawnFatal);
      if prev.error.Some? then prev
      else LaunchStep(prev.started, attempt(n - 1), spawnFatal)
  }

  /// Once a run has failed, later attempts are not made.
  lemma {:induction false} LaunchAllStops(attempt: nat -> Attempt, k: nat, n: nat, spawnFatal: bool)
    requires k <= n && LaunchAll(attempt, k, spawnFatal).error.Some?
    ensures LaunchAll(attempt, n, spawnFatal) == LaunchAll(attempt, k, spawnFatal)
  {
    if k < n {
      LaunchAllStops(attempt, k, n - 1, spawnFatal);
    }
  }

  /// One attempt after a run that has not failed.
  function LaunchStep(started: seq<Instance>, a: Attempt, spawnFatal: bool): (l: Launches)
  {
    match a
    case NoPort(message) => Launches(Some(message), started)
    case SpawnFailed(message) => if spawnFatal then Launches(Some(message), started) else Launches(None, started)
    case Spawned(port, secret, connected) =>
      if connected then Launches(None, started + [NewInstance(port, secret)]) else Launches(None, started)
  }

  /// The instances whose process still runs, in their order.
  function Healthy(pool: seq<Instance>): (r: seq<Instance>)
    ensures |r| <= |pool|
  {
    if pool == [] then []
    else Healthy(pool[..|pool| - 1]) + (if pool[|pool| - 1].alive then [pool[|pool| - 1]] else [])
  }

  /// How many instances the health check restarts.
  function DeadCount(pool: seq<Instance>): nat
  {
    |pool| - |Healthy(pool)|
  }

  /// The survivors are exactly the live instances of the pool.
  lemma {:induction false} HealthyIsLive(pool: seq<Instance>)
    ensures forall x :: x in Healthy(pool) <==> x in pool && x.alive
  {
    if pool != [] {
      var init := pool[..|pool| - 1];
      HealthyIsLive(init);
      assert pool == init + [pool[|pool| - 1]];
    }
  }

  /// `Healthy` distributes over concatenation.
  lemma {:induction false} HealthyAppend(a: seq<Instance>, b: seq<Instance>)
    ensures Healthy(a + b) == Healthy(a) + Healthy(b)
  {
    if b != [] {
      var init := b[..|b| - 1];
      assert (a + b)[..|a + b| - 1] == a + init;
      HealthyAppend(a, init);
    } else {
      assert a + b == a;
    }
  }

  /// A pool of live instances is its own survivor list.
  lemma {:induction false} HealthyOfLive(a: seq<Instance>)
    requires forall k :: 0 <= k < |a| ==> a[k].alive
    ensures Healthy(a) == a
  {
    if a != [] {
      HealthyOfLive(a[..|a| - 1]);
    }
  }

  /// `u` lists, in increasing order, exactly the dead instances among the
  /// first `n`.
  ghost predicate ListsDead(pool: seq<Instance>, u: seq<nat>, n: nat)
  {
    && n <= |pool|
    && (forall k :: 0 <= k < |u| ==> u[k] < n && !pool[u[k]].alive)
    && (forall k, l :: 0 <= k < l < |u| ==> u[k] < u[l])
    && (forall q :: 0 <= q < n && !pool[q].alive ==> q in u)
  }

  /// Where the still-untouched part starts after removing `u[j..]`.
  function Bound(pool: seq<Instance>, u: seq<nat>, j: nat): nat
  {
    if j < |u| then u[j] else |pool|
  }

  /// Between two consecutive dead indices every instance lives.
  lemma GapAlive(pool: seq<Instance>, u: seq<nat>, j: nat)
    requires ListsDead(pool, u, |pool|) && 0 < j <= |u|
    ensures u[j - 1] < Bound(pool, u, j) <= |pool|
    ensures forall q :: u[j - 1] < q < Bound(pool, u, j) ==> pool[q].alive
  {
    forall m | 0 <= m < |u|
      ensures u[m] <= u[j - 1] || Bound(pool, u, j) <= u[m]
    {
      if m < j - 1 {
        assert u[m] < u[j - 1];
      } else if m > j {
        assert u[j] < u[m];
      }
    }
  }

  /// Before the first dead index every instance lives.
  lemma PrefixAlive(pool: seq<Instance>, u: seq<nat>)
    requires ListsDead(pool, u, |pool|)
    ensures Bound(pool, u, 0) <= |pool|
    ensures forall q :: 0 <= q < Bound(pool, u, 0) ==> pool[q].alive
  {
    forall m | 0 < m < |u|
      ensures u[0] < u[m]
    {
    }
  }

  /// Pruning from a dead instance at `p` when everything up to `b` lives
  /// drops that instance and keeps the ones up to `b`.
  lemma HealthyFromDead(pool: seq<Instance>, p: nat, b: nat)
    requires p < b <= |pool| && !pool[p].alive
    requires forall q :: p < q < b ==> pool[q].alive
    ensures Healthy(pool[p..]) == pool[p + 1..b] + Healthy(pool[b..])
  {
    var mid := pool[p + 1..b];
    var rest := pool[b..];
    assert pool[p..] == [pool[p]] + (mid + rest);
    HealthyAppend([pool[p]], mid + rest);
    HealthyAppend(mid, rest);
    HealthyOfLive(mid);
    assert Healthy([pool[p]]) == [] by {
      assert [pool[p]][..0] == [];
    }
  }

  /// `Vec::remove(p)` on a list whose first `b` elements are those of `s`.
  lemma RemoveInPrefix<T>(s: seq<T>, x: seq<T>, p: nat, b: nat)
    requires p < b <= |s|
    ensures var cur := s[..b] + x;
      cur[..p] + cur[p + 1..] == s[..p] + (s[p + 1..b] + x)
  {
    var cur := s[..b] + x;
    assert cur[..p] == s[..p];
    assert cur[p + 1..] == s[p + 1..b] + x;
  }

  /// One step of the removal loop: removing `u[j - 1]` from the list
  /// pruned from `Bound(j)` on gives the list pruned from `u[j - 1]` on.
  lemma RemoveStep(pool: seq<Instance>, u: seq<nat>, j: nat, kept: seq<Instance>)
    requires ListsDead(pool, u, |pool|) && 0 < j <= |u|
    requires Bound(pool, u, j) <= |pool|
    requires kept == pool[..Bound(pool, u, j)] + Healthy(pool[Bound(pool, u, j)..])
    ensures u[j - 1] < |kept| && Bound(pool, u, j - 1) == u[j - 1]
    ensures kept[..u[j - 1]] + kept[u[j - 1] + 1..] == pool[..u[j - 1]] + Healthy(pool[u[j - 1]..])
  {
    var b := Bound(pool, u, j);
    var p := u[j - 1];
    GapAlive(pool, u, j);
    HealthyFromDead(pool, p, b);
    RemoveInPrefix(pool, Healthy(pool[b..]), p, b);
  }

  /// The indices of the dead instances among the first `n`, in order.
  function DeadBelow(pool: seq<Instance>, n: nat): seq<nat>
    requires n <= |pool|
  {
    if n == 0 then [] else DeadBelow(pool, n - 1) + (if pool[n - 1].alive then [] else [n - 1])
  }

  /// `DeadBelow` lists the dead instances, and there are as many of them
  /// as the pruning removes.
  lemma {:induction false} DeadBelowListed(pool: seq<Instance>, n: nat)
    requires n <= |pool|
    ensures ListsDead(pool, DeadBelow(pool, n), n)
  {
    if n > 0 {
      DeadBelowListed(pool, n - 1);
      CollectStep(pool, DeadBelow(pool, n - 1), n - 1, DeadBelow(pool, n));
    }
  }

  lemma {:induction false} DeadBelowCount(pool: seq<Instance>, n: nat)
    requires n <= |pool|
    ensures |DeadBelow(pool, n)| == DeadCount(pool[..n])
  {
    if n > 0 {
      DeadBelowCount(pool, n - 1);
      HealthyOfLongerPrefix(pool, n - 1);
    }
  }

  /// One more index: the list grows by `i` exactly when the instance at
  /// `i` is dead.
  lemma CollectStep(pool: seq<Instance>, u: seq<nat>, i: nat, next: seq<nat>)
    requires ListsDead(pool, u, i) && i < |pool|
    requires next == if pool[i].alive then u else u + [i]
    ensures ListsDead(pool, next, i + 1)
  {
    if pool[i].alive {
      CollectAlive(pool, u, i);
    } else {
      CollectDeadOne(pool, u, i);
    }
  }

  lemma CollectAlive(pool: seq<Instance>, u: seq<nat>, i: nat)
    requires ListsDead(pool, u, i) && i < |pool| && pool[i].alive
    ensures ListsDead(pool, u, i + 1)
  {
    assert forall q :: 0 <= q < i + 1 && !pool[q].alive ==> q in u;
  }

  lemma CollectDeadOne(pool: seq<Instance>, u: seq<nat>, i: nat)
    requires ListsDead(pool, u, i) && i < |pool| && !pool[i].alive
    ensures ListsDead(pool, u + [i], i + 1)
  {
    var next := u + [i];
    assert forall k :: 0 <= k < |u| ==> next[k] == u[k];
    assert forall k :: 0 <= k < |next| ==> next[k] < i + 1 && !pool[next[k]].alive;
    assert forall k, l :: 0 <= k < l < |next| ==> next[k] < next[l];
    assert forall q :: 0 <= q < i + 1 && !pool[q].alive ==> q in next;
  }

  /// The survivors of a one-longer prefix.
  lemma HealthyOfLongerPrefix(pool: seq<Instance>, i: nat)
    requires i < |pool|
    ensures |Healthy(pool[..i + 1])| == |Healthy(pool[..i])| + (if pool[i].alive then 1 else 0)
  {
    assert pool[..i + 1][..i] == pool[..i];
  }

  /// The first loop of `health_check`: the indices of the dead
  /// instances, in increasing order.
  method CollectDead(pool: seq<Instance>) returns (unhealthy: seq<nat>)
    ensures unhealthy == DeadBelow(pool, |pool|)
    ensures ListsDead(pool, unhealthy, |pool|)
    ensures |unhealthy| == DeadCount(pool)
  {
    unhealthy := [];
    var i: nat := 0;
    while i < |pool|
      invariant i <= |pool|
      invariant unhealthy == DeadBelow(pool, i)
    {
      if !pool[i].alive {
        unhealthy := unhealthy + [i];
      }
      i := i + 1;
    }
    DeadBelowListed(pool, |pool|);
    DeadBelowCount(pool, |pool|);
    assert pool[..|pool|] == pool;
  }

  /// The second loop of `health_check`: `Vec::remove` at every dead index,
  /// the last first, so that the indices still to come stay valid. What
  /// remains is exactly the live instances in their order.
  method RemoveDescending(pool: seq<Instance>, unhealthy: seq<nat>) returns (kept: seq<Instance>)
    requires ListsDead(pool, unhealthy, |pool|)
    ensures kept == Healthy(pool)
  {
    kept := pool;
    var j := |unhealthy|;
    assert pool[|pool|..] == [];
    while j > 0
      invariant 0 <= j <= |unhealthy|
      invariant Bound(pool, unhealthy, j) <= |pool|
      invariant kept == pool[..Bound(pool, unhealthy, j)] + Healthy(pool[Bound(pool, unhealthy, j)..])
    {
      RemoveStep(pool, unhealthy, j, kept);
      kept := kept[..unhealthy[j - 1]] + kept[unhealthy[j - 1] + 1..];
      j := j - 1;
    }
    PrefixAlive(pool, unhealthy);
    LivePrefixPruned(pool, Bound(pool, unhealthy, 0));
  }

  /// A list whose first `b` instances live is its own prefix followed by
  /// the pruned rest.
  lemma LivePrefixPruned(pool: seq<Instance>, b: nat)
    requires b <= |pool| && forall q :: 0 <= q < b ==> pool[q].alive
    ensures pool[..b] + Healthy(pool[b..]) == Healthy(pool)
  {
    var front, rest := pool[..b], pool[b..];
    TakeDrop(pool, b);
    assert forall k :: 0 <= k < |front| ==> front[k] == pool[k];
    HealthyOfLive(front);
    HealthyAppend(front, rest);
  }

  // ---------------------------------------------------------------------
  // The downloader
  // ---------------------------------------------------------------------

  /// `Aria2Downloader`: the instance list (behind its mutex) and the
  /// number of processes it aims to run.
  class Aria2Downloader {
    var instances: seq<Instance>
    const instanceCount: nat

    /// `Aria2Downloader::new` before its processes start: the instance
    /// count follows the configured thread count.
    constructor(threads: nat)
      ensures instanceCount == InstanceCount(threads) && instances == []
    {
      instanceCount := InstanceCount(threads);
      instances := [];
    }

    /// `start_all_instances`: one attempt per wanted instance. A missing
    /// port or a failed spawn aborts with the instances left as they were;
    /// instances failing their connection test are skipped; if none
    /// starts, that is an error too. Otherwise the started instances
    /// replace the list.
    method StartAllInstances(attempt: nat -> Attempt) returns (r: Result<()>)
      modifies this
      ensures var l := LaunchAll(attempt, instanceCount, true);
        if l.error.Some? then r == Err(l.error.value) && instances == old(instances)
        else if l.started == [] then r == Err("没有成功启动任何aria2实例") && instances == old(instances)
        else r == Ok(()) && instances == l.started
    {
      var started: seq<Instance> := [];
      for i := 0 to instanceCount
        invariant LaunchAll(attempt, i, true) == Launches(None, started)
      {
        match attempt(i) {
          case NoPort(message) =>
            LaunchAllStops(attempt, i + 1, instanceCount, true);
            return Err(message);
          case SpawnFailed(message) =>
            LaunchAllStops(attempt, i + 1, instanceCount, true);
            return Err(message);
          case Spawned(port, secret, connected) =>
            if connected {
              started := started + [NewInstance(port, secret)];
            }
        }
      }
      if started == [] {
        return Err("没有成功启动任何aria2实例");
      }
      instances := started;
      r := Ok(());
    }

    /// `select_best_instance`: the least-loaded instance (the first of
    /// equals) with its endpoint, or an error when there is none.
    method SelectBestInstance() returns (r: Result<(nat, nat, string)>)
      ensures r.Err? <==> instances == []
      ensures r.Err? ==> r.error == "没有可用的aria2实例"
      ensures r.Ok? ==> var (i, port, secret) := r.value;
        && i < |instances| && port == instances[i].port && secret == instances[i].secret
        && (forall j :: 0 <= j < |instances| ==> instances[i].load <= instances[j].load)
        && (forall j :: 0 <= j < i ==> instances[i].load < instances[j].load)
    {
      if instances == [] {
        return Err("没有可用的aria2实例");
      }
      var i := FirstLeastLoaded(instances);
      r := Ok((i, instances[i].port, instances[i].secret));
    }

    /// `increment_load` through `instances.get(index)`.
    method IncrementLoad(i: nat)
      modifies this
      ensures instances == Incremented(old(instances), i)
    {
      if i < |instances| {
        instances := instances[i := instances[i].(load := (instances[i].load + 1) % USIZE_LIMIT)];
      }
    }

    /// `decrement_load` through `instances.get(index)`.
    method DecrementLoad(i: nat)
      modifies this
      ensures instances == Decremented(old(instances), i)
    {
      if i < |instances| {
        var l := instances[i].load;
        instances := instances[i := instances[i].(load := if l == 0 then USIZE_LIMIT - 1 else l - 1)];
      }
    }

    /// `fetch_with_aria2_fallback`, with the load released on every path
    /// after the increment: the loads end as they began.
    method FetchWithAria2Fallback(urls: seq<string>, io: FetchIo) returns (r: Result<()>)
      modifies this
      ensures r == Fetch(old(instances), urls, io).result
      ensures instances == Fetch(old(instances), urls, io).pool
      ensures instances == old(instances)
    {
      FetchBalancesLoad(instances, urls, io);
      if urls == [] {
        return Err("No URLs provided");
      }
      if !io.dirCreated {
        return Err("创建目录失败");
      }
      if !io.pathValid {
        return Err("Invalid file name");
      }
      var best := SelectBestInstance();
      if best.Err? {
        return Err(best.error);
      }
      var i := best.value.0;
      IncrementLoad(i);
      if io.added.Err? {
        DecrementLoad(i);
        return Err(io.added.error);
      }
      DecrementLoad(i);
      if io.waited.Err? {
        return Err(io.waited.error);
      }
      if !io.fileExists {
        return Err("Download completed but file not found");
      }
      r := Ok(());
    }

    /// `health_check`: collects the dead instances' indices, removes them
    /// from the back so the remaining indices stay valid, then makes one
    /// restart attempt per removed instance (a missing port aborts; failed
    /// spawns and failed connection tests are skipped). With no instance
    /// left it is an error.
    method HealthCheck(attempt: nat -> Attempt) returns (r: Result<()>)
      modifies this
      ensures var l := LaunchAll(attempt, DeadCount(old(instances)), false);
        && instances == Healthy(old(instances)) + l.started
        && r == (if l.error.Some? then Err(l.error.value)
                 else if instances == [] then Err("所有aria2实例都不可用")
                 else Ok(()))
    {
      ghost var pool := instances;
      var unhealthy := CollectDead(instances);
      instances := RemoveDescending(instances, unhealthy);

      var count := |unhealthy|;
      var started: seq<Instance> := [];
      for k := 0 to count
        invariant instances == Healthy(pool) + started
        invariant LaunchAll(attempt, k, false) == Launches(None, started)
      {
        match attempt(k) {
          case NoPort(message) =>
            LaunchAllStops(attempt, k + 1, count, false);
            return Err(message);
          case SpawnFailed(_) =>
          case Spawned(port, secret, connected) =>
            if connected {
              started := started + [NewInstance(port, secret)];
              instances := instances + [NewInstance(port, secret)];
            }
        }
      }
      if instances == [] {
        return Err("所有aria2实例都不可用");
      }
      r := Ok(());
    }
  }
}
