/** Job streams of RcmServer: the list of jobs, the ready queues of the worker pools, the job id tracker, and the four
    operations that work on them under the instance gate. */
module JobStreams {
  import opened Options

  // The message types of the packet descriptor. Other stands for SYM_ADD and for types the server does not know.
  datatype Kind = Call | Command | SymbolQuery | AcquireJob | ReleaseJob(job: nat) | Other

  // `uid` tells apart packets that carry the same contents: every packet is an object of its own.
  datatype Msg = Msg(uid: nat, jobId: nat, poolId: nat, kind: Kind)

  datatype Job = Job(jobId: nat, empty: bool, msgQue: seq<Msg>)

  const DISCRETE_JOB_ID := 0
  const DEFAULT_POOL_ID := 0x8000
  const MAX_ID := 0xffff

  // ----- Job ids -----

  function NextId(id: nat): nat {
    if id == MAX_ID then 1 else id + 1
  }

  // The tracker after n steps.
  function IdAfter(id: nat, n: nat): nat {
    if n == 0 then id else NextId(IdAfter(id, n - 1))
  }

  predicate InUse(jobs: seq<Job>, id: nat) {
    FindJob(jobs, id) < |jobs|
  }

  function FindJob(jobs: seq<Job>, id: nat): (k: nat)
    ensures k <= |jobs|
    ensures k < |jobs| ==> jobs[k].jobId == id
    ensures forall i :: 0 <= i < k ==> jobs[i].jobId != id
  {
    if jobs == [] || jobs[0].jobId == id then 0 else 1 + FindJob(jobs[1..], id)
  }

  lemma {:induction false} IdAfterClosedForm(id: nat, n: nat)
    requires id <= MAX_ID && n >= 1
    ensures IdAfter(id, n) == (id + n - 1) % MAX_ID + 1
  {
    if n > 1 { IdAfterClosedForm(id, n - 1); }
  }

  /** From wherever the tracker stands, 65535 steps visit every id from 1 to 65535, each exactly once. */
  lemma TrackerVisitsEveryId(id: nat, target: nat) returns (n: nat)
    requires id <= MAX_ID && 1 <= target <= MAX_ID
    ensures 1 <= n <= MAX_ID && IdAfter(id, n) == target
    ensures forall m :: 1 <= m <= MAX_ID && IdAfter(id, m) == target ==> m == n
  {
    n := if target > id then target - id else target - id + MAX_ID;
    forall m | 1 <= m <= MAX_ID
      ensures IdAfter(id, m) == target <==> m == n
    {
      IdAfterClosedForm(id, m);
    }
  }

  // The first n ids after the tracker are all taken.
  ghost predicate UsedUpTo(jobs: seq<Job>, start: nat, n: nat) {
    forall m :: 1 <= m <= n ==> InUse(jobs, IdAfter(start, m))
  }

  ghost predicate FirstFreeAt(jobs: seq<Job>, start: nat, n: nat, id: nat) {
    n >= 1 && id == IdAfter(start, n) && !InUse(jobs, id) && UsedUpTo(jobs, start, n - 1)
  }

  ghost predicate AllInUse(jobs: seq<Job>) {
    forall id :: 1 <= id <= MAX_ID ==> InUse(jobs, id)
  }

  lemma UsedUpToAll(jobs: seq<Job>, start: nat)
    requires start <= MAX_ID && UsedUpTo(jobs, start, MAX_ID)
    ensures AllInUse(jobs)
  {
    forall target | 1 <= target <= MAX_ID ensures InUse(jobs, target) {
      var m := TrackerVisitsEveryId(start, target);
    }
  }

  // ----- Pools -----

  // Static pool ids have bit 15 set, and only those name a pool: for others the source leaves the pool pointer unset.
  predicate WellAddressed(m: Msg) {
    0x8000 <= m.poolId <= 0xffff
  }

  // Bits 7:0 of a static pool id are the offset into the pool table.
  function PoolOf(nPools: nat, poolId: nat): Option<nat> {
    if poolId % 256 < nPools then Some(poolId % 256) else None
  }

  // ----- The sections that run inside the gate -----

  datatype Streams = Streams(jobs: seq<Job>, ready: seq<seq<Msg>>)

  function Put(ready: seq<seq<Msg>>, p: nat, m: Msg): seq<seq<Msg>>
    requires p < |ready|
  {
    ready[p := ready[p] + [m]]
  }

  datatype Accepted = NoSuchJob | OnReady | OnJob

  // What dispatch does with a job message once it knows its pool.
  function Accept(x: Streams, m: Msg, p: nat): (Streams, Accepted)
    requires p < |x.ready|
  {
    var k := FindJob(x.jobs, m.jobId);
    if k == |x.jobs| then (x, NoSuchJob)
    else if x.jobs[k].empty then
      (Streams(x.jobs[k := x.jobs[k].(empty := false)], Put(x.ready, p, m)), OnReady)
    else
      (x.(jobs := x.jobs[k := x.jobs[k].(msgQue := x.jobs[k].msgQue + [m])]), OnJob)
  }

  datatype Requeued = JobGone | NowEmpty | Queued(pool: nat) | PoolGone(m: Msg)

  // What a worker does for the job of the message it has just finished.
  function Requeue(x: Streams, id: nat): (Streams, Requeued) {
    var k := FindJob(x.jobs, id);
    if k == |x.jobs| then (x, JobGone)
    else if x.jobs[k].msgQue == [] then (x.(jobs := x.jobs[k := x.jobs[k].(empty := true)]), NowEmpty)
    else
      var m := x.jobs[k].msgQue[0];
      var jobs := x.jobs[k := x.jobs[k].(msgQue := x.jobs[k].msgQue[1..])];
      match PoolOf(|x.ready|, m.poolId)
      case None => (x.(jobs := jobs), PoolGone(m))
      case Some(p) => (Streams(jobs, Put(x.ready, p, m)), Queued(p))
  }

  function Without(jobs: seq<Job>, k: nat): seq<Job>
    requires k < |jobs|
  {
    jobs[..k] + jobs[k+1..]
  }

  // ----- What every reachable job list keeps -----

  ghost predicate JobsValid(jobs: seq<Job>, nPools: nat) {
    && (forall k :: 0 <= k < |jobs| ==> 1 <= jobs[k].jobId <= MAX_ID && (jobs[k].empty ==> jobs[k].msgQue == []))
    && (forall i, k :: 0 <= i < k < |jobs| ==> jobs[i].jobId != jobs[k].jobId)
    && (forall k, i :: 0 <= k < |jobs| && 0 <= i < |jobs[k].msgQue| ==>
          PoolOf(nPools, jobs[k].msgQue[i].poolId).Some?)
  }

  lemma AcceptKeepsJobs(x: Streams, m: Msg, p: nat)
    requires JobsValid(x.jobs, |x.ready|) && PoolOf(|x.ready|, m.poolId) == Some(p)
    ensures JobsValid(Accept(x, m, p).0.jobs, |x.ready|)
  {
  }

  /** The pool of a queued message was looked up before the message was queued, so a worker's lookup cannot fail. */
  lemma RequeueKeepsJobs(x: Streams, id: nat)
    requires JobsValid(x.jobs, |x.ready|)
    ensures JobsValid(Requeue(x, id).0.jobs, |x.ready|)
    ensures !Requeue(x, id).1.PoolGone?
  {
  }

  lemma AcquireKeepsJobs(jobs: seq<Job>, nPools: nat, id: nat)
    requires JobsValid(jobs, nPools) && 1 <= id <= MAX_ID && !InUse(jobs, id)
    ensures JobsValid(jobs + [Job(id, true, [])], nPools)
  {
  }

  lemma ReleaseKeepsJobs(jobs: seq<Job>, nPools: nat, k: nat)
    requires JobsValid(jobs, nPools) && k < |jobs|
    ensures JobsValid(Without(jobs, k), nPools) && !InUse(Without(jobs, k), jobs[k].jobId)
  {
    assert forall i :: 0 <= i < |Without(jobs, k)| ==> Without(jobs, k)[i] == jobs[if i < k then i else i + 1];
  }

  datatype AcquireResult = Acquired(id: nat) | NoIdLeft | NoMemory

  class JobServer {
    var jobId: nat             // the tracker
    var jobList: seq<Job>
    const readyQueue: array<seq<Msg>>
    const sem: array<nat>

    ghost function Contents(): Streams
      reads this, readyQueue
    {
      Streams(jobList, readyQueue[..])
    }

    ghost predicate Valid()
      reads this, readyQueue, sem
    {
      jobId <= MAX_ID && readyQueue.Length == sem.Length && JobsValid(jobList, readyQueue.Length)
    }

    constructor (nPools: nat)
      ensures Valid() && jobId == MAX_ID && jobList == []
      ensures fresh(readyQueue) && fresh(sem) && readyQueue.Length == nPools
      ensures forall p :: 0 <= p < nPools ==> readyQueue[p] == [] && sem[p] == 0
    {
      jobId := MAX_ID;
      jobList := [];
      readyQueue := new seq<Msg>[nPools](_ => []);
      sem := new nat[nPools](_ => 0);
    }

    // The search loop that acquire, dispatch, release and requeue share.
    method Search(id: nat) returns (k: nat)
      ensures k == FindJob(jobList, id)
    {
      k := 0;
      while k < |jobList| && jobList[k].jobId != id
        invariant 0 <= k <= |jobList|
        invariant forall i :: 0 <= i < k ==> jobList[i].jobId != id
      {
        k := k + 1;
      }
    }

    /** The id issued is never 0 and never one in the job list; it is the first free one after the tracker, and the
        search gives up only when all 65535 ids are in use. */
    method AcqJobId(allocOk: bool) returns (r: AcquireResult)
      requires Valid()
      modifies `jobId, `jobList
      ensures Valid()
      ensures r.Acquired? ==> 1 <= r.id <= MAX_ID && !InUse(old(jobList), r.id) && jobId == r.id
      ensures r.Acquired? ==> jobList == old(jobList) + [Job(r.id, true, [])]
      ensures r.Acquired? ==> exists n :: 1 <= n <= MAX_ID && FirstFreeAt(old(jobList), old(jobId), n, r.id)
      ensures !r.Acquired? ==> jobList == old(jobList)
      ensures r.NoIdLeft? <==> AllInUse(old(jobList))
      ensures r.NoMemory? ==> !allocOk
      ensures r.Acquired? ==> allocOk
    {
      hide JobsValid;
      ghost var start := jobId;
      ghost var n := 0;
      var count := MAX_ID;
      var id := DISCRETE_JOB_ID;
      while count > 0
        invariant 0 <= count <= MAX_ID && n == MAX_ID - count && jobId == IdAfter(start, n) && jobId <= MAX_ID
        invariant id == DISCRETE_JOB_ID && jobList == old(jobList)
        invariant UsedUpTo(jobList, start, n)
      {
        jobId := if jobId == MAX_ID then 1 else jobId + 1;
        n := n + 1;
        id := jobId;
        var k := Search(id);
        if k < |jobList| {
          id := DISCRETE_JOB_ID;
        }
        if id != DISCRETE_JOB_ID {
          break;
        }
        count := count - 1;
      }
      if id == DISCRETE_JOB_ID {
        UsedUpToAll(jobList, start);
        return NoIdLeft;
      }
      assert FirstFreeAt(jobList, start, n, id);
      if !allocOk {
        return NoMemory;
      }
      AcquireKeepsJobs(jobList, readyQueue.Length, id);
      jobList := jobList + [Job(id, true, [])];
      r := Acquired(id);
    }

    /** Releasing takes the job off the list and returns everything that was waiting in it, in order. */
    method RelJobId(id: nat) returns (found: bool, unprocessed: seq<Msg>)
      requires Valid()
      modifies `jobList
      ensures Valid()
      ensures found == InUse(old(jobList), id)
      ensures found ==> jobList == Without(old(jobList), FindJob(old(jobList), id)) && !InUse(jobList, id)
      ensures found ==> unprocessed == old(jobList)[FindJob(old(jobList), id)].msgQue
      ensures !found ==> jobList == old(jobList) && unprocessed == []
    {
      hide JobsValid;
      unprocessed := [];
      var k := Search(id);
      if k == |jobList| {
        return false, [];
      }
      var job := jobList[k];
      jobList := jobList[..k] + jobList[k+1..];
      ReleaseKeepsJobs(old(jobList), readyQueue.Length, k);
      while job.msgQue != []
        invariant unprocessed + job.msgQue == old(jobList)[k].msgQue
        decreases |job.msgQue|
      {
        unprocessed := unprocessed + [job.msgQue[0]];
        job := job.(msgQue := job.msgQue[1..]);
      }
      found := true;
    }

    /** A discrete message, or the first of an idle job, goes to the end of its pool's ready queue and the pool's
        semaphore is posted; any other job message goes to the end of its job's queue. */
    method Dispatch(packet: Msg) returns (error: Option<int>)
      requires Valid() && WellAddressed(packet)
      modifies `jobList, readyQueue, sem
      ensures Valid()
      ensures match PoolOf(readyQueue.Length, packet.poolId)
        case None => error == Some(-103) && Contents() == old(Contents()) && sem[..] == old(sem[..])
        case Some(p) =>
          var (x, accepted) := if packet.jobId == DISCRETE_JOB_ID
            then (Streams(old(jobList), Put(old(readyQueue[..]), p, packet)), OnReady)
            else Accept(old(Contents()), packet, p);
          && Contents() == x
          && error == (if accepted == NoSuchJob then Some(-102) else None)
          && sem[..] == (if accepted == OnReady then old(sem[..])[p := old(sem[p]) + 1] else old(sem[..]))
    {
      hide JobsValid;
      var pool := PoolOf(readyQueue.Length, packet.poolId);
      if pool.None? {
        return Some(-103);
      }
      var p := pool.value;
      AcceptKeepsJobs(Contents(), packet, p);
      error := None;
      if packet.jobId == DISCRETE_JOB_ID {
        readyQueue[p] := readyQueue[p] + [packet];
        sem[p] := sem[p] + 1;
      } else {
        var k := Search(packet.jobId);
        if k == |jobList| {
          error := Some(-102);
        } else if jobList[k].empty {
          jobList := jobList[k := jobList[k].(empty := false)];
          readyQueue[p] := readyQueue[p] + [packet];
          sem[p] := sem[p] + 1;
        } else {
          jobList := jobList[k := jobList[k].(msgQue := jobList[k].msgQue + [packet])];
        }
      }
    }

    /** After finishing a job message: the next message of the job, if there is one, goes to the end of the ready queue
        of its own pool; if there is none the job becomes idle. The pool lookup never fails here. */
    method RequeueNext(id: nat)
      requires Valid()
      modifies `jobList, readyQueue, sem
      ensures Valid()
      ensures Contents() == Requeue(old(Contents()), id).0 && !Requeue(old(Contents()), id).1.PoolGone?
      ensures sem[..] == match Requeue(old(Contents()), id).1
        case Queued(p) => old(sem[..])[p := old(sem[p]) + 1]
        case _ => old(sem[..])
    {
      RequeueKeepsJobs(Contents(), id);
      hide JobsValid;
      var k := Search(id);
      if k == |jobList| {
        return;
      }
      var job := jobList[k];
      if job.msgQue == [] {
        jobList := jobList[k := job.(empty := true)];
      } else {
        var packet := job.msgQue[0];
        jobList := jobList[k := job.(msgQue := job.msgQue[1..])];
        var pool := PoolOf(readyQueue.Length, packet.poolId);
        if pool.None? {
          assert false; // dispatch looked this pool up before it queued the message
        }
        readyQueue[pool.value] := readyQueue[pool.value] + [packet];
        sem[pool.value] := sem[pool.value] + 1;
      }
    }
  }

  /** An id comes round again only when the tracker has been through all the others. */
  lemma IdReturnsAfter65535(id: nat, n: nat)
    requires 1 <= id <= MAX_ID
    ensures IdAfter(id, n) == id <==> n % MAX_ID == 0
  {
    if n >= 1 { IdAfterClosedForm(id, n); }
  }
}
