/** The simulated single-processor machine: the clock, the memory limit, the
    ready queue and the queue of the single I/O device. */
module Processor {
  import opened Statistics
  import opened Process

  /** Number of jobs that fit in memory at once. */
  const MAX_JOBS: int := 10

  /** One line of the job file, already split into its fields: job ID, arrival
      time and the burst lengths (the burst count is their number). */
  datatype Descriptor = Descriptor(id: int, arrival: int, bursts: seq<int>)

  /** A descriptor the simulator can run: it names at least one burst. */
  predicate Runnable(d: Descriptor)
  {
    |d.bursts| >= 1
  }

  /** The fresh job a descriptor is admitted as: it carries the descriptor's
      fields, and a runnable descriptor gives a consistent job that is ready
      and has received nothing. */
  function Admit(d: Descriptor): (p: PCB)
    ensures p.jobID == d.id && p.arrivalTime == d.arrival && p.burstList == d.bursts
    ensures Runnable(d) ==> WellFormed(p) && Accounted(p) && p.pc == 0 && p.state == Ready
  {
    if Runnable(d) then
      NewPCBAccounted(d.id, d.arrival, d.bursts);
      NewPCB(d.id, d.arrival, |d.bursts|, d.bursts)
    else
      NewPCB(d.id, d.arrival, |d.bursts|, d.bursts)
  }

  /** The jobs admitted, in order, from the descriptors `ds`. */
  function AdmitSeq(ds: seq<Descriptor>): (js: seq<PCB>)
    ensures |js| == |ds| && forall i :: 0 <= i < |ds| ==> js[i] == Admit(ds[i])
  {
    seq(|ds|, i requires 0 <= i < |ds| => Admit(ds[i]))
  }

  /** The queues `rq'` and `ioq'` after one clock tick at the pre-increment
      time `now`: the I/O head whose completion time is `now` joins the ready
      tail as ready; otherwise nothing moves. */
  predicate Ticked(rq: seq<PCB>, ioq: seq<PCB>, now: int, rq': seq<PCB>, ioq': seq<PCB>)
  {
    if ioq != [] && ioq[0].ioCompTime == now
    then rq' == rq + [SetState(ioq[0], Ready)] && ioq' == ioq[1..]
    else rq' == rq && ioq' == ioq
  }

  /** When a job queued for I/O at time `now` behind `ioq` completes it: the
      device serves one job at a time, so IO_TIME after the last job queued,
      or IO_TIME from now when the device is idle. */
  function IOCompletion(ioq: seq<PCB>, now: int): int
  {
    (if ioq == [] then now else ioq[|ioq| - 1].ioCompTime) + IO_TIME
  }

  predicate AllWellFormed(js: seq<PCB>)
  {
    forall i :: 0 <= i < |js| ==> WellFormed(js[i])
  }

  /** Ascending by current burst length; nothing is said about ties. */
  predicate SortedByBurst(js: seq<PCB>)
    requires AllWellFormed(js)
  {
    forall i, k :: 0 <= i < k < |js| ==> !IsBurstGreaterThan(js[k], js[i])
  }

  /** Jobs drawn from well-formed jobs are well-formed. */
  lemma WellFormedFromBag(a: seq<PCB>, b: seq<PCB>)
    requires multiset(a) <= multiset(b) && AllWellFormed(b)
    ensures AllWellFormed(a)
  {
    forall i | 0 <= i < |a|
      ensures WellFormed(a[i])
    {
      assert a[i] in multiset(b);
      var k :| 0 <= k < |b| && b[k] == a[i];
    }
  }

  /** Insert `x` into a queue after every job whose current burst is not
      longer than its own. */
  function InsertByBurst(js: seq<PCB>, x: PCB): (r: seq<PCB>)
    requires AllWellFormed(js) && WellFormed(x)
    ensures multiset(r) == multiset(js) + multiset{x}
  {
    if js == [] then [x]
    else if IsBurstGreaterThan(x, js[0]) then [x] + js
    else
      assert js == [js[0]] + js[1..];
      [js[0]] + InsertByBurst(js[1..], x)
  }

  /** Inserting into an ascending queue keeps it ascending. */
  lemma {:induction false} InsertByBurstSorted(js: seq<PCB>, x: PCB)
    requires AllWellFormed(js) && WellFormed(x) && SortedByBurst(js)
    ensures AllWellFormed(InsertByBurst(js, x)) && SortedByBurst(InsertByBurst(js, x))
  {
    var r := InsertByBurst(js, x);
    assert AllWellFormed(js + [x]);
    assert multiset(js + [x]) == multiset(r);
    WellFormedFromBag(r, js + [x]);
    if js == [] {
    } else if IsBurstGreaterThan(x, js[0]) {
      assert r == [x] + js;
    } else {
      var t := InsertByBurst(js[1..], x);
      InsertByBurstSorted(js[1..], x);
      assert r == [js[0]] + t;
      forall k | 0 <= k < |t|
        ensures !IsBurstGreaterThan(t[k], js[0])
      {
        BoundedByHead(js, x, t, k);
      }
    }
  }

  lemma BoundedByHead(js: seq<PCB>, x: PCB, t: seq<PCB>, k: nat)
    requires AllWellFormed(js) && WellFormed(x) && SortedByBurst(js) && js != []
    requires !IsBurstGreaterThan(x, js[0])
    requires AllWellFormed(t) && multiset(t) == multiset(js[1..]) + multiset{x} && k < |t|
    ensures !IsBurstGreaterThan(t[k], js[0])
  {
    assert t[k] in multiset(t);
    if t[k] != x {
      assert t[k] in multiset(js[1..]);
      var m :| 0 <= m < |js[1..]| && js[1..][m] == t[k];
      assert js[m + 1] == t[k];
    }
  }

  /** A permutation of consistent jobs has the same length and consists of
      consistent jobs. */
  lemma PermutedJobs(a: seq<PCB>, b: seq<PCB>)
    requires multiset(a) == multiset(b)
    requires forall i :: 0 <= i < |b| ==> WellFormed(b[i]) && Accounted(b[i])
    ensures |a| == |b|
    ensures forall i :: 0 <= i < |a| ==> WellFormed(a[i]) && Accounted(a[i])
  {
    assert |a| == |multiset(a)| == |multiset(b)| == |b|;
    forall i | 0 <= i < |a|
      ensures WellFormed(a[i]) && Accounted(a[i])
    {
      assert a[i] in multiset(b);
      var k :| 0 <= k < |b| && b[k] == a[i];
    }
  }

  class CPU {
    var cpuTime: nat
    var jobsInMemory: int
    /** Sum of the I/O waits of blocked jobs; the source never reads it. */
    ghost var totalWait: int
    var quantum: int
    var jobsComplete: int
    var readyQ: seq<PCB>
    var ioQ: seq<PCB>

    /** Every job in memory sits in exactly one queue and memory is never
        over-full; every job is consistent; the I/O device serves its queue
        one job after the other, so completion times are IO_TIME apart, and
        the head's is never behind the clock. */
    ghost predicate Valid()
      reads this
    {
      && jobsInMemory == |readyQ| + |ioQ| <= MAX_JOBS
      && (forall i :: 0 <= i < |readyQ| ==> WellFormed(readyQ[i]) && Accounted(readyQ[i]))
      && (forall i :: 0 <= i < |ioQ| ==> WellFormed(ioQ[i]) && Accounted(ioQ[i]) && ioQ[i].state == IOBlocked)
      && (ioQ != [] ==> ioQ[0].ioCompTime >= cpuTime)
      && (forall i :: 0 <= i < |ioQ| ==> ioQ[i].ioCompTime == ioQ[0].ioCompTime + i * IO_TIME)
    }

    constructor ()
      ensures Valid()
      ensures cpuTime == 0 && jobsInMemory == 0 && jobsComplete == 0 && totalWait == 0
      ensures readyQ == [] && ioQ == []
    {
      cpuTime, jobsInMemory, jobsComplete := 0, 0, 0;
      totalWait := 0;
      readyQ, ioQ := [], [];
    }

    function GetCPUTime(): nat
      reads this
    {
      cpuTime
    }

    function MemoryUsed(): int
      reads this
    {
      jobsInMemory
    }

    function ReadyJobs(): int
      reads this
    {
      |readyQ|
    }

    function GetQuantum(): int
      reads this
    {
      quantum
    }

    function GetCurrentJob(): PCB
      reads this
      requires readyQ != []
    {
      readyQ[0]
    }

    /** A non-positive quantum is refused and leaves the old one. */
    method WriteQuantum(q: int) returns (ok: bool)
      modifies this`quantum
      ensures ok == (q > 0)
      ensures quantum == if ok then q else old(quantum)
    {
      if q <= 0 {
        return false;
      }
      quantum := q;
      return true;
    }

    /** Admit the first descriptor of the feed, unless memory is full or the
        feed is empty; `rest` is what is left of the feed. */
    method InsertToReady(jobQ: seq<Descriptor>) returns (ok: bool, rest: seq<Descriptor>)
      requires Valid()
      requires forall d :: d in jobQ ==> Runnable(d)
      modifies this`readyQ, this`jobsInMemory
      ensures Valid()
      ensures ok == (old(jobsInMemory) != MAX_JOBS && jobQ != [])
      ensures ok ==> rest == jobQ[1..] && readyQ == old(readyQ) + [Admit(jobQ[0])]
                     && jobsInMemory == old(jobsInMemory) + 1
      ensures !ok ==> rest == jobQ && readyQ == old(readyQ) && jobsInMemory == old(jobsInMemory)
    {
      if jobsInMemory == MAX_JOBS || |jobQ| == 0 {
        return false, jobQ;
      }
      var d := jobQ[0];
      assert d in jobQ;
      rest := jobQ[1..];
      var job := NewPCB(d.id, d.arrival, |d.bursts|, d.bursts);
      NewPCBAccounted(d.id, d.arrival, d.bursts);
      readyQ := readyQ + [job];
      jobsInMemory := jobsInMemory + 1;
      ok := true;
    }

    /** One clock tick. The head of the I/O queue rejoins the ready queue at
        its tail when its I/O completes at the present, pre-increment, time. */
    method IncCPUTime()
      requires Valid()
      modifies this`cpuTime, this`readyQ, this`ioQ
      ensures Valid()
      ensures cpuTime == old(cpuTime) + 1
      ensures Ticked(old(readyQ), old(ioQ), old(cpuTime), readyQ, ioQ)
    {
      if |ioQ| > 0 {
        var j := ioQ[0];
        if j.ioCompTime == cpuTime {
          j := SetState(j, Ready);
          readyQ := readyQ + [j];
          ioQ := ioQ[1..];
        }
      }
      cpuTime := cpuTime + 1;
    }

    /** Block the ready head, whose burst is exhausted and which has another
        burst to run, for I/O. The device serves one job at a time, so the
        job finishes I/O IO_TIME after the last job queued ahead of it, or
        IO_TIME from now when the device is idle. */
    method InsertToIOBlock(jobToInsert: PCB)
      requires Valid()
      requires readyQ != [] && jobToInsert == readyQ[0]
      requires jobToInsert.cBurst < jobToInsert.nBursts
      requires jobToInsert.cBurstPC == ThisBurst(jobToInsert)
      modifies this`readyQ, this`ioQ, this`totalWait
      ensures Valid()
      ensures readyQ == old(readyQ)[1..]
      ensures ioQ == old(ioQ) + [SetState(SetIOCompTime(BurstComplete(jobToInsert),
                                   IOCompletion(old(ioQ), cpuTime)), IOBlocked)]
      ensures old(ioQ) != [] ==> ioQ[|ioQ| - 1].ioCompTime == old(ioQ)[0].ioCompTime + |old(ioQ)| * IO_TIME
      ensures totalWait == old(totalWait) +
                (if old(ioQ) == [] then 0 else old(ioQ)[|old(ioQ)| - 1].ioCompTime - cpuTime)
    {
      var job := BurstComplete(jobToInsert);
      BurstCompleteKeepsAccounting(jobToInsert);
      if |ioQ| > 0 {
        var j := ioQ[0];
        var ioWaitTime := (j.ioCompTime - cpuTime) + (|ioQ| - 1) * IO_TIME;
        totalWait := totalWait + ioWaitTime;
        job := SetIOCompTime(job, cpuTime + ioWaitTime + IO_TIME);
      } else {
        job := SetIOCompTime(job, cpuTime + IO_TIME);
      }
      job := SetState(job, IOBlocked);
      ioQ := ioQ + [job];
      readyQ := readyQ[1..];
    }

    /** Run the ready head for one cycle. */
    method ServiceJob()
      requires Valid() && readyQ != []
      modifies this`readyQ
      ensures Valid()
      ensures readyQ == old(readyQ)[0 := IncCurrentBurstPC(SetState(old(readyQ)[0], Running))]
    {
      var currentJob := SetState(readyQ[0], Running);
      currentJob := IncCurrentBurstPC(currentJob);
      readyQ := readyQ[0 := currentJob];
    }

    /** Retire the ready head: its last shot counts, it ends now, and it
        leaves memory. Returns its final statistics. */
    method CompleteJob() returns (s: Stats)
      requires Valid() && readyQ != []
      modifies this`readyQ, this`jobsInMemory, this`jobsComplete
      ensures Valid()
      ensures s == GetStats(WriteEndTime(ShotComplete(old(readyQ)[0]), cpuTime))
      ensures readyQ == old(readyQ)[1..]
      ensures jobsInMemory == old(jobsInMemory) - 1 && jobsComplete == old(jobsComplete) + 1
    {
      var j := readyQ[0];
      j := ShotComplete(j);
      j := WriteEndTime(j, cpuTime);
      s := GetStats(j);
      readyQ := readyQ[1..];
      jobsInMemory := jobsInMemory - 1;
      jobsComplete := jobsComplete + 1;
    }

    /** Reorder the ready queue by ascending current burst length. The
        source's sort is not stable, so only the order of distinct lengths is
        promised. */
    method SortReadyQ() returns (ok: bool)
      requires Valid()
      modifies this`readyQ
      ensures Valid()
      ensures ok == (old(readyQ) != [])
      ensures multiset(readyQ) == multiset(old(readyQ))
      ensures SortedByBurst(readyQ)
    {
      if |readyQ| == 0 {
        return false;
      }
      var tempVec := readyQ;
      var sorted: seq<PCB> := [];
      var i := 0;
      while i < |tempVec|
        invariant 0 <= i <= |tempVec|
        invariant AllWellFormed(sorted) && SortedByBurst(sorted)
        invariant multiset(sorted) == multiset(tempVec[..i])
      {
        assert tempVec[..i + 1] == tempVec[..i] + [tempVec[i]];
        InsertByBurstSorted(sorted, tempVec[i]);
        sorted := InsertByBurst(sorted, tempVec[i]);
        i := i + 1;
      }
      assert tempVec[..i] == tempVec;
      PermutedJobs(sorted, tempVec);
      readyQ := sorted;
      return true;
    }

    /** The quantum of the ready head expired: it becomes ready again with a
        fresh quantum, the interrupted shot counts, and it goes to the tail. */
    method PreemptJob()
      requires Valid()
      modifies this`readyQ
      ensures Valid()
      ensures old(readyQ) == [] ==> readyQ == []
      ensures old(readyQ) != [] ==>
                readyQ == old(readyQ)[1..] + [ShotComplete(ResetQuantum(SetState(old(readyQ)[0], Ready)))]
    {
      if |readyQ| > 0 {
        var j := readyQ[0];
        j := SetState(j, Ready);
        j := ResetQuantum(j);
        j := ShotComplete(j);
        readyQ := readyQ[0 := j];
        readyQ := readyQ[1..] + [readyQ[0]];
      }
    }
  }
}
