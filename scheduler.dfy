/** The three dispatching policies. Each iteration of a policy loop admits
    jobs while memory allows, then either ticks the idle clock, completes the
    ready head, blocks it for I/O, preempts it (Round-Robin only), or runs it
    for one cycle and ticks the clock. */
module Scheduler {
  import opened Sums
  import opened Statistics
  import opened Process
  import opened Processor

  datatype Policy = FCFS | SJF | RR

  /** What the dispatch part of one loop iteration did. `Completed` carries
      the finished job and the statistics merged for it. */
  datatype Action = Idle | Completed(job: PCB, s: Stats) | Blocked | Preempted | Serviced

  /** The result of a whole simulation: a refused configuration, the final
      clock and the accumulated totals, or a run cut short by the step bound. */
  datatype Outcome = InvalidQuantum | Finished(clock: nat, totals: Stats) | OutOfFuel

  /** The descriptor a job was admitted from; no operation changes it. */
  function Origin(p: PCB): Descriptor
  {
    Descriptor(p.jobID, p.arrivalTime, p.burstList)
  }

  function OriginSeq(js: seq<PCB>): (ds: seq<Descriptor>)
    ensures |ds| == |js|
  {
    seq(|js|, i requires 0 <= i < |js| => Origin(js[i]))
  }

  /** The descriptors of the jobs in the two queues, that is, in memory. */
  function Bag(rq: seq<PCB>, ioq: seq<PCB>): multiset<Descriptor>
  {
    multiset(OriginSeq(rq)) + multiset(OriginSeq(ioq))
  }

  /** CPU cycles plus I/O time a job described by `d` is owed in total. */
  function ProcessingDue(d: Descriptor): int
  {
    Sum(d.bursts) + IO_TIME * (|d.bursts| - 1)
  }

  function BurstCount(d: Descriptor): int
  {
    |d.bursts|
  }

  /** CPU cycles a job described by `d` needs in total. */
  function CpuDemand(d: Descriptor): int
  {
    Sum(d.bursts)
  }

  function PcOf(p: PCB): int
  {
    p.pc
  }

  /** CPU cycles received so far by the jobs in the two queues. */
  function Work(rq: seq<PCB>, ioq: seq<PCB>): int
  {
    SumOf(rq, PcOf) + SumOf(ioq, PcOf)
  }

  lemma OriginSeqConcat(a: seq<PCB>, b: seq<PCB>)
    ensures OriginSeq(a + b) == OriginSeq(a) + OriginSeq(b)
  {
  }

  lemma OriginBagPop(q: seq<PCB>)
    requires q != []
    ensures multiset(OriginSeq(q)) == multiset{Origin(q[0])} + multiset(OriginSeq(q[1..]))
  {
    assert q == [q[0]] + q[1..];
    OriginSeqConcat([q[0]], q[1..]);
  }

  lemma OriginBagPush(q: seq<PCB>, p: PCB)
    ensures multiset(OriginSeq(q + [p])) == multiset(OriginSeq(q)) + multiset{Origin(p)}
  {
    OriginSeqConcat(q, [p]);
  }

  /** Reordering jobs does not change which descriptors are in memory. */
  lemma {:induction false} OriginBagPermutation(a: seq<PCB>, b: seq<PCB>)
    requires multiset(a) == multiset(b)
    ensures multiset(OriginSeq(a)) == multiset(OriginSeq(b))
    decreases |a|
  {
    if a != [] {
      var x := a[|a| - 1];
      assert x in multiset(b);
      var i :| 0 <= i < |b| && b[i] == x;
      var a' := a[..|a| - 1];
      var b' := b[..i] + b[i + 1..];
      assert a == a' + [x];
      assert b == b[..i] + [x] + b[i + 1..];
      calc {
        multiset(a') + multiset{x};
        multiset(b[..i]) + multiset{x} + multiset(b[i + 1..]);
        multiset(b') + multiset{x};
      }
      assert multiset(a') == multiset(a') + multiset{x} - multiset{x};
      OriginBagPermutation(a', b');
      OriginSeqConcat(a', [x]);
      OriginSeqConcat(b[..i] + [x], b[i + 1..]);
      OriginSeqConcat(b[..i], [x]);
      OriginSeqConcat(b[..i], b[i + 1..]);
    } else {
      assert |b| == |multiset(b)| == 0;
    }
  }

  /** A job's shot count matches the policy: one shot per finished burst, plus
      (Round-Robin only) one per preemption. */
  predicate ShotsAccounted(j: PCB, policy: Policy)
  {
    if policy == RR then j.numShots >= j.cBurst - 1 else j.numShots == j.cBurst - 1
  }

  /** Invariant of every job in memory under a policy loop: its burst plan is
      consistent and its cycle count in the current burst stays within the
      burst. */
  predicate JobInvariant(j: PCB, policy: Policy)
  {
    && WellFormed(j)
    && Accounted(j)
    && 0 <= j.cBurstPC
    && (ThisBurst(j) >= 0 ==> j.cBurstPC <= ThisBurst(j))
    && ShotsAccounted(j, policy)
  }

  /** Invariant of the two queues under a policy loop: every job satisfies
      the job invariant; blocked jobs are blocked with an unused quantum; only
      the ready head may be running and every other ready job has an unused
      quantum; Round-Robin has a positive quantum that the head never
      exceeds. */
  predicate QueuesDisciplined(rq: seq<PCB>, ioq: seq<PCB>, quantum: int, policy: Policy)
  {
    && (forall i :: 0 <= i < |rq| ==> JobInvariant(rq[i], policy))
    && (forall i :: 0 <= i < |ioq| ==>
          JobInvariant(ioq[i], policy) && ioq[i].state == IOBlocked && ioq[i].quantumTime == 0)
    && (forall i :: 0 < i < |rq| ==> rq[i].state == Ready && rq[i].quantumTime == 0)
    && (rq != [] && rq[0].state == Ready ==> rq[0].quantumTime == 0)
    && (policy == RR ==> quantum > 0 && (rq != [] ==> rq[0].quantumTime <= quantum))
  }

  ghost predicate Disciplined(cpu: CPU, policy: Policy)
    reads cpu
  {
    cpu.Valid() && QueuesDisciplined(cpu.readyQ, cpu.ioQ, cpu.quantum, policy)
  }

  /** A completed job ran every burst: it received the sum of its bursts in
      CPU cycles, it ended now, and its shot count is its burst count (plus
      its preemptions under Round-Robin). */
  predicate CompletedProperly(act: Action, policy: Policy, now: int)
    requires act.Completed?
  {
    var j := act.job;
    && WellFormed(j)
    && act.s == GetStats(j)
    && j.endTime == now
    && j.pc == Sum(j.burstList)
    && act.s.pTime == ProcessingDue(Origin(j))
    && act.s.pTime + act.s.wTime == act.s.taTime
    && act.s.taTime == now - j.arrivalTime
    && (if policy == RR then act.s.shots >= |j.burstList| else act.s.shots == |j.burstList|)
  }

  /** The decision table of the dispatch half of a policy loop, from the
      queues `rq`, `ioq` and the clock `now` to `rq'`, `ioq'` and `now'`:
      with nothing ready the clock ticks idle; otherwise, for the head `h`,
      an exhausted last burst completes it now, an exhausted earlier burst
      blocks it for I/O, under Round-Robin an expired quantum in an
      unexhausted burst sends it to the tail, and otherwise it runs one cycle
      at the head and the clock ticks. */
  predicate Dispatched(policy: Policy, quantum: int, rq: seq<PCB>, ioq: seq<PCB>, now: int,
                       act: Action, rq': seq<PCB>, ioq': seq<PCB>, now': int)
  {
    if rq == [] then
      act.Idle? && now' == now + 1 && Ticked(rq, ioq, now, rq', ioq')
    else
      var h := rq[0];
      WellFormed(h) &&
      match act
      case Idle => false
      case Completed(j, s) =>
        && h.cBurstPC == ThisBurst(h) && h.cBurst == h.nBursts
        && j == WriteEndTime(ShotComplete(h), now) && s == GetStats(j)
        && rq' == rq[1..] && ioq' == ioq && now' == now
      case Blocked =>
        && h.cBurstPC == ThisBurst(h) && h.cBurst < h.nBursts
        && rq' == rq[1..] && now' == now
        && ioq' == ioq + [SetState(SetIOCompTime(BurstComplete(h), IOCompletion(ioq, now)), IOBlocked)]
      case Preempted =>
        && policy == RR && h.cBurstPC != ThisBurst(h) && h.quantumTime == quantum
        && rq' == rq[1..] + [ShotComplete(ResetQuantum(SetState(h, Ready)))] && ioq' == ioq && now' == now
      case Serviced =>
        && h.cBurstPC != ThisBurst(h) && (policy == RR ==> h.quantumTime != quantum)
        && Ticked(rq[0 := IncCurrentBurstPC(SetState(h, Running))], ioq, now, rq', ioq') && now' == now + 1
  }

  /** The decision table leaves no choice: from one state, one action and
      one successor state. */
  lemma DispatchedIsFunctional(policy: Policy, quantum: int, rq: seq<PCB>, ioq: seq<PCB>, now: int,
                               act1: Action, rq1: seq<PCB>, ioq1: seq<PCB>, now1: int,
                               act2: Action, rq2: seq<PCB>, ioq2: seq<PCB>, now2: int)
    requires Dispatched(policy, quantum, rq, ioq, now, act1, rq1, ioq1, now1)
    requires Dispatched(policy, quantum, rq, ioq, now, act2, rq2, ioq2, now2)
    ensures act1 == act2 && rq1 == rq2 && ioq1 == ioq2 && now1 == now2
  {
  }

  /** Selection before dispatch: SJF, when the ready head is between bursts,
      puts the ready queue in ascending order of current burst (ties in no
      promised order); every other case leaves the queue as it is. */
  predicate Selected(policy: Policy, rq: seq<PCB>, rq': seq<PCB>)
  {
    if policy == SJF && rq != [] && rq[0].state == Ready
    then multiset(rq') == multiset(rq) && AllWellFormed(rq') && SortedByBurst(rq')
    else rq' == rq
  }

  /** The statistics merged for the job described by `d` under `policy`. */
  predicate SampleOf(s: Stats, d: Descriptor, policy: Policy)
  {
    && s.pTime == ProcessingDue(d)
    && s.pTime + s.wTime == s.taTime
    && (if policy == RR then s.shots >= BurstCount(d) else s.shots == BurstCount(d))
  }

  /** `while (insertToReady(&JobQ));` — admit until memory is full or the
      feed runs dry. The admitted descriptors are a prefix of the feed; they
      leave the feed and join the jobs in memory. */
  method AdmitAll(cpu: CPU, jobQ: seq<Descriptor>, ghost policy: Policy) returns (rest: seq<Descriptor>)
    requires Disciplined(cpu, policy)
    requires forall d :: d in jobQ ==> Runnable(d)
    modifies cpu`readyQ, cpu`jobsInMemory
    ensures Disciplined(cpu, policy)
    ensures cpu.jobsInMemory == MAX_JOBS || rest == []
    ensures |rest| <= |jobQ| && rest == jobQ[|jobQ| - |rest|..]
    ensures cpu.readyQ == old(cpu.readyQ) + AdmitSeq(jobQ[..|jobQ| - |rest|])
    ensures cpu.jobsInMemory == old(cpu.jobsInMemory) + (|jobQ| - |rest|)
    ensures Bag(cpu.readyQ, cpu.ioQ) + multiset(rest) == Bag(old(cpu.readyQ), old(cpu.ioQ)) + multiset(jobQ)
    ensures Work(cpu.readyQ, cpu.ioQ) == Work(old(cpu.readyQ), old(cpu.ioQ))
  {
    ghost var k;
    rest, k := AdmitLoop(cpu, jobQ, policy);
    assert |jobQ| - |rest| == k;
    AdmittedMoves(old(cpu.readyQ), cpu.ioQ, jobQ, k);
  }

  /** The loop of `AdmitAll`: after it, the first `k` descriptors of the
      feed are admitted in order, and memory is full or the feed is empty. */
  method AdmitLoop(cpu: CPU, jobQ: seq<Descriptor>, ghost policy: Policy) returns (rest: seq<Descriptor>, ghost k: nat)
    requires Disciplined(cpu, policy)
    requires forall d :: d in jobQ ==> Runnable(d)
    modifies cpu`readyQ, cpu`jobsInMemory
    ensures Disciplined(cpu, policy)
    ensures k <= |jobQ| && rest == jobQ[k..]
    ensures cpu.readyQ == old(cpu.readyQ) + AdmitSeq(jobQ[..k])
    ensures cpu.jobsInMemory == MAX_JOBS || rest == []
  {
    var ok := true;
    k := 0;
    rest := jobQ;
    ghost var rq0 := cpu.readyQ;
    while ok
      invariant Disciplined(cpu, policy)
      invariant 0 <= k <= |jobQ| && rest == jobQ[k..]
      invariant cpu.readyQ == rq0 + AdmitSeq(jobQ[..k])
      invariant !ok ==> cpu.jobsInMemory == MAX_JOBS || rest == []
      decreases |jobQ| - k + (if ok then 1 else 0)
    {
      ghost var before := cpu.readyQ;
      ok, rest := AdmitOne(cpu, rest, policy);
      if ok {
        AdmitNext(rq0, before, cpu.readyQ, jobQ, k);
        k := k + 1;
      }
    }
  }

  /** Admitting the first `k` descriptors of the feed moves exactly them
      from the feed into memory, with no cycles received. */
  lemma {:induction false} AdmittedMoves(rq: seq<PCB>, ioq: seq<PCB>, jobQ: seq<Descriptor>, k: nat)
    requires k <= |jobQ|
    ensures Bag(rq + AdmitSeq(jobQ[..k]), ioq) + multiset(jobQ[k..]) == Bag(rq, ioq) + multiset(jobQ)
    ensures Work(rq + AdmitSeq(jobQ[..k]), ioq) == Work(rq, ioq)
  {
    if k == 0 {
      assert rq + AdmitSeq(jobQ[..0]) == rq && jobQ[0..] == jobQ;
    } else {
      AdmittedMoves(rq, ioq, jobQ, k - 1);
      var before := rq + AdmitSeq(jobQ[..k - 1]);
      AdmitNext(rq, before, before + [Admit(jobQ[k - 1])], jobQ, k - 1);
      PushBag(before, ioq, Admit(jobQ[k - 1]));
      assert Origin(Admit(jobQ[k - 1])) == jobQ[k - 1];
      assert jobQ[k - 1..] == [jobQ[k - 1]] + jobQ[k..];
    }
  }

  /** Admitting the feed's `k`-th descriptor extends the admitted run by
      its job. */
  lemma AdmitNext(rq0: seq<PCB>, before: seq<PCB>, after: seq<PCB>, ds: seq<Descriptor>, k: nat)
    requires k < |ds| && before == rq0 + AdmitSeq(ds[..k]) && after == before + [Admit(ds[k..][0])]
    ensures after == rq0 + AdmitSeq(ds[..k + 1])
  {
    assert ds[..k + 1] == ds[..k] + [ds[k]];
    assert AdmitSeq(ds[..k + 1]) == AdmitSeq(ds[..k]) + [Admit(ds[k])];
  }

  /** Moving the head of a run into a bag keeps the union of the two. */
  lemma MoveHead<T>(bag: multiset<T>, bag': multiset<T>, run: seq<T>)
    requires run != [] && bag' == bag + multiset{run[0]}
    ensures bag' + multiset(run[1..]) == bag + multiset(run)
  {
    assert run == [run[0]] + run[1..];
  }

  /** One `insertToReady` call: when memory has room and the feed is not
      empty, the feed's head is admitted at the tail of the ready queue. */
  method AdmitOne(cpu: CPU, jobQ: seq<Descriptor>, ghost policy: Policy) returns (ok: bool, rest: seq<Descriptor>)
    requires Disciplined(cpu, policy)
    requires forall d :: d in jobQ ==> Runnable(d)
    modifies cpu`readyQ, cpu`jobsInMemory
    ensures Disciplined(cpu, policy)
    ensures ok == (old(cpu.jobsInMemory) != MAX_JOBS && jobQ != [])
    ensures ok ==> rest == jobQ[1..] && cpu.readyQ == old(cpu.readyQ) + [Admit(jobQ[0])]
    ensures Bag(cpu.readyQ, cpu.ioQ) + multiset(rest) == Bag(old(cpu.readyQ), old(cpu.ioQ)) + multiset(jobQ)
    ensures Work(cpu.readyQ, cpu.ioQ) == Work(old(cpu.readyQ), old(cpu.ioQ))
    ensures !ok ==> rest == jobQ && cpu.readyQ == old(cpu.readyQ) && cpu.jobsInMemory == old(cpu.jobsInMemory)
  {
    ghost var rq := cpu.readyQ;
    ok, rest := cpu.InsertToReady(jobQ);
    if ok {
      AdmitMoves(rq, cpu.ioQ, cpu.quantum, policy, jobQ);
    }
  }

  /** What one admission needs: the feed's head, admitted at the ready tail,
      keeps the discipline, moves from the feed into memory, and has received
      no cycles. */
  lemma AdmitMoves(rq: seq<PCB>, ioq: seq<PCB>, quantum: int, policy: Policy, jobQ: seq<Descriptor>)
    requires QueuesDisciplined(rq, ioq, quantum, policy)
    requires jobQ != [] && Runnable(jobQ[0])
    ensures QueuesDisciplined(rq + [Admit(jobQ[0])], ioq, quantum, policy)
    ensures Bag(rq + [Admit(jobQ[0])], ioq) + multiset(jobQ[1..]) == Bag(rq, ioq) + multiset(jobQ)
    ensures Work(rq + [Admit(jobQ[0])], ioq) == Work(rq, ioq)
  {
    AdmitOneKeeps(rq, ioq, quantum, policy, jobQ[0]);
    PushBag(rq, ioq, Admit(jobQ[0]));
    assert Origin(Admit(jobQ[0])) == jobQ[0];
    MoveHead(Bag(rq, ioq), Bag(rq + [Admit(jobQ[0])], ioq), jobQ);
  }

  /** Admitting one descriptor keeps the discipline and moves exactly that
      descriptor into memory. */
  lemma AdmitOneKeeps(rq: seq<PCB>, ioq: seq<PCB>, quantum: int, policy: Policy, d: Descriptor)
    requires QueuesDisciplined(rq, ioq, quantum, policy)
    requires Runnable(d)
    ensures QueuesDisciplined(rq + [Admit(d)], ioq, quantum, policy)
  {
    var r := rq + [Admit(d)];
    NewPCBAccounted(d.id, d.arrival, d.bursts);
    assert JobInvariant(Admit(d), policy);
    assert forall i :: 0 <= i < |rq| ==> r[i] == rq[i];
  }

  /** A job joining the ready tail adds its descriptor to memory and its
      cycles to the cycles received. */
  lemma PushBag(rq: seq<PCB>, ioq: seq<PCB>, x: PCB)
    ensures Bag(rq + [x], ioq) == Bag(rq, ioq) + multiset{Origin(x)}
    ensures Work(rq + [x], ioq) == Work(rq, ioq) + x.pc
  {
    SumOfSnoc(rq, x, PcOf);
    OriginBagPush(rq, x);
  }

  /** A job's invariant does not depend on its scheduling state. */
  lemma JobInvariantSetState(j: PCB, st: State, policy: Policy)
    ensures JobInvariant(SetState(j, st), policy) == JobInvariant(j, policy)
  {
  }

  /** A tick that releases the I/O head keeps the discipline and the jobs. */
  lemma ReleaseDisciplined(rq: seq<PCB>, ioq: seq<PCB>, quantum: int, policy: Policy)
    requires QueuesDisciplined(rq, ioq, quantum, policy) && ioq != []
    ensures QueuesDisciplined(rq + [SetState(ioq[0], Ready)], ioq[1..], quantum, policy)
  {
    var x := SetState(ioq[0], Ready);
    var r := rq + [x];
    JobInvariantSetState(ioq[0], Ready, policy);
    assert JobInvariant(x, policy) && x.quantumTime == 0;
    assert forall i :: 0 <= i < |rq| ==> r[i] == rq[i];
    assert r[|rq|] == x;
    assert forall i :: 0 <= i < |ioq| - 1 ==> ioq[1..][i] == ioq[i + 1];
  }

  lemma ReleaseKeepsBag(rq: seq<PCB>, ioq: seq<PCB>)
    requires ioq != []
    ensures Bag(rq + [SetState(ioq[0], Ready)], ioq[1..]) == Bag(rq, ioq)
    ensures Work(rq + [SetState(ioq[0], Ready)], ioq[1..]) == Work(rq, ioq)
  {
    SumOfSnoc(rq, SetState(ioq[0], Ready), PcOf);
    SumOfCons(ioq, PcOf);
    OriginBagPush(rq, SetState(ioq[0], Ready));
    OriginBagPop(ioq);
  }

  /** The dispatch half of one iteration, after admission and selection:
      tick the idle clock when no job is ready, otherwise apply the decision
      table to the ready head. */
  method Dispatch(policy: Policy, cpu: CPU, acc: Accumulator) returns (act: Action)
    requires Disciplined(cpu, policy) && acc.Valid()
    modifies cpu`readyQ, cpu`ioQ, cpu`cpuTime, cpu`jobsInMemory, cpu`jobsComplete, cpu`totalWait, acc
    ensures Disciplined(cpu, policy) && acc.Valid()
    ensures Dispatched(policy, cpu.quantum, old(cpu.readyQ), old(cpu.ioQ), old(cpu.cpuTime), act, cpu.readyQ, cpu.ioQ, cpu.cpuTime)
    ensures Bag(cpu.readyQ, cpu.ioQ) + multiset(Done(act)) == Bag(old(cpu.readyQ), old(cpu.ioQ))
    ensures Work(cpu.readyQ, cpu.ioQ) + (if act.Completed? then CpuDemand(Origin(act.job)) else 0)
            == Work(old(cpu.readyQ), old(cpu.ioQ)) + (if act.Serviced? then 1 else 0)
    ensures acc.merged == old(acc.merged) + (if act.Completed? then [act.s] else [])
    ensures cpu.jobsComplete == old(cpu.jobsComplete) + (if act.Completed? then 1 else 0)
    ensures act.Completed? ==> CompletedProperly(act, policy, cpu.cpuTime)
  {
    if cpu.ReadyJobs() == 0 {
      act := IdleTick(policy, cpu);
      assert acc.merged + [] == acc.merged;
    } else {
      act := RunHead(policy, cpu, acc);
    }
  }

  /** Nothing is ready: the clock ticks idle. */
  method IdleTick(policy: Policy, cpu: CPU) returns (act: Action)
    requires Disciplined(cpu, policy) && cpu.readyQ == []
    modifies cpu`readyQ, cpu`ioQ, cpu`cpuTime
    ensures Disciplined(cpu, policy) && act.Idle?
    ensures Dispatched(policy, cpu.quantum, old(cpu.readyQ), old(cpu.ioQ), old(cpu.cpuTime), act, cpu.readyQ, cpu.ioQ, cpu.cpuTime)
    ensures Bag(cpu.readyQ, cpu.ioQ) == Bag(old(cpu.readyQ), old(cpu.ioQ))
    ensures Work(cpu.readyQ, cpu.ioQ) == Work(old(cpu.readyQ), old(cpu.ioQ))
  {
    Tick(cpu, policy);
    act := Idle;
  }

  /** The decision table applied to the ready head: complete it or block it
      when its burst is exhausted, preempt it when its quantum is used up
      (Round-Robin), and otherwise run it for one cycle and tick the clock. */
  method RunHead(policy: Policy, cpu: CPU, acc: Accumulator) returns (act: Action)
    requires Disciplined(cpu, policy) && acc.Valid() && cpu.readyQ != []
    modifies cpu`readyQ, cpu`ioQ, cpu`cpuTime, cpu`jobsInMemory, cpu`jobsComplete, cpu`totalWait, acc
    ensures Disciplined(cpu, policy) && acc.Valid()
    ensures Dispatched(policy, cpu.quantum, old(cpu.readyQ), old(cpu.ioQ), old(cpu.cpuTime), act, cpu.readyQ, cpu.ioQ, cpu.cpuTime)
    ensures Bag(cpu.readyQ, cpu.ioQ) + multiset(Done(act)) == Bag(old(cpu.readyQ), old(cpu.ioQ))
    ensures Work(cpu.readyQ, cpu.ioQ) + (if act.Completed? then CpuDemand(Origin(act.job)) else 0)
            == Work(old(cpu.readyQ), old(cpu.ioQ)) + (if act.Serviced? then 1 else 0)
    ensures acc.merged == old(acc.merged) + (if act.Completed? then [act.s] else [])
    ensures cpu.jobsComplete == old(cpu.jobsComplete) + (if act.Completed? then 1 else 0)
    ensures act.Completed? ==> CompletedProperly(act, policy, cpu.cpuTime)
  {
    var currentJob := cpu.GetCurrentJob();
    assert JobInvariant(currentJob, policy);
    if currentJob.cBurst == 0 {
      // cBurst starts at 1 and only grows: the source's first-burst branch is dead.
      assert false;
    } else if currentJob.cBurstPC == ThisBurst(currentJob) {
      act := EndBurst(policy, cpu, acc);
    } else {
      act := InBurst(policy, cpu);
      assert acc.merged + [] == acc.merged;
    }
  }

  /** The head's burst is exhausted: it completes after its last burst and
      blocks for I/O after any other. */
  method EndBurst(policy: Policy, cpu: CPU, acc: Accumulator) returns (act: Action)
    requires Disciplined(cpu, policy) && acc.Valid()
    requires cpu.readyQ != [] && cpu.readyQ[0].cBurstPC == ThisBurst(cpu.readyQ[0])
    modifies cpu`readyQ, cpu`ioQ, cpu`cpuTime, cpu`jobsInMemory, cpu`jobsComplete, cpu`totalWait, acc
    ensures Disciplined(cpu, policy) && acc.Valid()
    ensures Dispatched(policy, cpu.quantum, old(cpu.readyQ), old(cpu.ioQ), old(cpu.cpuTime), act, cpu.readyQ, cpu.ioQ, cpu.cpuTime)
    ensures Bag(cpu.readyQ, cpu.ioQ) + multiset(Done(act)) == Bag(old(cpu.readyQ), old(cpu.ioQ))
    ensures Work(cpu.readyQ, cpu.ioQ) + (if act.Completed? then CpuDemand(Origin(act.job)) else 0)
            == Work(old(cpu.readyQ), old(cpu.ioQ)) + (if act.Serviced? then 1 else 0)
    ensures acc.merged == old(acc.merged) + (if act.Completed? then [act.s] else [])
    ensures cpu.jobsComplete == old(cpu.jobsComplete) + (if act.Completed? then 1 else 0)
    ensures act.Completed? ==> CompletedProperly(act, policy, cpu.cpuTime)
  {
    if cpu.GetCurrentJob().cBurst == cpu.GetCurrentJob().nBursts {
      act := Retire(cpu, acc, policy);
    } else {
      Block(cpu, policy);
      act := Blocked;
    }
  }

  /** The head is inside its burst: Round-Robin preempts it when its quantum
      is used up; otherwise it runs for one cycle. */
  method InBurst(policy: Policy, cpu: CPU) returns (act: Action)
    requires Disciplined(cpu, policy)
    requires cpu.readyQ != [] && cpu.readyQ[0].cBurstPC != ThisBurst(cpu.readyQ[0])
    modifies cpu`readyQ, cpu`ioQ, cpu`cpuTime
    ensures Disciplined(cpu, policy) && (act.Preempted? || act.Serviced?)
    ensures Dispatched(policy, cpu.quantum, old(cpu.readyQ), old(cpu.ioQ), old(cpu.cpuTime), act, cpu.readyQ, cpu.ioQ, cpu.cpuTime)
    ensures Bag(cpu.readyQ, cpu.ioQ) == Bag(old(cpu.readyQ), old(cpu.ioQ))
    ensures Work(cpu.readyQ, cpu.ioQ) == Work(old(cpu.readyQ), old(cpu.ioQ)) + (if act.Serviced? then 1 else 0)
  {
    if policy == RR && cpu.GetCurrentJob().quantumTime == cpu.GetQuantum() {
      Preempt(cpu, policy);
      act := Preempted;
    } else {
      Service(cpu, policy);
      act := Serviced;
    }
  }

  /** Selection: SJF, when the ready head is between bursts (not running),
      sorts the ready queue so that a job with the shortest current burst is
      at the head; otherwise the queue is left as it is. */
  method Select(policy: Policy, cpu: CPU)
    requires Disciplined(cpu, policy)
    modifies cpu`readyQ
    ensures Disciplined(cpu, policy)
    ensures multiset(cpu.readyQ) == multiset(old(cpu.readyQ))
    ensures Bag(cpu.readyQ, cpu.ioQ) == Bag(old(cpu.readyQ), cpu.ioQ)
    ensures Work(cpu.readyQ, cpu.ioQ) == Work(old(cpu.readyQ), cpu.ioQ)
    ensures Selected(policy, old(cpu.readyQ), cpu.readyQ)
    ensures policy == SJF && old(cpu.readyQ) != [] && old(cpu.readyQ)[0].state == Ready ==>
              cpu.readyQ != [] &&
              forall j :: j in old(cpu.readyQ) ==> WellFormed(j) && !IsBurstGreaterThan(j, cpu.readyQ[0])
  {
    if policy != SJF || cpu.ReadyJobs() == 0 || cpu.GetCurrentJob().state != Ready {
      return;
    }
    ghost var before := cpu.readyQ;
    var _ := cpu.SortReadyQ();
    SortKeeps(before, cpu.readyQ, cpu.ioQ, cpu.quantum, policy);
  }

  /** What selection needs of the sorted queue: it keeps the discipline, the
      jobs in memory and the cycles they received, and its head is a
      shortest job. */
  lemma SortKeeps(before: seq<PCB>, after: seq<PCB>, ioq: seq<PCB>, quantum: int, policy: Policy)
    requires QueuesDisciplined(before, ioq, quantum, policy)
    requires before != [] && before[0].state == Ready
    requires multiset(after) == multiset(before) && AllWellFormed(after) && SortedByBurst(after)
    ensures QueuesDisciplined(after, ioq, quantum, policy)
    ensures Bag(after, ioq) == Bag(before, ioq) && Work(after, ioq) == Work(before, ioq)
    ensures after != [] && forall j :: j in before ==> WellFormed(j) && !IsBurstGreaterThan(j, after[0])
  {
    assert |after| == |multiset(after)| == |multiset(before)| == |before|;
    SortKeepsDiscipline(before, after, ioq, quantum, policy);
    OriginBagPermutation(before, after);
    SumOfPermutation(before, after, PcOf);
    SortedHeadShortest(before, after);
  }

  /** The ready head has exhausted its last burst: it completes now, and its
      statistics are merged into the totals. */
  method Retire(cpu: CPU, acc: Accumulator, ghost policy: Policy) returns (act: Action)
    requires Disciplined(cpu, policy) && acc.Valid()
    requires cpu.readyQ != [] && cpu.readyQ[0].cBurstPC == ThisBurst(cpu.readyQ[0])
    requires cpu.readyQ[0].cBurst == cpu.readyQ[0].nBursts
    modifies cpu`readyQ, cpu`jobsInMemory, cpu`jobsComplete, acc
    ensures Disciplined(cpu, policy) && acc.Valid()
    ensures act.Completed?
    ensures Bag(cpu.readyQ, cpu.ioQ) + multiset{Origin(act.job)} == Bag(old(cpu.readyQ), old(cpu.ioQ))
    ensures Work(cpu.readyQ, cpu.ioQ) + CpuDemand(Origin(act.job)) == Work(old(cpu.readyQ), old(cpu.ioQ))
    ensures acc.merged == old(acc.merged) + [act.s]
    ensures cpu.jobsComplete == old(cpu.jobsComplete) + 1
    ensures CompletedProperly(act, policy, cpu.cpuTime)
    ensures Dispatched(policy, cpu.quantum, old(cpu.readyQ), old(cpu.ioQ), old(cpu.cpuTime), act, cpu.readyQ, cpu.ioQ, cpu.cpuTime)
  {
    ghost var rq := cpu.readyQ;
    var currentJob := cpu.GetCurrentJob();
    RetireMoves(rq, cpu.ioQ, cpu.quantum, policy);
    var s := cpu.CompleteJob();
    acc.AddStats(s);
    act := Completed(WriteEndTime(ShotComplete(currentJob), cpu.cpuTime), s);
    assert Origin(act.job) == Origin(currentJob);
  }

  /** The ready head has exhausted a burst that is not its last: it leaves
      the ready queue for the tail of the I/O queue. */
  method Block(cpu: CPU, ghost policy: Policy)
    requires Disciplined(cpu, policy)
    requires cpu.readyQ != [] && cpu.readyQ[0].cBurstPC == ThisBurst(cpu.readyQ[0])
    requires cpu.readyQ[0].cBurst < cpu.readyQ[0].nBursts
    modifies cpu`readyQ, cpu`ioQ, cpu`totalWait
    ensures Disciplined(cpu, policy)
    ensures cpu.jobsComplete == old(cpu.jobsComplete)
    ensures Bag(cpu.readyQ, cpu.ioQ) == Bag(old(cpu.readyQ), old(cpu.ioQ))
    ensures Work(cpu.readyQ, cpu.ioQ) == Work(old(cpu.readyQ), old(cpu.ioQ))
    ensures Dispatched(policy, cpu.quantum, old(cpu.readyQ), old(cpu.ioQ), old(cpu.cpuTime), Blocked, cpu.readyQ, cpu.ioQ, cpu.cpuTime)
  {
    ghost var rq := cpu.readyQ;
    ghost var ioq := cpu.ioQ;
    var currentJob := cpu.GetCurrentJob();
    cpu.InsertToIOBlock(currentJob);
    BlockMoves(rq, ioq, cpu.quantum, policy, cpu.ioQ[|cpu.ioQ| - 1].ioCompTime);
  }

  /** What blocking needs: the head, with its burst completed and blocked
      until `t`, moves to the I/O tail, keeping the discipline, the jobs in
      memory and the cycles they received. */
  lemma BlockMoves(rq: seq<PCB>, ioq: seq<PCB>, quantum: int, policy: Policy, t: int)
    requires QueuesDisciplined(rq, ioq, quantum, policy) && rq != []
    requires rq[0].cBurst < rq[0].nBursts && rq[0].cBurstPC == ThisBurst(rq[0])
    ensures QueuesDisciplined(rq[1..], ioq + [SetState(SetIOCompTime(BurstComplete(rq[0]), t), IOBlocked)], quantum, policy)
    ensures Bag(rq[1..], ioq + [SetState(SetIOCompTime(BurstComplete(rq[0]), t), IOBlocked)]) == Bag(rq, ioq)
    ensures Work(rq[1..], ioq + [SetState(SetIOCompTime(BurstComplete(rq[0]), t), IOBlocked)]) == Work(rq, ioq)
  {
    var blocked := SetState(SetIOCompTime(BurstComplete(rq[0]), t), IOBlocked);
    assert JobInvariant(rq[0], policy);
    PopKeeps(rq, ioq, quantum, policy);
    MoveBag(rq, ioq, blocked);
    BlockedJobInvariant(rq[0], t, policy);
    BlockKeeps(rq[1..], ioq, quantum, policy, blocked);
  }

  /** Round-Robin: the ready head has used up its quantum inside a burst; it
      goes to the tail of the ready queue with a fresh quantum. */
  method Preempt(cpu: CPU, ghost policy: Policy)
    requires Disciplined(cpu, policy) && policy == RR
    requires cpu.readyQ != [] && cpu.readyQ[0].cBurstPC != ThisBurst(cpu.readyQ[0])
    requires cpu.readyQ[0].quantumTime == cpu.quantum
    modifies cpu`readyQ
    ensures Disciplined(cpu, policy)
    ensures Bag(cpu.readyQ, cpu.ioQ) == Bag(old(cpu.readyQ), cpu.ioQ)
    ensures Work(cpu.readyQ, cpu.ioQ) == Work(old(cpu.readyQ), cpu.ioQ)
    ensures Dispatched(policy, cpu.quantum, old(cpu.readyQ), old(cpu.ioQ), old(cpu.cpuTime), Preempted, cpu.readyQ, cpu.ioQ, cpu.cpuTime)
  {
    ghost var rq := cpu.readyQ;
    cpu.PreemptJob();
    PreemptKeeps(rq, cpu.ioQ, cpu.quantum, policy);
    RotateBag(rq, cpu.ioQ, cpu.readyQ[|cpu.readyQ| - 1]);
  }

  /** The ready head is inside a burst (and, under Round-Robin, inside its
      quantum): it runs for one cycle, and the clock ticks. */
  method Service(cpu: CPU, ghost policy: Policy)
    requires Disciplined(cpu, policy)
    requires cpu.readyQ != [] && cpu.readyQ[0].cBurstPC != ThisBurst(cpu.readyQ[0])
    requires policy == RR ==> cpu.readyQ[0].quantumTime != cpu.quantum
    modifies cpu`readyQ, cpu`cpuTime, cpu`ioQ
    ensures Disciplined(cpu, policy)
    ensures Bag(cpu.readyQ, cpu.ioQ) == Bag(old(cpu.readyQ), old(cpu.ioQ))
    ensures Work(cpu.readyQ, cpu.ioQ) == Work(old(cpu.readyQ), old(cpu.ioQ)) + 1
    ensures Dispatched(policy, cpu.quantum, old(cpu.readyQ), old(cpu.ioQ), old(cpu.cpuTime), Serviced, cpu.readyQ, cpu.ioQ, cpu.cpuTime)
  {
    ghost var rq := cpu.readyQ;
    cpu.ServiceJob();
    ServiceKeeps(rq, cpu.ioQ, cpu.quantum, policy);
    ReplaceHeadBag(rq, cpu.ioQ, cpu.readyQ[0]);
    Tick(cpu, policy);
  }

  /** What completion needs: the ready head, whose last burst is exhausted,
      has received all its bursts; the rest keeps the discipline; and it takes
      exactly its descriptor and its cycles out of memory. */
  lemma RetireMoves(rq: seq<PCB>, ioq: seq<PCB>, quantum: int, policy: Policy)
    requires QueuesDisciplined(rq, ioq, quantum, policy) && rq != []
    requires rq[0].cBurst == rq[0].nBursts && rq[0].cBurstPC == ThisBurst(rq[0])
    ensures rq[0].pc == Sum(rq[0].burstList) && ShotsAccounted(rq[0], policy)
    ensures QueuesDisciplined(rq[1..], ioq, quantum, policy)
    ensures Bag(rq[1..], ioq) + multiset{Origin(rq[0])} == Bag(rq, ioq)
    ensures Work(rq[1..], ioq) + CpuDemand(Origin(rq[0])) == Work(rq, ioq)
  {
    assert JobInvariant(rq[0], policy);
    FinishedJobUsedAllBursts(rq[0]);
    PopKeeps(rq, ioq, quantum, policy);
    PopBag(rq, ioq);
  }

  /** Retiring the ready head takes exactly its descriptor out of memory. */
  lemma PopBag(rq: seq<PCB>, ioq: seq<PCB>)
    requires rq != []
    ensures Bag(rq[1..], ioq) + multiset{Origin(rq[0])} == Bag(rq, ioq)
    ensures Work(rq[1..], ioq) + rq[0].pc == Work(rq, ioq)
  {
    SumOfCons(rq, PcOf);
    OriginBagPop(rq);
  }

  /** Moving the ready head, under any new state, to the I/O queue keeps the
      jobs in memory. */
  lemma MoveBag(rq: seq<PCB>, ioq: seq<PCB>, x: PCB)
    requires rq != [] && Origin(x) == Origin(rq[0]) && x.pc == rq[0].pc
    ensures Bag(rq[1..], ioq + [x]) == Bag(rq, ioq)
    ensures Work(rq[1..], ioq + [x]) == Work(rq, ioq)
  {
    SumOfCons(rq, PcOf);
    SumOfSnoc(ioq, x, PcOf);
    OriginBagPop(rq);
    OriginBagPush(ioq, x);
  }

  /** Retiring the ready head keeps the discipline of the rest. */
  lemma PopKeeps(rq: seq<PCB>, ioq: seq<PCB>, quantum: int, policy: Policy)
    requires QueuesDisciplined(rq, ioq, quantum, policy) && rq != []
    ensures QueuesDisciplined(rq[1..], ioq, quantum, policy)
  {
    assert forall i :: 0 <= i < |rq| - 1 ==> rq[1..][i] == rq[i + 1];
  }

  /** Queueing a blocked job with an unused quantum for I/O keeps the
      discipline. */
  lemma BlockKeeps(rq: seq<PCB>, ioq: seq<PCB>, quantum: int, policy: Policy, x: PCB)
    requires QueuesDisciplined(rq, ioq, quantum, policy)
    requires JobInvariant(x, policy) && x.state == IOBlocked && x.quantumTime == 0
    ensures QueuesDisciplined(rq, ioq + [x], quantum, policy)
  {
  }

  /** Running the head for one cycle keeps the discipline and the jobs. */
  lemma ServiceKeeps(rq: seq<PCB>, ioq: seq<PCB>, quantum: int, policy: Policy)
    requires QueuesDisciplined(rq, ioq, quantum, policy) && rq != []
    requires rq[0].cBurstPC != ThisBurst(rq[0])
    requires policy == RR ==> rq[0].quantumTime != quantum
    ensures QueuesDisciplined(rq[0 := IncCurrentBurstPC(SetState(rq[0], Running))], ioq, quantum, policy)
  {
    assert JobInvariant(rq[0], policy);
    assert JobInvariant(IncCurrentBurstPC(SetState(rq[0], Running)), policy);
  }

  /** Replacing the ready head by a record of the same job keeps the jobs in
      memory and changes the cycles received by the difference. */
  lemma ReplaceHeadBag(rq: seq<PCB>, ioq: seq<PCB>, y: PCB)
    requires rq != [] && Origin(y) == Origin(rq[0])
    ensures Bag(rq[0 := y], ioq) == Bag(rq, ioq)
    ensures Work(rq[0 := y], ioq) == Work(rq, ioq) + y.pc - rq[0].pc
  {
    var rs := rq[0 := y];
    SumOfCons(rq, PcOf);
    SumOfCons(rs, PcOf);
    assert rs[1..] == rq[1..];
    assert OriginSeq(rs) == OriginSeq(rq);
  }

  /** Sending the head to the tail with its quantum reset keeps the
      discipline and the jobs. */
  lemma PreemptKeeps(rq: seq<PCB>, ioq: seq<PCB>, quantum: int, policy: Policy)
    requires QueuesDisciplined(rq, ioq, quantum, policy) && rq != [] && policy == RR
    ensures QueuesDisciplined(rq[1..] + [ShotComplete(ResetQuantum(SetState(rq[0], Ready)))], ioq, quantum, policy)
  {
    var x := ShotComplete(ResetQuantum(SetState(rq[0], Ready)));
    assert JobInvariant(rq[0], policy);
    assert JobInvariant(x, policy);
  }

  /** Rotating the ready head to the tail keeps the jobs in memory and the
      cycles they received. */
  lemma RotateBag(rq: seq<PCB>, ioq: seq<PCB>, x: PCB)
    requires rq != [] && Origin(x) == Origin(rq[0]) && x.pc == rq[0].pc
    ensures Bag(rq[1..] + [x], ioq) == Bag(rq, ioq)
    ensures Work(rq[1..] + [x], ioq) == Work(rq, ioq)
  {
    OriginBagPop(rq);
    OriginBagPush(rq[1..], x);
    SumOfCons(rq, PcOf);
    SumOfSnoc(rq[1..], x, PcOf);
  }

  /** One clock tick: the I/O head whose completion time has come joins the
      tail of the ready queue; no job enters or leaves memory. */
  method Tick(cpu: CPU, ghost policy: Policy)
    requires Disciplined(cpu, policy)
    modifies cpu`cpuTime, cpu`readyQ, cpu`ioQ
    ensures Disciplined(cpu, policy)
    ensures cpu.cpuTime == old(cpu.cpuTime) + 1
    ensures Ticked(old(cpu.readyQ), old(cpu.ioQ), old(cpu.cpuTime), cpu.readyQ, cpu.ioQ)
    ensures Bag(cpu.readyQ, cpu.ioQ) == Bag(old(cpu.readyQ), old(cpu.ioQ))
    ensures Work(cpu.readyQ, cpu.ioQ) == Work(old(cpu.readyQ), old(cpu.ioQ))
  {
    cpu.IncCPUTime();
    if old(cpu.ioQ) != [] && old(cpu.ioQ)[0].ioCompTime == old(cpu.cpuTime) {
      ReleaseDisciplined(old(cpu.readyQ), old(cpu.ioQ), cpu.quantum, policy);
      ReleaseKeepsBag(old(cpu.readyQ), old(cpu.ioQ));
    }
  }

  lemma BlockedJobInvariant(h: PCB, t: int, policy: Policy)
    requires JobInvariant(h, policy) && h.cBurst < h.nBursts && h.cBurstPC == ThisBurst(h)
    ensures JobInvariant(SetIOCompTime(BurstComplete(h), t), policy)
  {
    BurstCompleteKeepsAccounting(h);
  }

  /** SJF sorts only when every ready job is between bursts, so the sorted
      queue keeps the discipline. */
  lemma SortKeepsDiscipline(before: seq<PCB>, after: seq<PCB>, ioq: seq<PCB>, quantum: int, policy: Policy)
    requires QueuesDisciplined(before, ioq, quantum, policy)
    requires before != [] && before[0].state == Ready
    requires multiset(after) == multiset(before)
    ensures QueuesDisciplined(after, ioq, quantum, policy)
  {
    forall i | 0 <= i < |after|
      ensures JobInvariant(after[i], policy) && after[i].state == Ready && after[i].quantumTime == 0
    {
      assert after[i] in multiset(before);
      var k :| 0 <= k < |before| && before[k] == after[i];
    }
  }

  lemma SortedHeadShortest(before: seq<PCB>, after: seq<PCB>)
    requires AllWellFormed(before) && AllWellFormed(after) && after != []
    requires multiset(after) == multiset(before) && SortedByBurst(after)
    ensures forall j :: j in before ==> WellFormed(j) && !IsBurstGreaterThan(j, after[0])
  {
    forall j | j in before
      ensures WellFormed(j) && !IsBurstGreaterThan(j, after[0])
    {
      assert j in multiset(after);
      var k :| 0 <= k < |after| && after[k] == j;
    }
  }

  /** A completed job's statistics are a sample of its descriptor. */
  lemma CompletedSample(act: Action, policy: Policy, now: int)
    requires act.Completed? && CompletedProperly(act, policy, now)
    ensures SampleOf(act.s, Origin(act.job), policy)
  {
  }

  /** One iteration of a policy loop: admit, select (SJF), dispatch. Every
      descriptor that left the feed is in memory, or it is the job that
      completed, whose sample was merged into the totals. */
  method Step(policy: Policy, cpu: CPU, acc: Accumulator, jobQ: seq<Descriptor>)
    returns (act: Action, rest: seq<Descriptor>, ghost admitted: seq<PCB>, ghost selected: seq<PCB>)
    requires Disciplined(cpu, policy) && acc.Valid()
    requires forall d :: d in jobQ ==> Runnable(d)
    modifies cpu`readyQ, cpu`ioQ, cpu`cpuTime, cpu`jobsInMemory, cpu`jobsComplete, cpu`totalWait, acc
    ensures Disciplined(cpu, policy) && acc.Valid()
    ensures |rest| <= |jobQ| && rest == jobQ[|jobQ| - |rest|..]
    ensures admitted == old(cpu.readyQ) + AdmitSeq(jobQ[..|jobQ| - |rest|])
    ensures old(cpu.jobsInMemory) + (|jobQ| - |rest|) == MAX_JOBS || rest == []
    ensures Selected(policy, admitted, selected)
    ensures Dispatched(policy, cpu.quantum, selected, old(cpu.ioQ), old(cpu.cpuTime), act, cpu.readyQ, cpu.ioQ, cpu.cpuTime)
    ensures Bag(cpu.readyQ, cpu.ioQ) + multiset(rest) + multiset(Done(act)) == Bag(old(cpu.readyQ), old(cpu.ioQ)) + multiset(jobQ)
    ensures acc.merged == old(acc.merged) + (if act.Completed? then [act.s] else [])
    ensures act.Completed? ==> SampleOf(act.s, Origin(act.job), policy)
    ensures Work(cpu.readyQ, cpu.ioQ) + (if act.Completed? then CpuDemand(Origin(act.job)) else 0)
            <= Work(old(cpu.readyQ), old(cpu.ioQ)) + (cpu.cpuTime - old(cpu.cpuTime))
  {
    ghost var inMemory := Bag(cpu.readyQ, cpu.ioQ);
    rest, admitted := Prepare(policy, cpu, jobQ);
    selected := cpu.readyQ;
    ghost var inMemory' := Bag(cpu.readyQ, cpu.ioQ);
    assert cpu.ioQ == old(cpu.ioQ) && cpu.cpuTime == old(cpu.cpuTime);
    act := Dispatch(policy, cpu, acc);
    ghost var left := multiset(Done(act));
    Rejoin(inMemory, inMemory', Bag(cpu.readyQ, cpu.ioQ), multiset(rest), multiset(jobQ), left);
    if act.Completed? {
      CompletedSample(act, policy, cpu.cpuTime);
    }
  }

  /** The half of an iteration before dispatch: admission, then selection.
      `admitted` is the ready queue between the two. */
  method Prepare(policy: Policy, cpu: CPU, jobQ: seq<Descriptor>) returns (rest: seq<Descriptor>, ghost admitted: seq<PCB>)
    requires Disciplined(cpu, policy)
    requires forall d :: d in jobQ ==> Runnable(d)
    modifies cpu`readyQ, cpu`jobsInMemory
    ensures Disciplined(cpu, policy)
    ensures |rest| <= |jobQ| && rest == jobQ[|jobQ| - |rest|..]
    ensures admitted == old(cpu.readyQ) + AdmitSeq(jobQ[..|jobQ| - |rest|])
    ensures old(cpu.jobsInMemory) + (|jobQ| - |rest|) == MAX_JOBS || rest == []
    ensures Selected(policy, admitted, cpu.readyQ)
    ensures Bag(cpu.readyQ, cpu.ioQ) + multiset(rest) == Bag(old(cpu.readyQ), cpu.ioQ) + multiset(jobQ)
    ensures Work(cpu.readyQ, cpu.ioQ) == Work(old(cpu.readyQ), cpu.ioQ)
  {
    rest := AdmitAll(cpu, jobQ, policy);
    admitted := cpu.readyQ;
    Select(policy, cpu);
  }

  /** Admission moved the feed's prefix into memory and dispatch took `left`
      out of it: together nothing was lost. */
  lemma Rejoin<T>(inMemory: multiset<T>, selected: multiset<T>, inMemory': multiset<T>,
                  rest: multiset<T>, jobQ: multiset<T>, left: multiset<T>)
    requires selected + rest == inMemory + jobQ
    requires inMemory' + left == selected
    ensures inMemory' + rest + left == inMemory + jobQ
  {
    forall x
      ensures (inMemory' + rest + left)[x] == (inMemory + jobQ)[x]
    {
      assert (selected + rest)[x] == (inMemory + jobQ)[x];
      assert (inMemory' + left)[x] == selected[x];
    }
  }

  /** `merged[i]` is the sample merged for the job `finished[i]`. */
  predicate SamplesOf(merged: seq<Stats>, finished: seq<Descriptor>, policy: Policy)
  {
    |merged| == |finished| && forall i :: 0 <= i < |finished| ==> SampleOf(merged[i], finished[i], policy)
  }

  lemma SamplesOfAppend(merged: seq<Stats>, finished: seq<Descriptor>, ss: seq<Stats>, ds: seq<Descriptor>, policy: Policy)
    requires SamplesOf(merged, finished, policy) && SamplesOf(ss, ds, policy)
    ensures SamplesOf(merged + ss, finished + ds, policy)
  {
  }

  /** Bookkeeping of one iteration: what left the feed and memory is what
      finished. */
  lemma Conserve<T>(finished: multiset<T>, done: multiset<T>, inMemory: multiset<T>, inMemory': multiset<T>,
                    fed: multiset<T>, fed': multiset<T>, all: multiset<T>)
    requires finished + inMemory + fed == all
    requires inMemory' + fed' + done == inMemory + fed
    ensures (finished + done) + inMemory' + fed' == all
  {
    forall x
      ensures ((finished + done) + inMemory' + fed')[x] == all[x]
    {
      assert (inMemory' + fed' + done)[x] == (inMemory + fed)[x];
      assert (finished + inMemory + fed)[x] == all[x];
    }
  }

  /** The invariant of a policy loop over the feed `jobs`: the queues are
      disciplined, `jobQ` is what is left of the feed, and every descriptor
      of the feed is in `jobQ`, in memory, or in `finished`, whose samples
      are the merged ones. */
  ghost predicate Progress(policy: Policy, cpu: CPU, acc: Accumulator, jobs: seq<Descriptor>,
                           jobQ: seq<Descriptor>, finished: seq<Descriptor>)
    reads cpu, acc
  {
    && Disciplined(cpu, policy) && acc.Valid()
    && |jobQ| <= |jobs| && jobQ == jobs[|jobs| - |jobQ|..]
    && multiset(finished) + Bag(cpu.readyQ, cpu.ioQ) + multiset(jobQ) == multiset(jobs)
    && SamplesOf(acc.merged, finished, policy)
    && cpu.cpuTime >= SumOf(finished, CpuDemand) + Work(cpu.readyQ, cpu.ioQ)
  }

  /** One iteration keeps the loop invariant; `done` is the job it
      completed, if any. */
  method Iterate(policy: Policy, cpu: CPU, acc: Accumulator, jobQ: seq<Descriptor>,
                 ghost jobs: seq<Descriptor>, ghost finished: seq<Descriptor>)
    returns (rest: seq<Descriptor>, ghost done: seq<Descriptor>)
    requires Progress(policy, cpu, acc, jobs, jobQ, finished)
    requires forall d :: d in jobs ==> Runnable(d)
    modifies cpu`readyQ, cpu`ioQ, cpu`cpuTime, cpu`jobsInMemory, cpu`jobsComplete, cpu`totalWait, acc
    ensures Progress(policy, cpu, acc, jobs, rest, finished + done)
  {
    ghost var merged, clock := acc.merged, cpu.cpuTime;
    ghost var inMemory, work := Bag(cpu.readyQ, cpu.ioQ), Work(cpu.readyQ, cpu.ioQ);
    assert forall d :: d in jobQ ==> d in jobs;
    var act;
    ghost var admitted, selected;
    act, rest, admitted, selected := Step(policy, cpu, acc, jobQ);
    done := Done(act);
    Advance(policy, act, jobs, jobQ, rest, finished, merged, inMemory, Bag(cpu.readyQ, cpu.ioQ),
            work, Work(cpu.readyQ, cpu.ioQ), clock, cpu.cpuTime);
  }

  /** The descriptor an iteration completed, if any. */
  function Done(act: Action): seq<Descriptor>
  {
    if act.Completed? then [Origin(act.job)] else []
  }

  /** The bookkeeping of one iteration on plain values: the descriptors, the
      samples and the clock account for what the iteration completed. */
  lemma Advance(policy: Policy, act: Action, jobs: seq<Descriptor>, jobQ: seq<Descriptor>, rest: seq<Descriptor>,
                finished: seq<Descriptor>, merged: seq<Stats>, inMemory: multiset<Descriptor>,
                inMemory': multiset<Descriptor>, work: int, work': int, clock: int, clock': int)
    requires multiset(finished) + inMemory + multiset(jobQ) == multiset(jobs)
    requires inMemory' + multiset(rest) + multiset(Done(act)) == inMemory + multiset(jobQ)
    requires SamplesOf(merged, finished, policy)
    requires act.Completed? ==> SampleOf(act.s, Origin(act.job), policy)
    requires clock >= SumOf(finished, CpuDemand) + work
    requires work' + (if act.Completed? then CpuDemand(Origin(act.job)) else 0) <= work + (clock' - clock)
    ensures multiset(finished + Done(act)) + inMemory' + multiset(rest) == multiset(jobs)
    ensures SamplesOf(merged + (if act.Completed? then [act.s] else []), finished + Done(act), policy)
    ensures clock' >= SumOf(finished + Done(act), CpuDemand) + work'
  {
    Conserve(multiset(finished), multiset(Done(act)), inMemory, inMemory', multiset(jobQ), multiset(rest), multiset(jobs));
    SamplesOfAppend(merged, finished, if act.Completed? then [act.s] else [], Done(act), policy);
    if act.Completed? {
      SumOfSnoc(finished, Origin(act.job), CpuDemand);
    } else {
      assert finished + Done(act) == finished;
    }
  }

  /** The totals of a finished simulation, from one sample per job. */
  lemma {:induction false} FinalTotals(finished: seq<Descriptor>, merged: seq<Stats>, jobs: seq<Descriptor>, policy: Policy)
    requires multiset(finished) == multiset(jobs) && SamplesOf(merged, finished, policy)
    ensures Total(merged).n == |jobs|
    ensures Total(merged).pTime == SumOf(jobs, ProcessingDue)
    ensures Total(merged).pTime + Total(merged).wTime == Total(merged).taTime
    ensures policy != RR ==> Total(merged).shots == SumOf(jobs, BurstCount)
    ensures policy == RR ==> Total(merged).shots >= SumOf(jobs, BurstCount)
  {
    assert |finished| == |multiset(finished)| == |multiset(jobs)| == |jobs|;
    TotalIsSum(merged);
    SumOfPointwise(merged, finished, PTimeOf, ProcessingDue);
    SumOfPermutation(finished, jobs, ProcessingDue);
    SumOfAdd(merged, PTimeOf, WTimeOf, TaTimeOf);
    SumOfPermutation(finished, jobs, BurstCount);
    if policy == RR {
      SumOfPointwiseAtLeast(merged, finished, ShotsOf, BurstCount);
    } else {
      SumOfPointwise(merged, finished, ShotsOf, BurstCount);
    }
  }

  /** A whole simulation (the bodies of `FCFS`, `SJF` and `RR`): Round-Robin
      refuses a non-positive quantum; otherwise the loop runs while a job is
      in memory or in the feed. When it ends, one sample per job has been
      merged: processing time is what the jobs were owed, processing plus
      waiting time is turnaround time, and there is a shot per burst (at
      least, under Round-Robin). The loop is bounded by `fuel` iterations. */
  method Run(policy: Policy, jobs: seq<Descriptor>, quantum: int, fuel: nat) returns (out: Outcome)
    requires forall d :: d in jobs ==> Runnable(d)
    ensures out.InvalidQuantum? <==> policy == RR && quantum <= 0
    ensures out.Finished? ==> out.totals.n == |jobs|
    ensures out.Finished? ==> out.totals.pTime == SumOf(jobs, ProcessingDue)
    ensures out.Finished? ==> out.totals.pTime + out.totals.wTime == out.totals.taTime
    ensures out.Finished? && policy != RR ==> out.totals.shots == SumOf(jobs, BurstCount)
    ensures out.Finished? && policy == RR ==> out.totals.shots >= SumOf(jobs, BurstCount)
    ensures out.Finished? ==> out.clock >= SumOf(jobs, CpuDemand)
  {
    var cpu := new CPU();
    var acc := new Accumulator();
    if policy == RR {
      var ok := cpu.WriteQuantum(quantum);
      if !ok {
        return InvalidQuantum;
      }
    }
    var jobQ := jobs;
    ghost var finished: seq<Descriptor> := [];
    LoopEntry(policy, cpu, acc, jobs);
    var steps := 0;
    while (cpu.MemoryUsed() != 0 || |jobQ| != 0) && steps < fuel
      invariant Progress(policy, cpu, acc, jobs, jobQ, finished)
      decreases fuel - steps
    {
      ghost var done;
      jobQ, done := Iterate(policy, cpu, acc, jobQ, jobs, finished);
      finished := finished + done;
      steps := steps + 1;
    }
    if cpu.MemoryUsed() != 0 || |jobQ| != 0 {
      return OutOfFuel;
    }
    LoopExit(policy, cpu, acc, jobs, finished);
    out := Finished(cpu.GetCPUTime(), acc.Value());
  }

  /** Before the first iteration, nothing is in memory and nothing has
      completed. */
  lemma LoopEntry(policy: Policy, cpu: CPU, acc: Accumulator, jobs: seq<Descriptor>)
    requires cpu.Valid() && cpu.readyQ == [] && cpu.ioQ == [] && cpu.cpuTime == 0
    requires policy == RR ==> cpu.quantum > 0
    requires acc.Valid() && acc.merged == []
    ensures Progress(policy, cpu, acc, jobs, jobs, [])
  {
    assert Bag([], []) == multiset{};
  }

  /** When memory and the feed are empty, every job of the feed has
      completed, and the totals and the clock account for all of them. */
  lemma LoopExit(policy: Policy, cpu: CPU, acc: Accumulator, jobs: seq<Descriptor>, finished: seq<Descriptor>)
    requires Progress(policy, cpu, acc, jobs, [], finished) && cpu.jobsInMemory == 0
    ensures acc.Value().n == |jobs|
    ensures acc.Value().pTime == SumOf(jobs, ProcessingDue)
    ensures acc.Value().pTime + acc.Value().wTime == acc.Value().taTime
    ensures policy != RR ==> acc.Value().shots == SumOf(jobs, BurstCount)
    ensures policy == RR ==> acc.Value().shots >= SumOf(jobs, BurstCount)
    ensures cpu.cpuTime >= SumOf(jobs, CpuDemand)
  {
    assert Bag(cpu.readyQ, cpu.ioQ) == multiset{} && Work(cpu.readyQ, cpu.ioQ) == 0;
    FinalTotals(finished, acc.merged, jobs, policy);
    SumOfPermutation(finished, jobs, CpuDemand);
  }
}
