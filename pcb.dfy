/** The process control block: one job's burst plan and progress. The source
    copies these records by value into and out of its queues, so they are
    values here, and each step operation returns the updated record. */
module Process {
  import opened Sums
  import opened Statistics

  /** Fixed duration of one I/O operation. */
  const IO_TIME: int := 10

  /** Scheduling state of a job (the source encodes these as 0, -1 and 1). */
  datatype State = Ready | IOBlocked | Running

  /** `cBurst` is the 1-based number of the current burst, `cBurstPC` the
      cycles it has received, `pc` all cycles received, `quantumTime` the
      cycles received in the current quantum and `numShots` the CPU shots
      used. The start time of the source is left out: nothing writes it. */
  datatype PCB = PCB(
    jobID: int,
    arrivalTime: int,
    nBursts: int,
    burstList: seq<int>,
    state: State,
    pc: int,
    cBurst: int,
    ioCompTime: int,
    endTime: int,
    cBurstPC: int,
    quantumTime: int,
    numShots: int)

  /** The constructor. The end time is unset in the source until the job
      completes; here it starts at 0. */
  function NewPCB(jID: int, aTime: int, nB: int, bL: seq<int>): (p: PCB)
    ensures p.jobID == jID && p.arrivalTime == aTime && p.nBursts == nB && p.burstList == bL
    ensures p.state == Ready && p.cBurst == 1 && p.ioCompTime == 0
    ensures p.pc == 0 && p.cBurstPC == 0 && p.quantumTime == 0 && p.numShots == 0
  {
    PCB(jID, aTime, nB, bL, Ready, 0, 1, 0, 0, 0, 0, 0)
  }

  /** The length of the current burst. */
  function ThisBurst(p: PCB): (b: int)
    requires 1 <= p.cBurst <= |p.burstList|
    ensures b in p.burstList
  {
    p.burstList[p.cBurst - 1]
  }

  /** Give the job one clock cycle: it counts in the current burst, in the
      job's total and in the current quantum; nothing else changes. */
  function IncCurrentBurstPC(p: PCB): (r: PCB)
    ensures r.cBurstPC == p.cBurstPC + 1 && r.pc == p.pc + 1 && r.quantumTime == p.quantumTime + 1
    ensures r.(cBurstPC := p.cBurstPC, pc := p.pc, quantumTime := p.quantumTime) == p
  {
    p.(cBurstPC := p.cBurstPC + 1, pc := p.pc + 1, quantumTime := p.quantumTime + 1)
  }

  /** The current burst is done: move to the next one, count the shot, and
      block for I/O with a fresh burst and quantum. The cycles received, the
      burst plan and the identity stay; a job that had a next burst keeps a
      current burst that exists. */
  function BurstComplete(p: PCB): (r: PCB)
    ensures r.cBurst == p.cBurst + 1 && r.numShots == p.numShots + 1 && r.state == IOBlocked
    ensures r.cBurstPC == 0 && r.quantumTime == 0
    ensures r.(cBurst := p.cBurst, numShots := p.numShots, state := p.state,
               cBurstPC := p.cBurstPC, quantumTime := p.quantumTime) == p
    ensures WellFormed(p) && p.cBurst < p.nBursts ==> WellFormed(r)
  {
    p.(cBurst := p.cBurst + 1, numShots := p.numShots + 1, state := IOBlocked,
       cBurstPC := 0, quantumTime := 0)
  }

  function ResetQuantum(p: PCB): PCB
  {
    p.(quantumTime := 0)
  }

  function ShotComplete(p: PCB): PCB
  {
    p.(numShots := p.numShots + 1)
  }

  function SetState(p: PCB, s: State): PCB
  {
    p.(state := s)
  }

  function SetIOCompTime(p: PCB, t: int): PCB
  {
    p.(ioCompTime := t)
  }

  function WriteEndTime(p: PCB, t: int): PCB
  {
    p.(endTime := t)
  }

  /** Final statistics of a job: processing time is its CPU cycles plus one
      I/O duration per I/O operation, turnaround time runs from arrival to end,
      and waiting time is the rest of the turnaround time. */
  function GetStats(p: PCB): (s: Stats)
    ensures s.n == 1 && s.shots == p.numShots
    ensures s.pTime == p.pc + IO_TIME * (p.nBursts - 1)
    ensures s.taTime == p.endTime - p.arrivalTime
    ensures s.pTime + s.wTime == s.taTime
  {
    var processingTime := p.pc + IO_TIME * (p.nBursts - 1);
    var tat := p.endTime - p.arrivalTime;
    MakeStats(processingTime, tat - processingTime, tat, p.numShots)
  }

  /** The comparator handed to the SJF sort. Despite its name it is strict
      less-than on the current burst length. */
  function IsBurstGreaterThan(a: PCB, b: PCB): (r: bool)
    requires 1 <= a.cBurst <= |a.burstList| && 1 <= b.cBurst <= |b.burstList|
    ensures r ==> ThisBurst(a) < ThisBurst(b)
    ensures ThisBurst(a) < ThisBurst(b) ==> r
  {
    ThisBurst(a) < ThisBurst(b)
  }

  /** The burst plan is consistent and the current burst exists. */
  predicate WellFormed(p: PCB)
  {
    p.nBursts == |p.burstList| && 1 <= p.cBurst <= p.nBursts
  }

  /** Program-counter accounting: the job has received every cycle of the
      bursts before the current one, plus the cycles of the current one. */
  predicate Accounted(p: PCB)
    requires WellFormed(p)
  {
    p.pc == PrefixSum(p.burstList, p.cBurst - 1) + p.cBurstPC
  }

  lemma NewPCBAccounted(jID: int, aTime: int, bL: seq<int>)
    requires |bL| >= 1
    ensures WellFormed(NewPCB(jID, aTime, |bL|, bL)) && Accounted(NewPCB(jID, aTime, |bL|, bL))
  {
  }

  lemma ServiceKeepsAccounting(p: PCB)
    requires WellFormed(p) && Accounted(p)
    ensures WellFormed(IncCurrentBurstPC(p)) && Accounted(IncCurrentBurstPC(p))
  {
  }

  /** Completing an exhausted burst that is not the last keeps the accounting. */
  lemma {:induction false} BurstCompleteKeepsAccounting(p: PCB)
    requires WellFormed(p) && Accounted(p)
    requires p.cBurst < p.nBursts && p.cBurstPC == ThisBurst(p)
    ensures WellFormed(BurstComplete(p)) && Accounted(BurstComplete(p))
  {
  }

  /** When the last burst is exhausted, the job has received exactly the sum of
      its bursts, and its processing time is that sum plus one I/O duration per
      burst boundary. */
  lemma {:induction false} FinishedJobUsedAllBursts(p: PCB)
    requires WellFormed(p) && Accounted(p)
    requires p.cBurst == p.nBursts && p.cBurstPC == ThisBurst(p)
    ensures p.pc == Sum(p.burstList)
    ensures GetStats(p).pTime == Sum(p.burstList) + IO_TIME * (|p.burstList| - 1)
  {
  }

  lemma BurstComparatorIrreflexive(a: PCB)
    requires WellFormed(a)
    ensures !IsBurstGreaterThan(a, a)
  {
  }

  lemma BurstComparatorTransitive(a: PCB, b: PCB, c: PCB)
    requires WellFormed(a) && WellFormed(b) && WellFormed(c)
    requires IsBurstGreaterThan(a, b) && IsBurstGreaterThan(b, c)
    ensures IsBurstGreaterThan(a, c)
  {
  }

  /** Incomparability (equal current bursts) is transitive too, so the
      comparator is a strict weak ordering, as the sort requires. */
  lemma BurstIncomparabilityTransitive(a: PCB, b: PCB, c: PCB)
    requires WellFormed(a) && WellFormed(b) && WellFormed(c)
    requires !IsBurstGreaterThan(a, b) && !IsBurstGreaterThan(b, a)
    requires !IsBurstGreaterThan(b, c) && !IsBurstGreaterThan(c, b)
    ensures !IsBurstGreaterThan(a, c) && !IsBurstGreaterThan(c, a)
  {
  }
}
