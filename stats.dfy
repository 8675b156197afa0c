/** Summary statistics of a simulation run: one job's figures, and the running
    totals the simulator folds them into. */
module Statistics {
  import opened Sums

  /** A `stats` value: processing, waiting and turnaround time, CPU shots, and
      the number of samples it stands for. */
  datatype Stats = Stats(pTime: int, wTime: int, taTime: int, shots: int, n: int)

  /** The default constructor: all totals zero and no samples. */
  function EmptyStats(): (s: Stats)
    ensures s.n == 0
    ensures s.pTime == 0 && s.wTime == 0 && s.taTime == 0 && s.shots == 0
  {
    Stats(0, 0, 0, 0, 0)
  }

  /** The value constructor: one job's figures, counted as one sample. */
  function MakeStats(processingTime: int, waitTime: int, turnAroundTime: int, shotsUsed: int): (s: Stats)
    ensures s.n == 1
    ensures s.pTime == processingTime && s.wTime == waitTime
    ensures s.taTime == turnAroundTime && s.shots == shotsUsed
  {
    Stats(processingTime, waitTime, turnAroundTime, shotsUsed, 1)
  }

  /** What `addStats` makes of the totals `acc` when it merges `s`: the four
      figures add up and the sample count grows by one, whatever `s.n` says. */
  function Merge(acc: Stats, s: Stats): (r: Stats)
    ensures r.pTime == acc.pTime + s.pTime && r.wTime == acc.wTime + s.wTime
    ensures r.taTime == acc.taTime + s.taTime && r.shots == acc.shots + s.shots
    ensures r.n == acc.n + 1
  {
    Stats(acc.pTime + s.pTime, acc.wTime + s.wTime, acc.taTime + s.taTime,
          acc.shots + s.shots, acc.n + 1)
  }

  function PTimeOf(s: Stats): int { s.pTime }
  function WTimeOf(s: Stats): int { s.wTime }
  function TaTimeOf(s: Stats): int { s.taTime }
  function ShotsOf(s: Stats): int { s.shots }

  /** The totals after merging every element of `ss`, in order, into
      default-constructed totals. */
  function Total(ss: seq<Stats>): (r: Stats)
    ensures r.n == |ss|
  {
    if ss == [] then EmptyStats() else Merge(Total(ss[..|ss| - 1]), ss[|ss| - 1])
  }

  /** The merged totals are the plain sums of the merged figures. */
  lemma {:induction false} TotalIsSum(ss: seq<Stats>)
    ensures Total(ss) == Stats(SumOf(ss, PTimeOf), SumOf(ss, WTimeOf), SumOf(ss, TaTimeOf),
                               SumOf(ss, ShotsOf), |ss|)
  {
    if ss != [] {
      TotalIsSum(ss[..|ss| - 1]);
    }
  }

  /** The totals do not depend on the order in which jobs were merged. */
  lemma TotalOrderIndependent(a: seq<Stats>, b: seq<Stats>)
    requires multiset(a) == multiset(b)
    ensures Total(a) == Total(b)
  {
    TotalIsSum(a);
    TotalIsSum(b);
    SumOfPermutation(a, b, PTimeOf);
    SumOfPermutation(a, b, WTimeOf);
    SumOfPermutation(a, b, TaTimeOf);
    SumOfPermutation(a, b, ShotsOf);
    assert |a| == |multiset(a)| == |multiset(b)| == |b|;
  }

  /** The running totals of one simulation (the source's `myStats`). The
      ghost field `merged` records every sample merged so far. */
  class Accumulator {
    var pTime: int
    var wTime: int
    var taTime: int
    var shots: int
    var n: int
    ghost var merged: seq<Stats>

    ghost predicate Valid()
      reads this
    {
      Value() == Total(merged)
    }

    /** The totals as a `stats` value. */
    function Value(): Stats
      reads this
    {
      Stats(pTime, wTime, taTime, shots, n)
    }

    constructor ()
      ensures Valid() && merged == []
      ensures Value() == EmptyStats()
    {
      pTime, wTime, taTime, shots, n := 0, 0, 0, 0, 0;
      merged := [];
    }

    method AddStats(s: Stats)
      requires Valid()
      modifies this
      ensures Valid() && merged == old(merged) + [s]
      ensures Value() == Merge(old(Value()), s)
    {
      pTime := pTime + s.pTime;
      wTime := wTime + s.wTime;
      taTime := taTime + s.taTime;
      shots := shots + s.shots;
      n := n + 1;
      merged := merged + [s];
      assert merged[..|merged| - 1] == old(merged);
    }
  }
}
