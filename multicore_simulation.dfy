/** The parallel coordinator of app/core/multicore_simulation.py: the worker
    count, the per-worker partition, and the plan of identical worker tasks.
    Starting, joining and closing the processes are not modelled.

    The source's coinflip_args takes (samples, prob, simulations, cumulative)
    while its only caller passes the sample space as well; this model takes
    the sample space, in the caller's order, and hands it to every task. */
module MultiCoreSimulation {
  import opened Results
  import opened Coinflip
  import opened CoinflipChunk

  function Abs(x: int): nat {
    if x < 0 then -x else x
  }

  /** A positive number times a negative one is at most its negation. */
  lemma {:induction false} MulNegative(y: int, n: int)
    requires y > 0
    ensures n <= -1 ==> y * n <= -y
    decreases if n < 0 then -n else 0
  {
    if n < -1 {
      MulNegative(y, n + 1);
      assert y * n == y * (n + 1) - y;
    }
  }

  /** Euclidean division of a non-negative number by a positive one is
      non-negative. */
  lemma DivNonNegative(x: int, y: int)
    requires x >= 0 && y > 0
    ensures x / y >= 0
  {
    var q := x / y;
    assert x == y * q + x % y && 0 <= x % y < y;
    MulNegative(y, q);
  }

  /** Python's int(a / b): true division, then truncation toward zero. */
  function TruncDiv(a: int, b: int): (q: int)
    requires b != 0
    ensures Abs(q) == Abs(a) / Abs(b)
    ensures q < 0 ==> (a < 0) != (b < 0)
    ensures q > 0 ==> (a < 0) == (b < 0)
  {
    var A, B := Abs(a), Abs(b);
    DivNonNegative(A, B);
    var q := A / B;
    if (a < 0) == (b < 0) then q else -q
  }

  /** For a non-negative request over at least one worker, truncation is
      floor division. */
  lemma TruncDivIsFloor(simulations: int, onCpu: int)
    requires simulations >= 0 && onCpu >= 1
    ensures TruncDiv(simulations, onCpu) == simulations / onCpu
  {
  }

  /** The realised total never exceeds the request, and falls short of it by
      less than one simulation per worker. */
  lemma PartitionBounds(simulations: int, onCpu: int)
    requires simulations >= 0 && onCpu >= 1
    ensures 0 <= TruncDiv(simulations, onCpu)
    ensures TruncDiv(simulations, onCpu) * onCpu <= simulations
    ensures simulations - TruncDiv(simulations, onCpu) * onCpu < onCpu
  {
    TruncDivIsFloor(simulations, onCpu);
    var q := simulations / onCpu;
    assert 0 <= simulations % onCpu < onCpu;
    assert simulations == q * onCpu + simulations % onCpu;
  }

  /** The realised total meets the request exactly when the worker count
      divides it. */
  lemma PartitionExact(simulations: int, onCpu: int)
    requires simulations >= 0 && onCpu >= 1
    ensures TruncDiv(simulations, onCpu) * onCpu == simulations <==> simulations % onCpu == 0
  {
    var q := simulations / onCpu;
    assert simulations == q * onCpu + simulations % onCpu;
  }

  /** The magnitude of a product is the product of the magnitudes. */
  lemma AbsMul(x: int, y: int)
    ensures Abs(x * y) == Abs(x) * Abs(y)
  {
    if x < 0 && y >= 0 {
      assert x * y == -((-x) * y);
    } else if x >= 0 && y < 0 {
      assert x * y == -(x * (-y));
    } else if x < 0 && y < 0 {
      assert x * y == (-x) * (-y);
    }
  }

  /** Whatever the signs, the realised total is no larger in magnitude than
      the request and misses it by less than one worker's share. */
  lemma TruncDivTowardZero(a: int, b: int)
    requires b != 0
    ensures Abs(TruncDiv(a, b) * b) <= Abs(a)
    ensures Abs(a) - Abs(TruncDiv(a, b) * b) < Abs(b)
  {
    var A, B := Abs(a), Abs(b);
    var t := TruncDiv(a, b);
    var q := A / B;
    assert A == q * B + A % B;
    assert 0 <= A % B < B;
    AbsMul(t, b);
    assert Abs(t * b) == q * B;
  }

  /** 10000 over 3 workers is 3333 each, 9999 in all; 1000 over 7 is 142
      each, 994 in all; a negative quotient is truncated toward zero. */
  lemma PartitionExamples()
    ensures TruncDiv(10000, 3) == 3333 && TruncDiv(10000, 3) * 3 == 9999
    ensures TruncDiv(1000, 7) == 142 && TruncDiv(1000, 7) * 7 == 994
    ensures TruncDiv(-7, 2) == -3 && TruncDiv(7, -2) == -3
  {
  }

  /** One worker process: mp.Process(target=self._chunk), which runs
      coinflip_simulations on the coordinator's fields. */
  datatype Task = ChunkTask(args: ChunkArgs)

  /** MultiCore: the worker count and the parameters every worker shares. */
  class MultiCore {
    var onCpu: int
    var samples: int
    var sampleSpace: seq<int>
    var prob: seq<real>
    var simulations: int
    var cumulative: bool
    var processList: seq<Task>

    /** __init__(cpu_offs), with mp.cpu_count() as a parameter. No lower
        bound is checked: a worker count of zero or below is kept. */
    constructor (cpuCount: nat, cpuOffs: int)
      requires cpuCount >= 1
      ensures onCpu == cpuCount - cpuOffs
      ensures samples == 0 && sampleSpace == [] && prob == [] && simulations == 0 && !cumulative
      ensures processList == []
    {
      onCpu := cpuCount - cpuOffs;
      samples, sampleSpace, prob, simulations, cumulative := 0, [], [], 0, false;
      processList := [];
    }

    /** The parameters a worker passes to coinflip_simulations. */
    function Args(): ChunkArgs
      reads this
    {
      ChunkArgs(samples, sampleSpace, prob, simulations, cumulative)
    }

    /** coinflip_args: store the parameters, the per-worker count being
        int(simulations / on_cpu). With no workers the division raises after
        samples, sample space and prob are already stored. */
    method CoinflipArgs(samples: int, sampleSpace: seq<int>, prob: seq<real>, simulations: int, cumulative: bool)
      returns (r: Outcome)
      modifies this`samples, this`sampleSpace, this`prob, this`simulations, this`cumulative
      ensures r == if onCpu == 0 then Failed(ZeroDivision) else Pass
      ensures this.samples == samples && this.sampleSpace == sampleSpace && this.prob == prob
      ensures r.Pass? ==> this.simulations == TruncDiv(simulations, onCpu) && this.cumulative == cumulative
      ensures r.Failed? ==> this.simulations == old(this.simulations) && this.cumulative == old(this.cumulative)
    {
      this.samples := samples;
      this.sampleSpace := sampleSpace;
      this.prob := prob;
      if onCpu == 0 {
        return Failed(ZeroDivision);
      }
      this.simulations := TruncDiv(simulations, onCpu);
      this.cumulative := cumulative;
      r := Pass;
    }

    /** _generate_subprocess: a fresh plan of one identical task per worker
        (none when the worker count is zero or below). */
    method GenerateSubprocess()
      modifies this`processList
      ensures |processList| == Count(onCpu)
      ensures forall n :: 0 <= n < |processList| ==> processList[n] == ChunkTask(Args())
    {
      processList := [];
      for n := 0 to Count(onCpu)
        invariant |processList| == n
        invariant forall m :: 0 <= m < n ==> processList[m] == ChunkTask(Args())
      {
        processList := processList + [ChunkTask(Args())];
      }
    }
  }

  /** The coordinator's set-up as its caller drives it: construct, store the
      parameters, then build the plan. A division by zero stops the run
      before any task is planned; otherwise there is one task per worker,
      each asking for the truncated share of the request. */
  method PlanSimulation(cpuCount: nat, cpuOffs: int, samples: int, sampleSpace: seq<int>, prob: seq<real>,
                        simulations: int, cumulative: bool)
    returns (r: Result<seq<Task>>)
    requires cpuCount >= 1
    ensures r.Fail? <==> cpuCount == cpuOffs
    ensures r.Fail? ==> r.error == ZeroDivision
    ensures r.Ok? ==> |r.value| == Count(cpuCount - cpuOffs)
    ensures r.Ok? ==> forall n :: 0 <= n < |r.value| ==>
              r.value[n] == ChunkTask(ChunkArgs(samples, sampleSpace, prob,
                                                TruncDiv(simulations, cpuCount - cpuOffs), cumulative))
  {
    var multicore := new MultiCore(cpuCount, cpuOffs);
    var outcome := multicore.CoinflipArgs(samples, sampleSpace, prob, simulations, cumulative);
    if outcome.Failed? {
      return Fail(outcome.error);
    }
    multicore.GenerateSubprocess();
    r := Ok(multicore.processList);
  }
}
