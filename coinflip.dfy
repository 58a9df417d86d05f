/** The trajectory generator of app/generator/coinflip.py: one random walk of
    `samples` steps over a discrete sample space.

    The ambient random source of np.random.choice is replaced by an oracle:
    a sequence of indices into the sample space, one per step, which only
    picks indices of positive probability. */
module Coinflip {
  import opened Results

  /** The number of iterations of Python's `range(n)`. */
  function Count(n: int): nat {
    if n > 0 then n else 0
  }

  function Sum(s: seq<int>): int {
    if s == [] then 0 else s[0] + Sum(s[1..])
  }

  function RealSum(s: seq<real>): real {
    if s == [] then 0.0 else s[0] + RealSum(s[1..])
  }

  /** The probability vectors np.random.choice(sample_space, p=prob) accepts:
      one non-negative weight per value, summing to one. An empty sample
      space is refused too, since its weights cannot sum to one. */
  predicate ValidDistribution(prob: seq<real>, space: seq<int>)
    ensures ValidDistribution(prob, space) ==> |space| >= 1 && |prob| == |space|
  {
    && |prob| == |space|
    && (forall k :: 0 <= k < |prob| ==> prob[k] >= 0.0)
    && RealSum(prob) == 1.0
  }

  /** run() raises on its first draw: a draw is asked for and the
      distribution is refused. With no draws numpy is never called. */
  predicate Raises(samples: int, prob: seq<real>, space: seq<int>)
    ensures Raises(samples, prob, space) ==> samples > 0
    ensures samples > 0 && (space == [] || |prob| != |space|) ==> Raises(samples, prob, space)
    ensures samples <= 0 ==> !Raises(samples, prob, space)
  {
    samples > 0 && !ValidDistribution(prob, space)
  }

  /** The oracle for one run: one index per step, each naming a value of the
      sample space whose probability is positive. */
  predicate DrawsFit(draws: seq<nat>, samples: int, prob: seq<real>, space: seq<int>) {
    && |draws| == Count(samples)
    && forall k :: 0 <= k < |draws| ==> draws[k] < |space| && draws[k] < |prob| && prob[draws[k]] > 0.0
  }

  /** The values the oracle's indices name, in draw order. */
  function Pick(space: seq<int>, draws: seq<nat>): (walk: seq<int>)
    requires forall k :: 0 <= k < |draws| ==> draws[k] < |space|
    ensures |walk| == |draws|
    ensures forall k :: 0 <= k < |walk| ==> walk[k] == space[draws[k]]
  {
    seq(|draws|, k requires 0 <= k < |draws| => space[draws[k]])
  }

  /** The running total np.cumsum keeps, started from `acc`. */
  function CumSumFrom(acc: int, s: seq<int>): (r: seq<int>)
    ensures |r| == |s|
    decreases |s|
  {
    if s == [] then [] else [acc + s[0]] + CumSumFrom(acc + s[0], s[1..])
  }

  /** np.cumsum of a one-dimensional array. */
  function CumSum(s: seq<int>): (r: seq<int>)
    ensures |r| == |s|
    ensures s != [] ==> r[0] == s[0] && r[|s| - 1] == Sum(s)
  {
    CumSumFromIsPrefixSums(0, s);
    assert s != [] ==> s[..|s|] == s;
    CumSumFrom(0, s)
  }

  lemma {:induction false} CumSumFromIsPrefixSums(acc: int, s: seq<int>)
    ensures forall i :: 0 <= i < |s| ==> CumSumFrom(acc, s)[i] == acc + Sum(s[..i+1])
    decreases |s|
  {
    if s != [] {
      CumSumFromIsPrefixSums(acc + s[0], s[1..]);
      forall i | 0 <= i < |s|
        ensures CumSumFrom(acc, s)[i] == acc + Sum(s[..i+1])
      {
        if i > 0 {
          assert s[..i+1][1..] == s[1..][..i];
        }
      }
    }
  }

  /** Position i of the cumulative array is the sum of the draws 0..i. */
  lemma CumSumIsPrefixSums(s: seq<int>)
    ensures |CumSum(s)| == |s|
    ensures forall i :: 0 <= i < |s| ==> CumSum(s)[i] == Sum(s[..i+1])
  {
    CumSumFromIsPrefixSums(0, s);
  }

  /** Every step of a coin-flip walk over [-1, 1] is -1 or 1. */
  predicate UnitSteps(s: seq<int>) {
    forall k :: 0 <= k < |s| ==> s[k] == -1 || s[k] == 1
  }

  lemma {:induction false} UnitStepSum(s: seq<int>)
    requires UnitSteps(s)
    ensures -|s| <= Sum(s) <= |s|
    ensures (Sum(s) + |s|) % 2 == 0
  {
    if s != [] {
      UnitStepSum(s[1..]);
    }
  }

  /** After i+1 unit steps the walk is within i+1 of the origin and has the
      parity of i+1. */
  lemma UnitWalkBounds(s: seq<int>)
    requires UnitSteps(s)
    ensures |CumSum(s)| == |s|
    ensures forall i :: 0 <= i < |s| ==> -(i+1) <= CumSum(s)[i] <= i+1 && (CumSum(s)[i] + i + 1) % 2 == 0
  {
    CumSumIsPrefixSums(s);
    forall i | 0 <= i < |s|
      ensures -(i+1) <= CumSum(s)[i] <= i+1 && (CumSum(s)[i] + i + 1) % 2 == 0
    {
      UnitStepSum(s[..i+1]);
    }
  }

  /** Draws over the sample space [-1, 1] are unit steps. */
  lemma CoinSpaceSteps(draws: seq<nat>)
    requires forall k :: 0 <= k < |draws| ==> draws[k] < 2
    ensures UnitSteps(Pick([-1, 1], draws))
  {
  }

  lemma {:induction false} PositiveWeight(prob: seq<real>)
    requires forall k :: 0 <= k < |prob| ==> prob[k] >= 0.0
    requires RealSum(prob) == 1.0
    ensures exists k :: 0 <= k < |prob| && prob[k] > 0.0
  {
    if prob[0] > 0.0 {
      assert 0 < |prob| && prob[0] > 0.0;
    } else {
      PositiveWeight(prob[1..]);
      var k :| 0 <= k < |prob[1..]| && prob[1..][k] > 0.0;
      assert prob[k + 1] > 0.0;
    }
  }

  /** The oracle asks nothing impossible: whenever numpy accepts the
      distribution, a draw sequence of any length exists. */
  lemma OracleExists(samples: int, prob: seq<real>, space: seq<int>)
    requires ValidDistribution(prob, space)
    ensures exists draws :: DrawsFit(draws, samples, prob, space)
  {
    PositiveWeight(prob);
    var k :| 0 <= k < |prob| && prob[k] > 0.0;
    var draws: seq<nat> := seq(Count(samples), _ => k);
    assert DrawsFit(draws, samples, prob, space);
  }

  /** GeneratorRandomWalk: a reusable generator whose run() rebinds `data`. */
  class GeneratorRandomWalk {
    var sampleSpace: seq<int>
    var samples: int
    var prob: seq<real>
    /** self.data, bound by the latest run() */
    var data: seq<int>
    /** whether run() has ever bound self.data; before that the getters raise */
    var ran: bool

    constructor (samples: int, prob: seq<real>, sampleSpace: seq<int>)
      ensures this.samples == samples && this.prob == prob && this.sampleSpace == sampleSpace
      ensures !ran && data == []
    {
      this.sampleSpace := sampleSpace;
      this.samples := samples;
      this.prob := prob;
      data := [];
      ran := false;
    }

    /** run(): reset self.data, then append one draw per step. The result
        depends on this call's draws alone. */
    method Run(draws: seq<nat>) returns (r: Outcome)
      requires !Raises(samples, prob, sampleSpace) ==> DrawsFit(draws, samples, prob, sampleSpace)
      modifies this`data, this`ran
      ensures ran
      ensures r == if Raises(samples, prob, sampleSpace) then Failed(InvalidDistribution) else Pass
      ensures r.Pass? ==> |data| == Count(samples) && forall k :: 0 <= k < |data| ==> data[k] in sampleSpace
      ensures data == if r.Pass? then Pick(sampleSpace, draws) else []
    {
      ran := true;
      data := [];
      if Raises(samples, prob, sampleSpace) {
        return Failed(InvalidDistribution);
      }
      for k := 0 to Count(samples)
        invariant ran
        invariant |data| == k
        invariant forall j :: 0 <= j < k ==> data[j] == sampleSpace[draws[j]]
      {
        data := data + [sampleSpace[draws[k]]];
      }
      r := Pass;
    }

    /** get_array(): the latest run's draws, unchanged. */
    function GetArray(): (r: Result<seq<int>>)
      reads this
      ensures r.Ok? <==> ran
      ensures r.Ok? ==> r.value == data
      ensures r.Fail? ==> r.error == MissingData
    {
      if ran then Ok(data) else Fail(MissingData)
    }

    /** get_cum_array(): the running sums of the latest run's draws. */
    function GetCumArray(): (r: Result<seq<int>>)
      reads this
      ensures r.Ok? <==> ran
      ensures r.Ok? ==> |r.value| == |data| && forall i :: 0 <= i < |data| ==> r.value[i] == Sum(data[..i+1])
      ensures r.Fail? ==> r.error == MissingData
    {
      if ran then
        CumSumIsPrefixSums(data);
        Ok(CumSum(data))
      else
        Fail(MissingData)
    }
  }
}
