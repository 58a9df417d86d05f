/** The chunk producer of app/generator/coinflip_chunk.py: run one generator
    `simulations` times and collect its raw or cumulative rows.

    The source builds the generator without a sample space (line 26), which
    the generator's constructor requires; this model passes the sample space
    through, as the generator's documentation intends. */
module CoinflipChunk {
  import opened Results
  import opened Coinflip

  /** A two-dimensional array, row by row: one trajectory per row. */
  type Chunk = seq<seq<int>>

  /** The parameters of one call of coinflip_simulations. */
  datatype ChunkArgs = ChunkArgs(
    samples: int,
    sampleSpace: seq<int>,
    prob: seq<real>,
    simulations: int,
    cumulative: bool)

  /** The oracle for a chunk: one draw sequence per simulation, each fit for a
      run unless the run raises (then no draw is ever taken). */
  predicate OracleFits(args: ChunkArgs, draws: seq<seq<nat>>) {
    && |draws| == Count(args.simulations)
    && forall i :: 0 <= i < |draws| ==>
         (!Raises(args.samples, args.prob, args.sampleSpace) ==>
            DrawsFit(draws[i], args.samples, args.prob, args.sampleSpace))
  }

  /** The row appended for one run: get_cum_array() or get_array(). */
  function Row(space: seq<int>, draws: seq<nat>, cumulative: bool): (row: seq<int>)
    requires forall k :: 0 <= k < |draws| ==> draws[k] < |space|
    ensures |row| == |draws|
    ensures !cumulative ==> forall k :: 0 <= k < |row| ==> row[k] in space
    ensures cumulative && draws != [] ==> row[|row| - 1] == Sum(Pick(space, draws))
  {
    var walk := Pick(space, draws);
    if cumulative then CumSum(walk) else walk
  }

  /** What coinflip_simulations returns for the given oracle: the first run
      raises if any run does, since all runs share one generator. */
  function ChunkOf(args: ChunkArgs, draws: seq<seq<nat>>): (r: Result<Chunk>)
    requires OracleFits(args, draws)
    ensures r.Fail? ==> r.error == InvalidDistribution && args.simulations > 0 && args.samples > 0
    ensures r.Ok? ==> |r.value| == Count(args.simulations)
  {
    if args.simulations > 0 && Raises(args.samples, args.prob, args.sampleSpace) then
      Fail(InvalidDistribution)
    else
      Ok(seq(|draws|, i requires 0 <= i < |draws| => Row(args.sampleSpace, draws[i], args.cumulative)))
  }

  /** coinflip_simulations(samples, prob, simulations, cumulative), with the
      sample space passed through and the random source as an oracle. */
  method CoinflipSimulations(samples: int, prob: seq<real>, sampleSpace: seq<int>, simulations: int,
                             cumulative: bool, draws: seq<seq<nat>>)
    returns (r: Result<Chunk>)
    requires OracleFits(ChunkArgs(samples, sampleSpace, prob, simulations, cumulative), draws)
    ensures r == ChunkOf(ChunkArgs(samples, sampleSpace, prob, simulations, cumulative), draws)
  {
    var generator := new GeneratorRandomWalk(samples, prob, sampleSpace);
    var simChunk: Chunk := [];
    for i := 0 to Count(simulations)
      invariant generator.samples == samples && generator.prob == prob && generator.sampleSpace == sampleSpace
      invariant |simChunk| == i
      invariant 0 < i ==> !Raises(samples, prob, sampleSpace)
      invariant forall j :: 0 <= j < i ==> simChunk[j] == Row(sampleSpace, draws[j], cumulative)
    {
      var outcome := generator.Run(draws[i]);
      if outcome.Failed? {
        return Fail(outcome.error);
      }
      var row := if cumulative then generator.GetCumArray() else generator.GetArray();
      simChunk := simChunk + [row.value];
    }
    ghost var expected := ChunkOf(ChunkArgs(samples, sampleSpace, prob, simulations, cumulative), draws);
    assert expected.Ok? && |expected.value| == |simChunk|;
    assert simChunk == expected.value;
    r := Ok(simChunk);
  }

  /** The chunk has one row per simulation and each row one entry per
      sample; it fails exactly when some run raises. */
  lemma ChunkShape(args: ChunkArgs, draws: seq<seq<nat>>)
    requires OracleFits(args, draws)
    ensures ChunkOf(args, draws).Fail? <==> args.simulations > 0 && Raises(args.samples, args.prob, args.sampleSpace)
    ensures ChunkOf(args, draws).Fail? ==> ChunkOf(args, draws).error == InvalidDistribution
    ensures ChunkOf(args, draws).Ok? ==>
              && |ChunkOf(args, draws).value| == Count(args.simulations)
              && forall i :: 0 <= i < Count(args.simulations) ==> |ChunkOf(args, draws).value[i]| == Count(args.samples)
  {
    if ChunkOf(args, draws).Ok? {
      forall i | 0 <= i < Count(args.simulations)
        ensures |ChunkOf(args, draws).value[i]| == Count(args.samples)
      {
        CumSumIsPrefixSums(Pick(args.sampleSpace, draws[i]));
      }
    }
  }

  /** No simulations give a chunk with no rows, whatever the distribution. */
  lemma NoSimulations(args: ChunkArgs, draws: seq<seq<nat>>)
    requires OracleFits(args, draws)
    requires args.simulations <= 0
    ensures ChunkOf(args, draws) == Ok([])
  {
    assert |draws| == 0;
    assert ChunkOf(args, draws).Ok? && |ChunkOf(args, draws).value| == 0;
  }

  /** Raw rows are draw sequences over the sample space; cumulative rows are
      the prefix sums of the draw sequence the oracle gave their run. */
  lemma ChunkRows(args: ChunkArgs, draws: seq<seq<nat>>, i: nat, j: nat)
    requires OracleFits(args, draws)
    requires ChunkOf(args, draws).Ok?
    requires i < Count(args.simulations) && j < Count(args.samples)
    ensures j < |ChunkOf(args, draws).value[i]|
    ensures !args.cumulative ==> ChunkOf(args, draws).value[i][j] in args.sampleSpace
    ensures args.cumulative ==>
              ChunkOf(args, draws).value[i][j] == Sum(Pick(args.sampleSpace, draws[i])[..j+1])
  {
    CumSumIsPrefixSums(Pick(args.sampleSpace, draws[i]));
  }

  /** Rows already collected are never disturbed by later runs: the first k
      rows are the chunk of the first k simulations alone. */
  lemma ChunkPrefix(args: ChunkArgs, draws: seq<seq<nat>>, k: nat)
    requires OracleFits(args, draws)
    requires ChunkOf(args, draws).Ok?
    requires k <= Count(args.simulations)
    ensures OracleFits(args.(simulations := k), draws[..k])
    ensures ChunkOf(args.(simulations := k), draws[..k]) == Ok(ChunkOf(args, draws).value[..k])
  {
    var small := args.(simulations := k);
    if k > 0 {
      assert !Raises(args.samples, args.prob, args.sampleSpace);
    }
    assert OracleFits(small, draws[..k]);
    var whole := ChunkOf(args, draws).value;
    var part := ChunkOf(small, draws[..k]);
    assert part.Ok? && |part.value| == k;
    forall i | 0 <= i < k
      ensures part.value[i] == whole[i]
    {
      assert draws[..k][i] == draws[i];
    }
    assert part.value == whole[..k];
  }

  /** A cumulative chunk over [-1, 1]: entry j of every row lies within
      j+1 of zero and has the parity of j+1. */
  lemma CoinChunkBounds(args: ChunkArgs, draws: seq<seq<nat>>, i: nat, j: nat)
    requires args.sampleSpace == [-1, 1] && args.cumulative
    requires OracleFits(args, draws)
    requires ChunkOf(args, draws).Ok?
    requires i < Count(args.simulations) && j < Count(args.samples)
    ensures j < |ChunkOf(args, draws).value[i]|
    ensures -(j+1) <= ChunkOf(args, draws).value[i][j] <= j+1
    ensures (ChunkOf(args, draws).value[i][j] + j + 1) % 2 == 0
  {
    var walk := Pick(args.sampleSpace, draws[i]);
    CoinSpaceSteps(draws[i]);
    UnitWalkBounds(walk);
  }
}
