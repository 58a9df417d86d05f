/** The whole ensemble: the chunks the planned workers produce, assembled
    into one dataset. Each worker runs coinflip_simulations with the same
    parameters, so the dataset's shape follows from the partition. */
module Ensemble {
  import opened Results
  import opened Coinflip
  import opened CoinflipChunk
  import opened MultiCoreSimulation
  import opened ConcatenateBinSimulations

  lemma {:induction false} TotalRowsUniform(chunks: seq<Chunk>, n: nat)
    requires forall i :: 0 <= i < |chunks| ==> |chunks[i]| == n
    ensures TotalRows(chunks) == n * |chunks|
  {
    if chunks != [] {
      TotalRowsUniform(chunks[1..], n);
    }
  }

  /** Every row of the concatenation is a row of one of the chunks. */
  lemma {:induction false} FlattenRowOrigin(chunks: seq<Chunk>, k: nat)
    requires k < |Flatten(chunks)|
    ensures exists i, j :: 0 <= i < |chunks| && 0 <= j < |chunks[i]| && Flatten(chunks)[k] == chunks[i][j]
  {
    if k < |chunks[0]| {
      assert Flatten(chunks)[k] == chunks[0][k];
    } else {
      FlattenRowOrigin(chunks[1..], k - |chunks[0]|);
      var i, j :| 0 <= i < |chunks[1..]| && 0 <= j < |chunks[1..][i]|
                  && Flatten(chunks[1..])[k - |chunks[0]|] == chunks[1..][i][j];
      assert Flatten(chunks)[k] == chunks[i + 1][j];
    }
  }

  /** The chunks of `workers` workers, each produced from the same
      parameters with its own draws. */
  ghost predicate WorkerChunks(args: ChunkArgs, workers: nat, draws: seq<seq<seq<nat>>>, chunks: seq<Chunk>) {
    && |draws| == workers && |chunks| == workers
    && forall w :: 0 <= w < workers ==> OracleFits(args, draws[w]) && ChunkOf(args, draws[w]) == Ok(chunks[w])
  }

  /** With at least one simulation per worker, the chunks concatenate into
      per-worker × workers rows of `samples` columns. */
  lemma EnsembleShape(args: ChunkArgs, workers: nat, draws: seq<seq<seq<nat>>>, chunks: seq<Chunk>)
    requires workers >= 1 && args.simulations >= 1
    requires WorkerChunks(args, workers, draws, chunks)
    ensures Concatenate(chunks).Ok?
    ensures |Concatenate(chunks).value| == args.simulations * workers
    ensures forall k :: 0 <= k < |Concatenate(chunks).value| ==> |Concatenate(chunks).value[k]| == Count(args.samples)
  {
    forall w | 0 <= w < workers
      ensures |chunks[w]| == args.simulations
      ensures forall k :: 0 <= k < |chunks[w]| ==> |chunks[w][k]| == Count(args.samples)
    {
      ChunkShape(args, draws[w]);
    }
    assert SameShape(chunks);
    TotalRowsUniform(chunks, args.simulations);
    FlattenWidth(chunks, Count(args.samples));
  }

  /** One worker's cumulative coin-flip row ends within `samples` of zero,
      with the parity of `samples`. */
  lemma WorkerRowFinalValue(args: ChunkArgs, draws: seq<seq<nat>>, chunk: Chunk, j: nat)
    requires args.samples >= 1 && args.sampleSpace == [-1, 1] && args.cumulative
    requires OracleFits(args, draws) && ChunkOf(args, draws) == Ok(chunk)
    requires j < |chunk|
    ensures |chunk[j]| == args.samples
    ensures -args.samples <= chunk[j][args.samples - 1] <= args.samples
    ensures (chunk[j][args.samples - 1] + args.samples) % 2 == 0
  {
    ChunkShape(args, draws);
    CoinChunkBounds(args, draws, j, args.samples - 1);
  }

  /** For cumulative coin-flip walks over [-1, 1], every trajectory ends
      within `samples` of zero, with the parity of `samples`. */
  lemma EnsembleFinalValues(args: ChunkArgs, workers: nat, draws: seq<seq<seq<nat>>>, chunks: seq<Chunk>)
    requires workers >= 1 && args.simulations >= 1 && args.samples >= 1
    requires args.sampleSpace == [-1, 1] && args.cumulative
    requires WorkerChunks(args, workers, draws, chunks)
    ensures Concatenate(chunks).Ok?
    ensures forall k :: 0 <= k < |Concatenate(chunks).value| ==>
              && |Concatenate(chunks).value[k]| == args.samples
              && -args.samples <= Concatenate(chunks).value[k][args.samples - 1] <= args.samples
              && (Concatenate(chunks).value[k][args.samples - 1] + args.samples) % 2 == 0
  {
    EnsembleShape(args, workers, draws, chunks);
    var rows := Concatenate(chunks).value;
    assert rows == Flatten(chunks);
    forall k | 0 <= k < |rows|
      ensures |rows[k]| == args.samples
      ensures -args.samples <= rows[k][args.samples - 1] <= args.samples
      ensures (rows[k][args.samples - 1] + args.samples) % 2 == 0
    {
      FlattenRowOrigin(chunks, k);
      var w, j :| 0 <= w < |chunks| && 0 <= j < |chunks[w]| && rows[k] == chunks[w][j];
      WorkerRowFinalValue(args, draws[w], chunks[w], j);
    }
  }

  /** With fewer requested simulations than workers every worker produces
      an empty chunk, and the dataset is empty rather than an error. */
  lemma EnsembleTooFewSimulations(args: ChunkArgs, workers: nat, draws: seq<seq<seq<nat>>>, chunks: seq<Chunk>)
    requires workers >= 1 && args.simulations == 0
    requires WorkerChunks(args, workers, draws, chunks)
    ensures Concatenate(chunks) == Ok([])
  {
    forall w | 0 <= w < workers ensures chunks[w] == [] {
      NoSimulations(args, draws[w]);
    }
    assert SameShape(chunks);
    TotalRowsUniform(chunks, 0);
  }

  /** 1000 walks of 100 fair coin flips on 8 cores with one held back: 7
      workers of 142 walks, 994 trajectories, each ending at an even value
      in [-100, 100]. */
  lemma EightCoreScenario(draws: seq<seq<seq<nat>>>, chunks: seq<Chunk>)
    requires WorkerChunks(ChunkArgs(100, [-1, 1], [0.5, 0.5], TruncDiv(1000, 8 - 1), true), 8 - 1, draws, chunks)
    ensures TruncDiv(1000, 8 - 1) == 142
    ensures Concatenate(chunks).Ok? && |Concatenate(chunks).value| == 994
    ensures forall k :: 0 <= k < 994 ==>
              && |Concatenate(chunks).value[k]| == 100
              && -100 <= Concatenate(chunks).value[k][99] <= 100
              && Concatenate(chunks).value[k][99] % 2 == 0
  {
    var args := ChunkArgs(100, [-1, 1], [0.5, 0.5], TruncDiv(1000, 8 - 1), true);
    assert args.simulations == 142;
    EnsembleShape(args, 7, draws, chunks);
    EnsembleFinalValues(args, 7, draws, chunks);
  }
}
