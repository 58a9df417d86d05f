# Random-walk simulation: a Dafny model of the core

The repository simulates many one-dimensional random walks. Each walk is a
sequence of `samples` values drawn from a sample space (for a coin flip,
`[-1, 1]` with probabilities `[0.5, 0.5]`). A trajectory is either the raw draws
or their running sums.

The simulation work is spread across CPU cores:

- A coordinator computes a worker count, `cpu_count - cpu_offs`.
- It gives every worker the same parameters. Each worker's share of the
  requested simulations is `int(simulations / on_cpu)`.
- Every worker runs the chunk producer. The chunk producer runs one
  generator repeatedly and stacks its rows.
- Chunks are stored by name as pickled files `<name>.bin` in `app/bin`.
- An assembler lists that directory, loads every record and concatenates the
  chunks row-wise into one dataset.

The model has one module per core source file, plus two modules that
correspond to no source file: `Results` holds the shared wrapper types and
`Ensemble` states facts about the whole pipeline.

- `Results` (`results.dfy`): the error kinds and the `Option`, `Result` and
  `Outcome` wrappers.
- `Coinflip` (`coinflip.dfy`): the generator, as a class whose `Run` method
  follows the source's append loop. Randomness is an oracle: one index into
  the sample space per step, and each index must have positive probability.
- `CoinflipChunk` (`coinflip_chunk.dfy`): the chunk loop, as a method. It is
  proved against the function `ChunkOf`.
- `MultiCoreSimulation` (`multicore_simulation.dfy`): covers:
  - the coordinator class;
  - Python's truncating `int(a / b)`;
  - the plan of worker tasks.
- `BinaryManager` (`binary_manager.dfy`): the store. The directory is a map
  from file names to contents, and serialisation is abstracted away. The
  store is a class over that map, beside pure functions that define what
  each operation does.
- `ConcatenateBinSimulations` (`concatenate_bin_simulations.dfy`): covers:
  - numpy's row-wise concatenation, with its two refusals (no arrays at all,
    arrays whose shapes differ);
  - the assembling loop, as a method.
- `Ensemble` (`ensemble.dfy`): shape and value facts about the complete
  dataset. They follow from the modules above.

Several things the environment provides are parameters of the model:

- the random source (an oracle of draws);
- `mp.cpu_count()` (a `nat` argument);
- the order in which the operating system lists the directory (any order in
  which every file appears once).

Where the source and its documentation disagree, the model follows the
documentation and says so here:

- Sample space. `coinflip_chunk.py` builds the generator without a sample
  space, which the constructor requires. The model passes it through.
- `coinflip_args`. It is declared with four parameters, but its caller passes
  five (samples, sample space, probabilities, simulations, cumulative). The
  model takes all five, in the caller's order.
- Logging import. `binary_manager.py` imports a logging function that the
  logging module does not define. The model leaves logging out.
- `get`. The source opens the file with `"wb"`. This is recorded under
  Findings: the model has both the as-written behaviour and the documented
  one, and the rest of the model uses the documented one.

On one point the model follows the source rather than the design. The
design asks for at least one worker and an error otherwise. The source
checks nothing when it computes the worker count
(`multicore_simulation.py:24`). With an offset larger than the CPU count,
`range(self.on_cpu)` plans no task, and `run` quietly does nothing. With an
offset equal to the CPU count, the division in `coinflip_args` raises. The
model does the same: `PlanSimulation` plans `Count(cpuCount - cpuOffs)` tasks
and fails only with ZeroDivision.

## Model

| member | source | states |
|---|---|---|
| Coinflip.GeneratorRandomWalk.constructor | app/generator/coinflip.py:14-26 | stores samples, probabilities and sample space exactly as given; no walk has been run yet |
| Coinflip.GeneratorRandomWalk.Run | app/generator/coinflip.py:28-36 | raises a distribution error exactly when at least one draw is needed and the probabilities are not a distribution over the space (lengths differ, a weight is negative, or weights do not sum to 1), leaving data empty; otherwise data has one entry per sample (none for a non-positive count), each entry is a member of the sample space, and entry k is the value the oracle picked at step k |
| Coinflip.GeneratorRandomWalk.GetArray | app/generator/coinflip.py:38-44 | returns the last run's data, and fails with a missing-attribute error if run was never called |
| Coinflip.GeneratorRandomWalk.GetCumArray | app/generator/coinflip.py:46-52 | same length as the data, and entry i is the sum of the first i+1 draws; fails if run was never called |
| Coinflip.ValidDistribution | app/generator/coinflip.py:35 | the probability vectors np.random.choice accepts; an accepted one has one weight per sample-space value, and the sample space is not empty |
| Coinflip.Raises | app/generator/coinflip.py:33-35 | run raises only when at least one draw is asked for; it always raises for an empty sample space or a probability vector of the wrong length when a draw is asked for, and never when no draw is |
| Coinflip.Pick | app/generator/coinflip.py:34-35 | the walk has one value per draw, and value k is the sample-space element the k-th draw selects |
| Coinflip.CumSumFrom | app/generator/coinflip.py:52 | a running sum keeps the length of its input |
| Coinflip.CumSum | app/generator/coinflip.py:52 | np.cumsum keeps the length of its input, starts at the first draw, and ends at the sum of all draws |
| Coinflip.CumSumFromIsPrefixSums | app/generator/coinflip.py:52 | a running sum started at acc has acc plus the sum of the first i+1 inputs at position i |
| Coinflip.CumSumIsPrefixSums | app/generator/coinflip.py:52 | np.cumsum: the same length as its input and the i-th prefix sum at position i |
| Coinflip.UnitStepSum | app/generator/coinflip.py:20-21 | a sum of n steps of ±1 lies in [-n, n] and has the parity of n |
| Coinflip.UnitWalkBounds | app/generator/coinflip.py:46-52 | entry i of a cumulative ±1 walk lies in [-(i+1), i+1] and has the parity of i+1 |
| Coinflip.CoinSpaceSteps | app/generator/coinflip.py:35 | draws over the space [-1, 1] give ±1 steps |
| Coinflip.PositiveWeight | app/generator/coinflip.py:35 | non-negative weights summing to 1 include a positive one |
| Coinflip.OracleExists | app/generator/coinflip.py:35 | for every valid distribution some oracle satisfies the run's precondition: the precondition can always be met |
| CoinflipChunk.Row | app/generator/coinflip_chunk.py:31 | the row appended for one run has one entry per draw; a raw row holds sample-space values, and a cumulative row ends at the sum of the walk |
| CoinflipChunk.ChunkOf | app/generator/coinflip_chunk.py:13-33 | the chunk coinflip_simulations returns: it fails only with the distribution error, and only when a simulation and a draw are asked for; otherwise it has one row per simulation |
| CoinflipChunk.CoinflipSimulations | app/generator/coinflip_chunk.py:13-33 | the method's loop returns exactly the chunk that `ChunkOf` specifies for the same parameters and oracle |
| CoinflipChunk.ChunkShape | app/generator/coinflip_chunk.py:26-33 | the chunk fails, with the distribution error, exactly when there is at least one simulation, at least one sample, and the distribution is invalid; otherwise it has one row per simulation and one entry per sample in each row |
| CoinflipChunk.NoSimulations | app/generator/coinflip_chunk.py:29 | a non-positive simulation count gives a chunk with no rows, even for an invalid distribution |
| CoinflipChunk.ChunkRows | app/generator/coinflip_chunk.py:30-31 | a raw row holds sample-space values; entry j of a cumulative row is the sum of that run's first j+1 draws |
| CoinflipChunk.ChunkPrefix | app/generator/coinflip_chunk.py:28-31 | later runs never disturb collected rows: the first k rows are the chunk of k simulations on the first k oracles |
| CoinflipChunk.CoinChunkBounds | app/generator/coinflip_chunk.py:31 | in a cumulative coin-flip chunk, entry j lies in [-(j+1), j+1] and has the parity of j+1 |
| MultiCoreSimulation.TruncDiv | app/core/multicore_simulation.py:38 | int(a / b): the magnitude is the floor of the magnitudes' quotient, and a non-zero result is negative exactly when the operands' signs differ |
| MultiCoreSimulation.TruncDivIsFloor | app/core/multicore_simulation.py:38 | for a non-negative request and a positive worker count, int(a / b) is floor division |
| MultiCoreSimulation.PartitionBounds | app/core/multicore_simulation.py:38 | the per-worker share is non-negative, the realised total never exceeds the request, and it falls short by less than the worker count |
| MultiCoreSimulation.PartitionExact | app/core/multicore_simulation.py:38 | the realised total equals the request exactly when the worker count divides it |
| MultiCoreSimulation.TruncDivTowardZero | app/core/multicore_simulation.py:38 | for any signs, the share times the worker count is no larger than the request in magnitude, and misses it by less than the worker count |
| MultiCoreSimulation.PartitionExamples | app/core/multicore_simulation.py:38 | 10000 over 3 workers gives 3333 each (9999 in all); 1000 over 7 gives 142 each (994); -7 over 2 and 7 over -2 both give -3 |
| MultiCoreSimulation.MultiCore.constructor | app/core/multicore_simulation.py:17-24 | the worker count is cpu_count minus the offset, with no lower bound enforced |
| MultiCoreSimulation.MultiCore.CoinflipArgs | app/core/multicore_simulation.py:26-39 | stores samples, sample space and probabilities; then raises ZeroDivision exactly when there are no workers, and otherwise stores the truncated share and the cumulative flag |
| MultiCoreSimulation.MultiCore.GenerateSubprocess | app/core/multicore_simulation.py:47-53 | a fresh plan with one task per worker (none for a non-positive count), every task running the chunk producer on the stored parameters |
| MultiCoreSimulation.PlanSimulation | app/core/multicore_simulation.py:24-53 | construct, store the parameters, plan: fails, with ZeroDivision, exactly when the offset equals the CPU count; otherwise yields one task per worker, each carrying the caller's parameters and the truncated share |
| BinaryManager.FileName | app/bin/binary_manager.py:33 | a record's file name is its name followed by the extension ".bin" |
| BinaryManager.PathConversor | app/bin/binary_manager.py:25-33 | _path_conversor: the path is "app/bin", a slash, then the record's file name |
| BinaryManager.FileNameInjective | app/bin/binary_manager.py:33 | distinct names give distinct `<name>.bin` file names |
| BinaryManager.PathConversorInjective | app/bin/binary_manager.py:25-33 | distinct names give distinct paths under app/bin |
| BinaryManager.Split | app/bin/binary_manager.py:44 | str.split(".") yields at least one piece, and no piece contains a dot |
| BinaryManager.JoinSplit | app/bin/binary_manager.py:44 | joining the pieces with dots gives back the string |
| BinaryManager.SplitDotFree | app/bin/binary_manager.py:44 | a dot-free string splits into itself alone |
| BinaryManager.SplitAfterDotFree | app/bin/binary_manager.py:44 | splitting a dot-free prefix, a dot and a rest gives that prefix followed by the rest's pieces |
| BinaryManager.ListedName | app/bin/binary_manager.py:44-46 | the name bin_files_list reports for one directory entry, if any; a reported name never contains a dot |
| BinaryManager.ListedNameOfEntry | app/bin/binary_manager.py:43-46 | a dot-free name followed by ".bin" and then nothing or a further dot is listed under that name |
| BinaryManager.ListedNameShape | app/bin/binary_manager.py:43-46 | conversely, a listed entry is a dot-free name, then ".bin", then nothing or a further dot |
| BinaryManager.ListedStaleCopy | app/bin/binary_manager.py:43-46 | a stale copy "x.bin.old" is listed as "x" |
| BinaryManager.UnlistedSecondPiece | app/bin/binary_manager.py:43-46 | "a.b.bin" is not listed: its second dot-piece is "b" |
| BinaryManager.UnlistedWithoutDot | app/bin/binary_manager.py:43-46 | every entry without a dot is not listed |
| BinaryManager.UnlistedBin | app/bin/binary_manager.py:43-46 | in particular an entry named "bin" is not listed |
| BinaryManager.UnlistedSourceFile | app/bin/binary_manager.py:43-46 | "binary_manager.py" is not listed |
| BinaryManager.ListedNames | app/bin/binary_manager.py:41-48 | the list bin_files_list returns for a listing order: at most one name per entry, and no name contains a dot |
| BinaryManager.ListedNamesAppend | app/bin/binary_manager.py:41-48 | listing a concatenated order concatenates the listings, so names keep their entries' order |
| BinaryManager.ListedNamesMembers | app/bin/binary_manager.py:41-48 | a name is listed exactly when some entry is listed under it |
| BinaryManager.Lookup | app/bin/binary_manager.py:88-101 | get as documented: succeeds exactly when the record's file exists and holds a pickled object, and then returns that object; fails with not-found for a missing file and unreadable for a corrupt one |
| BinaryManager.Removed | app/bin/binary_manager.py:61-69 | delete: fails, with not-found, exactly when the record's file is missing; otherwise removes that file alone, keeping every other file's content |
| BinaryManager.Posted | app/bin/binary_manager.py:71-86 | post: afterwards the record's file holds the new object, the set of files gains at most that file, and every other file keeps its content |
| BinaryManager.LookupAsWritten | app/bin/binary_manager.py:88-101 | get as written: always fails with not-readable, leaves garbage in the record's file (creating it if missing), and keeps every other file |
| BinaryManager.PostOverwrites | app/bin/binary_manager.py:78-84 | after post the record's file holds the new object, the set of files gains at most that file, and every other file is unchanged |
| BinaryManager.PostGetRoundTrip | app/bin/binary_manager.py:71-101 | get after post returns the posted object |
| BinaryManager.PostKeepsOthers | app/bin/binary_manager.py:71-86 | post leaves get and the existence of every other name unchanged |
| BinaryManager.PostTwice | app/bin/binary_manager.py:78-84 | a second post of a name overwrites the first: the result is as if only the second was posted |
| BinaryManager.DeleteRemoves | app/bin/binary_manager.py:61-69 | delete fails, with not-found, exactly when the file is missing; otherwise the name is gone and every other name is unchanged |
| BinaryManager.DeleteUndoesPost | app/bin/binary_manager.py:61-86 | deleting a freshly posted record restores the directory |
| BinaryManager.PostThenListed | app/bin/binary_manager.py:33-48 | a posted dot-free name appears in the listing, whatever the listing order |
| BinaryManager.GetAsWrittenBreaksRoundTrip | app/bin/binary_manager.py:96-98 | get as written fails right after a post of that name, and leaves a file that later documented gets cannot read |
| BinaryManager.BinManager.constructor | app/bin/binary_manager.py:18-23 | the store is over the given directory |
| BinaryManager.BinManager.BinFilesList | app/bin/binary_manager.py:35-48 | the loop returns the listing of the given order; a name is returned exactly when some file present is listed under it |
| BinaryManager.BinManager.BinExists | app/bin/binary_manager.py:50-59 | true exactly when get does not report a missing file |
| BinaryManager.BinManager.Delete | app/bin/binary_manager.py:61-69 | fails, with not-found and the directory unchanged, exactly when the file is missing; otherwise removes that one file |
| BinaryManager.BinManager.Post | app/bin/binary_manager.py:71-86 | the new directory is the old one with any existing record deleted and the new one written; get then returns the object |
| BinaryManager.BinManager.Get | app/bin/binary_manager.py:88-101 | the documented get on the current directory; it succeeds only for an existing record |
| BinaryManager.BinManager.GetAsWritten | app/bin/binary_manager.py:88-101 | as written: the record's file is truncated to garbage, and the call fails because the file is not open for reading |
| ConcatenateBinSimulations.Flatten | app/data/concatenate_bin_simulations.py:27 | the rows of all chunks in order: as many rows as the chunks together, beginning with the first chunk's rows |
| ConcatenateBinSimulations.Concatenate | app/data/concatenate_bin_simulations.py:27 | np.concatenate: fails exactly for an empty list (empty-dataset error) or chunks whose shapes differ (shape-mismatch error); otherwise has the chunks' total rows, beginning with the first chunk |
| ConcatenateBinSimulations.FlattenAt | app/data/concatenate_bin_simulations.py:27 | row j of chunk i is row TotalRows(first i chunks) + j of the concatenation |
| ConcatenateBinSimulations.FlattenAppend | app/data/concatenate_bin_simulations.py:27 | concatenating appended lists of chunks appends their concatenations and adds their row counts |
| ConcatenateBinSimulations.FlattenWidth | app/data/concatenate_bin_simulations.py:27 | when every row of every chunk has width w, so does every row of the result |
| ConcatenateBinSimulations.ConcatenateTwo | app/data/concatenate_bin_simulations.py:27 | two non-empty rectangular chunks of equal width concatenate to their rows in order; chunks of different widths are refused |
| ConcatenateBinSimulations.LoadAll | app/data/concatenate_bin_simulations.py:24-25 | the loading loop: on success one chunk per name; on failure the not-found or unreadable error of a get |
| ConcatenateBinSimulations.LoadAllFetchesEach | app/data/concatenate_bin_simulations.py:24-25 | loading succeeds exactly when every listed name can be fetched; it then fetches each name once, in listing order; on failure the error is the first failing name's |
| ConcatenateBinSimulations.LoadAllStopsAtFailure | app/data/concatenate_bin_simulations.py:24-25 | once a prefix of the names fails to load, the whole load fails with the same error |
| ConcatenateBinSimulations.Assemble | app/data/concatenate_bin_simulations.py:15-27 | concat_simulations: an empty listing gives the empty-dataset error; a success means every listed record loaded, and the result has their rows together |
| ConcatenateBinSimulations.ConcatSimulations | app/data/concatenate_bin_simulations.py:15-27 | the method's list-load-concatenate loop returns exactly `Assemble` of the directory and its listing order |
| ConcatenateBinSimulations.EmptyListing | app/data/concatenate_bin_simulations.py:27 | a directory with nothing listed gives an error, not an empty dataset |
| ConcatenateBinSimulations.AssembleRows | app/data/concatenate_bin_simulations.py:24-27 | a successful assembly loads one chunk per listed name and has as many rows as those chunks together |
| ConcatenateBinSimulations.StaleCopyListed | app/bin/binary_manager.py:43-46 | a directory holding "x.bin" and "x.bin.old" lists "x" twice |
| ConcatenateBinSimulations.StaleCopyLoaded | app/data/concatenate_bin_simulations.py:24-25 | that listing loads the record of x twice |
| ConcatenateBinSimulations.StaleCopyDuplicates | app/data/concatenate_bin_simulations.py:15-27 | so the dataset holds x's rows twice, and the stale copy's contents not at all |
| Ensemble.TotalRowsUniform | app/data/concatenate_bin_simulations.py:27 | chunks of n rows each give n times the number of chunks rows in all |
| Ensemble.FlattenRowOrigin | app/data/concatenate_bin_simulations.py:27 | every row of the concatenation is a row of one of the chunks |
| Ensemble.EnsembleShape | app/core/multicore_simulation.py:38-53 | the chunks of identical workers, each running at least one simulation, concatenate into share × workers rows of `samples` columns |
| Ensemble.WorkerRowFinalValue | app/generator/coinflip_chunk.py:31 | one worker's cumulative coin-flip row has `samples` entries and ends in [-samples, samples] with the parity of samples |
| Ensemble.EnsembleFinalValues | app/generator/coinflip_chunk.py:31 | every cumulative coin-flip trajectory in the dataset ends at a value in [-samples, samples] with the parity of samples |
| Ensemble.EnsembleTooFewSimulations | app/core/multicore_simulation.py:38 | when the share is zero (fewer simulations than workers), the dataset is empty rather than an error |
| Ensemble.EightCoreScenario | app/core/multicore_simulation.py:24-38 | 1000 walks of 100 coin flips on 8 CPUs with one held back: 7 workers of 142 walks, 994 trajectories of 100 entries, each ending at an even value in [-100, 100] |

## Left out

- Process management. `_start_subprocess`, `_join_subprocess`, `run` and the
  process objects' start, join and close are not modelled: this is
  concurrency and operating-system behaviour. The plan of tasks is modelled;
  its execution is not.
- Worker results. `_chunk` computes a chunk and discards it; nothing in the
  source posts it to the store. The model therefore does not connect
  workers to the store. `Ensemble` reasons about the chunks the workers would
  produce.
- `MultiCoreSimulation.MultiCore.GenerateSubprocess`: a planned task is a
  value copy of the coordinator's parameters, taken when the plan is built.
  In the source every process holds the same coordinator object and reads
  its fields when the process starts. The two agree in `run`, which starts
  the processes right after planning. A change to the fields between
  planning and starting is not modelled.
- `MultiCoreSimulation.MultiCore.CoinflipArgs`: does not model the floating
  point rounding of `simulations / on_cpu`. The model truncates the exact
  quotient. Python divides in double precision first, and the two can differ
  once `|simulations|` exceeds 2^53.
- `MultiCoreSimulation.TruncDiv`: the same limit applies. It is exact
  truncation, not truncation of a double-precision quotient.
- Randomness. `np.random.choice` is an oracle of indices with positive
  probability. Statistical distribution claims about the walks are out of
  scope.
- `Coinflip.GeneratorRandomWalk.Run`: the probability validation uses exact real
  arithmetic. numpy accepts sums within a small floating-point tolerance of 1,
  and rejects NaN weights; neither is modelled.
- Sample values. They are integers. The source also allows float sample
  values, which are not modelled.
- `Coinflip.GeneratorRandomWalk.GetCumArray`: the exact prefix-sum equation
  holds for unbounded integers only. With float sample values, np.cumsum
  rounds each partial sum. Over int64 values, np.cumsum wraps around on
  overflow, which the model's unbounded `int` does not.
- `Coinflip.CumSum`: the same two limits apply (float rounding, int64
  wrap-around).
- Attribute errors. Reading `MultiCore`'s parameters before `coinflip_args`
  raises AttributeError in the source. The model's constructor gives them
  default values instead. `Run`'s reset of `data` is modelled, and so is
  calling the getters before any run (a missing-data error).
- Pickling and the file system:
  - record contents are the objects themselves, so serialisation is left
    out;
  - path normalisation (names holding "/" or absolute names) is left out;
  - directories named like records are left out;
  - os.listdir errors for a missing app/bin directory are left out;
  - a crash between post's delete and its write is left out.
- Record type. `get` returns any unpickled object. In the assembler the model
  types records as chunks of integers.
- Logging, plotting and the script in `__main__.py` are not modelled: they are
  output only. The `graph` modules and `log/genlog.py` are not part of this
  model.
- Crashes before the modelled behaviour. The undefined import in
  `binary_manager.py` raises ImportError. The missing sample space at
  `coinflip_chunk.py:26` and the fifth argument at `__main__.py:27` raise
  TypeError. The model follows the documented intent instead
  of modelling those crashes.

## Findings

| source | as written | input that shows it | evidently intended | confidence | as-written member | corrected member |
|---|---|---|---|---|---|---|
| app/bin/binary_manager.py:97 | `get` opens the record's file in write mode `"wb"`. This truncates the file, and `pickle.load` on a write-only handle then raises | `post("x", obj)` followed by `get("x")`: it raises instead of returning `obj`, and the record is destroyed | open the file for reading (`"rb"`), so that `get` after `post` returns the posted object | high, by reading; not executed | BinaryManager.LookupAsWritten, BinaryManager.BinManager.GetAsWritten, BinaryManager.GetAsWrittenBreaksRoundTrip | BinaryManager.Lookup, BinaryManager.BinManager.Get, BinaryManager.PostGetRoundTrip |
